/** The client state store: the signed-in user, the cart, the wishlist and
    the search history, and the rule by which each method computes the new
    value of the field it overwrites. */
module Store {
  import opened Wrappers
  import opened Seqs
  import opened Catalog

  datatype User = User(id: string, name: string, email: string, isGuest: bool)

  /** One cart line. The store keeps whatever `quantity` it is given. */
  datatype CartItem = CartItem(id: string, product: Product, color: string, size: string, quantity: int, addedAt: string)

  datatype WishlistItem = WishlistItem(id: string, product: Product, addedAt: string)

  /* ---------------------------------------------------------------- cart */

  /** What identifies a cart line: product id, color and size. */
  datatype LineKey = LineKey(productId: int, color: string, size: string)

  function KeyOfLine(item: CartItem): LineKey
  {
    LineKey(item.product.id, item.color, item.size)
  }

  function IdOfLine(item: CartItem): string
  {
    item.id
  }

  /** At most one line per (product id, color, size). */
  ghost predicate UniqueLines(items: seq<CartItem>)
  {
    DistinctBy(items, KeyOfLine)
  }

  /** No two lines share an id. The ids are made from the clock, so the store
      itself does not guarantee this; lemmas that need it say so. */
  ghost predicate UniqueIds(items: seq<CartItem>)
  {
    DistinctBy(items, IdOfLine)
  }

  /** `cartItems.find(...)` by line key, as the index of the first match. */
  function FindLine(items: seq<CartItem>, key: LineKey): (r: Option<nat>)
    ensures r.Some? ==> r.value < |items| && KeyOfLine(items[r.value]) == key
    ensures r.Some? ==> forall j :: 0 <= j < r.value ==> KeyOfLine(items[j]) != key
    ensures r.None? <==> forall j :: 0 <= j < |items| ==> KeyOfLine(items[j]) != key
    decreases |items|
  {
    if items == [] then None
    else if KeyOfLine(items[0]) == key then Some(0)
    else match FindLine(items[1..], key)
      case None => None
      case Some(i) => Some(i + 1)
  }

  /** The merge step of `addToCart`: every line whose id is `id` grows by
      `quantity`; nothing else changes. */
  function AddQuantity(items: seq<CartItem>, id: string, quantity: int): (r: seq<CartItem>)
    ensures |r| == |items|
    ensures forall j :: 0 <= j < |items| ==>
      r[j] == if items[j].id == id then items[j].(quantity := items[j].quantity + quantity) else items[j]
    decreases |items|
  {
    if items == [] then []
    else
      var head := if items[0].id == id then items[0].(quantity := items[0].quantity + quantity) else items[0];
      [head] + AddQuantity(items[1..], id, quantity)
  }

  /** The `q > 0` step of `updateCartQuantity`: every line whose id is `id`
      gets quantity `quantity`; nothing else changes. */
  function SetQuantity(items: seq<CartItem>, id: string, quantity: int): (r: seq<CartItem>)
    ensures |r| == |items|
    ensures forall j :: 0 <= j < |items| ==>
      r[j] == if items[j].id == id then items[j].(quantity := quantity) else items[j]
    decreases |items|
  {
    if items == [] then []
    else
      var head := if items[0].id == id then items[0].(quantity := quantity) else items[0];
      [head] + SetQuantity(items[1..], id, quantity)
  }

  /** A list whose keys are those of a list with distinct keys, position by
      position, has distinct keys too. */
  lemma SameKeysUnique(items: seq<CartItem>, r: seq<CartItem>)
    requires |r| == |items| && forall j :: 0 <= j < |items| ==> KeyOfLine(r[j]) == KeyOfLine(items[j])
    ensures UniqueLines(items) ==> UniqueLines(r)
  {
  }

  /** The new `cartItems` after `addToCart(product, color, size, quantity)`:
      the first line with the same key grows (through its id), or a new line
      is appended. `newId` and `addedAt` stand for the clock-made id and time. */
  function CartAdd(items: seq<CartItem>, product: Product, color: string, size: string, quantity: int,
                   newId: string, addedAt: string): (r: seq<CartItem>)
    ensures FindLine(items, LineKey(product.id, color, size)).None? ==>
      r == items + [CartItem(newId, product, color, size, quantity, addedAt)]
    ensures FindLine(items, LineKey(product.id, color, size)).Some? ==> |r| == |items|
  {
    match FindLine(items, LineKey(product.id, color, size))
    case Some(i) => AddQuantity(items, items[i].id, quantity)
    case None => items + [CartItem(newId, product, color, size, quantity, addedAt)]
  }

  /** After `addToCart` the cart has a line for the product, color and size,
      and it still has at most one line per key. */
  lemma CartAddKeepsLinesUnique(items: seq<CartItem>, product: Product, color: string, size: string, quantity: int,
                                newId: string, addedAt: string)
    ensures var r := CartAdd(items, product, color, size, quantity, newId, addedAt);
      && FindLine(r, LineKey(product.id, color, size)).Some?
      && (UniqueLines(items) ==> UniqueLines(r))
  {
    var key := LineKey(product.id, color, size);
    var r := CartAdd(items, product, color, size, quantity, newId, addedAt);
    match FindLine(items, key)
    case Some(i) =>
      assert KeyOfLine(r[i]) == key;
      SameKeysUnique(items, r);
    case None =>
      assert KeyOfLine(r[|items|]) == key;
  }

  /** Merging only changes quantities: each line whose id is that of the
      first line with the key grows by `quantity`, and no other line changes. */
  lemma MergeChangesQuantitiesOnly(items: seq<CartItem>, product: Product, color: string, size: string,
                                   quantity: int, newId: string, addedAt: string, i: nat)
    requires FindLine(items, LineKey(product.id, color, size)) == Some(i)
    ensures var r := CartAdd(items, product, color, size, quantity, newId, addedAt);
      && |r| == |items|
      && (forall j :: 0 <= j < |items| && items[j].id != items[i].id ==> r[j] == items[j])
      && (forall j :: 0 <= j < |items| && items[j].id == items[i].id ==>
            r[j] == items[j].(quantity := items[j].quantity + quantity))
  {
  }

  /** With distinct ids, merging changes exactly the one matching line. */
  lemma MergeGrowsOneLine(items: seq<CartItem>, product: Product, color: string, size: string, quantity: int,
                          newId: string, addedAt: string, i: nat)
    requires UniqueIds(items)
    requires FindLine(items, LineKey(product.id, color, size)) == Some(i)
    ensures CartAdd(items, product, color, size, quantity, newId, addedAt) == items[i := items[i].(quantity := items[i].quantity + quantity)]
  {
    MergeChangesQuantitiesOnly(items, product, color, size, quantity, newId, addedAt, i);
    var r := CartAdd(items, product, color, size, quantity, newId, addedAt);
    var u := items[i := items[i].(quantity := items[i].quantity + quantity)];
    forall j | 0 <= j < |items| ensures r[j] == u[j] {
      if j < i {
        assert IdOfLine(items[j]) != IdOfLine(items[i]);
      } else if j > i {
        assert IdOfLine(items[i]) != IdOfLine(items[j]);
      }
    }
    assert r == u;
  }

  /** `price * quantity` of one line. */
  function LinePrice(item: CartItem): int
  {
    item.product.price * item.quantity
  }

  function LineQuantity(item: CartItem): int
  {
    item.quantity
  }

  /** `getCartTotal`: the sum of price times quantity over the lines. */
  function CartTotal(items: seq<CartItem>): (total: int)
    ensures items == [] ==> total == 0
    ensures (forall i :: 0 <= i < |items| ==> items[i].product.price >= 0 && items[i].quantity >= 0) ==> total >= 0
  {
    LinePricesNonNegative(items);
    SumOfNonNegative(items, LinePrice);
    SumOf(items, LinePrice)
  }

  lemma LinePricesNonNegative(items: seq<CartItem>)
    ensures (forall i :: 0 <= i < |items| ==> items[i].product.price >= 0 && items[i].quantity >= 0) ==>
      forall i :: 0 <= i < |items| ==> LinePrice(items[i]) >= 0
  {
    forall i | 0 <= i < |items| && items[i].product.price >= 0 && items[i].quantity >= 0
      ensures LinePrice(items[i]) >= 0
    {
      MulNonNegative(items[i].product.price, items[i].quantity);
    }
  }

  /** `getCartCount`: the sum of the quantities, so at least one per line
      when every quantity is positive. */
  function CartCount(items: seq<CartItem>): (count: int)
    ensures items == [] ==> count == 0
    ensures (forall i :: 0 <= i < |items| ==> items[i].quantity >= 0) ==> count >= 0
    ensures (forall i :: 0 <= i < |items| ==> items[i].quantity >= 1) ==> count >= |items|
  {
    SumOfNonNegative(items, LineQuantity);
    SumOfAtLeastLength(items, LineQuantity);
    SumOf(items, LineQuantity)
  }

  /** With distinct ids, adding `quantity` to an existing line raises the
      count by `quantity` and the total by `quantity` times the unit price of
      the product snapshot already in that line. */
  lemma MergeTotals(items: seq<CartItem>, product: Product, color: string, size: string, quantity: int,
                    newId: string, addedAt: string, i: nat)
    requires UniqueIds(items)
    requires FindLine(items, LineKey(product.id, color, size)) == Some(i)
    ensures CartCount(CartAdd(items, product, color, size, quantity, newId, addedAt)) == CartCount(items) + quantity
    ensures CartTotal(CartAdd(items, product, color, size, quantity, newId, addedAt)) ==
      CartTotal(items) + items[i].product.price * quantity
  {
    MergeGrowsOneLine(items, product, color, size, quantity, newId, addedAt, i);
    GrowLineTotals(items, i, quantity);
  }

  /** Adding a new line raises the count by `quantity` and the total by
      `quantity` times the product's price. */
  lemma NewLineTotals(items: seq<CartItem>, product: Product, color: string, size: string, quantity: int,
                      newId: string, addedAt: string)
    requires FindLine(items, LineKey(product.id, color, size)).None?
    ensures CartCount(CartAdd(items, product, color, size, quantity, newId, addedAt)) == CartCount(items) + quantity
    ensures CartTotal(CartAdd(items, product, color, size, quantity, newId, addedAt)) ==
      CartTotal(items) + product.price * quantity
  {
    AppendLineTotals(items, CartItem(newId, product, color, size, quantity, addedAt));
  }

  lemma GrowLineTotals(items: seq<CartItem>, i: nat, quantity: int)
    requires i < |items|
    ensures var r := items[i := items[i].(quantity := items[i].quantity + quantity)];
      && CartCount(r) == CartCount(items) + quantity
      && CartTotal(r) == CartTotal(items) + items[i].product.price * quantity
  {
    var grown := items[i].(quantity := items[i].quantity + quantity);
    SumOfUpdate(items, i, grown, LineQuantity);
    SumOfUpdate(items, i, grown, LinePrice);
    Distribute(items[i].product.price, items[i].quantity, quantity);
  }

  lemma AppendLineTotals(items: seq<CartItem>, line: CartItem)
    ensures CartCount(items + [line]) == CartCount(items) + line.quantity
    ensures CartTotal(items + [line]) == CartTotal(items) + line.product.price * line.quantity
  {
    SumOfAppend(items, [line], LineQuantity);
    SumOfAppend(items, [line], LinePrice);
  }

  lemma Distribute(a: int, b: int, c: int)
    ensures a * (b + c) == a * b + a * c
  {
  }

  lemma AppendFreshId(items: seq<CartItem>, line: CartItem)
    requires UniqueIds(items)
    requires forall j :: 0 <= j < |items| ==> items[j].id != line.id
    ensures UniqueIds(items + [line])
  {
    var once := items + [line];
    forall i, j | 0 <= i < j < |once| ensures IdOfLine(once[i]) != IdOfLine(once[j]) {
      assert once[i] == items[i];
      if j < |items| {
        assert once[j] == items[j];
      }
    }
  }

  lemma {:induction false} FindLineAppend(items: seq<CartItem>, line: CartItem, key: LineKey)
    requires FindLine(items, key).None? && KeyOfLine(line) == key
    ensures FindLine(items + [line], key) == Some(|items|)
    decreases |items|
  {
    if items != [] {
      assert (items + [line])[1..] == items[1..] + [line];
      FindLineAppend(items[1..], line, key);
    }
  }

  /** `cartItems.filter((item) => item.id !== itemId)`. */
  function RemoveLines(items: seq<CartItem>, id: string): (r: seq<CartItem>)
    ensures forall x :: x in r <==> x in items && x.id != id
    ensures (forall j :: 0 <= j < |items| ==> items[j].id != id) ==> r == items
    ensures UniqueLines(items) ==> UniqueLines(r)
    ensures UniqueIds(items) ==> UniqueIds(r)
  {
    RemoveLinesKeeps(items, id);
    Filter(items, (item: CartItem) => item.id != id)
  }

  lemma RemoveLinesKeeps(items: seq<CartItem>, id: string)
    ensures var r := Filter(items, (item: CartItem) => item.id != id);
      && ((forall j :: 0 <= j < |items| ==> items[j].id != id) ==> r == items)
      && (UniqueLines(items) ==> UniqueLines(r))
      && (UniqueIds(items) ==> UniqueIds(r))
  {
    var keep := (item: CartItem) => item.id != id;
    if UniqueLines(items) { FilterDistinctBy(items, keep, KeyOfLine); }
    if UniqueIds(items) { FilterDistinctBy(items, keep, IdOfLine); }
    if forall j :: 0 <= j < |items| ==> items[j].id != id {
      FilterKeepsAll(items, keep);
    }
  }

  /** The lines that stay keep their order. */
  lemma RemoveLinesKeepsOrder(items: seq<CartItem>, id: string)
    ensures IsSubsequence(RemoveLines(items, id), items)
  {
    FilterIsSubsequence(items, (item: CartItem) => item.id != id);
  }

  /** With distinct ids, removing the id of line `i` removes that line only,
      and the count and total drop by what it held. */
  lemma RemoveOneLine(items: seq<CartItem>, i: nat)
    requires UniqueIds(items) && i < |items|
    ensures RemoveLines(items, items[i].id) == items[..i] + items[i + 1..]
    ensures CartCount(RemoveLines(items, items[i].id)) == CartCount(items) - items[i].quantity
    ensures CartTotal(RemoveLines(items, items[i].id)) == CartTotal(items) - LinePrice(items[i])
  {
    var id := items[i].id;
    var a, b := items[..i], items[i + 1..];
    assert items == a + [items[i]] + b;
    forall x | x in a ensures x.id != id {
      var j :| 0 <= j < i && a[j] == x;
      assert IdOfLine(items[j]) != IdOfLine(items[i]);
    }
    forall x | x in b ensures x.id != id {
      var j :| 0 <= j < |b| && b[j] == x;
      assert IdOfLine(items[i]) != IdOfLine(items[i + 1 + j]);
    }
    FilterDropsOne(a, items[i], b, (item: CartItem) => item.id != id);
    DropLineTotals(a, items[i], b);
  }

  lemma DropLineTotals(a: seq<CartItem>, line: CartItem, b: seq<CartItem>)
    ensures CartCount(a + b) == CartCount(a + [line] + b) - line.quantity
    ensures CartTotal(a + b) == CartTotal(a + [line] + b) - LinePrice(line)
  {
    SumOfAppend(a + [line], b, LineQuantity);
    SumOfAppend(a, [line], LineQuantity);
    SumOfAppend(a, b, LineQuantity);
    SumOfAppend(a + [line], b, LinePrice);
    SumOfAppend(a, [line], LinePrice);
    SumOfAppend(a, b, LinePrice);
  }

  /** The new `cartItems` after `updateCartQuantity(itemId, quantity)`: a
      quantity of zero or less removes the line; any other sets it. */
  function CartUpdate(items: seq<CartItem>, id: string, quantity: int): (r: seq<CartItem>)
    ensures quantity <= 0 ==> r == RemoveLines(items, id)
    ensures quantity > 0 ==> |r| == |items| && forall j :: 0 <= j < |items| ==>
      r[j] == items[j].(quantity := if items[j].id == id then quantity else items[j].quantity)
    ensures (forall j :: 0 <= j < |items| ==> items[j].id != id) ==> r == items
    ensures UniqueLines(items) ==> UniqueLines(r)
  {
    if quantity <= 0 then RemoveLines(items, id)
    else
      var r := SetQuantity(items, id, quantity);
      SameKeysUnique(items, r);
      r
  }

  /** The quantity is set, not added: repeating an update changes nothing. */
  lemma UpdateTwiceIsOnce(items: seq<CartItem>, id: string, quantity: int)
    ensures CartUpdate(CartUpdate(items, id, quantity), id, quantity) == CartUpdate(items, id, quantity)
  {
    var once := CartUpdate(items, id, quantity);
    if quantity <= 0 {
      assert forall j :: 0 <= j < |once| ==> once[j].id != id by {
        forall j | 0 <= j < |once| ensures once[j].id != id {
          assert once[j] in once;
        }
      }
    }
  }

  /** With distinct ids and a positive quantity, the update changes exactly
      line `i`, and the count moves by the difference. */
  lemma UpdateSetsOneLine(items: seq<CartItem>, i: nat, quantity: int)
    requires UniqueIds(items) && i < |items| && quantity > 0
    ensures CartUpdate(items, items[i].id, quantity) == items[i := items[i].(quantity := quantity)]
    ensures CartCount(CartUpdate(items, items[i].id, quantity)) == CartCount(items) - items[i].quantity + quantity
  {
    forall j | 0 <= j < |items| && j != i ensures items[j].id != items[i].id {
      if j < i {
        assert IdOfLine(items[j]) != IdOfLine(items[i]);
      } else {
        assert IdOfLine(items[i]) != IdOfLine(items[j]);
      }
    }
    SumOfUpdate(items, i, items[i].(quantity := quantity), LineQuantity);
  }

  /* ------------------------------------------------------------ wishlist */

  function ProductIdOf(w: WishlistItem): int
  {
    w.product.id
  }

  /** At most one wishlist entry per product id. */
  ghost predicate UniqueProducts(ws: seq<WishlistItem>)
  {
    DistinctBy(ws, ProductIdOf)
  }

  /** `wishlistItems.some((item) => item.product.id === productId)`. */
  function InWishlist(ws: seq<WishlistItem>, productId: int): (b: bool)
    ensures b <==> exists j :: 0 <= j < |ws| && ws[j].product.id == productId
    decreases |ws|
  {
    if ws == [] then false
    else ws[0].product.id == productId || InWishlist(ws[1..], productId)
  }

  /** The new `wishlistItems` after `addToWishlist(product)`. */
  function WishlistAdd(ws: seq<WishlistItem>, product: Product, newId: string, addedAt: string): (r: seq<WishlistItem>)
    ensures InWishlist(r, product.id)
    ensures InWishlist(ws, product.id) ==> r == ws
    ensures !InWishlist(ws, product.id) ==> r == ws + [WishlistItem(newId, product, addedAt)]
    ensures UniqueProducts(ws) ==> UniqueProducts(r)
  {
    if InWishlist(ws, product.id) then ws
    else
      var r := ws + [WishlistItem(newId, product, addedAt)];
      assert r[|ws|].product.id == product.id;
      r
  }

  /** The new `wishlistItems` after `removeFromWishlist(productId)`. */
  function WishlistRemove(ws: seq<WishlistItem>, productId: int): (r: seq<WishlistItem>)
    ensures !InWishlist(r, productId)
    ensures forall q :: InWishlist(r, q) <==> q != productId && InWishlist(ws, q)
    ensures !InWishlist(ws, productId) ==> r == ws
    ensures UniqueProducts(ws) ==> UniqueProducts(r)
  {
    WishlistRemoveKeeps(ws, productId);
    Filter(ws, (w: WishlistItem) => w.product.id != productId)
  }

  lemma WishlistRemoveKeeps(ws: seq<WishlistItem>, productId: int)
    ensures var r := Filter(ws, (w: WishlistItem) => w.product.id != productId);
      && (forall q :: InWishlist(r, q) <==> q != productId && InWishlist(ws, q))
      && (!InWishlist(ws, productId) ==> r == ws)
      && (UniqueProducts(ws) ==> UniqueProducts(r))
  {
    var keep := (w: WishlistItem) => w.product.id != productId;
    var r := Filter(ws, keep);
    if UniqueProducts(ws) { FilterDistinctBy(ws, keep, ProductIdOf); }
    if !InWishlist(ws, productId) { FilterKeepsAll(ws, keep); }
    forall q ensures InWishlist(r, q) <==> q != productId && InWishlist(ws, q) {
      if InWishlist(r, q) {
        var j :| 0 <= j < |r| && r[j].product.id == q;
        assert r[j] in r;
      }
      if q != productId && InWishlist(ws, q) {
        var j :| 0 <= j < |ws| && ws[j].product.id == q;
        assert ws[j] in r;
      }
    }
  }

  /** Adding a product that is not wished for and removing it again gives
      back the wishlist. */
  lemma WishlistAddRemoveRestores(ws: seq<WishlistItem>, product: Product, newId: string, addedAt: string)
    requires !InWishlist(ws, product.id)
    ensures WishlistRemove(WishlistAdd(ws, product, newId, addedAt), product.id) == ws
  {
    var keep := (w: WishlistItem) => w.product.id != product.id;
    FilterAppend(ws, [WishlistItem(newId, product, addedAt)], keep);
    FilterKeepsAll(ws, keep);
    assert Filter([WishlistItem(newId, product, addedAt)], keep) == [];
  }

  /* ------------------------------------------------------ search history */

  /** `[query, ...filteredHistory].slice(0, 10)` keeps at most ten queries. */
  const HistoryLimit := 10

  /** The most-recent-first history has no repeated query and at most ten. */
  ghost predicate HistoryOk(h: seq<string>)
  {
    |h| <= HistoryLimit && NoDuplicates(h)
  }

  /** The new `searchHistory` after `addToSearchHistory(query)`. */
  function HistoryAdd(h: seq<string>, query: string): (r: seq<string>)
    ensures |r| > 0 && r[0] == query
    ensures |r| <= HistoryLimit
    ensures forall i :: 1 <= i < |r| ==> r[i] != query
    ensures r[1..] == Take(RemoveAll(h, query), HistoryLimit - 1)
    ensures HistoryOk(h) ==> HistoryOk(r)
  {
    var rest := RemoveAll(h, query);
    var r := Take([query] + rest, HistoryLimit);
    assert r[1..] == Take(rest, HistoryLimit - 1);
    HistoryAddDistinct(h, query);
    r
  }

  lemma HistoryAddDistinct(h: seq<string>, query: string)
    ensures NoDuplicates(h) ==> NoDuplicates(Take([query] + RemoveAll(h, query), HistoryLimit))
  {
    var rest := RemoveAll(h, query);
    var r := Take([query] + rest, HistoryLimit);
    if NoDuplicates(h) {
      RemoveAllNoDuplicates(h, query);
      forall i, j | 0 <= i < j < |r| ensures r[i] != r[j] {
        if i == 0 {
          assert r[j] == rest[j - 1];
        } else {
          assert r[i] == rest[i - 1] && r[j] == rest[j - 1];
        }
      }
    }
  }

  /** Searching again for a query already in a well-formed history moves it
      from its place to the front; nothing is dropped. */
  lemma RepeatedSearchMovesToFront(h: seq<string>, i: nat)
    requires HistoryOk(h) && i < |h|
    ensures HistoryAdd(h, h[i]) == [h[i]] + h[..i] + h[i + 1..]
  {
    RemoveAllOnce(h, i);
    assert |[h[i]] + RemoveAll(h, h[i])| == |h|;
  }

  /** The history after searching for each of `queries` in turn. */
  function SearchAll(h: seq<string>, queries: seq<string>): seq<string>
  {
    if queries == [] then h
    else HistoryAdd(SearchAll(h, queries[..|queries| - 1]), queries[|queries| - 1])
  }

  /** From an empty history, distinct searches leave the ten latest, newest
      first. */
  lemma {:induction false} HistoryKeepsLatest(queries: seq<string>)
    requires NoDuplicates(queries)
    ensures SearchAll([], queries) == Take(Reverse(queries), HistoryLimit)
  {
    if queries != [] {
      var n := |queries|;
      var earlier := queries[..n - 1];
      var q := queries[n - 1];
      assert NoDuplicates(earlier + [q]) by { assert queries == earlier + [q]; }
      HistoryKeepsLatest(earlier);
      var h := SearchAll([], earlier);
      NotInReversedPrefix(earlier, q);
      calc {
        SearchAll([], queries);
        HistoryAdd(h, q);
        Take([q] + RemoveAll(h, q), HistoryLimit);
        Take([q] + h, HistoryLimit);
        { TakeConsTake(q, Reverse(earlier), HistoryLimit); }
        Take([q] + Reverse(earlier), HistoryLimit);
        { assert queries == earlier + [q]; ReverseSnoc(earlier, q); }
        Take(Reverse(queries), HistoryLimit);
      }
    }
  }

  lemma NotInReversedPrefix(s: seq<string>, q: string)
    requires NoDuplicates(s + [q])
    ensures q !in Take(Reverse(s), HistoryLimit)
  {
    var h := Take(Reverse(s), HistoryLimit);
    forall k | 0 <= k < |h| ensures h[k] != q {
      assert h[k] == s[|s| - 1 - k] == (s + [q])[|s| - 1 - k];
      assert q == (s + [q])[|s|];
    }
  }

  /* --------------------------------------------------------------- store */

  /** The store object: every method overwrites some of its four fields. */
  class Store {
    var user: Option<User>
    var cartItems: seq<CartItem>
    var wishlistItems: seq<WishlistItem>
    var searchHistory: seq<string>

    /** The invariants the methods keep. */
    ghost predicate Valid()
      reads this
    {
      UniqueLines(cartItems) && UniqueProducts(wishlistItems) && HistoryOk(searchHistory)
    }

    constructor ()
      ensures Valid()
      ensures user == None && cartItems == [] && wishlistItems == [] && searchHistory == []
    {
      user := None;
      cartItems := [];
      wishlistItems := [];
      searchHistory := [];
    }

    method SetUser(u: User)
      modifies this
      requires Valid()
      ensures Valid()
      ensures user == Some(u)
      ensures cartItems == old(cartItems) && wishlistItems == old(wishlistItems) && searchHistory == old(searchHistory)
    {
      user := Some(u);
    }

    /** Signs out and empties the cart and the wishlist; the search history
        stays. */
    method Logout()
      modifies this
      requires Valid()
      ensures Valid()
      ensures user == None && cartItems == [] && wishlistItems == []
      ensures searchHistory == old(searchHistory)
    {
      user := None;
      cartItems := [];
      wishlistItems := [];
    }

    /** `newId` and `addedAt` are what the clock would give a new line. */
    method AddToCart(product: Product, color: string, size: string, quantity: int, newId: string, addedAt: string)
      modifies this
      requires Valid()
      ensures Valid()
      ensures cartItems == CartAdd(old(cartItems), product, color, size, quantity, newId, addedAt)
      ensures user == old(user) && wishlistItems == old(wishlistItems) && searchHistory == old(searchHistory)
    {
      var existingItem := FindLine(cartItems, LineKey(product.id, color, size));
      if existingItem.Some? {
        cartItems := AddQuantity(cartItems, cartItems[existingItem.value].id, quantity);
      } else {
        var newItem := CartItem(newId, product, color, size, quantity, addedAt);
        cartItems := cartItems + [newItem];
      }
      CartAddKeepsLinesUnique(old(cartItems), product, color, size, quantity, newId, addedAt);
    }

    method RemoveFromCart(itemId: string)
      modifies this
      requires Valid()
      ensures Valid()
      ensures cartItems == RemoveLines(old(cartItems), itemId)
      ensures user == old(user) && wishlistItems == old(wishlistItems) && searchHistory == old(searchHistory)
    {
      cartItems := RemoveLines(cartItems, itemId);
    }

    method UpdateCartQuantity(itemId: string, quantity: int)
      modifies this
      requires Valid()
      ensures Valid()
      ensures cartItems == CartUpdate(old(cartItems), itemId, quantity)
      ensures user == old(user) && wishlistItems == old(wishlistItems) && searchHistory == old(searchHistory)
    {
      if quantity <= 0 {
        RemoveFromCart(itemId);
        return;
      }
      cartItems := SetQuantity(cartItems, itemId, quantity);
    }

    method ClearCart()
      modifies this
      requires Valid()
      ensures Valid()
      ensures cartItems == [] && CartTotal(cartItems) == 0 && CartCount(cartItems) == 0
      ensures user == old(user) && wishlistItems == old(wishlistItems) && searchHistory == old(searchHistory)
    {
      cartItems := [];
    }

    /** `getCartTotal`. */
    function GetCartTotal(): (total: int)
      reads this
      ensures cartItems == [] ==> total == 0
      ensures (forall i :: 0 <= i < |cartItems| ==> cartItems[i].product.price >= 0 && cartItems[i].quantity >= 0) ==> total >= 0
    {
      CartTotal(cartItems)
    }

    /** `getCartCount`. */
    function GetCartCount(): (count: int)
      reads this
      ensures cartItems == [] ==> count == 0
      ensures (forall i :: 0 <= i < |cartItems| ==> cartItems[i].quantity >= 1) ==> count >= |cartItems|
    {
      CartCount(cartItems)
    }

    /** `newId` and `addedAt` are what the clock would give a new entry. */
    method AddToWishlist(product: Product, newId: string, addedAt: string)
      modifies this
      requires Valid()
      ensures Valid()
      ensures wishlistItems == WishlistAdd(old(wishlistItems), product, newId, addedAt)
      ensures IsInWishlist(product.id)
      ensures user == old(user) && cartItems == old(cartItems) && searchHistory == old(searchHistory)
    {
      if !InWishlist(wishlistItems, product.id) {
        var newItem := WishlistItem(newId, product, addedAt);
        wishlistItems := wishlistItems + [newItem];
      }
      assert wishlistItems == WishlistAdd(old(wishlistItems), product, newId, addedAt);
    }

    method RemoveFromWishlist(productId: int)
      modifies this
      requires Valid()
      ensures Valid()
      ensures wishlistItems == WishlistRemove(old(wishlistItems), productId)
      ensures !IsInWishlist(productId)
      ensures user == old(user) && cartItems == old(cartItems) && searchHistory == old(searchHistory)
    {
      wishlistItems := WishlistRemove(wishlistItems, productId);
    }

    /** `isInWishlist`. */
    function IsInWishlist(productId: int): (b: bool)
      reads this
      ensures b <==> exists j :: 0 <= j < |wishlistItems| && wishlistItems[j].product.id == productId
    {
      InWishlist(wishlistItems, productId)
    }

    method AddToSearchHistory(query: string)
      modifies this
      requires Valid()
      ensures Valid()
      ensures searchHistory == HistoryAdd(old(searchHistory), query)
      ensures user == old(user) && cartItems == old(cartItems) && wishlistItems == old(wishlistItems)
    {
      var history := searchHistory;
      var filteredHistory := RemoveAll(history, query);
      var newHistory := Take([query] + filteredHistory, HistoryLimit);
      searchHistory := newHistory;
      assert searchHistory == HistoryAdd(old(searchHistory), query);
    }

    method ClearSearchHistory()
      modifies this
      requires Valid()
      ensures Valid()
      ensures searchHistory == []
      ensures user == old(user) && cartItems == old(cartItems) && wishlistItems == old(wishlistItems)
    {
      searchHistory := [];
    }
  }
}
