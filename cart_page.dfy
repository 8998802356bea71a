/** The cart page: which lines are ticked, the order summary computed from
    the ticked lines, the quantity buttons, and "delete selected". */
module CartPage {
  import opened Wrappers
  import opened Seqs
  import opened Catalog
  import opened Store

  /** Orders of at least this much ship free. */
  const FreeShippingThreshold := 50000

  const ShippingFee := 3000

  /* ----------------------------------------------------------- selection */

  /** `cartItems.map((item) => item.id)`: the first selection, and what
      "select all" ticks. */
  function LineIds(items: seq<CartItem>): (r: seq<string>)
    ensures |r| == |items| && forall i :: 0 <= i < |items| ==> r[i] == items[i].id
  {
    seq(|items|, i requires 0 <= i < |items| => items[i].id)
  }

  /** The lines whose id is ticked, in cart order. */
  function SelectedCartItems(items: seq<CartItem>, selected: seq<string>): (r: seq<CartItem>)
    ensures forall x :: x in r <==> x in items && x.id in selected
  {
    Filter(items, (item: CartItem) => item.id in selected)
  }

  lemma SelectedKeepCartOrder(items: seq<CartItem>, selected: seq<string>)
    ensures IsSubsequence(SelectedCartItems(items, selected), items)
  {
    FilterIsSubsequence(items, (item: CartItem) => item.id in selected);
  }

  /** Ticking the id of every line selects the whole cart. */
  lemma SelectingEveryIdSelectsAll(items: seq<CartItem>)
    ensures SelectedCartItems(items, LineIds(items)) == items
  {
    var ids := LineIds(items);
    forall x | x in items ensures x.id in ids {
      var i :| 0 <= i < |items| && items[i] == x;
      assert ids[i] == x.id;
    }
    FilterKeepsAll(items, (item: CartItem) => item.id in ids);
  }

  /** Ticking or unticking one line; the selection never holds an id twice. */
  function ToggleItemSelection(selected: seq<string>, itemId: string): (r: seq<string>)
    ensures itemId in r <==> itemId !in selected
    ensures forall id :: id != itemId ==> (id in r <==> id in selected)
    ensures NoDuplicates(selected) ==> NoDuplicates(r)
  {
    ToggleKeepsDistinct(selected, itemId);
    Toggle(selected, itemId)
  }

  /** "Select all" as written: it compares the number of ticked ids with the
      number of lines, then clears the selection or ticks every line. */
  function ToggleSelectAll(selected: seq<string>, items: seq<CartItem>): (r: seq<string>)
    ensures |selected| == |items| ==> r == []
    ensures |selected| != |items| ==> r == LineIds(items)
    ensures |selected| == |items| ==> SelectedCartItems(items, r) == []
    ensures |selected| != |items| ==> SelectedCartItems(items, r) == items
  {
    if |selected| == |items| then
      FilterKeepsNone(items, (item: CartItem) => item.id in []);
      []
    else
      SelectingEveryIdSelectsAll(items);
      LineIds(items)
  }

  lemma FilterKeepsNone(items: seq<CartItem>, p: CartItem -> bool)
    requires forall x :: !p(x)
    ensures Filter(items, p) == []
  {
  }

  /** The ticked ids can outlive their lines (the minus button removes a
      line at quantity 1 and leaves its id ticked). With one stale id and one
      unticked line the counts agree, so "select all" clears the selection:
      no line is ticked before or after. */
  lemma StaleSelectionBlocksSelectAll(line: CartItem, staleId: string)
    requires staleId != line.id
    ensures SelectedCartItems([line], [staleId]) == []
    ensures ToggleSelectAll([staleId], [line]) == []
    ensures SelectedCartItems([line], ToggleSelectAll([staleId], [line])) == []
  {
    assert line !in SelectedCartItems([line], [staleId]);
  }

  /** Every line of the cart is ticked. */
  predicate AllLinesSelected(items: seq<CartItem>, selected: seq<string>)
  {
    forall i :: 0 <= i < |items| ==> items[i].id in selected
  }

  /** "Select all" decided by the lines themselves: clears when every line is
      ticked and otherwise ticks them all, whatever stale ids the selection
      holds. */
  function ToggleSelectAllLines(selected: seq<string>, items: seq<CartItem>): (r: seq<string>)
    ensures AllLinesSelected(items, selected) ==> r == []
    ensures !AllLinesSelected(items, selected) ==> r == LineIds(items)
    ensures forall id :: id in r ==> exists i :: 0 <= i < |items| && items[i].id == id
    ensures AllLinesSelected(items, selected) ==> SelectedCartItems(items, r) == []
    ensures !AllLinesSelected(items, selected) ==> SelectedCartItems(items, r) == items
    ensures AllLinesSelected(items, selected) ==> SelectedCartItems(items, selected) == items
  {
    if AllLinesSelected(items, selected) then
      forall x | x in items ensures x.id in selected {
        var i :| 0 <= i < |items| && items[i] == x;
      }
      FilterKeepsAll(items, (item: CartItem) => item.id in selected);
      FilterKeepsNone(items, (item: CartItem) => item.id in []);
      []
    else
      SelectingEveryIdSelectsAll(items);
      LineIds(items)
  }

  /* ------------------------------------------------------- order summary */

  /** `item.product.originalPrice || item.product.price`: an absent or zero
      original price falls back to the price. */
  function OriginalUnitPrice(p: Product): (unit: int)
    ensures p.originalPrice.Some? && p.originalPrice.value != 0 ==> unit == p.originalPrice.value
    ensures p.originalPrice.None? || p.originalPrice.value == 0 ==> unit == p.price
  {
    if p.originalPrice.Some? && p.originalPrice.value != 0 then p.originalPrice.value else p.price
  }

  function LineOriginalPrice(item: CartItem): int
  {
    OriginalUnitPrice(item.product) * item.quantity
  }

  /** `totalPrice`: the sum of `price * quantity` over the ticked lines;
      nothing ticked costs nothing, and every line ticked costs the store's
      `getCartTotal`. */
  function TotalPrice(items: seq<CartItem>, selected: seq<string>): (total: int)
    ensures selected == [] ==> total == 0
    ensures (forall i :: 0 <= i < |items| ==> items[i].id in selected) ==> total == CartTotal(items)
  {
    NothingSelected(items, selected);
    EveryLineSelected(items, selected);
    CartTotal(SelectedCartItems(items, selected))
  }

  lemma NothingSelected(items: seq<CartItem>, selected: seq<string>)
    ensures selected == [] ==> SelectedCartItems(items, selected) == []
  {
    if selected == [] {
      FilterKeepsNone(items, (item: CartItem) => item.id in selected);
    }
  }

  lemma EveryLineSelected(items: seq<CartItem>, selected: seq<string>)
    ensures (forall i :: 0 <= i < |items| ==> items[i].id in selected) ==> SelectedCartItems(items, selected) == items
  {
    if forall i :: 0 <= i < |items| ==> items[i].id in selected {
      forall x | x in items ensures x.id in selected {
        var i :| 0 <= i < |items| && items[i] == x;
      }
      FilterKeepsAll(items, (item: CartItem) => item.id in selected);
    }
  }

  /** `totalOriginalPrice`: without any original prices it is the plain
      total. */
  function TotalOriginalPrice(items: seq<CartItem>, selected: seq<string>): (total: int)
    ensures selected == [] ==> total == 0
    ensures (forall i :: 0 <= i < |items| ==> items[i].product.originalPrice.None?) ==> total == TotalPrice(items, selected)
  {
    NothingSelected(items, selected);
    NoOriginalPrices(items, selected);
    SumOf(SelectedCartItems(items, selected), LineOriginalPrice)
  }

  lemma NoOriginalPrices(items: seq<CartItem>, selected: seq<string>)
    ensures (forall i :: 0 <= i < |items| ==> items[i].product.originalPrice.None?) ==>
      SumOf(SelectedCartItems(items, selected), LineOriginalPrice) == CartTotal(SelectedCartItems(items, selected))
  {
    if forall i :: 0 <= i < |items| ==> items[i].product.originalPrice.None? {
      var chosen := SelectedCartItems(items, selected);
      forall i | 0 <= i < |chosen| ensures LineOriginalPrice(chosen[i]) == LinePrice(chosen[i]) {
        assert chosen[i] in items;
        var j :| 0 <= j < |items| && items[j] == chosen[i];
      }
      SumOfMonotone(chosen, LinePrice, LineOriginalPrice);
      SumOfMonotone(chosen, LineOriginalPrice, LinePrice);
    }
  }

  /** `totalDiscount`: the amount saved against the original prices; none
      when nothing is ticked or no product has an original price. */
  function TotalDiscount(items: seq<CartItem>, selected: seq<string>): (discount: int)
    ensures selected == [] ==> discount == 0
    ensures (forall i :: 0 <= i < |items| ==> items[i].product.originalPrice.None?) ==> discount == 0
  {
    TotalOriginalPrice(items, selected) - TotalPrice(items, selected)
  }

  /** `deliveryFee`: free from the threshold up, a flat fee below it, the
      empty selection included. */
  function DeliveryFee(totalPrice: int): (fee: int)
    ensures fee == 0 <==> totalPrice >= FreeShippingThreshold
    ensures fee == 0 || fee == ShippingFee
  {
    if totalPrice >= FreeShippingThreshold then 0 else ShippingFee
  }

  /** `finalPrice`: adds at most the fee, and nothing from the threshold up. */
  function FinalPrice(totalPrice: int): (final: int)
    ensures totalPrice <= final <= totalPrice + ShippingFee
    ensures final == totalPrice <==> totalPrice >= FreeShippingThreshold
  {
    totalPrice + DeliveryFee(totalPrice)
  }

  /** The amount shown in the free-shipping hint, when it is shown. */
  function FreeShippingHint(totalPrice: int): (r: Option<int>)
    ensures r.Some? <==> 0 < totalPrice < FreeShippingThreshold
    ensures r.Some? ==> r.value > 0 && DeliveryFee(totalPrice) == ShippingFee
    ensures r.Some? ==> DeliveryFee(totalPrice + r.value) == 0 && DeliveryFee(totalPrice + r.value - 1) == ShippingFee
  {
    if totalPrice < FreeShippingThreshold && totalPrice > 0 then Some(FreeShippingThreshold - totalPrice) else None
  }

  /** With every line ticked, the summary's price is the store's
      `getCartTotal`. */
  lemma SelectAllTotalIsCartTotal(items: seq<CartItem>)
    ensures TotalPrice(items, LineIds(items)) == CartTotal(items)
    ensures TotalPrice(items, ToggleSelectAll([], items)) == CartTotal(items) || items == []
  {
    SelectingEveryIdSelectsAll(items);
  }

  lemma MultiplyMonotone(a: int, b: int, q: int)
    requires a <= b && q >= 0
    ensures a * q <= b * q
  {
  }

  /** When no line has a positive original price below its price and no
      quantity is negative, the discount shown is never negative. */
  lemma DiscountIsNonNegative(items: seq<CartItem>, selected: seq<string>)
    requires forall i :: 0 <= i < |items| ==> items[i].quantity >= 0 && items[i].product.price <= OriginalUnitPrice(items[i].product)
    ensures TotalDiscount(items, selected) >= 0
  {
    var chosen := SelectedCartItems(items, selected);
    forall i | 0 <= i < |chosen| ensures LinePrice(chosen[i]) <= LineOriginalPrice(chosen[i]) {
      assert chosen[i] in items;
      var j :| 0 <= j < |items| && items[j] == chosen[i];
      MultiplyMonotone(chosen[i].product.price, OriginalUnitPrice(chosen[i].product), chosen[i].quantity);
    }
    SumOfMonotone(chosen, LinePrice, LineOriginalPrice);
  }

  /* ----------------------------------------------------- quantity buttons */

  /** The plus button is enabled only below the stock. */
  predicate PlusEnabled(item: CartItem)
    ensures PlusEnabled(item) <==> item.quantity + 1 <= item.product.stock
  {
    item.quantity < item.product.stock
  }

  /** The minus button on a line at quantity 1 sends quantity 0, which the
      store treats as removal: with distinct ids, that line alone goes and
      the count drops by one. */
  lemma MinusAtOneRemovesLine(items: seq<CartItem>, i: nat)
    requires UniqueIds(items) && i < |items| && items[i].quantity == 1
    ensures CartUpdate(items, items[i].id, items[i].quantity - 1) == items[..i] + items[i + 1..]
    ensures CartCount(CartUpdate(items, items[i].id, items[i].quantity - 1)) == CartCount(items) - 1
  {
    RemoveOneLine(items, i);
  }

  /** The plus button, while enabled, raises the line by one and never
      past the stock. */
  lemma PlusStaysWithinStock(items: seq<CartItem>, i: nat)
    requires UniqueIds(items) && i < |items| && items[i].quantity >= 0 && PlusEnabled(items[i])
    ensures var r := CartUpdate(items, items[i].id, items[i].quantity + 1);
      && r == items[i := items[i].(quantity := items[i].quantity + 1)]
      && r[i].quantity <= r[i].product.stock
      && CartCount(r) == CartCount(items) + 1
  {
    UpdateSetsOneLine(items, i, items[i].quantity + 1);
  }

  /* ----------------------------------------------------- delete selected */

  /** The lines that stay after the ticked ones are deleted. */
  function Unselected(items: seq<CartItem>, selected: seq<string>): (r: seq<CartItem>)
    ensures forall x :: x in r <==> x in items && x.id !in selected
  {
    Filter(items, (item: CartItem) => item.id !in selected)
  }

  /** Deleting the ticked lines takes exactly the summary's price off the
      cart total, and their quantities off the count. */
  lemma DeletingSelectedTakesOffTheirTotal(items: seq<CartItem>, selected: seq<string>)
    ensures CartTotal(Unselected(items, selected)) == CartTotal(items) - TotalPrice(items, selected)
    ensures CartCount(Unselected(items, selected)) == CartCount(items) - CartCount(SelectedCartItems(items, selected))
  {
    var chosen := (item: CartItem) => item.id in selected;
    var rest := (item: CartItem) => item.id !in selected;
    SumOfSplit(items, chosen, rest, LinePrice);
    SumOfSplit(items, chosen, rest, LineQuantity);
  }

  lemma NothingTickedKeepsAll(items: seq<CartItem>)
    ensures Unselected(items, []) == items
  {
    FilterKeepsAll(items, (item: CartItem) => item.id !in []);
  }

  /** Removing one more id from what is left after the first `k`. */
  lemma RemovingOneMore(items: seq<CartItem>, ids: seq<string>, k: nat)
    requires k < |ids|
    ensures RemoveLines(Unselected(items, ids[..k]), ids[k]) == Unselected(items, ids[..k + 1])
  {
    assert forall x :: x in ids[..k + 1] <==> x in ids[..k] || x == ids[k] by {
      assert ids[..k + 1] == ids[..k] + [ids[k]];
    }
    FilterFilter(items, (item: CartItem) => item.id !in ids[..k], (item: CartItem) => item.id != ids[k],
                 (item: CartItem) => item.id !in ids[..k + 1]);
  }

  /** "Delete selected": `removeFromCart` for each ticked id in turn, then an
      empty selection. */
  method DeleteSelected(store: Store, selectedItems: seq<string>) returns (selection: seq<string>)
    modifies store
    requires store.Valid()
    ensures store.Valid()
    ensures store.cartItems == Unselected(old(store.cartItems), selectedItems)
    ensures store.user == old(store.user) && store.wishlistItems == old(store.wishlistItems)
    ensures store.searchHistory == old(store.searchHistory)
    ensures selection == []
  {
    assert selectedItems[..0] == [];
    NothingTickedKeepsAll(store.cartItems);
    for k := 0 to |selectedItems|
      invariant store.Valid()
      invariant store.cartItems == Unselected(old(store.cartItems), selectedItems[..k])
      invariant store.user == old(store.user) && store.wishlistItems == old(store.wishlistItems)
      invariant store.searchHistory == old(store.searchHistory)
    {
      store.RemoveFromCart(selectedItems[k]);
      RemovingOneMore(old(store.cartItems), selectedItems, k);
    }
    assert selectedItems[..|selectedItems|] == selectedItems;
    selection := [];
  }
}
