/** The catalog orderings and the stable sort `Array.prototype.sort` performs
    (stable as required by section 22.1.3.27 of ECMA-262, 10th edition).
    Every comparator in the catalog code has the shape `(a, b) => key(a) -
    key(b)`, so each ordering is an ascending order on one integer key; the
    sort itself is stated for any element type and key function. */
module Sorting {
  import opened Catalog

  datatype SortKey =
    | PriceAscending      // (a, b) => a.price - b.price
    | PriceDescending     // (a, b) => b.price - a.price
    | RatingDescending    // (a, b) => b.rating - a.rating
    | NewestFirst         // (a, b) => b.createdAt - a.createdAt
    | ReviewsDescending   // (a, b) => b.reviewCount - a.reviewCount
    | SalesDescending     // (a, b) => b.salesCount - a.salesCount

  /** The integer a comparator orders by, ascending. */
  function Key(p: Product, k: SortKey): int
  {
    match k
    case PriceAscending => p.price
    case PriceDescending => -p.price
    case RatingDescending => -p.rating
    case NewestFirst => -p.createdAt
    case ReviewsDescending => -p.reviewCount
    case SalesDescending => -p.salesCount
  }

  /** The `switch (filters.sortBy)` of `getProducts`; `popular` is its
      `default` branch. */
  function KeyOf(order: SortBy): (k: SortKey)
    ensures order == Popular <==> k == ReviewsDescending
  {
    match order
    case PriceLow => PriceAscending
    case PriceHigh => PriceDescending
    case Rating => RatingDescending
    case Newest => NewestFirst
    case Popular => ReviewsDescending
  }

  /** The key a `SortKey` orders products by, as a function. */
  function By(k: SortKey): Product -> int
  {
    p => Key(p, k)
  }

  ghost predicate Sorted<T>(s: seq<T>, key: T -> int)
  {
    forall i, j :: 0 <= i < j < |s| ==> key(s[i]) <= key(s[j])
  }

  /** Inserts `x` in front of the first element whose key is not smaller. */
  function Insert<T>(x: T, t: seq<T>, key: T -> int): (r: seq<T>)
    ensures |r| == |t| + 1
    decreases |t|
  {
    if |t| == 0 then [x]
    else if key(x) <= key(t[0]) then [x] + t
    else [t[0]] + Insert(x, t[1..], key)
  }

  /** Inserting adds `x` and loses nothing. */
  lemma {:induction false} InsertPermutes<T>(x: T, t: seq<T>, key: T -> int)
    ensures multiset(Insert(x, t, key)) == multiset(t) + multiset{x}
    decreases |t|
  {
    if |t| != 0 && key(x) > key(t[0]) {
      InsertPermutes(x, t[1..], key);
      assert t == [t[0]] + t[1..];
    }
  }

  lemma {:induction false} InsertSorted<T>(x: T, t: seq<T>, key: T -> int)
    requires Sorted(t, key)
    ensures Sorted(Insert(x, t, key), key)
    decreases |t|
  {
    if |t| != 0 && key(x) > key(t[0]) {
      var rest := Insert(x, t[1..], key);
      InsertSorted(x, t[1..], key);
      InsertPermutes(x, t[1..], key);
      forall j | 0 <= j < |rest| ensures key(t[0]) <= key(rest[j]) {
        assert rest[j] in multiset(rest);
        if rest[j] != x {
          assert rest[j] in multiset(t[1..]);
          var i :| 0 <= i < |t[1..]| && t[1..][i] == rest[j];
          assert t[i + 1] == rest[j];
        }
      }
    }
  }

  /** Stable insertion sort by `key`. */
  function StableSort<T>(s: seq<T>, key: T -> int): (r: seq<T>)
    ensures |r| == |s|
    ensures multiset(r) == multiset(s)
    ensures Sorted(r, key)
    decreases |s|
  {
    if |s| == 0 then []
    else
      assert s == [s[0]] + s[1..];
      InsertSorted(s[0], StableSort(s[1..], key), key);
      InsertPermutes(s[0], StableSort(s[1..], key), key);
      Insert(s[0], StableSort(s[1..], key), key)
  }

  /** The elements of `s` whose key is `v`, in order. */
  function WithKey<T>(s: seq<T>, key: T -> int, v: int): seq<T>
    decreases |s|
  {
    if |s| == 0 then []
    else (if key(s[0]) == v then [s[0]] else []) + WithKey(s[1..], key, v)
  }

  lemma WithKeyCons<T>(x: T, t: seq<T>, key: T -> int, v: int)
    ensures WithKey([x] + t, key, v) == (if key(x) == v then [x] else []) + WithKey(t, key, v)
  {
    assert ([x] + t)[1..] == t;
  }

  /** The step of `InsertWithKey` where `x` moves past the head of `t`. */
  lemma InsertPastHead<T>(x: T, t: seq<T>, key: T -> int, v: int)
    requires |t| != 0 && key(x) > key(t[0])
    requires WithKey(Insert(x, t[1..], key), key, v) == (if key(x) == v then [x] else []) + WithKey(t[1..], key, v)
    ensures WithKey(Insert(x, t, key), key, v) == (if key(x) == v then [x] else []) + WithKey(t, key, v)
  {
    var rest := Insert(x, t[1..], key);
    var w := WithKey(t[1..], key, v);
    assert Insert(x, t, key) == [t[0]] + rest;
    WithKeyCons(t[0], rest, key, v);
    if key(t[0]) == v {
      calc {
        WithKey([t[0]] + rest, key, v);
        [t[0]] + WithKey(rest, key, v);
        { assert WithKey(rest, key, v) == [] + w; }
        [t[0]] + w;
        WithKey(t, key, v);
      }
    } else {
      calc {
        WithKey([t[0]] + rest, key, v);
        [] + WithKey(rest, key, v);
        (if key(x) == v then [x] else []) + w;
        { assert WithKey(t, key, v) == [] + w; }
        (if key(x) == v then [x] else []) + WithKey(t, key, v);
      }
    }
  }

  lemma {:induction false} InsertWithKey<T>(x: T, t: seq<T>, key: T -> int, v: int)
    ensures WithKey(Insert(x, t, key), key, v) == (if key(x) == v then [x] else []) + WithKey(t, key, v)
    decreases |t|
  {
    if |t| == 0 || key(x) <= key(t[0]) {
      WithKeyCons(x, t, key, v);
    } else {
      InsertWithKey(x, t[1..], key, v);
      InsertPastHead(x, t, key, v);
    }
  }

  /** Stability: among elements with equal keys, the sort keeps input order. */
  lemma {:induction false} StableSortKeepsTies<T>(s: seq<T>, key: T -> int, v: int)
    ensures WithKey(StableSort(s, key), key, v) == WithKey(s, key, v)
    decreases |s|
  {
    if |s| != 0 {
      StableSortKeepsTies(s[1..], key, v);
      InsertWithKey(s[0], StableSort(s[1..], key), key, v);
    }
  }

  lemma {:induction false} WithKeyEmpty<T>(s: seq<T>, key: T -> int, v: int)
    requires forall i :: 0 <= i < |s| ==> key(s[i]) > v
    ensures WithKey(s, key, v) == []
    decreases |s|
  {
    if |s| != 0 {
      WithKeyEmpty(s[1..], key, v);
    }
  }

  lemma HasOwnKeyGroup<T>(s: seq<T>, key: T -> int)
    requires |s| != 0
    ensures WithKey(s, key, key(s[0])) != []
  {
  }

  /** Two lists sorted by `key` that agree on the order of every group of
      equal keys are the same list. */
  lemma {:induction false} SortedTiesDetermine<T>(a: seq<T>, b: seq<T>, key: T -> int)
    requires Sorted(a, key) && Sorted(b, key)
    requires forall v :: WithKey(a, key, v) == WithKey(b, key, v)
    ensures a == b
    decreases |a| + |b|
  {
    if |a| == 0 && |b| == 0 {
    } else if |a| == 0 {
      HasOwnKeyGroup(b, key);
    } else if |b| == 0 {
      HasOwnKeyGroup(a, key);
    } else {
      var va, vb := key(a[0]), key(b[0]);
      if va < vb {
        WithKeyEmpty(b, key, va);
      } else if vb < va {
        WithKeyEmpty(a, key, vb);
      } else {
        assert a[0] == WithKey(a, key, va)[0] == WithKey(b, key, va)[0] == b[0];
        forall v ensures WithKey(a[1..], key, v) == WithKey(b[1..], key, v) {
          var p := if key(a[0]) == v then [a[0]] else [];
          assert WithKey(a, key, v) == p + WithKey(a[1..], key, v);
          assert WithKey(b, key, v) == p + WithKey(b[1..], key, v);
          assert (p + WithKey(a[1..], key, v))[|p|..] == WithKey(a[1..], key, v);
          assert (p + WithKey(b[1..], key, v))[|p|..] == WithKey(b[1..], key, v);
        }
        SortedTiesDetermine(a[1..], b[1..], key);
        assert a == [a[0]] + a[1..] && b == [b[0]] + b[1..];
      }
    }
  }

  /** Any sorted rearrangement that keeps ties in input order is the result
      of `StableSort`: the model agrees with every stable sort. */
  lemma StableSortIsUnique<T>(s: seq<T>, r: seq<T>, key: T -> int)
    requires Sorted(r, key)
    requires forall v :: WithKey(r, key, v) == WithKey(s, key, v)
    ensures r == StableSort(s, key)
  {
    forall v ensures WithKey(r, key, v) == WithKey(StableSort(s, key), key, v) {
      StableSortKeepsTies(s, key, v);
    }
    SortedTiesDetermine(r, StableSort(s, key), key);
  }

  /** Sorting a list that is already in order changes nothing. */
  lemma SortingSortedIsIdentity<T>(s: seq<T>, key: T -> int)
    requires Sorted(s, key)
    ensures StableSort(s, key) == s
  {
    StableSortIsUnique(s, s, key);
  }
}
