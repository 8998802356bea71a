/** The JavaScript array operations the storefront is written with
    (`filter`, `slice`, `includes`-then-toggle, `Math.ceil` of a quotient)
    and the paging arithmetic built from them. */
module Seqs {

  /** `r` keeps some of the elements of `s`, in the order they have in `s`. */
  ghost predicate IsSubsequence<T>(r: seq<T>, s: seq<T>)
    decreases |s|
  {
    r == [] || (|s| > 0 && ((r[0] == s[0] && IsSubsequence(r[1..], s[1..])) || IsSubsequence(r, s[1..])))
  }

  /** `Array.prototype.filter`. */
  function Filter<T(!new)>(s: seq<T>, p: T -> bool): (r: seq<T>)
    ensures |r| <= |s|
    ensures forall x :: x in r <==> x in s && p(x)
    decreases |s|
  {
    if s == [] then []
    else
      var rest := Filter(s[1..], p);
      if p(s[0]) then [s[0]] + rest else rest
  }

  /** `filter` keeps the order of what it keeps. */
  lemma {:induction false} FilterIsSubsequence<T(!new)>(s: seq<T>, p: T -> bool)
    ensures IsSubsequence(Filter(s, p), s)
    decreases |s|
  {
    if s != [] {
      FilterIsSubsequence(s[1..], p);
      var rest := Filter(s[1..], p);
      if p(s[0]) {
        assert ([s[0]] + rest)[1..] == rest;
      }
    }
  }

  lemma {:induction false} FilterAppend<T(!new)>(a: seq<T>, b: seq<T>, p: T -> bool)
    ensures Filter(a + b, p) == Filter(a, p) + Filter(b, p)
    decreases |a|
  {
    if a == [] {
      assert a + b == b;
    } else {
      assert (a + b)[0] == a[0];
      assert (a + b)[1..] == a[1..] + b;
      FilterAppend(a[1..], b, p);
    }
  }

  /** Filtering by a predicate every element already satisfies changes nothing. */
  lemma {:induction false} FilterKeepsAll<T(!new)>(s: seq<T>, p: T -> bool)
    requires forall x :: x in s ==> p(x)
    ensures Filter(s, p) == s
    decreases |s|
  {
    if s != [] {
      assert s[0] in s;
      assert forall x :: x in s[1..] ==> x in s;
      FilterKeepsAll(s[1..], p);
    }
  }

  lemma {:induction false} SubsequenceOfPrefix<T>(r: seq<T>, s: seq<T>, n: nat)
    requires IsSubsequence(r, s)
    requires n <= |r|
    ensures IsSubsequence(r[..n], s)
    decreases |s|
  {
    if n == 0 || r == [] {
    } else if r[0] == s[0] && IsSubsequence(r[1..], s[1..]) {
      SubsequenceOfPrefix(r[1..], s[1..], n - 1);
      assert r[..n][1..] == r[1..][..n - 1];
    } else {
      SubsequenceOfPrefix(r, s[1..], n);
    }
  }

  /** `xs.filter((x) => x !== v)`. */
  function RemoveAll<T(==,!new)>(xs: seq<T>, v: T): (r: seq<T>)
    ensures v !in r
    ensures forall x :: x in r <==> x in xs && x != v
    ensures v !in xs ==> r == xs
  {
    if v !in xs then FilterKeepsAll(xs, x => x != v); Filter(xs, x => x != v)
    else Filter(xs, x => x != v)
  }

  /** The selection toggle used on the product and cart pages:
      `prev.includes(v) ? prev.filter((x) => x !== v) : [...prev, v]`. */
  function Toggle<T(==,!new)>(xs: seq<T>, v: T): (r: seq<T>)
    ensures v in r <==> v !in xs
    ensures forall x :: x != v ==> (x in r <==> x in xs)
    ensures v !in xs ==> r == xs + [v]
  {
    if v in xs then RemoveAll(xs, v) else xs + [v]
  }

  /** Toggling a value that is not selected, twice, gives back the selection. */
  lemma ToggleTwiceRestores<T(!new)>(xs: seq<T>, v: T)
    requires v !in xs
    ensures Toggle(Toggle(xs, v), v) == xs
  {
    FilterAppend(xs, [v], x => x != v);
    FilterKeepsAll(xs, x => x != v);
    assert Filter([v], x => x != v) == [];
  }

  /** `s.slice(0, n)` for a non-negative `n`. */
  function Take<T>(s: seq<T>, n: nat): (r: seq<T>)
    ensures |r| <= n && |r| <= |s|
    ensures |r| == n || r == s
    ensures r <= s
  {
    if n <= |s| then s[..n] else s
  }

  /** The index `Array.prototype.slice` uses for `i` on an array of length
      `len`: a negative index counts back from the end, and the result is
      clamped to `[0, len]`. */
  function SliceIndex(i: int, len: nat): (r: nat)
    ensures r <= len
    ensures 0 <= i ==> r == if i <= len then i else len
    ensures i < 0 ==> r == if len + i < 0 then 0 else len + i
  {
    if i < 0 then (if len + i < 0 then 0 else len + i)
    else if i <= len then i
    else len
  }

  /** `s.slice(start, end)`. */
  function JsSlice<T>(s: seq<T>, start: int, end: int): (r: seq<T>)
    ensures |r| <= |s|
    ensures forall k :: 0 <= k < |r| ==> r[k] in s
    ensures 0 <= start <= end ==> |r| <= end - start
    ensures 0 <= start ==> forall k :: 0 <= k < |r| ==> start + k < |s| && r[k] == s[start + k]
  {
    var a := SliceIndex(start, |s|);
    var b := SliceIndex(end, |s|);
    if a < b then s[a..b] else []
  }

  lemma JsSliceWithin<T>(s: seq<T>, start: int, end: int)
    requires 0 <= start <= end
    ensures JsSlice(s, start, end) == s[SliceIndex(start, |s|)..SliceIndex(end, |s|)]
  {
  }

  /** `Math.ceil(a / b)` for a non-negative count `a` and a non-zero `b`. */
  function CeilDiv(a: nat, b: int): (r: int)
    requires b != 0
    ensures b > 0 ==> r >= 0 && a <= r * b && (a > 0 ==> (r - 1) * b < a)
    ensures b > 0 ==> (r == 0 <==> a == 0)
  {
    if b > 0 then (a + b - 1) / b else -(a / -b)
  }

  /** Page `page` (1-based) of `limit` elements:
      `s.slice((page - 1) * limit, (page - 1) * limit + limit)`. */
  function PageOf<T>(s: seq<T>, page: int, limit: int): seq<T>
  {
    JsSlice(s, (page - 1) * limit, (page - 1) * limit + limit)
  }

  /** A window of `limit` elements from a non-negative `start`, cut at the
      end of the list. */
  lemma SliceWindow<T>(s: seq<T>, start: nat, limit: nat)
    ensures var r := JsSlice(s, start, start + limit);
      && |r| == (if |s| <= start then 0 else if |s| - start < limit then |s| - start else limit)
      && forall k :: 0 <= k < |r| ==> r[k] == s[start + k]
  {
    JsSliceWithin(s, start, start + limit);
  }

  lemma MulNonNegative(a: int, b: int)
    requires a >= 0 && b >= 0
    ensures a * b >= 0
  {
  }

  lemma MulMonotone(a: int, b: int, c: int)
    requires a <= b && c >= 0
    ensures a * c <= b * c
  {
  }

  lemma MulSucc(a: int, b: int)
    ensures a * b + b == (a + 1) * b
  {
  }

  /** A page holds at most `limit` elements: the ones at positions
      `(page - 1) * limit` onwards, cut at the end of the list. */
  lemma PageWindow<T>(s: seq<T>, page: int, limit: int)
    requires page >= 1 && limit >= 1
    ensures var r := PageOf(s, page, limit);
      && |r| <= limit
      && |r| == (if |s| <= (page - 1) * limit then 0
                 else if |s| - (page - 1) * limit < limit then |s| - (page - 1) * limit
                 else limit)
      && forall k :: 0 <= k < |r| ==> r[k] == s[(page - 1) * limit + k]
  {
    var start := (page - 1) * limit;
    MulNonNegative(page - 1, limit);
    SliceWindow(s, start, limit);
  }

  /** Asking for a page after the last one gives an empty page. */
  lemma PageBeyondLast<T>(s: seq<T>, page: int, limit: int)
    requires limit >= 1 && page > CeilDiv(|s|, limit)
    ensures PageOf(s, page, limit) == []
  {
    var n := CeilDiv(|s|, limit);
    var start := (page - 1) * limit;
    MulMonotone(n, page - 1, limit);
    assert |s| <= start;
    MulNonNegative(page - 1, limit);
    SliceWindow(s, start, limit);
  }

  /** Pages 1 to `n`, one after another. */
  function Pages<T>(s: seq<T>, limit: int, n: nat): seq<T>
  {
    if n == 0 then [] else Pages(s, limit, n - 1) + PageOf(s, n, limit)
  }

  lemma {:induction false} PagesArePrefix<T>(s: seq<T>, limit: int, n: nat)
    requires limit >= 1
    ensures Pages(s, limit, n) == s[..SliceIndex(n * limit, |s|)]
  {
    if n > 0 {
      PagesArePrefix(s, limit, n - 1);
      PageBetween(s, n, limit);
      var i, j := SliceIndex((n - 1) * limit, |s|), SliceIndex(n * limit, |s|);
      assert s[..i] + s[i..j] == s[..j];
    }
  }

  /** Page `n` runs from where page `n - 1` ends to where page `n` ends. */
  lemma PageBetween<T>(s: seq<T>, n: int, limit: int)
    requires n >= 1 && limit >= 1
    ensures SliceIndex((n - 1) * limit, |s|) <= SliceIndex(n * limit, |s|)
    ensures PageOf(s, n, limit) == s[SliceIndex((n - 1) * limit, |s|)..SliceIndex(n * limit, |s|)]
  {
    var a := (n - 1) * limit;
    MulNonNegative(n - 1, limit);
    MulSucc(n - 1, limit);
    JsSliceWithin(s, a, a + limit);
  }

  /** Reading every page from the first to the `totalPages`-th gives back the
      whole list, with no element lost or repeated. */
  lemma AllPagesRebuildList<T>(s: seq<T>, limit: int)
    requires limit >= 1
    ensures Pages(s, limit, CeilDiv(|s|, limit)) == s
  {
    PagesArePrefix(s, limit, CeilDiv(|s|, limit));
  }

  /** `s.reduce((total, x) => total + f(x), 0)`. */
  function SumOf<T>(s: seq<T>, f: T -> int): int
    decreases |s|
  {
    if s == [] then 0 else f(s[0]) + SumOf(s[1..], f)
  }

  lemma {:induction false} SumOfAppend<T>(a: seq<T>, b: seq<T>, f: T -> int)
    ensures SumOf(a + b, f) == SumOf(a, f) + SumOf(b, f)
    decreases |a|
  {
    if a == [] {
      assert a + b == b;
    } else {
      assert (a + b)[0] == a[0];
      assert (a + b)[1..] == a[1..] + b;
      SumOfAppend(a[1..], b, f);
    }
  }

  /** Replacing one element changes the sum by the difference of the two. */
  lemma SumOfUpdate<T>(s: seq<T>, i: nat, x: T, f: T -> int)
    requires i < |s|
    ensures SumOf(s[i := x], f) == SumOf(s, f) - f(s[i]) + f(x)
  {
    assert s == s[..i] + [s[i]] + s[i + 1..];
    assert s[i := x] == s[..i] + [x] + s[i + 1..];
    SumOfAppend(s[..i] + [s[i]], s[i + 1..], f);
    SumOfAppend(s[..i], [s[i]], f);
    SumOfAppend(s[..i] + [x], s[i + 1..], f);
    SumOfAppend(s[..i], [x], f);
  }

  /** No two elements share a key. */
  ghost predicate DistinctBy<T, K>(s: seq<T>, key: T -> K)
  {
    forall i, j :: 0 <= i < j < |s| ==> key(s[i]) != key(s[j])
  }

  /** Filtering keeps keys distinct. */
  lemma {:induction false} FilterDistinctBy<T(!new), K>(s: seq<T>, p: T -> bool, key: T -> K)
    requires DistinctBy(s, key)
    ensures DistinctBy(Filter(s, p), key)
    decreases |s|
  {
    if s != [] {
      assert forall i, j :: 0 <= i < j < |s[1..]| ==> key(s[1..][i]) == key(s[i + 1]) && key(s[1..][j]) == key(s[j + 1]);
      FilterDistinctBy(s[1..], p, key);
      var rest := Filter(s[1..], p);
      if p(s[0]) {
        var r := [s[0]] + rest;
        forall i, j | 0 <= i < j < |r| ensures key(r[i]) != key(r[j]) {
          if i == 0 {
            assert r[j] in s[1..];
            var m :| 0 <= m < |s[1..]| && s[1..][m] == r[j];
            assert s[m + 1] == r[j];
          } else {
            assert r[i] == rest[i - 1] && r[j] == rest[j - 1];
          }
        }
      }
    }
  }

  /** No element occurs twice. */
  ghost predicate NoDuplicates<T>(s: seq<T>)
  {
    forall i, j :: 0 <= i < j < |s| ==> s[i] != s[j]
  }

  lemma FilterNoDuplicates<T(!new)>(s: seq<T>, p: T -> bool)
    requires NoDuplicates(s)
    ensures NoDuplicates(Filter(s, p))
  {
    FilterDistinctBy(s, p, (x: T) => x);
  }

  lemma RemoveAllNoDuplicates<T(!new)>(xs: seq<T>, v: T)
    requires NoDuplicates(xs)
    ensures NoDuplicates(RemoveAll(xs, v))
  {
    FilterNoDuplicates(xs, x => x != v);
  }

  /** Filtering out one element that fails `p` between two runs that pass it
      leaves the two runs. */
  lemma FilterDropsOne<T(!new)>(a: seq<T>, v: T, b: seq<T>, p: T -> bool)
    requires forall x :: x in a ==> p(x)
    requires forall x :: x in b ==> p(x)
    requires !p(v)
    ensures Filter(a + [v] + b, p) == a + b
  {
    calc {
      Filter(a + [v] + b, p);
      { FilterAppend(a + [v], b, p); }
      Filter(a + [v], p) + Filter(b, p);
      { FilterAppend(a, [v], p); }
      Filter(a, p) + Filter([v], p) + Filter(b, p);
      { assert Filter([v], p) == []; }
      Filter(a, p) + Filter(b, p);
      { FilterKeepsAll(a, p); FilterKeepsAll(b, p); }
      a + b;
    }
  }

  /** In a list without repeats, removing the value at `i` removes that one
      position. */
  lemma RemoveAllOnce<T(!new)>(xs: seq<T>, i: nat)
    requires NoDuplicates(xs) && i < |xs|
    ensures RemoveAll(xs, xs[i]) == xs[..i] + xs[i + 1..]
  {
    var v := xs[i];
    var a, b := xs[..i], xs[i + 1..];
    assert xs == a + [v] + b;
    forall x | x in a ensures x != v {
      var j :| 0 <= j < i && a[j] == x;
      assert xs[j] == x;
    }
    forall x | x in b ensures x != v {
      var j :| 0 <= j < |b| && b[j] == x;
      assert xs[i + 1 + j] == x;
    }
    FilterDropsOne(a, v, b, x => x != v);
  }

  /** Putting `x` in front of a list and keeping `n` elements needs only the
      first `n` of the list. */
  lemma TakeConsTake<T>(x: T, s: seq<T>, n: nat)
    requires n >= 1
    ensures Take([x] + Take(s, n), n) == Take([x] + s, n)
  {
  }

  function Reverse<T>(s: seq<T>): (r: seq<T>)
    ensures |r| == |s|
    ensures forall i :: 0 <= i < |s| ==> r[i] == s[|s| - 1 - i]
  {
    if s == [] then [] else Reverse(s[1..]) + [s[0]]
  }

  lemma ReverseSnoc<T>(s: seq<T>, x: T)
    ensures Reverse(s + [x]) == [x] + Reverse(s)
  {
    assert forall i :: 0 <= i < |s| + 1 ==> Reverse(s + [x])[i] == ([x] + Reverse(s))[i];
  }

  /** Filtering twice is filtering once by the conjunction. */
  lemma {:induction false} FilterFilter<T(!new)>(s: seq<T>, p: T -> bool, q: T -> bool, both: T -> bool)
    requires forall x :: both(x) == (p(x) && q(x))
    ensures Filter(Filter(s, p), q) == Filter(s, both)
    decreases |s|
  {
    if s != [] {
      FilterFilter(s[1..], p, q, both);
      var rest := Filter(s[1..], p);
      if p(s[0]) {
        assert ([s[0]] + rest)[1..] == rest;
      }
    }
  }

  /** A sum splits over a filter and its complement. */
  lemma {:induction false} SumOfSplit<T(!new)>(s: seq<T>, p: T -> bool, notP: T -> bool, f: T -> int)
    requires forall x :: notP(x) == !p(x)
    ensures SumOf(s, f) == SumOf(Filter(s, p), f) + SumOf(Filter(s, notP), f)
    decreases |s|
  {
    if s != [] {
      SumOfSplit(s[1..], p, notP, f);
      var kept, dropped := Filter(s[1..], p), Filter(s[1..], notP);
      if p(s[0]) {
        assert ([s[0]] + kept)[1..] == kept;
      } else {
        assert ([s[0]] + dropped)[1..] == dropped;
      }
    }
  }

  /** A sum of terms each no larger than another's is no larger. */
  lemma {:induction false} SumOfMonotone<T>(s: seq<T>, f: T -> int, g: T -> int)
    requires forall i :: 0 <= i < |s| ==> f(s[i]) <= g(s[i])
    ensures SumOf(s, f) <= SumOf(s, g)
    decreases |s|
  {
    if s != [] {
      assert forall i :: 0 <= i < |s[1..]| ==> s[1..][i] == s[i + 1];
      SumOfMonotone(s[1..], f, g);
    }
  }

  /** A sum of non-negative terms is non-negative. */
  lemma {:induction false} SumOfNonNegative<T>(s: seq<T>, f: T -> int)
    ensures (forall i :: 0 <= i < |s| ==> f(s[i]) >= 0) ==> SumOf(s, f) >= 0
    decreases |s|
  {
    if s != [] {
      assert forall i :: 0 <= i < |s[1..]| ==> s[1..][i] == s[i + 1];
      SumOfNonNegative(s[1..], f);
    }
  }

  /** A sum of terms that are each at least 1 is at least the number of terms. */
  lemma {:induction false} SumOfAtLeastLength<T>(s: seq<T>, f: T -> int)
    ensures (forall i :: 0 <= i < |s| ==> f(s[i]) >= 1) ==> SumOf(s, f) >= |s|
    decreases |s|
  {
    if s != [] {
      assert forall i :: 0 <= i < |s[1..]| ==> s[1..][i] == s[i + 1];
      SumOfAtLeastLength(s[1..], f);
    }
  }

  /** `filter` only drops elements: what it keeps is a sub-multiset. */
  lemma {:induction false} FilterSubMultiset<T(!new)>(s: seq<T>, p: T -> bool)
    ensures multiset(Filter(s, p)) <= multiset(s)
    decreases |s|
  {
    if s != [] {
      FilterSubMultiset(s[1..], p);
      assert s == [s[0]] + s[1..];
    }
  }

  /** A prefix holds no more copies of anything than the whole list. */
  lemma PrefixSubMultiset<T>(s: seq<T>, n: nat)
    ensures multiset(Take(s, n)) <= multiset(s)
  {
    if n <= |s| {
      assert s == s[..n] + s[n..];
    }
  }

  /** Toggling never repeats a value. */
  lemma ToggleKeepsDistinct<T(!new)>(xs: seq<T>, v: T)
    ensures NoDuplicates(xs) ==> NoDuplicates(Toggle(xs, v))
  {
    if NoDuplicates(xs) {
      if v in xs {
        RemoveAllNoDuplicates(xs, v);
      } else {
        var r := xs + [v];
        forall i, j | 0 <= i < j < |r| ensures r[i] != r[j] {
          if j == |xs| {
            assert r[i] == xs[i];
          }
        }
      }
    }
  }
}
