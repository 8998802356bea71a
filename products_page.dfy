/** The product list page: which filters the user has ticked, the page being
    shown, and the `ProductFilters` the page builds from them for
    `getProducts`. */
module ProductsPage {
  import opened Wrappers
  import opened Seqs
  import opened Catalog

  /** A price band offered on the page. `max == None` is the open-ended band
      whose bound is `Number.POSITIVE_INFINITY`. */
  datatype PriceRange = PriceRange(caption: string, min: int, max: Option<int>)

  /** The bound sent for the open-ended band. */
  const OpenRangeCap := 1000000

  const PriceRanges: seq<PriceRange> := [
    PriceRange("3만원 이하", 0, Some(30000)),
    PriceRange("3만원 - 5만원", 30000, Some(50000)),
    PriceRange("5만원 - 10만원", 50000, Some(100000)),
    PriceRange("10만원 이상", 100000, None)
  ]

  /** The page always asks for twenty products at a time. */
  const PageLimit := 20

  /** The upper bound a band contributes to `priceMax`. */
  function UpperBound(r: PriceRange): (b: int)
    ensures r.max.Some? ==> b == r.max.value
    ensures r.max.None? ==> b == OpenRangeCap
  {
    match r.max
    case Some(m) => m
    case None => OpenRangeCap
  }

  /** `priceRanges.find((range) => range.label === label)` over `rs`. */
  function FindRange(rs: seq<PriceRange>, caption: string): (r: Option<PriceRange>)
    ensures r.Some? ==> r.value in rs && r.value.caption == caption
    ensures r.None? <==> forall x :: x in rs ==> x.caption != caption
    decreases |rs|
  {
    if rs == [] then None
    else if rs[0].caption == caption then Some(rs[0])
    else FindRange(rs[1..], caption)
  }

  /** `labels.map(find).filter(Boolean)` over `bands`: the bands of the
      known labels, in selection order; unknown labels are dropped. */
  function KnownRanges(bands: seq<PriceRange>, labels: seq<string>): (r: seq<PriceRange>)
    ensures |r| <= |labels|
    ensures forall x :: x in r ==> x in bands
    decreases |labels|
  {
    if labels == [] then []
    else
      var rest := KnownRanges(bands, labels[1..]);
      match FindRange(bands, labels[0])
      case Some(x) => [x] + rest
      case None => rest
  }

  /** A band is kept iff some ticked label names it; nothing is kept iff no
      ticked label is known. */
  lemma {:induction false} KnownRangesIff(bands: seq<PriceRange>, labels: seq<string>)
    ensures forall x :: x in KnownRanges(bands, labels) <==>
      exists l :: l in labels && FindRange(bands, l) == Some(x)
    ensures KnownRanges(bands, labels) == [] <==> forall l :: l in labels ==> FindRange(bands, l).None?
    decreases |labels|
  {
    if labels != [] {
      KnownRangesIff(bands, labels[1..]);
      assert labels == [labels[0]] + labels[1..];
      var r := KnownRanges(bands, labels);
      var rest := KnownRanges(bands, labels[1..]);
      forall x ensures x in r <==> exists l :: l in labels && FindRange(bands, l) == Some(x) {
        if x in rest {
          var l :| l in labels[1..] && FindRange(bands, l) == Some(x);
          assert l in labels;
        }
        if exists l :: l in labels && FindRange(bands, l) == Some(x) {
          var l :| l in labels && FindRange(bands, l) == Some(x);
          if l != labels[0] {
            assert l in labels[1..];
          }
        }
      }
    }
  }

  function Lows(rs: seq<PriceRange>): (r: seq<int>)
    ensures |r| == |rs| && forall i :: 0 <= i < |rs| ==> r[i] == rs[i].min
  {
    seq(|rs|, i requires 0 <= i < |rs| => rs[i].min)
  }

  function Highs(rs: seq<PriceRange>): (r: seq<int>)
    ensures |r| == |rs| && forall i :: 0 <= i < |rs| ==> r[i] == UpperBound(rs[i])
  {
    seq(|rs|, i requires 0 <= i < |rs| => UpperBound(rs[i]))
  }

  /** `Math.min(...xs)` of a non-empty list. */
  function MinOf(xs: seq<int>): (m: int)
    requires |xs| > 0
    ensures m in xs
    ensures forall x :: x in xs ==> m <= x
    decreases |xs|
  {
    if |xs| == 1 then xs[0]
    else
      var rest := MinOf(xs[1..]);
      assert xs == [xs[0]] + xs[1..];
      if xs[0] <= rest then xs[0] else rest
  }

  /** `Math.max(...xs)` of a non-empty list. */
  function MaxOf(xs: seq<int>): (m: int)
    requires |xs| > 0
    ensures m in xs
    ensures forall x :: x in xs ==> x <= m
    decreases |xs|
  {
    if |xs| == 1 then xs[0]
    else
      var rest := MaxOf(xs[1..]);
      assert xs == [xs[0]] + xs[1..];
      if xs[0] >= rest then xs[0] else rest
  }

  /** Every band lies within its own bounds. */
  lemma RangesAreOrdered(r: PriceRange)
    requires r in PriceRanges
    ensures 0 <= r.min <= UpperBound(r)
  {
  }

  /** The bounds sent for a non-empty set of bands are their hull: the
      smallest lower bound, the largest upper bound, and every band lies
      within them. */
  lemma {:induction false} HullCoversEveryBand(rs: seq<PriceRange>)
    requires |rs| > 0 && forall x :: x in rs ==> x in PriceRanges
    ensures MinOf(Lows(rs)) <= MaxOf(Highs(rs))
    ensures forall x :: x in rs ==> MinOf(Lows(rs)) <= x.min && UpperBound(x) <= MaxOf(Highs(rs))
  {
    forall x | x in rs ensures MinOf(Lows(rs)) <= x.min && UpperBound(x) <= MaxOf(Highs(rs)) {
      var i :| 0 <= i < |rs| && rs[i] == x;
      assert Lows(rs)[i] in Lows(rs);
      assert Highs(rs)[i] in Highs(rs);
    }
    RangesAreOrdered(rs[0]);
  }

  /** A product priced inside any ticked band passes both price stages of
      `getProducts` with the bounds the page sends. */
  lemma InTickedBandPasses(labels: seq<string>, l: string, f: ProductFilters, p: Product)
    requires l in labels && FindRange(PriceRanges, l).Some?
    requires KnownRanges(PriceRanges, labels) != []
    requires FindRange(PriceRanges, l).value.min <= p.price <= UpperBound(FindRange(PriceRanges, l).value)
    requires f.priceMin == Some(MinOf(Lows(KnownRanges(PriceRanges, labels))))
    requires f.priceMax == Some(MaxOf(Highs(KnownRanges(PriceRanges, labels))))
    ensures PriceMinOk(f, p) && PriceMaxOk(f, p)
  {
    KnownRangesIff(PriceRanges, labels);
    HullCoversEveryBand(KnownRanges(PriceRanges, labels));
  }

  /** Ticking the cheapest and the open-ended band sends the whole span:
      the hull fills the gap between them, and its lower bound 0 is falsy
      so no lower bound applies at all. */
  lemma SeparatedBandsSendTheirHull()
    ensures var rs := KnownRanges(PriceRanges, ["3만원 이하", "10만원 이상"]);
      && MinOf(Lows(rs)) == 0 && MaxOf(Highs(rs)) == OpenRangeCap
  {
    var labels := ["3만원 이하", "10만원 이상"];
    assert FindRange(PriceRanges, labels[0]) == Some(PriceRanges[0]);
    assert FindRange(PriceRanges, labels[1]) == Some(PriceRanges[3]);
    assert KnownRanges(PriceRanges, labels[1..][1..]) == [];
    assert KnownRanges(PriceRanges, labels[1..]) == [PriceRanges[3]];
    var rs := KnownRanges(PriceRanges, labels);
    assert rs == [PriceRanges[0], PriceRanges[3]];
    assert Lows(rs) == [0, 100000];
    assert Highs(rs) == [30000, OpenRangeCap];
  }

  /** The page's filter state. `sortBy` holds one of the five values its
      select offers. */
  class ProductsPage {
    var sortBy: SortBy
    var selectedCategories: seq<string>
    var selectedBrands: seq<string>
    var selectedPriceRange: seq<string>
    var currentPage: int

    ghost predicate Valid()
      reads this
    {
      currentPage >= 1
    }

    constructor ()
      ensures Valid()
      ensures sortBy == Popular && currentPage == 1
      ensures selectedCategories == [] && selectedBrands == [] && selectedPriceRange == []
    {
      sortBy := Popular;
      selectedCategories := [];
      selectedBrands := [];
      selectedPriceRange := [];
      currentPage := 1;
    }

    /** Choosing an order keeps the current page. */
    method SetSortBy(order: SortBy)
      modifies this
      requires Valid()
      ensures Valid()
      ensures sortBy == order && currentPage == old(currentPage)
      ensures selectedCategories == old(selectedCategories) && selectedBrands == old(selectedBrands)
      ensures selectedPriceRange == old(selectedPriceRange)
    {
      sortBy := order;
    }

    method ToggleCategory(categorySlug: string)
      modifies this
      requires Valid()
      ensures Valid()
      ensures selectedCategories == Toggle(old(selectedCategories), categorySlug) && currentPage == 1
      ensures sortBy == old(sortBy) && selectedBrands == old(selectedBrands) && selectedPriceRange == old(selectedPriceRange)
    {
      var prev := selectedCategories;
      if categorySlug in prev {
        selectedCategories := RemoveAll(prev, categorySlug);
      } else {
        selectedCategories := prev + [categorySlug];
      }
      currentPage := 1;
    }

    method ToggleBrand(brand: string)
      modifies this
      requires Valid()
      ensures Valid()
      ensures selectedBrands == Toggle(old(selectedBrands), brand) && currentPage == 1
      ensures sortBy == old(sortBy) && selectedCategories == old(selectedCategories) && selectedPriceRange == old(selectedPriceRange)
    {
      var prev := selectedBrands;
      if brand in prev {
        selectedBrands := RemoveAll(prev, brand);
      } else {
        selectedBrands := prev + [brand];
      }
      currentPage := 1;
    }

    method TogglePriceRange(range: string)
      modifies this
      requires Valid()
      ensures Valid()
      ensures selectedPriceRange == Toggle(old(selectedPriceRange), range) && currentPage == 1
      ensures sortBy == old(sortBy) && selectedCategories == old(selectedCategories) && selectedBrands == old(selectedBrands)
    {
      var prev := selectedPriceRange;
      if range in prev {
        selectedPriceRange := RemoveAll(prev, range);
      } else {
        selectedPriceRange := prev + [range];
      }
      currentPage := 1;
    }

    method ClearAllFilters()
      modifies this
      requires Valid()
      ensures Valid()
      ensures selectedCategories == [] && selectedBrands == [] && selectedPriceRange == [] && currentPage == 1
      ensures !HasActiveFilters()
      ensures sortBy == old(sortBy)
    {
      selectedCategories := [];
      selectedBrands := [];
      selectedPriceRange := [];
      currentPage := 1;
    }

    /** Moves to the next page while there is one; `totalPages` is the
        figure in the last response. */
    method LoadMore(totalPages: int)
      modifies this
      requires Valid()
      ensures Valid()
      ensures old(currentPage) < totalPages ==> currentPage == old(currentPage) + 1
      ensures old(currentPage) >= totalPages ==> currentPage == old(currentPage)
      ensures currentPage <= old(currentPage) || currentPage <= totalPages
      ensures sortBy == old(sortBy) && selectedCategories == old(selectedCategories)
      ensures selectedBrands == old(selectedBrands) && selectedPriceRange == old(selectedPriceRange)
    {
      if currentPage < totalPages {
        currentPage := currentPage + 1;
      }
    }

    /** Something is ticked: a category, a brand or a price band. */
    predicate HasActiveFilters()
      reads this
      ensures HasActiveFilters() <==> selectedCategories + selectedBrands + selectedPriceRange != []
    {
      |selectedCategories| > 0 || |selectedBrands| > 0 || |selectedPriceRange| > 0
    }

    /** The `filters` object handed to `getProducts`: the lists only when
        non-empty, twenty per page, and the hull of the ticked price bands. */
    method BuildFilters() returns (filters: ProductFilters)
      ensures filters.categories == if |selectedCategories| > 0 then Some(selectedCategories) else None
      ensures filters.brands == if |selectedBrands| > 0 then Some(selectedBrands) else None
      ensures filters.sortBy == Some(sortBy) && filters.page == Some(currentPage) && filters.limit == Some(PageLimit)
      ensures filters.category.None? && filters.search.None? && filters.colors.None? && filters.sizes.None?
      ensures filters.priceMin.Some? == filters.priceMax.Some?
      ensures filters.priceMin.None? <==> forall l :: l in selectedPriceRange ==> FindRange(PriceRanges, l).None?
      ensures filters.priceMin.Some? ==> IsHull(selectedPriceRange, filters.priceMin.value, filters.priceMax.value)
      ensures !HasActiveFilters() ==> forall s :: Selected(s, filters) == s
    {
      filters := ProductFilters(
        category := None,
        categories := if |selectedCategories| > 0 then Some(selectedCategories) else None,
        brands := if |selectedBrands| > 0 then Some(selectedBrands) else None,
        priceMin := None,
        priceMax := None,
        colors := None,
        sizes := None,
        sortBy := Some(sortBy),
        page := Some(currentPage),
        limit := Some(PageLimit),
        search := None);
      if |selectedPriceRange| > 0 {
        var ranges := KnownRanges(PriceRanges, selectedPriceRange);
        KnownRangesIff(PriceRanges, selectedPriceRange);
        if |ranges| > 0 {
          filters := filters.(priceMin := Some(MinOf(Lows(ranges))));
          filters := filters.(priceMax := Some(MaxOf(Highs(ranges))));
          SentBoundsAreHull(selectedPriceRange);
        }
      }
      if !HasActiveFilters() {
        NothingTickedSelectsAll(filters);
      }
    }
  }

  /** `lo` and `hi` are the hull of the known ticked bands: they enclose
      every one of them, and each is the bound of one of them. */
  ghost predicate IsHull(labels: seq<string>, lo: int, hi: int)
  {
    && lo <= hi
    && (forall l :: l in labels && FindRange(PriceRanges, l).Some? ==>
          lo <= FindRange(PriceRanges, l).value.min && UpperBound(FindRange(PriceRanges, l).value) <= hi)
    && (exists l :: l in labels && FindRange(PriceRanges, l).Some? && FindRange(PriceRanges, l).value.min == lo)
    && (exists l :: l in labels && FindRange(PriceRanges, l).Some? && UpperBound(FindRange(PriceRanges, l).value) == hi)
  }

  /** The bounds the page computes for the ticked labels are their hull. */
  lemma SentBoundsAreHull(labels: seq<string>)
    requires KnownRanges(PriceRanges, labels) != []
    ensures var rs := KnownRanges(PriceRanges, labels);
      IsHull(labels, MinOf(Lows(rs)), MaxOf(Highs(rs)))
  {
    var rs := KnownRanges(PriceRanges, labels);
    KnownRangesIff(PriceRanges, labels);
    BandBounds(rs);
    HullCoversEveryBand(rs);
  }

  /** Filters that set no list, no price bound, no category and no search
      select the whole catalog. */
  lemma NothingTickedSelectsAll(f: ProductFilters)
    requires f.category.None? && f.categories.None? && f.brands.None?
    requires f.priceMin.None? && f.priceMax.None? && f.search.None?
    ensures forall s :: Selected(s, f) == s
  {
    forall s ensures Selected(s, f) == s {
      NoFiltersKeepAll(s, f);
    }
  }

  /** The extreme bounds of the ticked bands are each attained by one of them. */
  lemma BandBounds(rs: seq<PriceRange>)
    requires |rs| > 0
    ensures exists x :: x in rs && x.min == MinOf(Lows(rs))
    ensures exists x :: x in rs && UpperBound(x) == MaxOf(Highs(rs))
  {
    var i :| 0 <= i < |rs| && Lows(rs)[i] == MinOf(Lows(rs));
    assert rs[i] in rs;
    var j :| 0 <= j < |rs| && Highs(rs)[j] == MaxOf(Highs(rs));
    assert rs[j] in rs;
  }
}
