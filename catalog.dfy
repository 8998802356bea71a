/** The catalog's records (`Product`, `Review`, `ProductFilters`,
    `ApiResponse`) and the six filter stages of `getProducts`, each of which
    imposes nothing when its option is falsy. */
module Catalog {
  import opened Wrappers
  import opened Text
  import opened Seqs

  /** A catalog entry. `rating` is in tenths of a star (4.5 is 45) and
      `createdAt`/`updatedAt` are instants on a common integer time line. */
  datatype Product = Product(
    id: int,
    name: string,
    brand: string,
    price: int,
    originalPrice: Option<int>,
    discount: int,
    image: string,
    images: seq<string>,
    colors: seq<string>,
    sizes: seq<string>,
    description: string,
    details: seq<string>,
    rating: int,
    reviewCount: int,
    isNew: bool,
    category: string,
    subcategory: Option<string>,
    stock: int,
    salesCount: int,
    createdAt: int,
    updatedAt: int)

  datatype Fit = Small | Normal | Large

  datatype Review = Review(
    id: int,
    productId: int,
    userId: string,
    userName: string,
    rating: int,
    title: string,
    content: string,
    images: seq<string>,
    size: string,
    color: string,
    height: Option<string>,
    weight: Option<string>,
    fit: Fit,
    isVerified: bool,
    helpfulCount: int,
    createdAt: string)

  /** What `createReview` is given: a review without `id`, `createdAt` and
      `helpfulCount`. */
  datatype ReviewDraft = ReviewDraft(
    productId: int,
    userId: string,
    userName: string,
    rating: int,
    title: string,
    content: string,
    images: seq<string>,
    size: string,
    color: string,
    height: Option<string>,
    weight: Option<string>,
    fit: Fit,
    isVerified: bool)

  datatype SortBy = Popular | Newest | PriceLow | PriceHigh | Rating

  /** Every option may be absent. `colors` and `sizes` are accepted but no
      stage of `getProducts` reads them. */
  datatype ProductFilters = ProductFilters(
    category: Option<string>,
    categories: Option<seq<string>>,
    brands: Option<seq<string>>,
    priceMin: Option<int>,
    priceMax: Option<int>,
    colors: Option<seq<string>>,
    sizes: Option<seq<string>>,
    sortBy: Option<SortBy>,
    page: Option<int>,
    limit: Option<int>,
    search: Option<string>)

  const NoFilters := ProductFilters(None, None, None, None, None, None, None, None, None, None, None)

  datatype Pagination = Pagination(page: int, limit: int, total: int, totalPages: int)

  datatype ApiResponse<T> = ApiResponse(data: T, message: string, success: bool, pagination: Option<Pagination>)

  // JavaScript truthiness of the optional filter values: an absent value,
  // the empty string and the number 0 are falsy; every array is truthy, which
  // is why the list options are also checked for length.

  predicate TextSet(o: Option<string>) { o.Some? && o.value != "" }

  predicate ListSet(o: Option<seq<string>>) { o.Some? && |o.value| > 0 }

  predicate NumberSet(o: Option<int>) { o.Some? && o.value != 0 }

  predicate CategoryOk(f: ProductFilters, p: Product)
  {
    TextSet(f.category) ==> p.category == f.category.value
  }

  predicate CategoriesOk(f: ProductFilters, p: Product)
  {
    ListSet(f.categories) ==> p.category in f.categories.value
  }

  predicate BrandsOk(f: ProductFilters, p: Product)
  {
    ListSet(f.brands) ==> p.brand in f.brands.value
  }

  predicate PriceMinOk(f: ProductFilters, p: Product)
  {
    NumberSet(f.priceMin) ==> p.price >= f.priceMin.value
  }

  predicate PriceMaxOk(f: ProductFilters, p: Product)
  {
    NumberSet(f.priceMax) ==> p.price <= f.priceMax.value
  }

  /** The lower-cased search term occurs in the lower-cased name or brand. */
  predicate SearchOk(f: ProductFilters, p: Product)
  {
    TextSet(f.search) ==>
      var term := Lower(f.search.value);
      Includes(Lower(p.name), term) || Includes(Lower(p.brand), term)
  }

  /** A product passes every active filter. */
  predicate Matches(f: ProductFilters, p: Product)
  {
    CategoryOk(f, p) && CategoriesOk(f, p) && BrandsOk(f, p) &&
    PriceMinOk(f, p) && PriceMaxOk(f, p) && SearchOk(f, p)
  }

  const StageCount := 6

  /** Stage `k` of the filter pipeline, in the order `getProducts` applies them. */
  predicate Stage(f: ProductFilters, k: nat, p: Product)
  {
    if k == 0 then CategoryOk(f, p)
    else if k == 1 then CategoriesOk(f, p)
    else if k == 2 then BrandsOk(f, p)
    else if k == 3 then PriceMinOk(f, p)
    else if k == 4 then PriceMaxOk(f, p)
    else if k == 5 then SearchOk(f, p)
    else true
  }

  /** `p` passes the first `n` stages. */
  predicate Passes(f: ProductFilters, n: nat, p: Product)
  {
    n == 0 || (Passes(f, n - 1, p) && Stage(f, n - 1, p))
  }

  /** The catalog after the first `n` stages. */
  function Staged(s: seq<Product>, f: ProductFilters, n: nat): (r: seq<Product>)
    ensures forall x :: x in r <==> x in s && Passes(f, n, x)
    decreases |s|
  {
    if s == [] then []
    else
      var rest := Staged(s[1..], f, n);
      if Passes(f, n, s[0]) then [s[0]] + rest else rest
  }

  /** The stages keep catalog order. */
  lemma {:induction false} StagedIsSubsequence(s: seq<Product>, f: ProductFilters, n: nat)
    ensures IsSubsequence(Staged(s, f, n), s)
    decreases |s|
  {
    if s != [] {
      StagedIsSubsequence(s[1..], f, n);
      var rest := Staged(s[1..], f, n);
      if Passes(f, n, s[0]) {
        assert ([s[0]] + rest)[1..] == rest;
      }
    }
  }

  /** Running stage `k` (as the predicate `q`) over the output of the first `k`
      stages gives the output of the first `k + 1`. */
  lemma {:induction false} StageApplied(s: seq<Product>, f: ProductFilters, k: nat, q: Product -> bool)
    requires forall x :: q(x) == Stage(f, k, x)
    ensures Filter(Staged(s, f, k), q) == Staged(s, f, k + 1)
    decreases |s|
  {
    if s != [] {
      StageApplied(s[1..], f, k, q);
      var rest := Staged(s[1..], f, k);
      if Passes(f, k, s[0]) {
        assert ([s[0]] + rest)[1..] == rest;
      }
    }
  }

  /** A stage whose option is falsy keeps everything. */
  lemma {:induction false} StageSkipped(s: seq<Product>, f: ProductFilters, k: nat)
    requires forall x :: Stage(f, k, x)
    ensures Staged(s, f, k + 1) == Staged(s, f, k)
    decreases |s|
  {
    if s != [] {
      StageSkipped(s[1..], f, k);
    }
  }

  /** The products that pass every stage, in catalog order. */
  function Selected(s: seq<Product>, f: ProductFilters): seq<Product>
  {
    Staged(s, f, StageCount)
  }

  /** A product is selected iff it is in the catalog and passes every active
      filter; the selection keeps catalog order. */
  lemma SelectedIff(s: seq<Product>, f: ProductFilters)
    ensures forall x :: x in Selected(s, f) <==> x in s && Matches(f, x)
    ensures IsSubsequence(Selected(s, f), s)
  {
    StagedIsSubsequence(s, f, StageCount);
    forall x ensures Passes(f, StageCount, x) == Matches(f, x) {
      assert Passes(f, 6, x) == (Passes(f, 5, x) && SearchOk(f, x));
      assert Passes(f, 5, x) == (Passes(f, 4, x) && PriceMaxOk(f, x));
      assert Passes(f, 4, x) == (Passes(f, 3, x) && PriceMinOk(f, x));
      assert Passes(f, 3, x) == (Passes(f, 2, x) && BrandsOk(f, x));
      assert Passes(f, 2, x) == (Passes(f, 1, x) && CategoriesOk(f, x));
      assert Passes(f, 1, x) == CategoryOk(f, x);
    }
  }

  /** Falsy options impose no constraint: with none set, nothing is dropped. */
  lemma NoFiltersKeepAll(s: seq<Product>, f: ProductFilters)
    requires !TextSet(f.category) && !ListSet(f.categories) && !ListSet(f.brands)
    requires !NumberSet(f.priceMin) && !NumberSet(f.priceMax) && !TextSet(f.search)
    ensures Selected(s, f) == s
  {
    StageSkipped(s, f, 5);
    StageSkipped(s, f, 4);
    StageSkipped(s, f, 3);
    StageSkipped(s, f, 2);
    StageSkipped(s, f, 1);
    StageSkipped(s, f, 0);
    StagedNone(s, f);
  }

  /** Before any stage has run, the list is the catalog itself. */
  lemma {:induction false} StagedNone(s: seq<Product>, f: ProductFilters)
    ensures Staged(s, f, 0) == s
    decreases |s|
  {
    if s != [] {
      StagedNone(s[1..], f);
    }
  }

  /** `priceMax: 0` is falsy, so it means no upper bound at all. */
  lemma PriceMaxZeroIsUnbounded(f: ProductFilters, p: Product)
    ensures Matches(f.(priceMax := Some(0)), p) == Matches(f.(priceMax := None), p)
  {
  }

  /** `filters.page || 1`. */
  function PageNumber(f: ProductFilters): (n: int)
    ensures n != 0
    ensures f.page.Some? && f.page.value != 0 ==> n == f.page.value
    ensures f.page.None? || f.page.value == 0 ==> n == 1
  {
    if NumberSet(f.page) then f.page.value else 1
  }

  /** `filters.limit || 12`. */
  function PageSize(f: ProductFilters): (n: int)
    ensures n != 0
    ensures f.limit.Some? && f.limit.value != 0 ==> n == f.limit.value
    ensures f.limit.None? || f.limit.value == 0 ==> n == 12
  {
    if NumberSet(f.limit) then f.limit.value else 12
  }
}
