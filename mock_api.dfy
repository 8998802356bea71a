/** `mockApi`: the in-memory catalog service. `mockProducts` and
    `mockReviews` are module-level arrays that two of its calls change, so the
    service is a class holding both. */
module MockApi {
  import opened Wrappers
  import opened Seqs
  import opened Catalog
  import opened Sorting

  /** `Array.prototype.find` by id, as the index of the first match. */
  function FindIndex(s: seq<Product>, id: int): (r: Option<nat>)
    ensures r.Some? ==> r.value < |s| && s[r.value].id == id
    ensures r.Some? ==> forall j :: 0 <= j < r.value ==> s[j].id != id
    ensures r.None? <==> forall j :: 0 <= j < |s| ==> s[j].id != id
    decreases |s|
  {
    if s == [] then None
    else if s[0].id == id then Some(0)
    else match FindIndex(s[1..], id)
      case None => None
      case Some(i) => Some(i + 1)
  }

  /** The list `getProducts` pages through: the selection, sorted only when
      `sortBy` is set. */
  function Arranged(s: seq<Product>, f: ProductFilters): (r: seq<Product>)
    ensures |r| == |Selected(s, f)|
    ensures multiset(r) == multiset(Selected(s, f))
  {
    var selected := Selected(s, f);
    if f.sortBy.None? then selected else StableSort(selected, By(KeyOf(f.sortBy.value)))
  }

  /** The listed products are exactly the catalog products that pass every
      active filter. Without `sortBy` they stay in catalog order; with it they
      are a rearrangement of the selection in the chosen order, ties in
      catalog order. */
  lemma ArrangedContents(s: seq<Product>, f: ProductFilters)
    ensures forall x :: x in Arranged(s, f) <==> x in s && Matches(f, x)
    ensures multiset(Arranged(s, f)) == multiset(Selected(s, f))
    ensures f.sortBy.None? ==> Arranged(s, f) == Selected(s, f) && IsSubsequence(Arranged(s, f), s)
    ensures f.sortBy.Some? ==> Sorted(Arranged(s, f), By(KeyOf(f.sortBy.value)))
    ensures f.sortBy.Some? ==> forall v :: WithKey(Arranged(s, f), By(KeyOf(f.sortBy.value)), v) == WithKey(Selected(s, f), By(KeyOf(f.sortBy.value)), v)
  {
    SelectedIff(s, f);
    if f.sortBy.Some? {
      var k := By(KeyOf(f.sortBy.value));
      forall v ensures WithKey(Arranged(s, f), k, v) == WithKey(Selected(s, f), k, v) {
        StableSortKeepsTies(Selected(s, f), k, v);
      }
      forall x ensures x in Arranged(s, f) <==> x in Selected(s, f) {
        assert x in Arranged(s, f) <==> x in multiset(Arranged(s, f));
        assert x in Selected(s, f) <==> x in multiset(Selected(s, f));
      }
    }
  }

  /** A prefix of a sorted rearrangement of `all` holds the best `n`: anything
      of `all` left out ranks no better than everything taken. */
  lemma TopOfSorted(sorted: seq<Product>, all: seq<Product>, n: nat, k: SortKey)
    requires Sorted(sorted, By(k)) && multiset(sorted) == multiset(all)
    ensures Sorted(Take(sorted, n), By(k))
    ensures |Take(sorted, n)| == if |all| < n then |all| else n
    ensures multiset(Take(sorted, n)) <= multiset(all)
    ensures forall x :: x in Take(sorted, n) ==> x in all
    ensures forall q :: q in all ==> q in Take(sorted, n) || forall p :: p in Take(sorted, n) ==> Key(p, k) <= Key(q, k)
  {
    var top := Take(sorted, n);
    assert |sorted| == |multiset(sorted)| == |multiset(all)| == |all|;
    PrefixSubMultiset(sorted, n);
    forall x | x in top ensures x in all {
      assert x in sorted;
      assert x in multiset(sorted);
    }
    forall q | q in all && q !in top ensures forall p :: p in top ==> Key(p, k) <= Key(q, k) {
      assert q in multiset(all);
      assert q in sorted;
      var j :| 0 <= j < |sorted| && sorted[j] == q;
      assert j >= |top|;
      forall p | p in top ensures Key(p, k) <= Key(q, k) {
        var i :| 0 <= i < |top| && top[i] == p;
        assert sorted[i] == p;
      }
    }
  }

  /** The `n` best sellers among the products `keep` accepts: as many as
      there are, up to `n`, each a distinct accepted catalog product, in
      sales order, and no accepted product left out sells more than one
      taken. */
  lemma BestSellersAmong(products: seq<Product>, keep: Product -> bool, n: nat)
    ensures var top := Take(StableSort(Filter(products, keep), By(SalesDescending)), n);
      && Sorted(top, By(SalesDescending))
      && |top| == (if |Filter(products, keep)| < n then |Filter(products, keep)| else n)
      && multiset(top) <= multiset(products)
      && (forall p :: p in top ==> p in products && keep(p))
      && (forall q :: q in products && keep(q) ==> q in top || forall p :: p in top ==> p.salesCount >= q.salesCount)
  {
    TopOfSorted(StableSort(Filter(products, keep), By(SalesDescending)), Filter(products, keep), n, SalesDescending);
    FilterSubMultiset(products, keep);
  }

  /** The `n` best sellers of the whole catalog, read off a sorted copy. */
  lemma BestSellersOf(products: seq<Product>, n: nat)
    ensures var top := Take(StableSort(products, By(SalesDescending)), n);
      && |top| == (if |products| < n then |products| else n)
      && Sorted(top, By(SalesDescending))
      && multiset(top) <= multiset(products)
      && (forall p :: p in top ==> p in products)
      && (forall q :: q in products ==> q in top || forall p :: p in top ==> p.salesCount >= q.salesCount)
  {
    TopOfSorted(StableSort(products, By(SalesDescending)), products, n, SalesDescending);
  }

  /** The test `getRecommendedProducts` filters by for a known user: rated
      4.5 or more. */
  predicate HighlyRated(p: Product)
  {
    p.rating >= 45
  }

  /** The test `getRelatedProducts` filters by: another product of the category. */
  function SameCategory(productId: int, category: string): Product -> bool
  {
    (p: Product) => p.id != productId && p.category == category
  }

  /** The first four other products of a category, in catalog order: none
      from elsewhere, and fewer than four only when there are no more. */
  lemma FirstOfCategory(products: seq<Product>, productId: int, category: string)
    ensures var candidates := Filter(products, SameCategory(productId, category));
      var related := Take(candidates, 4);
      && related <= candidates
      && |related| == (if |candidates| < 4 then |candidates| else 4)
      && IsSubsequence(related, products)
      && (forall p :: p in related ==> p.id != productId && p.category == category)
      && (|related| < 4 ==> forall p :: p in products && p.id != productId && p.category == category ==> p in related)
  {
    var candidates := Filter(products, SameCategory(productId, category));
    var related := Take(candidates, 4);
    FilterIsSubsequence(products, SameCategory(productId, category));
    SubsequenceOfPrefix(candidates, products, |related|);
    assert related == candidates[..|related|];
    assert forall p :: p in related ==> p in candidates;
  }

  /** `mockReviews.filter((r) => r.productId === productId)`. */
  function ReviewsOf(rs: seq<Review>, productId: int): seq<Review>
  {
    Filter(rs, (r: Review) => r.productId == productId)
  }

  /** A newly posted review is listed last among its product's reviews and
      leaves every other product's list as it was. */
  lemma PostedReviewIsListed(rs: seq<Review>, r: Review, productId: int)
    ensures ReviewsOf(rs + [r], productId) ==
      if r.productId == productId then ReviewsOf(rs, productId) + [r] else ReviewsOf(rs, productId)
  {
    FilterAppend(rs, [r], (x: Review) => x.productId == productId);
    assert Filter([r], (x: Review) => x.productId == productId) == if r.productId == productId then [r] else [];
  }

  /** After a review is posted, the last page `getReviews` reports for its
      product ends with that review, and the pages of five taken in turn
      still list every review of the product exactly once, in order. */
  lemma PostedReviewEndsLastPage(rs: seq<Review>, r: Review)
    ensures var listed := ReviewsOf(rs + [r], r.productId);
      var last := CeilDiv(|listed|, 5);
      && last >= 1
      && PageOf(listed, last, 5) != []
      && PageOf(listed, last, 5)[|PageOf(listed, last, 5)| - 1] == r
      && Pages(listed, 5, last) == listed
  {
    var listed := ReviewsOf(rs + [r], r.productId);
    PostedReviewIsListed(rs, r, r.productId);
    assert listed[|listed| - 1] == r;
    var last := CeilDiv(|listed|, 5);
    PageWindow(listed, last, 5);
    AllPagesRebuildList(listed, 5);
  }

  /** The no-user reordering of the catalog settles: a second call finds it
      already in order and changes nothing more. */
  lemma ReorderBySalesSettles(s: seq<Product>)
    ensures StableSort(StableSort(s, By(SalesDescending)), By(SalesDescending)) == StableSort(s, By(SalesDescending))
  {
    SortingSortedIsIdentity(StableSort(s, By(SalesDescending)), By(SalesDescending));
  }

  // The six filter stages of `getProducts`. Each runs `filteredProducts.filter`
  // only when its option is truthy, and takes the catalog after the stages
  // before it to the catalog after its own.

  method CategoryStage(filteredProducts: seq<Product>, ghost catalog: seq<Product>, filters: ProductFilters)
    returns (r: seq<Product>)
    requires filteredProducts == Staged(catalog, filters, 0)
    ensures r == Staged(catalog, filters, 1)
  {
    if TextSet(filters.category) {
      var category := filters.category.value;
      var keep := (p: Product) => p.category == category;
      StageApplied(catalog, filters, 0, keep);
      r := Filter(filteredProducts, keep);
    } else {
      StageSkipped(catalog, filters, 0);
      r := filteredProducts;
    }
  }

  method CategoriesStage(filteredProducts: seq<Product>, ghost catalog: seq<Product>, filters: ProductFilters)
    returns (r: seq<Product>)
    requires filteredProducts == Staged(catalog, filters, 1)
    ensures r == Staged(catalog, filters, 2)
  {
    if ListSet(filters.categories) {
      var categories := filters.categories.value;
      var keep := (p: Product) => p.category in categories;
      StageApplied(catalog, filters, 1, keep);
      r := Filter(filteredProducts, keep);
    } else {
      StageSkipped(catalog, filters, 1);
      r := filteredProducts;
    }
  }

  method BrandsStage(filteredProducts: seq<Product>, ghost catalog: seq<Product>, filters: ProductFilters)
    returns (r: seq<Product>)
    requires filteredProducts == Staged(catalog, filters, 2)
    ensures r == Staged(catalog, filters, 3)
  {
    if ListSet(filters.brands) {
      var brands := filters.brands.value;
      var keep := (p: Product) => p.brand in brands;
      StageApplied(catalog, filters, 2, keep);
      r := Filter(filteredProducts, keep);
    } else {
      StageSkipped(catalog, filters, 2);
      r := filteredProducts;
    }
  }

  method PriceMinStage(filteredProducts: seq<Product>, ghost catalog: seq<Product>, filters: ProductFilters)
    returns (r: seq<Product>)
    requires filteredProducts == Staged(catalog, filters, 3)
    ensures r == Staged(catalog, filters, 4)
  {
    if NumberSet(filters.priceMin) {
      var priceMin := filters.priceMin.value;
      var keep := (p: Product) => p.price >= priceMin;
      StageApplied(catalog, filters, 3, keep);
      r := Filter(filteredProducts, keep);
    } else {
      StageSkipped(catalog, filters, 3);
      r := filteredProducts;
    }
  }

  method PriceMaxStage(filteredProducts: seq<Product>, ghost catalog: seq<Product>, filters: ProductFilters)
    returns (r: seq<Product>)
    requires filteredProducts == Staged(catalog, filters, 4)
    ensures r == Staged(catalog, filters, 5)
  {
    if NumberSet(filters.priceMax) {
      var priceMax := filters.priceMax.value;
      var keep := (p: Product) => p.price <= priceMax;
      StageApplied(catalog, filters, 4, keep);
      r := Filter(filteredProducts, keep);
    } else {
      StageSkipped(catalog, filters, 4);
      r := filteredProducts;
    }
  }

  method SearchStage(filteredProducts: seq<Product>, ghost catalog: seq<Product>, filters: ProductFilters)
    returns (r: seq<Product>)
    requires filteredProducts == Staged(catalog, filters, 5)
    ensures r == Staged(catalog, filters, 6)
  {
    if TextSet(filters.search) {
      var searchTerm := Text.Lower(filters.search.value);
      var keep := (p: Product) =>
        Text.Includes(Text.Lower(p.name), searchTerm) || Text.Includes(Text.Lower(p.brand), searchTerm);
      StageApplied(catalog, filters, 5, keep);
      r := Filter(filteredProducts, keep);
    } else {
      StageSkipped(catalog, filters, 5);
      r := filteredProducts;
    }
  }

  /** The `switch (filters.sortBy)` of `getProducts`, run only when `sortBy` is set. */
  method SortStep(filteredProducts: seq<Product>, sortBy: Option<SortBy>) returns (r: seq<Product>)
    ensures sortBy.None? ==> r == filteredProducts
    ensures sortBy.Some? ==> r == StableSort(filteredProducts, By(KeyOf(sortBy.value)))
  {
    r := filteredProducts;
    if sortBy.Some? {
      match sortBy.value
      case PriceLow => r := StableSort(filteredProducts, By(PriceAscending));
      case PriceHigh => r := StableSort(filteredProducts, By(PriceDescending));
      case Rating => r := StableSort(filteredProducts, By(RatingDescending));
      case Newest => r := StableSort(filteredProducts, By(NewestFirst));
      case Popular => r := StableSort(filteredProducts, By(ReviewsDescending));
    }
  }

  /** The tail of `getProducts`: page `filters.page || 1` of
      `filters.limit || 12` products, with the paging figures of the whole list. */
  method PageResponse(filteredProducts: seq<Product>, filters: ProductFilters)
    returns (response: ApiResponse<seq<Product>>)
    ensures response.success && response.message == "Products fetched successfully"
    ensures var page := PageNumber(filters);
      var limit := PageSize(filters);
      && response.data == PageOf(filteredProducts, page, limit)
      && response.pagination == Some(Pagination(page, limit, |filteredProducts|, CeilDiv(|filteredProducts|, limit)))
  {
    var page := if NumberSet(filters.page) then filters.page.value else 1;
    var limit := if NumberSet(filters.limit) then filters.limit.value else 12;
    var startIndex := (page - 1) * limit;
    var endIndex := startIndex + limit;
    var paginatedProducts := JsSlice(filteredProducts, startIndex, endIndex);

    response := ApiResponse(
      paginatedProducts, "Products fetched successfully", true,
      Some(Pagination(page, limit, |filteredProducts|, CeilDiv(|filteredProducts|, limit))));
  }

  class MockApi {
    /** `mockProducts` */
    var products: seq<Product>
    /** `mockReviews` */
    var reviews: seq<Review>

    constructor (products: seq<Product>, reviews: seq<Review>)
      ensures this.products == products && this.reviews == reviews
    {
      this.products := products;
      this.reviews := reviews;
    }

    /** Filters a copy of the catalog stage by stage, sorts it when asked, and
        cuts out one page. */
    method GetProducts(filters: ProductFilters) returns (response: ApiResponse<seq<Product>>)
      ensures response.success && response.message == "Products fetched successfully"
      ensures var all := Arranged(products, filters);
        var page := PageNumber(filters);
        var limit := PageSize(filters);
        && response.data == PageOf(all, page, limit)
        && response.pagination == Some(Pagination(page, limit, |all|, CeilDiv(|all|, limit)))
    {
      var filteredProducts := products;
      StagedNone(products, filters);
      filteredProducts := CategoryStage(filteredProducts, products, filters);
      filteredProducts := CategoriesStage(filteredProducts, products, filters);
      filteredProducts := BrandsStage(filteredProducts, products, filters);
      filteredProducts := PriceMinStage(filteredProducts, products, filters);
      filteredProducts := PriceMaxStage(filteredProducts, products, filters);
      filteredProducts := SearchStage(filteredProducts, products, filters);
      filteredProducts := SortStep(filteredProducts, filters.sortBy);

      response := PageResponse(filteredProducts, filters);
    }

    /** The first product with the id, or the error "Product not found". */
    function GetProduct(id: int): (r: Result<ApiResponse<Product>, string>)
      reads this
      ensures r.Failure? <==> forall j :: 0 <= j < |products| ==> products[j].id != id
      ensures r.Failure? ==> r.error == "Product not found"
      ensures r.Success? ==> r.value.data.id == id
      ensures r.Success? ==> exists i :: 0 <= i < |products| && products[i] == r.value.data &&
                                         forall j :: 0 <= j < i ==> products[j].id != id
      ensures r.Success? ==> r.value.success && r.value.pagination.None?
    {
      match FindIndex(products, id)
      case None => Failure("Product not found")
      case Some(i) => Success(ApiResponse(products[i], "Product fetched successfully", true, None))
    }

    /** The first six catalog entries. */
    function GetFeaturedProducts(): (r: ApiResponse<seq<Product>>)
      reads this
      ensures r.data <= products
      ensures |r.data| == if |products| < 6 then |products| else 6
      ensures r.success && r.pagination.None?
    {
      ApiResponse(Take(products, 6), "Featured products fetched successfully", true, None)
    }

    /** Up to four other products of the same category as product `productId`,
        in catalog order; an unknown id is an error. */
    function GetRelatedProducts(productId: int): (r: Result<ApiResponse<seq<Product>>, string>)
      reads this
      ensures r.Failure? <==> forall j :: 0 <= j < |products| ==> products[j].id != productId
      ensures r.Failure? ==> r.error == "Product not found"
      ensures r.Success? ==>
        var current := products[FindIndex(products, productId).value];
        var related := r.value.data;
        var candidates := Filter(products, SameCategory(productId, current.category));
        && related <= candidates
        && |related| == (if |candidates| < 4 then |candidates| else 4)
        && IsSubsequence(related, products)
        && (forall p :: p in related ==> p.id != productId && p.category == current.category)
        && (|related| < 4 ==> forall p :: p in products && p.id != productId && p.category == current.category ==> p in related)
    {
      match FindIndex(products, productId)
      case None => Failure("Product not found")
      case Some(i) =>
        var current := products[i];
        var related := Take(Filter(products, SameCategory(productId, current.category)), 4);
        FirstOfCategory(products, productId, current.category);
        Success(ApiResponse(related, "Related products fetched successfully", true, None))
    }

    /** The ten best-selling products: a sorted copy, so the catalog itself
        keeps its order. */
    function GetBestSellers(): (r: ApiResponse<seq<Product>>)
      reads this
      ensures |r.data| == if |products| < 10 then |products| else 10
      ensures Sorted(r.data, By(SalesDescending))
      ensures r.data <= StableSort(products, By(SalesDescending))
      ensures multiset(r.data) <= multiset(products)
      ensures forall p :: p in r.data ==> p in products
      ensures forall q :: q in products ==> q in r.data || forall p :: p in r.data ==> p.salesCount >= q.salesCount
    {
      BestSellersOf(products, 10);
      ApiResponse(Take(StableSort(products, By(SalesDescending)), 10), "Best sellers fetched successfully", true, None)
    }

    /** With a user id: the eight best sellers among products rated 4.5 or
        more. Without one: sorts the catalog itself by sales and returns its
        first eight. */
    method GetRecommendedProducts(userId: Option<string>) returns (response: ApiResponse<seq<Product>>)
      modifies this
      ensures reviews == old(reviews)
      ensures |response.data| <= 8 && Sorted(response.data, By(SalesDescending))
      ensures multiset(response.data) <= multiset(old(products))
      ensures TextSet(userId) ==> products == old(products)
      ensures TextSet(userId) ==> response.data <= StableSort(Filter(products, HighlyRated), By(SalesDescending))
      ensures TextSet(userId) ==> |response.data| == if |Filter(products, HighlyRated)| < 8 then |Filter(products, HighlyRated)| else 8
      ensures TextSet(userId) ==> forall p :: p in response.data ==> p in products && p.rating >= 45
      ensures TextSet(userId) ==> forall q :: q in products && q.rating >= 45 ==>
        q in response.data || forall p :: p in response.data ==> p.salesCount >= q.salesCount
      ensures !TextSet(userId) ==> products == StableSort(old(products), By(SalesDescending))
      ensures !TextSet(userId) ==> response.data == Take(products, 8)
      ensures !TextSet(userId) ==> |response.data| == if |products| < 8 then |products| else 8
    {
      var recommendedProducts := products;
      if TextSet(userId) {
        recommendedProducts := StableSort(Filter(products, HighlyRated), By(SalesDescending));
        BestSellersAmong(products, HighlyRated, 8);
      } else {
        products := StableSort(products, By(SalesDescending));
        recommendedProducts := products;
        TopOfSorted(recommendedProducts, recommendedProducts, 8, SalesDescending);
      }
      response := ApiResponse(Take(recommendedProducts, 8), "Recommended products fetched successfully", true, None);
    }

    /** Page `page` (default 1) of five of the product's reviews. */
    function GetReviews(productId: int, page: Option<int>): (r: ApiResponse<seq<Review>>)
      reads this
      ensures forall i :: 0 <= i < |r.data| ==> r.data[i] in reviews && r.data[i].productId == productId
      ensures var n := if page.Some? then page.value else 1;
        && r.data == PageOf(ReviewsOf(reviews, productId), n, 5)
        && (n >= 1 ==> |r.data| <= 5)
        && r.pagination == Some(Pagination(n, 5, |ReviewsOf(reviews, productId)|, CeilDiv(|ReviewsOf(reviews, productId)|, 5)))
    {
      var productReviews := ReviewsOf(reviews, productId);
      var n := if page.Some? then page.value else 1;
      var limit := 5;
      var startIndex := (n - 1) * limit;
      var endIndex := startIndex + limit;
      ApiResponse(
        JsSlice(productReviews, startIndex, endIndex), "Reviews fetched successfully", true,
        Some(Pagination(n, limit, |productReviews|, CeilDiv(|productReviews|, limit))))
    }

    /** Appends one review with the next id and no helpful votes. */
    method CreateReview(review: ReviewDraft, createdAt: string) returns (response: ApiResponse<Review>)
      modifies this
      ensures products == old(products)
      ensures reviews == old(reviews) + [response.data]
      ensures response.data == Review(
        |old(reviews)| + 1, review.productId, review.userId, review.userName, review.rating,
        review.title, review.content, review.images, review.size, review.color,
        review.height, review.weight, review.fit, review.isVerified, 0, createdAt)
      ensures response.success && response.pagination.None?
    {
      var newReview := Review(
        |reviews| + 1, review.productId, review.userId, review.userName, review.rating,
        review.title, review.content, review.images, review.size, review.color,
        review.height, review.weight, review.fit, review.isVerified, 0, createdAt);
      reviews := reviews + [newReview];
      response := ApiResponse(newReview, "Review created successfully", true, None);
    }
  }
}
