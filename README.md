# Storefront core in Dafny

This project models the logic of a fashion storefront's client:

- **`mockApi`** is the in-memory catalog service. `getProducts` filters, sorts and pages the catalog. There are single-product, featured, related, best-seller and recommendation lookups. It lists reviews a page at a time and posts new ones.
- **The client store** holds the signed-in user, the cart, the wishlist and the search history.
- **The product list page** turns the ticked categories, brands and price bands into the `ProductFilters` it sends.
- **The cart page** keeps the ticked lines and computes the order summary. It also has the quantity buttons and "delete selected".

Modules:

| file | module | what it holds |
|---|---|---|
| `wrappers.dfy` | `Wrappers` | `Option` and `Result` |
| `seqs.dfy` | `Seqs` | These JavaScript array operations: `filter`, `slice` with negative indices, `Math.ceil` of a division and `reduce` sums. Also the selection toggle, pages of a list, and lemmas about them. |
| `text.dfy` | `Text` | `toLowerCase` and `includes` |
| `catalog.dfy` | `Catalog` | The records (`Product`, `Review`, `ProductFilters`, `ApiResponse`), JavaScript truthiness of the filter options, and the six filter stages |
| `sorting.dfy` | `Sorting` | The catalog orderings and a stable sort. The sort is stated for any element type and integer key; `By` turns an ordering into the key function. Stability is required by section 22.1.3.27 of ECMA-262, 10th edition. |
| `mock_api.dfy` | `MockApi` | The service as a class whose fields are `mockProducts` and `mockReviews` |
| `store.dfy` | `Store` | The store as a class with four fields. Each method computes the new value of a field with a pure function, and those functions are the subject of the lemmas. |
| `products_page.dfy` | `ProductsPage` | The page state as a class, and the price bands |
| `cart_page.dfy` | `CartPage` | The selection, the summary, the button rules and "delete selected" |

Representation choices:

- `rating` is an integer number of tenths of a star, so "4.5 or more" is `rating >= 45`.
- `createdAt` of a product is an integer instant. The "newest" order compares these integers where the code compares `Date.getTime()` values.
- `toLowerCase` is modelled for ASCII letters only. The search lowers the term and both texts with the same function.
- The clock is a parameter. Ids and timestamps built from `Date.now()` and `new Date().toISOString()` are passed in (`newId`, `addedAt`, `createdAt`). Nothing makes them distinct, so lemmas that need distinct cart-line ids say so (`UniqueIds`).
- A thrown `Error("Product not found")` is a `Failure` carrying that message.
- Every `mockApi` method is `async` in the source. Here they are ordinary calls.

## Model

| member | source | states |
|---|---|---|
| Seqs.RemoveAll | lib/store.ts:139 | `filter((x) => x !== v)` leaves no `v`. It keeps every other element, and with `v` absent it changes nothing. |
| Seqs.Toggle | app/products/page.tsx:59-74 | A present value is removed everywhere and an absent one is appended. The membership of every other value is unchanged. |
| Seqs.ToggleTwiceRestores | app/products/page.tsx:59-74 | Toggling an absent value twice gives back the original list. |
| Seqs.ToggleKeepsDistinct | app/cart/page.tsx:16-18 | A toggled selection never holds a value twice. |
| Seqs.JsSlice | lib/api.ts:958 | `slice(start, end)` is no longer than the list or than `end - start`. For a non-negative start it is the run of the list from `start`. |
| Seqs.CeilDiv | lib/api.ts:968 | `Math.ceil(total / limit)` for positive `limit`: the least count of pages of `limit` that covers `total`. It is 0 exactly for an empty list. |
| Seqs.PageWindow | lib/api.ts:954-958 | Page `page` holds at most `limit` elements. Its length is fixed, and its elements are the list's from `(page - 1) * limit` on. |
| Seqs.PageBeyondLast | lib/api.ts:953-969 | A page number past `totalPages` gives an empty page. |
| Seqs.PagesArePrefix | lib/api.ts:956-958 | Pages 1 to `n` laid end to end are the first `n * limit` elements. |
| Seqs.AllPagesRebuildList | lib/api.ts:953-969 | Pages 1 to `totalPages` laid end to end give back the whole list. |
| Text.Lower | lib/api.ts:926-928 | The lowered text has the same length, lowers each letter, and holds no capital letter. |
| Text.LowerIdempotent | lib/api.ts:926-928 | Lowering twice is lowering once. |
| Text.IncludesIffOccurs | lib/api.ts:928 | `includes` holds exactly when the term occurs at some position. |
| Catalog.Staged | lib/api.ts:903-930 | After the first `n` stages, a product is kept iff it is in the catalog and passes those stages. |
| Catalog.StagedIsSubsequence | lib/api.ts:903-930 | The stages keep catalog order. |
| Catalog.StageApplied | lib/api.ts:905-930 | Filtering by stage `k` takes the list after `k` stages to the list after `k + 1`. |
| Catalog.StageSkipped | lib/api.ts:905-930 | A stage whose option is falsy keeps everything. |
| Catalog.StagedNone | lib/api.ts:903 | Before any stage the list is the catalog copy. |
| Catalog.SelectedIff | lib/api.ts:903-930 | A product is selected iff it is in the catalog and meets every active filter: category, categories, brands, min price, max price and the lowered search. The selection keeps catalog order. |
| Catalog.NoFiltersKeepAll | lib/api.ts:905-925 | With every option falsy, the selection is the whole catalog. |
| Catalog.PriceMaxZeroIsUnbounded | lib/api.ts:921-923 | `priceMax: 0` filters exactly like an absent `priceMax`. |
| Catalog.PageNumber | lib/api.ts:954 | `page \|\| 1`: the page given when it is truthy, and 1 when it is absent or 0. It is never 0. |
| Catalog.PageSize | lib/api.ts:955 | `limit \|\| 12`: the limit given when it is truthy, and 12 when it is absent or 0. It is never 0. |
| Sorting.KeyOf | lib/api.ts:933-950 | The `switch`: the default branch (`popular`) orders by review count, descending. |
| Sorting.Insert | lib/api.ts:936 | Inserting makes the list one longer. |
| Sorting.InsertPermutes | lib/api.ts:936 | Inserting adds `x` and loses nothing: the multiset gains exactly `x`. |
| Sorting.InsertSorted | lib/api.ts:936 | Insertion keeps a sorted list sorted. |
| Sorting.StableSort | lib/api.ts:936-949 | The sorted list is a permutation of the input and is in ascending key order. |
| Sorting.InsertWithKey | lib/api.ts:936 | Insertion places `x` before every element of equal key. |
| Sorting.StableSortKeepsTies | lib/api.ts:936-949 | Elements with equal keys keep their input order. |
| Sorting.SortedTiesDetermine | lib/api.ts:936-949 | Two sorted lists that agree on the order of every group of equal keys are equal. |
| Sorting.StableSortIsUnique | lib/api.ts:936-949 | Any sorted rearrangement that keeps ties in input order equals the model's sort. So the model agrees with every conforming `sort`. |
| Sorting.SortingSortedIsIdentity | lib/api.ts:936-949 | Sorting an already sorted list changes nothing. |
| MockApi.FindIndex | lib/api.ts:974 | `find` by id gives the first match, or none when no product has the id. |
| MockApi.Arranged | lib/api.ts:903-951 | The arranged list is a rearrangement of the selection: the same length and the same multiset. |
| MockApi.ArrangedContents | lib/api.ts:903-951 | The listed products are exactly the filtered ones. Without `sortBy` they stay in catalog order. With it they are a permutation, sorted by the chosen key, with ties in catalog order. |
| MockApi.FirstOfCategory | lib/api.ts:1002-1004 | The related products are a prefix of the other products of the category, taken in catalog order: four of them, or all when there are fewer. None comes from elsewhere. |
| MockApi.BestSellersAmong | lib/api.ts:1019-1022 | The first `n` of the accepted products sorted by sales: `n` of them or all when fewer, a sub-multiset of the catalog (no product twice), all accepted, in sales order. No accepted product left out sells more than one taken. |
| MockApi.BestSellersOf | lib/api.ts:1035 | The first `n` of the catalog sorted by sales: `n` of them or all when fewer, a sub-multiset of the catalog, in sales order. No product left out sells more than one taken. |
| MockApi.TopOfSorted | lib/api.ts:1035 | The first `n` of a sorted rearrangement are sorted: `n` of them or all when fewer, a sub-multiset of the list. Every element left out ranks no better than every one taken. |
| MockApi.PostedReviewIsListed | lib/api.ts:1045 | A posted review is listed last for its own product, and no other product's list changes. |
| MockApi.PostedReviewEndsLastPage | lib/api.ts:1044-1062 | After a review is posted, the last page `getReviews` reports for its product (`totalPages`) is non-empty and ends with that review. The pages 1 to `totalPages` together list the product's reviews exactly, in order. |
| MockApi.ReorderBySalesSettles | lib/api.ts:1024 | Reordering the catalog in place by sales a second time changes nothing more. |
| MockApi.CategoryStage | lib/api.ts:905-907 | The category stage takes the list after 0 stages to the list after 1. |
| MockApi.CategoriesStage | lib/api.ts:909-911 | The categories stage, from stage 1 to 2 |
| MockApi.BrandsStage | lib/api.ts:913-915 | The brands stage, from stage 2 to 3 |
| MockApi.PriceMinStage | lib/api.ts:917-919 | The `priceMin` stage, from stage 3 to 4 |
| MockApi.PriceMaxStage | lib/api.ts:921-923 | The `priceMax` stage, from stage 4 to 5 |
| MockApi.SearchStage | lib/api.ts:925-930 | The search stage, from stage 5 to 6 |
| MockApi.SortStep | lib/api.ts:932-951 | With no `sortBy` nothing moves. Otherwise the result is the stable sort by the chosen key. |
| MockApi.PageResponse | lib/api.ts:953-970 | `data` is page `page \|\| 1` of `limit \|\| 12`. `pagination` holds those two values, the list length and `ceil(total / limit)`. |
| MockApi.MockApi.GetProducts | lib/api.ts:901-971 | The response is that page of the filtered and arranged catalog, with its pagination. The catalog is not changed. |
| MockApi.MockApi.constructor | lib/api.ts:212 | The service starts from the given catalog (`mockProducts`) and reviews (`mockReviews`). |
| MockApi.MockApi.GetProduct | lib/api.ts:973-985 | Returns the first product with the id. Fails with "Product not found" iff no product has it. |
| MockApi.MockApi.GetFeaturedProducts | lib/api.ts:987-993 | The first six catalog entries, or all of them when there are fewer. |
| MockApi.MockApi.GetRelatedProducts | lib/api.ts:995-1011 | Fails iff the id is unknown. Otherwise the result is a prefix of the other products of that category in catalog order: the first four, or all when there are fewer. None has that id. |
| MockApi.MockApi.GetBestSellers | lib/api.ts:1034-1042 | The ten best sellers, or all products when there are fewer. They are a prefix of the stable sort by sales, so ties keep catalog order, and no product appears more often than in the catalog. Nothing left out sold more. |
| MockApi.MockApi.GetRecommendedProducts | lib/api.ts:1013-1032 | Returns eight, or all candidates when fewer, sorted by sales, with no product more often than in the catalog. With a truthy user id they are the prefix of the stable sales sort of the products rated 4.5 or more, and the catalog is unchanged. Without one, the catalog itself is re-sorted by sales and its first eight are returned. |
| MockApi.MockApi.GetReviews | lib/api.ts:1044-1062 | The data is page `page` (default 1) of five of that product's reviews, cut as `slice` cuts. So pages from 1 on hold at most five. `pagination` holds the page, 5, the product's review count and `ceil(count / 5)`. |
| MockApi.MockApi.CreateReview | lib/api.ts:1064-1079 | Appends exactly one review with id `old length + 1`, `helpfulCount` 0 and every supplied field copied. The catalog is untouched. |
| Store.FindLine | lib/store.ts:71-73 | `find` by (product id, color, size) gives the first matching line, or none. |
| Store.AddQuantity | lib/store.ts:78-80 | Every line with the given id grows by `quantity`, and no other line changes. |
| Store.SetQuantity | lib/store.ts:104 | Every line with the given id gets `quantity`, and no other line changes. |
| Store.SameKeysUnique | lib/store.ts:78-80 | Changing quantities keeps "one line per key". |
| Store.CartAdd | lib/store.ts:70-94 | For a new key, exactly one line is appended with the given product, color, size and quantity. Otherwise the number of lines is unchanged. |
| Store.CartAddKeepsLinesUnique | lib/store.ts:70-94 | Afterwards the cart has a line for the key, and "at most one line per (product id, color, size)" is kept. |
| Store.MergeChangesQuantitiesOnly | lib/store.ts:75-81 | With a line for the key, only the quantities of lines sharing its id grow, by `quantity`. Every other line is unchanged. |
| Store.MergeGrowsOneLine | lib/store.ts:75-81 | With distinct ids, the merge changes that one line only. |
| Store.MergeTotals | lib/store.ts:75-81 | With distinct ids, a merge raises `getCartCount` by `quantity` and `getCartTotal` by `quantity` times the unit price already in the line. |
| Store.NewLineTotals | lib/store.ts:82-93 | A new line raises `getCartCount` by `quantity` and `getCartTotal` by `quantity` times the price. |
| Store.GrowLineTotals | lib/store.ts:108-113 | Growing one line moves the count and the total by that line's share. |
| Store.AppendLineTotals | lib/store.ts:108-113 | Appending one line adds its quantity to the count and its price times quantity to the total. |
| Store.CartTotal | lib/store.ts:108-110 | `getCartTotal`'s reduce: 0 for an empty cart, and never negative when prices and quantities are not. |
| Store.CartCount | lib/store.ts:111-113 | `getCartCount`'s reduce: 0 for an empty cart, never negative when quantities are not, and at least one per line when every quantity is positive. |
| Store.AppendFreshId | lib/store.ts:84-85 | Appending a line whose id is new keeps the ids distinct. |
| Store.FindLineAppend | lib/store.ts:82-93 | After a new line is appended, `find` for its key finds that last line. |
| Store.RemoveLines | lib/store.ts:95-97 | Every line with the id goes and every other line stays. An absent id changes nothing, and both distinctness invariants are kept. |
| Store.RemoveLinesKeepsOrder | lib/store.ts:95-97 | The remaining lines keep their order. |
| Store.RemoveOneLine | lib/store.ts:95-97 | With distinct ids, removing line `i` leaves the lines before and after it. Count and total drop by its share. |
| Store.DropLineTotals | lib/store.ts:108-113 | Dropping one line takes its share off the count and the total. |
| Store.CartUpdate | lib/store.ts:98-106 | A quantity of 0 or less is `removeFromCart`. A positive one sets, not adds, the quantity of lines with the id, keeping the line count. An absent id changes nothing. |
| Store.UpdateTwiceIsOnce | lib/store.ts:98-106 | Repeating an update changes nothing. |
| Store.UpdateSetsOneLine | lib/store.ts:103-105 | With distinct ids, a positive update changes exactly line `i`, and the count moves by the difference. |
| Store.InWishlist | lib/store.ts:131-133 | `some` holds iff an entry has the product id. |
| Store.WishlistAdd | lib/store.ts:117-127 | A product already wished for changes nothing. Otherwise one entry is appended. Afterwards the product is in the list, and "one entry per product" is kept. |
| Store.WishlistRemove | lib/store.ts:128-130 | Afterwards the product is not in the list, and every other product's presence is unchanged. An absent product changes nothing. |
| Store.WishlistAddRemoveRestores | lib/store.ts:117-130 | Adding a product that is absent and then removing it restores the wishlist. |
| Store.HistoryAdd | lib/store.ts:137-142 | The new history starts with the query and holds it once. It has at most ten entries and goes on with the old history minus the query, in order. A well-formed history stays well-formed. |
| Store.RepeatedSearchMovesToFront | lib/store.ts:137-142 | Searching again for a query already in the history moves it to the front and drops nothing. |
| Store.HistoryKeepsLatest | lib/store.ts:140 | From an empty history, distinct searches leave the ten latest, newest first. |
| Store.Store.constructor | lib/store.ts:64-69 | No user, and an empty cart, wishlist and history |
| Store.Store.SetUser | lib/store.ts:65 | Replaces the user and changes nothing else. |
| Store.Store.Logout | lib/store.ts:66 | Clears the user, the cart and the wishlist, and leaves the search history. |
| Store.Store.AddToCart | lib/store.ts:70-94 | The cart becomes `CartAdd` of the old cart, and the store invariant is kept. |
| Store.Store.RemoveFromCart | lib/store.ts:95-97 | The cart becomes `RemoveLines` of the old cart. |
| Store.Store.UpdateCartQuantity | lib/store.ts:98-106 | The cart becomes `CartUpdate` of the old cart, through `removeFromCart` when `quantity <= 0`. |
| Store.Store.ClearCart | lib/store.ts:107 | The cart is empty, so total and count are 0. |
| Store.Store.AddToWishlist | lib/store.ts:117-127 | The wishlist becomes `WishlistAdd` of the old one, and `isInWishlist` holds afterwards. |
| Store.Store.RemoveFromWishlist | lib/store.ts:128-130 | The wishlist becomes `WishlistRemove` of the old one, and `isInWishlist` is false afterwards. |
| Store.Store.GetCartTotal | lib/store.ts:108-110 | The store's total: 0 for an empty cart, never negative when prices and quantities are not. |
| Store.Store.GetCartCount | lib/store.ts:111-113 | The store's count: 0 for an empty cart, at least the number of lines when every quantity is positive. |
| Store.Store.IsInWishlist | lib/store.ts:131-133 | Holds iff some wishlist entry has the product id. |
| Store.Store.AddToSearchHistory | lib/store.ts:137-142 | The history becomes `HistoryAdd` of the old one. |
| Store.Store.ClearSearchHistory | lib/store.ts:143 | The history is empty, and nothing else changes. |
| ProductsPage.UpperBound | app/products/page.tsx:53 | The open-ended band contributes 1000000 and every other band its own maximum. |
| ProductsPage.FindRange | app/products/page.tsx:49 | `find` by label gives a band with that label, or none when no band has it. |
| ProductsPage.KnownRanges | app/products/page.tsx:49 | The found bands are among the offered ones, at most one per ticked label. |
| ProductsPage.KnownRangesIff | app/products/page.tsx:49 | A band is kept iff some ticked label names it. Nothing is kept iff no ticked label is known. |
| ProductsPage.MinOf | app/products/page.tsx:52 | `Math.min` is an element of the list that is no larger than any element. |
| ProductsPage.MaxOf | app/products/page.tsx:53 | `Math.max` is an element of the list that is no smaller than any element. |
| ProductsPage.RangesAreOrdered | app/products/page.tsx:17-22 | Every offered band has `0 <= min <= max`. |
| ProductsPage.HullCoversEveryBand | app/products/page.tsx:48-55 | The bounds sent satisfy `priceMin <= priceMax` and enclose every ticked band. |
| ProductsPage.InTickedBandPasses | app/products/page.tsx:48-55 | A product priced inside any ticked band passes both price stages of `getProducts`. |
| ProductsPage.SeparatedBandsSendTheirHull | app/products/page.tsx:48-55 | Ticking the lowest band and the open-ended band sends 0 to 1000000: the hull, gap included. |
| ProductsPage.SentBoundsAreHull | app/products/page.tsx:48-55 | The bounds computed for the ticked labels are their hull: they enclose every known ticked band, and each is the bound of one of them. |
| ProductsPage.NothingTickedSelectsAll | lib/api.ts:905-925 | Filters with no category, no lists, no price bound and no search select the whole catalog. |
| ProductsPage.BandBounds | app/products/page.tsx:52-53 | Each bound sent is attained by one ticked band. |
| ProductsPage.ProductsPage.constructor | app/products/page.tsx:27-32 | Sorted by `popular`, nothing ticked, page 1 |
| ProductsPage.ProductsPage.SetSortBy | app/products/page.tsx:270 | Changes the order only. The page is kept. |
| ProductsPage.ProductsPage.ToggleCategory | app/products/page.tsx:59-64 | Toggles the category and returns to page 1. |
| ProductsPage.ProductsPage.ToggleBrand | app/products/page.tsx:66-69 | Toggles the brand and returns to page 1. |
| ProductsPage.ProductsPage.TogglePriceRange | app/products/page.tsx:71-74 | Toggles the band label and returns to page 1. |
| ProductsPage.ProductsPage.ClearAllFilters | app/products/page.tsx:76-81 | Unticks everything and returns to page 1. No filter is active afterwards. |
| ProductsPage.ProductsPage.HasActiveFilters | app/products/page.tsx:89 | Active iff at least one category, brand or price band is ticked. |
| ProductsPage.ProductsPage.LoadMore | app/products/page.tsx:83-87 | Advances one page only while `currentPage < totalPages`, and never past `totalPages`. |
| ProductsPage.ProductsPage.BuildFilters | app/products/page.tsx:39-55 | The lists are sent only when non-empty, with `limit` 20, the current page and the order. Price bounds are sent iff a known band is ticked; they are the hull of the ticked bands, and unknown labels are ignored. With no active filter, `getProducts` selects the whole catalog. |
| CartPage.LineIds | app/cart/page.tsx:14 | The ids of the lines, in cart order |
| CartPage.SelectedCartItems | app/cart/page.tsx:28 | A line is in the selection iff it is in the cart and its id is ticked. |
| CartPage.SelectedKeepCartOrder | app/cart/page.tsx:28 | The selection keeps cart order. |
| CartPage.SelectingEveryIdSelectsAll | app/cart/page.tsx:24 | Ticking every line id selects the whole cart. |
| CartPage.ToggleItemSelection | app/cart/page.tsx:16-18 | Ticks or unticks exactly the one id, and never repeats an id. |
| CartPage.ToggleSelectAll | app/cart/page.tsx:20-26 | When the counts agree the selection becomes empty, so no line is selected. Otherwise it becomes exactly the cart's ids, so every line is. |
| CartPage.StaleSelectionBlocksSelectAll | app/cart/page.tsx:20-26 | With one stale id and one unticked line, "select all" empties the selection, so no line is selected before or after. |
| CartPage.ToggleSelectAllLines | app/cart/page.tsx:20-26 | The corrected toggle: the selection becomes empty when every line is ticked, and exactly the cart's ids otherwise. No stale id survives it. |
| CartPage.DeliveryFee | app/cart/page.tsx:35 | The fee is 0 iff the ticked total is at least 50000, and 3000 otherwise. |
| CartPage.OriginalUnitPrice | app/cart/page.tsx:31 | `originalPrice \|\| price`: the original price when it is set and not 0, otherwise the price. |
| CartPage.TotalPrice | app/cart/page.tsx:29 | 0 with nothing ticked. With every line ticked it is the store's `getCartTotal`. |
| CartPage.TotalOriginalPrice | app/cart/page.tsx:30-33 | 0 with nothing ticked. Without any original prices it equals the ticked total. |
| CartPage.TotalDiscount | app/cart/page.tsx:34 | No discount with nothing ticked or without any original prices. |
| CartPage.FreeShippingHint | app/cart/page.tsx:241-243 | The hint is shown iff `0 < totalPrice < 50000`. Its amount is positive and is exactly what makes shipping free. |
| CartPage.FinalPrice | app/cart/page.tsx:36 | The final price adds at most 3000 to the ticked total, and nothing from 50000 up. |
| CartPage.SelectAllTotalIsCartTotal | app/cart/page.tsx:29 | With every line ticked, the summary total is the store's `getCartTotal`. |
| CartPage.PlusEnabled | app/cart/page.tsx:173 | The plus button is enabled iff one more unit still fits in the stock. |
| CartPage.DiscountIsNonNegative | app/cart/page.tsx:30-34 | The discount shown is never negative when no original price is below its price and no quantity is negative. |
| CartPage.MinusAtOneRemovesLine | app/cart/page.tsx:164 | The minus button at quantity 1 removes that line alone, and the count drops by one. |
| CartPage.PlusStaysWithinStock | app/cart/page.tsx:172-173 | The enabled plus button raises exactly that line by one, never past the stock. |
| CartPage.Unselected | app/cart/page.tsx:111 | A line stays iff its id is not ticked. |
| CartPage.DeletingSelectedTakesOffTheirTotal | app/cart/page.tsx:110-113 | Deleting the ticked lines takes exactly the summary total off the cart total, and their quantities off the count. |
| CartPage.RemovingOneMore | app/cart/page.tsx:111 | One more `removeFromCart` turn removes the next ticked id. |
| CartPage.DeleteSelected | app/cart/page.tsx:110-113 | After the loop the cart holds exactly the unticked lines and the store invariant holds. The selection is empty. |

## Left out

- `ApiClient` (lib/api.ts:91-206) is left out. It makes HTTP requests with `fetch`, encodes query strings and parses JSON, which is I/O and library code.
- Persistence of the store to `localStorage` (lib/store.ts:60-62, 145-153) is left out. The store is a plain object here.
- `getCategories` and `getBrands` return fixed data and are not modelled.
- The 20-product and review fixtures are not modelled. The catalog and the reviews are constructor arguments.
- Floating point: `rating` is integer tenths, and no other value in the core is fractional.
- Date parsing: product `createdAt` is an integer instant. Review `createdAt` and `addedAt` are opaque strings given by the caller.
- Unicode case mapping: `Text.Lower` maps only the ASCII letters.
- The `colors` and `sizes` filter options are carried in `ProductFilters`, but no stage of `getProducts` reads them, so none is modelled.
- React rendering, hooks and effects are left out. `useProducts` fetches only on mount, so a new `filters` object does not trigger a request, and the model does not relate page state to fetched data.
- Locale formatting (`toLocaleString`) and the search modal's debounce are left out.
- MockApi.MockApi.GetRecommendedProducts: its no-user branch sorts the catalog's own array. The model reassigns the `products` field to the sorted sequence. Any other holder of a reference to the old array would see the change in JavaScript, but not in the model.
- Catalog.Staged: the stage functions state membership only. Catalog order is the separate lemma `Catalog.StagedIsSubsequence`, which `Catalog.SelectedIff` also states.

## Findings

| source | as written | input that shows it | evidently intended | confidence | as-written member | corrected member |
|---|---|---|---|---|---|---|
| app/cart/page.tsx:20-26 | "Select all" decides by comparing the number of ticked ids with the number of lines. Ids stay ticked after their line leaves the cart, for instance when the minus button removes a line at quantity 1. | Cart `[A, B]` with only `A` ticked. Then `A` is removed by the minus button, leaving cart `[B]` and ticked `["A"]`. The counts agree, so the header box shows checked and "select all" clears the selection. `B` is never selected. | Clear only when every line is ticked, and otherwise tick every line. | not executed; medium | CartPage.StaleSelectionBlocksSelectAll | CartPage.ToggleSelectAllLines |
