# DressForPleasure storefront: listing, product page and data hooks in Dafny

This project models the logic at the centre of the DressForPleasure storefront
frontend and proves properties about it. It covers three parts:

- **The product listing** (`ProductsPage`). One effect narrows the catalogue by
  the search term, the category, collection, size, color and tag selections and
  the price range, then sorts the result by the chosen key. The same page edits
  the filter record (toggling one value of a list, clearing everything) and
  derives the option lists of the filter panel. The narrowing is modelled as the
  source writes it: a local list reassigned stage by stage, then sorted in place
  on an array. The model proves it equals one filter by the conjunction of the
  seven conditions.
- **The product detail page** (`ProductDetailPage`). This covers the product
  that a route id shows, the size and color selected by default when it loads,
  the variant that the selection resolves to, and its stock. It also covers the
  result of "add to cart": one of two warnings, or exactly one cart line with
  its confirmation.
- **The data hooks** (`ApiHooks`). The generic fetch-with-fallback hook is a
  class over `data`, `loading` and `error`. Each effect run has its own
  `mounted` flag and its own copy of the `data` captured when it started. The
  model also covers the product search (blank queries, the offline fallback),
  `isConnected` of the health hook, and the defaults of the products hook.

Shared pieces live in their own modules:

- `Text`: `toLowerCase`, `includes`, `trim`, `localeCompare`.
- `Sequences`: `filter`, `find`, `flatMap`, `[...new Set(...)]`.
- `Sorting`: `Array.prototype.sort`.
- `Catalog`: the product records.
- `Wrappers`: `Option`.

Prices are whole cents, so the listing's default band `[0, 300]` is
`(0, 300 * Cents)`.

The model shows one thing about the hook that its code leaves implicit. It
rests on the assumption, stated under "## Left out", that every value the API
returns is truthy. Under it, the hook starts with `data` equal to the
fallback, so whenever a fallback exists, no effect run ever captures empty
`data`. The fallback branch of a mounted failure (`fallbackData && !data`)
therefore never fires. `ApiCall.Fail` proves that under `Valid()` a failure
leaves `data` unchanged. Only `refetch`'s failure path ever writes the
fallback back. A response whose body is `null` would break the assumption:
`data` would become falsy, and the branch would fire on the next failed run.

## Model

| member | source | states |
|---|---|---|
| ProductsPage.ApplyFiltersAndSort | src/pages/ProductsPage.tsx:93-157 | The listing holds each product exactly as often as it occurs among the matching products, so it holds only elements of `products` and never duplicates one. A product is listed iff it is in `products` and meets all seven conditions. `price-low` gives non-decreasing prices, `price-high` gives non-increasing prices, and `name` or any unknown key gives names in ascending order. |
| ProductsPage.Narrow | src/pages/ProductsPage.tsx:94-139 | Reassigning `filtered` through the active stages (the search, category, collection, size, color and tag stages only when non-empty; the price stage always) ends with exactly the products matching all conditions, in catalogue order. |
| ProductsPage.StagesCompose | src/pages/ProductsPage.tsx:97-139 | Running the seven guarded stages one after the other in the page's order equals a single filter by the conjunction of the conditions. |
| ProductsPage.StageStep | src/pages/ProductsPage.tsx:97-139 | A stage that is skipped because its selection is empty or the term is the empty string removes nothing that its condition would remove. An active stage removes exactly what its condition rejects. |
| ProductsPage.Matches | src/pages/ProductsPage.tsx:97-139 | A listed product is inside the price range and, where a category or collection is selected, in it. With every selection and the term empty, a product matches iff its price is in range. |
| ProductsPage.VisibleMembers | src/pages/ProductsPage.tsx:94-139 | A product is in the narrowed list (`Visible`) iff it is in `products` and matches every condition, and the list never adds or repeats a product. |
| ProductsPage.EmptySearchKeepsAll | src/pages/ProductsPage.tsx:97-103 | Running the search stage with an empty term would keep every product, so skipping it when the term is empty changes nothing. |
| ProductsPage.ParseSortKey | src/pages/ProductsPage.tsx:143-152 | "price-low", "price-high" and "newest" select their own comparator, and every other key, "name" included, sorts by name. |
| ProductsPage.Compare | src/pages/ProductsPage.tsx:142-153 | The sign of the comparator: `price-low` puts the lower price first and ties equal prices, `price-high` the reverse, `name` ties only equal names. For `newest` the result is never 0 and is positive iff `b` is a new arrival. |
| ProductsPage.SortListing | src/pages/ProductsPage.tsx:141-154 | Sorting a copy of the narrowed list yields a permutation of it. With every key except `newest`, each element compares no later than every element after it. |
| Sorting.SortInPlace | src/pages/ProductsPage.tsx:142-154 | Sorting the array in place permutes its elements. With a consistent comparator the array ends sorted by it. |
| Sorting.SinkLast | src/pages/ProductsPage.tsx:142-154 | One insertion step rearranges only `a[..i + 1]`, leaving everything after index `i` in place, and turns a sorted prefix of length `i` into a sorted prefix of length `i + 1`. |
| ProductsPage.CompareConsistent | src/pages/ProductsPage.tsx:142-153 | The `price-low`, `price-high` and `name`/default comparators are consistent: swapped arguments never both sort after each other, and "no later than" is transitive. |
| ProductsPage.NewestInconsistent | src/pages/ProductsPage.tsx:148-149 | The `newest` comparator is inconsistent: a new arrival sorts after itself, so its order is up to the sort algorithm. |
| ProductsPage.NoSelectionOnlyPrice | src/pages/ProductsPage.tsx:97-139 | With empty category, collection, size, color and tag selections and an empty search term, only the price range narrows the list. |
| ProductsPage.NoSelectionShowsAll | src/pages/ProductsPage.tsx:97-139 | With no selections, no term and every price inside the range, the listing before sorting is the whole catalogue. |
| ProductsPage.InitialPriceBounds | src/pages/ProductsPage.tsx:59-67 | The price bounds are inclusive. With the initial filters a product passes iff its price is between 0 and 300; prices 0 and 300 pass and prices above 300 do not. |
| ProductsPage.InStockIgnored | src/pages/ProductsPage.tsx:93-157 | Changing `inStock` does not change the listing. |
| ProductsPage.SearchIgnoresCase | src/pages/ProductsPage.tsx:97-102 | Lowering the search term does not change which products the search keeps. |
| ProductsPage.WithSelection | src/pages/ProductsPage.tsx:164-169 | Replacing one list field of the filter record sets that field and keeps every other list, the price range and `inStock`. |
| ProductsPage.Toggle | src/pages/ProductsPage.tsx:166-168 | A present value is removed wherever it occurs and every other value keeps its count. An absent value is appended at the end. |
| ProductsPage.ToggleArrayFilter | src/pages/ProductsPage.tsx:163-170 | Toggling changes only the named list, which becomes its toggle. All other fields are unchanged. |
| ProductsPage.ToggleTwiceRestores | src/pages/ProductsPage.tsx:163-170 | Toggling an absent value twice gives back the original record. |
| ProductsPage.ClearFilters | src/pages/ProductsPage.tsx:172-183 | Clearing writes exactly the initial filter record of the page's first render and an empty search term. |
| ProductsPage.ClearedShowsPriceBand | src/pages/ProductsPage.tsx:172-183 | After clearing, the listing keeps exactly the products priced from 0 to 300 inclusive. |
| ProductsPage.AllCollections | src/pages/ProductsPage.tsx:185 | Each collection of some product appears, nothing else appears, and none appears twice. |
| ProductsPage.AllSizes | src/pages/ProductsPage.tsx:186 | Each size offered by some product appears, nothing else appears, and none appears twice. |
| ProductsPage.ColorCodes | src/pages/ProductsPage.tsx:187 | A product's code list holds exactly the codes of its colors. |
| ProductsPage.AllColors | src/pages/ProductsPage.tsx:187 | Each color code of some product appears, nothing else appears, and none appears twice. |
| ProductsPage.AllTags | src/pages/ProductsPage.tsx:188 | Each tag of some product appears, nothing else appears, and none appears twice. |
| Sequences.Select | src/pages/ProductsPage.tsx:98 | `filter` never lengthens a list. |
| Sequences.SelectMembers | src/pages/ProductsPage.tsx:98 | An element is in the filtered list iff it is in the list and the callback accepts it. |
| Sequences.SelectSubMultiset | src/pages/ProductsPage.tsx:98 | `filter` never adds an element or repeats one. |
| Sequences.SelectCounts | src/pages/ProductsPage.tsx:167 | Filtering keeps every occurrence of an accepted value and none of a rejected one. |
| Sequences.SelectThen | src/pages/ProductsPage.tsx:98-138 | Filtering by one callback and then by another equals filtering once by their conjunction. |
| Sequences.Find | src/pages/ProductDetailPage.tsx:83-85 | `find` returns nothing iff no element passes. Otherwise it returns an element that passes with no passing element before it. |
| Sequences.Flatten | src/pages/ProductsPage.tsx:186-188 | `flatMap` holds exactly the elements of the inner lists. |
| Sequences.Distinct | src/pages/ProductsPage.tsx:185-188 | `[...new Set(s)]` has no duplicates and holds exactly the elements of `s`. |
| Text.Lower | src/pages/ProductsPage.tsx:99-101 | `toLowerCase` keeps the length, turns each ASCII capital into its small letter, and keeps every other character. |
| Text.LowerIdempotent | src/pages/ProductsPage.tsx:99-101 | Lowering twice equals lowering once, and a lowered string has no capital ASCII letter. |
| Text.Contains | src/pages/ProductsPage.tsx:99-101 | `includes` never holds for a needle longer than the haystack and always holds for the empty needle. |
| Text.ContainsIffOccurs | src/pages/ProductsPage.tsx:99-101 | `includes` holds iff the needle occurs at some offset of the haystack. |
| Text.TrimStart | src/hooks/useApi.ts:265 | Trimming the start removes a prefix made only of whitespace, and the rest does not start with whitespace. |
| Text.TrimEnd | src/hooks/useApi.ts:265 | Trimming the end removes a suffix made only of whitespace, and the rest does not end with whitespace. |
| Text.Trim | src/hooks/useApi.ts:265 | `trim()` returns a slice of the string with only whitespace cut from either side, and the slice neither starts nor ends with whitespace. |
| Text.TrimEmptyIffBlank | src/hooks/useApi.ts:265 | `trim()` gives the empty string iff every character is whitespace. |
| Text.CompareText | src/pages/ProductsPage.tsx:152 | `localeCompare` yields -1, 0 or 1. |
| Text.CompareTextAntisymmetric | src/pages/ProductsPage.tsx:152 | Swapping the arguments of `localeCompare` negates the result, and 0 means the names are equal. |
| Text.CompareTextTransitive | src/pages/ProductsPage.tsx:152 | The name order of `localeCompare` is transitive. |
| ProductDetailPage.FindProduct | src/pages/ProductDetailPage.tsx:59 | The product shown is the first with the route's id. There is none iff no product has that id. |
| ProductDetailPage.SelectedVariant | src/pages/ProductDetailPage.tsx:81-86 | There is no variant when no product is loaded or when no variant has the selected size and color. Otherwise the result is the first variant that matches both. |
| ProductDetailPage.MaxStock | src/pages/ProductDetailPage.tsx:88-91 | The stock of the first matching variant, or 0 when there is no product or no match. |
| ProductDetailPage.IsInStock | src/pages/ProductDetailPage.tsx:93-95 | In stock only when a product is loaded and the selection resolves to a variant. |
| ProductDetailPage.InStockIffFirstFitHasStock | src/pages/ProductDetailPage.tsx:93-95 | In stock iff a product is loaded and its first matching variant has positive stock. |
| ProductDetailPage.ColorWithCode | src/pages/ProductDetailPage.tsx:117 | The first color whose code is the selected one, or none iff no color has that code. |
| ProductDetailPage.ColorLabel | src/pages/ProductDetailPage.tsx:125 | The cart line's color is the name of the first color with the selected code. It is the code itself when no color has that code or when that name is empty. |
| ProductDetailPage.ColorNameText | src/pages/ProductDetailPage.tsx:132 | The color in the confirmation text is that first color's name, or "undefined" when no color has the code. |
| ProductDetailPage.DetailPage.constructor | src/pages/ProductDetailPage.tsx:43-47 | At first no product is loaded, loading is true, and no size or color is selected. |
| ProductDetailPage.DetailPage.LoadProduct | src/pages/ProductDetailPage.tsx:59-74 | A found product is shown. Its first color code and first size become the selection when those lists are non-empty; otherwise the previous selection stays. An unknown id changes nothing. Loading ends either way. |
| ProductDetailPage.DetailPage.LoadFailed | src/pages/ProductDetailPage.tsx:71-75 | A failed load only ends loading. |
| ProductDetailPage.DetailPage.HandleAddToCart | src/pages/ProductDetailPage.tsx:97-134 | "Auswahl erforderlich" (no `addItem`) iff no product is loaded or the size or color is empty. "Variante nicht verfügbar" (no `addItem`) iff they are set but no variant matches. Otherwise exactly one line is added, from the first matching variant: `variantId` and `maxStock` from the variant; product id, name and price; the selected size; the color label; the first image. The confirmation reads as the source writes it. Stock is never checked, so a variant with no stock is still added. |
| ApiHooks.ErrorMessage | src/hooks/useApi.ts:30 | An `Error`'s message, or the given default for any other thrown value. |
| ApiHooks.ApiCall.constructor | src/hooks/useApi.ts:13-15 | `data` starts as the fallback (empty without one), with loading true and no error. |
| ApiHooks.ApiCall.Start | src/hooks/useApi.ts:17-23 | Each effect run starts mounted and captures the current `data`. It sets loading and clears the error. |
| ApiHooks.ApiCall.Cleanup | src/hooks/useApi.ts:48-50 | The cleanup marks only its own run unmounted and changes no visible state. |
| ApiHooks.ApiCall.Succeed | src/hooks/useApi.ts:24-27 | A mounted run's success stores the result and ends loading, leaving the error as it is. After unmount it changes none of `data`, `error` or `loading`. |
| ApiHooks.ApiCall.Fail | src/hooks/useApi.ts:28-43 | A mounted run's failure sets the error to the message ('Unbekannter Fehler' for non-`Error` values) and ends loading. It replaces `data` by the fallback only if one exists and the data captured at the start was empty. After unmount it changes nothing. While the invariant holds, a failure never changes `data`. |
| ApiHooks.ApiCall.Refetch | src/hooks/useApi.ts:53-55 | `refetch` sets loading and clears the error. |
| ApiHooks.ApiCall.RefetchSucceed | src/hooks/useApi.ts:57-58 | A refetched result is stored and loading ends, with no mounted check. |
| ApiHooks.ApiCall.RefetchFail | src/hooks/useApi.ts:59-66 | A failed refetch sets the error and ends loading, with no mounted check. It writes the fallback whenever one exists, even over data already held. |
| ApiHooks.ProductsView | src/hooks/useApi.ts:142-148 | Without data, `useProducts` gives an empty product list and a total of 0. With data it gives the response's list and total. |
| ApiHooks.FirstRenderShowsMocks | src/hooks/useApi.ts:136-144 | The fallback response of `useProducts` shows the three mock products with a total of 3. |
| ApiHooks.IsConnected | src/hooks/useApi.ts:338 | `isConnected` holds iff there is health data whose status is "ok" and whose database is "connected". |
| ApiHooks.MockNotConnected | src/hooks/useApi.ts:331-338 | `isConnected` is false for the fallback health value and for no data. |
| ApiHooks.MatchesQuery | src/hooks/useApi.ts:299-302 | Every product matches the empty query, and none matches a query longer than both its name and its description. |
| ApiHooks.QueryIgnoresCase | src/hooks/useApi.ts:299-302 | Lowering the query does not change which products match. |
| ApiHooks.FallbackSearch | src/hooks/useApi.ts:280-302 | The offline results are exactly the mock products whose lowered name or description contains the lowered query, each at most once. |
| ApiHooks.FallbackFindsShirt | src/hooks/useApi.ts:280-302 | The offline search for "ATLANTA" finds the mock shirt. |
| ApiHooks.ProductSearch.constructor | src/hooks/useApi.ts:260-262 | The search starts with no results, not loading and no error. |
| ApiHooks.ProductSearch.Search | src/hooks/useApi.ts:264-273 | A query that trims to nothing empties the results and issues no request, leaving loading and error alone. Any other query sets loading, clears the error and issues the request. |
| ApiHooks.ProductSearch.SearchSucceed | src/hooks/useApi.ts:273-274 | The response's products become the results and loading ends. |
| ApiHooks.ProductSearch.SearchFail | src/hooks/useApi.ts:275-307 | The error is the message ('Suchfehler' for non-`Error` values). The results are exactly the matching mock products. Loading ends. |

## Left out

- `src/api.ts`, the HTTP client, is not part of this model. Each request's result is a method parameter, and a rejected request is a `Thrown` value.
- Loading `/data/products.json` and `/data/categories.json` with `fetch` is not modelled. The fetched product array is an input (src/pages/ProductsPage.tsx:69-90, src/pages/ProductDetailPage.tsx:54-79).
- The 300 ms debounce of the search hook (`setTimeout`/`clearTimeout`, src/hooks/useApi.ts:310-320) is not modelled, including its `if (query)` test. It is timer-driven.
- React scheduling and `useCallback` dependency arrays are not modelled. The caller orders `Start`, `Cleanup` and the completions the way React and the network would.
- Console logging is not modelled.
- JSX rendering is not modelled: the view mode, the wishlist and share handlers, the image and quantity pickers, and the toast component. A toast appears only as its title, text and variant.
- The cart context is not modelled. `addItem` appears as the `CartLine` that `HandleAddToCart` returns.
- `useProduct`, `useCategories` and `useCollections` are further instances of the same `useApiCall` machine, and their mock literals are not reproduced.
- `useCreateOrder` is not modelled. It does not use `useApiCall`: it starts not loading, has no fallback and no mounted guard, and rethrows the error (src/hooks/useApi.ts:350-377).
- ProductsPage.SortListing: for `newest` only the permutation is proved. That comparator ignores `a` and is inconsistent, so ECMAScript leaves the order to the engine. The model sorts with an insertion sort, whose order for that key is one possible outcome.
- Sorting.SortInPlace: stability is not stated, so nothing fixes the order of elements that compare equal. ECMAScript requires a stable sort, and the insertion sort is stable, but no contract says so.
- ProductsPage.SortListing: inherits the missing stability statement, so nothing fixes the order of products with equal prices or equal names.
- ProductsPage.ApplyFiltersAndSort: inherits the missing stability statement, so the listing's order among products with equal prices or equal names is not stated.
- Prices are integer cents, not floating-point numbers. The listing's bounds `[0, 300]` become `(0, 300 * Cents)`. Only comparison and the sign of a difference matter.
- Text.Lower: `toLowerCase` is modelled on ASCII letters only. Unicode case mapping is not modelled.
- Text.CompareText: `localeCompare` is modelled as the lexicographic order on Unicode code points (Dafny's `char`). Locale collation is not modelled, and neither is UTF-16 code-unit order, which differs when a supplementary character meets one in U+E000 to U+FFFF.
- The listing does not trim its search term, unlike the search hook (src/hooks/useApi.ts:265): only the empty string skips the search stage (src/pages/ProductsPage.tsx:97), and a term of spaces runs it.
- Sequences.Distinct: the result's order (first occurrence, as a JavaScript `Set` keeps it) is not stated; only its elements and the absence of duplicates are. The option lists AllCollections, AllSizes, AllColors and AllTags inherit this.
- ProductsPage.Toggle: when a value is removed, the contract states the remaining counts but not that the remaining values keep their order (`filter` keeps it).
- ProductsPage.ToggleArrayFilter: only the five list-valued keys are modelled. The page never toggles `priceRange` or `inStock` this way.
- ApiHooks.ApiCall.Start: every response value is taken to be truthy, as the API's objects and arrays are. So `!data` is `data.None?` and `fallbackData || null` is the fallback itself. The client returns whatever the response body parses to (src/api.ts is not part of this model), so a `null` body is outside the model.
- ApiHooks.ApiCall.Start: the `data` an effect run captures is the state when the run starts. That matches the render that scheduled the effect unless a state update lands in between.
- ApiHooks.ApiCall.Refetch: requests issued by `refetch` are not tracked one by one. Any number may be in flight and may settle in any order.
- Catalog: product fields that none of these functions read are not modelled, e.g. `originalPrice`, `discount`, `material`, `featured` and `bestseller`. The API's `ApiProduct` keeps only id, name, description, price and category.
