# Storefront product listing — a Dafny model

This project models the behaviour behind the product listing page of a small
React storefront:

- **`Catalog`** (`catalog.dfy`) models the product service. It holds the
  twelve-product sample catalogue, the lookup by id (`find`) and the filter
  by category.
- **`Listing`** (`listing.dfy`) models the products page. Its six pieces of
  state are a class whose methods are the page's setters and its one-shot
  load. The page also derives two views on every render:
  - the filtered product list: a category test and a case-insensitive
    substring search over name and description;
  - the category pills: the distinct category labels, in order of first
    occurrence.
- **`Sequences`** (`sequences.dfy`) holds the two array idioms those views
  are built from, `Array.prototype.filter` and `Array.from(new Set(xs))`,
  with their laws.
- **`Sidebar`** (`sidebar.dfy`) models the `FilterSidebar` component. It covers the
  rating checkboxes' toggle (remove if ticked, append if not) and the price
  range, which a range slider drives on `[0, 1000]` in steps of 10.
- **`RangeSlider`** (`range_slider.dfy`) models the two-handle slider: the
  handle being dragged, and the clamping that keeps the handles one step
  apart and inside the scale.
- **`ProductRow`** (`product_row.dfy`) models the `ProductListItem` component, the list-layout product row: a
  quantity stepper that never drops below 1, a typed-input box that accepts
  only positive numbers, and a wishlist toggle.
- **`SampleSearches`** (`sample_searches.dfy`) works one search through on
  the sample catalogue: "kitchen" with "candle" lists nothing. It splits each
  long description at spaces and shows, stretch by stretch, that "candle"
  occurs nowhere.
- **`JsMath`** and **`Wrappers`** hold `Math.min`/`Math.max` on integers and
  an `Option` type (`null`/`undefined`).

Component state (`useState`) becomes a class whose fields the handlers
reassign. Each handler's `ensures` states the whole new state. Derived views
are functions, and their properties are lemmas.

Three constants of the original are data, not operations, so they appear as
Dafny constants rather than in the table below:

- `Catalog.MockProducts` is the twelve-product sample catalogue
  (src/services/productService.ts:4-137). Its ids, labels and the products
  the sample searches touch are stated by `Catalog.MockIdsAreOneToTwelve`,
  `Catalog.MockLabels`, `Catalog.MockYogaMat` and
  `SampleSearches.MockKitchenLacksCandle`.
- `Sidebar.OfferedRatings` is the five rating checkboxes, 5, 4, 3, 2 and 1 stars
  (src/components/FilterSidebar.tsx:82). `Sidebar.ClicksKeepTicksDistinct`
  states what clicking them can tick.
- `Sidebar.InitialPriceRange` is the price range's initial `[0, 1000]`
  (src/components/FilterSidebar.tsx:11). `Sidebar.FilterSidebar.constructor`
  states it.

Representation choices:

- Prices are integer cents and ratings integer tenths. This is exact for the
  sample data.
- A fetch becomes a `FetchResult` parameter: the data, or an error.
- `parseInt`'s outcome becomes an `Option<int>`, with `None` for `NaN`.
- The slider's pointer position is an integer already on the slider's scale.

Where the code does something other than what its description suggests,
the model follows the code:

- The page's category test is `!activeCategory`, so an empty category label
  lets every product through, just like no category. `MatchesCategory` keeps
  that (`EmptyCategoryLabelShowsAll`).
- Toggling a ticked rating twice need not restore the list: the rating
  comes back at the end. For lists without repeats, which every reachable
  sidebar state is (`ClicksKeepTicksDistinct`), only the multiset is
  restored (`ToggleTwiceFromPresent`).
- The slider's min clamp is `Math.min(Math.max(v, min), high - step)`. When
  `high - step < min`, this puts the low handle below `min`. `Clamp` states
  that case (`hi < lo ==> r == hi`). From any well-placed pair it cannot
  arise (`MoveKeepsWellPlaced`).

## Model

| member | source | states |
|---|---|---|
| Catalog.FetchProducts | src/services/productService.ts:140-146 | `fetchProducts` resolves with the sample catalogue unchanged; no contract of its own, its content is stated by the catalogue lemmas below |
| Catalog.FetchProductById | src/services/productService.ts:148-155 | yields nothing exactly when no catalogue product carries the id, and otherwise the first catalogue product carrying it |
| Catalog.FetchProductsByCategory | src/services/productService.ts:157-164 | yields, in catalogue order, exactly the catalogue products with that category |
| Catalog.HasCategory | src/services/productService.ts:159 | the test `p.category === category`; no contract of its own |
| Catalog.Labels | src/pages/ProductsPage.tsx:44 | `products.map(p => p.category)`: one label per product, the label at each position being that product's category |
| Catalog.FindById | src/services/productService.ts:151 | `find` by id yields nothing exactly when no product carries the id; otherwise it yields the first product carrying it, so the found product's id is the one asked for |
| Catalog.InCategory | src/services/productService.ts:160 | the category filter keeps a product exactly when it is in the list and has that category, and keeps catalogue order (a subsequence) |
| Catalog.MockIdsAreOneToTwelve | src/services/productService.ts:4-137 | the catalogue, which `fetchProducts` resolves with unchanged, has twelve products, numbered 1 to 12 in order |
| Catalog.MockIdsDistinct | src/services/productService.ts:4-137 | no two catalogue products share an id |
| Catalog.NumberedIdsDistinct | src/services/productService.ts:151 | products numbered by position never share an id, so `find` by id has at most one candidate |
| Catalog.FindByIdNumbered | src/services/productService.ts:151 | over products numbered 1, 2, … by position, `find` by id k yields the product at position k - 1 when k is in range and nothing otherwise |
| Catalog.FetchProductByIdExact | src/services/productService.ts:148-155 | looking up id 1..12 yields the product at that position of the catalogue; any other id yields nothing |
| Catalog.MockLabels | src/services/productService.ts:4-137 | the catalogue's category labels, in order |
| Catalog.MockYogaMat | src/services/productService.ts:104-106 | the tenth product is the yoga mat, id 10 |
| Catalog.ElectronicsScenario | src/services/productService.ts:157-164 | `fetchProductsByCategory("electronics")` yields products 1, 3, 5, 8 and 11, in that order |
| Catalog.PatternIds | src/services/productService.ts:160 | a category filter over twelve products numbered 1 to 12, of which those at positions 0, 2, 4, 7 and 10 match, yields ids 1, 3, 5, 8, 11, in that order |
| Catalog.MockElectronicsPattern | src/services/productService.ts:4-137 | the catalogue is numbered 1 to 12 by position, and its "electronics" products are exactly those at positions 0, 2, 4, 7 and 10 |
| Sequences.Filter | src/pages/ProductsPage.tsx:35-42 | `Array.prototype.filter` (also used at src/components/FilterSidebar.tsx:16); no contract of its own, its laws are the `Filter…` lemmas below |
| Sequences.Dedup | src/pages/ProductsPage.tsx:44 | `Array.from(new Set(xs))`; no contract of its own, its laws are `DedupDistinctMembers` and `DedupFirstOccurrenceOrder` |
| Sequences.FilterIsSubsequence | src/pages/ProductsPage.tsx:35-42 | `filter` keeps elements in their original order (the result is a subsequence) |
| Sequences.FilterMembership | src/pages/ProductsPage.tsx:35-42 | an element is in a filter's result exactly when it is in the input and passes the test |
| Sequences.FilterAllPass | src/pages/ProductsPage.tsx:35-42 | a filter every element passes returns its input unchanged |
| Sequences.FilterConjunction | src/pages/ProductsPage.tsx:41 | filtering by one test and then another equals filtering once by their conjunction |
| Sequences.FilterAppend | src/components/FilterSidebar.tsx:16 | filtering distributes over concatenation |
| Sequences.FilterCount | src/components/FilterSidebar.tsx:16 | a filter keeps every copy of a passing element and no copy of a failing one |
| Sequences.FilterDistinct | src/components/FilterSidebar.tsx:16 | filtering a list without repeats leaves it without repeats |
| Sequences.DedupDistinctMembers | src/pages/ProductsPage.tsx:44 | `Array.from(new Set(xs))` has no repeats and holds exactly the elements of `xs` |
| Sequences.DedupFirstOccurrenceOrder | src/pages/ProductsPage.tsx:44 | the de-duplicated elements come in the order of their first occurrence in `xs` |
| Listing.ToLower | src/pages/ProductsPage.tsx:38-39 | `toLowerCase` on ASCII letters: same length, every upper-case letter maps to its lower-case letter (code point + 32), every other character is unchanged, so no upper-case letter is left |
| Listing.Includes | src/pages/ProductsPage.tsx:38-39 | `includes`: the query occurs at some position; no contract of its own |
| Listing.MatchesCategory | src/pages/ProductsPage.tsx:36 | passes when the active category is falsy (none, or the empty label) or equals the product's category; no contract of its own |
| Listing.MatchesSearch | src/pages/ProductsPage.tsx:37-39 | an empty query, or the lower-cased query occurring in the lower-cased name or description; no contract of its own |
| Listing.Passes | src/pages/ProductsPage.tsx:35-42 | the callback handed to `products.filter`, the conjunction of the two tests; no contract of its own |
| Listing.ToLowerIdempotent | src/pages/ProductsPage.tsx:38-39 | lower-casing an already lower-cased string changes nothing |
| Listing.SearchIgnoresQueryCase | src/pages/ProductsPage.tsx:37-39 | a query and its lower-cased form select the same products |
| Listing.FilteredProducts | src/pages/ProductsPage.tsx:35-42 | the listed products are a subsequence of the loaded ones; a product is listed exactly when it passes the category test (none, empty, or equal label) and the query is empty or occurs, case-insensitively, in its name or description |
| Listing.Categories | src/pages/ProductsPage.tsx:44 | the pills have no repeats, and a label is a pill exactly when some loaded product carries it |
| Listing.CategoriesInFirstOccurrenceOrder | src/pages/ProductsPage.tsx:44 | the pills come in the order in which their first product appears |
| Listing.NoFilterShowsAll | src/pages/ProductsPage.tsx:36-37 | with no category and an empty query, every loaded product is listed, in order |
| Listing.EmptyCategoryLabelShowsAll | src/pages/ProductsPage.tsx:36 | an empty category label is falsy and filters like no category |
| Listing.CategoryOnlyIsCategoryLookup | src/pages/ProductsPage.tsx:35-42 | with only a category set, the page lists what the service's category filter returns |
| Listing.CategoryThenSearch | src/pages/ProductsPage.tsx:35-42 | the category test and the search compose: applying one after the other equals applying both |
| Listing.SearchThenCategory | src/pages/ProductsPage.tsx:35-42 | the same, in the other order |
| Listing.ElectronicsPill | src/pages/ProductsPage.tsx:35-42 | on the sample catalogue, the "electronics" pill lists products 1, 3, 5, 8 and 11, in order |
| Listing.YogaFindsMat | src/pages/ProductsPage.tsx:37-39 | on the sample catalogue, a search for "yoga" lists the yoga mat |
| Listing.YogaFindsMatIn | src/pages/ProductsPage.tsx:37-39 | the same over any twelve products whose tenth is the yoga mat |
| Listing.SamplePills | src/pages/ProductsPage.tsx:44 | on the sample catalogue the pills read electronics, furniture, clothing, kitchen, accessories, fitness, home |
| Listing.SampleLabelsDedup | src/pages/ProductsPage.tsx:44 | de-duplicating the sample labels one at a time gives those seven |
| Listing.ProductsPage.Shown | src/pages/ProductsPage.tsx:35-42 | the listed products under the page's current state: a subsequence of the loaded products, holding exactly those that pass the category test and the search |
| Listing.ProductsPage.Pills | src/pages/ProductsPage.tsx:44 | the pills under the page's current state: no repeats, and a label is a pill exactly when some loaded product carries it |
| Listing.ProductsPage.constructor | src/pages/ProductsPage.tsx:12-17 | initial state: no products, loading, grid layout, filters hidden, no category, empty query |
| Listing.ProductsPage.LoadProducts | src/pages/ProductsPage.tsx:19-33 | after the load settles the page is not loading, whether the fetch succeeded or failed; products are the fetched data on success and unchanged on failure; nothing else changes |
| Listing.ProductsPage.SetSearchQuery | src/pages/ProductsPage.tsx:70 | replaces the query and nothing else |
| Listing.ProductsPage.ToggleFilters | src/pages/ProductsPage.tsx:78 | flips `showFilters` and nothing else |
| Listing.ProductsPage.SetViewMode | src/pages/ProductsPage.tsx:87-93 | replaces the layout and nothing else |
| Listing.ProductsPage.SetActiveCategory | src/pages/ProductsPage.tsx:120-132 | replaces the active category and nothing else |
| Listing.MountWithFailedFetch | src/pages/ProductsPage.tsx:12-33 | if the fetch fails, nothing is listed under any filters and the loading state is over |
| Listing.MountAndPickElectronics | src/pages/ProductsPage.tsx:35-44 | after loading the sample catalogue and picking "electronics", products 1, 3, 5, 8, 11 are listed, under the seven pills |
| Listing.LacksCharNoHit | src/pages/ProductsPage.tsx:38-39 | a query with a character the text lacks occurs nowhere in the text |
| Listing.SpaceSplitNoHit | src/pages/ProductsPage.tsx:38-39 | a query without a space that occurs in neither of two texts does not occur in them joined by a space |
| Listing.ToLowerAppend | src/pages/ProductsPage.tsx:38-39 | lower-casing distributes over concatenation |
| Listing.LowerLacksLetter | src/pages/ProductsPage.tsx:38-39 | a lower-case letter absent from a text in both cases is absent from its lower-cased form |
| Listing.SplitNoMatch | src/pages/ProductsPage.tsx:37-39 | a query without a space that matches neither part of a text split at a space does not match the text case-insensitively |
| Listing.MissingLetterNoMatch | src/pages/ProductsPage.tsx:37-39 | a query with a letter the text lacks in both cases does not match it case-insensitively |
| SampleSearches.KitchenCandleShowsNothing | src/pages/ProductsPage.tsx:35-42 | on the sample catalogue, the "kitchen" pill with the search "candle" lists no product |
| SampleSearches.KitchenCandleShowsNothingIn | src/pages/ProductsPage.tsx:35-42 | the same over any list numbered and labelled like the catalogue whose kitchen products (6 and 9) do not match "candle" |
| SampleSearches.KitchenCandleExcludesCandleSet | src/pages/ProductsPage.tsx:35-42 | on the sample catalogue, "kitchen" with "candle" lists at most products 6 and 9, so never the candle set (product 12, in "home") |
| SampleSearches.KitchenCandleIn | src/pages/ProductsPage.tsx:35-42 | the same over any list numbered and labelled like the catalogue |
| SampleSearches.MockKitchenLacksCandle | src/services/productService.ts:60-103 | neither kitchen product of the catalogue (the water bottle and the mug set) matches "candle" in name or description |
| SampleSearches.WaterBottleLacksCandle | src/services/productService.ts:60-70 | a product with the water bottle's name and description does not match "candle" |
| SampleSearches.MugSetLacksCandle | src/services/productService.ts:93-103 | a product with the mug set's name and description does not match "candle" |
| JsMath.Least | src/components/ui/Slider.tsx:38 | `Math.min`: the result is at most both arguments and is one of them (also at src/components/ui/Slider.tsx:41) |
| JsMath.Greatest | src/components/ProductListItem.tsx:21 | `Math.max`: the result is at least both arguments and is one of them (also at src/components/ui/Slider.tsx:38, 41) |
| Sidebar.IsNot | src/components/FilterSidebar.tsx:16 | the callback `r => r !== rating`; no contract of its own |
| Sidebar.Toggle | src/components/FilterSidebar.tsx:14-20 | toggling flips the rating's membership and leaves every other rating's membership as it was |
| Sidebar.ToggleAbsentAppends | src/components/FilterSidebar.tsx:18 | ticking an unticked rating appends it at the end and keeps the others in place |
| Sidebar.TogglePresentRemoves | src/components/FilterSidebar.tsx:16 | unticking removes every copy of the rating and keeps every other rating, as often as before and in the same relative order |
| Sidebar.ToggleKeepsDistinct | src/components/FilterSidebar.tsx:14-20 | a list without repeats stays without repeats |
| Sidebar.ToggleTwiceFromAbsent | src/components/FilterSidebar.tsx:14-20 | ticking then unticking a rating restores the list exactly |
| Sidebar.ToggleTwiceFromPresent | src/components/FilterSidebar.tsx:14-20 | unticking then ticking a rating keeps the same ratings (multiset), with that rating moved to the end |
| Sidebar.ClicksKeepTicksDistinct | src/components/FilterSidebar.tsx:12-20 | from the empty list, any run of clicks on the offered checkboxes ticks only offered ratings, none twice |
| Sidebar.FilterSidebar.constructor | src/components/FilterSidebar.tsx:11-12 | initial state: price range [0, 1000], no rating ticked, slider on 0..1000 in steps of 10 |
| Sidebar.FilterSidebar.HandleRatingToggle | src/components/FilterSidebar.tsx:14-20 | the ticked list becomes its toggle and stays without repeats; the price range is untouched |
| Sidebar.FilterSidebar.PressPriceHandle | src/components/FilterSidebar.tsx:65-71 | pressing a handle starts dragging it |
| Sidebar.FilterSidebar.ReleasePriceHandle | src/components/FilterSidebar.tsx:65-71 | releasing ends the drag |
| Sidebar.FilterSidebar.MovePriceHandle | src/components/FilterSidebar.tsx:65-71 | the slider's change, if any, becomes the price range (`onChange={setPriceRange}`), which stays inside [0, 1000] with the handles at least 10 apart |
| RangeSlider.Clamp | src/components/ui/Slider.tsx:37-43 | for a non-empty interval, the clamp is the point of the interval nearest to the pointer; for an empty one it is the upper bound |
| RangeSlider.MoveHandle | src/components/ui/Slider.tsx:30-44 | no change when nothing is dragged or the track is not mounted; dragging the min handle keeps the high value and puts the low one at most `high - step` and, when `min <= high - step`, at least `min`; dragging the max handle keeps the low value and puts the high one at most `max` and, when `low + step <= max`, at least `low + step` |
| RangeSlider.MoveKeepsWellPlaced | src/components/ui/Slider.tsx:37-43 | a move keeps a pair inside the scale, low before high, at least a step apart |
| RangeSlider.MoveFollowsPointer | src/components/ui/Slider.tsx:37-43 | the dragged handle lands on the pointer exactly when the pointer is at an allowed position, and otherwise on the nearest allowed position |
| RangeSlider.Slider.constructor | src/components/ui/Slider.tsx:11-12 | the scale is as given, the step is 1 unless given, and nothing is dragged |
| RangeSlider.Slider.HandleMouseDown | src/components/ui/Slider.tsx:22-24 | pressing a handle makes it the dragged one |
| RangeSlider.Slider.HandleMouseUp | src/components/ui/Slider.tsx:26-28 | releasing clears the dragged handle |
| RangeSlider.Slider.HandleMouseMove | src/components/ui/Slider.tsx:30-44 | the change handed to `onChange` is `MoveHandle` of the current drag |
| RangeSlider.DefaultStep | src/components/ui/Slider.tsx:11 | a slider made without a step moves in steps of 1 |
| ProductRow.Decremented | src/components/ProductListItem.tsx:21 | minus from q > 1 gives q - 1, from 1 (or less) gives 1; never below 1 |
| ProductRow.DecrementUndoesIncrement | src/components/ProductListItem.tsx:20-21 | minus undoes plus on any valid quantity |
| ProductRow.Typed | src/components/ProductListItem.tsx:85-90 | typed input replaces the quantity exactly when it parses to a number above 0; otherwise the quantity is unchanged; a valid quantity stays valid |
| ProductRow.ReplayStaysPositive | src/components/ProductListItem.tsx:20-90 | no run of plus, minus and typed input takes a quantity of at least 1 below 1 |
| ProductRow.IncrementsAdd | src/components/ProductListItem.tsx:20 | n presses of plus add exactly n |
| ProductRow.DecrementsStopAtOne | src/components/ProductListItem.tsx:21 | n presses of minus subtract n, but stop at 1 |
| ProductRow.PlusThenMinusRestores | src/components/ProductListItem.tsx:20-21 | n presses of plus then n of minus restore a valid quantity |
| ProductRow.ProductListItem.constructor | src/components/ProductListItem.tsx:10-11 | initial state: quantity 1, not wishlisted |
| ProductRow.ProductListItem.IncrementQuantity | src/components/ProductListItem.tsx:20 | adds exactly 1; the quantity stays at least 1 |
| ProductRow.ProductListItem.DecrementQuantity | src/components/ProductListItem.tsx:21 | the quantity becomes `Decremented` of the old one and stays at least 1 |
| ProductRow.ProductListItem.ChangeQuantityInput | src/components/ProductListItem.tsx:85-90 | the quantity becomes `Typed` of the old one and the parsed input, and stays at least 1 |
| ProductRow.ProductListItem.ToggleWishlist | src/components/ProductListItem.tsx:108 | flips `isWishlisted`, so two clicks change nothing; the quantity is untouched |

## Left out

- Listing.YogaFindsMat: proves that the "yoga" search lists the yoga mat, not that it lists only the yoga mat. The missing half needs "yoga" to be absent from eleven names and descriptions; `SampleSearches` shows how such an absence is proved (a chain of lemmas over the stretches between spaces), and doing that for eleven products is left out for its size.
- The product image URL is not kept in `Product`: it is only ever rendered, and no operation reads it.
- ProductRow.ProductListItem.IncrementQuantity, ProductRow.IncrementsAdd, ProductRow.DecrementsStopAtOne, ProductRow.PlusThenMinusRestores, ProductRow.Typed: the quantity is an unbounded integer here, but a JavaScript number in the original. Typed input can reach it: a long digit string parses to a value above 2^53 (or to `Infinity`), which `val > 0` accepts. From there `prev + 1` and `Math.max(1, prev - 1)` no longer change the quantity, so "plus adds exactly 1" and the lemmas built on it hold in the original only below 2^53. Floating point is not modelled.
- Listing.ToLower: maps only the ASCII letters `A`–`Z`. Full Unicode lower-casing is not modelled, and the sample data is ASCII.
- Latency: the `setTimeout` delays and the `Promise` wrapping of the three service functions are not modelled. Each fetch is a single value, and a failure is a `FetchFailed` argument.
- Logging: the `console.error` call on a failed load is not modelled.
- Float arithmetic: prices and ratings are floats in the original. They are integer cents and tenths here. The discounted-price arithmetic and `Intl.NumberFormat` currency formatting are rendering only and are not modelled.
- The slider's pointer conversion (`getBoundingClientRect`, the position fraction, `Math.round`) and its percentage layout are not modelled. They are DOM geometry and floating point, so the rounded `newValue` is an input.
- The slider's window listener wiring is not modelled. The drag state decides, as in `handleMouseMove`'s own guard.
- `parseInt`'s prefix parsing is not modelled. Its outcome is an `Option<int>` argument.
- The Sort By menu, the availability checkboxes and the Reset button are not modelled: they have no handlers. `priceRange` and `selectedRatings` never feed the product filter, and the model adds no such filtering.
- Rendering (JSX, the Navbar, Footer and ProductCard components) is not part of this model.
