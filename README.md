# Storefront catalog store, cart and product listing — a Dafny model

This project models the three parts of a React/Redux storefront that are not just layout.

- **The catalog store** (`src/store/slices/productSlice.ts`). It is a Redux Toolkit slice. Its state is a product list, a separately held copy of the selected product, a filter record, and the loading and error flags. It has ten reducers. `updateProduct` and `addReview` write both the list entry and the selected copy. `addReview` recomputes a product's rating as the mean of its review ratings.
- **The cart page** (`src/pages/Cart.tsx`). It holds the cart lines as page state. Two handlers replace that state: one clamps a quantity change at 1, the other removes lines by id. The page derives subtotal, shipping (free strictly above 50, otherwise 5.99), 10% tax and the total from the lines.
- **The product listing page** (`src/pages/Products.tsx`). It filters the products by an optional category and an inclusive price range. It then sorts a copy with a comparator chosen by the sort mode.

Modules:

- `Seqs` (`seqs.dfy`): `Option`, the `filter` of JavaScript arrays as `Filter`, and an order-preserving `IsSubsequence` relation. It also has the lemmas about `Filter` that the other modules use.
- `ProductSlice` (`product_slice.dfy`): the store as the class `ProductStore`, with one field per state part and one method per reducer. Each method states its new state in terms of the old one. Pure functions give the value of each list update. Lemmas cover first-match lookup, the rating mean, and the coherence between the selected copy and the list (`Coherent`).
- `CartPage` (`cart_page.dfy`): the class `Cart`, whose `items` field the two handlers replace. Its invariant is that every quantity is at least 1. The pricing functions and lemmas work on exact `real` money.
- `ProductsPage` (`products_page.dfy`): the filter predicate and the sort, as pure sequence functions. `Array.prototype.sort` is required to be stable (section 22.1.3.27 of ECMA-262, 10th edition). With a consistent comparator, its result is therefore unique. The model computes that result with a stable insertion sort. Lemmas show the result is a permutation, is ordered, is stable, and leaves "featured" in catalog order.

The model follows the code as written, including these choices:

- `addProduct` has no duplicate-id check.
- `addReview` and `updateProduct` on an id absent from the list leave the list unchanged and report no error (there is no `NotFound`). A selected copy with that id is still updated, because the selection write does not depend on the list lookup.
- The cart is a list of lines, not a map keyed by product id. It has no add path and no clear operation.
- The listing page filters with its own `selectedCategory` string (empty means no category) and a two-ended `priceRange`. It does not use the store's nullable `minPrice`/`maxPrice`.
- Each cart line carries its own price, so no catalog lookup happens, and an orphaned line cannot arise.

## Model

| member | source | states |
|---|---|---|
| `Seqs.Filter` | src/store/slices/productSlice.ts:73 | `filter`: every kept element is from the input and passes the test; every passing input element is kept; never longer than the input |
| `Seqs.FilterIsSubsequence` | src/pages/Cart.tsx:56 | what `filter` keeps is an order-preserving subsequence of its input |
| `Seqs.FilterConcat` | src/pages/Products.tsx:62-66 | filtering distributes over concatenation, so earlier input elements stay earlier |
| `Seqs.FilterKeepsAll` | src/store/slices/productSlice.ts:73 | when every element passes, `filter` returns the input unchanged |
| `Seqs.FilterFilter` | src/pages/Products.tsx:63-65 | filtering by one test and then another equals filtering once by their conjunction |
| `ProductSlice.FindIndex` | src/store/slices/productSlice.ts:64 | `findIndex` by id: -1 exactly when no product has the id; otherwise the position holds the id and no earlier position does |
| `ProductSlice.FindIndexSameMatches` | src/store/slices/productSlice.ts:64 | two lists with the id at the same positions give the same first match |
| `ProductSlice.TotalRatingBounds` | src/store/slices/productSlice.ts:95 | with ratings from 1 to 5, the rating sum lies between n and 5n |
| `ProductSlice.AverageInScale` | src/store/slices/productSlice.ts:95-96 | with ratings from 1 to 5, the recomputed mean stays between 1 and 5 |
| `ProductSlice.RunningAverage` | src/store/slices/productSlice.ts:93-96 | recomputing the mean after an append equals the incremental update (old mean × n + new rating) / (n + 1) |
| `ProductSlice.WithReviewAppends` | src/store/slices/productSlice.ts:93-96 | the review is appended last, the count grows by one, the rating is (old sum + new rating) / (n + 1), and no other field changes |
| `ProductSlice.WithReviewsMean` | src/store/slices/productSlice.ts:90-97 | after any non-empty run of reviews, the reviews are the old ones followed by the new ones and the rating is their exact mean |
| `ProductSlice.UpdatedProducts` | src/store/slices/productSlice.ts:63-67 | same length; no match leaves the list unchanged; otherwise only the first matching position is replaced by the payload |
| `ProductSlice.ReviewedProducts` | src/store/slices/productSlice.ts:90-97 | same length; no match leaves the list unchanged; otherwise only the first matching product gets the review and its new mean |
| `ProductSlice.WithoutIdExactly` | src/store/slices/productSlice.ts:72-73 | after deletion no product has the id, every other product is still there in its relative order, and deleting an absent id changes nothing |
| `ProductSlice.WithoutIdKeepsFirstMatch` | src/store/slices/productSlice.ts:73 | deleting one id does not change whether another id is found, or which product it finds first |
| `ProductSlice.UpdateKeepsCoherent` | src/store/slices/productSlice.ts:63-71 | if the selected copy agreed with its list entry, it still agrees after `updateProduct` |
| `ProductSlice.ReviewKeepsCoherent` | src/store/slices/productSlice.ts:90-102 | if the selected copy agreed with its list entry, it still agrees after `addReview` |
| `ProductSlice.DeleteKeepsCoherent` | src/store/slices/productSlice.ts:72-77 | if the selected copy agreed with its list entry, it still agrees after `deleteProduct` |
| `ProductSlice.AppendKeepsCoherent` | src/store/slices/productSlice.ts:60-62 | appending keeps agreement unless a different product is appended under the selected id while that id is not yet listed |
| `ProductSlice.ReviewMirrorsAgree` | src/store/slices/productSlice.ts:90-102 | if the selected copy and its list entry had equal reviews, one `addReview` for that id leaves both with the same reviews (the old ones plus the new one) and the same rating |
| `ProductSlice.TotalRating` | src/store/slices/productSlice.ts:95 | the `reduce` from 0 of the review ratings; bounded by `TotalRatingBounds` |
| `ProductSlice.AverageRating` | src/store/slices/productSlice.ts:96 | the rating sum over the review count; kept in scale by `AverageInScale` |
| `ProductSlice.WithReview` | src/store/slices/productSlice.ts:93-96 | push the review, then recompute the rating; stated by `WithReviewAppends`, `RunningAverage` and `WithReviewsMean` |
| `ProductSlice.WithoutId` | src/store/slices/productSlice.ts:73 | the list without the id, via `Filter`; stated by `WithoutIdExactly` and `WithoutIdKeepsFirstMatch` |
| `ProductSlice.SelectionAfterUpdate` | src/store/slices/productSlice.ts:68-70 | the payload when the selection has its id, else the selection; used by `UpdateProduct` and `UpdateKeepsCoherent` |
| `ProductSlice.SelectionAfterDelete` | src/store/slices/productSlice.ts:74-76 | null when the selection has the id, else the selection; used by `DeleteProduct` and `DeleteKeepsCoherent` |
| `ProductSlice.SelectionAfterReview` | src/store/slices/productSlice.ts:98-102 | the selection with the review pushed and the rating recomputed when it has the id, else unchanged; used by `AddReview` and `ReviewKeepsCoherent` |
| `ProductSlice.MergeFilters` | src/store/slices/productSlice.ts:85 | `{ ...filters, ...patch }` field by field; stated by `MergeFiltersFields` |
| `ProductSlice.MergeFiltersFields` | src/store/slices/productSlice.ts:84-86 | supplied filter fields override, absent ones keep their values; merging the same patch twice equals merging it once; the empty patch changes nothing |
| `ProductSlice.ProductStore.constructor` | src/store/slices/productSlice.ts:37-48 | initial state: no products, no selection, not loading, no error, filters `{null, null, null, 'featured'}` |
| `ProductSlice.ProductStore.SetProducts` | src/store/slices/productSlice.ts:54-56 | replaces the list; nothing else changes |
| `ProductSlice.ProductStore.SetSelectedProduct` | src/store/slices/productSlice.ts:57-59 | replaces the selection; nothing else changes |
| `ProductSlice.ProductStore.AddProduct` | src/store/slices/productSlice.ts:60-62 | the list becomes the old list plus the product (length + 1, no duplicate check); nothing else changes |
| `ProductSlice.ProductStore.UpdateProduct` | src/store/slices/productSlice.ts:63-71 | replaces the first match at its index, or leaves the list unchanged; replaces the selection exactly when its id is the payload's, listed or not; flags and filters unchanged; keeps the mirror coherent |
| `ProductSlice.ProductStore.DeleteProduct` | src/store/slices/productSlice.ts:72-77 | filters out the id while keeping the survivors in order; clears the selection exactly when its id matches; keeps the mirror coherent |
| `ProductSlice.ProductStore.SetLoading` | src/store/slices/productSlice.ts:78-80 | sets only the loading flag |
| `ProductSlice.ProductStore.SetError` | src/store/slices/productSlice.ts:81-83 | sets only the error field |
| `ProductSlice.ProductStore.SetFilters` | src/store/slices/productSlice.ts:84-86 | filters become the old filters merged with the patch; nothing else changes |
| `ProductSlice.ProductStore.ClearFilters` | src/store/slices/productSlice.ts:87-89 | filters become `{null, null, null, 'featured'}`; nothing else changes |
| `ProductSlice.ProductStore.AddReview` | src/store/slices/productSlice.ts:90-103 | the first matching product gets the review appended and its rating set to the new mean, or the list is unchanged; the selected copy gets the same update exactly when its id matches; keeps the mirror coherent |
| `CartPage.ChangeQuantity` | src/pages/Cart.tsx:49 | `Math.max(1, quantity + change)`: the new quantity equals quantity + change when that is at least 1 and is exactly 1 otherwise, so it is never below 1; no other field changes |
| `CartPage.ClampExamples` | src/pages/Cart.tsx:49 | on a line of one unit, -1 and -100 both leave one unit and +1 gives two |
| `CartPage.QuantityChanged` | src/pages/Cart.tsx:46-51 | same length; each line with the id gets the clamped quantity; every other line is unchanged |
| `CartPage.QuantityChangeKeepsLines` | src/pages/Cart.tsx:45-53 | a quantity change keeps length, ids and prices, and leaves every matched line with at least one unit |
| `CartPage.QuantityChangeAbsentId` | src/pages/Cart.tsx:46-51 | an id no line has changes nothing (there is no add path) |
| `CartPage.QuantityChangeKeepsPositive` | src/pages/Cart.tsx:45-53 | if all quantities are at least 1 before a change, they are all at least 1 after it |
| `CartPage.RemoveItemExactly` | src/pages/Cart.tsx:55-57 | removal drops exactly the lines with the id, keeps the rest in order, and an absent id changes nothing |
| `CartPage.RemoveItemKeepsPositive` | src/pages/Cart.tsx:55-57 | removal keeps all quantities at least 1 |
| `CartPage.InitialItems` | src/pages/Cart.tsx:24-39 | the two mock lines (99.99 × 2 and 149.99 × 1); their totals are stated by `InitialCartSummary` |
| `CartPage.ItemsWithout` | src/pages/Cart.tsx:56 | the lines without the id, via `Filter`; what it keeps is stated by `RemoveItemExactly` and `RemoveItemSubtotal` |
| `CartPage.Subtotal` | src/pages/Cart.tsx:59 | the left-to-right `reduce` from 0 of price × quantity; its laws are `SubtotalConcat`, `SubtotalCons`, `SubtotalNonNegative` and `RemoveItemSubtotal` |
| `CartPage.Shipping` | src/pages/Cart.tsx:60 | 0 strictly above 50, else 5.99; stated as an iff by `PricingRules` |
| `CartPage.Tax` | src/pages/Cart.tsx:61 | 10% of the subtotal; stated by `PricingRules` |
| `CartPage.Total` | src/pages/Cart.tsx:62 | subtotal + shipping + tax; stated by `PricingRules` and bounded by `TotalFloor` |
| `CartPage.SubtotalConcat` | src/pages/Cart.tsx:59 | the subtotal of two lists in sequence is the sum of their subtotals |
| `CartPage.SubtotalCons` | src/pages/Cart.tsx:59 | the left-to-right `reduce` equals the first line's total plus the subtotal of the rest |
| `CartPage.RemoveItemSubtotal` | src/pages/Cart.tsx:55-59 | removing an id lowers the subtotal by exactly the total of that id's lines |
| `CartPage.SubtotalNonNegative` | src/pages/Cart.tsx:59 | with non-negative prices and quantities, the subtotal is non-negative |
| `CartPage.PricingRules` | src/pages/Cart.tsx:60-62 | shipping is 0 exactly when subtotal > 50 (strict), otherwise 5.99; tax is 10% and total = 1.1 × subtotal + shipping |
| `CartPage.TotalFloor` | src/pages/Cart.tsx:59-62 | with non-negative prices and quantities the total is never below 5.99; the total drops as the subtotal crosses 50 (50 totals more than 50.01) |
| `CartPage.InitialCartSummary` | src/pages/Cart.tsx:24-62 | for the initial lines: subtotal 349.97, shipping 0, tax 34.997, total 384.967 |
| `CartPage.EmptyCartSummary` | src/pages/Cart.tsx:59-62 | an empty cart: subtotal 0, shipping 5.99, tax 0, total 5.99 |
| `CartPage.Cart.constructor` | src/pages/Cart.tsx:24-43 | the page starts with the two initial lines, all quantities at least 1 |
| `CartPage.Cart.HandleQuantityChange` | src/pages/Cart.tsx:45-53 | lines become the clamped map of the old lines; matched lines hold at least 1 unit; the positive-quantity invariant is kept |
| `CartPage.Cart.HandleRemoveItem` | src/pages/Cart.tsx:55-57 | lines become the old lines without the id, as an order-preserving subsequence; the invariant is kept |
| `ProductsPage.FilteredProducts` | src/pages/Products.tsx:62-66 | `filter` by the category-and-price predicate; stated by `FilteredExactly`, `FilteredKeepsOrder` and `FilterOrderIrrelevant` |
| `ProductsPage.FilteredExactly` | src/pages/Products.tsx:62-66 | every shown product has the chosen category (or none is chosen) and a price within both inclusive bounds; every product that passes is shown |
| `ProductsPage.FilteredKeepsOrder` | src/pages/Products.tsx:62-66 | the filtered list is an order-preserving subsequence of the catalog |
| `ProductsPage.FilterOrderIrrelevant` | src/pages/Products.tsx:63-65 | category then price, price then category, and the combined predicate give the same list |
| `ProductsPage.LexCompare` | src/pages/Products.tsx:74-77 | the string comparison returns -1, 0 or 1 |
| `ProductsPage.LexAntisymmetric` | src/pages/Products.tsx:74-77 | swapping the strings negates the comparison |
| `ProductsPage.LexZeroIffEqual` | src/pages/Products.tsx:74-77 | the comparison is 0 exactly when the strings are equal |
| `ProductsPage.LexTransitive` | src/pages/Products.tsx:74-77 | "sorts no later than" is transitive |
| `ProductsPage.Compare` | src/pages/Products.tsx:68-81 | the comparator chosen by the sort mode, 0 for `featured` and any other mode; stated by `CompareConsistent` |
| `ProductsPage.CompareConsistent` | src/pages/Products.tsx:68-81 | every sort mode's comparator is antisymmetric and transitive, and returns 0 exactly on equal keys |
| `ProductsPage.Insert` | src/pages/Products.tsx:68 | inserting one product adds exactly one element |
| `ProductsPage.SortProducts` | src/pages/Products.tsx:68 | sorting preserves length |
| `ProductsPage.InsertPermutes` | src/pages/Products.tsx:68 | inserting adds exactly the new product to the multiset |
| `ProductsPage.SortPermutes` | src/pages/Products.tsx:68 | the sorted list is a permutation of the filtered list; as a value it is a new list, so neither the catalog nor the filtered list changes |
| `ProductsPage.InsertSorted` | src/pages/Products.tsx:68-81 | inserting into a list ordered by the comparator keeps it ordered |
| `ProductsPage.SortSorted` | src/pages/Products.tsx:68-81 | the sorted list is ordered by the comparator |
| `ProductsPage.PriceModesOrdered` | src/pages/Products.tsx:70-73 | `price-asc` gives non-decreasing prices; `price-desc` gives non-increasing prices |
| `ProductsPage.NameModesOrdered` | src/pages/Products.tsx:74-77 | `name-asc` orders names ascending and `name-desc` descending by the string comparison |
| `ProductsPage.UnrecognisedModeKeepsOrder` | src/pages/Products.tsx:78-79 | with `featured` or any unrecognised mode, the output equals the filtered order |
| `ProductsPage.InsertTies` | src/pages/Products.tsx:68-81 | an inserted product comes before every tying product already present |
| `ProductsPage.SortStable` | src/pages/Products.tsx:68-81 | stability: products that tie on the sort key keep their relative filtered order |
| `ProductsPage.VisibleProducts` | src/pages/Products.tsx:62-81 | the filtered list sorted on a copy; stated by `VisibleProductsCorrect` and `SortStable` |
| `ProductsPage.VisibleProductsCorrect` | src/pages/Products.tsx:62-81 | the shown list is a permutation of the filtered list, ordered by the comparator, and holds exactly the matching catalog products |
| `ProductsPage.SampleView` | src/pages/Products.tsx:21-81 | mock catalog, default range: `featured` shows both products in catalog order; "Clothing" shows only the second; `price-desc` reverses them |

## Left out

- Redux Toolkit and Immer: `createSlice`, drafts, frozen state and structural sharing are not modelled. Each reducer is a method that changes the store's fields. The selected product is a value copy, independent of the list entry.
- React state: `useState` and `useSearchParams` are not modelled. The cart's state is the field `Cart.items`. The listing page's category, price range and sort mode are parameters.
- Floating point: money and computed ratings are exact `real`. The model does not reproduce IEEE-754 rounding in the subtotal `reduce` (src/pages/Cart.tsx:59) or in the mean (src/store/slices/productSlice.ts:95-96). `toFixed(2)` display formatting is out of scope.
- Review ratings: `Review.rating` is an `int`, narrower than the source's `number`. The mock reviews (src/pages/ProductDetail.tsx:31,37) and the 1-to-5 star scale use whole ratings; the mean computed from them is a `real`.
- AverageRating: it requires a non-empty review list. The source divides only after a push, so 0/0 (NaN) never arises there. A product with no reviews keeps whatever rating its payload carried; the store never computes one.
- NameModesOrdered: `localeCompare` depends on the locale. The name modes use `LexCompare`, a code-point lexicographic order, so this ordering is weaker than a claim of locale fidelity.
- SortProducts: it gives the result that a stable `Array.prototype.sort` must produce. It does not model the in-place sort of the spread copy. That copy is fresh, so nobody else can observe the in-place steps.
- AppendKeepsCoherent: `addProduct` has no duplicate-id check. It can therefore desynchronise the mirror when a different product is appended under a selected id that is not yet listed. The lemma and `AddProduct`'s coherence clause assume that case away.
- `setProducts` and `setSelectedProduct` do not keep the mirror coherent in general. The model states what they set and nothing more.
- Partial filter patches: a key that is present but `undefined` is not modelled. A patch field is either absent (`None`) or carries a value.
- Duplicate-id and not-found error results, a cart keyed by product id, an add-or-increment command and a clear command: the source has none of these, so the model has none.
- Presentation files are not part of this model: `src/pages/Profile.tsx`, `src/pages/admin/Dashboard.tsx`, `src/pages/Home.tsx`, `src/pages/Login.tsx`, `src/components/Layout.tsx`. They hold layout, routing, mock data and `console.log` stand-ins.
- The Formik/yup validation schemas and the `setTimeout` submit simulation are library declarations and timing stand-ins, with no logic to model.
- `src/pages/ProductDetail.tsx` is not part of this model. Its only logic is a `parseInt` quantity guard; the cart clamp covers the same floor.
