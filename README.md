# Onna accessories storefront — a verified model of its core logic

This project models the logic of a React/TypeScript jewellery storefront in
Dafny and proves properties of it. The storefront has a cart with
Buy-X-Get-Y promotions, catalogue pages, necklace and bag-charm
customizers, and an image pipeline that finds a necklace's curve in a
photo and places charms along it.

What the model covers:

- **Charm placement** (`CharmPlacement`): one rule per charm count, for 0, 1, 2 and three or more charms. Each rule picks a curve index, which is clamped; the scale is clamped too.
- **Necklace curve detection** (`NecklaceCurveDetection`, `Curves`):
  - a central-difference edge detector over an RGBA byte buffer, with its threshold moved to integers;
  - the x-sort and the fixed-step resampling;
  - tangent angles that are 0 at both ends;
  - the 21-point fallback curve;
  - the choice between a detected curve and the fallback.
- **Advanced curve detection** (`AdvancedCurveDetection`):
  - the first contour of strictly largest perimeter;
  - the 100-pixel threshold;
  - the confidence `min(len / 2w, 1)`;
  - the fallback result.
- **The cart** (`Cart`):
  - merging a repeated line on add, remove and quantity update;
  - totals and counts in which bonus lines cost nothing;
  - the Buy-X-Get-Y recomputation. It is idempotent and keeps the total.
- **The catalogue pages** (`Listing`, `Shop`, `CategoryPage`, `HotDeals`, `ProductFilter`):
  - the filter predicate and the stable price sort;
  - merging a filter update into the current filters;
  - the route category is always kept, and sale-only is always forced;
  - the filter panel's toggles, reset, and unique category and tag lists.
- **The charm customizers** (`Charms`, `CharmCustomizer`, `DragDropCustomizer`, `SimpleNecklace`, `BagCharm`, `SelectionPanel`):
  - compatibility with the base, and the per-category and overall limits;
  - the preview object, which always names the last charm selected in each category;
  - prices, and the panel of selected charms.
- **Small selectors and state machines**:
  - featured and related products;
  - search;
  - the active promotion and the price on a product card;
  - previous and next product navigation;
  - the hero slider's modular index;
  - the city/zone/district picker;
  - promo-code validation;
  - the checkout summary;
  - the API-to-model transforms.

How the source's forms are modelled:

- State that a component or context updates in place becomes a `class` with `modifies` clauses. Examples are the cart, the customizers, the pages' filters, the slider, the search state and the location picker.
- A loop the source runs is a `method` with invariants, proved equal to a specification function.
  - Loops that push into an array: edge detection, sampling, charm placement, the promotion recomputation, the contour scan, grouping by category and collecting tags.
  - Loops that accumulate a total: the charm customizer's `getTotalPrice`.
- Pure map/filter/find code is written as functions, and lemmas about them.
- `Wrappers`, `Seqs`, `Sorting`, `Arith`, `Text` and `Geometry` are support modules.
  - `Sorting` holds a stable insertion sort, which models the engine's stable `Array.prototype.sort`.
  - `Text` holds `toLowerCase` on ASCII letters, `trim` over the ECMAScript white space and line terminators, and `includes`.

Foreign calls and outside inputs become parameters:

- the trig functions (`atan2`, `cos`) are a `Trig` value of functions;
- OpenCV's contours are a list of point lists with given perimeters;
- `Math.random` draws are a list of reals in [0, 1);
- `Date.now()` and `new Date()` are an integer time `now`;
- `parseInt` and `parseFloat` are functions that return `None` in place of `NaN`;
- the image load and the pixel read are an outcome value.

## Model

| member | source | states |
|---|---|---|
| CharmPlacement.CenterIndex | src/hooks/useCharmPlacement.ts:28-31 | the single-charm index `floor(K/2)` lies on the curve and is the middle one: at most one step nearer the end than the start |
| CharmPlacement.ThirdIndex | src/hooks/useCharmPlacement.ts:38-41 | the two-charm indices are `floor(K/3)` and `floor(2K/3)` (stated as the quotient bounds) and lie on the curve |
| CharmPlacement.SpreadIndex | src/hooks/useCharmPlacement.ts:55-62 | from three charms on, the clamped index lies on the curve and never before `startOffset = floor(K/10)` |
| CharmPlacement.PlacementIndex | src/hooks/useCharmPlacement.ts:28-62 | the curve index chosen for charm i of n, whichever branch applies, is in `[0, K)` |
| CharmPlacement.PlaceCharms | src/hooks/useCharmPlacement.ts:21-81 | the memo body (its three branches and the push loop) returns exactly the placements of the specification `Placements` |
| CharmPlacement.SpreadPositions | src/hooks/useCharmPlacement.ts:52-78 | the loop for three or more charms pushes one clamped, jittered position per charm, in order, equal to `Placements` |
| CharmPlacement.PlacementsCount | src/hooks/useCharmPlacement.ts:22-78 | an empty curve or a count of 0 (or, for the loop, below 0) gives `[]`; otherwise exactly `charmCount` placements |
| CharmPlacement.PlacementsOnCurve | src/hooks/useCharmPlacement.ts:32-73 | every placement of charm i copies x and y of the curve point at `PlacementIndex(K, n, i)` and turns its angle into degrees, `angle * 180 / PI` |
| CharmPlacement.JitteredScaleBounds | src/hooks/useCharmPlacement.ts:67-75 | for a draw in [0, 1) the jittered scale is `1 + (r - 0.5) * 0.1`, inside [0.95, 1.05), so the clamp to [0.8, 1.2] never changes it |
| CharmPlacement.PlacementsScale | src/hooks/useCharmPlacement.ts:36-75 | every scale lies in [0.8, 1.2], and one or two charms get exactly 1.0 |
| CharmPlacement.SpreadIndexMonotone | src/hooks/useCharmPlacement.ts:55-62 | the indices for three or more charms are non-decreasing in i, start at `startOffset` and end at `K - endOffset`, clamped to `K - 1` |
| CharmPlacement.ShareMonotone | src/hooks/useCharmPlacement.ts:60-61 | `floor(i * usable / (n - 1))` grows with i |
| CharmPlacement.ShareEnds | src/hooks/useCharmPlacement.ts:60-61 | the first charm gets no share of the usable length and the last charm gets all of it |
| CharmPlacement.ThirdsOrdered | src/hooks/useCharmPlacement.ts:40-41 | the first two-charm index is never after the second |
| CharmPlacement.PlacementsLeftToRight | src/hooks/useCharmPlacement.ts:28-78 | on a curve sorted by x, the placements come out sorted by x, whatever the count |
| NecklaceCurveDetection.PixelInRange | src/hooks/useNecklaceCurveDetection.ts:111-133 | the RGBA offset `(y * width + x) * 4` of an in-image pixel and the three bytes after it lie inside the buffer |
| NecklaceCurveDetection.ColourSum | src/hooks/useNecklaceCurveDetection.ts:132-135 | the sum of the three colour bytes that `getGrayscale` divides by 3 lies in [0, 765] |
| NecklaceCurveDetection.IsEdgeInIntegers | src/hooks/useNecklaceCurveDetection.ts:117-135 | a pixel is an edge (`sqrt(gx^2 + gy^2) > 30` on grey levels) exactly when the integer colour-sum differences satisfy `dx^2 + dy^2 > 8100` |
| NecklaceCurveDetection.ThirdSquared | src/hooks/useNecklaceCurveDetection.ts:117-120 | squaring a grey-level difference `d / 3` gives `d^2 / 9`, which moves the threshold to integers |
| NecklaceCurveDetection.DetectEdges | src/hooks/useNecklaceCurveDetection.ts:102-130 | the two nested loops of `detectEdges` return exactly the specification `Edges` of the image |
| NecklaceCurveDetection.ScanRow | src/hooks/useNecklaceCurveDetection.ts:110-126 | the inner loop appends the edge pixels of row y, left to right, to what was found before |
| NecklaceCurveDetection.RowEdgesMembership | src/hooks/useNecklaceCurveDetection.ts:110-126 | a point is found in a row scan exactly when it lies on that row, in the interior columns scanned so far, and is an edge |
| NecklaceCurveDetection.EdgesBeforeMembership | src/hooks/useNecklaceCurveDetection.ts:109-127 | a point is found in the rows scanned so far exactly when it is an interior edge pixel of one of them |
| NecklaceCurveDetection.EdgesMembership | src/hooks/useNecklaceCurveDetection.ts:109-127 | a point is an edge point exactly when `1 <= x <= w-2`, `1 <= y <= h-2` and the pixel is an edge |
| NecklaceCurveDetection.StrictlyRowMajorAppend | src/hooks/useNecklaceCurveDetection.ts:109-110 | two row-major lists, the second wholly after the first, join into a row-major list |
| NecklaceCurveDetection.RowEdgesRowMajor | src/hooks/useNecklaceCurveDetection.ts:110-126 | one row's edge points come out strictly left to right |
| NecklaceCurveDetection.EdgesBeforeRowMajor | src/hooks/useNecklaceCurveDetection.ts:109-127 | the edge points of the rows scanned so far are in strict row-major order |
| NecklaceCurveDetection.EdgesRowMajor | src/hooks/useNecklaceCurveDetection.ts:109-127 | all edge points are in strict row-major order and so contain no duplicates |
| NecklaceCurveDetection.ExtractNecklaceCurve | src/hooks/useNecklaceCurveDetection.ts:138-155 | `extractNecklaceCurve` returns the x-sorted edge points sampled with step `max(1, floor(n/20))` |
| NecklaceCurveDetection.ExtractedCurveShape | src/hooks/useNecklaceCurveDetection.ts:139-152 | the curve is empty exactly for no edge points, has `ceil(n / step)` points (all n when n < 40), has non-decreasing x, and every point comes from an edge point |
| NecklaceCurveDetection.ExtractedPointsAreInput | src/hooks/useNecklaceCurveDetection.ts:143-151 | every curve point has the coordinates of one of the edge points |
| NecklaceCurveDetection.FallbackResult | src/hooks/useNecklaceCurveDetection.ts:53-90 | the fallback result holds the 21-point fallback curve, its first and last points, and success |
| NecklaceCurveDetection.DetectNecklaceCurve | src/hooks/useNecklaceCurveDetection.ts:31-91 | `detectNecklaceCurve`'s choice of result, over the load outcome as an input, equals the specification `Detection` |
| NecklaceCurveDetection.DetectionOutcome | src/hooks/useNecklaceCurveDetection.ts:40-68 | success is false exactly when no image data could be read, and then the curve is empty with both ends at the origin; otherwise the curve has at least 3 points and the ends are its first and last |
| NecklaceCurveDetection.DetectionFallback | src/hooks/useNecklaceCurveDetection.ts:51-91 | a failed load gives the 400 x 400 fallback, a thrown read the canvas-sized fallback, fewer than 3 sampled points the fallback, and otherwise the sampled curve; the fallback has 21 points for every image size |
| Curves.SortByXIsSortedPermutation | src/hooks/useNecklaceCurveDetection.ts:143 | the x-sort is ordered by x and is a permutation of its input |
| Curves.SampledFromShape | src/hooks/useNecklaceCurveDetection.ts:148-152 | the loop from index `from` with a fixed step pushes `ceil((n - from) / step)` points, point k being the sorted point at `from + k * step` |
| Curves.SampledCount | src/hooks/useNecklaceCurveDetection.ts:147-152 | the curve has `ceil(n / step)` points and is empty exactly when the input is |
| Curves.SampledPoint | src/hooks/useNecklaceCurveDetection.ts:148-151 | curve point k is the sorted point at index `k * step`, with its angle |
| Curves.SampledAngles | src/hooks/useNecklaceCurveDetection.ts:150-164 | a curve point's angle is 0 when its sorted index is the first or the last one, and otherwise `atan2` of the difference between its two neighbours |
| Curves.SampledXNondecreasing | src/hooks/useNecklaceCurveDetection.ts:143-151 | sampling an x-sorted list gives non-decreasing x |
| Curves.SampleSorted | src/hooks/useNecklaceCurveDetection.ts:144-154 | the stepped push loop returns exactly the specification `Sampled` |
| Curves.SampledCountBounds | src/hooks/useNecklaceCurveDetection.ts:147-152 | fewer than 40 points are all kept; from 20 points on, the curve has between 20 and 39 points |
| Curves.GenerateFallbackCurve | src/hooks/useNecklaceCurveDetection.ts:167-190 | the fallback loop pushes exactly 21 points, point i being the U-shape at `t = i / 20` |
| Curves.ScaledCos | src/hooks/useNecklaceCurveDetection.ts:177-178 | a cosine in [-1, 1] scaled by r >= 0 stays within [-r, r] |
| Curves.FallbackXBound | src/hooks/useNecklaceCurveDetection.ts:169-177 | the fallback x lies in [0.2 w, 0.8 w], reaching 0.8 w at cos = 1 and 0.2 w at cos = -1 |
| Curves.FallbackYBound | src/hooks/useNecklaceCurveDetection.ts:170-178 | the fallback y lies in [0.3 h, 0.8 h], reaching 0.3 h at cos = 1 and 0.8 h at cos = -1 |
| Curves.FallbackPointInBox | src/hooks/useNecklaceCurveDetection.ts:175-186 | every fallback point lies in the box [0.2 w, 0.8 w] x [0.3 h, 0.8 h] |
| Curves.FallbackGeometry | src/hooks/useNecklaceCurveDetection.ts:167-190 | the whole fallback curve lies in that box, starts at (0.8 w, 0.3 h) and ends at (0.2 w, 0.8 h) |
| AdvancedCurveDetection.LongestContour | src/hooks/useAdvancedCurveDetection.ts:68-79 | the contour loop ends with the index and perimeter of the specification `Longest` |
| AdvancedCurveDetection.LongestAmongIsFirstMaximum | src/hooks/useAdvancedCurveDetection.ts:68-79 | after n rounds the index is -1 (length 0) exactly when no perimeter so far is positive; otherwise it is the first contour whose perimeter is the largest, and that perimeter is the length |
| AdvancedCurveDetection.LongestIsFirstMaximum | src/hooks/useAdvancedCurveDetection.ts:68-79 | over all contours: -1 exactly when no perimeter is positive, otherwise the first contour of strictly maximum perimeter |
| AdvancedCurveDetection.ConfidenceBounds | src/hooks/useAdvancedCurveDetection.ts:92 | `min(len / (2 w), 1)` for a positive length lies in (0, 1] and is 1 exactly when the length reaches twice the width |
| AdvancedCurveDetection.ContourPoints | src/hooks/useAdvancedCurveDetection.ts:136-140 | one point per contour row, point i being `(data[2i], data[2i+1])` |
| AdvancedCurveDetection.ClampedTangentAngleAgrees | src/hooks/useAdvancedCurveDetection.ts:156-163 | the clamped neighbour indices of `calculateTangentAngle` never bite: it agrees with `calculateAngle` and is 0 at the first and last index |
| AdvancedCurveDetection.ExtractCurveFromContour | src/hooks/useAdvancedCurveDetection.ts:132-154 | the curve is the contour's points sorted by x and sampled with step `max(1, floor(n/20))` |
| AdvancedCurveDetection.SampleSorted | src/hooks/useAdvancedCurveDetection.ts:146-151 | the stepped push loop returns exactly the specification `Sampled` |
| AdvancedCurveDetection.GenerateFallbackResult | src/hooks/useAdvancedCurveDetection.ts:165-194 | the fallback result has 21 points, starts and ends at its first and last point, succeeds and is rated 0.8 |
| AdvancedCurveDetection.DetectNecklaceCurve | src/hooks/useAdvancedCurveDetection.ts:33-122 | the choice of result, over the load outcome and the contours as inputs, equals the specification `Detection` |
| AdvancedCurveDetection.DetectionOutcome | src/hooks/useAdvancedCurveDetection.ts:42-121 | every result succeeds, with a confidence in (0, 1] and ends taken from the curve; the fallback is used exactly when no contour was picked or its perimeter is below 100, and otherwise the curve comes from the longest contour with confidence `min(len / 2w, 1)`; a failed load or read gives the fallback |
| Cart.AddToCart | src/context/CartContext.tsx:95-127 | the product then has a paid line; the line count stays when it already had one and grows by one otherwise; every old line keeps its product and bonus flag |
| Cart.RemoveFromCart | src/context/CartContext.tsx:150 | every remaining line is an old line of another product, and every old line of another product remains |
| Cart.UpdateQuantity | src/context/CartContext.tsx:168-188 | a quantity below 1 leaves no line of that product; otherwise the line count stays and every line of that product has exactly the new quantity |
| Cart.CartTotal | src/context/CartContext.tsx:190-196 | a cart of bonus lines only costs 0, and with no negative line cost the total is not negative |
| Cart.CartCount | src/context/CartContext.tsx:198-200 | with every quantity at least 1, the unit count is at least the number of lines |
| Cart.Promoted | src/context/CartContext.tsx:46-92 | every paid line is kept, and every line after the paid ones is a bonus line of at least one unit |
| Cart.CartCountAppend | src/context/CartContext.tsx:198-200 | the unit count of two lists put together is the sum of their counts, bonus lines included |
| Cart.CartTotalAppend | src/context/CartContext.tsx:190-196 | the total of two lists put together is the sum of their totals |
| Cart.CartTotalSkipsBonus | src/context/CartContext.tsx:190-196 | the total equals the total of the paid lines alone: bonus lines never cost anything |
| Cart.AddToCartEffect | src/context/CartContext.tsx:95-127 | when a paid line with the same id, variant and charms exists, every such line gains exactly one unit and nothing else changes, not even the length; otherwise one fresh paid line of quantity 1 is appended after the untouched old lines |
| Cart.CountOfMatchingIncrement | src/context/CartContext.tsx:112-119 | with distinct paid lines, raising the matching line by one raises the unit count by exactly one |
| Cart.AddToCartCount | src/context/CartContext.tsx:95-200 | adding a product raises the unit count by exactly one and keeps the paid lines distinct |
| Cart.RemoveFromCartEffect | src/context/CartContext.tsx:150 | no line with that id is left, every other line is kept, and the result is an order-preserving subsequence |
| Cart.UpdateQuantityEffect | src/context/CartContext.tsx:168-188 | a quantity below 1 removes the product; otherwise every line with that id gets exactly that quantity and nothing else changes |
| Cart.FloorDivBounds | src/context/CartContext.tsx:64 | the model of `Math.floor(q / X)` is the floor of the exact quotient for either sign of X |
| Cart.LineBonusesStep | src/context/CartContext.tsx:57-81 | one more promotion adds the bonus line it yields when it qualifies and nothing otherwise |
| Cart.ApplyBuyXGetYPromotions | src/context/CartContext.tsx:46-92 | the recomputation returns the specification `Promoted` (paid lines in order, then one bonus line per qualifying promotion of each paid line), and the toast flag is raised exactly when a bonus line was added |
| Cart.PushLineBonuses | src/context/CartContext.tsx:56-82 | the inner loop over one line's promotions appends exactly that line's bonus lines, in promotion order, and raises the flag exactly when it appended one |
| Cart.PushPromotionBonus | src/context/CartContext.tsx:57-80 | one pass of the inner loop appends the promotion's bonus line when it qualifies and raises the flag with it |
| Cart.PromotionBonus | src/context/CartContext.tsx:58-79 | a promotion yields a line exactly when it is unexpired, X and Y parse, the quantity reaches X and `floor(q/X) * Y > 0`; the line is the product under id + 10000, at price 0, with quantity `floor(q/X) * Y`, marked as a bonus |
| Cart.LineBonusesAreBonus | src/context/CartContext.tsx:67-73 | every bonus line pushed for a cart line is a bonus line with at least one unit |
| Cart.BonusesAreBonus | src/context/CartContext.tsx:55-83 | every line the recomputation pushes is a bonus line with at least one unit |
| Cart.PromotedShape | src/context/CartContext.tsx:52-83 | the recomputed cart starts with the paid lines in their order, everything after them is a bonus line of positive quantity, and its paid lines are exactly the old ones |
| Cart.PromotedKeepsPaid | src/context/CartContext.tsx:52 | filtering out bonus lines from paid lines followed by bonus lines gives back the paid lines |
| Cart.PromotedIdempotent | src/context/CartContext.tsx:46-92 | for one fixed time, recomputing the promotions twice gives the same cart as once |
| Cart.SinglePromotionBonusLine | src/context/CartContext.tsx:57-79 | for a paid line of q >= X units with one unexpired Buy-X-Get-Y promotion (X, Y > 0), the recomputed cart is that line followed by one free bonus line of `floor(q / X) * Y` units of the bonus product |
| Cart.CartState.constructor | src/context/CartContext.tsx:23 | the cart starts empty and valid |
| Cart.CartState.AddToCartAction | src/context/CartContext.tsx:95-131 | the new cart is `AddToCart` of the old one, one unit more, with the invariant kept |
| Cart.CartState.RemoveFromCartAction | src/context/CartContext.tsx:140-159 | the new cart is `RemoveFromCart` of the old one, with the invariant kept |
| Cart.CartState.UpdateQuantityAction | src/context/CartContext.tsx:168-188 | the new cart is `UpdateQuantity` of the old one, with the invariant kept |
| Cart.CartState.ClearCartAction | src/context/CartContext.tsx:161-166 | the cart is empty, with count and total 0 |
| Cart.CartState.ApplyPromotionsAction | src/context/CartContext.tsx:46-92 | the new cart is `Promoted` of the old one, the total is unchanged and the invariant is kept |
| Cart.RemoveKeepsValid | src/context/CartContext.tsx:150 | removal keeps every line positive and the paid lines distinct |
| Cart.SubsequenceKeepsDistinct | src/context/CartContext.tsx:52-150 | any order-preserving subsequence of a valid cart is valid |
| Cart.PromotedKeepsTotal | src/context/CartContext.tsx:52-196 | the recomputation never changes the cart total |
| Cart.PromotedKeepsValid | src/context/CartContext.tsx:52-83 | the recomputation keeps every line positive and the paid lines distinct |
| Listing.Merge | src/pages/Shop.tsx:104-109 | every key the update carries has the update's value afterwards, and an update the filters already agree with changes nothing |
| Listing.SortProducts | src/pages/Shop.tsx:81-102 | the sorted list has the same products, each as often, as its input |
| Listing.MergeLaws | src/pages/Shop.tsx:104-109 | `{...prev, ...newFilters}` overwrites exactly the supplied keys and keeps every other key |
| Listing.MergeComposes | src/pages/Shop.tsx:104-109 | an empty update changes nothing, repeating an update changes nothing more, and two updates in a row act as one combined update |
| Listing.SortProductsSpec | src/pages/Shop.tsx:81-102 | the sorted list is a permutation of its input; 'newest' keeps the order, 'price-low' sorts by effective price ascending and 'price-high' descending |
| Listing.SortProductsStable | src/pages/Shop.tsx:87-98 | the engine's sort is stable: products of equal effective price keep their relative order |
| Listing.MinOf | src/pages/Shop.tsx:15 | `Math.min(...xs)` of a non-empty list is one of its values and no larger than any |
| Listing.MaxOf | src/pages/Shop.tsx:16 | `Math.max(...xs)` of a non-empty list is one of its values and no smaller than any |
| Listing.PriceBounds | src/pages/Shop.tsx:14-16 | with no products the bounds are 0 and 1000; otherwise they are the smallest and largest effective prices, and every product lies between them |
| Shop.Shown | src/pages/Shop.tsx:42-79 | every shown product is a catalogue product that passes the filter, every catalogue product that passes is shown, and there are no more shown than listed |
| Shop.ShownSpec | src/pages/Shop.tsx:42-79 | every shown product is a catalogue product within the price range, in a chosen category when any is chosen, sharing a tag when tags are chosen and on sale when sale-only is set; every matching product is shown; the result is a permutation of the filtered list, and for 'newest' an order-preserving subsequence |
| Shop.InitialFilters | src/pages/Shop.tsx:13-25 | the page starts with the catalogue's price bounds, no categories, no tags, not sale-only and 'newest' |
| Shop.InitiallyAllShown | src/pages/Shop.tsx:13-79 | with the initial filters every product is shown, in catalogue order |
| Shop.ShopPage.constructor | src/pages/Shop.tsx:18-25 | the page holds its products and the initial filters |
| Shop.ShopPage.ProductsLoaded | src/pages/Shop.tsx:28-40 | a non-empty load sets the price range to the new bounds and keeps every other filter; an empty load keeps the filters |
| Shop.ShopPage.HandleFilterChange | src/pages/Shop.tsx:104-109 | the filters become the merge of the old ones with the update; the products stay |
| CategoryPage.Shown | src/pages/Category.tsx:15-80 | every shown product is a catalogue product in the route's category that passes the filter, and there are no more shown than listed |
| CategoryPage.ShownSpec | src/pages/Category.tsx:15-80 | every shown product is in the route's category, within the price range, sharing a tag when tags are chosen and on sale when sale-only is set; every such product is shown; for 'newest' the result is an order-preserving subsequence |
| CategoryPage.ShownMembers | src/pages/Category.tsx:15-80 | a product is shown exactly when it is in the catalogue, in the route's category and passes the filter |
| CategoryPage.ShownIgnoresCategories | src/pages/Category.tsx:48-74 | the shown products do not depend on the chosen categories at all |
| CategoryPage.WithRouteCategory | src/pages/Category.tsx:106-111 | the route category ends up in the list: a list that has it is kept as it is, and otherwise it is appended at the end |
| CategoryPage.CategoryView.constructor | src/pages/Category.tsx:14-30 | the filters start with the category's price bounds, the route category alone, no tags, not sale-only and 'newest' |
| CategoryPage.CategoryView.ProductsLoaded | src/pages/Category.tsx:33-46 | when the category has products, the price range becomes their bounds and the categories the route category alone; otherwise nothing changes |
| CategoryPage.CategoryView.HandleFilterChange | src/pages/Category.tsx:105-117 | a categories update gets the route category appended when it lacks it, and the result is merged; the route category stays among the chosen ones |
| HotDeals.Shown | src/pages/HotDeals.tsx:13-77 | every shown product is a catalogue product on sale that passes the filter, and there are no more shown than listed |
| HotDeals.ShownMembers | src/pages/HotDeals.tsx:13-77 | a product is shown exactly when it is in the catalogue, on sale and passes the filter |
| HotDeals.ShownSpec | src/pages/HotDeals.tsx:13-77 | every shown product is on sale, within the price range, in a chosen category when any is chosen and sharing a tag when tags are chosen; every such product is shown; for 'newest' the result is an order-preserving subsequence |
| HotDeals.ForcedOnSale | src/pages/HotDeals.tsx:102-106 | an update that supplies `onSaleOnly` gets it set to true, one that does not stays without it, and every other key is untouched |
| HotDeals.HotDealsView.constructor | src/pages/HotDeals.tsx:12-28 | the filters start with the sale products' price bounds, no categories, no tags, sale-only and 'newest' |
| HotDeals.HotDealsView.ProductsLoaded | src/pages/HotDeals.tsx:31-43 | when there are sale products the price range becomes their bounds; otherwise nothing changes; sale-only stays set |
| HotDeals.HotDealsView.HandleFilterChange | src/pages/HotDeals.tsx:102-112 | the filters become the merge with the forced update, so sale-only stays true |
| ProductFilter.ToggledSpec | src/components/ProductFilter.tsx:49-52 | toggling flips the membership of that value and no other; a present value is removed everywhere (the rest keep their order), an absent one is appended at the end |
| ProductFilter.ToggleTwiceRestores | src/components/ProductFilter.tsx:50-52 | toggling an absent value twice gives back the original list |
| ProductFilter.CategoryToggle | src/components/ProductFilter.tsx:49-57 | the update carries the categories key and no other, and a category is in the new list exactly when its membership differs from whether it is the toggled one |
| ProductFilter.TagToggle | src/components/ProductFilter.tsx:59-67 | the update carries the tags key and no other, and a tag is in the new list exactly when its membership (missing tags read as empty) differs from whether it is the toggled one |
| ProductFilter.SaleToggle | src/components/ProductFilter.tsx:69-73 | merged into the filters it was built from, the update flips sale-only and nothing else; merging it once more changes nothing |
| ProductFilter.SortChange | src/components/ProductFilter.tsx:75-79 | merged into any filters, the update sets the sort order and nothing else |
| ProductFilter.TogglesOnMergedFilters | src/components/ProductFilter.tsx:49-73 | after the merge, a tag toggle flips that tag's membership; toggling an absent category or tag twice, or the sale flag twice, restores the filters; the sale toggle negates `onSaleOnly` |
| ProductFilter.CommittedUpdatesOnMergedFilters | src/components/ProductFilter.tsx:42-79 | after the merge, a committed price range and a sort change each set exactly their own keys, and the other filters are the old ones |
| ProductFilter.UniqueCategories | src/components/ProductFilter.tsx:33 | the category list has no duplicates and holds exactly the categories of the catalogue |
| ProductFilter.UniqueTags | src/components/ProductFilter.tsx:36 | the tag list has no duplicates and holds exactly the tags of the catalogue |
| ProductFilter.UniqueListsOrder | src/components/ProductFilter.tsx:33-36 | both lists keep the order in which their values first occur |
| ProductFilter.ResetPatch | src/components/ProductFilter.tsx:27-91 | the reset sends the catalogue's smallest and largest effective prices, no categories, no tags, not sale-only and 'newest' |
| ProductFilter.ResetReplacesEverything | src/components/ProductFilter.tsx:81-91 | after a reset, the filters no longer depend on what they were, and every catalogue product passes the price filter |
| ProductFilter.FilterPanel.constructor | src/components/ProductFilter.tsx:24 | the slider starts at the current price range |
| ProductFilter.FilterPanel.HandlePriceChange | src/components/ProductFilter.tsx:38-40 | the slider holds the new values |
| ProductFilter.FilterPanel.HandlePriceChangeCommitted | src/components/ProductFilter.tsx:42-47 | merged into any filters, the committed update sets the minimum and maximum price to the two slider values and changes nothing else |
| ProductFilter.FilterPanel.ResetFilters | src/components/ProductFilter.tsx:81-91 | the slider is reset to the catalogue bounds and the reset update is sent |
| Charms.SelectionCountWith | src/components/CharmCustomizer.tsx:185-256 | replacing one category's list changes the total charm count by the difference in that list's length |
| Charms.CompatibleCharms | src/components/CharmCustomizer.tsx:264-269 | a charm is offered exactly when it belongs to the active category and fits the chosen base, in catalogue order |
| Charms.FindCharm | src/components/CharmCustomizer.tsx:247 | `find` succeeds exactly when some charm has the id, and returns the first such charm |
| Charms.IdsPriceAppend | src/components/CharmCustomizer.tsx:246-249 | the prices of a split id list add up to the price of the whole list |
| Charms.SelectionPriceSplit | src/components/CharmCustomizer.tsx:245-250 | the selection's price is the sum of the four categories' prices |
| Charms.SelectionCount | src/components/CharmCustomizer.tsx:254-256 | the flattened count is the sum of the four list lengths, and 0 exactly for the empty selection |
| CharmCustomizer.PutLaws | src/components/CharmCustomizer.tsx:208-211 | assigning a preview key sets that key and no other, keeps an existing key in its place and appends a new one, and keeps keys distinct |
| CharmCustomizer.DeleteLaws | src/components/CharmCustomizer.tsx:195 | deleting a preview key removes that key and no other, and keeps keys distinct |
| CharmCustomizer.FollowKeepsConsistent | src/components/CharmCustomizer.tsx:182-231 | replacing a category's list with a repeat-free one within the limit, and resetting its preview to the list's last id or deleting it, keeps every category's preview equal to its last selected id |
| CharmCustomizer.PreviewCharmsData | src/components/CharmCustomizer.tsx:258-262 | the listed charms are at most one per preview entry, each the catalogue charm its entry names |
| CharmCustomizer.CatalogueIdsResolve | src/components/CharmCustomizer.tsx:80-247 | looking up any catalogue charm's id in its category finds that very charm, listed under its own category |
| CharmCustomizer.CatalogueDistinctIds | src/components/CharmCustomizer.tsx:80-153 | ids within a category are distinct and every charm is listed under its own category |
| CharmCustomizer.FindDistinct | src/components/CharmCustomizer.tsx:247 | in a list with distinct ids, finding an entry's id returns that entry |
| CharmCustomizer.AppendAddsPrice | src/components/CharmCustomizer.tsx:199-252 | adding a catalogue charm to its category raises the charm total by exactly its price |
| CharmCustomizer.AddCategoryPrices | src/components/CharmCustomizer.tsx:246-249 | the `forEach` over one category adds the price of each id that the catalogue knows |
| CharmCustomizer.Customizer.constructor | src/components/CharmCustomizer.tsx:40-77 | the first base chain, no charms, the symbols tab and an empty preview |
| CharmCustomizer.Customizer.SelectBase | src/components/CharmCustomizer.tsx:162-172 | the new base with every charm and the preview cleared |
| CharmCustomizer.Customizer.SetActiveCategory | src/components/CharmCustomizer.tsx:365 | only the active tab changes |
| CharmCustomizer.Customizer.SelectCharm | src/components/CharmCustomizer.tsx:174-214 | an incompatible charm changes nothing; a selected one is removed and the preview falls back to the category's last remaining id; a new one is appended and previewed only while the category is under the limit; the invariant holds throughout |
| CharmCustomizer.Customizer.RemoveCharmFromCategory | src/components/CharmCustomizer.tsx:216-231 | the id disappears from that category only, and its preview falls back to the last remaining id or is deleted |
| CharmCustomizer.Customizer.ClearAllCharms | src/components/CharmCustomizer.tsx:233-241 | all four lists and the preview are emptied; the base stays |
| CharmCustomizer.Customizer.GetTotalPrice | src/components/CharmCustomizer.tsx:243-252 | the base's price plus the price of every selected id that the catalogue knows |
| CharmCustomizer.Customizer.TotalCharmCount | src/components/CharmCustomizer.tsx:254-256 | the number of selected ids, 0 exactly when nothing is selected, and at most four times the per-category limit |
| DragDropCustomizer.Percent | src/components/DragDropCharmCustomizer.tsx:194-195 | a drop inside the target lands between 0 and 100 percent, at 0 on the leading edge and 100 on the trailing one, and below 0 exactly when it falls before the target |
| DragDropCustomizer.PlacedPriceAppend | src/components/DragDropCharmCustomizer.tsx:224 | the charms' price adds up over a split list, so every placement counts, repeats included |
| DragDropCustomizer.CharmIds | src/components/DragDropCharmCustomizer.tsx:243 | one id per placement |
| DragDropCustomizer.GroupedSpec | src/components/DragDropCharmCustomizer.tsx:234-247 | each category's list holds the ids of exactly the placements of that category, in placement order, and the lists together hold one id per placement |
| DragDropCustomizer.GroupedStep | src/components/DragDropCharmCustomizer.tsx:242-244 | one more placement keeps each category's list equal to the ids of that category's placements |
| DragDropCustomizer.GroupedCountStep | src/components/DragDropCharmCustomizer.tsx:242-244 | one more placement adds exactly one id over all categories |
| DragDropCustomizer.CharmIdsSnoc | src/components/DragDropCharmCustomizer.tsx:243 | `push` appends the new placement's charm id at the end |
| DragDropCustomizer.Customizer.constructor | src/components/DragDropCharmCustomizer.tsx:156-160 | the first base chain, nothing placed, the symbols tab, nothing dragged and no drag-over highlight |
| DragDropCustomizer.Customizer.SelectBase | src/components/DragDropCharmCustomizer.tsx:164-172 | the new base; the placements become exactly those whose charm fits it, in their old order |
| DragDropCustomizer.Customizer.HandleDragStart | src/components/DragDropCharmCustomizer.tsx:174-176 | the charm becomes the dragged one, nothing else changes |
| DragDropCustomizer.Customizer.SetDragOver | src/components/DragDropCharmCustomizer.tsx:178-185 | the highlight is set or cleared, nothing else changes |
| DragDropCustomizer.Customizer.HandleDrop | src/components/DragDropCharmCustomizer.tsx:187-212 | the highlight is always cleared; without a dragged charm, a target or compatibility nothing else changes; otherwise one placement at the drop's percentages, its id the charm id and the time stamp, is appended and the drag ends |
| DragDropCustomizer.Customizer.RemovePlacedCharm | src/components/DragDropCharmCustomizer.tsx:214-216 | the placements with that id go, every other stays, in order |
| DragDropCustomizer.Customizer.ClearAllCharms | src/components/DragDropCharmCustomizer.tsx:218-220 | nothing stays placed; nothing else changes |
| DragDropCustomizer.Customizer.GetSelectedCharmsForCallback | src/components/DragDropCharmCustomizer.tsx:234-247 | the loop's grouped lists hold each category's placed charm ids in order, one id per placement in all |
| DragDropCustomizer.DropRaisesTotal | src/components/DragDropCharmCustomizer.tsx:210-226 | a placed charm raises the total by its price |
| SimpleNecklace.FilteredCharms | src/components/SimpleNecklaceCustomizer.tsx:94 | exactly the charms of the active category, in catalogue order |
| SimpleNecklace.AppendAddsPrice | src/components/SimpleNecklaceCustomizer.tsx:110-123 | adding a charm raises the reported total by its price |
| SimpleNecklace.RemoveSubtractsPrice | src/components/SimpleNecklaceCustomizer.tsx:106-123 | with distinct ids, removing a selected charm lowers the charms' price by exactly its price |
| SimpleNecklace.DistinctFront | src/components/SimpleNecklaceCustomizer.tsx:101-114 | a repeat-free list stays repeat-free without its last charm, whose id no other charm has |
| SimpleNecklace.PositionsSpec | src/components/SimpleNecklaceCustomizer.tsx:175-183 | within the limit of five, charm k sits at the k-th position and no two charms share one; beyond the table the centre is used |
| SimpleNecklace.Customizer.constructor | src/components/SimpleNecklaceCustomizer.tsx:32-34 | no base, no charms, the letters tab |
| SimpleNecklace.Customizer.HandleBaseSelect | src/components/SimpleNecklaceCustomizer.tsx:96-99 | the base is set, the charms stay, and the reported customization carries the new base and its total |
| SimpleNecklace.Customizer.HandleCharmSelect | src/components/SimpleNecklaceCustomizer.tsx:101-118 | a selected charm is removed, every other kept in order; a new one is appended while fewer than five are chosen; at the limit nothing changes and nothing is reported; ids stay distinct and at most five |
| SimpleNecklace.Find | src/components/SimpleNecklaceCustomizer.tsx:104 | `find` succeeds exactly when a selected charm has the id |
| SimpleNecklace.SubsequenceDistinct | src/components/SimpleNecklaceCustomizer.tsx:106 | a filtered list of a repeat-free list is repeat-free |
| BagCharm.TotalPrice | src/components/BagCharmCustomizer.tsx:56-60 | the quantity times the chain's price plus the quantity times the charm's price, with no charm counting as 0 |
| BagCharm.TotalPerPiece | src/components/BagCharmCustomizer.tsx:56-60 | each extra piece adds one piece's price (charm, or nothing, plus chain), and one piece costs exactly that |
| BagCharm.TabIndices | src/components/BagCharmCustomizer.tsx:28-78 | `indexOf` finds every tab at its own position |
| BagCharm.Customizer.TabIndex | src/components/BagCharmCustomizer.tsx:71-78 | the open tab's index is a valid position holding that tab |
| BagCharm.Customizer.constructor | src/components/BagCharmCustomizer.tsx:23-54 | the first tab, no charm, one piece, the gold chain |
| BagCharm.Customizer.HandleQuantityChange | src/components/BagCharmCustomizer.tsx:62-68 | one more piece, or one fewer only while more than one is ordered, so the quantity stays at least 1 |
| BagCharm.Customizer.HandleNextTab | src/components/BagCharmCustomizer.tsx:70-75 | the following tab opens, the last one stays open |
| BagCharm.Customizer.HandlePreviousTab | src/components/BagCharmCustomizer.tsx:77-82 | the preceding tab opens, the first one stays open |
| BagCharm.Customizer.SelectTab | src/components/BagCharmCustomizer.tsx:171-184 | that tab opens, nothing else changes |
| BagCharm.Customizer.ToggleCharm | src/components/BagCharmCustomizer.tsx:202 | the chosen charm is let go, any other charm becomes the chosen one |
| BagCharm.Customizer.SelectChain | src/components/BagCharmCustomizer.tsx:145 | that chain is chosen, nothing else changes |
| SelectionPanel.ListedPriceAppend | src/components/CharmSelectionPanel.tsx:44-51 | listed prices add up over a split list |
| SelectionPanel.ListedIdsSpec | src/components/CharmSelectionPanel.tsx:45-50 | one category's entries are at most one per id, each a catalogue charm found by a selected id and tagged with the category; all ids that resolve give exactly one entry each; their prices sum to the category's price |
| SelectionPanel.AllSelectedOrder | src/components/CharmSelectionPanel.tsx:44 | the entries come category by category in the object's key order: zodiac, initials, symbols, birthstones |
| SelectionPanel.ResolvedAppend | src/components/CharmSelectionPanel.tsx:48 | two lists of resolved entries join into one |
| SelectionPanel.ListedIdsResolved | src/components/CharmSelectionPanel.tsx:45-50 | every entry of a category names a selected id whose catalogue charm it is |
| SelectionPanel.AllSelectedSpec | src/components/CharmSelectionPanel.tsx:41-54 | at most one entry per selected id, each resolved from the catalogue; exactly one per id when all ids resolve; the entries' prices sum to the selection's price |
| SelectionPanel.AllSelectedCount | src/components/CharmSelectionPanel.tsx:41-54 | the four categories' entries number at most the selection's count, and exactly as many when every id resolves |
| SelectionPanel.AllSelectedPrice | src/components/CharmSelectionPanel.tsx:41-54 | the four categories' entries are priced at the selection's price |
| SelectionPanel.GetAllSelectedCharms | src/components/CharmSelectionPanel.tsx:41-54 | the nested loops produce exactly the specified category-ordered entries |
| SelectionPanel.CharmSubtotalIsListedPrice | src/components/CharmSelectionPanel.tsx:79 | the total less the chosen base's price equals the summed price of the listed charms, whatever the base |
| SelectionPanel.AsWrittenSubtotalWrongOffGold | src/components/CharmSelectionPanel.tsx:79 | subtracting a fixed 450 shows -25 for a silver chain with one lemon slice, whose charm costs 75 |
| SelectionPanel.View | src/components/CharmSelectionPanel.tsx:56-80 | as written: the empty message exactly when the count is 0; otherwise the count, the listed charms and a subtotal of the total less a fixed 450 |
| SelectionPanel.CorrectedView | src/components/CharmSelectionPanel.tsx:56-80 | with the base price subtracted in place of 450: the empty message exactly when the count is 0; otherwise the count, the listed charms and a subtotal that with the base's price makes up the total |
| SelectionPanel.CorrectedViewShowsListedPrice | src/components/CharmSelectionPanel.tsx:79 | for a non-zero count and the customizer's total, the corrected panel shows a subtotal equal to the summed price of the charms it lists |
| Checkout.CheckoutSummary | src/pages/Checkout.tsx:23-26 | the subtotal is kept, shipping is free exactly above 50, and a non-negative subtotal gives a total of at least subtotal plus shipping |
| Checkout.CheckoutView | src/pages/Checkout.tsx:23-40 | the empty-cart notice exactly for an empty cart; otherwise the form's subtotal is the total of the paid lines alone |
| Checkout.SummarySpec | src/pages/Checkout.tsx:23-26 | shipping is free exactly above 50 and 5.99 otherwise; tax is 8% of the subtotal; the total is their sum and never below a non-negative subtotal |
| Checkout.ViewSpec | src/pages/Checkout.tsx:23-40 | the empty-cart notice exactly for an empty cart; otherwise the summary's subtotal is the total of the paid lines, bonus lines costing nothing |
| Checkout.HandleSubmit | src/pages/Checkout.tsx:28-36 | the cart is emptied and its total is 0 |
| DataTransform.TransformApiProduct | src/utils/dataTransform.ts:6-23 | the id, name and parsed price carry over; a non-empty discount is parsed as the sale price; the product is on sale exactly when that sale price is a non-zero number; a tag id gives the one tag; the first image gets the storage prefix, otherwise the placeholder; the category is lower-cased; never new |
| DataTransform.SliderConversionInjective | src/utils/dataTransform.ts:36-44 | two sliders give the same slide exactly when their id, title, description and image agree: the slide keeps all four and adds only the fixed storage prefix and "Shop Now" |
| DataTransform.TransformCategoryName | src/utils/dataTransform.ts:26-28 | the lowered title keeps its length, has no upper-case letter, and lowering it again changes nothing |
| DataTransform.TransformApiTags | src/utils/dataTransform.ts:31-33 | one tag per API tag, in order, none holding an upper-case ASCII letter |
| DataTransform.TransformApiTagsLaws | src/utils/dataTransform.ts:31-33 | converting already converted tags gives them back unchanged, and two tag lists whose names lower-case alike convert alike |
| DataTransform.UniqueCategories | src/utils/dataTransform.ts:47-50 | no duplicates, exactly the products' lower-cased categories, in order of first occurrence |
| DataTransform.TagIds | src/utils/dataTransform.ts:54-59 | exactly the non-empty tag ids of the products |
| DataTransform.GetAllTags | src/utils/dataTransform.ts:53-61 | the loop's tags de-duplicated: no repeats, and exactly the products' non-empty tag ids |
| HeroSlider.HeroSlides | src/components/HeroSlider.tsx:14 | one slide per active slider, in order; a slide is shown exactly when it is the conversion of some slider flagged `'1'` |
| HeroSlider.HeroSlidesSpec | src/components/HeroSlider.tsx:14 | exactly the sliders flagged `'1'` are kept, in their original order |
| HeroSlider.Next | src/components/HeroSlider.tsx:27-29 | the next index is in range; it is one more than the current one, except that the last slide wraps to 0 |
| HeroSlider.Prev | src/components/HeroSlider.tsx:31-33 | the previous index is in range; it is one less than the current one, except that slide 0 wraps to the last |
| HeroSlider.MovesSpec | src/components/HeroSlider.tsx:21-32 | both moves stay in range and undo each other; next wraps from the last slide to the first, previous from the first to the last; elsewhere they step by one |
| HeroSlider.NextTimesIsShift | src/components/HeroSlider.tsx:21-28 | k moves forward land k slides on, modulo the number of slides |
| HeroSlider.NextFullCircle | src/components/HeroSlider.tsx:21-28 | as many forward moves as there are slides come back to the start |
| HeroSlider.Carousel.constructor | src/components/HeroSlider.tsx:10-14 | the slides and the first one showing |
| HeroSlider.Carousel.NextSlide | src/components/HeroSlider.tsx:27-29 | the next slide, wrapping, and still a valid one |
| HeroSlider.Carousel.PrevSlide | src/components/HeroSlider.tsx:31-33 | the previous slide, wrapping, and still a valid one |
| HeroSlider.Carousel.AutoAdvance | src/components/HeroSlider.tsx:17-25 | the timer, armed only when there are slides, moves to the next slide |
| Home.FeaturedProducts | src/pages/Home.tsx:13-44 | at most six products, each a catalogue product that is on sale, new or carries a promotion |
| Home.FeaturedSpec | src/pages/Home.tsx:13-44 | the first six (or fewer) catalogue products that are on sale, new or carry a promotion, in catalogue order; the empty section exactly when no product qualifies |
| LocationSelector.OrNull | src/components/LocationSelector.tsx:29-31 | falling back to null keeps a chosen id and turns an empty one into null |
| LocationSelector.Selection.ValidNests | src/components/LocationSelector.tsx:37-49 | a district is chosen only under a chosen zone, a zone only under a chosen city |
| LocationSelector.Selection.constructor | src/components/LocationSelector.tsx:29-49 | the initial ids, empty ones as null, with a zone dropped under no city and a district under no zone |
| LocationSelector.Selection.ResetEffects | src/components/LocationSelector.tsx:37-49 | without a city the zone and district are cleared, without a zone the district; a chosen city keeps what lies under it |
| LocationSelector.Selection.HandleCityChange | src/components/LocationSelector.tsx:60-64 | the new city with zone and district cleared |
| LocationSelector.Selection.HandleZoneChange | src/components/LocationSelector.tsx:66-69 | the city stays, the new zone, the district cleared |
| LocationSelector.Selection.HandleDistrictChange | src/components/LocationSelector.tsx:71-73 | only the district changes |
| ProductCard.FirstUnexpired | src/components/ProductCard.tsx:19-20 | `find` returns the first promotion whose expiry lies after now, and none exactly when every one has expired |
| ProductCard.ActivePromotion | src/components/ProductCard.tsx:16-20 | a promotion is shown exactly when some promotion is unexpired, and the one shown is one of the product's unexpired promotions |
| ProductCard.ActivePromotionSpec | src/components/ProductCard.tsx:16-20 | the badge shows exactly when some promotion is unexpired, and then it is the first such one |
| ProductCard.Display | src/components/ProductCard.tsx:58-65 | a product with a sale price shows that price beside the struck-through list price; any other shows its list price |
| ProductPage.FindProduct | src/pages/Product.tsx:11-14 | the first product whose id is the route's number, and none exactly when the route has no number or no product has it |
| ProductPage.RelatedProducts | src/pages/Product.tsx:31-33 | at most three products, each a catalogue product of the same category with another id; when fewer than three are shown, every related product is among them |
| ProductPage.View | src/pages/Product.tsx:14-117 | "not found" exactly when the route has no number or no product has it; otherwise a catalogue product with that id, whose related list, when shown, has one to three products |
| ProductPage.RelatedSpec | src/pages/Product.tsx:31-33 | of the m products of the same category with another id, exactly the first min(3, m), in catalogue order; none is shown exactly when none is related |
| ProductPage.ViewSpec | src/pages/Product.tsx:14-117 | "not found" exactly when no product matches; otherwise the first match, whose related section is absent exactly when it has no related products |
| ProductTabNavigation.PrevId | src/components/ProductTabNavigation.tsx:11-16 | a previous link leads to the product just before the first one with the id; there is none exactly when the id is unknown or first listed at position 0 |
| ProductTabNavigation.NextId | src/components/ProductTabNavigation.tsx:11-16 | a next link leads to the product just after the first one with the id, or, for an unknown id, to the first product; there is none exactly when the catalogue is empty or the id is first listed last |
| ProductTabNavigation.IndexOfFirst | src/components/ProductTabNavigation.tsx:12 | `indexOf` finds the first position holding the id |
| ProductTabNavigation.NavigationAt | src/components/ProductTabNavigation.tsx:11-16 | for a product first listed at k, the links lead to the products at k-1 and k+1, none before the first and after the last |
| ProductTabNavigation.NavigationUnknown | src/components/ProductTabNavigation.tsx:12-16 | for an id not in the catalogue there is no previous link and the next link leads to the first product |
| PromoCodes.FirstUsable | src/hooks/usePromoCodes.ts:35-40 | the first code whose name matches ignoring case, that is active and whose dates include now; none exactly when there is no such code |
| PromoCodes.ValidatePromoCode | src/hooks/usePromoCodes.ts:34-52 | rejection exactly when no code is usable; an accepted code is one of the codes and usable for that entry at that time |
| PromoCodes.ValidatePromoCodeSpec | src/hooks/usePromoCodes.ts:34-52 | rejection with "Invalid or expired promo code" exactly when no code is usable; otherwise the first usable code, its parsed discount and free shipping exactly when its flag is `'1'` |
| PromoCodes.CaseInsensitive | src/hooks/usePromoCodes.ts:36 | the entered code's letter case does not matter |
| PromoCodes.FirstUsableAgrees | src/hooks/usePromoCodes.ts:35-40 | two entries that make the same codes usable find the same code |
| Search.Results | src/context/SearchContext.tsx:33-50 | a blank query finds nothing, and every result is a catalogue product the query is found in |
| Search.ResultsSpec | src/context/SearchContext.tsx:33-50 | a blank query finds nothing; any other finds exactly the catalogue products whose name or category contains it ignoring case, in catalogue order |
| Search.ResultsIgnoreCase | src/context/SearchContext.tsx:44-47 | the query's letter case does not matter |
| Search.SearchState.constructor | src/context/SearchContext.tsx:29-31 | an empty query, no results, not searching |
| Search.SearchState.HandleSearch | src/context/SearchContext.tsx:33-50 | the query is stored; the results are the query's finds; searching exactly when the query is not blank |
| Search.SearchState.ClearSearch | src/context/SearchContext.tsx:52-56 | an empty query, no results, not searching |
| Text.LowerChar | src/context/SearchContext.tsx:45-46 | an upper-case ASCII letter maps to its lower-case one, every other character to itself |
| Text.Lower | src/utils/dataTransform.ts:18 | the result keeps the length, holds no upper-case ASCII letter, and leaves every character that is not one unchanged |
| Text.LowerLaws | src/hooks/usePromoCodes.ts:36 | lower-casing leaves no upper-case letter, is idempotent and distributes over concatenation |
| Text.Trim | src/context/SearchContext.tsx:36 | `trim` gives a string no longer than its input, with no whitespace at either end |
| Text.BlankIffAllWhitespace | src/context/SearchContext.tsx:36 | `!query.trim()` holds exactly when every character is whitespace |
| Text.ContainsLaws | src/context/SearchContext.tsx:45-46 | `includes` finds the empty string and the string itself, and nothing longer |
| Seqs.Filter | src/pages/Shop.tsx:42-73 | `filter` keeps exactly the members that pass, and nothing else |
| Seqs.FilterAppend | src/pages/Shop.tsx:42-73 | filtering distributes over concatenation |
| Seqs.FilterIsSubsequence | src/pages/Shop.tsx:42-73 | a filtered list keeps its members' order |
| Seqs.Dedup | src/utils/dataTransform.ts:49 | `Array.from(new Set(xs))` has no repeats and exactly the members of xs |
| Seqs.DedupFirstOccurrenceOrder | src/utils/dataTransform.ts:49 | the de-duplicated list keeps the order of first occurrences |
| Seqs.Flatten | src/components/ProductFilter.tsx:36 | `flatMap` over the tag lists holds exactly the members of the inner lists |
| Seqs.IndexOf | src/components/ProductTabNavigation.tsx:12 | `indexOf` is -1 exactly for an absent value, and otherwise the first position holding it |
| Sorting.InsertPermutation | src/pages/Shop.tsx:87-98 | inserting adds exactly one element |
| Sorting.InsertSorted | src/pages/Shop.tsx:87-98 | inserting into a sorted list keeps it sorted |
| Sorting.SortBySorted | src/pages/Shop.tsx:87-98 | the sort orders by key, ascending |
| Sorting.SortByPermutation | src/pages/Shop.tsx:87-98 | the sort only reorders its input |
| Sorting.InsertStable | src/pages/Shop.tsx:87-98 | inserting places the new element after every earlier one of equal key |
| Sorting.SortByStable | src/pages/Shop.tsx:87-98 | elements of equal key keep their relative order |

## Left out

- Image loading, canvas access and the Promise wrapping are not modelled. The load outcome, the image size and the RGBA buffer are inputs.
- OpenCV (`cvtColor`, `GaussianBlur`, `Canny`, `findContours`, `arcLength`, cleanup) is foreign code. Contours and their perimeters are inputs.
- Floating point is not modelled:
  - coordinates are integers and prices and angles are reals;
  - `atan2` and `cos` are uninterpreted parameters, and `sqrt(gx² + gy²) > 30` is decided exactly in integers;
  - IEEE rounding of `toFixed` and of price sums is left out.
- CharmPlacement.SpreadIndex: the float `progress * usable` is replaced by the exact `floor(i * usable / (n - 1))`. A float product can round to the integer below. `Math.floor(K * 0.1)` is modelled as `K / 10`, which agrees for every integer K because the double nearest 0.1 lies above it.
- The fallback curve's coordinates hold only for the cosine values passed in. The model proves the point count, the bounding box and the two end points, but not the exact trigonometric values.
- `Math.random` and `Date.now()` are inputs. So are the scale jitter's draws and the placement id's time stamp.
- `new Date()` in promotions and promo codes is an integer `now`. Expiry, start and end dates are integers on the same scale, and date-string parsing is left out.
- `parseInt` and `parseFloat` are parameters. `NaN` appears as `None`, and the string formats they accept are not modelled.
- `toLowerCase` lowers only the ASCII letters; Unicode case mapping is left out. `trim` removes the full ECMAScript white space and line terminator set.
- HTTP, the API services and the data-fetching hooks are not modelled, with their loading and error flags. Fetched lists are inputs.
- localStorage persistence of the cart and `setTimeout` scheduling are not modelled. The cart's promotion recomputation is a separate action.
- Toasts, `alert`, navigation, rendering and responsive layout are not modelled. The callbacks to parent components appear only as the value they would receive (SimpleNecklace's `Report`).
- React's batching of state updates, effects and stale closures are not modelled: each handler is one sequential state change. DragDropCustomizer.Customizer.HandleDrop takes the target's bounding box as an input, with a positive width and height.
- DragDropCharmCustomizer.tsx accepts `maxCharmsPerCategory` but never reads it, so the model has no limit there either.
- DataTransform.TransformApiProduct requires that the price string parses. With an unparseable price the source stores `NaN`, which has no counterpart among the model's prices.
- ProductFilter.ResetPatch requires a non-empty catalogue. For an empty catalogue `Math.min()` and `Math.max()` give ±Infinity, which the model has no value for.
- Cart.PromotionBonus: an X of 0 parses to 0. The source then divides by 0 and gets Infinity or NaN; the model treats that promotion as not qualifying.
- Cart.ApplyBuyXGetYPromotions: the outer `forEach` runs over `updatedItems` while pushing into it. `forEach` fixes its range at the start, so it visits only the paid lines, and the model loops over those.
- Sorting.SortBy: the in-place `Array.prototype.sort` on a copy is modelled on values, as a stable insertion sort. The engine's sort is stable, but its algorithm and its in-place updates are not modelled.
- CharmCustomizer's `charmData` is a catalogue function of the category, not an object lookup with a fallback for unknown keys. Every category is known.
- Which charm list a preview renders (LivePreview.tsx) is not modelled. Nor are the highlight of the previewed charm in the selection panel and SVG path measurement (SmartCharmPositioning.tsx).
- Images, image URLs in catalogue entries, colours and display names are left out where no logic reads them.

## Findings

| source | as written | input that shows it | evidently intended | confidence | as-written member | corrected member |
|---|---|---|---|---|---|---|
| src/components/CharmSelectionPanel.tsx:79 | The charm subtotal is `totalPrice - (selectedCharms ? 450 : 0)`. The selection object is always truthy, so a fixed 450 is always subtracted. | The silver chain (350) with one lemon slice (75): the total is 425 and the panel shows -25. | The total less the chosen base's price, which is the price of the listed charms. | not executed | SelectionPanel.AsWrittenSubtotalWrongOffGold | SelectionPanel.CorrectedViewShowsListedPrice |

`SelectionPanel.View` models the panel as written, and `SelectionPanel.AsWrittenSubtotalWrongOffGold` shows its -25 on that input. `SelectionPanel.CorrectedView` subtracts the chosen base's price instead, and `SelectionPanel.CorrectedViewShowsListedPrice` proves it then shows the listed charms' price. In the repository no component renders CharmSelectionPanel, so this line is not visible in the shop as it stands.
