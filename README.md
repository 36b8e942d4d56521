# LavishBite core, modelled in Dafny

LavishBite is a health-food storefront for hotels. The model covers the parts of it that compute
something. The backend parts are:

- the rule-based compliance checker for three health conditions (cardiovascular, diabetes,
  hypertension);
- the selection and ordering around the recommendation score;
- the order creation loop that totals an order and sums its nutrition;
- the public order identifier `LB-0042`, the status choices and the line subtotal.

The browser parts are:

- the shopping cart ledger, held by the cart provider, with its hydrate-once / save-after-hydration
  protocol;
- the dashboard figures: top-rated products and the per-category average and high-match count;
- the product card's match score, badge and warning strips;
- the nutrition label's percentages of daily value and its warning flags;
- the health badge and ingredient warning lookups.

Files:

| file | module | what it holds |
|---|---|---|
| `options.dfy` | `Options` | `Option` and `Result` |
| `text.dfy` | `Text` | decimal rendering and parsing, zero padding, character replacement |
| `ranking.dfy` | `Ranking` | the stable descending sort used by the backend and the browser. Proved: it is ordered, it is a permutation, and it is stable |
| `storefront.dfy` | `Storefront` | the browser's product records |
| `cart_context.dfy` | `CartContext` | the cart updaters and folds as functions, their lemmas, and the `CartProvider` class |
| `product_card.dfy`, `nutrition_label.dfy`, `health_badge.dfy`, `ingredient_warning.dfy` | one module each | the display derivations |
| `dashboard.dfy` | `Dashboard` | the in-place sort of the catalog array and the category panels |
| `product_models.dfy` | `ProductModels` | the backend's product and nutrition records, with decimals in tenths and prices in cents |
| `recommender.dfy` | `Recommender` | the compliance checker and the recommendation selection |
| `order_models.dfy`, `order_serializers.dfy` | one module each | orders, order items, order creation |

Numbers are modelled as follows:

- Prices are whole cents.
- Backend decimals with one decimal place are whole tenths.
- Browser nutrient amounts and ratings are exact rationals (`real`).
- Integers are unbounded. No source integer is fixed-width.

Where the code and the documented behaviour of the project differ, the model follows the code:

- Recommendations with equal scores are not re-ordered by rating inside the recommender. The sort
  key is the score alone, and the sort is stable, so ties keep the order of the product query.
  That query has no `order_by`, so the product table's default ordering by descending rating
  applies. On that path, equal scores do come out by non-increasing rating
  (`Recommender.RecommendationsTieBreakByRating`).
- Cart mutations made before hydration are not rejected. They change the cart, and the save effect
  simply does not write them until hydration.

## Model

| member | source | states |
|---|---|---|
| CartContext.AddLine | frontend/src/context/CartContext.js:29-40 | `addToCart`'s updater: afterwards the product is in the cart, and the cart grows by one line iff the product was not already in it. AddToExistingLine and AddNewLine state the two branches |
| CartContext.AddToExistingLine | frontend/src/context/CartContext.js:31-37 | adding a product already in the cart keeps the line count, every line's snapshot and the line order, and adds `qty` to exactly the lines with that id |
| CartContext.AddNewLine | frontend/src/context/CartContext.js:39 | adding a product not in the cart appends exactly one line, the product with quantity `qty` |
| CartContext.AddTwiceMerges | frontend/src/context/CartContext.js:29-40 | adding the same new product twice gives one line whose quantity is the sum |
| CartContext.WithoutId | frontend/src/context/CartContext.js:43-45 | `removeFromCart`'s filter: no line with the id is left, and the cart never grows. RemoveMembers, RemoveAbsent and RemoveIdempotent state the rest |
| CartContext.RemoveMembers | frontend/src/context/CartContext.js:43-45 | after removal a line is present iff it was present and its id differs |
| CartContext.RemoveAbsent | frontend/src/context/CartContext.js:43-45 | removing an id not in the cart changes nothing |
| CartContext.RemoveIdempotent | frontend/src/context/CartContext.js:43-45 | removing twice is removing once |
| CartContext.RemoveLine | frontend/src/context/CartContext.js:43-45 | with unique ids, removing line k's product leaves exactly the other lines in their order |
| CartContext.WithoutIdConcat | frontend/src/context/CartContext.js:44 | the filter distributes over concatenation |
| CartContext.UpdateQuantity | frontend/src/context/CartContext.js:47-57 | `updateQuantity`'s updater: a quantity ≤ 0 leaves no line with the id. A positive one keeps the line count and gives every line with the id that quantity. UpdateQuantityCases states the rest |
| CartContext.UpdateQuantityCases | frontend/src/context/CartContext.js:47-57 | a quantity ≤ 0 is exactly removal. A positive quantity keeps the length and snapshots, sets the matching lines and leaves the others |
| CartContext.AddKeepsWellFormed | frontend/src/context/CartContext.js:29-40 | unique ids and quantities ≥ 1 survive `addToCart` with `qty ≥ 1` |
| CartContext.RemoveKeepsWellFormed | frontend/src/context/CartContext.js:43-45 | unique ids and quantities ≥ 1 survive `removeFromCart` |
| CartContext.UpdateKeepsWellFormed | frontend/src/context/CartContext.js:47-57 | unique ids and quantities ≥ 1 survive `updateQuantity` for any quantity |
| CartContext.CartTotal | frontend/src/context/CartContext.js:61-64 | the `reduce` equals the sum of price × quantity over the lines |
| CartContext.CartCount | frontend/src/context/CartContext.js:66 | the `reduce` equals the sum of the quantities |
| CartContext.CartNutritionSummary | frontend/src/context/CartContext.js:68-76 | each of the four fields is the sum of the quantity-scaled nutrient, a line without nutrition counting 0 |
| CartContext.TotalFromIsSum | frontend/src/context/CartContext.js:61-64 | the left fold from any start value is that value plus the sum |
| CartContext.CountFromIsSum | frontend/src/context/CartContext.js:66 | the left fold from any start value is that value plus the sum |
| CartContext.NutritionFromIsSum | frontend/src/context/CartContext.js:68-76 | the four-field left fold is the start totals plus the four sums |
| CartContext.SumConcat | frontend/src/context/CartContext.js:61-66 | a sum over the lines splits over concatenation |
| CartContext.AddRaisesCount | frontend/src/context/CartContext.js:29-40 | with unique ids, adding `qty` raises `cartCount` by exactly `qty` |
| CartContext.AddRaisesTotal | frontend/src/context/CartContext.js:29-40 | with unique ids, adding `qty` raises `cartTotal` by `qty` × the price on the receiving line: the stored snapshot if the product is already in the cart, else the product's |
| CartContext.NutritionExample | frontend/src/context/CartContext.js:68-76 | 2 × 500 kcal plus 1 × 300 kcal sum to 1300 kcal |
| CartContext.CartProvider.constructor | frontend/src/context/CartContext.js:8-9 | an empty cart, not hydrated, nothing saved |
| CartContext.CartProvider.Persist | frontend/src/context/CartContext.js:23-27 | the save effect writes the cart only when hydrated |
| CartContext.CartProvider.Hydrate | frontend/src/context/CartContext.js:11-21 | a non-empty stored value that parses replaces the cart. A missing, empty or unparsable one keeps it. The provider is hydrated in every case, and the hydrated cart is then saved |
| CartContext.CartProvider.AddToCart | frontend/src/context/CartContext.js:29-41 | the cart becomes `AddLine(old, product, qty)`. The default `qty` is 1. It is saved iff hydrated, and the save invariant is kept |
| CartContext.CartProvider.RemoveFromCart | frontend/src/context/CartContext.js:43-45 | the cart becomes the old lines without the id. It is saved iff hydrated |
| CartContext.CartProvider.UpdateQuantityOf | frontend/src/context/CartContext.js:47-57 | the cart becomes `UpdateQuantity(old, id, quantity)`: removal for quantities ≤ 0. It is saved iff hydrated |
| CartContext.CartProvider.ClearCart | frontend/src/context/CartContext.js:59 | the cart becomes empty. The empty cart is saved iff hydrated |
| Recommender.Checklist | backend/ai_engine/recommender.py:143-208 | cardiovascular runs four rules, diabetes and hypertension three each, and any other condition none |
| Recommender.CardiovascularRules | backend/ai_engine/recommender.py:143-166 | compliant iff saturated fat < 2 g, sodium < 400 mg, fibre ≥ 3 g and trans fat = 0 |
| Recommender.DiabetesRules | backend/ai_engine/recommender.py:168-187 | compliant iff sugars < 5 g, fibre ≥ 3 g and carbohydrates ≤ 45 g |
| Recommender.HypertensionRules | backend/ai_engine/recommender.py:189-208 | compliant iff sodium < 200 mg, potassium ≥ 300 mg and saturated fat < 2 g |
| Recommender.EachCheckLandsOnce | backend/ai_engine/recommender.py:143-208 | every rule lands in exactly one of passes and issues. There are no issues iff every rule passed, iff every rule is a pass |
| Recommender.NoNutritionReport | backend/ai_engine/recommender.py:131-137 | no nutrition data gives non-compliant, score 0, the single issue "No nutrition data available" and no passes |
| Recommender.ComplianceScore | backend/ai_engine/recommender.py:210-218 | compliant iff every rule passed. The score lies in [0, 100] and is the truncated percentage of passed rules. It is 100 iff there is a rule and all passed. Passes and issues partition the rules |
| Recommender.Percentage | backend/ai_engine/recommender.py:210-211 | the score is the truncated percentage: `p × total ≤ 100 × passed < (p + 1) × total`, and 0 when nothing was checked. PercentageBounds states its range |
| Recommender.ComplianceOf | backend/ai_engine/recommender.py:123-218 | the report is compliant iff it has no issues. Without nutrition data it is non-compliant with no passes. NoNutritionReport, ComplianceScore and UnknownConditionCompliant state the rest |
| Recommender.PercentageBounds | backend/ai_engine/recommender.py:211 | the truncated percentage of `passed ≤ total` lies in [0, 100] and is 100 iff `total > 0` and all passed |
| Recommender.UnknownConditionCompliant | backend/ai_engine/recommender.py:210-218 | a condition without rules gives compliant, score 0, no issues and no passes |
| Recommender.SaturatedFatMessage | backend/ai_engine/recommender.py:202-208 | 2.5 g of saturated fat on an otherwise passing hypertension check gives exactly the issue "Saturated fat too high (2.5g, max 2g)" |
| Recommender.Apply | backend/ai_engine/recommender.py:145-148 | one rule appends its pass message or its issue message, never both |
| Recommender.MessagesOfThree | backend/ai_engine/recommender.py:168-187 | the messages of a three-rule checklist are those of its rules in order |
| Recommender.MessagesOfFour | backend/ai_engine/recommender.py:143-166 | the messages of a four-rule checklist are those of its rules in order |
| Recommender.RunCardiovascular | backend/ai_engine/recommender.py:143-166 | the four successive appends build the issues and passes of the cardiovascular checklist |
| Recommender.RunDiabetes | backend/ai_engine/recommender.py:168-187 | the three successive appends build the issues and passes of the diabetes checklist |
| Recommender.RunHypertension | backend/ai_engine/recommender.py:189-208 | the three successive appends build the issues and passes of the hypertension checklist |
| Recommender.RunRules | backend/ai_engine/recommender.py:143-208 | the condition's rules run, and an unknown condition appends nothing |
| Recommender.CheckCompliance | backend/ai_engine/recommender.py:123-218 | the method's result is the report `ComplianceOf`, whose properties the lemmas above state |
| Recommender.Prefix | backend/ai_engine/recommender.py:120 | Python's `[:limit]`: `min(limit, n)` elements for `limit ≥ 0`. A negative limit drops that many from the end. Always a prefix |
| Recommender.Candidates | backend/ai_engine/recommender.py:93-116 | the loop's list: every entry is a qualifying product (not the excluded one, with nutrition) with its own score, and there are no more entries than products. CandidatesMembership states the converse |
| Recommender.CandidatesMembership | backend/ai_engine/recommender.py:93-116 | a scored entry is a candidate iff its product is in the input, is not the excluded one, has nutrition, and the entry carries that product's own score |
| Recommender.GetRecommendations | backend/ai_engine/recommender.py:69-120 | an unknown condition gives `[]`. Otherwise the loop's candidates are stably sorted by score, descending, and cut at `limit`. `exclude_id` defaults to none and `limit` to 4 |
| Recommender.RecommendationsSelected | backend/ai_engine/recommender.py:93-120 | every result is a qualifying input product with its own score. Scores never increase. For `limit ≥ 0` the length is `min(limit, #candidates)`. No candidate left out scores above one that is kept |
| Recommender.RecommendationsStable | backend/ai_engine/recommender.py:119-120 | for every score value, the recommended entries with that score are a prefix of the candidates with that score, in input order |
| Recommender.CandidatesKeepRatingOrder | backend/ai_engine/recommender.py:93-116 | when the products arrive by non-increasing rating, so do the candidates |
| Recommender.RecommendationsTieBreakByRating | backend/products/models.py:57-58 | the view's query has no `order_by` (backend/ai_engine/views.py, lines 27-32), so products arrive by non-increasing rating. Then any two recommendations with equal score appear in non-increasing rating |
| OrderModels.StatusRoundTrip | backend/orders/models.py:8-14 | each of the five stored values parses back to its status, and only those five values parse |
| OrderModels.NewOrder | backend/orders/models.py:22-32 | a new order is pending, with total 0 and an empty nutrition summary |
| OrderModels.SubtotalPerUnit | backend/orders/models.py:63-65 | one more unit costs one more unit price. Quantity 1 costs the unit price, and quantity 0 costs nothing |
| OrderModels.OrderId | backend/orders/models.py:43-45 | "LB-" followed by digits, at least 7 characters, ending in the decimal pk |
| OrderModels.OrderIdRoundTrip | backend/orders/models.py:45 | stripping "LB-" and reading the digits gives the pk back |
| OrderModels.OrderIdInjective | backend/orders/models.py:45 | distinct pks give distinct identifiers |
| OrderModels.OrderIdLength | backend/orders/models.py:45 | the length is exactly 7 iff pk < 10000. Larger pks are written in full, not truncated |
| OrderSerializers.ResolveProduct | backend/orders/serializers.py:86-88 | the lookup succeeds iff the entry has a `product_id` naming a product, and returns that product |
| OrderSerializers.Build | backend/orders/serializers.py:85-97 | the items created in entry order: never more than the entries, one per entry when nothing failed, and fewer when an entry failed. BuildSucceeds and BuildFails state the rest |
| OrderSerializers.TotalOf | backend/orders/serializers.py:98 | the running total Σ unit price × quantity is never negative when no price or quantity is. TotalOfConcat, TotalOfPermutation and AppendItem state the rest |
| OrderSerializers.SummaryOf | backend/orders/serializers.py:100-106 | the running nutrition summary stays at zero when no item's product has nutrition. AppendItem states how each item changes it |
| OrderSerializers.BuildSucceeds | backend/orders/serializers.py:85-97 | with no failure there is one item per entry, in entry order, unmerged, with the entry's quantity (default 1) and the product's current price |
| OrderSerializers.BuildFails | backend/orders/serializers.py:85-97 | creation fails iff some entry cannot be resolved. The error is the first such entry's, and the items created are those of the entries before it |
| OrderSerializers.Create | backend/orders/serializers.py:69-111 | the loop creates exactly the items `Build` describes. On success the order is pending and holds the total and summary of those items. On failure it keeps its defaults |
| OrderSerializers.AppendItem | backend/orders/serializers.py:98-106 | every item adds price × quantity to the total. An item without nutrition leaves the summary unchanged. An item with nutrition adds quantity × its calories, protein, fibre and sodium to the four fields |
| OrderSerializers.TotalOfConcat | backend/orders/serializers.py:98 | the total splits over concatenation |
| OrderSerializers.TotalOfSwap | backend/orders/serializers.py:98 | swapping two neighbouring items leaves the total unchanged |
| OrderSerializers.TotalOfPermutation | backend/orders/serializers.py:98 | two item lists with the same items in any order have the same total, so the total does not depend on the order of the entries |
| OrderSerializers.DefaultQuantityExample | backend/orders/serializers.py:89 | two entries without quantity cost the sum of the two prices |
| Dashboard.TopProducts | frontend/src/app/dashboard/page.js:65-67 | the catalog array is reordered in place into the stable descending sort by rating, and its first `min(n, 5)` products are returned |
| Dashboard.TopProductsAreTopRated | frontend/src/app/dashboard/page.js:65-67 | at most 5 products, by non-increasing rating, all from the catalog, and no product left out is rated above one shown |
| Dashboard.CatProducts | frontend/src/app/dashboard/page.js:285-287 | a product is listed iff it is in the catalog and its categories contain the slug |
| Dashboard.CatProductsConcat | frontend/src/app/dashboard/page.js:285-287 | the filter keeps catalog order: filtering a concatenation gives the filtered parts, concatenated |
| Dashboard.RenderDashboard | frontend/src/app/dashboard/page.js:13-67 | the product count is the catalog length. The catalog is sorted in place, the top five come from it, and every panel is computed on the sorted catalog |
| Dashboard.CategoryPanels | frontend/src/app/dashboard/page.js:284-325 | one panel per category, in category order |
| Dashboard.Stats | frontend/src/app/dashboard/page.js:284-292 | one panel: the count is at most the catalog size, there is an average iff the count is non-zero, and the high matches never exceed the count. AverageWithinScores and StatsIgnoreOrder state the rest |
| Dashboard.StatsIgnoreOrder | frontend/src/app/dashboard/page.js:284-292 | two catalogs with the same products give identical panels |
| Dashboard.DashboardStatsMatchOriginal | frontend/src/app/dashboard/page.js:284-292 | the panels computed after the in-place sort equal those of the unsorted catalog |
| Dashboard.SumByPermutation | frontend/src/app/dashboard/page.js:288-292 | a per-product sum does not depend on the catalog order |
| Dashboard.AverageWithinScores | frontend/src/app/dashboard/page.js:288-292 | there is no average iff the category is empty. An average lies within any bounds of its products' scores. The high matches never exceed the count |
| Dashboard.HighMatchIncludesEighty | frontend/src/app/dashboard/page.js:319-325 | a score of exactly 80 counts as a high match |
| ProductCard.TopCondition | frontend/src/components/ProductCard.js:13 | there is a top entry iff there is an entry, and it is one of the entries. TopConditionIsFirstMaximum states which one |
| ProductCard.TopConditionIsFirstMaximum | frontend/src/components/ProductCard.js:13 | there is a top condition iff there is an entry. Its score is the maximum, and it is the earliest entry with that score |
| ProductCard.TopConditionIndex | frontend/src/components/ProductCard.js:13 | the head of the stable sort is the first entry of maximal score |
| ProductCard.Badges | frontend/src/components/ProductCard.js:55 | one badge per slug, in order |
| ProductCard.Chips | frontend/src/components/ProductCard.js:63-65 | one chip per warning, in order |
| ProductCard.RenderCard | frontend/src/components/ProductCard.js:13-66 | the card renders iff the product has a suitability entry. Its match score is some entry's score, and it shows at most three badges. CardContents states the rest |
| ProductCard.CardContents | frontend/src/components/ProductCard.js:55-66 | at most the first three badges, in order. The warnings strip appears iff there are warnings, and then shows all of them in order |
| ProductCard.OnAddClick | frontend/src/components/ProductCard.js:74-75 | the Add button adds one unit of the product to the cart |
| NutritionLabel.Round | frontend/src/components/NutritionLabel.js:33 | `Math.round`: the integer within half of the value, with halves rounding up |
| NutritionLabel.RoundAbove | frontend/src/components/NutritionLabel.js:36-37 | a rounded value exceeds k iff the value is at least k + 0.5 |
| NutritionLabel.DvPercent | frontend/src/components/NutritionLabel.js:31-34 | a percentage exists iff the key has a non-zero daily value, and it is within half of value × 100 / daily value |
| NutritionLabel.Dv | frontend/src/components/NutritionLabel.js:31-34 | the text is empty iff there is no percentage. DvText states its shape |
| NutritionLabel.DvText | frontend/src/components/NutritionLabel.js:31-34 | the text is empty iff there is no percentage. For a non-negative amount it is digits and "%", and the digits read back as the percentage |
| NutritionLabel.DvShown | frontend/src/components/NutritionLabel.js:19-34 | every key of the daily-value table gets a non-empty text |
| NutritionLabel.RenderLabel | frontend/src/components/NutritionLabel.js:2 | there is a label iff there is nutrition data |
| NutritionLabel.SodiumWarningThreshold | frontend/src/components/NutritionLabel.js:36-74 | the sodium row is flagged iff sodium ≥ 356.5 mg, i.e. iff the rounded percentage of 2300 mg exceeds 15 |
| NutritionLabel.SugarsWarningThreshold | frontend/src/components/NutritionLabel.js:37-77 | the sugars row is flagged iff sugars ≥ 10.25 g, i.e. iff the rounded percentage of 50 g exceeds 20 |
| NutritionLabel.LabelBlankPercentages | frontend/src/components/NutritionLabel.js:69-107 | the trans fat and sugars rows have an empty %DV. Sodium uses the 2300 mg reference and potassium the 4700 mg one |
| NutritionLabel.LabelShownPercentages | frontend/src/components/NutritionLabel.js:69-78 | every other row shows a %DV |
| HealthBadge.Badge | frontend/src/components/HealthBadge.js:25-29 | a known slug gets exactly its table entry. An unknown slug gets the slate colour and a label of the same length, with no hyphen, every hyphen a space and every other character kept |
| IngredientWarning.WarningChip | frontend/src/components/IngredientWarning.js:1-24 | a text warning is the amber chip with the text verbatim. A typed warning shows its message, with its type's icon and colour, or the allergen ones for an unknown type |
| Storefront.Lookup | frontend/src/app/dashboard/page.js:290 | `suitability[slug] \|\| 0`: the first entry's score under the key, or 0 when there is none |
| Text.Digits | backend/orders/models.py:45 | a non-empty digit string, with no leading zero unless the number is 0 |
| Text.DigitsRoundTrip | backend/orders/models.py:45 | reading the rendered digits gives the number back |
| Text.ZeroPadded | backend/orders/models.py:45 | `{:04d}`: the length is max(width, digit count), all digits, ending in the number's digits |
| Text.ZeroPaddedRoundTrip | backend/orders/models.py:45 | reading a zero-padded number gives the number back |
| Text.DigitsLength | backend/orders/models.py:45 | a number has at most k digits iff it is below 10^k |
| Text.TenthsToString | backend/ai_engine/recommender.py:148 | a non-negative one-decimal amount renders as its whole part, ".", and its tenths digit. A negative one gets a leading "-" before the same rendering of its magnitude |
| Text.ReplaceChar | frontend/src/components/HealthBadge.js:27 | the same length, every `from` replaced by `to`, and every other character kept |
| Ranking.SortDesc | backend/ai_engine/recommender.py:119 | the sort is a permutation of its input |
| Ranking.SortDescSorted | backend/ai_engine/recommender.py:119 | the sort's keys never increase |
| Ranking.SortDescStable | backend/ai_engine/recommender.py:119 | for every key value, the elements with that key appear in input order |
| Ranking.SortDescHeadIsMax | frontend/src/components/ProductCard.js:13 | the first element after sorting has the largest key |
| Ranking.SortedPrefix | frontend/src/app/dashboard/page.js:65-67 | a prefix of a sorted sequence is sorted, and nothing after it outranks anything in it |
| Ranking.SortDescPrefixMembers | frontend/src/app/dashboard/page.js:65-67 | everything in a prefix of the sorted sequence comes from the input |
| Ranking.SortDescBreaksTies | backend/ai_engine/recommender.py:119 | a stable sort of a sequence already ordered by a second key leaves any two elements with equal sort key in non-increasing second key |
| Ranking.WithKeyOfPrefix | backend/ai_engine/recommender.py:120 | cutting a sequence splits its equal-key elements at the same place |

## Left out

- Browser storage and JSON are not modelled. The stored slot is an optional string, and parsing is a function parameter returning an option. The serialised format is not modelled, and the ghost `saves` log stands for `localStorage.setItem`.
- React's scheduling and the provider/context wiring are not modelled. An updater's result is stored at once, and the save effect runs after each change. Batching of several updates into one render is not modelled.
- The recommendation score is not modelled. The normalised nutrition vector, the condition weight table and the 0.4/0.6 blend are floating point over numpy. The score is a function parameter, and the model proves only the selection and ordering around it.
- Recommender.Percentage: the score is computed as `100 · passes div total` in integers, not Python's float `int(passes / total * 100)`. For the totals that occur (3 and 4) both give 0, 33, 66, 100 and 0, 25, 50, 75, 100.
- Floating point is not modelled:
  - The order summary's protein and fibre are summed in exact tenths, where the source adds Python floats.
  - The browser label computes on exact rationals, where the source uses doubles.
- Database access is not modelled. The product table is a map, and the order row's pk is a parameter. The created items are returned as a log, and the whole create runs without a transaction, so a failure leaves the items created before it.
- Database constraints are not modelled. These are the positive-quantity check on order items and the decimal field widths, so a negative quantity is accepted by the model.
- Lookups by inherited object keys (`badgeConfig["constructor"]` and the like) are not modelled. Table lookups are map lookups.
- How amounts are formatted on the label (`${value}g`), `toFixed` on prices and averages, and the markup and styling are not modelled.
- The dashboard's mock figures (orders, revenue, compliance rate, recent orders, condition shares) are static data and are not modelled.
- `frontend/src/data/products.js` (the frontend's own product list and `getRecommendedProducts`) is not part of this model.
- `backend/dashboard/views.py`, the REST views, URL routing and admin are not part of this model.
