# Foodii cart store, menu filter and cart badge in Dafny

This project models the three pieces of client-side logic in the Foodii
food-ordering storefront that have rules of their own:

- **The cart store** (`lib/store/cart.ts`). It keeps a list of lines, each
  with `food_id`, `name`, `price`, `quantity` and `subtotal`, plus a running
  `totalAmount` and a `deliveryAddress`. Its operations are `addItem`,
  `removeItem`, `updateQuantity`, `clearCart` and `getTotal`. Module `Cart`
  holds each `set` call's next-state computation as a pure function over a
  `CartState` value. Module `Store` holds the store object as a class,
  `CartStore`, whose three fields each method overwrites. The cart page's
  reconciliation, which overwrites `items` with `setState`, is modelled as
  `ReplaceItems`.
- **The menu filter** (`app/food/page.tsx`). Module `FoodFilter` models the
  case-insensitive search over name or description, the category match that
  "All" switches off, the inclusive price range, and the slider's default
  maximum, `max(prices…, 20)`.
- **The cart badge** (`components/cart-button.tsx`). Module `CartBadge`
  models the `reduce` that sums line quantities and the rule that the badge
  is shown only when that sum is positive.

Module `Seqs` gives the JavaScript array methods used here (`find`, `map`,
`filter`, `reduce`) as recursive functions, together with general lemmas
about them. Money is an exact `real` and quantities are `int`.

The invariant studied in `Cart.Invariant` has three parts: ids are unique,
`subtotal == quantity * price` holds on every line, and
`totalAmount == Σ subtotal`. The store never recomputes the total from the
lines. It adjusts the total step by step:

- `addItem` adds the price passed in by the caller.
- The touched line's subtotal, however, is recomputed from the **stored**
  price.

So `addItem` preserves the invariant exactly when those two prices agree
(`Cart.AddItemInvariant`, an if-and-only-if). `Cart.AddItemPriceChangeDrifts`
gives a concrete drift: two adds at 10 and 12 give a total of 22 but lines
summing to 20. `removeItem` and `updateQuantity` always preserve the
invariant. Reconciliation preserves it only by coincidence, because the total
is left untouched (`Cart.ReplaceItemsInvariant`, `Cart.ReplaceItemsDrifts`).

The model follows the code as written:

- The code validates nothing. It raises no error for a negative price, an
  empty id or a non-positive quantity, and `updateQuantity` stores any
  quantity.
- An absent id is a silent no-op for `removeItem` and for `updateQuantity`.
  There is no not-found error.
- The total is adjusted incrementally. It is never recomputed as a sum.
- Reconciliation does not recompute the total.

## Model

| member | source | states |
|---|---|---|
| `Seqs.Find` | lib/store/cart.ts:32 | `find`: none exactly when no element satisfies the callback; otherwise the first match, an element at some position that satisfies the callback while no earlier element does |
| `Seqs.Map` | lib/store/cart.ts:37-41 | `map`: same length, and element i of the result is the callback applied to element i |
| `Seqs.Filter` | lib/store/cart.ts:60 | `filter`: every kept element is from the input and passes; every passing input element is kept |
| `Seqs.FilterIsSubsequence` | app/food/page.tsx:65-77 | a filtered list is a subsequence of its input: the original order is kept |
| `Seqs.FilterIdempotent` | app/food/page.tsx:65-77 | filtering twice with one callback is the same as filtering once |
| `Seqs.FoldLeft` | components/cart-button.tsx:9 | `reduce` with an initial value returns that value for an empty list |
| `Seqs.FoldLeftSnoc` | components/cart-button.tsx:9 | `reduce` runs from the left: folding a list with one more element at the end applies the callback to the fold of the rest and that element |
| `Cart.AddItem` | lib/store/cart.ts:30-51 | in both branches the total grows by the argument's price, and the delivery address is kept |
| `Cart.RemoveItem` | lib/store/cart.ts:53-63 | no line with the id remains, and the delivery address is kept |
| `Cart.UpdateQuantity` | lib/store/cart.ts:65-77 | lines are never added or dropped, and the delivery address is kept |
| `Cart.ClearCart` | lib/store/cart.ts:79-84 | whatever the prior state, the result has no lines, a zero total and no address |
| `Cart.ReplaceItems` | app/cart/page.tsx:37-50 | the lines become exactly the given lines, while total and delivery address stay as they were |
| `Cart.GetTotal` | lib/store/cart.ts:86-88 | `getTotal` returns the stored total; in a consistent cart that is the sum of the subtotals |
| `Cart.AddItemExisting` | lib/store/cart.ts:32-43 | for an id already present (unique ids), only that line changes: quantity +1, subtotal (q+1)·stored price; other lines and order are kept |
| `Cart.AddItemNew` | lib/store/cart.ts:46-49 | for a new id, exactly one line is appended at the end, with quantity 1 and subtotal = price |
| `Cart.AddItemKeepsIdsUnique` | lib/store/cart.ts:32-49 | `addItem` never creates a second line for an id |
| `Cart.AddItemKeepsLinesConsistent` | lib/store/cart.ts:37-48 | `addItem` keeps subtotal = quantity·price on every line |
| `Cart.AddItemInvariant` | lib/store/cart.ts:37-49 | from a consistent cart, the invariant survives `addItem` if and only if every stored line for the id has the argument's price |
| `Cart.AddItemPriceChangeDrifts` | lib/store/cart.ts:39-42 | adding one id at 10 and then at 12 gives total 22 against a line sum of 20 |
| `Cart.AddItemOnLastLine` | lib/store/cart.ts:32-43 | when the item's line sits last with quantity n after lines with other ids, one more add leaves the other lines and raises that line to quantity n+1, subtotal (n+1)·price |
| `Cart.AddFirst` | lib/store/cart.ts:46-49 | the first add of an id new to the cart gives the state "after one add": one last line with quantity 1, the total grown by the price |
| `Cart.AddOnRepeatedLine` | lib/store/cart.ts:30-51 | from the state after k adds of a new item, one more add gives the state after k+1 adds: quantity k+1, subtotal (k+1)·price, total grown by (k+1)·price |
| `Cart.AfterAddsInvariant` | lib/store/cart.ts:30-51 | the state after k adds of an item new to a consistent cart is consistent |
| `Cart.RemoveItemAbsent` | lib/store/cart.ts:55-56 | removing an absent id returns the state unchanged |
| `Cart.RemoveItemIdempotent` | lib/store/cart.ts:53-63 | removing an id twice is the same as removing it once |
| `Cart.RemoveItemKeepsOthers` | lib/store/cart.ts:60 | the remaining lines are a subsequence of the old ones, and every line with another id survives |
| `Cart.RemoveItemPresent` | lib/store/cart.ts:55-62 | for a present id (unique ids), exactly its line is deleted and the total drops by that line's subtotal |
| `Cart.RemoveItemInvariant` | lib/store/cart.ts:53-63 | `removeItem` preserves the invariant |
| `Cart.UpdateQuantityAbsent` | lib/store/cart.ts:67-68 | updating an absent id returns the state unchanged |
| `Cart.UpdateQuantityPresent` | lib/store/cart.ts:67-76 | for a present id (unique ids), only its line changes, to the given quantity (even when not positive) and quantity·price; the total changes by −old subtotal + quantity·price |
| `Cart.UpdateQuantityInvariant` | lib/store/cart.ts:65-77 | `updateQuantity` preserves the invariant for every quantity |
| `Cart.ClearCartInvariant` | lib/store/cart.ts:79-84 | the cleared cart satisfies the invariant |
| `Cart.ReplaceItemsInvariant` | app/cart/page.tsx:37-50 | after reconciliation the invariant holds exactly when the new lines are unique and consistent and happen to sum to the old total |
| `Cart.ReplaceItemsDrifts` | app/cart/page.tsx:37-50 | reconciling an empty cart with one 10.0 line leaves total 0 against a sum of 10 |
| `Cart.ScenarioRepeatedAdd` | lib/store/cart.ts:30-51 | two adds of one item at 10 give one line with quantity 2, subtotal 20 and total 20 |
| `Cart.ScenarioAddAddRemove` | lib/store/cart.ts:30-63 | after adding p1 at 10 and p2 at 5, then removing p1, only p2 remains, with total 5 |
| `Store.CartStore.Commit` | lib/store/cart.ts:31 | the store's `set`: afterwards the three fields are exactly the next state |
| `Store.CartStore.constructor` | lib/store/cart.ts:26-28 | the store starts with no lines, zero total and no address, which is consistent |
| `Store.CartStore.AddItem` | lib/store/cart.ts:30-51 | the new fields are `Cart.AddItem` of the old; a consistent store stays consistent if and only if the prices agree |
| `Store.CartStore.RemoveItem` | lib/store/cart.ts:53-63 | the new fields are `Cart.RemoveItem` of the old, and consistency is preserved |
| `Store.CartStore.UpdateQuantity` | lib/store/cart.ts:65-77 | the new fields are `Cart.UpdateQuantity` of the old, and consistency is preserved |
| `Store.CartStore.ClearCart` | lib/store/cart.ts:79-84 | the fields become empty lines, zero total and no address, which is consistent |
| `Store.CartStore.GetTotal` | lib/store/cart.ts:86-88 | returns the stored total without changing it; in a consistent store this is the sum of the subtotals |
| `Store.CartStore.ReplaceItems` | app/cart/page.tsx:37-50 | the new fields are `Cart.ReplaceItems` of the old |
| `Store.PizzaSaladScenario` | lib/store/cart.ts:30-63 | from the store's contracts alone: after adding pizza 10 and salad 5, then removing the pizza, the total read is 5 |
| `FoodFilter.ApplyFilters` | app/food/page.tsx:60-80 | every shown food lies in the inclusive price range; when the category is not "All", it has exactly that category |
| `FoodFilter.LowerChar` | app/food/page.tsx:66-67 | an upper-case ASCII letter maps to its lower-case letter, every other character is kept, and no letter A–Z comes out |
| `FoodFilter.Lower` | app/food/page.tsx:66-67 | `toLowerCase` keeps the length, lower-cases each character in place, and leaves no letter A–Z |
| `FoodFilter.Includes` | app/food/page.tsx:66-67 | `includes` accepts the empty query on any text, and never a query longer than the text |
| `FoodFilter.MatchesSearch` | app/food/page.tsx:65-68 | the empty query matches every food; otherwise a food matches exactly when the lower-cased query occurs at some position of its lower-cased name or description |
| `FoodFilter.IncludesIffOccurs` | app/food/page.tsx:66-67 | `includes` holds exactly when the query occurs at some position of the text |
| `FoodFilter.ApplyFiltersIsSelection` | app/food/page.tsx:61-77 | the three conditional steps together equal one filter by the combined criterion |
| `FoodFilter.ApplyFiltersMembership` | app/food/page.tsx:60-79 | a food is shown if and only if it was fetched and satisfies all three conditions |
| `FoodFilter.ApplyFiltersKeepsOrder` | app/food/page.tsx:61-79 | the shown foods are a subsequence of the fetched ones |
| `FoodFilter.ApplyFiltersIdempotent` | app/food/page.tsx:60-79 | filtering the filtered list again with the same settings gives the same list |
| `FoodFilter.SearchKeepsOccurrences` | app/food/page.tsx:64-69 | with "All" and a range that admits the food, a non-empty query shows that food exactly when it was fetched and its lower-cased name or description contains the lower-cased query |
| `FoodFilter.SearchAloneFilters` | app/food/page.tsx:61-77 | with a non-empty query, "All" and a range covering every price, the shown list is exactly the search filter's result, in order |
| `FoodFilter.NoCriteriaKeepsAll` | app/food/page.tsx:61-77 | with an empty query, "All", and a range covering every price, nothing is filtered out |
| `FoodFilter.MaxOf` | app/food/page.tsx:52 | `Math.max(...values, floor)` is at least the floor and every value, and equals the floor or one of the values |
| `FoodFilter.InitialMaxPrice` | app/food/page.tsx:51-53 | the slider's default maximum is at least 20 and at least every price, and is 20 or some food's price |
| `FoodFilter.InitialViewShowsAll` | app/food/page.tsx:51-77 | right after loading (empty query, "All", range [0, default max]), every food with a non-negative price is shown |
| `CartBadge.FoldIsQuantitySum` | components/cart-button.tsx:9 | the `reduce` from any start value equals that value plus the sum of the quantities |
| `CartBadge.TotalItems` | components/cart-button.tsx:9 | the badge count equals the sum of the `quantity` fields, and is 0 for an empty list |
| `CartBadge.ShowsBadge` | components/cart-button.tsx:14 | the badge is shown exactly when the sum of the quantities is positive, so never for an empty cart |
| `CartBadge.TotalItemsNonNegative` | components/cart-button.tsx:9 | with non-negative quantities, the badge count is non-negative |
| `CartBadge.AddItemRaisesCount` | components/cart-button.tsx:9 | with unique ids, one `addItem` raises the badge count by exactly 1 |
| `CartBadge.RemoveItemLowersCount` | components/cart-button.tsx:9 | with unique ids, removing a present line lowers the count by that line's quantity |
| `CartBadge.AddItemShowsBadge` | components/cart-button.tsx:9-14 | after an add to a cart with non-negative quantities, the badge is shown |
| `CartBadge.ClearCartHidesBadge` | components/cart-button.tsx:14 | a cleared cart shows no badge |

## Left out

- Persistence: the `persist` middleware and its storage key "cart-storage" (lib/store/cart.ts:2, 90-92) are browser storage. The store is modelled as plain in-memory state.
- Subscriptions and re-rendering of components on a store change are UI framework behaviour.
- Floating point: prices are exact reals, so rounding of JavaScript numbers is not modelled. `toFixed` formatting is left out.
- Quantities are integers. JavaScript would also accept a fractional quantity in `updateQuantity`.
- FoodFilter.LowerChar, FoodFilter.Lower: map only the ASCII letters A–Z. JavaScript's `toLowerCase` lower-cases every Unicode upper-case letter, so for "CAFÉ" the model keeps the `É`.
- Fetching foods through the backend client (app/food/page.tsx:40-58) is a network call. It includes the `is_available` condition, which runs in the backend query; `FoodFilter.InitialMaxPrice` models only the computation on the fetched list. The initial `setFilteredFoods(data)` is superseded by the filter effect.
- The price range is a pair (low, high). The slider's array value and its UI are not modelled.
- The network flows of the cart page and the add-to-cart button (fetch, insert, delete, toasts) call a hosted backend. Two defects there are noted and not modelled:
  - components/add-to-cart-button.tsx:43-47 passes `id` where the store keys lines on `food_id`.
  - app/cart/page.tsx:40-47 builds lines keyed by `id` and without `subtotal`, so `removeItem` (which matches `food_id`) cannot find them.
- Cart.AddOnRepeatedLine: states the step from k to k+1 adds of one item. The count after n successive adds follows by induction on n and is not stated as a single lemma.
- Cart.ReplaceItems: takes ready-made cart lines. It does not model the row-to-line mapping of app/cart/page.tsx:40-47, whose lines lack `food_id` and `subtotal`.
- Authentication, orders, route guarding and the static pages contain no cart or filter logic. They are not part of this model.
