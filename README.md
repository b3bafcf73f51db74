# Food Fusion storefront: cart and order arithmetic in Dafny

This project models the cart and order logic of a restaurant storefront with a point-of-sale screen, and proves properties of that model. It covers these parts:

- **Point of sale.** The register's current order holds lines `{id, name, price, quantity, category}`. Adding a menu item, stepping a quantity, removing a line, the order total, payment, and the case-insensitive menu search are modelled (`PointOfSale`).
- **Product dialog.** The quantity counter is bounded by stock. The dialog keeps one chosen option per customization group. The displayed price adds the amount of each option's `(+$N)` / `(+$N.NN)` price marker to the unit price. The add-to-cart button builds the order details and logs them, and does nothing for an out-of-stock product; it writes to no cart (`ProductModal`, with the marker parse in `PriceLabel`).
- **Menu grid.** The category filter, with its "All" wildcard (`ProductGrid`).
- **Persisted cart hook.** The remote `cart_items` table is shared by all users. The hook keeps a local copy of the signed-in user's rows joined with product prices, refetches it after each write except clearing, which empties the local copy, and exposes `total` and `itemCount` (`CartHook`).
- **Checkout page.** The final total is the cart total plus a KES 150 delivery fee. Submitting writes an `orders` row, then one `order_items` row per cart line, then clears the cart (`Checkout`).
- **Cart side panel.** Over its fixed sample cart, it shows a subtotal, a $4.99 delivery fee, an 8% tax and a badge (`CartSummary`).
- **Sample data seeder.** It inserts the Kenyan sample categories that are missing and maps category names to ids. It inserts the sample products when fewer than five exist, keeping only those whose category resolved (`Seeding`).

`Sequences` holds the one generic `Filter` (JavaScript's `Array.prototype.filter`) that the point of sale, the menu grid, the cart hook, the checkout page and the seeder share; `Sequences` also holds the `Option` type.

The source sums price × quantity in three separate `reduce` calls over three row shapes: the register's order lines (`PointOfSale.Total`), the hook's joined cart rows (`CartHook.CartTotal`) and the side panel's sample lines (`CartSummary.Subtotal`). Each module keeps its own sum over its own record type. `Checkout.ItemsTotal` is not a source computation: it is the value of the written `order_items` rows, against which the order's recorded total is checked.

Money is exact: every price is an integer number of cents. The sidebar tax is a Dafny `real`.

The remote store's answers are method parameters: a write is accepted or refused, a read succeeds or fails, and a call may throw. The id the store assigns to a new row is also a parameter.

Stateful parts are classes whose methods update fields:
- `PointOfSale.Register`
- `ProductModal.ProductDialog`
- `CartHook.CartSession`
- `Checkout.OrderTables`
- `Seeding.StoreTables`

Each method is proved against a pure specification function, and the properties are proved about those functions.

## Behaviour as written

The code implements a looser cart than one might expect; the model follows the code:

- **No stock clamp.** Neither the cart hook's `updateQuantity` nor `addToCart` clamps a quantity to stock (`src/hooks/useCart.ts:61-68`, `:87-91`). Only the product dialog's counter is bounded by stock.
- **`addToCart` writes the quantity it is given.** It does not increment an existing line (`src/hooks/useCart.ts:63-68`).
- **Checkout charges no tax and decrements no stock.** It adds only the delivery fee (`src/pages/CheckoutPage.tsx:30-31`).
- **Checkout is not atomic.** When the `order_items` insert fails, the `orders` row already written stays in place (`src/pages/CheckoutPage.tsx:41-68`).
- **Point of sale, minus at quantity 1:** the line is kept at quantity 1. The step keeps a line whose new quantity would be 0 or less, so the filter that follows never removes anything (`src/pages/POSSystem.tsx:55-61`).
- **Signed markers are not honoured.** The option price marker must read `(+$`, so a label such as "No Protein (-$3)" adds nothing (`src/components/ProductModal.tsx:42`).

## Model

| member | source | states |
|---|---|---|
| Sequences.Filter | src/components/ProductGrid.tsx:100 | the result keeps only elements that pass the test, keeps every element of the input that passes, and is no longer than the input |
| Sequences.FilterMultiset | src/components/ProductGrid.tsx:100 | the result holds each passing element exactly as often as the input does, and no failing one |
| PointOfSale.Bump | src/pages/POSSystem.tsx:41-47 | the line with the item's id gets quantity + 1; every other line is unchanged; the length is kept |
| PointOfSale.Step | src/pages/POSSystem.tsx:55-60 | the line with the id takes quantity + change if that is positive and is otherwise left as it was; other lines are unchanged |
| PointOfSale.Lower | src/pages/POSSystem.tsx:33-35 | lower-casing keeps the length and folds each ASCII capital to its small letter |
| PointOfSale.AddExisting | src/pages/POSSystem.tsx:38-47 | adding an id already in the order increments exactly that line by 1; the length and all other lines are unchanged |
| PointOfSale.AddNew | src/pages/POSSystem.tsx:48-50 | adding an id not in the order appends one line with quantity 1 after the unchanged old lines |
| PointOfSale.AddPreservesWellFormed | src/pages/POSSystem.tsx:37-51 | adding keeps ids distinct and every quantity at least 1 |
| PointOfSale.AddTotal | src/pages/POSSystem.tsx:37-51 | adding raises the order total by exactly one unit price |
| PointOfSale.BumpTotal | src/pages/POSSystem.tsx:41-47 | incrementing the line with the id raises the total by that line's price |
| PointOfSale.BumpAbsent | src/pages/POSSystem.tsx:41-47 | the increment changes nothing when no line has the id |
| PointOfSale.UpdateKeepsEveryLine | src/pages/POSSystem.tsx:53-63 | on an order whose quantities are positive, the trailing filter removes nothing |
| PointOfSale.UpdateQuantityEffect | src/pages/POSSystem.tsx:53-63 | the line with the id becomes that same line with quantity old + change when that is positive and is unchanged otherwise (minus at 1 keeps the line); every other line is unchanged and the length is kept |
| PointOfSale.UpdatePreservesWellFormed | src/pages/POSSystem.tsx:53-63 | updating keeps ids distinct and quantities at least 1 |
| PointOfSale.RemovePresent | src/pages/POSSystem.tsx:65-67 | removing an id present at position k yields the order without exactly that line, the rest in order |
| PointOfSale.RemoveAbsent | src/pages/POSSystem.tsx:65-67 | removing an absent id leaves the order unchanged |
| PointOfSale.RemovePreservesWellFormed | src/pages/POSSystem.tsx:65-67 | removing keeps ids distinct and quantities at least 1 |
| PointOfSale.TotalConcat | src/pages/POSSystem.tsx:69-71 | the total of two orders placed end to end is the sum of their totals |
| PointOfSale.TotalCons | src/pages/POSSystem.tsx:69-71 | the total is the first line's price × quantity plus the total of the rest |
| PointOfSale.EmptySearchListsAll | src/pages/POSSystem.tsx:33-35 | an empty search term lists every menu item |
| PointOfSale.SearchResult | src/pages/POSSystem.tsx:33-35 | the search result is an order-preserving subsequence of the menu; it holds every item whose lower-cased name contains the lower-cased term, exactly as often as the menu does, and no other item |
| PointOfSale.LowerIdempotent | src/pages/POSSystem.tsx:33-35 | lower-casing twice is lower-casing once |
| PointOfSale.SearchIgnoresTermCase | src/pages/POSSystem.tsx:33-35 | a term and its lower-cased form find the same items |
| PointOfSale.Register.constructor | src/pages/POSSystem.tsx:20 | the order starts empty |
| PointOfSale.Register.AddToOrder | src/pages/POSSystem.tsx:37-51 | the new order is the add of the old one, and distinct ids and positive quantities are kept |
| PointOfSale.Register.UpdateQuantity | src/pages/POSSystem.tsx:53-63 | the new order is the stepped-and-filtered old one, and the invariant is kept |
| PointOfSale.Register.RemoveFromOrder | src/pages/POSSystem.tsx:65-67 | the new order is the old one without the id's line, and the invariant is kept |
| PointOfSale.Register.ProcessPayment | src/pages/POSSystem.tsx:73-93 | an empty order is refused and left untouched; a non-empty order is charged its total and cleared |
| PriceLabel.DigitRun | src/components/ProductModal.tsx:42 | the digit run starting at a position is maximal: all digits, followed by a non-digit or the end |
| PriceLabel.NatDigits | src/components/ProductModal.tsx:42-45 | the decimal rendering of an amount is a non-empty run of digits |
| PriceLabel.NatDigitsValue | src/components/ProductModal.tsx:42-45 | reading back the decimal rendering of an amount gives the amount |
| PriceLabel.MarkerRoundTrip | src/components/ProductModal.tsx:41-45 | a label whose text carries no '+' before a "(+$N)" or "(+$N.NN)" marker for an amount contributes exactly that amount in cents |
| PriceLabel.DeltaFromFirstMarker | src/components/ProductModal.tsx:41-44 | scanning from a position stops at the first marker: when none starts before `j`, a marker at `j` gives its amount and reaching the end gives 0 |
| PriceLabel.OptionDeltaMeaning | src/components/ProductModal.tsx:41-44 | an option text contributes the amount of its first `(+$…)` marker wherever it sits, and 0 when it has none |
| PriceLabel.NoPlusNoDelta | src/components/ProductModal.tsx:42-45 | a label without '+' has no marker and contributes nothing (a corollary of `OptionDeltaMeaning`) |
| PriceLabel.NegativeMarkerIgnored | src/components/ProductModal.tsx:42 | example: "No Protein (-$3)" contributes 0 |
| PriceLabel.SampleMarkers | src/components/ProductModal.tsx:42-45 | example: "Large (+$6)" contributes 600 cents and "Chicken (+$2.50)" 250 cents |
| PriceLabel.PlusInNameExample | src/components/ProductModal.tsx:41-44 | example: "A+B (+$2)" contributes 200 cents, a '+' in the name does not hide the marker |
| ProductModal.Values | src/components/ProductModal.tsx:41 | the values of the selection, one per group, in insertion order |
| ProductModal.OutOfStockIsLowStock | src/components/ProductModal.tsx:36-37 | an out-of-stock product is always flagged low on stock |
| ProductModal.SelectChoosesOption | src/components/ProductModal.tsx:50-55 | after selecting, the group holds the selected option |
| ProductModal.SelectKeepsOtherGroups | src/components/ProductModal.tsx:50-55 | selecting leaves every other group's choice unchanged |
| ProductModal.SelectGroups | src/components/ProductModal.tsx:50-55 | selecting adds at most the selected group to the groups present |
| ProductModal.SelectKeepsGroupsDistinct | src/components/ProductModal.tsx:50-55 | selecting never yields two entries for one group |
| ProductModal.NoOptionsPrice | src/components/ProductModal.tsx:39-48 | with nothing selected the price is unit price × quantity |
| ProductModal.DeltaSumNonNegative | src/components/ProductModal.tsx:39-48 | the option markers never lower the price |
| ProductModal.ProductDialog.constructor | src/components/ProductModal.tsx:32-33 | quantity starts at 1 with no option selected |
| ProductModal.ProductDialog.IncreaseQuantity | src/components/ProductModal.tsx:77-81 | the quantity goes up by 1 only while it is below the stock, so it stays within 1..max(1, stock) |
| ProductModal.ProductDialog.DecreaseQuantity | src/components/ProductModal.tsx:83-87 | the quantity goes down by 1 only while it is above 1, so it never drops below 1 |
| ProductModal.ProductDialog.HandleOptionSelect | src/components/ProductModal.tsx:50-55 | the group now holds the option and every other group keeps its choice |
| ProductModal.ProductDialog.CalculatePrice | src/components/ProductModal.tsx:39-48 | the price is (unit price + the sum of the chosen options' markers) × quantity |
| ProductModal.ProductDialog.HandleAddToCart | src/components/ProductModal.tsx:57-75 | no order details are built exactly when the product is out of stock; otherwise the logged details carry the name, quantity, selection and computed price |
| ProductGrid.AllListsEverything | src/components/ProductGrid.tsx:98-99 | "All" returns the product list unchanged |
| ProductGrid.CategoryFilter | src/components/ProductGrid.tsx:100 | another category yields an order-preserving subsequence holding every product of that category, exactly as often as the catalogue does, and no other product |
| ProductGrid.UnknownCategoryIsEmpty | src/components/ProductGrid.tsx:100 | a category no product carries yields an empty grid |
| ProductGrid.NegativeOptionAddsNothing | src/components/ProductGrid.tsx:31 | example: the salad's "No Protein (-$3)" option adds nothing to the price |
| CartHook.WithQuantity | src/hooks/useCart.ts:87-91 | only the row with both the item id and the user's id takes the new quantity; every other row is unchanged |
| CartHook.TotalConcat | src/hooks/useCart.ts:133-135 | the total of two item lists placed end to end is the sum of their totals |
| CartHook.ItemCountAtLeastLines | src/hooks/useCart.ts:145 | with every quantity at least 1 the item count is at least the number of lines |
| CartHook.ItemCountCountsUnits | src/hooks/useCart.ts:145 | example: one line of quantity 3 counts as 3 items |
| CartHook.ItemsOfAppend | src/hooks/useCart.ts:36-49 | a new row appears as one more line at the end of its owner's fetched cart and nowhere else |
| CartHook.AddedRowTotal | src/hooks/useCart.ts:57-76 | after a successful add and fetch, the user's total grows by exactly price × quantity |
| CartHook.WithQuantityOtherUsers | src/hooks/useCart.ts:87-91 | setting a quantity leaves every other user's cart unchanged |
| CartHook.WithoutRowOtherUsers | src/hooks/useCart.ts:104-108 | deleting the targeted row leaves every other user's cart unchanged |
| CartHook.WithoutUserCarts | src/hooks/useCart.ts:121-124 | clearing empties the user's fetched cart and leaves every other user's unchanged |
| CartHook.FilterKeepsDistinctIds | src/hooks/useCart.ts:104-108 | deleting rows keeps row ids distinct |
| CartHook.CartSession.constructor | src/hooks/useCart.ts:19 | the local cart starts empty with no user, over the given table and prices |
| CartHook.CartSession.FetchCartItems | src/hooks/useCart.ts:31-55 | with a user and a successful read the local cart is the user's rows joined with prices; otherwise it is unchanged |
| CartHook.CartSession.SetUser | src/hooks/useCart.ts:23-29 | signing out empties the local cart; signing in fetches the new user's rows |
| CartHook.CartSession.AddToCart | src/hooks/useCart.ts:57-76 | no-op without a user; a refused write is rethrown and changes nothing; otherwise one row holding exactly the given quantity is added and the cart refetched |
| CartHook.CartSession.UpdateQuantity | src/hooks/useCart.ts:78-98 | no-op without a user; a quantity of 0 or less deletes the targeted row; otherwise only the targeted row takes the quantity |
| CartHook.CartSession.RemoveFromCart | src/hooks/useCart.ts:100-115 | no-op without a user or on a refused delete; otherwise exactly the rows matching both ids are deleted and the cart refetched |
| CartHook.CartSession.ClearCart | src/hooks/useCart.ts:117-131 | a successful delete removes all of the user's rows and empties the local cart; a refused one changes nothing |
| Checkout.OrderItems | src/pages/CheckoutPage.tsx:56-62 | one order item per cart line, in cart order, each with the order id and the line's product, quantity, price and customizations |
| Checkout.OrderItemsTotal | src/pages/CheckoutPage.tsx:56-62 | the written order items are worth exactly the cart total |
| Checkout.OrderTotalIsLinesPlusFee | src/pages/CheckoutPage.tsx:30-31 | the order's recorded total is its items' value plus the 150 fee, with no tax |
| Checkout.PageViewShowsTotals | src/pages/CheckoutPage.tsx:90-103 | the empty-cart view is shown exactly when the cart is empty; otherwise the total shown is subtotal + 150 |
| Checkout.HandleSubmit | src/pages/CheckoutPage.tsx:33-88 | runs only on the checkout form, which is shown only for a non-empty cart; no-op without a user; a refused order insert changes nothing; a refused items insert keeps the order row and the cart; only when both inserts succeed are the items written (at least one row) and the cart cleared |
| CartSummary.SubtotalIgnoresCustomizations | src/components/CartSidebar.tsx:52 | lines that agree on price and quantity give the same subtotal whatever their customization labels |
| CartSummary.SubtotalConcat | src/components/CartSidebar.tsx:52 | the subtotal of two carts placed end to end is the sum of their subtotals |
| CartSummary.TotalBreakdown | src/components/CartSidebar.tsx:53-55 | total = 1.08 × subtotal + 4.99, so it is at least subtotal + fee for a non-negative subtotal |
| CartSummary.SubtotalNonNegative | src/components/CartSidebar.tsx:52 | non-negative prices and quantities give a non-negative subtotal |
| CartSummary.BadgeAtMostUnits | src/components/CartSidebar.tsx:63 | the badge counts lines, which is at most the number of units |
| CartSummary.SampleSummary | src/components/CartSidebar.tsx:25-55 | the sample cart: 3 lines, 4 units, subtotal 70.96, tax 5.6768, total 81.6268 |
| Seeding.Names | src/utils/seedData.ts:11 | the names of the categories, one per row in order |
| Seeding.CategoryRows | src/utils/seedData.ts:23 | one new category row per inserted category, with consecutive fresh ids |
| Seeding.ProductRows | src/utils/seedData.ts:43-64 | one new product row per inserted product, with a fresh id and its category's resolved id |
| Seeding.ProductsToAddResolve | src/utils/seedData.ts:61 | every product kept for insertion has a resolved category |
| Seeding.CategoryMapMeaning | src/utils/seedData.ts:31-34 | the map's keys are exactly the categories' names, and each maps to the id of the last row with that name |
| Seeding.LaterDuplicateWins | src/utils/seedData.ts:31-34 | example: a later duplicate name overwrites the earlier id (the general rule is `CategoryMapMeaning`) |
| Seeding.CategoriesToAddMeaning | src/utils/seedData.ts:13-19 | a sample category whose name exists is never inserted again; every other one is, in sample order |
| Seeding.AllPresentNothingToAdd | src/utils/seedData.ts:19-24 | when every sample name exists, nothing remains to insert, so no category insert is issued |
| Seeding.AllResolveAllProducts | src/utils/seedData.ts:43-61 | when the four sample categories all resolve, all ten sample products are kept |
| Seeding.ProductsReferenceCategories | src/utils/seedData.ts:43-64 | each inserted product refers by id to a category row carrying its category name |
| Seeding.SeedKeepsNamesDistinct | src/utils/seedData.ts:11-24 | after a successful names read, seeding never introduces a duplicate category name |
| Seeding.NothingMissing | src/utils/seedData.ts:11-24 | when the names read succeeds and every sample name is carried by some row, no category insert is issued |
| Seeding.CategoryStepCompletesNames | src/utils/seedData.ts:11-24 | whatever the store held, a category step that does not throw and whose insert succeeds leaves every sample name carried by some row |
| Seeding.PresentNamesResolve | src/utils/seedData.ts:31-34 | rows carrying every sample name make every sample category resolve in the map |
| Seeding.ReadableStorePlansAllProducts | src/utils/seedData.ts:11-61 | when the category step succeeds and the categories read is answered, the run keeps all ten sample products, in order |
| Seeding.RunWritesPlan | src/utils/seedData.ts:42-65 | a run that reaches the product step and issues a successful insert adds exactly one row per planned product |
| Seeding.FewProductsGainAll | src/utils/seedData.ts:4-66 | a store holding fewer than five products, when every call succeeds, ends as its old rows followed by one row per sample product in order, numbered consecutively, each with its category resolved |
| Seeding.ProductStepAddsPlan | src/utils/seedData.ts:40-66 | an issued product insert that succeeds appends one row per planned product, in plan order, with every planned category resolved |
| Seeding.EnoughProductsNoInsert | src/utils/seedData.ts:42 | with five or more products counted, no product is inserted |
| Seeding.FailedCountSeedsAgain | src/utils/seedData.ts:37-42 | a failed count reads as 0, so the products are inserted whatever the table holds |
| Seeding.ReportedErrorsStillSucceed | src/utils/seedData.ts:4-72 | when every call answers with an error object (which the code never inspects) the run still reports success and changes nothing |
| Seeding.SeededStoreUnchanged | src/utils/seedData.ts:4-72 | once every sample category and at least five products exist, a run whose reads succeed changes nothing and succeeds |
| Seeding.EmptyStoreFirstRun | src/utils/seedData.ts:4-72 | on an empty store with every call succeeding, a run adds the four sample categories with consecutive ids and ten products, and succeeds |
| Seeding.SeedTwice | src/utils/seedData.ts:4-72 | a second run over the tables the first run produced on an empty store changes neither table |
| Seeding.ProductStepWrites | src/utils/seedData.ts:63-65 | a successful product insert adds one row per kept sample product |
| Seeding.BuildCategoryMap | src/utils/seedData.ts:31-34 | the loop's map is the reduce over the rows |
| Seeding.StoreTables.InsertCategories | src/utils/seedData.ts:23 | the new rows are appended with fresh ids and the ids stay distinct |
| Seeding.StoreTables.InsertProducts | src/utils/seedData.ts:64 | the new rows are appended with fresh ids and the ids stay distinct |
| Seeding.SeedCategories | src/utils/seedData.ts:7-24 | the category step: read the existing names (none on a failed read) and insert the missing sample categories; a throw is reported |
| Seeding.SeedProducts | src/utils/seedData.ts:42-66 | the product step: insert the resolved products only when fewer than five were counted |
| Seeding.SeedKenyanFood | src/utils/seedData.ts:4-72 | the run's effect on both tables is the composition of its steps; it succeeds exactly when no call threw, and otherwise returns the first thrown message |

## Left out

- Rendering is not modelled: JSX, styling, dialogs, toasts, `console` logging and navigation. They carry no behaviour to state. The one logged value that matters, the product dialog's order details, is the result of `HandleAddToCart`.
- ProductModal.ProductDialog.HandleAddToCart: the dialog writes nothing to any cart. Its handler only logs the order details, shows a toast and closes, and no file of the storefront calls `addToCart`.
- The receipt number (`Math.random`) and timestamp (`Date`) in the point-of-sale receipt are not modelled; they are randomness and a clock.
- Floating point and `toFixed(2)` display rounding are not modelled: money is exact integer cents and `parseFloat` of a marker is read exactly.
- PointOfSale.Lower: `toLowerCase` is modelled for ASCII letters only; Unicode case folding is not modelled.
- The remote store is not modelled: its query language, the upsert's conflict handling, join shapes, foreign keys and ordering are out of scope.
  - A fetch returns the user's rows in table order.
  - `addToCart`'s upsert carries no row id, so it always inserts a new row with an id chosen by the store.
  - A row naming a product unknown to the price table is refused.
- Authentication is not modelled: the signed-in user is a field set by `SetUser`.
- Asynchrony is not modelled: each handler runs as one sequential step, and the loading flags are omitted.
- CartHook.CartSession.AddToCart: the default arguments `quantity = 1` and `customizations = {}` are not modelled; the method takes both as explicit parameters.
- CartHook.CartSession.AddToCart: when the store refuses the write, the method only reports that it threw; it does not carry the error object.
- Checkout.HandleSubmit: the order id comes from the store and is a parameter; the toast text is not modelled.
- CartSummary.SampleSummary: the panel's quantity and remove buttons have no handlers in the source, so no cart mutation exists to model there.
- Seeding.SeedKenyanFood: a store call that throws is assumed to have changed nothing; image URLs are not modelled; store ids are numbers drawn from a counter, not UUIDs.
