# Warung Padang point of sale — a Dafny model

A restaurant cashier works on one register. The register has three parts:
- a **catalogue** of menu items (foods, beverages and desserts), each with an id, a name, a price and a stock level;
- the **current order**, which is the cart: a list of lines, each an item and a quantity;
- a **ledger** of completed orders.

The cashier adds items to the cart, edits quantities, removes rows and clears the cart. Paying checks that the amount covers the grand total (the subtotal plus 10% tax), then takes the ordered units out of stock. A paid order is completed and goes into the ledger, and a fresh empty cart opens. Stock can be topped up from the stock screen. The sales report shows total sales, the average order value, and the five best-selling names by units sold.

The model has one module per source file, plus two small ones:

| file | module | models |
|---|---|---|
| `outcomes.dfy` | `Outcomes` | the exceptions the core throws, as `Failure` values inside a `Result` |
| `menu_items.dfy` | `MenuItems` | `src/MenuItem.java` and the category tags of `src/Food.java`, `src/Beverage.java`, `src/Dessert.java` |
| `orders.dfy` | `Orders` | `src/Order.java`: the cart lines, the totals and payment settlement |
| `best_sellers.dfy` | `BestSellers` | the ranking step of the best-seller report in `src/POSRestaurant.java` |
| `restaurant.dfy` | `Restaurant` | the non-GUI state and handlers of `src/POSRestaurant.java` |
| `scenarios.dfy` | `Scenarios` | concrete checkouts, including the input behind the finding below |

How the model is built:
- Items, orders and the register are classes, because the source updates them in place.
  - An item's identity fields are `const`; only `stock` is `var`.
  - An order holds `lines: seq<Line>`. Each `Line` refers to the shared catalogue item, as Java's `OrderItem` does.
- The static id counters of the source are `IdCounter` objects. Constructors take one and advance it.
- Each method that changes the cart is proved against a pure function of the old line list: `AddLine`, `Without`, `Requantify`. The properties are proved about those functions as lemmas.
- Money is `real`, so the totals are exact: the subtotal, `Tax` (the subtotal times 0.10) and `GrandTotal`.
- `Shortfall` gives the index of the first line whose quantity exceeds its item's stock. That is where a line-by-line deduction stops.

## Model

| member | source | states |
|---|---|---|
| MenuItems.CategoryName | src/Food.java:4-5 | Each kind gets its own tag, "Food", "Beverage" or "Dessert" (iff per kind), as the three subclass constructors pass it up. |
| MenuItems.IdCounter.constructor | src/MenuItem.java:2 | Id allocation starts at 1. |
| MenuItems.MenuItem.constructor | src/MenuItem.java:10-16 | The new item takes the counter's value as its id and the counter advances by one; name, price, kind and stock are as given. |
| MenuItems.MenuItem.Category | src/MenuItem.java:26 | The category is "Food", "Beverage" or "Dessert" exactly when the item is of that kind. |
| MenuItems.MenuItem.SetStock | src/MenuItem.java:29-34 | A negative level is refused with InvalidQuantity and the stock is unchanged; otherwise the stock becomes the new level. |
| MenuItems.MenuItem.ReduceStock | src/MenuItem.java:36-41 | Taking more than the stock is refused with OutOfStock(name, stock) and nothing changes; otherwise the stock drops by the quantity and stays within 0..old stock. |
| MenuItems.MenuItem.AddStock | src/MenuItem.java:43-45 | The stock rises by the quantity with no check, so a negative quantity lowers it. |
| Orders.DistinctItems | src/Order.java:42-47 | Lines with distinct item ids refer to distinct item objects. |
| Orders.Find | src/Order.java:42-43 | The search result is the first line with the id, or the length when no line has it. |
| Orders.Without | src/Order.java:51-53 | The kept lines are exactly the lines whose id differs, and none is added. |
| Orders.Shortfall | src/Order.java:91-94 | Every line before the result can be served from stock; the line at the result cannot. |
| Orders.FindUnique | src/Order.java:42-47 | With one line per id, the search for a line's id finds that line. |
| Orders.AddLineMerges | src/Order.java:42-46 | Re-adding an item on the cart adds the quantity to its line only; length, order and other lines are unchanged. |
| Orders.AddLineAppends | src/Order.java:48 | Adding an item with no line appends exactly one line at the end. |
| Orders.AddLineKeepsUnique | src/Order.java:40-49 | Adding keeps at most one line per item id. |
| Orders.AddTwiceMerges | src/Order.java:40-49 | Adding the same new item twice gives a single line with the summed quantity. |
| Orders.WithoutAbsent | src/Order.java:51-53 | Removing an id that has no line changes nothing. |
| Orders.WithoutDropsOne | src/Order.java:51-53 | With one line per id, removing a line's id drops exactly that line and keeps the rest in order. |
| Orders.WithoutKeepsUnique | src/Order.java:51-53 | Removing keeps at most one line per item id. |
| Orders.RequantifyKeepsItems | src/Order.java:60-65 | A quantity update keeps the length, every line's item and every line of other ids; the first line of the id gets the new quantity. |
| Orders.RequantifyKeepsUnique | src/Order.java:55-66 | A quantity update keeps at most one line per item id. |
| Orders.RequantifyRow | src/Order.java:60-65 | With one line per id, updating a line's id sets exactly that row. |
| Orders.SubtotalConcat | src/Order.java:68-74 | The subtotal of two line lists joined is the sum of their subtotals. |
| Orders.SubtotalReplace | src/Order.java:68-74 | Replacing one line changes the subtotal by the difference of the two line subtotals. |
| Orders.LineSubtotalBounds | src/Order.java:28-30 | A line of no units costs nothing; with a non-negative price a line costs at least 0, and at least its price once it holds a unit. |
| Orders.MergedLineSubtotal | src/Order.java:28-30 | Merging a quantity into a line adds that many units at the line's price. |
| Orders.SubtotalAddLine | src/Order.java:40-49 | Adding an item raises the subtotal by the quantity times the price of the item it is charged at (the one already on its line, if any). |
| Orders.SubtotalWithout | src/Order.java:51-53 | Removing an item's line lowers the subtotal by that line's subtotal. |
| Orders.TotalsNonnegative | src/Order.java:68-82 | With non-negative prices and quantities, subtotal and tax are non-negative and the grand total is at least the subtotal. |
| Orders.Order.constructor | src/Order.java:33-38 | The order takes the next order id, is empty and "Pending", has no payment method and has the given timestamp. |
| Orders.Order.AddItem | src/Order.java:40-49 | The loop's result is the merge-or-append function of the old lines. |
| Orders.Order.RemoveItem | src/Order.java:51-53 | The new lines are the old lines without the id. |
| Orders.Order.UpdateQuantity | src/Order.java:55-66 | A non-positive quantity is refused with InvalidQuantity and the lines are unchanged; otherwise the first line of the id gets the quantity, and an unknown id changes nothing. |
| Orders.Order.GetTotal | src/Order.java:68-74 | The loop's sum is the subtotal of the lines. |
| Orders.Order.GetTax | src/Order.java:76-78 | The tax is 10% of the subtotal. |
| Orders.Order.GetGrandTotal | src/Order.java:80-82 | The grand total is the subtotal plus the tax. |
| Orders.Order.ProcessPayment | src/Order.java:84-101 | As written. Underpayment is refused with nothing changed. Otherwise the lines before the first short line are deducted and the rest are untouched. With no short line, the order completes and the change (never negative) is returned; with one, OutOfStock for that line and the order fields stay as they were. |
| Orders.CheckStock | src/Order.java:91-94 | With no short line the check succeeds; otherwise it fails with OutOfStock for the first short line. Nothing changes. |
| Orders.DeductStock | src/Order.java:91-94 | The deduction loop: the lines before the first short line are deducted, that line and the rest are untouched, and the first short line's OutOfStock is returned. |
| Orders.Order.SettleAtomically | src/Order.java:84-101 | Corrected settlement: it succeeds iff the amount covers the grand total and every line can be served, and then deducts every line. Any failure leaves every stock and order field unchanged, and a stock failure names the first short line. |
| BestSellers.InsertPermutes | src/POSRestaurant.java:451-452 | Insertion adds exactly the new entry (multiset). |
| BestSellers.InsertKeepsOrder | src/POSRestaurant.java:451-452 | Insertion keeps a list sorted by count, highest first. |
| BestSellers.SortByCount | src/POSRestaurant.java:451-452 | The result is sorted by count, highest first, and is a permutation of the input. |
| BestSellers.TopSellers | src/POSRestaurant.java:451-453 | The result has min(n, limit) entries, highest count first, and is a sub-multiset of the input, so no entry appears more often than it was given. |
| BestSellers.InsertKeepsDistinct | src/POSRestaurant.java:451-452 | Inserting an entry with a new name into entries with distinct names keeps the names distinct. |
| BestSellers.SortKeepsDistinct | src/POSRestaurant.java:451-452 | Sorting entries with distinct names keeps the names distinct. |
| BestSellers.TopSellersDistinct | src/POSRestaurant.java:451-453 | Entries with distinct names are ranked with distinct names. |
| BestSellers.TopSellersAreTop | src/POSRestaurant.java:451-453 | Every reported entry is an input entry, and an input entry left out sold no more than any reported one. A short report leaves nothing out. |
| BestSellers.Entries | src/POSRestaurant.java:451 | The entries are exactly the map's (name, count) pairs, one per name, in an order the map does not fix. |
| BestSellers.Report | src/POSRestaurant.java:451-460 | The report has 1..5 lines, and it is the single "no sales data" line exactly when there are no entries. |
| BestSellers.Rows | src/POSRestaurant.java:454-456 | One report line per ranked entry, in order, with its name and count. |
| BestSellers.RowsFromMap | src/POSRestaurant.java:451-456 | Every report line is a key of the count map with its count. |
| BestSellers.RowsOrdered | src/POSRestaurant.java:452-456 | Report lines are in non-increasing order of units sold. |
| BestSellers.RowsDominate | src/POSRestaurant.java:451-456 | A name without a line sold no more than every reported name, and is only left out of a full report. |
| BestSellers.ReportRanks | src/POSRestaurant.java:451-460 | An empty count map gives the "no sales data" line. Otherwise there are 1..5 lines, each a name with its count, highest first, no name twice, and every omitted name is dominated by a full report. |
| Restaurant.SoldInAbsent | src/POSRestaurant.java:447 | A name on no line of an order counts 0, as getOrDefault supplies. |
| Restaurant.SoldAbsent | src/POSRestaurant.java:447 | A name in no completed order counts 0. |
| Restaurant.CountLine | src/POSRestaurant.java:446-447 | One step of the count loop turns the counts up to a line into the counts up to and including it. |
| Restaurant.SalesTotalAppend | src/POSRestaurant.java:429-431 | Recording one more order adds its grand total to total sales. |
| Restaurant.SalesTotalBounds | src/POSRestaurant.java:427-433 | Per-order bounds on the grand total bound total sales by the order count times those bounds. |
| Restaurant.AverageWithinBounds | src/POSRestaurant.java:435-438 | The average order value lies between the smallest and largest bounds of the orders' grand totals. |
| Restaurant.FirstWithId | src/POSRestaurant.java:214 | The result is the index of the first catalogue item with the id, or the length when there is none. |
| Restaurant.Register.constructor | src/POSRestaurant.java:28-32 | The register starts with an empty cart that takes the next order id, an empty ledger, and the twelve seeded items with consecutive ids. The register invariant holds. |
| Restaurant.Register.InitializeMenu | src/POSRestaurant.java:40-53 | Twelve items are added, with ids running consecutively from the counter's value; the counter advances by 12. |
| Restaurant.Register.AddMenuItem | src/POSRestaurant.java:41 | One item is appended with the next id and the given data; consecutive ids stay consecutive. |
| Restaurant.Register.AddToCart | src/POSRestaurant.java:303-315 | An item with no stock is refused with OutOfStock and the cart is unchanged. Otherwise one unit is merged or appended. The register invariant is kept. |
| Restaurant.Register.UpdateCartQuantity | src/POSRestaurant.java:335-350 | A missing row is refused with NoSuchRow, more than the stock with OutOfStock, and a non-positive quantity with InvalidQuantity, each leaving the cart unchanged. Otherwise only that row's quantity changes. |
| Restaurant.Register.RemoveFromCart | src/POSRestaurant.java:352-359 | No selection does nothing. A selected row is dropped and the other lines keep their order. |
| Restaurant.Register.ClearCart | src/POSRestaurant.java:361-364 | The cart becomes a fresh empty pending order with the next order id; the ledger is unchanged. |
| Restaurant.Register.ProcessPayment | src/POSRestaurant.java:366-403 | An empty cart is refused. Payment succeeds iff the amount covers the grand total and every line can be served. Success completes the order, appends it to the ledger, deducts every line, raises total sales by its grand total and opens a fresh cart with the next order id, advancing the order counter by one. Failure changes no cart, payment method or amount, ledger, order counter or stock. This uses the corrected settlement from Findings; as written, the source keeps the deductions made before a short line. |
| Restaurant.Register.RecordSale | src/POSRestaurant.java:389-393 | The paid order is appended to the ledger, total sales rise by its grand total and a fresh empty cart opens with the next order id, the order counter advancing by one. |
| Restaurant.Register.Restock | src/POSRestaurant.java:213-216 | Finds the first item with the id, if any, and adds the quantity to it unchecked; no other item's stock changes. |
| Restaurant.Register.GetTotalSales | src/POSRestaurant.java:427-433 | The loop's sum is the sum of the completed orders' grand totals. |
| Restaurant.Register.GetAverageOrder | src/POSRestaurant.java:435-438 | No orders gives 0. Otherwise the average times the order count equals total sales. |
| Restaurant.CountLines | src/POSRestaurant.java:445-448 | The inner loop adds each line's quantity to its name's count. |
| Restaurant.Register.CountSales | src/POSRestaurant.java:443-449 | The map's keys are exactly the names sold, and each count is the sum of that name's quantities over all completed orders. |
| Restaurant.Register.UpdateBestSellers | src/POSRestaurant.java:440-461 | With nothing sold the report is the single "no sales data" line. Otherwise it has 1..5 lines, each a sold name with its true count, highest first, no name twice, and any name left out sold no more than every reported one. |
| Scenarios.CheckoutExample | src/Order.java:84-101 | Two units at 25000 (stock 50) paid with 60000 return change 5000, leave stock 48 and complete the order. |
| Scenarios.PartialDeduction | src/Order.java:91-94 | As written, a cart whose second line is short fails with OutOfStock but has already deducted the first line (5 becomes 4). |
| Scenarios.AtomicRefusal | src/Order.java:91-94 | Corrected, the same cart fails with the same error and every stock level is unchanged. |

## Left out

- The Swing GUI, dialogs, table models and display refreshes are not modelled: every screen of `src/POSRestaurant.java` except the handlers' state changes.
- The database classes (`src/DatabaseManager.java` and the schema tools) are not part of this model.
- Parsing of typed amounts and quantities is not modelled. The `NumberFormatException` paths are out of scope, so handlers take numbers.
- Receipts and display strings are not modelled: `getReceipt`, `toString`, `getDescription`, and the "name - N sold" report lines, which become `Seller(name, sold)` values.
- The clock is not modelled. `new Date()` becomes a `now` parameter, stored as the order's timestamp.
- Java `double` rounding is not modelled: money is exact `real`. Java `int` overflow of stock, quantities and id counters is not modelled either.
- The plain getters (`getId`, `getName`, `getPrice`, `getStock`, `getItems`, `getOrderId`, `getStatus`, `getTimestamp`) are the fields themselves.
- Order of equal counts in the report: the source sorts a `HashMap`'s entries, whose order it does not fix. The model takes the entries in an unspecified order (`Entries`), so no particular tie order is claimed.
- Restaurant.Register.InitializeMenu: the contract states the count and the consecutive ids; the seeded names, prices, stocks and kinds are stated per item by `AddMenuItem`, but not collected into its contract.
- Restaurant.Register.RemoveFromCart: a row past the end of the cart throws an uncaught `IndexOutOfBoundsException` in the source (the GUI never selects one). The model returns `Err(NoSuchRow)` instead.
- Restaurant.Register.ProcessPayment: this uses the corrected all-or-nothing settlement (see Findings), not the source's line-by-line deduction, which is kept as `Orders.Order.ProcessPayment`.

## Findings

| source | as written | input that shows it | evidently intended | confidence | as-written member | corrected member |
|---|---|---|---|---|---|---|
| src/Order.java:91-94 | Stock is deducted line by line during payment. When a later line is short, `reduceStock` throws after the earlier lines were already deducted. The order stays "Pending" and is not recorded, so those units are lost from stock. | Cart [Pudding ×1 (stock 5), Es Krim ×2 (stock 1)] paid in full. This cart is reachable because `addToCart` (src/POSRestaurant.java:305) only checks stock > 0, so a second click puts 2 of a 1-in-stock item in the cart. Payment fails with OutOfStock("Es Krim", 1), and the Pudding stock has already dropped to 4. | A failed payment changes no stock: check every line first, then deduct. | not executed | Scenarios.PartialDeduction | Orders.Order.SettleAtomically |
