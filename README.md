# Retail inventory and cart bookkeeping, in Dafny

A model of the in-memory bookkeeping of a small console shop (`Project/Program.cs`):
five per-category assortments that map item names to prices, a shopping cart of
5-tuple lines, the checkout that reconciles the cart against the five assortments
and produces an invoice, the order-threshold report, the stock merge, and the
order's payment strategy.

Modules, one per component of the program:

- `Stock` — the five assortments' item maps seen as a row of shelves, and the
  *presence count* of a name (how many shelves hold it), with its properties.
- `Inventory` — class `Assortment` (the source's `Product`, behind the `Assortment`
  interface) with `AddItem`, `DelItem`, `TakeDelivery`. The `items` dictionary is a
  `map` field that the methods reassign. `GetItems` hands out the live dictionary;
  the callers here read and update `items` themselves.
- `Lines` — the cart line datatype and `List.FindIndex` / `List.RemoveAt`.
- `Sales` — what `doBuying` computes, as functions (`Scan` for the first loop,
  `RemoveFromEnd` for the second, `Checkout` for both), and the lemmas about it.
- `Cart` — class `ShoppingCart` with `AddProduct`, `RemoveProduct`,
  `ChangeQuantity` and `DoBuying`. `DoBuying` is proved equal to `Sales.Checkout`,
  and its contract also states the consequences directly.
- `Reports` — `CountOccurrences` / `ToPlaceAnOrder` and `AggregateProductStock` /
  `MergeProductsStock`, as loops over the dictionaries.
- `Payment` — `Order` with an optional strategy from the variant `{CreditCard, PayPal}`.

Behaviour the model keeps from the code:

- An item map is a dictionary, so a name occurs in it at most once.
  - `addItem` of a name that is already there is caught and changes nothing.
  - `TakeDelivery(name, q, price)` with `q >= 1` adds the name once, if it is new.
  - The next `Add` of that delivery throws, and so does the first `Add` when the
    name was already there. The exception leaves `TakeDelivery` before the delivery
    file is written, and it ends the menu loop in `Main`.
  - The model returns `DuplicateKey` for that exception and keeps the entry that
    was already added.
  - A `Dictionary` holds a key once, so a delivery never adds `q` entries for one name.
- In `doBuying`, only the first unit of a line can remove anything.
  - A line with quantity at least 1 takes its name off every assortment that holds
    it.
  - Its invoice count is the number of assortments that held the name (1 to 5),
    not the quantity asked for.
  - With a line `("Shoes-A", 2, ...)` and one assortment holding `Shoes-A`, the
    invoice says 1, not the 2 asked for (`Cart.CheckoutOneLine`).
- `invoices.Add` in `doBuying` never throws. A name already in the invoice is
  gone from every shelf, so a later line with that name sells nothing.
- `doBuying` records `FindIndex` of the line's name, not the line's own position.
  - With distinct names in the cart, these are the same. The cart then keeps exactly
    the unsold lines, in order (`Sales.CheckoutCart`).
  - With a repeated name, the wrong line can be removed
    (`Sales.RepeatedNameRemovesFirstLine`).
  - The reverse-order `RemoveAt` never goes out of range, even with repeated names.
    `Scan` ensures `RemovableFromEnd`.
- `MergeProductsStock` keeps the first price seen. The `key + "_"` string on a
  duplicate is built and dropped.

## Model

| member | source | states |
|---|---|---|
| `Stock.Presence` | Project/Program.cs:597-613 | the number of assortments holding a name is at most the number of assortments |
| `Stock.PresenceIsHolderCount` | Project/Program.cs:597-613 | the presence count equals the number of assortment indices whose key set contains the name |
| `Stock.PresenceZero` | Project/Program.cs:183-221 | a name has presence zero exactly when no assortment holds it |
| `Stock.PresenceMinus` | Project/Program.cs:183-221 | after a set of names is taken off every assortment, a removed name has presence zero and any other keeps its count |
| `Inventory.Assortment.constructor` | Project/Program.cs:289-293 | a new assortment has the given category name and no items |
| `Inventory.Assortment.AddItem` | Project/Program.cs:295-307 | a new name is inserted with its price and reported inserted; a name already present leaves the items unchanged and is reported not inserted |
| `Inventory.Assortment.DelItem` | Project/Program.cs:309-319 | the items become the old items without the name; the reported result says whether it was there |
| `Inventory.Assortment.TakeDelivery` | Project/Program.cs:342-350 | quantity <= 0: no change, success; new name and quantity 1: added, success; name present: fails unchanged; new name and quantity >= 2: added once, then fails |
| `Inventory.AddThenDelete` | Project/Program.cs:295-350 | deleting a name just added, or just delivered as one unit, restores the items |
| `Lines.FindIndex` | Project/Program.cs:151 | -1 exactly when no line has the name; otherwise the first position whose line has the name |
| `Lines.RemoveAt` | Project/Program.cs:236 | `List.RemoveAt(i)` drops the line at `i`, keeps the lines before it, and moves each later line up by one |
| `Sales.RemoveFromEnd` | Project/Program.cs:233-237 | the removal loop takes out one line per recorded index |
| `Sales.Checkout` | Project/Program.cs:168-242 | both loops of `doBuying` together keep the number of assortments and never lengthen the cart; its full effect is in the `Checkout*` lemmas |
| `Sales.Scan` | Project/Program.cs:174-231 | the first loop keeps the shelf count, and the indices it records can be removed from last to first without going out of range |
| `Sales.UnsoldMembers` | Project/Program.cs:225-237 | a line is kept exactly when it is in the cart and is not served |
| `Sales.ScanState` | Project/Program.cs:174-231 | after any prefix of the cart (repeated names allowed), each shelf is the starting shelf minus the served names; the invoice holds exactly the served names, each with its presence count |
| `Sales.RemoveFromEndAppend` | Project/Program.cs:233-237 | removing recorded indices from a cart with one more line at the end keeps that line at the end |
| `Sales.ScanStepDistinct` | Project/Program.cs:179 | with distinct names, a line is recorded exactly when it is served, and then by its own position |
| `Sales.ScanMatchesServed` | Project/Program.cs:174-231 | with distinct names, the indices the first loop records are exactly the positions of the served lines, in order |
| `Sales.RemoveServed` | Project/Program.cs:233-237 | removing the positions of the served lines from last to first leaves exactly the unserved lines, in order |
| `Sales.ScanCart` | Project/Program.cs:174-237 | with distinct names, removing the recorded indices from any prefix leaves exactly the unserved lines of that prefix |
| `Sales.CheckoutShelves` | Project/Program.cs:181-223 | checkout takes exactly the served names off every assortment; any other item keeps its presence and its price |
| `Sales.CheckoutInvoice` | Project/Program.cs:225-229 | the invoice keys are exactly the served names; each count is the name's presence count, between 1 and the number of assortments |
| `Sales.CheckoutCart` | Project/Program.cs:225-238 | with distinct names, the cart ends as the unserved lines in their original order |
| `Sales.CheckoutServedLine` | Project/Program.cs:174-237 | with distinct names, a served line leaves the cart, its name is in no assortment afterwards, and its invoice count is its presence count (1..5) |
| `Sales.CheckoutUnservedLine` | Project/Program.cs:181-238 | with distinct names, a line with quantity <= 0 or a name in no assortment stays in the cart and gets no invoice entry |
| `Sales.RepeatedNameRemovesFirstLine` | Project/Program.cs:179 | cart `[A x0, A x1]` against one shelf holding `A`: the sold line stays and the unsold one is removed, unlike `Unsold` |
| `Cart.ShoppingCart.constructor` | Project/Program.cs:125-138 | a new cart is empty |
| `Cart.ShoppingCart.AddProduct` | Project/Program.cs:141-145 | exactly one line is appended at the end |
| `Cart.ShoppingCart.RemoveProduct` | Project/Program.cs:148-156 | with no line of that name the cart is unchanged; otherwise only the first such line is removed and the rest keep their order |
| `Cart.AddThenRemove` | Project/Program.cs:141-156 | removing a name just added, when the cart had no such line, restores the cart |
| `Cart.ShoppingCart.ChangeQuantity` | Project/Program.cs:159-166 | the cart never changes, for every name and quantity |
| `Cart.ShoppingCart.SetQuantity` | Project/Program.cs:159-166 | the first line with the name gets the new quantity; every other line is unchanged |
| `Cart.ShoppingCart.TakeUnits` | Project/Program.cs:181-223 | only the five item maps can change, never a category name; quantity >= 1: each shelf loses the name, and the count is the name's presence; no removal means no change; quantity <= 0: nothing happens |
| `Cart.ShoppingCart.RemoveRecorded` | Project/Program.cs:233-238 | the cart becomes the old cart with the recorded indices removed from last to first |
| `Cart.ShoppingCart.DoBuying` | Project/Program.cs:168-242 | only the cart and the five item maps can change, never a category name; the final cart, shelves and invoice are those of `Sales.Checkout`; each shelf loses exactly the served names; the invoice maps each served name to its presence (1..5); with distinct names the cart keeps exactly the unserved lines, in order |
| `Reports.CountOccurrences` | Project/Program.cs:597-613 | every name of the assortment gains one in the tally, a new name starts at one, and every other count is kept |
| `Reports.TallyStep` | Project/Program.cs:569-573 | counting one more assortment into a tally of presence counts gives the presence counts over the longer row |
| `Reports.CountAll` | Project/Program.cs:565-573 | after the five counting calls, a name is in the tally exactly when some assortment holds it, and its count is the number of assortments that hold it |
| `Reports.ToPlaceAnOrder` | Project/Program.cs:565-581 | a name is kept exactly when it is in some assortment and its presence count is at least the threshold; its value is its presence count |
| `Reports.AggregateProductStock` | Project/Program.cs:723-741 | keys are the union; names already aggregated keep their price; new names take the assortment's price |
| `Reports.MergeProductsStock` | Project/Program.cs:709-719 | keys are the union of the five key sets; each name's price is the one from the first assortment, in order 1..5, that holds it |
| `Payment.Order.constructor` | Project/Program.cs:22-24 | a new order has no payment strategy |
| `Payment.Order.SetPaymentStrategy` | Project/Program.cs:26-29 | the given strategy becomes the active one |
| `Payment.Order.ProcessPayment` | Project/Program.cs:31-39 | with no strategy nothing is paid; otherwise the active strategy pays exactly the amount |
| `Payment.PayByChoice` | Project/Program.cs:498-520 | answer `"1"` pays exactly the amount by credit card, `"2"` by PayPal, and any other answer pays nothing |

## Left out

- The menu loop in `Main` and its `Int32.Parse` prompts (Project/Program.cs:386-562) are interactive I/O. The menu sends every delivery to the first assortment (:456). Of its finalize choice (:492-523), the payment step is `Payment.PayByChoice`. The `doBuying` that follows runs whatever was answered, even when nothing was paid; it is `Cart.ShoppingCart.DoBuying`, and the two are not chained in the model.
- The `Logger` singleton (Project/Program.cs:72-115) only appends to a file under a lock.
- No file is modelled. That covers the invoice file (`prepareInvoice`, :244-257), the stock file (`GenerateStockFile`, :682-707), the delivery file (:355-370) and the order file (:583-593). The model computes the maps those files would hold: the result of `DoBuying`, `MergeProductsStock` and `ToPlaceAnOrder`. For `TakeDelivery`, `Recorded` means the delivery file would be written.
- `populateRandomProducts` (:615-681) depends on `System.Random`.
- `displayItems` and `DisplayCart` only print.
- The `Pay` bodies (:52-65) only print. A payment is the `Paid(strategy, amount)` outcome.
- Cart prices and payment amounts are `double`. They are modelled as `real` values that are carried and compared, never computed on.
- The lazy singleton `GetInstance` (:130-138) and `productFactory` (:375-382) are plain constructors.
- Dictionary enumeration order is not modelled. The loops take the remaining keys in any order, and no result depends on that order.
- The five assortments are distinct objects, as `Main` passes them. `DoBuying` and `TakeUnits` require this. Passing one assortment twice is not modelled.
- 32-bit integers are unbounded `int`s. Counts never exceed 5, and prices and quantities are only carried and compared, so no wrap-around can happen in the modelled code.
- `Cart.ShoppingCart.DoBuying` is written as three methods: the line loop in `DoBuying`, its unit loop in `TakeUnits`, and its removal loop in `RemoveRecorded`. The branches and their order are the source's. In the same way the five counting calls of `toPlaceAnOrder` are `Reports.CountAll`, and the threshold filter stays in `Reports.ToPlaceAnOrder`.

## Findings

| source | as written | input that shows it | evidently intended | confidence | as-written member | corrected member |
|---|---|---|---|---|---|---|
| Project/Program.cs:159-166 | `List.Find` returns a copy of the value tuple, and the new quantity is stored in that copy, so the cart never changes | cart `[("Sample", 2, 20.0, 5.0, 25.0)]`, `ChangeQuantity("Sample", 5)`: the line still has quantity 2 (`Cart.ChangeQuantityIsLost`) | the first line with that name gets the new quantity | high; not executed | `Cart.ShoppingCart.ChangeQuantity` | `Cart.ShoppingCart.SetQuantity` |
