# Point-of-sale sale transactions, modelled in Dafny

This project models the sale bookkeeping of a small point-of-sale tool. The
tool has products with stock, clients with a running `totalSpent`, a sales
ledger and a cart. The repository implements the same bookkeeping three
times, and the model keeps the three apart so that their differences can be
stated:

- `server_sales.dfy`, module `ServerSales`: the SQLite engine of
  `server/index.js`. The `products`, `clients` and `sales` tables are maps
  from row id to record, and `sale_items` is the sequence of its rows in
  rowid order; all four are fields of a class `SalesDb`. `POST /sales` is `CommitSale` and `DELETE /sales/:id` is
  `ReverseSale`. Each of them is one method whose new state is tied to pure
  functions of the old state (`ApplySale`, `ItemRows`, `CreditClient`,
  `ApplyReversal`, `DebitClient`, `WithoutSale`). The stock loops are
  `while` loops with invariants. A new row id is SQLite's rowid: one more
  than the largest id in the table, or 1 for an empty table.
- `local_store.dfy`, module `LocalStore`: the browser engine of `app.js`.
  The `data` store and the `cart` are sequence fields of a class `Store`
  that the handlers reassign in place. The totals and the dashboard figures
  are pure functions.
- `firestore_invoices.dfy`, module `Firestore`: the React/Firestore variant
  of `Index.js`. The cart operations and the `stats` aggregates are pure
  functions. `handleCreateInvoice` is a method on a class `Workspace` with a
  `while` loop over the cart that writes one product document at a time.
- `common.dfy`, module `Common`: `Option`, a pass/fail `Outcome`, the
  zero floor `Clamp`, and the JavaScript idioms `find` (`FirstIndex`) and
  `filter` (`Without`, `Only`) with their algebra.

Money is exact (`real`). The tax rate is exactly 19/100. Floating-point
rounding is not modelled.

The three copies differ in observable ways, and the model proves each
difference:

- **Stock bound.** The server clamps stock at zero after every item. The
  browser engine clamps after every cart line. The Firestore variant writes
  `snapshot stock - qty` with no clamp, so stock can go negative
  (`Firestore.EmptyShelfGoesNegative`).
- **Tax.** The browser engine charges 19% tax. The Firestore invoice has no
  tax. The server stores whatever totals the client sent and recomputes
  nothing.
- **Deleting a sale.** The server reverses a sale: it restores stock and
  debits the client. That reversal can over-restore stock after a clamped
  commit (`ServerSales.ReversalOverRestoresClampedStock`). The browser
  engine's `deleteSale` only removes the ledger record.

`POST /sales` does not compute totals: it stores the payload's `subtotal`,
`tax` and `total` as given (server/index.js:110, 119).

## Model

| member | source | states |
|---|---|---|
| ServerSales.SalesDb.CommitSale | server/index.js:108-133 | The new sale row takes the next rowid and stores exactly the payload's values, with defaults for missing fields. One item row is appended per payload item. Stock follows `ApplySale` and clients follow `CreditClient`. Nothing else changes, and the invariant "every item belongs to an existing sale" is kept. |
| ServerSales.SaleRowOf | server/index.js:110-119 | The stored clientName, subtotal, tax and total are the payload's values. clientName defaults to "Cliente General" and the amounts default to 0. Nothing is recomputed. |
| ServerSales.ItemRows | server/index.js:122-123 | Exactly one row per payload item. Each row has a consecutive new id, the new sale id, and that item's product id, name, price and qty. |
| ServerSales.SalesDb.InsertItems | server/index.js:122-126 | The item loop appends `ItemRows` for the items and leaves products at `ApplySale` of the items. |
| ServerSales.SalesDb.CommitItem | server/index.js:123-125 | One turn of the item loop appends that item's row and applies its subtract-then-clamp step. The item invariant is kept. |
| ServerSales.SalesDb.InsertItem | server/index.js:123 | One `INSERT INTO sale_items` appends a row with the next rowid, and the next rowid moves up by one. |
| ServerSales.SalesDb.SubtractStock | server/index.js:124-125 | The two UPDATEs of one item: subtract qty, then floor at 0. An unknown product id changes nothing. |
| ServerSales.ApplySale | server/index.js:122-126 | The set of product ids is unchanged and only `stock` changes. Products no item names are untouched, and a touched product never ends below 0. |
| ServerSales.DecrementStock | server/index.js:124-125 | The id set is kept and only the named product changes, and only in `stock`. The new stock is at least 0 and at least stock - qty. With enough stock it is exactly stock - qty. |
| ServerSales.ApplySaleExtend | server/index.js:122-126 | Each further item is one more subtract-then-clamp step on the result so far. |
| ServerSales.ApplySaleStock | server/index.js:124-125 | A product's final stock is the clamped run over the items naming it, in order. |
| ServerSales.ApplySaleSingleItem | server/index.js:124-125 | A product named by exactly one item ends at max(0, stock - qty). |
| ServerSales.SingleItemRun | server/index.js:124-125 | For a product named by one item, the clamped run is max(0, stock - qty). |
| ServerSales.UntouchedRun | server/index.js:122-126 | For a product no item names, the stock is unchanged and no clamp happens. |
| ServerSales.ClampedRunBounds | server/index.js:124-125 | A repeated product, clamped after each step, ends at least at stock minus the summed qty. It ends exactly there when no step clamps. |
| ServerSales.CoveredNeverClamps | server/index.js:124-125 | With non-negative quantities and enough stock for their sum, no step clamps. |
| ServerSales.CreditClient | server/index.js:128-130 | The client set is unchanged. |
| ServerSales.CreditMovesOneClient | server/index.js:128-130 | Only the sale's client changes, and only when its id is truthy. `total_spent` moves by exactly the total. |
| ServerSales.Truthy | server/index.js:128 | A client id is truthy exactly when it is present and not 0. |
| ServerSales.NewRowId | server/db.js:12 | The new rowid is larger than every existing id: it is the max plus 1, or 1 for an empty table. |
| ServerSales.NextRowIdAfterInsert | server/db.js:12 | After inserting the new rowid, the next one is one higher. |
| ServerSales.NextRowIdFresh | server/db.js:12 | The next rowid is not already in use. |
| ServerSales.ItemIdsAppend | server/db.js:12 | Appending an item row adds exactly its id to the set of item ids. |
| ServerSales.ItemRowsExtend | server/index.js:122-123 | Each further item appends exactly one row with the following id. |
| ServerSales.SalesDb.ReverseSale | server/index.js:146-164 | A missing sale returns SaleNotFound and changes nothing. Otherwise stock follows `ApplyReversal` of the sale's items, the client is debited the sale total, and the sale and all its items are removed. The item invariant is kept. |
| ServerSales.SalesDb.RestoreStocks | server/index.js:154-156 | The reversal loop leaves products at `ApplyReversal` of the rows. |
| ServerSales.SalesDb.RestoreOne | server/index.js:155 | One reversal UPDATE adds the row's qty to its product. An unknown product id changes nothing. |
| ServerSales.ApplyReversal | server/index.js:154-156 | The set of product ids is unchanged and only `stock` changes. |
| ServerSales.RestoreStock | server/index.js:155 | The id set is kept and only the named product changes: its stock rises by exactly qty. |
| ServerSales.ApplyReversalStock | server/index.js:154-156 | Each product gains the full qty of every row naming it, with no clamp. |
| ServerSales.RowsQtyOfItemRows | server/index.js:122-123 | The rows written for a sale carry the same per-product quantities as its payload. |
| ServerSales.DebitClient | server/index.js:158-160 | The client set is unchanged. |
| ServerSales.DebitUndoesCredit | server/index.js:128-130 | Debiting the same client the same amount undoes the credit exactly. |
| ServerSales.WithoutSaleExact | server/index.js:162 | A row survives the item delete exactly when it belongs to another sale. |
| ServerSales.WithoutSaleBelongs | server/index.js:162-163 | After both deletes, every remaining item still belongs to a remaining sale. |
| ServerSales.ItemsOf | server/index.js:151 | Every row read belongs to the sale and comes from `sale_items`. Every row of the sale is read. |
| ServerSales.WithoutSale | server/index.js:162 | Every kept row belongs to another sale. Every row of another sale is kept. |
| ServerSales.ItemsOfWithoutSalePartition | server/index.js:151-162 | The rows read and the rows kept add up to the whole table: no row is lost or counted twice. |
| ServerSales.ItemsOfNewSale | server/index.js:122-123 | The items of a freshly committed sale are exactly the rows it inserted. Removing them leaves the earlier rows. |
| ServerSales.CommitThenReverseStock | server/index.js:118-156 | Commit then reversal never leaves less stock than before. It restores the product exactly when no step of the commit clamped. |
| ServerSales.CommitThenReverseProducts | server/index.js:118-156 | When no step of the commit clamped, commit then reversal gives back the whole products table. |
| ServerSales.ReversalOverRestoresClampedStock | server/index.js:154-155 | With stock 1 and one item of qty 3, the commit leaves 0 and the reversal leaves 3. |
| ServerSales.CommitThenReverseRestores | server/index.js:118-164 | When no stock was clamped, commit then reversal restores products, clients, sales and sale items to their prior values. |
| ServerSales.SalesDb.DeleteClient | server/index.js:67-72 | Id 1 is refused with no change. Any other id removes exactly that client. |
| ServerSales.SalesDb.CreateProduct | server/index.js:29-35 | The product is inserted under the next rowid. A missing stock, price or cost is stored as 0. Existing products and the other tables are unchanged. |
| ServerSales.SalesDb.UpdateProduct | server/index.js:37-44 | An existing row gets every column replaced. A missing id changes nothing. |
| ServerSales.SalesDb.DeleteProduct | server/index.js:46-49 | Exactly that product row is removed. |
| ServerSales.SalesDb.CreateClient | server/index.js:59-65 | The client is inserted under the next rowid with total_spent 0. A missing email or phone is stored as "". Existing clients are unchanged. |
| LocalStore.Store.ProcessSale | app.js:400-451 | An empty cart fails and changes nothing. Otherwise stock follows `ApplyCart` and the first client with the id is credited the total. Exactly one sale is appended, carrying a copy of the cart and its totals. The cart ends empty and expenses are untouched. |
| LocalStore.SaleTotals | app.js:411-413 | The subtotal is the sum of price·qty. total = subtotal + tax and total = subtotal·(1 + 19/100). |
| LocalStore.TotalsOfTwoUnits | app.js:411-413 | Two units at 100000 give 200000, 38000 and 238000. |
| LocalStore.SubtotalConcat | app.js:411 | The subtotal is additive over concatenated carts. |
| LocalStore.Subtotal | app.js:411 | The sum of price·qty over the cart is non-negative when every price and quantity is. |
| LocalStore.Store.SubtractCart | app.js:428-434 | The stock loop leaves products at `ApplyCart` of the cart. |
| LocalStore.Store.SubtractLineInPlace | app.js:429-432 | One pass subtracts qty from the first product with the id, then floors it at 0. |
| LocalStore.ApplyCart | app.js:428-434 | The length is unchanged and only `stock` changes. |
| LocalStore.ApplyCartUntouched | app.js:428-434 | A product that no cart line finds is unchanged. |
| LocalStore.ApplyCartStock | app.js:429-432 | A product named by exactly one line ends at max(0, stock - qty). |
| LocalStore.ApplyCartNonNegative | app.js:431-432 | A product a cart line finds never ends below 0. |
| LocalStore.SameIdsSameFirst | app.js:429 | Changing only stock does not change which product `find` returns. |
| LocalStore.SubtractLineAt | app.js:429-432 | One pass changes only the found product's stock, to max(0, stock - qty). |
| LocalStore.SubtractLine | app.js:429-432 | One pass keeps the length, changes only `stock`, and never drives a non-negative stock below 0. |
| LocalStore.CreditFirst | app.js:437-438 | The number of clients is unchanged. |
| LocalStore.CreditFirstExact | app.js:437-438 | The first client with the id gets `(totalSpent or 0) + total`. Every other client is unchanged. |
| LocalStore.Store.AddToCart | app.js:324-346 | The outcome and the new cart are those of `AddToCartSpec`: append exactly the new line, increment exactly below stock, otherwise no change. The data store is unchanged. |
| LocalStore.AddToCartSpec | app.js:324-346 | An unknown id does nothing. A product not yet in the cart is appended as exactly the line `{id, name, price, qty: 1, maxStock: stock}`. A product already in the cart is incremented exactly when its line's qty is below the product's stock, and then only that line's qty goes up by 1; otherwise the cart is unchanged. |
| LocalStore.AddToCartKeepsLinesUnique | app.js:327-343 | The cart never holds two lines for one product. |
| LocalStore.AddToCartSubtotal | app.js:330-343 | An appended line raises the subtotal by the product's price. An increment raises it by the line's price and keeps qty ≤ the product's current stock. |
| LocalStore.SubtotalPointUpdate | app.js:411 | Replacing one line changes the subtotal by the difference of the two line amounts. |
| LocalStore.Store.RemoveFromCart | app.js:348-351 | The cart becomes `splice(index, 1)` of the old cart, and the data store is unchanged. |
| LocalStore.SpliceOne | app.js:349 | An index in range removes exactly that line. A negative index from -length to -1 removes the line that many places from the end. A more negative index removes the first line. An index past the end, or an empty cart, changes nothing. |
| LocalStore.SpliceOneSubtotal | app.js:349 | Removing a line lowers the subtotal by exactly that line's amount. |
| LocalStore.RemoveUndoesAppend | app.js:349 | Removing the line just appended gives back the previous cart. |
| LocalStore.Store.DeleteSale | app.js:504-507 | Only sales with that id are removed. Products and clients are unchanged, so stock and totalSpent are not restored. |
| LocalStore.TotalSalesSplit | app.js:152 | Deleting the sales with an id lowers the dashboard sales total by exactly their totals. |
| LocalStore.Store.DeleteProduct | app.js:265-272 | Exactly the products with that id are removed. |
| LocalStore.Store.DeleteExpense | app.js:556-563 | Exactly the expenses with that id are removed. |
| LocalStore.Store.DeleteClient | app.js:604-611 | Id 1 is refused with no change. Any other id removes exactly the clients with that id. |
| LocalStore.Store.constructor | app.js:2-7 | The initial store holds only client 1, "Cliente General", with totalSpent 0. |
| LocalStore.DashboardOf | app.js:151-165 | netProfit = gross profit - total expenses, and the low-stock count is at most the number of products. |
| LocalStore.TotalSalesAppend | app.js:152 | Appending a sale raises the sales total by exactly its total. |
| LocalStore.TotalSales | app.js:152 | The dashboard sales total is non-negative when every sale total is. |
| LocalStore.TotalExpenses | app.js:153 | The expense total is non-negative when every expense amount is. |
| LocalStore.TotalExpensesAppend | app.js:153 | Appending an expense raises the expense total by exactly its amount. |
| LocalStore.LineProfit | app.js:157-160 | A line whose product still exists earns its amount minus the product's current cost times qty. A line whose product is gone earns half its amount. |
| LocalStore.ItemsProfitAppend | app.js:156-161 | One more sold line adds exactly its own profit. |
| LocalStore.GrossProfitAppend | app.js:155-162 | One more sale adds exactly the profit of its items, priced against the current products. |
| LocalStore.CountLowStock | app.js:165 | The count never exceeds the number of products. |
| LocalStore.CountLowStockAppend | app.js:165 | A product is counted exactly when its stock is below 10. |
| Firestore.AddToCart | Index.js:255-263 | A new product is appended as `{...product, qty: 1}`. An existing product keeps the cart length, and lines for other products are untouched. |
| Firestore.AddToCartAtStock | Index.js:258 | An existing line with qty ≥ the product's stock leaves the cart unchanged. |
| Firestore.AddToCartBelowStock | Index.js:259 | Below stock, only that line changes, and its qty goes up by 1. |
| Firestore.IncrementLines | Index.js:259 | The length is kept and only `qty` changes. Every line with the id gains exactly 1, and every other line keeps its qty. |
| Firestore.FirstIsOnly | Index.js:256 | With unique ids, `find` returns the only line with that id. |
| Firestore.AddToCartKeepsIdsUnique | Index.js:255-263 | The cart never holds two lines for one product. |
| Firestore.AddToCartWithinStock | Index.js:257-261 | A line's qty stays at most the product's stock. The exception is that a product with no stock can still enter once with qty 1. |
| Firestore.RemoveLine | Index.js:488 | Every line with the id is dropped, and every other line is kept. |
| Firestore.RemoveLineAppend | Index.js:488 | Removal keeps the remaining lines in order. |
| Firestore.RemoveUndoesAdd | Index.js:488 | Removing a product just added gives back the previous cart. |
| Firestore.CartTotalConcat | Index.js:218 | The invoice total is additive over concatenated carts. |
| Firestore.CartTotal | Index.js:218 | The invoice total is non-negative when every price and quantity is. |
| Firestore.CartTotalPointUpdate | Index.js:218 | Replacing one line changes the total by the difference of the two line amounts. |
| Firestore.AddToCartTotal | Index.js:218 | Each accepted add raises the invoice total by one unit price, with no tax. |
| Firestore.AddNewTotal | Index.js:218 | Adding a product not yet in the cart raises the total by exactly the product's price. |
| Firestore.Workspace.CreateInvoice | Index.js:214-253 | An empty cart or empty client name does nothing. Otherwise the invoice (total = cart total, status "paid") and an income transaction of the same amount are appended, each with its own date (two clock readings). Then each line's product gets `stock - qty` from the line snapshot. On success the cart and client name are cleared. A missing product document stops the loop with earlier writes kept and the cart kept. |
| Firestore.Workspace.UpdateStock | Index.js:240-242 | One `updateDoc` writes the snapshot stock minus qty, and fails for a missing document. |
| Firestore.Workspace.WriteCartStocks | Index.js:239-243 | The stock loop writes every line in order. When a product document is missing, it stops at the first such line, keeps the writes before it, and reports that line's index. |
| Firestore.WriteStock | Index.js:241-242 | The set of product ids is unchanged. |
| Firestore.WriteStocks | Index.js:239-243 | The set of product ids is unchanged. |
| Firestore.WriteStocksUntouched | Index.js:239-243 | A product named by no line keeps its document. |
| Firestore.WriteStocksLine | Index.js:241-242 | With unique ids, each line's product ends at the line's snapshot stock minus qty. The current stock is ignored and there is no clamp. |
| Firestore.EmptyShelfGoesNegative | Index.js:241-242 | A product with stock 0 enters the cart and is invoiced, and its stock becomes -1. |
| Firestore.StaleSnapshotOverwrites | Index.js:241-242 | A restock made after the product entered the cart is lost: stock 10, snapshot 3, qty 2 ends at 1. |
| Firestore.LowStockItems | Index.js:169 | The count is at most the number of products. It is 0 exactly when no product has stock below 5. |
| Firestore.StatsOf | Index.js:156-171 | netProfit = totalIncome - totalExpense, and lowStockItems is at most the number of products. `StatsAddProduct` and `InvoiceRaisesIncome` give how each figure moves. |
| Firestore.TotalOfKind | Index.js:157-163 | A kind with no transactions totals 0. The total is non-negative when every amount is. |
| Firestore.InventoryValue | Index.js:165-167 | The inventory value is non-negative when every price and stock is. |
| Firestore.InventoryValueAppend | Index.js:165-167 | A product document adds exactly its price times its stock. |
| Firestore.LowStockItemsAppend | Index.js:169 | A product document is counted exactly when its stock is below 5. |
| Firestore.StatsAddProduct | Index.js:156-171 | A new product document moves only the inventory value and the low-stock count. Income, expense and net profit stay. |
| Firestore.TotalOfKindAppend | Index.js:157-163 | A transaction moves only the total of its own type, by its amount. |
| Firestore.InvoiceRaisesIncome | Index.js:230-236 | Recording an invoice raises income and net profit by exactly the invoice total. Expenses are unchanged. |
| Firestore.InvoiceFor | Index.js:221-227 | The invoice stores the cart as its items, a total equal to the cart total of those items, the client name, the date and status "paid". |
| Firestore.IncomeFor | Index.js:230-236 | The transaction counts its amount as income and nothing as expense. Its description is "Venta Factura - " followed by the client name, and its category is "Ventas". |
| Common.FirstIndex | app.js:429 | Returns the first index whose id matches, or None when no element matches. |
| Common.Without | app.js:506 | Keeps exactly the elements whose id differs. |
| Common.WithoutAppend | app.js:506 | Filtering distributes over concatenation. |

## Left out

- HTTP routing, JSON bodies and status codes are not modelled. 404 and 400 are the error values `SaleNotFound` and `CannotDeleteDefaultClient`. The 500 responses for a failed SQLite transaction are not modelled: a transaction either gives the new state or is not entered.
- SQLite NULL columns are not modelled. `total_spent` is always a number, so `IFNULL(total_spent, 0)` is the identity. A NULL `total_spent` reached by the reversal's debit is not modelled.
- `GET` endpoints, expenses endpoints, schema creation and seeding (server/db.js) are not modelled. Only the column lists shape the records.
- app.api.js is an HTTP wrapper and is not part of this model.
- In app.js, the DOM, toasts, modals, rendering, `saveData`/localStorage persistence and seeding, and the `save*` form handlers are not modelled.
- The confirmation dialog of the app.js delete callbacks is not modelled. The model is the callback body, run after the user confirms.
- Id generation from `Date.now()` is not modelled. The sale id and timestamp are parameters, and ids are not claimed to be unique.
- LocalStore.Store.ProcessSale: the client id comes from a `<select>` as a string and is compared to numeric ids with `==`. The model takes the id as an integer, so string/number coercion is not modelled. The client list is never empty, so the `data.clients[0]` fallback is a parameter choice.
- LocalStore.CreditFirst: the `(totalSpent || 0)` fallback is modelled for a missing value. A stored `totalSpent` of NaN is not modelled.
- In Index.js, Firebase auth, `onSnapshot` listeners, JSX rendering and the modal/tab state are not modelled. The form state is reduced to `clientName`.
- Firestore.Workspace.CreateInvoice: only a missing product document is modelled as a failing write. Failures of the two `addDoc` calls (network, permissions) are not modelled. The local `inventory` array is not modelled separately from the stored documents.
- `parseFloat`, `toFixed`, `Intl` currency formatting and all IEEE rounding are not modelled. Money is an exact `real`.
