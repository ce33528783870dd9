# Stock ledger of the inventory system, modelled in Dafny

This project models the warehouse stock ledger of the inventory system: the FastAPI
backend's tables and routes (`inventory-system/backend/main.py`), plus two pieces of
frontend logic. The first is the line editor and submit step of the shipment form
(`ShipmentManager.tsx`). The second is the dashboard's low-stock flag and its
grouping of stock rows by customer (`Dashboard.tsx`).

The backend keeps these tables:

- customers;
- products, whose SKU codes are unique;
- inventory rows keyed by (customer, product), each with a quantity, a target stock and a safety stock;
- shipments;
- an append-only inbound history;
- customer–product links.

Each route is one sequential read-check-change step. A route that raises an
`HTTPException` never commits, so it changes nothing.

Files and modules:

- `wrappers.dfy` (`Wrappers`): `Option` and `Result`.
- `tables.dfy` (`Tables`): the rows, request bodies and errors as datatypes. For the
  product, stock-in, overwrite and shipment routes it gives a function on the old tables
  that says what the new tables are. The customer, delete and link routes are simple
  enough that their methods state the new tables directly. Beside the functions are the
  lemmas about them: batch totals and the batch success condition,
  non-negativity, the edit delta law, the create-then-delete round trip, SKU uniqueness,
  and inbound-history balance.
- `routes.dfy` (`Routes`): class `Store` holds the tables as fields, with one method per
  route. The batch route loops over the items on a copy of the inventory table (the
  session) and assigns the fields only after the loop (the commit). Every method that has a
  matching `Tables` function is proved to give exactly that function's result; the others
  state their new tables in their own contracts. Every method is also proved to keep
  `Valid()`: row ids are distinct and fresh, and SKUs are unique.
- `shipment_form.dfy` (`ShipmentForm`): pure functions for removing, changing, syncing,
  filtering and building the payload. Class `Form` holds the component state; its
  handlers replace that state, as the React setters do.
- `dashboard.dfy` (`Dashboard`): `IsLowStock`, and the grouping reduce, which is run as a
  loop and proved against a specification by customer.

Behaviour kept exactly as the code has it:

- A stock source of `None` or `0` falls back to the selling customer, because the code uses Python `or`.
- A shipment stores the selling customer, not the stock source. So an edit or a delete
  adjusts the selling customer's row (`CrossSourceDeleteCreditsSeller`).
- A delete whose row is gone still deletes the shipment.
- No route checks the link table.
- No route checks the sign of a quantity (`NegativeItemRaisesStock`).
- The stock-in body declares both thresholds with the default 0, and the route writes any
  threshold that is not null. The stock-in form sends no thresholds, so every stock-in from
  it to an existing pair resets that row's target and safety stock to 0. After that the
  dashboard does not flag the row as low until its thresholds are set again (`FormStockInResetsThresholds`,
  `FormStockInClearsLowStock`).

Where the design text and the code disagree, the model follows the code:

- The code has no authorisation gate against the link table.
- A delete does not recreate a missing row.
- Unlinking an absent link is a 404, not a no-op.
- Deleting a customer or product does no reference check.
- An overwrite does append an inbound adjustment row.
- A batch with an empty item list is accepted and commits nothing, with no validation error
  (`EmptyBatchCommitsNothing`).
- No shipment route checks that the selling customer or the stock-source customer exists;
  only the inventory row at the source is looked up.

## Model

| member | source | states |
|---|---|---|
| `Tables.AddedProduct` | inventory-system/backend/main.py:224-233 | create is refused with SkuExists exactly when some product already has the SKU; otherwise the product is added under a fresh id; SKU uniqueness is preserved |
| `Tables.UpdatedProduct` | inventory-system/backend/main.py:240-259 | unknown id is NotFound; keeping the same SKU always succeeds; a changed SKU is refused with NewSkuExists exactly when it is taken; success overwrites only that product; SKU uniqueness is preserved |
| `Tables.InboundRemark` | inventory-system/backend/main.py:289 | a given non-empty remark is kept, and a missing or empty one becomes exactly "Initialization" |
| `Tables.StockInEntry` | inventory-system/backend/main.py:285-290 | the inbound row of a stock-in is for the request's pair, carries the request's quantity, and its remark is `InboundRemark` of the request's remark, so "Initialization" when that is missing or empty |
| `Tables.StockInRows` | inventory-system/backend/main.py:293-308 | after stock-in the pair has a row whose quantity grew by exactly the given amount (from 0 if it was new); an existing row keeps its id and a new one gets the fresh id; a threshold sent with a value is written; an omitted threshold, which the body default makes 0, resets the row's threshold to 0; only an explicit null keeps an existing row's threshold; every other row is untouched |
| `Tables.FormStockInResetsThresholds` | inventory-system/backend/main.py:90-91 | a stock-in body without thresholds, as the stock-in form sends it, on an existing pair leaves that row with its id, its quantity raised by the amount, and both thresholds 0 |
| `Tables.Overwritten` | inventory-system/backend/main.py:323-336 | the row keeps its id, each supplied field (quantity, target stock, safety stock) becomes exactly the supplied value, and each unsupplied field keeps its value |
| `Tables.AdjustmentLog` | inventory-system/backend/main.py:323-332 | an overwrite appends one adjustment row if and only if a quantity is supplied and differs; that row is for the row's pair, and old quantity plus its amount equals the new quantity |
| `Tables.StockInKeepsBalance` | inventory-system/backend/main.py:285-308 | stock-in moves a pair's held quantity and its inbound-history total by the same amount, for every pair |
| `Tables.OverwriteKeepsBalance` | inventory-system/backend/main.py:323-333 | an overwrite moves a pair's held quantity and its inbound-history total by the same amount, for every pair |
| `Tables.SourceOf` | inventory-system/backend/main.py:403 | the debited customer differs from the seller only when a non-zero source was given explicitly; a result of 0 means the seller is 0 |
| `Tables.DebitAll` | inventory-system/backend/main.py:401-419 | the batch fails only on a non-empty item list, and only with one of the two per-item errors (no row at the source, or too little stock there) |
| `Tables.DebitAllErrorNamesItem` | inventory-system/backend/main.py:410-414 | the product named by a failed batch's error is the product of one of its items |
| `Tables.DebitItem` | inventory-system/backend/main.py:405-419 | one item succeeds exactly when its source row exists and holds at least the item quantity; a missing row is NoItemInventory with the item's product and source; too little stock is InsufficientItemInventory with product, source and current amount; on success only that row is debited, by exactly the item quantity |
| `Tables.DebitAllFirstFailure` | inventory-system/backend/main.py:401-414 | when every item before item j fits and item j does not, the batch fails with item j's error: its product, its source, and what the earlier items left in that row |
| `Tables.DebitAllTotals` | inventory-system/backend/main.py:401-419 | on batch success the set of rows is unchanged and each row falls by exactly the sum of the quantities of the items aimed at it, with its id and thresholds unchanged |
| `Tables.DebitAllOkIff` | inventory-system/backend/main.py:401-419 | a batch succeeds if and only if every item's source row exists and holds, after the earlier items of the batch were debited, at least the item's quantity |
| `Tables.DebitAllLeavesTouchedRowsNonNegative` | inventory-system/backend/main.py:413-417 | after a successful batch every row an item was aimed at holds a non-negative quantity, whatever the signs of the items |
| `Tables.DebitAllNeverRaises` | inventory-system/backend/main.py:413-417 | with non-negative item quantities no row's quantity grows in a successful batch |
| `Tables.NegativeItemRaisesStock` | inventory-system/backend/main.py:413-417 | with no sign check, an item of quantity -5 passes against an empty row and raises it to 5 |
| `Tables.ShipmentFor` | inventory-system/backend/main.py:422-427 | a batch item's shipment row is keyed to the selling customer's row for the item's product, whatever the item's source, and carries the item's quantity |
| `Tables.EmptyBatchCommitsNothing` | inventory-system/backend/main.py:401-437 | a batch without items debits nothing and creates no shipment |
| `Tables.BatchShipments` | inventory-system/backend/main.py:421-435 | one shipment per item in item order, each recording the selling customer, the item's product and quantity, the batch date and the batch RMA |
| `Tables.Numbered` | inventory-system/backend/main.py:435-444 | the returned shipments keep the item order and carry consecutive ids |
| `Tables.DebitSingle` | inventory-system/backend/main.py:369-381 | the single route succeeds exactly when the row at the defaulted source exists and holds at least the quantity; a missing row is NoSourceInventory for that source, too little stock is InsufficientInventory with the current amount; on success only that row changes, by exactly the quantity, keeping its id and thresholds |
| `Tables.SingleIsBatchOfOne` | inventory-system/backend/main.py:366-393 | the single-shipment route succeeds exactly when a batch of its one item would, and then leaves the same inventory |
| `Tables.EditedStock` | inventory-system/backend/main.py:462-478 | an absent or unchanged quantity leaves the inventory as it was; a change fails exactly when the selling customer's row is missing or an increase exceeds its stock; a missing row gives RelatedInventoryMissing and an increase beyond the stock gives InsufficientToIncrease; on success only that row's quantity changes, by old minus new quantity, and its id and thresholds stay; no other row changes |
| `Tables.Edited` | inventory-system/backend/main.py:480-483 | an edit never changes the shipment's customer or product; quantity, date and RMA each become the supplied value or stay as they were |
| `Tables.EditRepeatIsNoop` | inventory-system/backend/main.py:462-483 | issuing the same edit a second time changes neither the inventory nor the shipment |
| `Tables.EditsCompose` | inventory-system/backend/main.py:462-476 | two successive successful edits leave the inventory exactly where one successful edit to the final quantity would |
| `Tables.Returned` | inventory-system/backend/main.py:497-507 | a delete adds the shipment's quantity to the selling customer's row when that row exists, otherwise leaves the inventory unchanged; no other row changes |
| `Tables.BatchThenDeleteRestores` | inventory-system/backend/main.py:490-509 | deleting every shipment of a successful batch whose items all draw on the seller's own stock restores the inventory exactly |
| `Tables.SingleThenDeleteRestores` | inventory-system/backend/main.py:490-509 | a single shipment from the seller's own stock followed by deleting it restores the inventory exactly |
| `Tables.CrossSourceDeleteCreditsSeller` | inventory-system/backend/main.py:421-433 | a shipment drawn from another customer's stock is returned to the seller's row on delete, and the source's row stays debited |
| `Routes.Store.constructor` | inventory-system/backend/main.py:146-148 | the store starts with all tables empty and satisfies the table invariants |
| `Routes.Store.CreateCustomer` | inventory-system/backend/main.py:173-179 | adds the customer under a fresh id, nothing else changes |
| `Routes.Store.UpdateCustomer` | inventory-system/backend/main.py:200-211 | unknown id is NotFound with nothing changed; otherwise name and contact are replaced |
| `Routes.Store.DeleteCustomer` | inventory-system/backend/main.py:213-221 | unknown id is NotFound; otherwise only the customer is removed, with no reference check |
| `Routes.Store.CreateProduct` | inventory-system/backend/main.py:224-233 | refused with SkuExists exactly when the SKU is taken, with nothing changed; otherwise the catalogue becomes `AddedProduct` of the old one under a fresh id; SKUs stay unique |
| `Routes.Store.UpdateProduct` | inventory-system/backend/main.py:240-259 | gives exactly the result of `UpdatedProduct`; SKUs stay unique |
| `Routes.Store.DeleteProduct` | inventory-system/backend/main.py:261-269 | unknown id is NotFound; otherwise only the product is removed |
| `Routes.Store.StockIn` | inventory-system/backend/main.py:282-314 | appends exactly one inbound row with the given quantity and defaulted remark; the inventory becomes `StockInRows` of the old one; returns the pair's row; at most one row per pair and distinct row ids are kept |
| `Routes.Store.Overwrite` | inventory-system/backend/main.py:316-344 | unknown id is NotFound with nothing changed; otherwise only that row is overwritten and the adjustment row, if any, is appended |
| `Routes.Store.DeleteInventory` | inventory-system/backend/main.py:346-354 | unknown id is NotFound; otherwise exactly that row is removed |
| `Routes.Store.CreateShipment` | inventory-system/backend/main.py:366-393 | on failure nothing changes and the error is the route's; on success the source row is debited and one shipment under the selling customer is added with a fresh id |
| `Routes.Store.CreateBatchShipment` | inventory-system/backend/main.py:395-444 | atomic: if any item fails, the error `DebitAll` gives is returned, which `DebitAllFirstFailure` shows is the first failing item's, and neither the inventory nor the shipments change; on success the inventory is `DebitAll` of the old one and the batch's shipments are added under fresh consecutive ids and returned in item order |
| `Routes.Store.UpdateShipment` | inventory-system/backend/main.py:455-488 | unknown id is NotFound; a rejected quantity change leaves everything unchanged; otherwise the inventory is `EditedStock` of the old one and the shipment is `Edited` |
| `Routes.Store.DeleteShipment` | inventory-system/backend/main.py:490-509 | unknown id is NotFound with nothing changed; otherwise the inventory is `Returned` of the old one and the shipment is removed |
| `Routes.Store.Link` | inventory-system/backend/main.py:512-522 | always succeeds, reports whether the pair was already linked, and the pair is linked afterwards |
| `Routes.Store.Unlink` | inventory-system/backend/main.py:524-532 | an absent link is NotFound with nothing changed; otherwise exactly that link is removed |
| `Routes.ShipThenDelete` | inventory-system/backend/main.py:366-509 | through the route methods, a single shipment whose source resolves to the seller (no source, 0, or the seller's own id) followed by its deletion leaves the inventory as it was, and it succeeds whenever the shipment is accepted |
| `ShipmentForm.Removed` | inventory-system/frontend/src/components/ShipmentManager.tsx:109-113 | for a position inside the list, exactly that line is removed: the length drops by one and the other lines keep their order; otherwise the list is unchanged |
| `ShipmentForm.Changed` | inventory-system/frontend/src/components/ShipmentManager.tsx:115-125 | only line `index` changes; setting the source also clears that line's product |
| `ShipmentForm.Synced` | inventory-system/frontend/src/components/ShipmentManager.tsx:75-84 | every line's source becomes the selling customer and quantities are kept; a product is kept exactly when the line's source already matched (or it was already 0) |
| `ShipmentForm.SyncedIdempotent` | inventory-system/frontend/src/components/ShipmentManager.tsx:75-84 | running the sync again changes nothing |
| `ShipmentForm.ValidLines` | inventory-system/frontend/src/components/ShipmentManager.tsx:130 | the kept lines are exactly the lines with positive product and quantity; the result is empty exactly when no line is valid |
| `ShipmentForm.ValidLinesConcat` | inventory-system/frontend/src/components/ShipmentManager.tsx:130 | the filter keeps the original order: it distributes over concatenation |
| `ShipmentForm.PayloadItems` | inventory-system/frontend/src/components/ShipmentManager.tsx:148-152 | one batch item per line in the same order, carrying product, quantity and the line's source |
| `ShipmentForm.Submit` | inventory-system/frontend/src/components/ShipmentManager.tsx:127-154 | refused with "Select a customer." when no selling customer is chosen; refused with "Add at least one valid item." when no line is valid; otherwise edit mode sends the first valid line's quantity with the date and RMA, and create mode sends the valid lines as items under the selected customer |
| `ShipmentForm.SubmittedBatchIsPositive` | inventory-system/frontend/src/components/ShipmentManager.tsx:130-152 | a submitted batch is non-empty, carries only positive products and quantities, and each item is debited from its line's source, or from the seller when the source is 0 |
| `ShipmentForm.SyncedBatchDrawsFromSeller` | inventory-system/frontend/src/components/ShipmentManager.tsx:75-84 | after the selling-customer sync, every submitted item is debited from the selling customer |
| `ShipmentForm.DatePart` | inventory-system/frontend/src/components/ShipmentManager.tsx:92 | the edit form's date is the first 10 characters of the shipment date, or all of it when it is shorter |
| `ShipmentForm.Form.constructor` | inventory-system/frontend/src/components/ShipmentManager.tsx:15-25 | the form starts with no shipment being edited, no selling customer, an empty RMA, today's date and one blank line |
| `ShipmentForm.Form.HandleOpen` | inventory-system/frontend/src/components/ShipmentManager.tsx:64-72 | create mode opens with exactly one blank line, an empty RMA and no error |
| `ShipmentForm.Form.HandleEdit` | inventory-system/frontend/src/components/ShipmentManager.tsx:86-95 | edit mode opens with exactly one line whose source is the shipment's customer and whose product and quantity are the shipment's |
| `ShipmentForm.Form.SelectCustomer` | inventory-system/frontend/src/components/ShipmentManager.tsx:233 | the selling customer becomes the chosen one |
| `ShipmentForm.Form.SyncSellingCustomer` | inventory-system/frontend/src/components/ShipmentManager.tsx:75-84 | in create mode with the modal open and a selling customer chosen, the lines become `Synced`; otherwise they are left alone |
| `ShipmentForm.Form.HandleAddItem` | inventory-system/frontend/src/components/ShipmentManager.tsx:105-107 | appends one blank line drawing from the selling customer and leaves the existing lines unchanged |
| `ShipmentForm.Form.HandleRemoveItem` | inventory-system/frontend/src/components/ShipmentManager.tsx:109-113 | the lines become `Removed` of the old ones |
| `ShipmentForm.Form.HandleItemChange` | inventory-system/frontend/src/components/ShipmentManager.tsx:115-125 | the lines become `Changed` of the old ones |
| `ShipmentForm.Form.HandleSubmit` | inventory-system/frontend/src/components/ShipmentManager.tsx:127-154 | shows `Submit`'s error and sends nothing, or sends exactly `Submit`'s request |
| `Dashboard.IsLowStock` | inventory-system/frontend/src/components/Dashboard.tsx:135 | a row is low exactly when its safety stock is present and positive and its quantity is at most that safety stock |
| `Dashboard.NoThresholdNeverLow` | inventory-system/frontend/src/components/Dashboard.tsx:135 | a row with a missing, zero or negative safety stock is never low, whatever its quantity |
| `Dashboard.BatchKeepsLowStockLow` | inventory-system/frontend/src/components/Dashboard.tsx:135 | a successful batch of non-negative items never clears a row's low-stock flag |
| `Dashboard.FormStockInClearsLowStock` | inventory-system/frontend/src/components/Dashboard.tsx:135 | after a stock-in without thresholds, as the stock-in form sends it, the pair's row is never flagged low, whatever its quantity |
| `Dashboard.NameOf` | inventory-system/frontend/src/components/Dashboard.tsx:88 | a present non-empty customer name is the title; a missing or empty one becomes exactly 'Unknown Customer'; so the title is never empty |
| `Dashboard.ItemsOf` | inventory-system/frontend/src/components/Dashboard.tsx:85-94 | a customer's rows are exactly the listed rows with that customer id; they are empty exactly when the customer is not in the list |
| `Dashboard.ItemsOfConcat` | inventory-system/frontend/src/components/Dashboard.tsx:92 | within a group, rows keep the order they had in the fetched list |
| `Dashboard.GroupNameConcat` | inventory-system/frontend/src/components/Dashboard.tsx:88-91 | rows after the first row seen for a customer do not change its group's name |
| `Dashboard.AddToGroups` | inventory-system/frontend/src/components/Dashboard.tsx:87-93 | one reduce step opens the row's customer group, named after that row, when it is missing; it appends the row to that group and leaves every other group alone |
| `Dashboard.Grouped` | inventory-system/frontend/src/components/Dashboard.tsx:85-94 | the reduce never yields an empty group |
| `Dashboard.GroupedKeys` | inventory-system/frontend/src/components/Dashboard.tsx:85-94 | the reduce opens a group for exactly the customers that occur in the list |
| `Dashboard.GroupedAt` | inventory-system/frontend/src/components/Dashboard.tsx:85-94 | each group is named after the first row seen for its customer and holds that customer's rows in list order |
| `Dashboard.GroupInventory` | inventory-system/frontend/src/components/Dashboard.tsx:85-94 | the loop yields one group per customer in the list, named after its first row and holding exactly its rows in list order |
| `Dashboard.GroupSizesSum` | inventory-system/frontend/src/components/Dashboard.tsx:85-94 | every row lands in exactly one group: over any repetition-free listing of the customers, the group sizes sum to the list length |

## Left out

- Persistence and plumbing are not modelled: the FastAPI app, CORS, the SQLite engine, table creation, relationship loading, `refresh`, and the `read_*` list routes with their joins and ordering. The tables are fields of one object, and a commit is the assignment of those fields.
- Timestamps are omitted (`updated_at`, `created_at`, `inbound_date` and the form's initial date). They are filled from the clock and carry no logic; the form's initial date is a constructor parameter.
- Concurrent requests are out of scope. Each route is one atomic sequential step, which is also why the inventory table can be a map keyed by (customer, product).
- Primary keys come from a per-table counter. SQLite may reuse the largest id after a delete; the model only relies on new ids being fresh.
- HTTP error details are typed `ApiError` constructors, not the formatted strings. The overwrite remark string is `Remark.ManualAdjustment(before, after)`.
- `Tables.StockInRows`: a new row whose request sends an explicit null threshold gets 0. The database's NOT NULL column would reject that insert instead.
- `Routes.Store.CreateBatchShipment`: the returned shipments carry ids and rows, not the joined customer and product records of the response model.
- The dates sent by the form pass through unchanged. `new Date(date).toISOString()` is not modelled.
- Frontend I/O and UI are not modelled: the `api` calls, `fetchData`/`fetchOptions` (including their default selection of the first customer), the handling of the response in `handleSubmit` (closing the modal, showing the server's detail), `handleDelete` with `confirm`, JSX rendering, and the `parseInt` of prompt text in the dashboard.
- `ShipmentForm.Form.HandleItemChange` requires an index inside the list. Its only caller passes the index of a rendered line, and JavaScript's behaviour for other indexes (a sparse array) is not modelled.
- Form values are integers. JavaScript's `Number()` can also produce fractions and NaN.
- `AddInventoryModal.tsx`, `CustomerManager.tsx`, `ProductManager.tsx`, `InboundHistoryManager.tsx` and `types.ts` are not part of this model. They are form and list wrappers around the REST calls, and interface declarations.
- A ledger-wide conservation law is not stated, because the code does not keep one. Shipments are not written to the inbound history, deletes credit the seller rather than the source, and deleting an inventory row discards its quantity. The balance is proved only for stock-in and overwrite.
