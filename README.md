# Per-warehouse stock and order intake of a liquor-distribution back office

This project models, in Dafny, the part of the back-office application that has
rules worth stating: the per-warehouse stock arithmetic and the order writes.

- **Stock** (`stock.dfy`). A product row has four stock columns: `stock` for the
  main warehouse, and `stock_1`, `stock_2` and `stock_3` for the three secondary
  ones. It also has a `min_stock` threshold. Each column may be missing; a missing
  column counts as 0, which is the source's `x || 0`. A warehouse is one of
  `Main`, `Secondary1`, `Secondary2` and `Secondary3`. Their string ids are
  `'main'`, `'1'`, `'2'` and `'3'`. An update record (`StockUpdate`) names the
  columns it writes.
- **Inventory service** (`inventory_service.dfy`). The products and
  inventory_movements tables are fields of the class `InventoryStore`. Both are
  sequences of rows. The three read-modify-write operations are methods:
  - `AddInventory` adds a delta to one column;
  - `UpdateInventory` sets one column to an absolute value;
  - `TransferInventory` moves stock between two columns, refusing an overdraw.

  Each method builds its update record step by step, rewrites the product row,
  then appends one movement. `.eq('id', id).single()` is `FetchProduct`: it
  yields the row when exactly one row has the id. `.update(..).eq('id', id)` is
  `UpdateRows`. Each method is proved against an outcome function
  (`AddOutcome`, `SetOutcome`, `TransferOutcome`). The lemmas about those
  functions state what the source promises.
- **Inventory hook** (`inventory_hook.dfy`). The class `InventoryHook` holds the
  loaded products and movements over the service. It has the fixed warehouse
  list, the handlers that reload products only on success, and `AddMovement`.
  `AddMovement` turns an `entrada`, `salida` or `transferencia` request into an
  add or a transfer.
- **Inventory page** (`inventory_page.dfy`). This covers:
  - the low-stock predicate and filter;
  - the warehouse-stock lookup;
  - the three-way stock status;
  - the transfer form's guard and its submission (`InventoryPage.HandleTransferSubmit`).
- **Order service** (`order_service.dfy`). This covers:
  - `createOrder`, which inserts the order and then its item rows, and deletes
    the order again when the items fail;
  - `updateOrderStatus` and the update record it builds.

Each remote call is one atomic step. Its failure is a boolean input: `Faults` for
the inventory operations, `OrderFaults` for order creation, and a `fails` flag
for single reads and writes.

Three behaviours of the code that the model keeps:
- `updateInventory` does not read the product before writing. An unknown product
  id makes the update match no row, yet a movement is still recorded and the
  result is true (`SetOutcomeEffect`).
- A successful operation's movement is appended only when the movement insert
  succeeds. The operation returns true either way.
- `updateOrderStatus` with a truthy delivery person id and an undefined name
  does not write the name. The undefined property is dropped when the record
  is sent.

## Model

| member | source | states |
|---|---|---|
| Stock.ParseWarehouse | src/hooks/useInventoryService.tsx:21-26 | a string denotes warehouse `w` exactly when it is `w`'s id (`main`, `1`, `2`, `3`); any other string denotes none |
| Stock.ApplyUpdate | src/services/inventory.service.ts:121-125 | the columns named in the update record take its values; all other columns and fields keep theirs |
| InventoryService.Matches | src/services/inventory.service.ts:101-105 | the rows selected by id are exactly the table's rows with that id |
| InventoryService.MatchesCounts | src/services/inventory.service.ts:101-105 | the selection by id holds each row with that id exactly as often as the table does, and no other row |
| InventoryService.MatchesKeepsOrder | src/services/inventory.service.ts:101-105 | the selection keeps table order: selecting from a table split in two is selecting from each part in turn |
| InventoryService.FetchProduct | src/services/inventory.service.ts:101-110 | the fetch succeeds exactly when one row has the id; it yields that row, and every row with the id equals it |
| InventoryService.UpdateRows | src/services/inventory.service.ts:121-125 | an update by id rewrites every row with that id and leaves every other row in place |
| InventoryService.OtherMatchesAfterUpdate | src/services/inventory.service.ts:122-125 | an update by one id changes nothing that any other id selects |
| InventoryService.OwnMatchesAfterUpdate | src/services/inventory.service.ts:122-125 | after an update by id, the rows with that id are exactly the rows it selected before, in order, each with the record applied |
| InventoryService.FetchAfterUpdate | src/services/inventory.service.ts:101-125 | after an update by id, fetching that id yields the previously fetched row with the record applied |
| InventoryService.UpdateMissingRow | src/services/inventory.service.ts:172-176 | an update by an id no row has leaves the table unchanged |
| InventoryService.UpdateRowsIdempotent | src/services/inventory.service.ts:164-176 | running the same update record twice leaves the table as running it once |
| InventoryService.TransferData | src/services/inventory.service.ts:227-262 | the transfer record is refused exactly when old source (missing = 0) minus quantity is below 0; otherwise it writes the source and destination columns, the destination getting old + quantity and, when distinct, the source old − quantity |
| InventoryService.AddChangesOneSlot | src/services/inventory.service.ts:112-125 | an add raises the chosen warehouse's stock (missing = 0) by the delta, with no lower bound; every other column and field is unchanged |
| InventoryService.AddThenSubtractRestores | src/services/inventory.service.ts:113-119 | adding q and then a delta that cancels it (−q) restores the warehouse's stock and changes no other field; a present column gives back the identical row |
| InventoryService.SetIsIdempotent | src/services/inventory.service.ts:164-170 | a set writes the new value whatever the old one was, touches no other column, and setting again changes nothing |
| InventoryService.TransferConserves | src/services/inventory.service.ts:228-262 | a transfer between distinct warehouses lowers the source by q (staying ≥ 0), raises the destination by q, keeps the other two columns and conserves the total stock |
| InventoryService.TransferToSelfGains | src/services/inventory.service.ts:250-262 | with source = destination the destination write overwrites the source write: that warehouse and the total both gain q, and the service does not reject it |
| InventoryService.TransferRefused | src/services/inventory.service.ts:243-247 | when the fetched row's source stock minus the quantity is negative, transferInventory returns false and writes nothing |
| InventoryService.TransferWrites | src/services/inventory.service.ts:249-268 | when fetch and write succeed and the source suffices, the products table becomes the update by id with the record holding the new source and destination values |
| InventoryService.AddOutcomeEffect | src/services/inventory.service.ts:98-130 | addInventory succeeds exactly when the fetch and the update succeed, whatever the sign of the result; the product's row is then the fetched row with one column raised by the delta, and no other product changes |
| InventoryService.AddTwiceRestores | src/services/inventory.service.ts:98-130 | two successful adds of q and −q on one product and warehouse restore that stock and leave every other column and product unchanged |
| InventoryService.SetOutcomeEffect | src/services/inventory.service.ts:157-181 | updateInventory succeeds exactly when the write succeeds. The fetched row gets the new value, and applying it again changes nothing. An unknown id changes no row, and no other product changes |
| InventoryService.TransferOutcomeEffect | src/services/inventory.service.ts:208-273 | transferInventory fails with no write when old source − quantity < 0. It succeeds exactly when fetch and write succeed and the source suffices. Between distinct warehouses the source drops and the destination rises by q, the total is conserved, and the other columns and products stay the same |
| InventoryService.MovementsFor | src/services/inventory.service.ts:301-311 | with a product id, exactly the movements whose product is that id; with an empty id, every movement in order |
| InventoryService.MovementsForCounts | src/services/inventory.service.ts:301-311 | each matching movement is returned exactly as often as the log holds it, so equal movements are never merged; no other movement is returned |
| InventoryService.MovementsForKeepsOrder | src/services/inventory.service.ts:307-309 | the selection keeps table order: selecting from a log split in two is selecting from each part in turn |
| InventoryService.InventoryStore.GetProducts | src/services/inventory.service.ts:8-24 | all product rows, or none when the query fails |
| InventoryService.InventoryStore.AddInventory | src/services/inventory.service.ts:98-152 | result and new products table are those of `AddOutcome`; one `add` movement with the delta is appended exactly on success when its insert does not fail |
| InventoryService.InventoryStore.UpdateInventory | src/services/inventory.service.ts:157-203 | result and new products table are those of `SetOutcome`; one `update` movement with the absolute value is appended exactly on success when its insert does not fail |
| InventoryService.InventoryStore.TransferInventory | src/services/inventory.service.ts:208-296 | result and new products table are those of `TransferOutcome`; one `transfer` movement with source, destination and quantity is appended exactly on success when its insert does not fail; on failure nothing is written |
| InventoryService.InventoryStore.GetInventoryMovements | src/services/inventory.service.ts:301-323 | the product's movements (all for an empty id), or none when the query fails |
| InventoryHook.WarehouseListFixed | src/hooks/useInventoryService.tsx:21-26 | the warehouse list has the four warehouses `main`, `1`, `2`, `3`, distinct and in that order |
| InventoryHook.Dispatch | src/hooks/useInventoryService.tsx:237-249 | `entrada` is an add of +quantity, `salida` an add of −quantity, `transferencia` with a destination a transfer from `warehouse_id` to it; anything else is no stock operation |
| InventoryHook.EntradaIsAdd | src/hooks/useInventoryService.tsx:238-239 | the outcome of an `entrada` is that of addInventory with the request's product, warehouse and quantity |
| InventoryHook.SalidaIsSubtract | src/hooks/useInventoryService.tsx:240-241 | a `salida` dispatches to addInventory on the same product and warehouse with the negated quantity, and its outcome is that add's |
| InventoryHook.EntradaThenSalidaRestores | src/hooks/useInventoryService.tsx:238-241 | an `entrada` followed by a `salida` of the same quantity, both succeeding, restores the warehouse's stock and leaves all else unchanged |
| InventoryHook.InventoryHook.LoadProducts | src/hooks/useInventoryService.tsx:29-41 | the loaded products become the table's rows, or none when the read fails |
| InventoryHook.InventoryHook.LoadMovements | src/hooks/useInventoryService.tsx:43-55 | the loaded movements become the product's movements, or none when the read fails |
| InventoryHook.InventoryHook.HandleAddInventory | src/hooks/useInventoryService.tsx:138-163 | returns the service's result and reloads products exactly when it is true; the tables change as addInventory changes them |
| InventoryHook.InventoryHook.HandleUpdateInventory | src/hooks/useInventoryService.tsx:165-190 | returns the service's result and reloads products exactly when it is true; the tables change as updateInventory changes them |
| InventoryHook.InventoryHook.HandleTransferInventory | src/hooks/useInventoryService.tsx:192-228 | returns true exactly when the service returns true, and reloads products only then; the tables change as transferInventory changes them |
| InventoryHook.InventoryHook.AddMovement | src/hooks/useInventoryService.tsx:231-270 | performs the dispatched operation (none for other types or a transfer without destination), reloads all movements, and returns true even when the operation failed |
| InventoryPage.LowStockIffSomeWarehouseBelow | src/pages/Inventory.tsx:85-93 | a product is low on stock exactly when some warehouse's stock (missing = 0) is below `min_stock` (missing = 0) |
| InventoryPage.LowStockProducts | src/pages/Inventory.tsx:85-93 | the filter keeps exactly the loaded products that are low on stock |
| InventoryPage.LowStockCounts | src/pages/Inventory.tsx:85-93 | each low-stock product is kept exactly as often as the loaded list holds it, and no other product is kept |
| InventoryPage.LowStockKeepsOrder | src/pages/Inventory.tsx:85-93 | the filter keeps list order: filtering a list split in two is filtering each part in turn |
| InventoryPage.GetWarehouseStock | src/pages/Inventory.tsx:151-157 | `main`, `1`, `2`, `3` read `stock`, `stock_1`, `stock_2`, `stock_3` (missing = 0); any other id reads 0 |
| InventoryPage.RenderStockStatus | src/pages/Inventory.tsx:159-167 | exactly one of: stock ≤ 0 is 'Sin Stock'; 0 < stock < min is 'Bajo Stock'; otherwise 'OK' |
| InventoryPage.MainStatusAgreesWithLowStock | src/pages/Inventory.tsx:406-413 | the card's 'Bajo Stock' for the main warehouse implies the product is flagged low; an unflagged product with main stock shows 'OK' |
| InventoryPage.CheckTransferRequest | src/pages/Inventory.tsx:98-114 | an empty product, source or destination, or quantity ≤ 0, is refused as incomplete. Otherwise equal warehouses are refused. A form that passes has distinct warehouses and positive quantity |
| InventoryPage.FormTransferConserves | src/pages/Inventory.tsx:98-122 | a transfer the form lets through and the service performs conserves the product's total stock and leaves the source non-negative |
| InventoryPage.InventoryPage.HandleTransferSubmit | src/pages/Inventory.tsx:95-149 | a refused form calls nothing and keeps its state. Otherwise the transfer runs. On success the form is reset and products reloaded; on false the form and loaded products are kept |
| OrderService.ItemRows | src/services/order.service.ts:79-84 | one row per item, in order, each carrying the new order id and the item's product, quantity and price |
| OrderService.DeleteOrders | src/services/order.service.ts:93 | the delete keeps exactly the orders whose id differs |
| OrderService.DeleteOrdersCounts | src/services/order.service.ts:93 | each order without the id is kept exactly as often as the table holds it, and no order with the id is |
| OrderService.DeleteOrdersKeepsOrder | src/services/order.service.ts:93 | the delete keeps table order: deleting from a table split in two is deleting from each part in turn |
| OrderService.DeleteUndoesInsert | src/services/order.service.ts:86-95 | deleting by a fresh id right after inserting that order gives back the original orders table |
| OrderService.ApplyOrderUpdate | src/services/order.service.ts:126-129 | the status is always written; each delivery field only when the record carries it; other fields are kept |
| OrderService.UpdateOrders | src/services/order.service.ts:126-129 | an update by id rewrites every order with that id and leaves every other order in place |
| OrderService.StatusUpdate | src/services/order.service.ts:117-124 | the record always has the status. It carries the delivery person's id (and name) exactly when the id is truthy; otherwise neither |
| OrderService.StatusUpdateEffect | src/services/order.service.ts:117-129 | after the update every order with the id has the new status, whatever the old one. Its delivery fields change only for a truthy id. Other orders and fields are untouched |
| OrderService.OrderStore.CreateOrder | src/services/order.service.ts:53-105 | returns the order (status 'pendiente', caller's customer, address and total) with the caller's items exactly when both inserts succeed. A failed order insert writes nothing. A failed item insert writes no item and deletes the order, so a fresh-id order leaves the table as it began |
| OrderService.OrderStore.UpdateOrderStatus | src/services/order.service.ts:110-141 | returns false exactly when the update reports an error, and then changes nothing; otherwise the orders table gets the status record |

## Left out

- The hosted backend client is not modelled. Tables are sequences of rows in
  memory, and each call's failure is an input.
- The race between a read and the following write, and concurrent transfers, are
  not modelled. Each service call is one atomic step.
- An exception thrown by a call, rather than an error it returns, is not modelled
  separately. Every call in the core returns its error. A throw during the
  movement insert would make an operation report false after its stock write.
- MovementsFor: does not order the result by `date` descending as the query
  does. Timestamps are not modelled, so movements keep their table order.
- MovementsForKeepsOrder: proves that the selection keeps table order, because
  the `date`-descending sort is not modelled (see `MovementsFor` above).
- Timestamps, loading and error flags, toasts and log lines are not modelled.
  The page's toast is reduced to the `SubmitOutcome` value.
- Stock keys for warehouse ids other than the four (`stock_${id}` for an
  arbitrary id) are not modelled. The service takes a `WarehouseId`.
- Quantities are integers. JavaScript numbers can also be fractional or NaN.
  For example, `parseInt` of a non-numeric field gives NaN, and `NaN <= 0` is
  false, so the form guard would let NaN through.
- StatusUpdate: takes the delivery person id as an integer, so it does not model
  `deliveryPersonId` being NaN. The deliveries page passes `parseInt` of the user
  id, which is NaN for a non-numeric id. NaN is falsy, so the source then writes
  only `status` and neither delivery field.
- Prices, costs and totals are carried as `real` and only copied. The model
  does no money arithmetic (`calculateTotal`, `toFixed`).
- Product fields other than id, name, the four stock columns and `min_stock`
  are not modelled, because the core logic does not read them.
- Product create, update and delete (`createProduct`, `updateProduct`,
  `deleteProduct` and their hook handlers) are single-row writes outside this
  core.
- The order id is generated by the database. `CreateOrder` takes it as `newId`.
  The compensating delete's result is ignored by the source, so it is an input.
- The caller of `addMovement` (the movement history component) is not part of
  this model.
- Authentication, profiles, the other pages, invoices and deliveries are not
  part of this model.
