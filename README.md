# Pharmacy inventory: a Dafny model

This project models the pharmacy inventory application: a NestJS backend over a
relational database and a Next.js admin front end. The model covers these parts:

- **The dispensing engine** (`DispenseService`). A multi-line request is
  allocated across a medicine's batches in first-expiry-first-out (FEFO) order.
  Each deduction writes one `OUT` stock log and one receipt item. A line that
  cannot be met in full rolls the whole transaction back.
- **The batch ledger** (`BatchesService`). It creates batches with an `IN` log,
  logs quantity corrections as `IN,ADJUST` or `OUT,ADJUST`, and refuses to
  delete a batch that holds stock or that a receipt line still names.
- **The medicine catalogue** (`MedicinesService`). It builds the expired and
  non-expired inventory summaries, creates a medicine with its opening batches,
  updates a medicine, and guards its deletion.
- **Spreadsheet import** (`ImportExcelService`). It projects rows by import
  type and sends each selected row to created, updated, errors or skipped.
- **Category and unit registries** (`CategoryService`, `UnitsService`), and the
  guard clauses of the image upload endpoint (`UploadController`).
- **The front end's state and helpers.** This covers the dispense cart and the
  reorder list, the inventory modal store, the stock-log filters, the three
  stock-band classifiers, pagination, the forms and their validators, the
  spreadsheet preview and CSV template, and the dashboard, stock-log and
  receipt aggregates.

The backend's tables are one `Ledger.Database` object whose fields are
sequences. The service operations are methods that change those fields.
A transaction that rolls back is modelled as the tables ending as they began;
only the receipt counter stays advanced, since the identity value is used up. The front-end stores and forms are classes whose methods replace their
fields. Pure helpers are functions, and lemmas state the properties that
relate them.

Each of these is a parameter: the clock, the user who is
logged in, the answer of the storage service, and the cache entry of an import.
Prices are integers that are only copied. An expiry is the number of its `date` column's
day, and the backend's `now` is `Ledger.ClockDay` of the clock: the first day whose
midnight is not before it. Comparing days with that day gives the answer the source's
comparison of the date's midnight with `new Date()` gives, so a batch counts as expired
from the start of its expiry day.

## Model

| member | source | states |
|---|---|---|
| `DispenseService.Dispense` | backend/src/modules/dispense/dispense.service.ts:26-113 | On success the batch table, the logs and the receipt items are exactly what the FEFO deductions of the lines make them, and one receipt is appended: the resolved user, the patient name or "Walk-in Customer", and `totalItems` = the sum of the requested quantities. When a line is short, the result is `NotEnoughStock(medicineId)` and batches, logs, receipts and receipt items are all as they were. |
| `DispenseService.DispenseLinesLoop` | backend/src/modules/dispense/dispense.service.ts:48-100 | The lines are processed in the order given, each against the stock the earlier lines left. The loop stops at the first short line and reports its medicine. When every line is met, the log and receipt-item tables grow by exactly one entry per deduction, in order. |
| `DispenseService.DispenseLine` | backend/src/modules/dispense/dispense.service.ts:49-92 | One line fetches the non-expired batches of its medicine in FEFO order and walks them. The new batch table, the deductions made and the amount still owed are those of `Line`. Only quantities change, and logs and items are appended one per deduction. |
| `DispenseService.DrawFromBatches` | backend/src/modules/dispense/dispense.service.ts:62-92 | The inner loop stops once nothing is owed and skips a batch that can give nothing. Otherwise it takes `min(quantity, remaining)`, subtracts it, and appends an `OUT`/"Dispense" log and a receipt item with the same amount. The final state equals `WalkLine`. |
| `DispenseService.FefoOrder` | backend/src/modules/dispense/dispense.service.ts:53-60 | The batch query gives every batch of the medicine with expiry ≥ now, each exactly once, in ascending expiry. |
| `DispenseService.Line` | backend/src/modules/dispense/dispense.service.ts:49-92 | The reference for one line: the FEFO walk over the batch query's order. `LineFacts`, `LineIsFefo`, `LineUntouched` and `LineShortExhausts` state its properties. |
| `DispenseService.DispenseLines` | backend/src/modules/dispense/dispense.service.ts:48-100 | The reference for the whole request: the lines in turn, each on the batches the earlier ones left, stopping at the first short line. `Dispense` and `DispenseLinesLoop` are proved against it. |
| `DispenseService.InsertByExpiry` | backend/src/modules/dispense/dispense.service.ts:59 | Inserting an index into an expiry-sorted list keeps it sorted and adds exactly that index. |
| `DispenseService.FefoUpTo` | backend/src/modules/dispense/dispense.service.ts:53-60 | The query restricted to the first `n` rows: all eligible rows below `n`, sorted by expiry, none twice. |
| `DispenseService.WalkConserves` | backend/src/modules/dispense/dispense.service.ts:49-92 | What a line took plus what it still owes equals what it asked for. A line asking for ≤ 0 units takes nothing. |
| `DispenseService.WalkTakesFromOrder` | backend/src/modules/dispense/dispense.service.ts:62-69 | Every deduction is > 0 and comes from a fetched batch. The walk changes nothing but quantities. |
| `DispenseService.WalkTakesDistinct` | backend/src/modules/dispense/dispense.service.ts:62-92 | No batch is drawn from twice within a line. |
| `DispenseService.WalkUntouched` | backend/src/modules/dispense/dispense.service.ts:62-70 | A batch the walk did not draw from keeps its quantity. |
| `DispenseService.WalkAccounts` | backend/src/modules/dispense/dispense.service.ts:65-69 | Each deduction is at most the batch's stock and is subtracted from it exactly once. |
| `DispenseService.HeadUntouchedByRest` | backend/src/modules/dispense/dispense.service.ts:62-70 | The batch at the head of the order is not touched by the rest of the walk. |
| `DispenseService.WalkShortExhausts` | backend/src/modules/dispense/dispense.service.ts:62-99 | A walk that is still owed units has emptied every fetched batch (to 0 or below). |
| `DispenseService.WalkIsFefo` | backend/src/modules/dispense/dispense.service.ts:52-66 | A fetched batch is drawn from only when every batch before it in the order ended at 0 or below. |
| `DispenseService.LineFacts` | backend/src/modules/dispense/dispense.service.ts:49-92 | A line only lowers quantities and never below zero. Its deductions plus what it still owes equal its quantity. Each deduction is positive, within stock, and from a non-expired batch of the line's medicine. |
| `DispenseService.LineShortExhausts` | backend/src/modules/dispense/dispense.service.ts:94-99 | A short line left every non-expired batch of its medicine at 0 or below. |
| `DispenseService.LineIsFefo` | backend/src/modules/dispense/dispense.service.ts:52-66 | Within a line, a batch is drawn from only if every eligible batch that expires strictly earlier ended at 0 or below. |
| `DispenseService.LineUntouched` | backend/src/modules/dispense/dispense.service.ts:53-57 | A line leaves batches of other medicines, and expired batches, unchanged. |
| `DispenseService.DoneUntouched` | backend/src/modules/dispense/dispense.service.ts:52-63 | A completed dispense leaves unchanged every expired batch and every batch of a medicine that no line requests. |
| `DispenseService.DoneDrawsDown` | backend/src/modules/dispense/dispense.service.ts:48-100 | A completed dispense has one group of deductions per line. It only lowers quantities, never below zero. |
| `DispenseService.DoneLineSum` | backend/src/modules/dispense/dispense.service.ts:48-99 | The deductions of each line sum exactly to that line's requested quantity (to 0 for a line asking for ≤ 0). |
| `DispenseService.DoneLineValid` | backend/src/modules/dispense/dispense.service.ts:52-69 | Each deduction of line k is positive, within stock, and from a non-expired batch of line k's medicine. |
| `DispenseService.DoneTotal` | backend/src/modules/dispense/dispense.service.ts:34-89 | All deductions of a completed dispense, and so all its `OUT` logs and receipt items, add up to the total requested. |
| `DispenseService.NoStockIsShort` | backend/src/modules/dispense/dispense.service.ts:94-99 | A line for a medicine with no non-expired stock, including an unknown medicine, fails as not enough stock. |
| `DispenseService.ShortNamesALine` | backend/src/modules/dispense/dispense.service.ts:94-99 | The medicine named by the failure is the medicine of one of the requested lines. |
| `DispenseService.TakesValidEarlier` | backend/src/modules/dispense/dispense.service.ts:65-69 | A deduction valid against stock that was already drawn down is valid against the earlier stock. |
| `DispenseService.OutLogs` | backend/src/modules/dispense/dispense.service.ts:73-80 | One log per deduction, in order: action "OUT", quantityChange = the deduction, note "Dispense", the same user. |
| `DispenseService.ItemsFor` | backend/src/modules/dispense/dispense.service.ts:83-89 | One receipt item per deduction, in order, with the same quantity and the medicine's price or 0. |
| `DispenseService.LogsMatchItems` | backend/src/modules/dispense/dispense.service.ts:73-89 | The k-th log and the k-th receipt item name the same batch and the same quantity. |
| `DispenseService.DispenseKeepsConsistent` | backend/src/modules/dispense/dispense.service.ts:32-112 | A dispense keeps every id column distinct and below the next id, whether it commits or rolls back. |
| `Ledger.ResolveUser` | backend/src/modules/dispense/dispense.service.ts:35-39 | The actor is set only when a non-zero user id is given and found. |
| `Ledger.DetachLogs` | backend/src/modules/stock-logs/entities/stock-log.entity.ts:22-29 | Deleting batches keeps their stock logs and clears their batch reference. No other log changes. |
| `BatchesService.CreateBatch` | backend/src/modules/medicine-batches/medicine-batches.service.ts:40-69 | An unknown medicine fails with "Medicine not found" and nothing is saved. Otherwise exactly one batch is appended under the next id, with exactly one `IN` log of its quantity and note "New batch". |
| `BatchesService.ReceiveLog` | backend/src/modules/medicine-batches/medicine-batches.service.ts:61-67 | The log of a received batch: action "IN", the initial quantity, note "New batch", the user. |
| `BatchesService.UpdateBatch` | backend/src/modules/medicine-batches/medicine-batches.service.ts:71-129 | An unknown id fails with "Batch not found". Otherwise the fields given replace the stored ones, with no non-negativity check, and the correction log of `AdjustLog` is appended if there is one. |
| `BatchesService.ApplyUpdate` | backend/src/modules/medicine-batches/medicine-batches.service.ts:89 | Fields present in the update replace the stored ones. Absent fields keep their values, and the id and medicine never change. |
| `BatchesService.ApplyUpdateIdempotent` | backend/src/modules/medicine-batches/medicine-batches.service.ts:89 | Applying an update twice is applying it once, and an empty update changes nothing. |
| `BatchesService.AdjustLog` | backend/src/modules/medicine-batches/medicine-batches.service.ts:93-117 | There is no log when the quantity is absent or unchanged. An increase logs "IN,ADJUST" with note "Increase: old → new", and a decrease logs "OUT,ADJUST" with note "Decrease: old → new". The logged quantity is always the absolute change, > 0. |
| `BatchesService.AdjustLogReplays` | backend/src/modules/medicine-batches/medicine-batches.service.ts:94-113 | Applying the logged direction and magnitude to the old quantity gives the new quantity. |
| `BatchesService.AdjustNote` | backend/src/modules/medicine-batches/medicine-batches.service.ts:98-101 | The note starts with "Increase: " or "Decrease: ". |
| `BatchesService.RemoveBatch` | backend/src/modules/medicine-batches/medicine-batches.service.ts:131-136 | An unknown id fails with "Batch not found". A batch with quantity > 0 fails with "Cannot delete batch with stock" and nothing changes. A batch that some receipt item names is refused by the foreign key (`ON DELETE RESTRICT`, receipt-item.entity.ts:22-24) and nothing changes. Otherwise exactly that batch is deleted, its logs lose the reference, and no receipt item is left naming it. |
| `MedicinesService.FindAllWithSummary` | backend/src/modules/medicines/medicines.service.ts:32-69 | The non-expired view keeps every medicine in order, each with its summary. The expired view keeps exactly the medicines whose expired stock is > 0. |
| `MedicinesService.Summarize` | backend/src/modules/medicines/medicines.service.ts:37-59 | A medicine's summary replaces its batches by the view's batches, with `totalStock` their sum and `nearestExpired` their minimum expiry. |
| `MedicinesService.ViewBatches` | backend/src/modules/medicines/medicines.service.ts:40-42 | The expired view keeps the medicine's batches with expiry < now, and the other view those with expiry ≥ now. |
| `MedicinesService.NearestExpiry` | backend/src/modules/medicines/medicines.service.ts:47-52 | The nearest expiry is null exactly for no batches; otherwise it is one batch's expiry and ≤ every other. |
| `MedicinesService.ViewsSplitStock` | backend/src/modules/medicines/medicines.service.ts:40-45 | The two views' stocks add up to the medicine's whole stock. |
| `MedicinesService.ViewsPartition` | backend/src/modules/medicines/medicines.service.ts:40-42 | Every batch of the medicine is in exactly one view. |
| `MedicinesService.NoStockMeansEmpty` | backend/src/modules/medicines/medicines.service.ts:155-162 | With no negative batch, the stock is 0 exactly when every batch is empty. |
| `MedicinesService.BatchesOf` | backend/src/modules/medicines/medicines.service.ts:156-159 | The batches loaded with the medicine are exactly those that reference it. |
| `MedicinesService.CreateMedicine` | backend/src/modules/medicines/medicines.service.ts:77-128 | "Unit not found" and then "Category not found" fail before anything is saved. Otherwise the medicine is appended, with one batch and one "IN"/"New batch" log per supplied batch carrying that batch's quantity. |
| `MedicinesService.ReceiveOpeningBatches` | backend/src/modules/medicines/medicines.service.ts:102-125 | The loop appends the supplied batches in order under consecutive ids, each followed by its `IN` log. |
| `MedicinesService.OpeningBatches` | backend/src/modules/medicines/medicines.service.ts:108-115 | Batch k of the new medicine has id `first + k` and the k-th supplied number, quantity and expiry. |
| `MedicinesService.OpeningLogs` | backend/src/modules/medicines/medicines.service.ts:117-123 | Log k is the "IN"/"New batch" log of batch `first + k` with the k-th supplied quantity. |
| `MedicinesService.OpeningLogsMatchBatches` | backend/src/modules/medicines/medicines.service.ts:102-125 | Each opening log names its batch and carries that batch's quantity. |
| `MedicinesService.UpdateMedicine` | backend/src/modules/medicines/medicines.service.ts:129-153 | An unknown unit or category id fails only when that id is given and non-zero, unit first. Then an unknown medicine fails with "Medicine not found". Otherwise the given fields are merged into the stored medicine. |
| `MedicinesService.Merge` | backend/src/modules/medicines/medicines.service.ts:131-150 | The name is replaced. Each optional field is replaced when given and kept otherwise. The id never changes. |
| `MedicinesService.RemoveMedicine` | backend/src/modules/medicines/medicines.service.ts:155-162 | An unknown id fails. A medicine whose batches, expired included, sum to > 0 is refused and nothing changes. When a receipt item names one of its batches, the cascade meets the `ON DELETE RESTRICT` key and nothing changes. Otherwise it is deleted with its batches, their logs lose the reference, and no receipt item named those batches. |
| `MedicinesService.BatchIds` | backend/src/modules/medicines/medicines.service.ts:161 | The ids the cascade deletes are exactly those of the medicine's batches. |
| `MedicinesService.OtherBatches` | backend/src/modules/medicines/medicines.service.ts:161 | After the cascade, exactly the batches of other medicines remain. |
| `ImportExcelService.Project` | backend/src/modules/import-excel/import-excel.service.ts:157-182 | A projected row keeps name, categoryId and unitId. medicine_only rows carry no batch fields, and batch_only rows carry no generic name, price or supplier. |
| `ImportExcelService.FilterByImportType` | backend/src/modules/import-excel/import-excel.service.ts:153-184 | Projection keeps the row count and order. |
| `ImportExcelService.ProjectIdempotent` | backend/src/modules/import-excel/import-excel.service.ts:157-182 | Projecting twice is projecting once. medicine_batch keeps every field. |
| `ImportExcelService.Select` | backend/src/modules/import-excel/import-excel.service.ts:210-212 | The selected rows come from the cache in index order. With every index in range, row k is `all[indices[k]]`. |
| `ImportExcelService.SelectDropsOutOfRange` | backend/src/modules/import-excel/import-excel.service.ts:210-212 | An index outside the cached array is silently dropped. |
| `ImportExcelService.ExistingNames` | backend/src/modules/import-excel/import-excel.service.ts:186-188 | The name set is the lower-cased names of all medicines. |
| `ImportExcelService.FindByName` | backend/src/modules/import-excel/import-excel.service.ts:339-344 | The medicine lookup matches the name exactly, case-sensitively. |
| `ImportExcelService.CreateMedicine` | backend/src/modules/import-excel/import-excel.service.ts:265-332 | The medicine is appended with references only for truthy, found ids and an empty generic name dropped. A batch is created only when it is asked for and the row has a non-empty batch number, a quantity and an expiry. |
| `ImportExcelService.AddBatch` | backend/src/modules/import-excel/import-excel.service.ts:334-354 | A row missing a batch number, quantity or expiry fails with "Batch information is incomplete". A row whose exact name no medicine has fails with "not found". Otherwise one batch is appended to that medicine. |
| `ImportExcelService.SkippedIff` | backend/src/modules/import-excel/import-excel.service.ts:229-251 | A row is skipped exactly when it is an existing medicine_only row or a new batch_only row. A skipped row changes nothing. |
| `ImportExcelService.CaseMismatchFails` | backend/src/modules/import-excel/import-excel.service.ts:339-344 | A name known only up to case passes the existence test but fails the exact lookup, and lands in errors. |
| `ImportExcelService.MedicineOnlyWritesNoBatch` | backend/src/modules/import-excel/import-excel.service.ts:239-244 | A medicine_only import never writes a batch and never records an error. |
| `ImportExcelService.BatchOnlyCreatesNoMedicine` | backend/src/modules/import-excel/import-excel.service.ts:245-251 | A batch_only import never creates a medicine. |
| `ImportExcelService.NamesComputedOnce` | backend/src/modules/import-excel/import-excel.service.ts:214-227 | The name set is not refreshed in the loop, so the second of two medicine_only rows with the same new name is not skipped. |
| `ImportExcelService.ReportCounts` | backend/src/modules/import-excel/import-excel.service.ts:216-257 | created + updated + errors + skipped equals the number of selected rows. |
| `ImportExcelService.ImportRows` | backend/src/modules/import-excel/import-excel.service.ts:225-257 | The loop handles the rows in order, each seeing the tables the earlier rows left. A failing row is recorded and later rows still run. No log, receipt or user changes. |
| `ImportExcelService.ImportRow` | backend/src/modules/import-excel/import-excel.service.ts:229-251 | The reference for one row: by import type and whether the name is known, a created medicine, an added batch, a skip or an error. `SkippedIff` and the two type lemmas state its cases. |
| `ImportExcelService.ImportAll` | backend/src/modules/import-excel/import-excel.service.ts:225-257 | The rows in turn, each on the tables the earlier ones left, with one landing per row. `ImportRows` is proved against it. |
| `ImportExcelService.ConfirmImport` | backend/src/modules/import-excel/import-excel.service.ts:191-263 | A missing cache entry fails with NotFound and malformed data fails with BadRequest, both before any write. Otherwise the selected rows are imported against the names that existed when the call began. |
| `CategoryService.CategoryTable.Create` | backend/src/modules/category/category.service.ts:19-38 | A trimmed name that any category holds, active or not, is refused. Otherwise a new active category is appended with trimmed name and description. |
| `CategoryService.CategoryTable.FindAll` | backend/src/modules/category/category.service.ts:40-45 | Exactly the active categories, as a permutation, in ascending name order. |
| `CategoryService.CategoryTable.FindOne` | backend/src/modules/category/category.service.ts:47-57 | Succeeds exactly when a category, active or not, has the id. Otherwise NotFound. |
| `CategoryService.CategoryTable.Update` | backend/src/modules/category/category.service.ts:59-85 | An unknown id is NotFound. A name held by another id is refused, but the category's own name may be kept. An empty or absent name or description keeps the old value. |
| `CategoryService.CategoryTable.Remove` | backend/src/modules/category/category.service.ts:87-93 | An unknown id is NotFound. Otherwise only `isActive` becomes false; the row stays. |
| `CategoryService.RemovedStaysFindable` | backend/src/modules/category/category.service.ts:87-93 | A removed category is still found by id but is no longer among the active ones. |
| `CategoryService.OwnNameIsOwn` | backend/src/modules/category/category.service.ts:63-73 | Looking up a category's own name finds that category, so renaming it to its own name is allowed. |
| `CategoryService.RenameKeepsRegistered` | backend/src/modules/category/category.service.ts:75-84 | An allowed update keeps ids and names unique. |
| `UnitsService.UnitTable.Create` | backend/src/modules/units/units.service.ts:19-33 | A trimmed name already held is refused. Otherwise a unit with the trimmed name is appended. |
| `UnitsService.UnitTable.FindAll` | backend/src/modules/units/units.service.ts:35-37 | All units, as a permutation, in ascending name order. |
| `UnitsService.UnitTable.FindOne` | backend/src/modules/units/units.service.ts:39-43 | Succeeds exactly when a unit has the id. Otherwise NotFound. |
| `UnitsService.UnitTable.Update` | backend/src/modules/units/units.service.ts:45-61 | An unknown id is NotFound. A name held by a different id is refused. An absent or empty name keeps the old one. |
| `UnitsService.UnitTable.Remove` | backend/src/modules/units/units.service.ts:63-67 | An unknown id is NotFound. Otherwise the row is deleted and `{removed: true, id}` is returned. |
| `UnitsService.DeleteKeepsRegistered` | backend/src/modules/units/units.service.ts:63-67 | A hard delete keeps the registry consistent, and the id is found no more. |
| `UnitsService.OwnNameIsOwn` | backend/src/modules/units/units.service.ts:48-57 | A unit's own name finds that unit, so an update may keep it. |
| `UploadController.Guard` | backend/src/modules/upload/upload.controller.ts:46-65 | A missing file fails with "No file uploaded". Then a type outside jpeg/jpg/png/webp is refused, and only then a size over 5·1024·1024. |
| `UploadController.GuardOrder` | backend/src/modules/upload/upload.controller.ts:52-65 | A bad type wins over the size check. Exactly 5 MiB passes, and 5 MiB + 1 is too large. |
| `UploadController.UploadImage` | backend/src/modules/upload/upload.controller.ts:43-83 | The storage service is consulted only when every guard passes. Its failure becomes a 400 with its message. |
| `QuantityLimits.AtMostStock` | frontend/store/useDispenseStore.ts:59-62 | `Math.min(stock ?? Infinity, q)`: at most q and at most the stock, equal to one of them. An absent stock leaves q. |
| `QuantityLimits.Clamp` | frontend/store/useDispenseStore.ts:87-89 | The clamped quantity is always ≥ 1, even when the stock is < 1. It is ≤ a stock that is ≥ 1, and a q already in range is kept. |
| `QuantityLimits.ClampIdempotent` | frontend/store/useDispenseStore.ts:87-89 | Clamping twice is clamping once, and a stock below 1 gives 1. |
| `QuantityLimits.Bump` | frontend/store/useDispenseStore.ts:53-62 | Re-adding gives `min(stock, q + 1)`. It is unbounded without a stock and gives 0 when the stock is 0. |
| `DispenseStore.NewItem` | frontend/store/useDispenseStore.ts:69-80 | A new cart line has quantity 1 and empty dosage, frequency and duration. |
| `DispenseStore.Bumped` | frontend/store/useDispenseStore.ts:53-66 | Only the item with that id gets `Bump` of its stored stock. Every other item is unchanged, and the order is kept. |
| `DispenseStore.Added` | frontend/store/useDispenseStore.ts:48-81 | A held id is bumped in place, and a new id is appended at the end. The id list grows by the new id only. |
| `DispenseStore.AddedKeepsDistinct` | frontend/store/useDispenseStore.ts:50-67 | Adding never makes an id appear twice. |
| `DispenseStore.WithQuantity` | frontend/store/useDispenseStore.ts:83-92 | Only the targeted item's quantity changes, to `max(1, min(q, stock))`, which is ≥ 1. The other items and the order are unchanged. |
| `DispenseStore.SetInstruction` | frontend/store/useDispenseStore.ts:97 | Only the named field changes. |
| `DispenseStore.WithInstruction` | frontend/store/useDispenseStore.ts:94-99 | Only that field of the targeted item changes. The ids and order are kept. |
| `DispenseStore.Without` | frontend/store/useDispenseStore.ts:101-104 | The id is removed, and the rest keep their relative order. |
| `DispenseStore.AddThenRemove` | frontend/store/useDispenseStore.ts:48-104 | Adding a new medicine and removing it again restores the cart. |
| `DispenseStore.WithoutAppend` | frontend/store/useDispenseStore.ts:101-104 | Removal distributes over concatenation. |
| `DispenseStore.WithoutAbsent` | frontend/store/useDispenseStore.ts:101-104 | Removing an absent id changes nothing. |
| `DispenseStore.Cart.AddItem` | frontend/store/useDispenseStore.ts:48-81 | The cart becomes `Added(cart, payload)`, and ids stay unique. |
| `DispenseStore.Cart.UpdateQuantity` | frontend/store/useDispenseStore.ts:83-92 | The cart becomes `WithQuantity(cart, id, q)`, and ids stay unique. |
| `DispenseStore.Cart.UpdateInstruction` | frontend/store/useDispenseStore.ts:94-99 | The cart becomes `WithInstruction(cart, id, field, value)`. |
| `DispenseStore.Cart.RemoveItem` | frontend/store/useDispenseStore.ts:101-104 | The cart becomes `Without(cart, id)`, and ids stay unique. |
| `DispenseStore.Cart.ResetItems` | frontend/store/useDispenseStore.ts:106 | The cart is empty. |
| `ReorderStore.NewItem` | frontend/store/useMedicineStore.ts:59-67 | A new reorder item has quantity 1. |
| `ReorderStore.Bumped` | frontend/store/useMedicineStore.ts:43-56 | Only that id gets `min(stock, q + 1)`, and the rest are unchanged. |
| `ReorderStore.Added` | frontend/store/useMedicineStore.ts:38-68 | A held id is bumped in place, and a new id is appended at the end. |
| `ReorderStore.AddedKeepsDistinct` | frontend/store/useMedicineStore.ts:40-57 | Adding never makes an id appear twice. |
| `ReorderStore.WithQuantity` | frontend/store/useMedicineStore.ts:70-79 | Only that id changes, to `max(1, min(q, stock))`, and the result is ≥ 1. |
| `ReorderStore.Without` | frontend/store/useMedicineStore.ts:81-84 | The id is filtered out, and the order is kept. |
| `ReorderStore.WithoutAppend` | frontend/store/useMedicineStore.ts:81-84 | Removal distributes over concatenation. |
| `ReorderStore.WithoutKeeps` | frontend/store/useMedicineStore.ts:81-84 | Removing an absent id changes nothing. |
| `ReorderStore.AddThenRemove` | frontend/store/useMedicineStore.ts:38-84 | Adding a new medicine and removing it again restores the list. |
| `ReorderStore.Reorder.AddItem` | frontend/store/useMedicineStore.ts:38-68 | The list becomes `Added(list, payload)`, and ids stay unique. |
| `ReorderStore.Reorder.UpdateQuantity` | frontend/store/useMedicineStore.ts:70-79 | The list becomes `WithQuantity(list, id, q)`. |
| `ReorderStore.Reorder.RemoveItem` | frontend/store/useMedicineStore.ts:81-84 | The list becomes `Without(list, id)`. |
| `ReorderStore.Reorder.ResetItems` | frontend/store/useMedicineStore.ts:86 | The list is empty. |
| `InventoryUI.MergeBatch` | frontend/store/useInventoryUI.ts:115 | `{ ...b, ...updated }`: every key the update carries replaces the batch's key, every absent key keeps it, and id and medicine are kept. |
| `InventoryUI.MergeBatchIdempotent` | frontend/store/useInventoryUI.ts:109-115 | A merged batch still matches the update, and merging it again is a no-op. |
| `InventoryUI.MergeBatches` | frontend/store/useInventoryUI.ts:107-118 | The same count, order and ids. Exactly the batches whose non-empty number equals the update's non-empty number are merged. |
| `InventoryUI.NoNumberNoChange` | frontend/store/useInventoryUI.ts:109-112 | An update without a batch number, or with an empty one, changes no batch. |
| `InventoryUI.MergeBatchesIdempotent` | frontend/store/useInventoryUI.ts:102-121 | Replaying a batch update leaves the view unchanged. |
| `InventoryUI.BatchInView` | frontend/store/useInventoryUI.ts:102-121 | No payload, or no batch array, leaves the state alone. Otherwise only the batches are replaced by the merged ones, and the medicine and showExpired are kept. |
| `InventoryUI.MergeMedicine` | frontend/store/useInventoryUI.ts:132 | Each of the eleven fields is the patch's value when the patch carries it and the medicine's otherwise. An empty patch is the identity. |
| `InventoryUI.MergeMedicineIdempotent` | frontend/store/useInventoryUI.ts:132 | Merging the same patch twice is merging it once. |
| `InventoryUI.MedicineInView` | frontend/store/useInventoryUI.ts:124-135 | With no payload it is unchanged. Otherwise only the medicine is merged, and the batches and showExpired are kept. |
| `InventoryUI.Store.SetSearch` | frontend/store/useInventoryUI.ts:76 | Only `search` changes. |
| `InventoryUI.Store.SetSelectedId` | frontend/store/useInventoryUI.ts:79 | Only `selectedId` changes. |
| `InventoryUI.Store.OpenViewBatches` | frontend/store/useInventoryUI.ts:83-84 | The open flag and payload are set together. Nothing else changes, and every modal stays open exactly when it holds a payload. |
| `InventoryUI.Store.CloseViewBatches` | frontend/store/useInventoryUI.ts:85-86 | The flag and payload are cleared together, and nothing else changes. |
| `InventoryUI.Store.OpenEditMedicine` | frontend/store/useInventoryUI.ts:90-91 | The flag and payload are set together, and nothing else changes. |
| `InventoryUI.Store.CloseEditMedicine` | frontend/store/useInventoryUI.ts:92-93 | The flag and payload are cleared together, and nothing else changes. |
| `InventoryUI.Store.OpenEditBatch` | frontend/store/useInventoryUI.ts:97-98 | The flag and payload are set together, and nothing else changes. |
| `InventoryUI.Store.CloseEditBatch` | frontend/store/useInventoryUI.ts:99 | The flag and payload are cleared together, and nothing else changes. |
| `InventoryUI.Store.UpdateBatchInView` | frontend/store/useInventoryUI.ts:102-121 | Only the viewed payload changes, to `BatchInView`. |
| `InventoryUI.Store.UpdateMedicineInView` | frontend/store/useInventoryUI.ts:124-135 | Only the viewed payload changes, to `MedicineInView`. |
| `InventoryUI.Store.OpenAdjustStock` | frontend/store/useInventoryUI.ts:139-140 | The flag and payload are set together, and nothing else changes. |
| `InventoryUI.Store.CloseAdjustStock` | frontend/store/useInventoryUI.ts:141-142 | The flag and payload are cleared together, and nothing else changes. |
| `InventoryUI.Store.OpenDeleteMedicine` | frontend/store/useInventoryUI.ts:146-147 | The flag and id are set together, and nothing else changes. |
| `InventoryUI.Store.CloseDeleteMedicine` | frontend/store/useInventoryUI.ts:148-149 | The flag and id are cleared together, and nothing else changes. |
| `InventoryUI.Store.TriggerRefetchMedicines` | frontend/store/useInventoryUI.ts:153-154 | Only the refetch flag is raised. |
| `InventoryUI.Store.ResetRefetchMedicinesTrigger` | frontend/store/useInventoryUI.ts:155-156 | Only the refetch flag is lowered. |
| `Lists.Toggle` | frontend/store/useStockLogStore.ts:17-19 | After a toggle the action is selected exactly when it was not before, and every other action keeps its membership. |
| `Lists.ToggleTwice` | frontend/store/useStockLogStore.ts:15-20 | Toggling an unselected action twice restores the selection. |
| `Lists.ToggleKeepsDistinct` | frontend/store/useStockLogStore.ts:15-20 | Toggling never selects an action twice. |
| `StockLogStore.Filters.constructor` | frontend/store/useStockLogStore.ts:12-13 | Starts with an empty search and no selected actions. |
| `StockLogStore.Filters.SetSearch` | frontend/store/useStockLogStore.ts:14 | Only the search changes. |
| `StockLogStore.Filters.ToggleAction` | frontend/store/useStockLogStore.ts:15-20 | The selection becomes `Toggle(old, action)`, an absent action is appended at the end, the search stays, and no action is held twice. |
| `StockLogStore.Filters.ClearFilters` | frontend/store/useStockLogStore.ts:21 | Empty search and empty selection. |
| `StockBands.Count` | frontend/app/dashboard/page.tsx:249-262 | A band count never exceeds the number of medicines. |
| `StockBands.TotalStock` | frontend/app/dashboard/page.tsx:245-247 | The sum of the stocks: 0 with no medicines, and non-negative when every stock is. |
| `StockBands.BandsDisjoint` | frontend/app/dashboard/page.tsx:249-262 | Critical (1..24), low (25..99) and out of stock (0) are mutually exclusive. Every other stock is in none of them. |
| `StockBands.CountsAddUp` | frontend/app/dashboard/page.tsx:249-262 | The three band counts plus the unbanded count equal the number of medicines. |
| `Dashboard.ReceiptsFrom` | frontend/app/dashboard/page.tsx:181-208 | The period's receipts are exactly those created at or after the period's start. The start is a parameter. |
| `Dashboard.SortedBand` | frontend/app/dashboard/page.tsx:341-343 | The band's medicines are a permutation of the filtered list, sorted by ascending stock. |
| `Sorting.SortBy` | frontend/app/dashboard/page.tsx:341-342 | The sort by a comparator: a permutation of the input, sorted under the total preorder. `SortBySorted` adds that an ordered input is left as it is. |
| `Dashboard.LowStockAlerts` | frontend/app/dashboard/page.tsx:340-361 | One alert per low-band medicine (25..99), fewest first. Every alert is the entry built from some low-band medicine of the list, and every such medicine has its entry. Each is status "Low" and not critical, so the "Critical" arm is dead. |
| `Dashboard.CriticalStockAlerts` | frontend/app/dashboard/page.tsx:363-379 | One alert per medicine with 1..24 units, fewest first, all "Critical". Every alert is the entry built from such a medicine of the list, and every such medicine has its entry. |
| `Dashboard.OutOfStockAlerts` | frontend/app/dashboard/page.tsx:381-394 | One alert per medicine with 0 units, all critical and "Out Of Stock". Every alert is the entry built from such a medicine of the list, and every such medicine has its entry. |
| `Dashboard.OutOfStockAlertsAppend` | frontend/app/dashboard/page.tsx:381-394 | The out-of-stock list keeps list order: a medicine appended to the list appends its alert when its stock is 0, and nothing otherwise. |
| `Dashboard.AlertsFromBand` | frontend/app/dashboard/page.tsx:340-394 | The entries built from a band's medicines come exactly from the list's medicines in that band, in both directions. |
| `Dashboard.AlertsOf` | frontend/app/dashboard/page.tsx:345-360 | `.map`: one entry per medicine, at the same position. |
| `Dashboard.ShownLowAlerts` | frontend/app/dashboard/page.tsx:836-838 | The low-stock card lists exactly the alerts whose stock is above 25. |
| `Dashboard.ShownLowDropsExactly25` | frontend/app/dashboard/page.tsx:340-343 | A low-stock alert is left off the card exactly when its stock is 25. |
| `Dashboard.SalesTable` | frontend/app/dashboard/page.tsx:284-327 | One sale per medicine id seen on a tallied line, in order of first appearance. It carries the first line's name and the units sold. |
| `Dashboard.SeenExactly` | frontend/app/dashboard/page.tsx:295-324 | The tallied ids have no duplicates. An id is tallied exactly when some line with a truthy id and name names it. |
| `Dashboard.UnseenSoldNothing` | frontend/app/dashboard/page.tsx:295-324 | An id that no tallied line names has sold 0 units. |
| `Dashboard.TallyStep` | frontend/app/dashboard/page.tsx:312-322 | One line keeps the map consistent with the lines seen so far: the get-or-create, the `+=` and the `set`. |
| `Dashboard.TallyLine` | frontend/app/dashboard/page.tsx:312-322 | One line added to the tally keeps the tally describing the lines seen so far: a counted line adds its units to its medicine, made on first sight. |
| `Dashboard.TallyLines` | frontend/app/dashboard/page.tsx:296-323 | The inner loop over one receipt's lines extends the tally by exactly those lines. |
| `Dashboard.Values` | frontend/app/dashboard/page.tsx:327 | `Array.from(map.values())` reads the map in key insertion order. |
| `Dashboard.TallyIsTable` | frontend/app/dashboard/page.tsx:285-327 | A tally of all the lines, read in insertion order, is `SalesTable`. |
| `Dashboard.TopSelling` | frontend/app/dashboard/page.tsx:284-327 | The nested loops over the period's receipts produce `SalesTable` of all their lines. |
| `Dashboard.TopByQuantity` | frontend/app/dashboard/page.tsx:327-331 | The best sellers by quantity: all of them when there are at most 10, and exactly 10 otherwise. They come in non-increasing quantity and are drawn from the sales, as a permutation when there are at most 10. Every seller left out sold no more than any seller shown. |
| `Dashboard.PrefixOutsellsRest` | frontend/app/dashboard/page.tsx:327-331 | In a list sorted best seller first, each of the first n sold at least as much as each of the rest. |
| `Pagination.Prev` | frontend/components/ui/pagination.tsx:15 | `max(0, i - 1)`: never negative, one back from any page ≥ 1. |
| `Pagination.Next` | frontend/components/ui/pagination.tsx:16 | `min(pageCount - 1, i + 1)`: never past the last page, one forward otherwise. |
| `Pagination.NavigationStaysInRange` | frontend/components/ui/pagination.tsx:15-16 | From a page in range, prev, next and last all land in range. |
| `Pagination.Range` | frontend/components/ui/pagination.tsx:19-22 | The consecutive ascending pages lo..hi, empty when lo > hi. |
| `Pagination.PageWindow` | frontend/components/ui/pagination.tsx:19-22 | The `for` loop pushes exactly `max(0, i-2)..min(pageCount-1, i+2)`, in order. |
| `Pagination.WindowBounds` | frontend/components/ui/pagination.tsx:19-22 | The window has at most 5 pages, all in [0, pageCount-1], and contains i whenever 0 ≤ i < pageCount. |
| `Pagination.PageCount` | frontend/app/receipt/page.tsx:208 | `max(1, ceil(n / 10))`: at least one page, and the smallest count that holds n rows. |
| `Pagination.CurrentPage` | frontend/app/receipt/page.tsx:209 | `min(pageIndex, pageCount - 1)`: always an existing page, and the index itself when in range. |
| `Pagination.Slice` | frontend/app/receipt/page.tsx:210-213 | `slice(a, b)` with bounds clipped to the length. It equals `rows[a..b]` when they are in range and has at most b - a rows. |
| `Pagination.PageRows` | frontend/app/stocklogs/table/data-table.tsx:79-82 | Page i is at most ten consecutive rows starting at row 10·i, and empty past the end. |
| `Pagination.PagesPrefix` | frontend/app/stocklogs/table/data-table.tsx:77-82 | The first k pages read in turn are the first min(10·k, n) rows. |
| `Pagination.Pages` | frontend/app/stocklogs/table/data-table.tsx:77-82 | The first k pages read in turn; `PagesPrefix` and `PagesCoverRows` state what they hold. |
| `Pagination.PagesCoverRows` | frontend/app/stocklogs/table/data-table.tsx:77-82 | All the pages in turn give every row once, in order. An empty table has one empty page. |
| `DispenseColumns.StockStatus` | frontend/app/dispense/table/columns.tsx:7-15 | No number gives Normal. ≤ 25 is Critical, 26..100 is Low Stock, and above 100 is Normal, each as an if-and-only-if. |
| `DispenseColumns.Monotone` | frontend/app/dispense/table/columns.tsx:10-15 | More stock never gives a more urgent status. |
| `DispenseColumns.CompareWithInventory` | frontend/app/dispense/table/columns.tsx:7-15 | The dispense and inventory classifiers agree on 0..24 and above 100. They disagree at 25, at 100 and on negatives. |
| `InventoryColumns.StockStatus` | frontend/app/inventory/table/columns.tsx:16-26 | 25..99 is Low Stock, 0..24 is Critical, and anything else is Normal, each as an if-and-only-if. |
| `InventoryColumns.NeverOutOfStock` | frontend/app/inventory/table/columns.tsx:19-26 | The classifier never answers Out Of Stock or Expired. |
| `InventoryColumns.IntendedStockStatus` | frontend/app/inventory/page.tsx:41-64 | The corrected classifier: 0 is Out Of Stock and 1..24 is Critical, matching the cards. Otherwise it equals `StockStatus`. |
| `InventoryColumns.IntendedStatusOf` | frontend/app/inventory/table/columns.tsx:188-189 | The status column under the corrected classifier. It is Expired in the expired view. |
| `InventoryColumns.StatusOf` | frontend/app/inventory/table/columns.tsx:188-189 | In the expired view every row is Expired. Otherwise it is the stock status, never Out Of Stock. |
| `InventoryColumns.StatusFilterExact` | frontend/app/inventory/table/columns.tsx:209-213 | A non-empty filter passes a row exactly when the row's label is selected. A one-status filter passes exactly that status. |
| `InventoryColumns.PriceCompare` | frontend/app/inventory/table/columns.tsx:176-180 | The sign of `a - b`, with a missing price counted as 0. |
| `InventoryColumns.ExpiryCompare` | frontend/app/inventory/table/columns.tsx:232-243 | Undated rows go last and tie with each other. Dated rows are ordered by instant. |
| `InventoryColumns.ComparatorsAntisymmetric` | frontend/app/inventory/table/columns.tsx:176-243 | Swapping the rows negates both comparators. |
| `InventoryColumns.ExpiryCompareTransitive` | frontend/app/inventory/table/columns.tsx:232-243 | The expiry order is transitive. |
| `InventoryPage.StatusOptions` | frontend/app/inventory/page.tsx:41-43 | Only Expired in the expired view, and the four stock statuses otherwise, each once. |
| `InventoryPage.CardsOf` | frontend/app/inventory/page.tsx:45-64 | The three card counts together never exceed the number of medicines. With no medicines all cards are 0. |
| `InventoryPage.OutOfStockFilterShowsNothing` | frontend/app/inventory/page.tsx:41-64 | As written, the "Out Of Stock" filter empties the table even when the Out Of Stock card counts medicines. |
| `InventoryPage.IntendedFilterMatchesCards` | frontend/app/inventory/page.tsx:55-64 | Under the corrected classifier, each band's filter keeps exactly as many rows as its card counts. |
| `InventoryPage.Page.constructor` | frontend/app/inventory/page.tsx:34-44 | Starts in the normal view, with an empty search and no status selected. |
| `InventoryPage.Page.SetSearch` | frontend/app/inventory/page.tsx:210 | Only the search changes. |
| `InventoryPage.Page.ToggleStatus` | frontend/app/inventory/page.tsx:238-244 | The selection becomes `Toggle(old, status)`. The status is selected exactly when it was not before, no status appears twice, and the rest is kept. |
| `InventoryPage.Page.ClearFilters` | frontend/app/inventory/page.tsx:229 | Only the selection is emptied. |
| `InventoryPage.Page.ToggleShowExpired` | frontend/app/inventory/page.tsx:255 | Flips the view and keeps the search and selection. |
| `InventoryTable.StatusColumnFilter` | frontend/app/inventory/table/data-table.tsx:71-79 | A non-empty selection becomes the column filter, and an empty or absent one becomes no filter. |
| `InventoryTable.StatusColumnFilterSameRows` | frontend/app/inventory/table/data-table.tsx:71-79 | Dropping an empty selection changes no row's fate. |
| `InventoryTable.Table.constructor` | frontend/app/inventory/table/data-table.tsx:39-44 | Page 0 and no column filter. |
| `InventoryTable.Table.PageOf` | frontend/app/inventory/table/data-table.tsx:63-69 | At most ten rows: the indexed page, or the last page when the index is past it. |
| `InventoryTable.Table.FirstPage` | frontend/app/inventory/table/data-table.tsx:150 | Index 0, and the filter is kept. |
| `InventoryTable.Table.PrevPage` | frontend/app/inventory/table/data-table.tsx:169 | `Prev` of the index, never larger. |
| `InventoryTable.Table.NextPage` | frontend/app/inventory/table/data-table.tsx:193 | `Next` of the index, always below the page count. |
| `InventoryTable.Table.LastPage` | frontend/app/inventory/table/data-table.tsx:212 | The last page. |
| `InventoryTable.Table.SyncStatusFilter` | frontend/app/inventory/table/data-table.tsx:71-79 | The column filter becomes `StatusColumnFilter(selection)`, and the page is kept. |
| `StockLogColumns.Parts` | frontend/app/stocklogs/table/columns.tsx:156-160 | An action without a comma is its own single part. |
| `StockLogColumns.ActionPassesIffSomePart` | frontend/app/stocklogs/table/columns.tsx:153-161 | A non-empty filter passes a simple or compound action exactly when some part of it is selected. |
| `StockLogColumns.IncreaseParts` | frontend/app/stocklogs/table/columns.tsx:156-158 | The increasing-correction action splits into "IN" and "ADJUST". |
| `StockLogColumns.DecreaseParts` | frontend/app/stocklogs/table/columns.tsx:156-158 | The decreasing-correction action splits into "OUT" and "ADJUST". |
| `StockLogColumns.SplitsInto` | frontend/app/stocklogs/table/columns.tsx:157 | Splitting `a,b` at the comma, where neither part has a comma, gives `[a, b]`. |
| `StockLogColumns.AdjustActionsFilter` | frontend/app/stocklogs/table/columns.tsx:153-161 | A correction log passes a filter exactly when IN (or OUT) is selected, or ADJUST is. |
| `StockLogColumns.DisplayValue` | frontend/app/stocklogs/table/columns.tsx:99-137 | A compound action with IN shows +q, with OUT (and no IN) shows -q, and otherwise nothing. A simple IN shows +q, OUT shows -\|q\|, and any other action shows q. |
| `StockLogColumns.AdjustLogDisplay` | frontend/app/stocklogs/table/columns.tsx:102-109 | A batch update's correction log shows `+(after-before)` or `-(before-after)`: the signed change of the quantity. |
| `StockLogColumns.AdjustDisplay` | frontend/app/stocklogs/table/columns.tsx:102-109 | A correction's action and its positive change show as the signed change. |
| `StockLogColumns.IncreaseDisplay` | frontend/app/stocklogs/table/columns.tsx:105-106 | The increasing correction shows `+q`. |
| `StockLogColumns.DecreaseDisplay` | frontend/app/stocklogs/table/columns.tsx:107-108 | The decreasing correction shows `-q`. |
| `StockLogColumns.Order` | frontend/app/stocklogs/table/columns.tsx:79-80 | -1, 0 or 1. It is 0 exactly on equal strings and negative exactly when a is lexicographically below b. |
| `StockLogColumns.MedicineCompare` | frontend/app/stocklogs/table/columns.tsx:75-91 | Rows are ordered by lower-cased name, then by lower-cased batch number, with a missing value as "". A tie means both keys are equal. |
| `StockLogColumns.MedicineCompareAntisymmetric` | frontend/app/stocklogs/table/columns.tsx:75-91 | Swapping the rows negates the answer. |
| `StockLogTable.ActionColumnFilter` | frontend/app/stocklogs/table/data-table.tsx:86-95 | The selection becomes the column filter exactly when it is non-empty. |
| `StockLogTable.ActionColumnFilterSameRows` | frontend/app/stocklogs/table/data-table.tsx:86-95 | The synced filter passes the same rows as the selection, and every row when nothing is selected. |
| `StockLogTable.Table.constructor` | frontend/app/stocklogs/table/data-table.tsx:39-46 | No selection, page 0, and the column filter in step. |
| `StockLogTable.Table.PageOf` | frontend/app/stocklogs/table/data-table.tsx:77-82 | At most ten rows: the indexed page, or the last page when the index is past it. |
| `StockLogTable.Table.ToggleAction` | frontend/app/stocklogs/table/data-table.tsx:47-53 | The selection is toggled, the column filter follows it, the page resets to 0 and the search is kept. |
| `StockLogTable.Table.ClearFilters` | frontend/app/stocklogs/table/data-table.tsx:54-57 | No selection, no column filter, an empty search and page 0. |
| `StockLogTable.Table.SetGlobalFilter` | frontend/app/stocklogs/table/data-table.tsx:83-85 | A different search text resets the page to 0. The same text keeps the page. |
| `StockLogTable.Table.FirstPage` | frontend/app/stocklogs/table/data-table.tsx:194 | Page 0. |
| `StockLogTable.Table.PrevPage` | frontend/app/stocklogs/table/data-table.tsx:213 | `Prev` of the index. |
| `StockLogTable.Table.NextPage` | frontend/app/stocklogs/table/data-table.tsx:237 | `Next` of the index, below the page count. |
| `StockLogTable.Table.LastPage` | frontend/app/stocklogs/table/data-table.tsx:256 | The last page. |
| `StockLogsPage.SummaryOf` | frontend/app/stocklogs/page.tsx:38-55 | One count per log. Adjustments never exceed the number of logs. In and out are the change sums over the logs whose action contains IN or OUT. No logs gives all zeros. |
| `StockLogsPage.SummaryAppend` | frontend/app/stocklogs/page.tsx:38-55 | The summary of two lists together is the field-wise sum of their summaries. |
| `StockLogsPage.SimpleActionWords` | frontend/app/stocklogs/page.tsx:40-46 | "IN" contains only IN, and "OUT" contains only OUT. |
| `StockLogsPage.IncreaseWords` | frontend/app/stocklogs/page.tsx:40-46 | The increasing correction contains IN and ADJUST but not OUT. |
| `StockLogsPage.DecreaseWords` | frontend/app/stocklogs/page.tsx:40-46 | The decreasing correction contains OUT and ADJUST but not IN. |
| `StockLogsPage.OneLogContribution` | frontend/app/stocklogs/page.tsx:38-55 | Each action the backend writes adds to the right card. A new batch or an increase adds to units in, a dispense or a decrease adds to units out, and both corrections add one adjustment. |
| `ReceiptPage.RangesNested` | frontend/app/receipt/page.tsx:48-68 | The ranges are nested: today ⊆ 7 days ⊆ 30 days, given that the local day started within the last 24 hours. Any other range value accepts everything. |
| `ReceiptPage.WithinRange` | frontend/app/receipt/page.tsx:48-68 | `withinRange`: "today" from the start of the local day, "7days" and "30days" back from now, and every other value accepts all. |
| `ReceiptPage.MatchesSearch` | frontend/app/receipt/page.tsx:200-202 | The patient name contains the search ignoring case, or the id's digits contain it. `SearchCases` states its cases. |
| `ReceiptPage.SearchCases` | frontend/app/receipt/page.tsx:200-202 | An empty search matches every receipt. Without a patient name only the id can match. |
| `ReceiptPage.Filtered` | frontend/app/receipt/page.tsx:198-205 | A receipt is kept exactly when it matches the search and lies within the range. No search with "all" keeps the list as it is. |
| `ReceiptPage.Paginated` | frontend/app/receipt/page.tsx:207-213 | The page is exactly the rows of the clamped index: at most ten receipts, all from the filtered list. A non-empty list never shows an empty page, because the index is clamped. |
| `ReceiptPage.NextPageSnapsBack` | frontend/app/receipt/page.tsx:215-224 | As written, moving from the first page to an existing second page ends, once the reset effect fires, back on the first page. |
| `ReceiptPage.IntendedResetsOnFilterChange` | frontend/app/receipt/page.tsx:215-224 | As intended, a page the user moves to stays, and a change of search or range goes back to the first page. |
| `ReceiptPage.RoundedAverage` | frontend/app/receipt/page.tsx:245 | `Math.round(total / n)` for non-negative and negative totals alike, with halves rounded up. It is within half a receipt of the exact average, and 0 for no receipts. |
| `ReceiptPage.RoundedAverageUnique` | frontend/app/receipt/page.tsx:245 | Only one integer is within half a receipt of the average, so the rounding is determined. |
| `ReceiptPage.StepTimes` | frontend/app/receipt/page.tsx:245 | A positive multiple of n is at least n, the arithmetic behind the uniqueness. |
| `ReceiptPage.Keys` | frontend/app/receipt/page.tsx:231-233 | The set of `patientName \|\| id` keys holds exactly the receipts' keys and has at most one per receipt. |
| `ReceiptPage.SummaryOf` | frontend/app/receipt/page.tsx:226-249 | Counts all receipts whatever the filters. Units are the sum of `totalItems` and the average is the rounded average. The patients are the size of the set of patient keys, which is between 1 and the receipt count (0 with none). Today's count is the "today" filter's size. |
| `ReceiptPage.UnnamedCountSeparately` | frontend/app/receipt/page.tsx:231-233 | Unnamed receipts with distinct ids count as distinct patients. |
| `ReceiptPage.InjectiveImage` | frontend/app/receipt/page.tsx:231-233 | Receipts with pairwise different keys give as many keys as receipts. |
| `DispensePage.Live` | frontend/app/dispense/page.tsx:115-117 | Exactly the batches whose expiry is now or later, with an unreadable date never counted. None when every batch has expired. |
| `DispensePage.NonExpiredStock` | frontend/app/dispense/page.tsx:112-122 | The units in the unexpired batches, and 0 without loaded batches. |
| `DispensePage.Dispensable` | frontend/app/dispense/page.tsx:112-125 | A medicine is listed exactly when its unexpired stock is positive. |
| `DispensePage.NothingLeftNotListed` | frontend/app/dispense/page.tsx:112-125 | A medicine without batches, or with all of them expired, is not listed. |
| `DispensePage.ListedIffSomeStock` | frontend/app/dispense/page.tsx:112-125 | With non-negative quantities, a medicine is listed exactly when some unexpired batch holds a unit. |
| `DispensePage.TotalsOf` | frontend/app/dispense/page.tsx:82-87 | The number of lines, and the units over all lines. An empty cart gives (0, 0). |
| `DispensePage.AddNewTotals` | frontend/app/dispense/page.tsx:82-107 | Adding a medicine not in the cart adds one line and one unit. |
| `DispensePage.AddAgainTotals` | frontend/app/dispense/page.tsx:82-107 | Adding a medicine already in the cart keeps the line count. |
| `DispensePage.TypedQuantity` | frontend/app/dispense/page.tsx:412-417 | A typed 0 or non-number reads as 1. The result is clamped into [1, totalStock], so it is always ≥ 1 and ≤ a stock that is ≥ 1. |
| `DispensePage.TypedQuantityStored` | frontend/app/dispense/page.tsx:412-417 | The store's own clamp keeps the box's value, so the cart holds what the box computed. |
| `DispensePage.CompleteRequest` | frontend/app/dispense/page.tsx:129-138 | Nothing is sent exactly when the cart is empty. Otherwise it sends the entered name, or "Walk-in Customer" when empty, which is never empty, and one (id, quantity) per line in cart order. |
| `DispensePage.RequestCarriesTotal` | frontend/app/dispense/page.tsx:129-138 | The request's units equal the cart's total quantity, which the backend stores as the receipt's `totalItems`. |
| `DispensePage.SumMapped` | frontend/app/dispense/page.tsx:133-137 | Mapping lines to request items keeps the sum of quantities. |
| `DispensePage.Page.constructor` | frontend/app/dispense/page.tsx:71-78 | An empty search and name, no receipt, and the modal closed. |
| `DispensePage.Page.AddMedicine` | frontend/app/dispense/page.tsx:95-107 | The cart becomes `Added(cart, pick)` and the search is cleared. The rest is kept. |
| `DispensePage.Page.DispenseSucceeded` | frontend/app/dispense/page.tsx:140-146 | The receipt is shown and the cart is emptied. |
| `DispenseSearch.FilteredMedicines` | frontend/app/dispense/dispense.tsx:51-57 | A medicine is kept exactly when its name or generic name contains the search, ignoring case. An empty search keeps every medicine, in order. |
| `DispenseSearch.Totals` | frontend/app/dispense/dispense.tsx:59-64 | The number of picked lines, and the units over all of them. |
| `DispenseSearch.PickOf` | frontend/app/dispense/dispense.tsx:72-79 | The picked payload carries id, name, generic name and price, but no unit id, unit name or stock. |
| `DispenseSearch.Search.constructor` | frontend/app/dispense/dispense.tsx:40-41 | An empty search with the results hidden. |
| `DispenseSearch.Search.Type` | frontend/app/dispense/dispense.tsx:273-277 | Typing stores the text. The results show exactly when the text is non-empty. |
| `DispenseSearch.Search.AddMedicine` | frontend/app/dispense/dispense.tsx:72-82 | The medicine is added to the picked list with `Added`, the search is cleared and the results are hidden. |
| `DispenseSearch.VisibleIffTyped` | frontend/app/dispense/dispense.tsx:280 | While the state is consistent, the results list is drawn exactly when something is typed. |
| `NameCheck.TakenIgnoresSpaces` | frontend/app/inventory/modal/category/add-category-form.tsx:36-39 | The check trims the input, so surrounding spaces never change its answer. |
| `NameCheck.ListedNameIsTaken` | frontend/app/inventory/modal/category/add-category-form.tsx:36-39 | Once a name is listed, typing it again with any surrounding spaces is flagged. |
| `NameCheck.CheckName` | frontend/app/inventory/modal/category/add-category-form.tsx:28-53 | An error is set exactly when the name is not blank and some listed name equals the trimmed name ignoring case. The message names the trimmed name, and the unit form uses the same check with its own wording (add-unit-form.tsx:22-38). |
| `NameCheck.Submit` | frontend/app/inventory/modal/unit/add-unit-form.tsx:40-48 | A blank name sets the form's "name is required" error, and a standing error stops the submit. Otherwise the form goes on with the non-empty trimmed name, as an if-and-only-if. |
| `NameCheck.BlockedIffRefused` | frontend/app/inventory/modal/unit/add-unit-form.tsx:107-109 | The name part of the button's `disabled` holds exactly when submitting would not go on. |
| `NameCheck.CheckedSubmitIsNew` | frontend/app/inventory/modal/unit/add-unit-form.tsx:22-48 | A name accepted right after the check ran on it equals no listed name, ignoring case. |
| `AddCategoryForm.Submit` | frontend/app/inventory/modal/category/add-category-form.tsx:66-82 | A blank name sets "Category name is required", and a standing error stops the submit. Otherwise the form sends the trimmed name and description, with a non-empty name, as an if-and-only-if. |
| `AddCategoryForm.Disabled` | frontend/app/inventory/modal/category/add-category-form.tsx:115-119 | `isDisabled`: a blank or flagged name, a pending request or a running check. `EnabledIffSubmits` relates it to `Submit`. |
| `AddCategoryForm.EnabledIffSubmits` | frontend/app/inventory/modal/category/add-category-form.tsx:115-119 | With nothing pending or validating, the button is enabled exactly when submitting sends. |
| `AddCategoryForm.CheckedSubmitIsNew` | frontend/app/inventory/modal/category/add-category-form.tsx:28-82 | A name sent right after the check ran on it equals no listed name, ignoring case. |
| `AddCategoryForm.Form.constructor` | frontend/app/inventory/modal/category/add-category-form.tsx:17-25 | Empty fields, no error and not validating. |
| `AddCategoryForm.Form.SetName` | frontend/app/inventory/modal/category/add-category-form.tsx:55-64 | Only the name changes. |
| `AddCategoryForm.Form.SetDescription` | frontend/app/inventory/modal/category/add-category-form.tsx:55-64 | Only the description changes. |
| `AddCategoryForm.Form.Check` | frontend/app/inventory/modal/category/add-category-form.tsx:28-53 | The error becomes `CheckName`, validation ends, and the fields are kept. |
| `AddCategoryForm.Form.HandleSubmit` | frontend/app/inventory/modal/category/add-category-form.tsx:66-82 | Sends `Submit`'s payload exactly when it creates. A refusal stores its error. The fields are kept. |
| `AddCategoryForm.Form.Succeeded` | frontend/app/inventory/modal/category/add-category-form.tsx:84-87 | Fields and error are cleared. |
| `AddUnitForm.EnabledIffSubmits` | frontend/app/inventory/modal/unit/add-unit-form.tsx:107-109 | With nothing pending, the button is enabled exactly when submitting sends. |
| `AddUnitForm.Disabled` | frontend/app/inventory/modal/unit/add-unit-form.tsx:109 | The button's `disabled`: a blank or flagged name, or a pending request. |
| `AddUnitForm.Form.constructor` | frontend/app/inventory/modal/unit/add-unit-form.tsx:16-19 | An empty name and no error. |
| `AddUnitForm.Form.SetName` | frontend/app/inventory/modal/unit/add-unit-form.tsx:87 | Only the name changes. |
| `AddUnitForm.Form.Check` | frontend/app/inventory/modal/unit/add-unit-form.tsx:22-38 | The error becomes `CheckName`. |
| `AddUnitForm.Form.HandleSubmit` | frontend/app/inventory/modal/unit/add-unit-form.tsx:40-48 | Sends exactly when `Submit` creates. A refusal stores its error. |
| `AddUnitForm.Form.Succeeded` | frontend/app/inventory/modal/unit/add-unit-form.tsx:50-53 | The name and error are cleared. |
| `AddMedicineForm.PriceInput` | frontend/app/inventory/modal/medicine/add-medicine-form.tsx:79 | `Math.max(0, Number(v))`: a number becomes itself or 0 when negative, so it is never negative. NaN stays NaN. |
| `AddMedicineForm.PriceStaysNonNegative` | frontend/app/inventory/modal/medicine/add-medicine-form.tsx:75-90 | Every edit except typing a non-number keeps the price a number ≥ 0. |
| `AddMedicineForm.FlagAsWritten` | frontend/app/inventory/modal/medicine/add-medicine-form.tsx:66-90 | As written, the flag set by an edit is the validity of the form before the edit, because `validateForm` reads stale state. |
| `AddMedicineForm.StaleFlagExample` | frontend/app/inventory/modal/medicine/add-medicine-form.tsx:66-90 | Pick a category, then type the name "A": the form is valid but the button stays disabled. |
| `AddMedicineForm.FlagIntended` | frontend/app/inventory/modal/medicine/add-medicine-form.tsx:66-90 | The corrected flag is the validity of the form after the edit. |
| `AddMedicineForm.IsValid` | frontend/app/inventory/modal/medicine/add-medicine-form.tsx:66-73 | `validateForm`'s test: a non-blank name, a chosen category and a price of at least 0. |
| `AddMedicineForm.Apply` | frontend/app/inventory/modal/medicine/add-medicine-form.tsx:75-90 | What the input and select handlers store: the changed field, the price through `Math.max(0, …)`, the rest kept. |
| `AddMedicineForm.FilteredCategories` | frontend/app/inventory/modal/medicine/add-medicine-form.tsx:57-64 | A blank search gives every category. Otherwise it keeps exactly the categories whose name contains the search, ignoring case. |
| `AddMedicineForm.UploadedPath` | frontend/app/inventory/modal/medicine/add-medicine-form.tsx:120-125 | The stored path is "/" followed by the returned local path. It is never empty, so the `||` fallback is dead. |
| `AddMedicineForm.PayloadOf` | frontend/app/inventory/modal/medicine/add-medicine-form.tsx:127-138 | The body copies the name, generic name, supplier, price and drafts, with a missing category or unit sent as 0 (`Number(null)`). The image is the uploaded path when a file was uploaded, otherwise the typed URL. The drafts are sent as they are. |
| `AddMedicineForm.Form.constructor` | frontend/app/inventory/modal/medicine/add-medicine-form.tsx:30-52 | The empty form, invalid, with no batches, search or file. |
| `AddMedicineForm.Form.Edit` | frontend/app/inventory/modal/medicine/add-medicine-form.tsx:75-90 | The form becomes `Apply(old, change)` and the flag is the corrected one. Choosing a category clears the category search. |
| `AddMedicineForm.Form.SetCategorySearch` | frontend/app/inventory/modal/medicine/add-medicine-form.tsx:283 | Only the search changes. |
| `AddMedicineForm.Form.SelectFile` | frontend/app/inventory/modal/medicine/add-medicine-form.tsx:92-109 | A file is kept only when it passes the image check. |
| `AddMedicineForm.Form.CancelNewImage` | frontend/app/inventory/modal/medicine/add-medicine-form.tsx:111-114 | The file is dropped. |
| `AddMedicineForm.Form.AddBatch` | frontend/app/inventory/modal/medicine/add-medicine-form.tsx:190-199 | A blank draft is appended. |
| `AddMedicineForm.Form.RemoveBatch` | frontend/app/inventory/modal/medicine/add-medicine-form.tsx:201-203 | The draft at the index is filtered out. |
| `AddMedicineForm.Form.UpdateBatch` | frontend/app/inventory/modal/medicine/add-medicine-form.tsx:205-216 | One field of the draft at the index is replaced. |
| `AddMedicineForm.Form.Succeeded` | frontend/app/inventory/modal/medicine/add-medicine-form.tsx:142-154 | Fields, batches, search and file are all reset. |
| `BatchDrafts.Set` | frontend/app/inventory/modal/medicine/add-medicine-form.tsx:210-214 | `{ ...batch, [field]: value }`: only the named field takes the value. |
| `BatchDrafts.RemovedAt` | frontend/app/inventory/modal/medicine/add-medicine-form.tsx:201-203 | The draft at the index goes and the rest keep their order. An index out of range changes nothing. |
| `BatchDrafts.UpdatedAt` | frontend/app/inventory/modal/medicine/add-medicine-form.tsx:205-216 | Only the draft at the index changes, and only in one field. |
| `BatchDrafts.RemoveAddedBlank` | frontend/app/inventory/modal/medicine/add-medicine-form.tsx:190-203 | Removing the draft just added restores the list. |
| `BatchDrafts.SetSameValue` | frontend/app/inventory/modal/medicine/add-medicine-form.tsx:205-216 | Setting a field to its current value is a no-op. |
| `BatchDrafts.BlankIncomplete` | frontend/app/inventory/modal/medicine/add-batch-to-exist-medicine-form.tsx:60-97 | The blank draft that `addBatch` appends never passes the completeness check. |
| `ImageUpload.ValidateImageFile` | frontend/hooks/useImageUpload.ts:35-49 | Above 5 MB gives the size message. A file within the size limit whose type is not JPEG, JPG, PNG or WebP gives the type message. Otherwise there is no error. Each case is an if-and-only-if. |
| `ImageUpload.AgreesWithEndpoint` | frontend/hooks/useImageUpload.ts:35-49 | The browser accepts exactly the files the upload endpoint accepts. An oversized file of a wrong type is reported differently by the two. |
| `AddBatchToMedicineForm.FilteredMedicines` | frontend/app/inventory/modal/medicine/add-batch-to-exist-medicine-form.tsx:43-52 | A blank search gives every medicine. Otherwise it keeps exactly those whose name or generic name contains the search, ignoring case. |
| `AddBatchToMedicineForm.Find` | frontend/app/inventory/modal/medicine/add-batch-to-exist-medicine-form.tsx:55 | `find`: no result exactly when no medicine has the id. Otherwise the first one with that id. |
| `AddBatchToMedicineForm.AddedBlankBlocks` | frontend/app/inventory/modal/medicine/add-batch-to-exist-medicine-form.tsx:88-98 | A freshly added draft blocks sending until it is filled in. |
| `AddBatchToMedicineForm.Attempted` | frontend/app/inventory/modal/medicine/add-batch-to-exist-medicine-form.tsx:122-129 | The number of requests sent: all of them, or up to and including the refused one. |
| `AddBatchToMedicineForm.Form.constructor` | frontend/app/inventory/modal/medicine/add-batch-to-exist-medicine-form.tsx:27-32 | No medicine, no drafts and an empty search. |
| `AddBatchToMedicineForm.Form.SelectMedicine` | frontend/app/inventory/modal/medicine/add-batch-to-exist-medicine-form.tsx:54-58 | The chosen medicine is `Find` of the id, and the drafts are dropped. |
| `AddBatchToMedicineForm.Form.SetSearch` | frontend/app/inventory/modal/medicine/add-batch-to-exist-medicine-form.tsx:32 | Only the search changes. |
| `AddBatchToMedicineForm.Form.AddBatch` | frontend/app/inventory/modal/medicine/add-batch-to-exist-medicine-form.tsx:60-69 | A blank draft is appended. |
| `AddBatchToMedicineForm.Form.RemoveBatch` | frontend/app/inventory/modal/medicine/add-batch-to-exist-medicine-form.tsx:71-73 | `RemovedAt`. |
| `AddBatchToMedicineForm.Form.UpdateBatch` | frontend/app/inventory/modal/medicine/add-batch-to-exist-medicine-form.tsx:75-86 | `UpdatedAt`. |
| `AddBatchToMedicineForm.Form.Submit` | frontend/app/inventory/modal/medicine/add-batch-to-exist-medicine-form.tsx:88-160 | An incomplete form sends nothing. Otherwise it sends one request per draft, in order, for the chosen medicine, up to the first refusal. It succeeds exactly when none is refused. Success resets the form, and failure keeps it. |
| `AddToBatchForm.FilteredBatches` | frontend/app/inventory/modal/medicine/add-batch-to-existing-batch-form.tsx:60-67 | No medicine gives nothing. Otherwise it keeps exactly the listed batches of that medicine whose number contains the search, ignoring case. |
| `AddToBatchForm.AdditionalInput` | frontend/app/inventory/modal/medicine/add-batch-to-existing-batch-form.tsx:363-364 | `Math.max(0, parseInt(v) \|\| 0)`: a non-negative number is kept, and text or a negative number becomes 0. |
| `AddToBatchForm.SubmitUpdate` | frontend/app/inventory/modal/medicine/add-batch-to-existing-batch-form.tsx:69-86 | Refused exactly when no batch is chosen or the amount is ≤ 0. Otherwise it sends the batch's id with quantity plus amount, which is strictly more than before. |
| `AddToBatchForm.TopUpLogsIncrease` | frontend/app/inventory/modal/medicine/add-batch-to-existing-batch-form.tsx:79-86 | The backend logs a top-up as an "IN,ADJUST" correction by exactly the amount added. |
| `AddToBatchForm.Form.constructor` | frontend/app/inventory/modal/medicine/add-batch-to-existing-batch-form.tsx:27-36 | Nothing chosen, amount 0 and empty searches. |
| `AddToBatchForm.Form.SelectMedicine` | frontend/app/inventory/modal/medicine/add-batch-to-existing-batch-form.tsx:121-128 | The medicine is `Find` of the id. The chosen batch and the batch search are reset. |
| `AddToBatchForm.Form.SelectBatch` | frontend/app/inventory/modal/medicine/add-batch-to-existing-batch-form.tsx:276-281 | The choice becomes the first filtered batch with the chosen id, or none when no batch has it; nothing else changes. |
| `AddToBatchForm.FindBatch` | frontend/app/inventory/modal/medicine/add-batch-to-existing-batch-form.tsx:277-280 | `find` on the filtered batches: none exactly when no batch has the id, else the first batch with it. |
| `AddToBatchForm.Form.SetAdditional` | frontend/app/inventory/modal/medicine/add-batch-to-existing-batch-form.tsx:362-365 | The amount becomes `AdditionalInput`, never negative. |
| `AddToBatchForm.Form.Submit` | frontend/app/inventory/modal/medicine/add-batch-to-existing-batch-form.tsx:69-119 | Sends `SubmitUpdate`. A sent update that succeeds resets the whole form. Otherwise the form is kept. |
| `EditBatchModal.DaysInMonth` | frontend/app/inventory/modal/batches/edit-batch-modal.tsx:38-46 | A month has between 28 and 31 days, with 29 exactly for February of a leap year. |
| `EditBatchModal.PrevDay` | frontend/app/inventory/modal/batches/edit-batch-modal.tsx:77-93 | The previous day is a real day. It differs from the given day and crosses the year only from 1 January. |
| `EditBatchModal.Pad2` | frontend/app/inventory/modal/batches/edit-batch-modal.tsx:44-45 | `padStart(2, "0")`: at least two characters, the input at the end and zeros before it. |
| `EditBatchModal.DateField` | frontend/app/inventory/modal/batches/edit-batch-modal.tsx:39-52 | The prefilled date text is empty exactly when the batch has no valid expiry. |
| `EditBatchModal.ReadDateField` | frontend/app/inventory/modal/batches/edit-batch-modal.tsx:77-78 | A `YYYY-MM-DD` text reads as a real day of years 0..9999, and anything else as no day. |
| `EditBatchModal.DigitsBounds` | frontend/app/inventory/modal/batches/edit-batch-modal.tsx:77-78 | n digits read as a value below 10^n. |
| `EditBatchModal.Pow10` | frontend/app/inventory/modal/batches/edit-batch-modal.tsx:77-78 | Powers of ten are positive. |
| `EditBatchModal.PaddedReadsBack` | frontend/app/inventory/modal/batches/edit-batch-modal.tsx:44-46 | A padded month or day (1..99) reads back as itself. |
| `EditBatchModal.FourDigits` | frontend/app/inventory/modal/batches/edit-batch-modal.tsx:43 | A four-digit year prints as four characters. |
| `EditBatchModal.ReadAssembled` | frontend/app/inventory/modal/batches/edit-batch-modal.tsx:46 | A field assembled from 4, 2 and 2 digits reads as those numbers when they form a real day. |
| `EditBatchModal.DateFieldReadsBack` | frontend/app/inventory/modal/batches/edit-batch-modal.tsx:39-52 | The prefilled field reads back as the batch's local expiry day (years 1000..9999). |
| `EditBatchModal.Prefill` | frontend/app/inventory/modal/batches/edit-batch-modal.tsx:32-61 | The form is filled from the batch's number and quantity, and the date field is empty exactly without an expiry. With no batch, every field is empty. |
| `EditBatchModal.ParsedLocalDay` | frontend/app/inventory/modal/batches/edit-batch-modal.tsx:78-86 | The local day of `new Date("YYYY-MM-DD")` is the picked day exactly when the browser is not west of UTC. |
| `EditBatchModal.OnSaveAsWritten` | frontend/app/inventory/modal/batches/edit-batch-modal.tsx:63-101 | As written, no batch or id 0 only closes. The picked day is compared after UTC parsing, in the browser's zone. |
| `EditBatchModal.OnSave` | frontend/app/inventory/modal/batches/edit-batch-modal.tsx:63-101 | Corrected save. No batch or id 0 closes. An unreadable date throws. Otherwise it sends exactly the fields that differ, each as an if-and-only-if with the typed value. "Close" means every field is empty or equal to the batch's. |
| `EditBatchModal.BuildUpdate` | frontend/app/inventory/modal/batches/edit-batch-modal.tsx:63-101 | Building `updateData` field by field, then testing it for emptiness, gives exactly the corrected `OnSave` outcome. |
| `EditBatchModal.OnSaveIsEastOfUtc` | frontend/app/inventory/modal/batches/edit-batch-modal.tsx:77-96 | The corrected save is what the code does at or east of UTC. |
| `EditBatchModal.UntouchedFormCloses` | frontend/app/inventory/modal/batches/edit-batch-modal.tsx:32-101 | Saving the untouched prefilled form only closes the modal. |
| `EditBatchModal.UntouchedFormResendsWestOfUtc` | frontend/app/inventory/modal/batches/edit-batch-modal.tsx:77-96 | As written, west of UTC, an untouched form for a batch expiring on 9 March 2025 sends that day as a new expiry. |
| `EditBatchModal.Saved` | frontend/app/inventory/modal/batches/edit-batch-modal.tsx:108-123 | A successful save closes the edit modal and patches the viewed batches with the result, if any. It raises the refetch flag and nothing else changes. |
| `EditMedicineModal.DisplayUrl` | frontend/app/inventory/modal/medicine/edit-medicine-modal.tsx:63-66 | A stored path under `/images/medicine` is shown from the bucket, and every other address unchanged. |
| `EditMedicineModal.DisplayUrlIdempotent` | frontend/app/inventory/modal/medicine/edit-medicine-modal.tsx:63-66 | A bucket address is not mapped again, so showing is idempotent. |
| `EditMedicineModal.Prefill` | frontend/app/inventory/modal/medicine/edit-medicine-modal.tsx:57-84 | The form takes the medicine's name, generic name, category, unit, supplier and picture, and its price as a loaded number. It shows the picture at its display address. |
| `EditMedicineModal.TypePrice` | frontend/app/inventory/modal/medicine/edit-medicine-modal.tsx:86-89 | `handleChange` on the price input stores the typed text and changes no other field. |
| `EditMedicineModal.SubmitUpdate` | frontend/app/inventory/modal/medicine/edit-medicine-modal.tsx:120-148 | Nothing is sent without a medicine id. Otherwise the update goes to that id with the typed name, generic name and supplier. The price is sent exactly when the field is truthy: a loaded non-zero number, or any non-empty typed text, "0" included. It is sent as the amount the field reads as. A zero or unset category or unit is left out; any other is sent as chosen. The picture is the new upload's path, or the stored one when nothing was uploaded. |
| `EditMedicineModal.UnchangedFormResends` | frontend/app/inventory/modal/medicine/edit-medicine-modal.tsx:57-148 | Saving the form as filled sends the medicine's own name and picture, and its price unless that is 0. |
| `EditMedicineModal.TypedZeroIsSent` | frontend/app/inventory/modal/medicine/edit-medicine-modal.tsx:144 | A price typed as "0" is truthy text, so the update sets the price to 0. |
| `ExcelPreviewTable.VisibleColumns` | frontend/app/inventory/modal/excel/excel-preview-table.tsx:29-47 | Name and category come first. The medicine columns are shown exactly for the medicine import types, and the batch columns exactly for the batch ones. There are no duplicates, with 9, 6 or 5 columns in all. |
| `ExcelPreviewTable.HiddenColumnsAreProjectedAway` | frontend/app/inventory/modal/excel/excel-preview-table.tsx:29-47 | Every hidden column except the unit is a field the backend projection for that import type has dropped. |
| `ExcelPreviewTable.FieldAsWritten` | frontend/app/inventory/modal/excel/excel-preview-table.tsx:66-67 | As written, `row[column]` finds no `unit` key, so the unit column has no value, while the name column reads the name. |
| `ExcelPreviewTable.Field` | frontend/app/inventory/modal/excel/excel-preview-table.tsx:66-67 | Corrected lookup: it agrees with the as-written one on every column but the unit. The unit has a value exactly when the row has a `unitId`. |
| `ExcelPreviewTable.CellText` | frontend/app/inventory/modal/excel/excel-preview-table.tsx:66-71 | A missing value prints "-". A price gets the currency prefix as the file spells it. Anything else prints as is. |
| `ExcelPreviewTable.UnitColumnAlwaysDash` | frontend/app/inventory/modal/excel/excel-preview-table.tsx:66-68 | As written, the unit cell prints "-" on every row. |
| `ExcelPreviewTable.UnitColumnShowsUnit` | frontend/app/inventory/modal/excel/excel-preview-table.tsx:66-71 | Corrected, a row with a unit shows it, and every other cell prints as before. |
| `ExcelPreviewTable.StatusOf` | frontend/app/inventory/modal/excel/excel-preview-table.tsx:73-77 | Each badge, as an if-and-only-if: Error exactly for a row with an error, Exists for an error-free row that exists, New otherwise. |
| `ExcelPreviewTable.ErrorCount` | frontend/app/inventory/modal/excel/excel-preview-table.tsx:125 | The error count is at most the number of rows. |
| `ExcelPreviewTable.ValidCount` | frontend/app/inventory/modal/excel/excel-preview-table.tsx:126 | The valid count is at most the number of rows. |
| `ExcelPreviewTable.CountsAddUp` | frontend/app/inventory/modal/excel/excel-preview-table.tsx:124-145 | Error and valid counts add up to the row count. The error summary is hidden exactly when no row has an error. |
| `ExcelPreviewTable.CheckboxDisabled` | frontend/app/inventory/modal/excel/excel-preview-table.tsx:189 | A row's checkbox is disabled exactly when the row has an error. |
| `ExcelPreviewTable.AllTicked` | frontend/app/inventory/modal/excel/excel-preview-table.tsx:154-156 | The header checkbox is ticked when there are rows and as many are selected. |
| `ImportExcelTab.CsvAccepted` | frontend/app/inventory/modal/excel/import-excel-tab.tsx:60-73 | A `.csv` file is accepted whatever its MIME type, and no file never is. |
| `ImportExcelTab.MarkedBy` | frontend/app/inventory/modal/excel/import-excel-tab.tsx:123-128 | Each row's flag is set to whether its index is selected, and nothing else about the rows changes. |
| `ImportExcelTab.AllSetTo` | frontend/app/inventory/modal/excel/import-excel-tab.tsx:133-148 | Every row's flag takes the one value, and nothing else about the rows changes. |
| `ImportExcelTab.SelectAll` | frontend/app/inventory/modal/excel/import-excel-tab.tsx:131-150 | A selection as large as the rows is cleared, with every flag off. Any other selection becomes every row's index, each once, with every flag on. The flags agree with the selection either way. |
| `ImportExcelTab.ConfirmRequest` | frontend/app/inventory/modal/excel/import-excel-tab.tsx:152-170 | An empty selection sends nothing, and exactly then. Otherwise the request carries the type, the selection and the cache key. |
| `ImportExcelTab.Tab.constructor` | frontend/app/inventory/modal/excel/import-excel-tab.tsx:44-57 | The tab starts on the file step with the medicine-and-batch type and no file, rows, selection, key or result. |
| `ImportExcelTab.Tab.HandleFileSelect` | frontend/app/inventory/modal/excel/import-excel-tab.tsx:60-73 | An accepted file is kept. The alert is raised exactly for anything else, and then nothing changes. |
| `ImportExcelTab.Tab.SetImportType` | frontend/app/inventory/modal/excel/import-excel-tab.tsx:334 | Picking a type changes the type only. |
| `ImportExcelTab.Tab.HandleUpload` | frontend/app/inventory/modal/excel/import-excel-tab.tsx:75-82 | The parse request carries the file and the type, and there is none exactly without a file. |
| `ImportExcelTab.Tab.Parsed` | frontend/app/inventory/modal/excel/import-excel-tab.tsx:93-105 | The parsed rows are shown unselected, with the new key, an empty selection and the preview step. |
| `ImportExcelTab.Tab.Back` | frontend/app/inventory/modal/excel/import-excel-tab.tsx:454-459 | "Back" returns to the file step with no rows, key or selection, and keeps the type and the file. |
| `ImportExcelTab.Tab.HandleRowSelection` | frontend/app/inventory/modal/excel/import-excel-tab.tsx:114-129 | The index's membership flips, the rows' flags follow, and the selection stays duplicate-free. |
| `ImportExcelTab.Tab.HandleSelectAll` | frontend/app/inventory/modal/excel/import-excel-tab.tsx:131-150 | The selection and the rows become those of `SelectAll`, and the rest is unchanged. |
| `ImportExcelTab.Tab.HandleConfirm` | frontend/app/inventory/modal/excel/import-excel-tab.tsx:152-170 | The request is that of `ConfirmRequest`, and the indices it sends are each sent once. |
| `ImportExcelTab.Tab.Imported` | frontend/app/inventory/modal/excel/import-excel-tab.tsx:176-178 | The report is shown on the result step, and the rest is unchanged. |
| `ImportExcelTab.Headers` | frontend/app/inventory/modal/excel/import-excel-tab.tsx:220-286 | There are 9, 6 or 4 distinct headers, per import type. |
| `ImportExcelTab.FieldText` | frontend/app/inventory/modal/excel/import-excel-tab.tsx:292 | `row[header] \|\| ""`: a missing, zero or empty value is an empty field. Text prints as is and a nonzero number in decimal. |
| `ImportExcelTab.Cells` | frontend/app/inventory/modal/excel/import-excel-tab.tsx:291-293 | There is one field per header, in header order, each the value stored under that header. |
| `ImportExcelTab.NoSeparators` | frontend/app/inventory/modal/excel/import-excel-tab.tsx:289-294 | Joining plain fields with commas adds no other character. |
| `ImportExcelTab.ExampleCells` | frontend/app/inventory/modal/excel/import-excel-tab.tsx:238-283 | Each example field is the value under its header, with 100 in decimal. |
| `ImportExcelTab.FieldsPlain` | frontend/app/inventory/modal/excel/import-excel-tab.tsx:238-283 | No example field holds a comma or a line break. |
| `ImportExcelTab.HeadersPlain` | frontend/app/inventory/modal/excel/import-excel-tab.tsx:227-275 | No header holds a comma or a line break. |
| `ImportExcelTab.TwoLinesReadBack` | frontend/app/inventory/modal/excel/import-excel-tab.tsx:289-294 | Two comma-joined lines of plain fields, joined by a line break, split back into the same lines and fields. |
| `ImportExcelTab.CsvReadsBack` | frontend/app/inventory/modal/excel/import-excel-tab.tsx:220-294 | The downloaded template reads back as the header line and the example line. Splitting those at commas gives the headers and, in the same order, the example row's fields. |
| `ImportExcelTab.Csv` | frontend/app/inventory/modal/excel/import-excel-tab.tsx:289-294 | The template: the header line, a newline, the example line. `CsvReadsBack` states that it reads back. |
| `ImportExcelTab.HeaderLine` | frontend/app/inventory/modal/excel/import-excel-tab.tsx:290 | The headers joined by commas. |
| `ImportExcelTab.ExampleLine` | frontend/app/inventory/modal/excel/import-excel-tab.tsx:291-293 | The example row's fields under the headers, missing ones empty, joined by commas. |
| `ViewBatchesModal.ShowExpired` | frontend/app/inventory/modal/batches/view-batches-modal.tsx:28-29 | The prop wins. Failing it, the payload's flag is used, and failing both it is false. The mode is on only when one of them says so. |
| `ViewBatchesModal.ForMedicine` | frontend/app/inventory/modal/batches/view-batches-modal.tsx:27-33 | The list holds exactly the fetched batches of the viewed medicine. With no medicine it holds none. |
| `ViewBatchesModal.Filtered` | frontend/app/inventory/modal/batches/view-batches-modal.tsx:34-43 | Expired mode lists exactly the batches with an expiry before now. The other mode lists those at or after now. An unreadable expiry is in neither. |
| `ViewBatchesModal.Dated` | frontend/app/inventory/modal/batches/view-batches-modal.tsx:34-43 | The batches kept are exactly those with a readable expiry. |
| `ViewBatchesModal.ModesPartition` | frontend/app/inventory/modal/batches/view-batches-modal.tsx:34-43 | The two modes split the dated batches between them, each exactly once (as multisets), and never share a batch. |
| `ViewBatchesModal.BodyOf` | frontend/app/inventory/modal/batches/view-batches-modal.tsx:63-123 | Loading shows the loading line. "No batches found" shows exactly when the medicine has no batches at all. Otherwise the filtered list is shown. |
| `ViewBatchesModal.EmptyListWithoutMessage` | frontend/app/inventory/modal/batches/view-batches-modal.tsx:63-71 | A medicine whose only batch is on the other side of the filter gets an empty list and no message. |
| `Navbar.FormatPath` | frontend/app/components/Navbar.tsx:26-31 | The title drops the path's first character and upper-cases the next one. The rest is kept, so it is one character shorter, and empty for a path of at most one character. |
| `Navbar.Title` | frontend/app/components/Navbar.tsx:51 | The root path is titled "Dashboard", and every other path by `FormatPath`. |
| `Navbar.FormatKeepsCapitalised` | frontend/app/components/Navbar.tsx:26-31 | A path whose second character is already upper case loses only its first character. |
| `ReorderModal.Status` | frontend/app/components/ReorderModal.tsx:35-41 | Each band, as an if-and-only-if: Critical for no figure or 0..24, Low for 25..100 with 100 included, Normal for a negative stock or above 100. |
| `ReorderModal.StatusColor` | frontend/app/components/ReorderModal.tsx:43-53 | Each status has its own colour class, one to one. |
| `ReorderModal.TotalItems` | frontend/app/components/ReorderModal.tsx:19-22 | The total of an empty list is 0, and of non-negative quantities it is non-negative. |
| `ReorderModal.AddNewAddsOne` | frontend/app/components/ReorderModal.tsx:19-22 | Putting a new medicine on the list raises the total by exactly one. |
| `Views.LabelInjective` | frontend/app/inventory/table/columns.tsx:188-213 | Different statuses print different labels, so the status filter, which compares labels, compares statuses. |
| `Ledger.ClockDay` | backend/src/modules/dispense/dispense.service.ts:52-56 | The day standing for a clock instant: the first day whose midnight is not before it, so its midnight is at or after the clock and the day before's is earlier. |
| `Ledger.ClockDayMatchesInstant` | backend/src/modules/medicines/medicines.service.ts:39-42 | A `date` column's midnight is at or after the clock exactly when its day is at or after `ClockDay`, and before it exactly when the day is before. Both the dispense query and the summary's views therefore agree with comparing day numbers with `now`. |
| `Ledger.FindMedicine` | backend/src/modules/medicines/medicines.service.ts:71-76 | A found index holds the requested id. Not found means no medicine row has it. |
| `Ledger.FindBatch` | backend/src/modules/medicine-batches/medicine-batches.service.ts:131-133 | A found index holds the requested id. Not found means no batch row has it. |
| `Ledger.Database.constructor` | backend/src/modules/dispense/dispense.service.ts:35-39 | The database starts with empty tables and the given users, and satisfies its invariant. |
| `BatchesService.RemoveForgets` | backend/src/modules/medicine-batches/medicine-batches.service.ts:131-136 | After its row is deleted, a batch id is found no more. |
| `ImportExcelService.Reference` | backend/src/modules/import-excel/import-excel.service.ts:273-288 | A category or unit reference is set exactly when the id is truthy and the row is found, and then it is that id. |
| `ImportExcelService.ImportRowKeepsConsistent` | backend/src/modules/import-excel/import-excel.service.ts:225-257 | Handling one row keeps ids fresh and the id counters positive. |
| `CategoryService.ByNameTotalPreorder` | backend/src/modules/category/category.service.ts:40-45 | Ordering by name is total and transitive, so the sorted list is well defined. |
| `CategoryService.TrimOption` | backend/src/modules/category/category.service.ts:34 | `description?.trim()`: an absent description stays absent, and a present one is trimmed. |
| `CategoryService.UpdatedName` | backend/src/modules/category/category.service.ts:74-77 | An absent or empty name keeps the old one. Otherwise the name is the trimmed new one. |
| `CategoryService.UpdatedDescription` | backend/src/modules/category/category.service.ts:78-80 | An absent or empty description keeps the old one. Otherwise it is the trimmed new one. |
| `CategoryService.CategoryTable.constructor` | backend/src/modules/category/category.service.ts:13-18 | The registry starts empty and consistent. |
| `UnitsService.ByNameTotalPreorder` | backend/src/modules/units/units.service.ts:35-37 | Ordering by name is total and transitive. |
| `UnitsService.UnitTable.constructor` | backend/src/modules/units/units.service.ts:12-18 | The registry starts empty and consistent. |
| `Dashboard.ByStockTotalPreorder` | frontend/app/dashboard/page.tsx:340-361 | Ordering by stock is a total preorder, so the alert lists are well defined up to ties. |
| `Dashboard.MoreSoldTotalPreorder` | frontend/app/dashboard/page.tsx:327-331 | Ordering by quantity sold, descending, is a total preorder. |
| `DispenseStore.Cart.constructor` | frontend/store/useDispenseStore.ts:43-46 | The cart starts empty. |
| `ReorderStore.Reorder.constructor` | frontend/store/useMedicineStore.ts:33-36 | The reorder list starts empty. |
| `InventoryUI.Store.constructor` | frontend/store/useInventoryUI.ts:74-157 | Every modal starts closed with no payload, and the search starts empty. |

## Left out

- Persistence. TypeORM repositories, relation loading and the database's unique constraints (category and unit names, medicine and batch number) are not modelled. The tables are sequences. A failed dispense leaves every table as it was, but the receipt counter stays advanced, as an identity column's sequence does. The foreign keys that deletions meet are modelled: `ON DELETE SET NULL` on stock logs, `ON DELETE CASCADE` from medicines to batches, and `ON DELETE RESTRICT` from receipt items to batches. Other foreign keys are not.
- Concurrency and isolation. Two dispenses racing for the same batch are not modelled, and every operation runs alone.
- DispenseService.Dispense: the clock is one `now` parameter for the whole request. The source reads `new Date()` once per line (dispense.service.ts:52), so a request that spans a batch's expiry instant is not modelled.
- Time zones and date parsing in general. Dates are day numbers or millisecond counts passed in as parameters. The one place where the UTC/local distinction is the point, the edit-batch expiry comparison, is modelled with an explicit "west of UTC" flag.
- EditBatchModal.OnSaveAsWritten: a batch without an expiry is treated as having none. The source compares against `new Date(null)`, which is 1 January 1970, so picking exactly that day (or 31 December 1969 west of UTC) closes the modal instead of sending it.
- CategoryService.CategoryTable.FindAll: `order: { name: 'ASC' }` sorts by the database collation; the model orders names by code point, so case and accents may order differently.
- UnitsService.UnitTable.FindAll: the same, names are ordered by code point where the database uses its collation.
- Floating point. Prices are integers that are only copied. Revenue, the estimated reorder cost, `toFixed`, `Intl.NumberFormat` and the dashboard's revenue and sales-trend charts are not modelled.
- ReorderModal.TotalItems: its own contract states only the empty-list and sign facts. The sum itself is stated by `AddNewAddsOne` and `Lists.Sum`.
- Dashboard.TopByQuantity: sellers with equal quantities keep the table's order, because `Sorting.SortBy` is stable like `Array.prototype.sort`. The contract does not state that stability. It states the count, the order by quantity, and that every seller left out sold no more than any seller shown.
- DispenseService.FefoUpTo: batches with equal expiry dates are taken in table order. The source's query orders by `expiryDate` only (dispense.service.ts:59), so the database decides the order of ties.
- EditMedicineModal.SubmitUpdate: a loaded price is taken as the number that the front end's types declare. PostgreSQL's driver delivers a `numeric` column as text such as "0.00", which is truthy, so a stored price of 0 would then be sent, not left out. Parsing the typed text with `Number` is not modelled: each typed text comes with the amount it reads as.
- Text. Case folding and trimming are ASCII only. Unicode case mappings and the full JavaScript whitespace set are not modelled.
- XLSX parsing, the Redis cache, the Google Cloud Storage upload, and authentication (bcrypt, JWT, cookies, local storage). The parsed rows, the cache entry, the stored path and the user are parameters.
- React, React Query and zustand plumbing: rendering, `persist` to local storage, toasts and alerts. Debounce timers are not modelled either: the duplicate-name checks at 400 and 500 ms, the edit-modal prefill effects, and the 1.5 s delay before the import tab reports success. Of the receipt page's reset effect, only the page it settles on is modelled (see Findings).
- `useReceiptStore`'s setters. The search text and the date range are parameters of `ReceiptPage.Filtered`.
- The import tab's template file is downloaded under an `.xlsx` name while its content is CSV. Only the content is modelled.
- Read-only services with no logic beyond a query (receipts, stock logs, users, roles), controllers other than the upload guard, and DTO classes. The class-validator rules of the DTOs are not modelled. For example, the dispense service accepts any line quantity, as its own code does.

## Findings

| source | as written | input that shows it | evidently intended | confidence | as-written member | corrected member |
|---|---|---|---|---|---|---|
| frontend/app/inventory/modal/medicine/add-medicine-form.tsx:66-90 | Each change handler calls `validateForm` right after `setFormData`, so the check reads the form from before the change. | From an empty form, pick category 1 and then type the name "A". The form is valid, but the submit button stays disabled. | The flag reflects the form after the change. | not executed | `AddMedicineForm.StaleFlagExample` | `AddMedicineForm.FlagIntended` |
| frontend/app/inventory/table/columns.tsx:19-26 | Stock 0 is classified "Critical", so no row ever has the status "Out Of Stock", which the status filter offers (inventory/page.tsx:41-43). | Any medicine with stock 0: the Out Of Stock card counts it, yet choosing the "Out Of Stock" filter empties the table. | Stock 0 is "Out Of Stock", as the cards count it (inventory/page.tsx:56-64). | not executed | `InventoryPage.OutOfStockFilterShowsNothing` | `InventoryPage.IntendedFilterMatchesCards` |
| frontend/app/inventory/modal/batches/edit-batch-modal.tsx:77-96 | `new Date("YYYY-MM-DD")` is midnight UTC. Its local date parts west of UTC are the day before, and they are compared with the batch's local date. The `date` column itself reaches the browser as a "YYYY-MM-DD" string, so west of UTC the prefilled field already shows the day before the stored one. | In a browser west of UTC, open a batch and save without touching anything: the day the field shows is sent as a change, and the stored expiry moves back one day. The as-written member shows the resend for a batch whose local expiry day is 9 March 2025. | An untouched form only closes the modal, which the code's own comment about avoiding time-zone issues says is the aim. | not executed | `EditBatchModal.UntouchedFormResendsWestOfUtc` | `EditBatchModal.UntouchedFormCloses` |
| frontend/app/inventory/modal/excel/excel-preview-table.tsx:66-67 | The "unit" column reads `row["unit"]`, but preview rows carry `unitId` and no `unit` key (types/medicines.ts:74-91). | Any preview row with a unit: its Unit cell prints "-". | The Unit column shows the row's unit. | not executed | `ExcelPreviewTable.UnitColumnAlwaysDash` | `ExcelPreviewTable.UnitColumnShowsUnit` |
| frontend/app/receipt/page.tsx:215-224 | The reset effect lists `pageIndex` among its dependencies. Every page change therefore schedules it, and 300 ms later it sets any page other than the first back to 0. | With more than one page of receipts, press "next": page 2 shows for 300 ms, then page 1 returns. | Only a change of search or range goes back to the first page, as the comment above the effect says. | not executed | `ReceiptPage.NextPageSnapsBack` | `ReceiptPage.IntendedResetsOnFilterChange` |
