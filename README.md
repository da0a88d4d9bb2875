# open-mSupply core, modelled in Dafny

This project models a core slice of open-mSupply, a stock and health-programme management system.
Its server side is written in Rust and its client in TypeScript/React. The model covers three areas:

* **Central sync pull and the sync buffer.** The pull loop fetches batches of central records from
  the cursor kept in the key-value store. It writes each record into the `sync_buffer` table and
  advances the cursor in the same transaction. The buffer repository upserts, removes and filters
  rows.
* **Service pipelines: validate, generate, commit.** This covers inserting a vaccine course or a
  stocktake, adding master-list items to an inbound shipment, the shared invoice helpers, the checks
  for stock-out line updates and inbound-return updates, inserting stock-in lines and inventory
  adjustments, upserting program enrolments and deciding the latest document. It also covers
  integrating synced documents, the active stores on a site and the checks on asset logs. Each
  validator is a function. Its `ensures` clauses give the error each check produces, in the
  source's order. Each commit is a method on a class that holds the affected tables.
* **Mapping and aggregation layers.** On the server these are the GraphQL input and error mappings
  for inbound-shipment line updates and for encounters, and the data loader that groups vaccine-course
  items. On the client they are the sort-by hook, the unit-variant store and hook, the stocktake and
  inbound-shipment column accessors, the inbound-return modal's navigation, the requisition
  status-change button, the JSON-forms autocomplete, the pack-unit entry cell and the
  inbound-shipment general tab.

## Conventions

* **Modules.** Each source file becomes one module. The shared modules are `Wrappers`
  (Option/Result), `Repository` (`RepositoryError` and the SQL meaning of `EqualFilter` and
  `DatetimeFilter`), `InvoiceRows` (invoice, line, stock-line and item rows), `Sequences` (filter),
  `Text` (integer to string), `ActivityLog` and `ArrayUtils`.
* **Database tables** are `map`s keyed by id, held in the fields of classes whose methods update
  them in place.
* **Queries the model cannot see are parameters.** This covers database reads, the central API,
  JSON parsing, `next_number` and the other helpers whose code is not part of this model. They
  arrive as values or as function-typed parameters ("oracles"), and the contracts are stated over
  them.
* **Numbers.** Integers are unbounded. Where the source narrows a value, that is written out: the
  pull cursor is stored as an `i32` and read back as a `u64`, and `max_cursor - cursor` wraps
  modulo 2^64. The server's `f64` pack counts and prices are `real`, without rounding. The
  floating-point rounding of the client (`NumUtils.round`) is not modelled.
* **Client React hooks** are modelled with the state each hook keeps as a class. Its handlers
  become methods, and each derived view becomes a function of that state.

## Model

| member | source | states |
|---|---|---|
| CentralSync.U64AsI32 | server/service/src/sync/central_data_synchroniser.rs:115-118 | `cursor as i32`: the stored value is a valid i32 and equals the cursor modulo 2^32 |
| CentralSync.I32AsU64 | server/service/src/sync/central_data_synchroniser.rs:107-113 | `value as u64`: the result is below 2^64 and equals the stored i32 modulo 2^64 |
| CentralSync.CursorRoundTrip | server/service/src/sync/central_data_synchroniser.rs:107-118 | a cursor up to i32::MAX is read back unchanged after it is stored |
| CentralSync.CursorPastI32ComesBackHuge | server/service/src/sync/central_data_synchroniser.rs:107-118 | a cursor between i32::MAX and 2^32 is read back as cursor - 2^32 + 2^64, not as itself |
| CentralSync.U64WrappingSub | server/service/src/sync/central_data_synchroniser.rs:50-52 | `a - b` on u64 without overflow checks: the plain difference when `b <= a`, and 2^64 - (b - a) when `b` is past `a` |
| CentralSync.RemainingWrapsPastMaxCursor | server/service/src/sync/central_data_synchroniser.rs:50-52 | a cursor past `max_cursor` makes the progress count `max_cursor - cursor` wrap to 2^64 - (cursor - max_cursor) |
| CentralSync.Remaining | server/service/src/sync/central_data_synchroniser.rs:50-52 | the progress count is below 2^64, and is the plain `max_cursor - cursor` while the cursor has not passed `max_cursor` |
| CentralSync.StartCursor | server/service/src/sync/central_data_synchroniser.rs:39-41 | each iteration starts from 0 when the read fails or nothing is stored, otherwise from the stored i32 widened to u64 |
| CentralSync.PullCursor.constructor | server/service/src/sync/central_data_synchroniser.rs:100-105 | the cursor store starts with the given stored value |
| CentralSync.PullCursor.GetCursor | server/service/src/sync/central_data_synchroniser.rs:107-113 | a read fault is returned as the error; otherwise the stored value (0 when unset) widened to u64 |
| CentralSync.PullCursor.UpdateCursor | server/service/src/sync/central_data_synchroniser.rs:115-118 | a refused write is returned as the error and leaves the store as it was; otherwise the store holds the cursor truncated to i32 |
| CentralSync.ProcessRecords | server/service/src/sync/central_data_synchroniser.rs:54-63 | the per-record loop keeps the stored cursor a valid i32; its outcome is characterised by the two lemmas below |
| CentralSync.TransactionFault | server/service/src/sync/central_data_synchroniser.rs:83-94 | the transaction fails exactly when the upsert or the cursor write is refused, with the upsert's error first |
| CentralSync.ConvertedRows | server/service/src/sync/central_data_synchroniser.rs:56-59 | when every record converts, there is one buffer row per record, in batch order |
| CentralSync.ProcessRecordsCommitsInOrder | server/service/src/sync/central_data_synchroniser.rs:54-63 | when every record converts and commits, the buffer holds the rows upserted in order, and the stored cursor and the loop cursor are the last record's cursor |
| CentralSync.ProcessRecordsStopsAtFirstFailure | server/service/src/sync/central_data_synchroniser.rs:54-63 | the first record that fails to convert (`ParsingV5RecordError`) or to save its row or its cursor (`SaveSyncBufferOrCursorsError`) ends the loop; the state is what the records before it wrote, and nothing for the failing record is written |
| CentralSync.Round | server/service/src/sync/central_data_synchroniser.rs:38-78 | one loop iteration keeps the state valid; its steps in source order (fetch, progress, records, progress, match) and its exits are stated by the Round lemmas |
| CentralSync.RoundApiFailureWritesNothing | server/service/src/sync/central_data_synchroniser.rs:43-47 | an API failure ends the pull with `PullError` and leaves the buffer and the cursor unchanged |
| CentralSync.RoundLoggerFailureBeforeRecordsWritesNothing | server/service/src/sync/central_data_synchroniser.rs:50-52 | a failing progress report before the records ends the pull with `SyncLoggerError` and writes nothing |
| CentralSync.RoundLoggerFailureAfterRecordsKeepsThem | server/service/src/sync/central_data_synchroniser.rs:54-67 | a failing progress report after a batch that committed ends the pull with `SyncLoggerError`, with the batch's rows upserted in order and the last record's cursor stored |
| CentralSync.RoundBreaksExactlyWhenCaughtUp | server/service/src/sync/central_data_synchroniser.rs:43-70 | the loop breaks if and only if the batch is empty, the start cursor is at or past `max_cursor`, and both progress reports of that round succeed, each failing or not on its own |
| CentralSync.RoundContinuesAfterNonEmptyBatch | server/service/src/sync/central_data_synchroniser.rs:50-76 | a non-empty batch whose records all convert and commit, with both progress reports recorded, always continues the loop |
| CentralSync.RoundAdvancesPastEmptyBatch | server/service/src/sync/central_data_synchroniser.rs:65-75 | an empty batch with the cursor below `max_cursor`, the cursor read and both progress reports succeeding and the write accepted continues, leaves the buffer alone and stores cursor + 1, so the next start cursor is one larger |
| CentralSync.RoundEmptyBatchCursorWriteFailure | server/service/src/sync/central_data_synchroniser.rs:71-75 | with both progress reports recorded, a refused write of cursor + 1 after an empty batch below `max_cursor` ends the pull with `SaveSyncBufferOrCursorsError` and writes nothing |
| CentralSync.RoundEmptyBatchSecondReportFailure | server/service/src/sync/central_data_synchroniser.rs:50-67 | after an empty batch the second progress report, of the same count as the first, can fail although the first succeeded; the pull then ends with `SyncLoggerError` and writes nothing |
| CentralSync.PullRounds | server/service/src/sync/central_data_synchroniser.rs:29-80 | repeating rounds keeps the state valid; each round has its own cursor read fault, API answer and pair of progress-report faults; it stops at a break, at the first error of any of the four kinds, or when the fuel runs out |
| CentralSync.PullRoundsAfterRound | server/service/src/sync/central_data_synchroniser.rs:38-78 | one round of the pull: a break finishes with its state, a failure stops with its error and state, and a round that continues hands its state to the next round |
| CentralSync.CentralDataSynchroniser.constructor | server/service/src/sync/central_data_synchroniser.rs:24-26 | the synchroniser holds the given API and conversion environment |
| CentralSync.CentralDataSynchroniser.InsertOneAndUpdateCursor | server/service/src/sync/central_data_synchroniser.rs:83-94 | in one transaction: on success the row is upserted and the cursor stored; a refused upsert or a refused cursor write (which rolls the upsert back) is the error, and neither the buffer nor the cursor changes |
| CentralSync.CentralDataSynchroniser.StoreBatch | server/service/src/sync/central_data_synchroniser.rs:54-63 | the imperative per-record loop ends in exactly the state, cursor and error of the `ProcessRecords` specification |
| CentralSync.CentralDataSynchroniser.RunRound | server/service/src/sync/central_data_synchroniser.rs:38-78 | one imperative pass of the loop body, with both logger calls and the write of cursor + 1 after an empty batch, ends in exactly the outcome and state of the `Round` specification for that round's cursor read, API answer and progress reports |
| CentralSync.CentralDataSynchroniser.PullStep | server/service/src/sync/central_data_synchroniser.rs:38-78 | one pass of the loop takes exactly the step of `PullRounds` for that round |
| CentralSync.CentralDataSynchroniser.Pull | server/service/src/sync/central_data_synchroniser.rs:29-80 | the imperative pull loop, counting its rounds from 0, ends in exactly the outcome and state of the `PullRounds` specification |
| SyncBuffer.DefaultRow | server/repository/src/db_diesel/sync_buffer.rs:43-55 | the default row has action `Upsert`, nothing integrated and empty strings |
| SyncBuffer.ActionEqualTo | server/repository/src/db_diesel/sync_buffer.rs:136-146 | `action.equal_to()` selects exactly the rows whose action is that action |
| SyncBuffer.NewFilter | server/repository/src/db_diesel/sync_buffer.rs:111-113 | a new filter sets no condition, so every row passes it |
| SyncBuffer.SyncBufferFilter.WithIntegrationDatetime | server/repository/src/db_diesel/sync_buffer.rs:115-118 | a row passes exactly when it passes the other conditions and the integration-datetime one |
| SyncBuffer.SyncBufferFilter.WithIntegrationError | server/repository/src/db_diesel/sync_buffer.rs:120-123 | a row passes exactly when it passes the other conditions and the integration-error one |
| SyncBuffer.SyncBufferFilter.WithTableName | server/repository/src/db_diesel/sync_buffer.rs:125-128 | a row passes exactly when it passes the other conditions and the table-name one |
| SyncBuffer.SyncBufferFilter.WithAction | server/repository/src/db_diesel/sync_buffer.rs:130-133 | a row passes exactly when it passes the other conditions and the action one |
| SyncBuffer.Upserted | server/repository/src/db_diesel/sync_buffer.rs:69-86 | after an upsert exactly one row has the record id, and it is the new row; every other row is unchanged and ids stay keys |
| SyncBuffer.UpsertAll | server/repository/src/db_diesel/sync_buffer.rs:88-93 | `upsert_many` as a specification: `upsert_one` front to back, returning the first error; its properties are the four UpsertAll lemmas below |
| SyncBuffer.UpsertAllSucceedsIff | server/repository/src/db_diesel/sync_buffer.rs:88-93 | `upsert_many` succeeds if and only if every single upsert succeeds |
| SyncBuffer.UpsertAllStopsAtFirstFault | server/repository/src/db_diesel/sync_buffer.rs:88-93 | the first failing row's error is returned, and the table is what the rows before it produced |
| SyncBuffer.UpsertAllLastWriteWins | server/repository/src/db_diesel/sync_buffer.rs:88-93 | when all upserts succeed, a record id holds the last row given for it |
| SyncBuffer.UpsertAllKeepsUntouched | server/repository/src/db_diesel/sync_buffer.rs:88-93 | a stored row whose id is not among the upserted rows is unchanged |
| SyncBuffer.SyncBufferTable.constructor | server/repository/src/db_diesel/sync_buffer.rs:64-66 | the repository starts over an empty table |
| SyncBuffer.SyncBufferTable.UpsertOne | server/repository/src/db_diesel/sync_buffer.rs:69-86 | on success the table becomes `Upserted(old, row)`; on a database error it is unchanged |
| SyncBuffer.SyncBufferTable.UpsertMany | server/repository/src/db_diesel/sync_buffer.rs:88-93 | the result and the new table are those of `upsert_one` applied in order, stopping at the first error |
| SyncBuffer.SyncBufferTable.RemoveAll | server/repository/src/db_diesel/sync_buffer.rs:96-99 | afterwards the table is empty |
| SyncBuffer.SyncBufferTable.Query | server/repository/src/db_diesel/sync_buffer.rs:166-202 | with no filter it returns every row; with a filter it returns exactly the rows that satisfy every field set in the filter, and changes nothing |
| SyncBuffer.SyncBufferQueryExamples | server/repository/src/db_diesel/sync_buffer.rs:250-276 | on the test's three rows, null integration datetime and error select only row_c, and action Delete selects only row_b |
| Repository.EqualTo | server/repository/src/db_diesel/sync_buffer.rs:136-146 | an `equal_to` filter matches exactly the value it names, and never NULL |
| Repository.NotEqualTo | server/service/src/asset/validate.rs:59 | a `not_equal_to` filter matches every non-NULL value but the one it names |
| Repository.EqualAny | server/service/src/asset/validate.rs:58 | an `equal_any` filter matches exactly the non-NULL values listed |
| Repository.EqualAnyOrNull | server/service/src/sync/mod.rs:43 | `equal_any_or_null(vs)` matches NULL and every value in vs, and nothing else |
| Repository.EqualOrNullBool | server/service/src/sync/mod.rs:43 | `equal_or_null_bool(b)` matches NULL and b, and nothing else |
| Repository.NotEqualAll | server/service/src/invoice/inbound_shipment/add_from_master_list.rs:101 | a `not_equal_all` filter matches exactly the non-NULL values not listed |
| Repository.IsNull | server/repository/src/db_diesel/sync_buffer.rs:254 | `is_null(b)` matches a column exactly when its being NULL equals b |
| Repository.DatetimeIsNull | server/repository/src/db_diesel/sync_buffer.rs:253 | a datetime `is_null(b)` filter matches exactly when the column's being NULL equals b |
| VaccineCourseRow.FindOneById | server/repository/src/db_diesel/vaccine_course/vaccine_course_row.rs:72-81 | the row with that id, or None (not an error) when it is absent |
| VaccineCourseRow.FindAll | server/repository/src/db_diesel/vaccine_course/vaccine_course_row.rs:67-70 | exactly the stored rows: a row is listed iff looking up its id finds it |
| VaccineCourseRow.UpsertThenFind | server/repository/src/db_diesel/vaccine_course/vaccine_course_row.rs:48-65 | after an upsert the row is found by its id, and lookups of every other id are unchanged |
| VaccineCourseRow.UpsertExistingReplaces | server/repository/src/db_diesel/vaccine_course/vaccine_course_row.rs:48-65 | upserting an existing id replaces that row: the ids are the same, and only the old row is swapped for the new one |
| VaccineCourseRow.DeleteThenFind | server/repository/src/db_diesel/vaccine_course/vaccine_course_row.rs:83-88 | after a delete the id is not found, and every other id's lookup is unchanged |
| VaccineCourseRow.VaccineCourseRowRepository.constructor | server/repository/src/db_diesel/vaccine_course/vaccine_course_row.rs:43-46 | the repository starts over an empty table |
| VaccineCourseRow.VaccineCourseRowRepository.UpsertOne | server/repository/src/db_diesel/vaccine_course/vaccine_course_row.rs:48-65 | the row is stored under its id, replacing any row with that id, and is then found by it |
| VaccineCourseRow.VaccineCourseRowRepository.Delete | server/repository/src/db_diesel/vaccine_course/vaccine_course_row.rs:83-88 | only the row with that id is removed |
| VaccineCourseInsert.Validate | server/service/src/vaccine_course/insert.rs:58-75 | in order: an existing id gives `VaccineCourseAlreadyExists`, then a missing program `ProgramDoesNotExist`, then a missing indicator `DemographicIndicatorDoesNotExist`; Ok iff all three pass |
| VaccineCourseInsert.Generate | server/service/src/vaccine_course/insert.rs:77-95 | id, name, program and indicator are copied; coverage rate 100, active, wastage 0, one dose |
| VaccineCourseInsert.FromSingleRecordError | server/service/src/vaccine_course/insert.rs:103-111 | a read-back NotFound becomes `CreatedRecordNotFound`, and a database error keeps its payload |
| VaccineCourseInsert.GetVaccineCourse | server/service/src/vaccine_course/insert.rs:51-52 | reading back succeeds iff the id is stored, and returns the stored row |
| VaccineCourseInsert.ReadBackFindsGenerated | server/service/src/vaccine_course/insert.rs:40-52 | after the generated row is upserted, reading it back returns exactly that row |
| VaccineCourseInsert.VaccineCourseDatabase.constructor | server/service/src/vaccine_course/insert.rs:32-35 | the service context starts with the given tables and an empty activity log |
| VaccineCourseInsert.VaccineCourseDatabase.InsertVaccineCourse | server/service/src/vaccine_course/insert.rs:32-56 | a validation error is returned and nothing is written; otherwise the generated row is upserted, one `VaccineCourseCreated` entry with its id is logged, and the row is returned |
| StocktakeInsert.CheckStocktakeDoesNotExist | server/service/src/stocktake/insert.rs:30-37 | true iff no stored stocktake has the id |
| StocktakeInsert.Validate | server/service/src/stocktake/insert.rs:39-51 | an existing id gives `StocktakeAlreadyExists` before the store is looked at; then an unknown store gives `InvalidStore`; Ok iff both pass |
| StocktakeInsert.Generate | server/service/src/stocktake/insert.rs:53-74 | status New, the given store, `next_number` for that store as number; id, comment, description and created time copied |
| StocktakeInsert.ReadBack | server/service/src/stocktake/insert.rs:88-91 | a missing read-back gives `InternalError("Failed to read the just inserted stocktake!")`, otherwise the row |
| StocktakeInsert.StocktakeDatabase.constructor | server/service/src/stocktake/insert.rs:76-80 | the service context holds the given stocktakes and stores |
| StocktakeInsert.StocktakeDatabase.InsertStocktake | server/service/src/stocktake/insert.rs:76-95 | a validation error is returned and nothing is written; otherwise the generated row is inserted under its id and returned |
| StocktakeInsert.InsertStocktakeExamples | server/service/src/stocktake/insert.rs:137-182 | the three test cases: existing id, invalid store, and a new id in a valid store (Ok) |
| AddFromMasterList.Validate | server/service/src/invoice/inbound_shipment/add_from_master_list.rs:60-83 | in order: a missing shipment gives `ShipmentDoesNotExist`, another store's `NotThisStoreShipment`, a status other than New `CannotEditShipment`, another type `NotAnInboundShipment`, and a master list not visible to the store `MasterListNotFoundForThisStore`; Ok returns the shipment iff all pass |
| AddFromMasterList.ItemIdsInInvoice | server/service/src/invoice/inbound_shipment/add_from_master_list.rs:90-95 | exactly the item ids of the lines already on the invoice |
| AddFromMasterList.MasterListLinesNotInInvoice | server/service/src/invoice/inbound_shipment/add_from_master_list.rs:97-103 | the query selects exactly the lines of that master list whose item is a Stock item not yet on the invoice, each taken from the master-list lines |
| AddFromMasterList.EmptyLine | server/service/src/invoice/inbound_shipment/add_from_master_list.rs:105-113 | a new line with the given id, on the shipment, for the item with its name and code, with zero packs; pack size and prices are the defaults |
| AddFromMasterList.Generate | server/service/src/invoice/inbound_shipment/add_from_master_list.rs:85-115 | one new line per queried master-list line, in query order, each with a fresh id, the shipment's id, the item's id, name and code, and 0 packs |
| AddFromMasterList.GenerateAddsExactlyMissingStockItems | server/service/src/invoice/inbound_shipment/add_from_master_list.rs:97-103 | every generated line is for a Stock item of that master list not already on the invoice, and every such item gets a line |
| AddFromMasterList.UpsertLines | server/service/src/invoice/inbound_shipment/add_from_master_list.rs:45-47 | after upserting the rows in turn the table holds exactly the old ids and the rows' ids, the last row is stored under its id, and an id no row carries keeps its line |
| AddFromMasterList.UpsertLinesOfFreshRows | server/service/src/invoice/inbound_shipment/add_from_master_list.rs:45-47 | upserting rows with new, distinct ids adds exactly those rows and keeps every existing line |
| AddFromMasterList.LinesOfInvoice | server/service/src/invoice/inbound_shipment/add_from_master_list.rs:49-54 | exactly the stored lines whose invoice is the shipment |
| AddFromMasterList.ListStockItemIsOnShipment | server/service/src/invoice/inbound_shipment/add_from_master_list.rs:33-58 | a single stock item of the master list is on the shipment after the generated lines are upserted |
| AddFromMasterList.AfterAddEveryListStockItemIsOnShipment | server/service/src/invoice/inbound_shipment/add_from_master_list.rs:33-58 | afterwards the shipment keeps all its earlier lines and has a line for every Stock item of the master list |
| AddFromMasterList.InboundShipmentDatabase.constructor | server/service/src/invoice/inbound_shipment/add_from_master_list.rs:33-36 | the service context holds the given invoices, lines, items and master lists |
| AddFromMasterList.InboundShipmentDatabase.AddFromMasterList | server/service/src/invoice/inbound_shipment/add_from_master_list.rs:33-58 | a validation error is returned and no line is written; otherwise the generated lines are upserted one by one and all lines of the shipment are returned; only the lines table changes |
| AddFromMasterList.ValidateErrorExamples | server/service/src/invoice/inbound_shipment/add_from_master_list.rs:134-205 | the test's error cases: unknown shipment, a shipment not New, a master list of another store, another store's shipment, an outbound shipment |
| InvoiceCommon.GenerateInvoiceUserIdUpdate | server/service/src/invoice/common.rs:10-22 | None exactly when the invoice already has this user id; otherwise the same invoice with only the user id changed |
| InvoiceCommon.UserIdUpdateSettles | server/service/src/invoice/common.rs:10-22 | after the update is applied, a second call asks for no update |
| InvoiceCommon.CalculateTotalAfterTax | server/service/src/invoice/common.rs:34-39 | no tax leaves the total unchanged; a tax applies the tax formula |
| InvoiceCommon.CalculateForeignCurrencyTotal | server/service/src/invoice/common.rs:41-46 | None exactly when there is no currency rate; otherwise the total divided by the rate |
| InvoiceCommon.CheckMasterListForName | server/service/src/invoice/common.rs:54-65 | `check_master_list_for_name`: the last master list with that id visible to the name; characterised by `CheckMasterListIsLastVisible` |
| InvoiceCommon.CheckMasterListForStore | server/service/src/invoice/common.rs:67-78 | `check_master_list_for_store`: the last master list with that id visible to the store; characterised by `CheckMasterListIsLastVisible` |
| InvoiceCommon.CheckMasterListIsLastVisible | server/service/src/invoice/common.rs:54-78 | for both the store and the name lookup: None iff no master list with that id is visible to it, otherwise the last visible one in query order (`rows.pop()`) |
| InvoiceCommon.BatchesUpdate | server/service/src/invoice/common.rs:106-117 | the specification of the batch loop: each line's stock line with its total reduced by the line's packs, or the first line without a stock line; stated by the two BatchesUpdate lemmas |
| InvoiceCommon.BatchesUpdateSucceeds | server/service/src/invoice/common.rs:106-117 | Ok iff every stock-out line has its stock line; then one stock line per line, in order, each with its total reduced by that line's packs |
| InvoiceCommon.BatchesUpdateFailsAtFirstMissing | server/service/src/invoice/common.rs:109-111 | the first line without a stock line aborts with `InvoiceLineHasNoStockLine` and that line's id |
| InvoiceCommon.GenerateBatchesTotalNumberOfPacksUpdate | server/service/src/invoice/common.rs:94-118 | the loop over the invoice's stock-out lines computes exactly `BatchesUpdate` of those lines |
| StockOutValidate.CheckBatchExists | server/service/src/invoice_line/stock_out_line/update/validate.rs:105 | the batch with that id when it belongs to the store, otherwise None |
| StockOutValidate.CheckBatchExistsOption | server/service/src/invoice_line/stock_out_line/update/validate.rs:95-128 | a line with no batch gives `LineDoesNotReferenceStockLine`, a missing batch `StockLineNotFound`; a different input batch becomes the main one with the old one as previous, otherwise the old batch is main and there is no previous |
| StockOutValidate.CheckReductionBelowZero | server/service/src/invoice_line/stock_out_line/update/validate.rs:71-93 | `ReductionBelowZero` with the batch and line ids exactly when the main batch's available packs are below the reduction |
| StockOutValidate.Validate | server/service/src/invoice_line/stock_out_line/update/validate.rs:15-69 | a missing line, a missing invoice and another store give their errors first, each exactly when the checks before it pass; Ok only when every check passes, returning the line, item, batch pair and invoice |
| StockOutValidate.ValidateCheckOrder | server/service/src/invoice_line/stock_out_line/update/validate.rs:29-68 | each later check (existing stock line, invoice type, editable, number of packs, batch pair, on hold, location on hold, reduction) fails exactly when those before it pass; Ok exactly when all pass |
| StockOutValidate.NotThisInvoiceLineIsUnreachable | server/service/src/invoice_line/stock_out_line/update/validate.rs:49-51 | with invoices stored under their ids, `NotThisInvoiceLine` is never returned |
| StockOutValidate.NewInvoiceSkipsNumberOfPacksCheck | server/service/src/invoice_line/stock_out_line/update/validate.rs:52-54 | an invoice still New never fails with `NumberOfPacksBelowZero` |
| StockOutValidate.LineWithoutBatchIsRejected | server/service/src/invoice_line/stock_out_line/update/validate.rs:103-109 | a line that references no batch is rejected before the on-hold and reduction checks |
| InboundReturnValidate.Validate | server/service/src/invoice/inbound_return/update_lines/validate.rs:9-29 | in order: `ReturnDoesNotExist`, `ReturnDoesNotBelongToCurrentStore`, `ReturnIsNotEditable`, `NotAnInboundReturn`, each exactly when the checks before it pass; Ok iff all four pass |
| InboundReturnValidate.ValidateLooksOnlyAtTheReturn | server/service/src/invoice/inbound_return/update_lines/validate.rs:16 | changing any other invoice does not change the result |
| StockInInsert.StockInTypeToDomain | server/service/src/invoice_line/stock_in_line/insert/mod.rs:233-276 | a stock-in line belongs either to an inbound shipment or to an inbound return |
| StockInInsert.StockInTypeToDomainInjective | server/service/src/invoice_line/stock_in_line/insert/mod.rs:233-276 | the two stock-in types map to different invoice types |
| StockInInsert.Validate | server/service/src/invoice_line/stock_in_line/insert/mod.rs:151-276 | an existing line id gives `LineAlreadyExists`, then pack size 0 `PackSizeBelowOne` (before any item or invoice check), then fewer than one pack (a real count, so 0.5 too) `NumberOfPacksBelowOne`; Ok iff item, location, invoice, store, type and editable all pass, returning the item and invoice |
| StockInInsert.PackToOne | server/service/src/invoice_line/stock_in_line/insert/mod.rs:316-353 | the line becomes pack size 1 with the same number of units; each new price times the old pack size is the old price, so both prices are divided by the pack size; nothing else changes |
| StockInInsert.PackToOneKeepsLineValue | server/service/src/invoice_line/stock_in_line/insert/mod.rs:316-353 | converting to single units keeps the line's sell and cost value |
| StockInInsert.PackToOneIdempotent | server/service/src/invoice_line/stock_in_line/insert/mod.rs:316-353 | converting twice is the same as converting once |
| StockInInsert.StoredLine | server/service/src/invoice_line/stock_in_line/insert/mod.rs:316-353 | without the pack-to-one preference the line is stored as generated; with it, in single units |
| StockInInsert.StockInDatabase.constructor | server/service/src/invoice_line/stock_in_line/insert/mod.rs:39-42 | the service context holds the given tables |
| StockInInsert.StockInDatabase.InsertStockInLine | server/service/src/invoice_line/stock_in_line/insert/mod.rs:39-65 | a validation error is returned and nothing changes; otherwise the new batch (if any), the line and the invoice user update (if any) are upserted and the stored line is returned |
| StockInInsert.InsertStockInLineErrorExamples | server/service/src/invoice_line/stock_in_line/insert/mod.rs:151-299 | the test's nine error cases in store A, each from the default input and giving the error the test asserts; the success test's two inserts in store B validate; 0.5 packs gives `NumberOfPacksBelowOne` |
| StockInInsert.PackToOneExample | server/service/src/invoice_line/stock_in_line/insert/mod.rs:316-353 | pack size 10 with 20 packs and sell price 100 becomes pack size 1, 200 packs and sell price 10 |
| InventoryAdjustment.DefaultAdjustmentType | server/service/src/invoice/inventory_adjustment/insert.rs:21-25 | the default adjustment type is Addition |
| InventoryAdjustment.DefaultInput | server/service/src/invoice/inventory_adjustment/insert.rs:27-33 | the default input is an Addition of 0 with no reason |
| InventoryAdjustment.Validate | server/service/src/invoice/inventory_adjustment/insert.rs:128-205 | `StockLineDoesNotExist`, then `InvalidStore`, each exactly when the checks before it pass; `StockLineReducedBelowZero` carries the line and comes only from a Reduction larger than its available packs; Ok iff every check passes, returning the stock line |
| InventoryAdjustment.VerifiedInvoice | server/service/src/invoice/inventory_adjustment/insert.rs:65-68 | the generated invoice with only its status set to Verified |
| InventoryAdjustment.InventoryAdjustmentDatabase.constructor | server/service/src/invoice/inventory_adjustment/insert.rs:48-51 | the service context holds the given tables and an empty activity log |
| InventoryAdjustment.InventoryAdjustmentDatabase.InsertInventoryAdjustment | server/service/src/invoice/inventory_adjustment/insert.rs:48-87 | a validation error is returned and nothing changes; otherwise the line and stock line are upserted, the invoice ends up Verified, and one `InventoryAdjustment` entry with its id is logged |
| InventoryAdjustment.InsertInventoryAdjustmentErrorExamples | server/service/src/invoice/inventory_adjustment/insert.rs:128-242 | the test cases: unknown stock line, another store, zero adjustment with or without a reason, a reduction of 50, and a valid addition |
| ProgramUpsert.Validate | server/service/src/document/program/upsert.rs:97-162 | in order: no patient document in the store gives `InvalidPatientId`; data that does not parse gives `InvalidDataSchema` carrying "Invalid program data: …"; without a parent an existing program document in the store gives `ProgramExists`, and with a parent a missing parent document (in any store) gives `InvalidParentId`; Ok iff all pass |
| ProgramUpsert.Generate | server/service/src/document/program/upsert.rs:77-87 | the document is named `patient_program_doc_name(patient, type)`; its parents are `[p]` for parent p and `[]` without one; author, time, type and data are copied and the schema id is Some |
| ProgramUpsert.MapDocumentInsertError | server/service/src/document/program/upsert.rs:52-63 | invalid schema, database and internal errors of the document service map to the same kinds; every other error maps to `InternalError`; no such error is ever mistaken for a validation error |
| ProgramUpsert.MapDocumentInsertErrorKeepsPayload | server/service/src/document/program/upsert.rs:53-61 | the schema errors, the database error and the internal message are carried over unchanged |
| ProgramUpsert.UpsertProgramDocument | server/service/src/document/program/upsert.rs:35-69 | a validation error is returned as is; otherwise the generated document is handed to the document service for the store, and its result or its mapped error is returned |
| ProgramUpsert.UpsertProgramExamples | server/service/src/document/program/upsert.rs:184-339 | the test's sequence: no patient and the wrong patient give `InvalidPatientId`; the first enrolment is accepted; a second gives `ProgramExists`; a bogus parent gives `InvalidParentId`; the real parent is accepted |
| ProgramUpsert.SecondEnrolmentIsRefused | server/service/src/document/program/upsert.rs:142-153 | once the program document exists where the store sees it, upserting again without a parent gives `ProgramExists` |
| ProgramUpsert.OtherStoresOnlyProvideParents | server/service/src/document/program/upsert.rs:97-126 | documents the store does not see leave a new enrolment's validation unchanged, while a parent found only among them makes an update valid: the name lookups are store-scoped and the parent lookup is not |
| Documents.IsLatestDoc | server/service/src/document/mod.rs:12-24 | a lookup error is passed on; with no stored document the answer is true; otherwise true iff the stored latest is no newer than the given time |
| Documents.IsLatestDocMeansNoLaterVersion | server/service/src/document/mod.rs:12-24 | when the service answers with the latest version, the result is true iff no stored version of that name is newer than the given time |
| IntegrateDocument.ClinicianId | server/service/src/sync/integrate_document.rs:78-82 | the clinician's id when the encounter has a clinician with an id, otherwise None |
| IntegrateDocument.ApplyRowUpdate | server/service/src/sync/integrate_document.rs:47-48 | the row update is recorded exactly when its update succeeds; a failure becomes a database error with the failure's text and records nothing |
| IntegrateDocument.UpdatePatient | server/service/src/sync/integrate_document.rs:42-50 | invalid patient data is a database error with the `Invalid patient data: ` message; otherwise the patient row update, with its failure as a database error |
| IntegrateDocument.UpdateProgramEnrolment | server/service/src/sync/integrate_document.rs:52-66 | no owner gives `Document owner id expected`; invalid data the `Invalid program enrolment data: ` error; otherwise the enrolment row update for the owner |
| IntegrateDocument.UpdateEncounter | server/service/src/sync/integrate_document.rs:68-93 | no owner gives `Document owner id expected`; invalid data the `Invalid encounter data: ` error; otherwise the encounter row update for the owner, context and clinician id |
| IntegrateDocument.RegistryEntry | server/service/src/sync/integrate_document.rs:22-26 | the registry query for the document's type, `.pop()`ed: the last matching entry, or None |
| IntegrateDocument.Integrate | server/service/src/sync/integrate_document.rs:22-39 | an unknown document type integrates nothing and succeeds; at most one row update happens, only on success, and it is for this document |
| IntegrateDocument.IntegrateDispatch | server/service/src/sync/integrate_document.rs:22-93 | the registry entry used is the last one for the document type; Custom does nothing; a program enrolment or encounter without an owner fails with "Document owner id expected"; a patient, enrolment or encounter row update is made with the document's owner, context and clinician |
| IntegrateDocument.DocumentSync.constructor | server/service/src/sync/integrate_document.rs:15-18 | starts from the given documents and registry, with no row updates |
| IntegrateDocument.DocumentSync.SyncUpsertDocument | server/service/src/sync/integrate_document.rs:15-40 | the document is stored under its id in every case; the result and the row updates appended are those of `Integrate` |
| ActiveStores.ActiveStoresOnSite.NameIds | server/service/src/sync/mod.rs:74-76 | the name ids of the active stores, one per store, in order |
| ActiveStores.ActiveStoresOnSite.StoreIds | server/service/src/sync/mod.rs:85-87 | the store ids of the active stores, one per store, in order |
| ActiveStores.ActiveStoresOnSite.GetStoreIdForNameId | server/service/src/sync/mod.rs:78-83 | None iff no active store has that name id; otherwise the store id of the first store with it |
| ActiveStores.FindStoreIdForNameId | server/service/src/sync/mod.rs:79-82 | the store id of the first store with the name id, or None when there is none |
| ActiveStores.StoreIdForNameIdAgreesWithIdLists | server/service/src/sync/mod.rs:74-87 | the lookup finds the name id iff it is in `name_ids()`, and returns the `store_ids()` entry at its first position |
| ActiveStores.Get | server/service/src/sync/mod.rs:57-72 | a read error becomes `DatabaseError`; an unset site id gives `SiteIdNotSet` (and only then); otherwise exactly the stores of that site |
| ActiveStores.StoresOnSite | server/service/src/sync/mod.rs:67-69 | exactly the stores whose site id is the given one |
| ActiveStores.GetSyncPushChangelogsFilter | server/service/src/sync/mod.rs:36-46 | an error of `get` is passed on; otherwise a filter is always returned |
| ActiveStores.PushFilterKeepsActiveStoreChanges | server/service/src/sync/mod.rs:41-45 | a changelog row is pushed iff it has no store or an active store, and is not a sync update |
| AssetValidate.CheckReasonMatchesStatus | server/service/src/asset/validate.rs:27-48 | no reason passes; a reason without a status fails; otherwise true iff the reason is found and its status is the log's status (a lookup error counts as a mismatch) |
| AssetValidate.CheckLocationsAreAssigned | server/service/src/asset/validate.rs:50-62 | exactly the assignments of the given locations to other assets |
| AssetValidate.OwnAssignmentsNeverConflict | server/service/src/asset/validate.rs:50-62 | when every assignment is to the asset itself, nothing is reported |
| InboundLineUpdateApi.ToDomain | server/graphql/invoice_line/src/mutations/inbound_shipment_line/line/update.rs:85-119 | every field is copied, and a tax input becomes a tax update with the same percentage |
| InboundLineUpdateApi.FromDomain | server/graphql/invoice_line/src/mutations/inbound_shipment_line/line/update.rs:85-119 | the GraphQL input each service input comes from, field for field; `ToDomainRoundTrips` proves it the inverse of `ToDomain` |
| InboundLineUpdateApi.ToDomainRoundTrips | server/graphql/invoice_line/src/mutations/inbound_shipment_line/line/update.rs:85-119 | the mapping loses nothing: converting back gives the input, in both directions |
| InboundLineUpdateApi.MapError | server/graphql/invoice_line/src/mutations/inbound_shipment_line/line/update.rs:132-167 | exactly the four structured errors become interface errors (record not found, invoice foreign key, cannot edit, batch reserved); the user-input errors become `BadUserInput` and database or missing-line errors `InternalError`, both with the formatted error |
| InboundLineUpdateApi.NotAnInboundShipmentIsNeverStructured | server/graphql/invoice_line/src/mutations/inbound_shipment_line/line/update.rs:156 | the `NotAnInboundShipment` interface variant is never produced: that service error is returned as a GraphQL error |
| InboundLineUpdateApi.MapResponse | server/graphql/invoice_line/src/mutations/inbound_shipment_line/line/update.rs:121-130 | a line becomes the response; a structured error becomes an error response; any other error is returned as a GraphQL error |
| EncounterApi.StatusToDomain | server/graphql/types/src/types/program/encounter.rs:129-137 | each GraphQL encounter status maps to the repository status of the same name; its inverse is `StatusFromDomain` (`StatusRoundTrips`) |
| EncounterApi.StatusFromDomain | server/graphql/types/src/types/program/encounter.rs:138-145 | each repository encounter status maps to the GraphQL status of the same name; its inverse is `StatusToDomain` (`StatusRoundTrips`) |
| EncounterApi.StatusRoundTrips | server/graphql/types/src/types/program/encounter.rs:129-145 | the GraphQL and repository encounter statuses convert into each other without loss, in both directions |
| EncounterApi.SortFieldToDomain | server/graphql/types/src/types/program/encounter.rs:66-82 | `type` becomes `document_type` and `program` becomes `context`, and no other key does; `SortFieldFromDomain` recovers every key |
| EncounterApi.SortFieldFromDomain | server/graphql/types/src/types/program/encounter.rs:66-82 | the repository key `document_type` comes from `type` and `context` from `program`, and no other key |
| EncounterApi.SortToDomain | server/graphql/types/src/types/program/encounter.rs:66-82 | the direction is kept; `type` sorts by document type and `program` by context; every key can be recovered from the domain key |
| EncounterApi.SortToDomainIsBijective | server/graphql/types/src/types/program/encounter.rs:66-82 | different sort inputs give different domain sorts, and every domain sort comes from one input |
| EncounterApi.StatusesToDomain | server/graphql/types/src/types/program/encounter.rs:109-112 | each status of an `equal_any` list is converted, in order |
| EncounterApi.StatusFilterToDomain | server/graphql/types/src/types/program/encounter.rs:39-45 | `map_filter!` over the status filter: each set field's value converted; that it selects the same statuses is `StatusFilterToDomainSelectsTheSame` |
| EncounterApi.StatusFilterToDomainSelectsTheSame | server/graphql/types/src/types/program/encounter.rs:39-45 | the converted status filter selects a status exactly when the GraphQL filter does; an unset status is selected only by the empty filter |
| EncounterApi.FilterToDomain | server/graphql/types/src/types/program/encounter.rs:101-119 | `program` becomes `context` and `type` becomes `document_type`; every other field is carried over, the status filter converted |
| EncounterApi.FilterToDomainInjective | server/graphql/types/src/types/program/encounter.rs:101-119 | two different GraphQL filters never become the same domain filter |
| EncounterApi.EventFilterToDomain | server/graphql/types/src/types/program/encounter.rs:156-169 | only the event type is set; patient, document and context are left open |
| EncounterApi.NodeStatus | server/graphql/types/src/types/program/encounter.rs:253-258 | a node has a status exactly when its row does, and it converts back to the row's status |
| EncounterApi.ActiveProgramEventsRequest | server/graphql/types/src/types/program/encounter.rs:290-332 | events are asked for the encounter's patient and document type, plus its own document name when `is_current_encounter` is true; the caller's event type is kept; the time defaults to now; newest first |
| EncounterApi.ActiveEventsBelongToEncounter | server/graphql/types/src/types/program/encounter.rs:298-307 | every event the request selects is for the encounter's patient and document type, and for its document when `is_current_encounter` is true |
| VaccineCourseLoader.Grouped | server/graphql/core/src/loader/vaccine_course_item_by_vaccine_course.rs:30-38 | the `HashMap` the loader builds: each item pushed onto its course's list in query order; stated by `GroupedKeys`, `GroupedLists` and `GroupedKeepsEveryItem` |
| VaccineCourseLoader.GroupedKeys | server/graphql/core/src/loader/vaccine_course_item_by_vaccine_course.rs:30-38 | a course id is a key of the grouping iff some item belongs to it |
| VaccineCourseLoader.GroupedLists | server/graphql/core/src/loader/vaccine_course_item_by_vaccine_course.rs:30-38 | each course's list holds exactly its items, in query order |
| VaccineCourseLoader.Load | server/graphql/core/src/loader/vaccine_course_item_by_vaccine_course.rs:21-41 | a query error is returned; otherwise the loop groups the items of the requested courses by course id |
| VaccineCourseLoader.LoadedGroupsAreTheCoursesItems | server/graphql/core/src/loader/vaccine_course_item_by_vaccine_course.rs:21-41 | a course is loaded iff it was asked for and has items, and then its list is all its items, in table order |
| VaccineCourseLoader.GroupedKeepsEveryItem | server/graphql/core/src/loader/vaccine_course_item_by_vaccine_course.rs:32-38 | the lists hold as many items as the query returned, so no item is dropped or duplicated |
| SortBy.GetDirection | client/packages/common/src/hooks/useSortBy/useSortBy.ts:21-22 | descending exactly when the flag is set |
| SortBy.InitialSortByAsWritten | client/packages/common/src/hooks/useSortBy/useSortBy.ts:29-34 | the initial direction is taken from the hook's argument `isDesc`, even when the URL's `desc` decides the flag |
| SortBy.InitialSortByAsWrittenIsInconsistent | client/packages/common/src/hooks/useSortBy/useSortBy.ts:33 | with initial `{key: "name"}` and `?desc=true`, the state is `isDesc` true but direction `asc` |
| SortBy.InitialSortBy | client/packages/common/src/hooks/useSortBy/useSortBy.ts:29-34 | the key comes from the URL's `sort`, else from the argument; a non-empty `desc` decides the flag (`"true"` means descending), else the argument does; the direction agrees with the flag |
| SortBy.InitialSortByOnlyFixesDirection | client/packages/common/src/hooks/useSortBy/useSortBy.ts:29-34 | the corrected state differs from the written one only in its direction, and not at all when the URL has no `desc` |
| SortBy.NextSortBy | client/packages/common/src/hooks/useSortBy/useSortBy.ts:38-48 | the new key is the rule's; the same key toggles the flag, another key takes the rule's `isDesc` (false when absent); the direction agrees |
| SortBy.NextSortByTogglesBack | client/packages/common/src/hooks/useSortBy/useSortBy.ts:38-48 | choosing the same column twice restores the previous sort |
| SortBy.SortByState.constructor | client/packages/common/src/hooks/useSortBy/useSortBy.ts:24-34 | the hook starts in the corrected initial state |
| SortBy.SortByState.OnChangeSortBy | client/packages/common/src/hooks/useSortBy/useSortBy.ts:36-53 | the state becomes the next sort, and it is also what is returned |
| UnitVariant.KeyBy | client/packages/system/src/Item/context/useUnitVariant.ts:32-39 | `ArrayUtils.keyBy(newItems, item => item.itemId)`: the nodes keyed by item id, later nodes overwriting earlier ones; stated by `KeyByKeepsLast` |
| UnitVariant.KeyByKeepsLast | client/packages/system/src/Item/context/useUnitVariant.ts:32-39 | keying by item id keeps an item iff some node has its id, and then the last such node |
| UnitVariant.UnitStore.constructor | client/packages/system/src/Item/context/useUnitVariant.ts:22-26 | the store starts with no items and no choices |
| UnitVariant.UnitStore.SetUserSelectedVariant | client/packages/system/src/Item/context/useUnitVariant.ts:27-31 | records the variant chosen for that item, keeping the items and the other choices |
| UnitVariant.UnitStore.SetItems | client/packages/system/src/Item/context/useUnitVariant.ts:32-39 | replaces the items by the new nodes keyed by item id, keeping the user's choices |
| UnitVariant.CommonAsPackUnit | client/packages/system/src/Item/context/useUnitVariant.ts:50-63 | the pack unit's name when it is non-empty, else the default pack unit, else "{packSize} {unitName}", else "{packSize} {unit label}"; never empty |
| UnitVariant.AsPackUnit | client/packages/system/src/Item/context/useUnitVariant.ts:102-105 | `asPackUnit`: the common rule, given the short name of the first variant with that pack size when the item has variants; stated by the two AsPackUnit lemmas |
| UnitVariant.FindUnit | client/packages/system/src/Item/context/useUnitVariant.ts:115-118 | `Array.find`: None iff no unit matches, otherwise the first one that does |
| UnitVariant.ActiveVariant | client/packages/system/src/Item/context/useUnitVariant.ts:113-123 | the user's choice when it is one of the item's units, otherwise the most-used unit, otherwise the first unit |
| UnitVariant.UseUnitVariant | client/packages/system/src/Item/context/useUnitVariant.ts:102-156 | without an item or units: no variants, identity conversion, "1 {unit}"; with units: conversion by the active variant's pack size, the variant control over all units, and the active variant's label |
| UnitVariant.NumberOfPacksFromQuantity | client/packages/system/src/Item/context/useUnitVariant.ts:106-140 | without variants the quantity is the pack count; with variants it is divided by the active pack size and rounded to 2 places, and a pack size of 0 gives no finite number |
| UnitVariant.NumberOfPacksToTotalQuantity | client/packages/system/src/Item/context/useUnitVariant.ts:107-142 | without variants the pack count is the quantity; with variants it is multiplied by the active pack size and rounded to 2 places |
| UnitVariant.PackConversionsRoundTrip | client/packages/system/src/Item/context/useUnitVariant.ts:106-142 | quantity to packs and back, and packs to quantity and back, return the starting value for any non-zero pack size whenever the rounding leaves the values involved unchanged |
| UnitVariant.AsPackUnitUsesFirstVariantOfThatSize | client/packages/system/src/Item/context/useUnitVariant.ts:126-138 | with variants, a pack size is shown by the short name of the first variant of that size |
| UnitVariant.AsPackUnitWithoutVariants | client/packages/system/src/Item/context/useUnitVariant.ts:102-105 | without variants, a pack size is shown by the common rule from the default pack unit or the unit name |
| UnitVariant.SelectedVariantBecomesActive | client/packages/system/src/Item/context/useUnitVariant.ts:144-149 | after a user picks one of an item's variants, that variant is the active one |
| ArrayUtils.IfTheSameElseDefault | client/packages/invoices/src/InboundShipment/DetailView/ContentArea/columns.ts:55 | None for no values; the common value when all are equal; the default as soon as two differ |
| StocktakeColumns.SnapshotAccessor | client/packages/inventory/src/Stocktake/DetailView/ContentArea/columns.ts:193-205 | a line shows its snapshot packs; a summary shows the sum of its lines' snapshot packs as text |
| StocktakeColumns.CountedAccessor | client/packages/inventory/src/Stocktake/DetailView/ContentArea/columns.ts:230-241 | a counted line shows its count and an uncounted one nothing; a summary shows the sum of the counts (uncounted as 0) as text |
| StocktakeColumns.ShortfallIsNegatedDifference | client/packages/inventory/src/Stocktake/DetailView/ContentArea/columns.ts:267-285 | summing snapshot minus counted and negating gives the sum of the per-line differences |
| Text.IntToString | client/packages/inventory/src/Stocktake/DetailView/ContentArea/columns.ts:259 | `Number.prototype.toString` on an integer: never empty, and it starts with `-` exactly for a negative number |
| Text.NatToString | client/packages/inventory/src/Stocktake/DetailView/ContentArea/columns.ts:259 | the decimal digits of a natural number: never empty, digits only, and no leading zero except for 0 itself |
| Text.NatToStringRoundTrip | client/packages/inventory/src/Stocktake/DetailView/ContentArea/columns.ts:259 | the digits of a natural number read back, most significant first, as that number |
| Text.IntToStringRoundTrip | client/packages/inventory/src/Stocktake/DetailView/ContentArea/columns.ts:259 | the rendering of any integer, sign included, reads back as that integer |
| Text.IntToStringInjective | client/packages/inventory/src/Stocktake/DetailView/ContentArea/columns.ts:259 | different integers render as different strings |
| StocktakeColumns.DifferenceAccessor | client/packages/inventory/src/Stocktake/DetailView/ContentArea/columns.ts:245-285 | a line shows counted (or snapshot) minus snapshot; a summary shows the negated shortfall total as text, `total < 0 ? Math.abs(total) : -total` being -total either way; stated by the Difference lemmas |
| StocktakeColumns.DifferenceIsCountedMinusSnapshot | client/packages/inventory/src/Stocktake/DetailView/ContentArea/columns.ts:267-285 | a group's difference is its counted total (uncounted lines at their snapshot) minus its snapshot total |
| StocktakeColumns.GroupDifferenceIsSumOfLineDifferences | client/packages/inventory/src/Stocktake/DetailView/ContentArea/columns.ts:267-285 | a summary's difference is the sum of its lines' differences, which is counted minus snapshot |
| StocktakeColumns.GroupDifferenceSortsByDisplayedText | client/packages/inventory/src/Stocktake/DetailView/ContentArea/columns.ts:248-265 | a summary's sort value is the same string it displays, the sum of its lines' differences as text (which reads back as that sum), not a number |
| StocktakeColumns.LineDifference | client/packages/inventory/src/Stocktake/DetailView/ContentArea/columns.ts:248-285 | a line shows counted minus snapshot, 0 when uncounted; it sorts by the negation of that |
| StocktakeColumns.ReasonsOf | client/packages/inventory/src/Stocktake/DetailView/ContentArea/columns.ts:33-56 | the reasons of the lines that have one, and only those; empty exactly when no line has a reason |
| StocktakeColumns.StocktakeReasons | client/packages/inventory/src/Stocktake/DetailView/ContentArea/columns.ts:33-56 | a line shows its own reason or ''; a summary with no reasons shows '' |
| StocktakeColumns.GroupReasonIsCommonOrMultiple | client/packages/inventory/src/Stocktake/DetailView/ContentArea/columns.ts:33-56 | a summary shows the reason its lines share, or the "multiple" label once two lines' reasons differ |
| StocktakeColumns.GroupReasonIsCommon | client/packages/inventory/src/Stocktake/DetailView/ContentArea/columns.ts:33-56 | when every line that has a reason has the same one, the group shows that reason |
| StocktakeColumns.GroupReasonIsMultiple | client/packages/inventory/src/Stocktake/DetailView/ContentArea/columns.ts:33-56 | two lines with different reasons make the group show the translated `multiple` |
| InboundColumns.NoteSectionsOf | client/packages/invoices/src/InboundShipment/DetailView/ContentArea/columns.ts:30-45 | one note section per line, in order, its header the batch and its body the note |
| InboundColumns.NoteSectionsAppend | client/packages/invoices/src/InboundShipment/DetailView/ContentArea/columns.ts:30-45 | the note sections of two groups of lines together are those of each, joined |
| InboundColumns.NoteAccessor | client/packages/invoices/src/InboundShipment/DetailView/ContentArea/columns.ts:30-45 | a line shows its batch and note when the note is non-empty; a group shows the sections of its lines with a non-empty note, or nothing; stated by `GroupNotesAreLineNotes` |
| InboundColumns.GroupNotesAreLineNotes | client/packages/invoices/src/InboundShipment/DetailView/ContentArea/columns.ts:30-45 | a group shows no note iff none of its lines does; otherwise it shows every line's section with a non-empty note, and only such sections |
| InboundColumns.ItemCodeAccessor | client/packages/invoices/src/InboundShipment/DetailView/ContentArea/columns.ts:51-68 | a line shows its item's code |
| InboundColumns.ItemNameAccessor | client/packages/invoices/src/InboundShipment/DetailView/ContentArea/columns.ts:74-91 | a line shows its item's name |
| InboundColumns.OneItemGroupShowsItsItem | client/packages/invoices/src/InboundShipment/DetailView/ContentArea/columns.ts:51-91 | a group whose lines share one item shows that item's code and name |
| InboundColumns.LocationNameAccessor | client/packages/invoices/src/InboundShipment/DetailView/ContentArea/columns.ts:151-160 | a line shows its location's name or '' |
| InboundColumns.LocationIgnoresUnlocatedLines | client/packages/invoices/src/InboundShipment/DetailView/ContentArea/columns.ts:151-160 | adding a line without a location to a group does not change what the group shows |
| InboundColumns.SumOfAppend | client/packages/invoices/src/InboundShipment/DetailView/ContentArea/columns.ts:224-252 | the sum over two groups of lines is the sum of the two sums |
| InboundColumns.UnitQuantityAccessor | client/packages/invoices/src/InboundShipment/DetailView/ContentArea/columns.ts:222-238 | a line shows pack size times packs; a group the sum over its lines (`getUnitQuantity`); stated by `GroupQuantitiesAddUp` |
| InboundColumns.NumberOfPacksAccessor | client/packages/invoices/src/InboundShipment/DetailView/ContentArea/columns.ts:240-259 | a line shows its packs; a group the sum of its lines' packs; stated by `GroupQuantitiesAddUp` |
| InboundColumns.GroupQuantitiesAddUp | client/packages/invoices/src/InboundShipment/DetailView/ContentArea/columns.ts:224-252 | a group's unit quantity and pack count are the sums over its lines; a one-line group shows what its line shows |
| InboundColumns.DefaultSortIsItemNameAscending | client/packages/invoices/src/InboundShipment/DetailView/ContentArea/columns.ts:19-23 | without URL parameters the table sorts by item name, ascending |
| NextItem.FindIndexFrom | client/packages/invoices/src/Returns/InboundDetailView/DetailView.tsx:57-62 | the index of the first line at or after the start that satisfies the predicate, or -1 exactly when no such line exists |
| NextItem.GetNextItemId | client/packages/invoices/src/Returns/InboundDetailView/DetailView.tsx:54-64 | the next item id, computed on every render: None without lines or current item, else the item of the first later line with another item; characterised in both directions by `NextItemIsFirstOtherItemAfterCurrent` |
| NextItem.NextItemIsFirstOtherItemAfterCurrent | client/packages/invoices/src/Returns/InboundDetailView/DetailView.tsx:54-64 | when the current item first appears at line `c`, a next item exists exactly when a later line holds a different item; it is the item of the first such line and never the current item |
| NextItem.NoNextItemWithoutCurrent | client/packages/invoices/src/Returns/InboundDetailView/DetailView.tsx:55-58 | with no lines, no current item, or a current item absent from the lines, there is no next item |
| InboundReturnModal.CancelSlot | client/packages/invoices/src/Returns/modals/InboundReturn/InboundReturn.tsx:128 | the cancel slot holds Cancel on the quantity tab and Back on the reason tab |
| InboundReturnModal.OkSlot | client/packages/invoices/src/Returns/modals/InboundReturn/InboundReturn.tsx:131-135 | the ok slot holds Next step on the quantity tab unless the zero-quantity warning was shown, and Ok otherwise |
| InboundReturnModal.NextSlot | client/packages/invoices/src/Returns/modals/InboundReturn/InboundReturn.tsx:136-140 | an Ok-and-next button is offered exactly in update mode with a next item to load |
| InboundReturnModal.NextStepDisabled | client/packages/invoices/src/Returns/modals/InboundReturn/InboundReturn.tsx:111 | Next step is disabled exactly when there are no draft lines |
| InboundReturnModal.OkAndNextDisabled | client/packages/invoices/src/Returns/modals/InboundReturn/InboundReturn.tsx:120 | Ok-and-next is disabled exactly while the quantity tab is shown |
| InboundReturnModal.InboundReturnEditModal.constructor | client/packages/invoices/src/Returns/modals/InboundReturn/InboundReturn.tsx:40-50 | the modal opens on the quantity tab with no zero-quantity alert |
| InboundReturnModal.InboundReturnEditModal.HandleNextStep | client/packages/invoices/src/Returns/modals/InboundReturn/InboundReturn.tsx:85-140 | if any line returns a non-zero number of packs the reason tab opens with Back and Ok, and the alert is kept; otherwise the tab stays and the alert becomes an error when creating (the ok slot still asks for the next step) and a warning when updating (the ok slot then saves at once) |
| InboundReturnModal.InboundReturnEditModal.Back | client/packages/invoices/src/Returns/modals/InboundReturn/InboundReturn.tsx:104-106 | Back returns to the quantity tab and leaves the alert alone |
| InboundReturnModal.InboundReturnEditModal.HandleNextItem | client/packages/invoices/src/Returns/modals/InboundReturn/InboundReturn.tsx:75-83 | the next item is loaded exactly when the save succeeds and a loader is supplied; a successful save returns to the quantity tab, a failed one changes nothing |
| StatusChange.GetStatusOptions | client/packages/requisitions/src/RequestRequisition/DetailView/Footer/StatusChangeButton.tsx:20-51 | three options, Draft, Sent and Finalised, each labelled by the label function; Draft and Finalised are disabled, and Sent is enabled exactly for a draft requisition |
| StatusChange.FindOption | client/packages/requisitions/src/RequestRequisition/DetailView/Footer/StatusChangeButton.tsx:60 | the first option with the given value, or none exactly when no option has it |
| StatusChange.GetNextStatusOption | client/packages/requisitions/src/RequestRequisition/DetailView/Footer/StatusChangeButton.tsx:53-62 | without a status, the first option if any; with one, an option whose value is the next status, or none exactly when no option has that value |
| StatusChange.StatusChangeButtonState.constructor | client/packages/requisitions/src/RequestRequisition/DetailView/Footer/StatusChangeButton.tsx:77-85 | the button starts with the three options for the current status, Sent enabled only for a draft, and the next-status option selected |
| StatusChange.StatusChangeButtonState.StatusChanged | client/packages/requisitions/src/RequestRequisition/DetailView/Footer/StatusChangeButton.tsx:107-111 | after a status change the options are rebuilt for the new status and the selection becomes the option for the status after it, whatever the user had chosen |
| StatusChange.StatusChangeButtonState.SetSelectedOption | client/packages/requisitions/src/RequestRequisition/DetailView/Footer/StatusChangeButton.tsx:82-83 | choosing an option selects exactly it and keeps the options |
| StatusChange.StatusChangeButtonState.OnConfirmStatusChange | client/packages/requisitions/src/RequestRequisition/DetailView/Footer/StatusChangeButton.tsx:87-95 | no update without a selection; otherwise the update asks for the selected option's status |
| StatusChange.DraftSelectsEnabledSent | client/packages/requisitions/src/RequestRequisition/DetailView/Footer/StatusChangeButton.tsx:20-62 | a draft whose next status is Sent preselects the enabled Sent option; the only option ever enabled is Sent, and only for a draft; a next status of New has no option |
| Autocomplete.Candidate | client/packages/programs/src/JsonForms/common/components/Autocomplete.tsx:61-67 | a typed string is taken as is, a picked option by its label, and a cleared value as the empty string |
| Autocomplete.DisplayOptions | client/packages/programs/src/JsonForms/common/components/Autocomplete.tsx:80-84 | one display option per configured value, in the same order and with the same label; none when no values are configured |
| Autocomplete.AutocompleteControl.constructor | client/packages/programs/src/JsonForms/common/components/Autocomplete.tsx:35 | the local text starts as the form's data and nothing has been emitted |
| Autocomplete.AutocompleteControl.OnChange | client/packages/programs/src/JsonForms/common/components/Autocomplete.tsx:57-84 | outside free-text mode a value not among the configured ones clears the local text and emits undefined; otherwise the text is kept and emitted, the empty string as undefined; so outside free-text mode every emitted value is a displayed option, and picking a non-empty configured value emits it |
| Autocomplete.AutocompleteControl.OnClose | client/packages/programs/src/JsonForms/common/components/Autocomplete.tsx:42-47 | closing emits the local text in free-text mode and nothing otherwise |
| Autocomplete.AutocompleteControl.OnInputChange | client/packages/programs/src/JsonForms/common/components/Autocomplete.tsx:49-55 | typing updates the local text only in free-text mode and never emits |
| PackUnitEntry.ManualOnMount | client/packages/system/src/Item/Components/ItemVariant/PackUnitEntryCell.tsx:41-45 | manual entry is chosen on mount exactly when no variant has the row's pack size |
| PackUnitEntry.Options | client/packages/system/src/Item/Components/ItemVariant/PackUnitEntryCell.tsx:68-77 | one option per variant, labelled by its short name with its pack size as value, followed by the enter-pack-size option |
| PackUnitEntry.SelectValue | client/packages/system/src/Item/Components/ItemVariant/PackUnitEntryCell.tsx:89 | the select shows the enter-pack-size value in manual mode and the pack size otherwise |
| PackUnitEntry.PackUnitEntryCell.constructor | client/packages/system/src/Item/Components/ItemVariant/PackUnitEntryCell.tsx:32-45 | the cell starts on the row's pack size, in manual mode exactly when no variant matches it, unfocused and with no updates sent |
| PackUnitEntry.PackUnitEntryCell.OnNumberInput | client/packages/system/src/Item/Components/ItemVariant/PackUnitEntryCell.tsx:53-56 | the shown pack size is the typed one, or 1 for zero, while the row receives the typed value unchanged |
| PackUnitEntry.PackUnitEntryCell.OnSelect | client/packages/system/src/Item/Components/ItemVariant/PackUnitEntryCell.tsx:90-102 | choosing enter-pack-size switches to manual entry at pack size 1 and focuses the input; choosing a variant takes its pack size; the row receives the new pack size and the select then shows what was chosen |
| PackUnitEntry.MountSelectsMatchingVariant | client/packages/system/src/Item/Components/ItemVariant/PackUnitEntryCell.tsx:41-89 | a cell opened on a variant's pack size shows that variant's option selected |
| PackUnitEntry.MountWithoutMatchIsManual | client/packages/system/src/Item/Components/ItemVariant/PackUnitEntryCell.tsx:41-89 | a cell opened on a pack size no variant has shows the enter-pack-size option |
| GeneralTab.ActiveRowsAreTheUndeleted | client/packages/invoices/src/InboundShipment/DetailView/GeneralTab.tsx:43 | every active row is a row of the shipment not marked deleted, and every row not marked deleted is active |
| GeneralTab.SliceElements | client/packages/invoices/src/InboundShipment/DetailView/GeneralTab.tsx:52-55 | `slice` with both bounds clamped to the length: empty unless the clamped end is past the clamped start, and otherwise the elements from the start up to the clamped end |
| GeneralTab.GeneralTabView | client/packages/invoices/src/InboundShipment/DetailView/GeneralTab.tsx:42-59 | the tab's table view: the active rows sliced to the page, and their count as the total; what a page holds is stated by `GeneralTabPage` |
| GeneralTab.GeneralTabPage | client/packages/invoices/src/InboundShipment/DetailView/GeneralTab.tsx:42-59 | the table's total counts the active rows; its page holds the active rows from the offset on, at most `first` of them, and none once the offset is past the end |
| GeneralTab.DeletedRowsAreNeverShown | client/packages/invoices/src/InboundShipment/DetailView/GeneralTab.tsx:43-55 | no page shows a deleted row, and a page holds at most `first` rows |
| GeneralTab.ConsecutivePagesJoin | client/packages/invoices/src/InboundShipment/DetailView/GeneralTab.tsx:50-55 | two consecutive pages together are the page spanning both, so paging neither skips nor repeats a row |

## Left out

- Database and network I/O:
  - Diesel SQL, connections and the central HTTP API are not modelled. Each query becomes a map lookup or a function-typed parameter.
  - Repository errors are modelled only where the source reacts to them: the sync-buffer upsert fault, the pull cursor's read fault (one per loop iteration) and write fault, the vaccine-course loader fault, `is_latest_doc` propagation and the asset-reason lookup. Every other query is taken to succeed.
- Transactions and concurrency: a transaction is a single method call on the tables, so it is all-or-nothing by construction. Concurrent writers are not modelled.
- CentralSync.PullRounds: the source's `loop` is unbounded (it carries a TODO about infinite-loop protection). `PullRounds` takes a `fuel` bound and reports running out of fuel, so a pull that never ends is not represented.
- CentralSync.CentralDataSynchroniser.Pull: takes the same `fuel` bound as `PullRounds`, for the same reason.
- The sync logger's own effects (the progress it records in the sync log) are left out. Only whether a `progress` call fails is modelled, by the parameter `progressFault`, keyed by the loop iteration, the call site (before or after the records) and the reported count, so the two calls of one iteration fail or succeed independently; a failure ends the pull with `SyncLoggerError` at both call sites.
- In the central pull the cursor read, the central API answer and the two progress reports are keyed by the loop iteration, but which buffer rows (`bufferFault`) and which cursor values (`cursorFault`) the database refuses is fixed for the whole pull: a write refused once is refused in every iteration, and a write accepted once is always accepted.
- CentralSync.Round: `max_cursor - cursor` is modelled as a release build runs it, wrapping modulo 2^64 (`U64WrappingSub`). A debug build, where overflow checks make that subtraction panic once the cursor is past `max_cursor`, is not modelled.
- Floating-point arithmetic:
  - The numeric bodies of `calculate_total_after_tax` and `calculate_foreign_currency_total` are the parameters `withTax` and `divide`. Only their `Option` handling is modelled.
  - Pack counts, totals and prices are reals, so the rounding of `f64` arithmetic (the pack-to-one price division, for one) is not modelled.
  - `NumUtils.round(_, 2)` in the unit-variant conversions is the parameter `round2`, since its code is not part of this model. The datatype `Conversion` only says which scaling applies; `NumberOfPacksFromQuantity` and `NumberOfPacksToTotalQuantity` apply it and then `round2`.
- Helpers whose code is not part of this model are parameters ("oracles"), and every contract is stated over them:
  - `next_number`, `check_invoice_is_editable`, `check_number_of_packs` (the field `numberOfPacksOk` of `StockOutValidate.StockOutChecks`), `get_main_batch_reduction` and `check_existing_stock_line`;
  - the batch and location on-hold checks;
  - serde JSON parsing of patient, program and encounter documents;
  - `getNextRequestRequisitionStatus`.
- `check_store`, `check_invoice_type`, `check_line_belongs_to_invoice` and `check_batch_exists` are modelled by the comparison their names state (for `check_batch_exists`, a batch with that id in this store), since their code is not part of this model.
- `ifTheSameElseDefault` is the function `ArrayUtils.IfTheSameElseDefault`, reconstructed from its name and its use since its code is not part of this model. On an empty list it is taken to give undefined (`None`), not the default.
- `getUnitQuantity` is `InboundColumns.UnitQuantityOf`, pack size times number of packs, and `getSumOfKeyReducer` is `InboundColumns.SumOf` of a field over a group's lines. Both are reconstructed from their names, since their code is not part of this model.
- `ArrayUtils.keyBy` keeps the last element for a repeated key. This is reconstructed, since its code is not part of this model.
- The stock-in line and inventory-adjustment `validate`/`generate` modules are not part of this model:
  - their check order is reconstructed from the tests in the two `mod.rs`/`insert.rs` files;
  - for stock-in the order is line id, pack size, number of packs, item, location, invoice, then the invoice's store, type and editability;
  - the default of `StockInType` is not shown either. It is taken to be `InboundReturn`, the only value under which the tests' inserts into inbound returns without a type pass the type check.
- Reading back a row just committed is taken to find it. `VaccineCourseInsert.ReadBackFindsGenerated` states this for the vaccine course. The stock-in insert therefore never yields `NewlyCreatedLineDoesNotExist`. The not-found mappings of the vaccine-course and stocktake read-backs are modelled as mappings only.
- The `activity_log` entry's store, user and timestamp come from the service context, which is not modelled. Only its type and record id are kept.
- ProgramUpsert.Validate: the document repository's store filter is not part of this model. Which documents the store-scoped name lookups see is the parameter `inStore`; the parent lookup by id searches every store, as the source does.
- Document sync:
  - `sync_insert` is a map update;
  - the bodies of `update_patient_row`, `update_program_enrolment_row` and `update_encounter_row` are the oracle `rowUpdateError`.
- Encounter GraphQL:
  - the generic `EqualFilterStringInput`/`DatetimeFilterInput` conversions are taken as already converted;
  - node resolvers other than `status` need loaders, so they are left out.
- `useSortBy` writes the sort back to the URL through `useSearchParameters`, whose code is not part of this model, so that write-back is left out. `SortBy.SortByState.OnChangeSortBy` assumes React applied the state updater at once.
- Pack counts on the client are integers. JavaScript `Number` parsing and `NaN` are not modelled.
- Columns whose accessors go through `getColumnProperty` or plain field reads are left out: currency, expiry, batch and pack size in the inbound columns, and item code, name, batch, location and comment in the stocktake columns.
- The 250 ms debounce of the pack-unit entry cell's updater is left out. Each update is recorded at once in `updates`.
- Rendering and JSX, translation (`t` is a string parameter), `useDialog`, focus and scrolling (`scrollIntoView`) are UI plumbing.
- StatusChange.StatusChangeButtonState.IsShown has no contract of its own. It is the two early returns of `StatusChangeButton` (StatusChangeButton.tsx:121-122).
- NextItem.LoadNextItemSupplied has no contract of its own. It is the truthiness test on the next item id (DetailView.tsx:91).
- StockOutValidate.Validate: its own contract gives the first three checks and "Ok only when every check passes". The full order of the later checks is stated by `StockOutValidate.ValidateCheckOrder`.
- CentralSync.ProcessRecords, CentralSync.Round and CentralSync.PullRounds: their own contracts state only that the stored cursor stays a valid `i32`. Their behaviour is stated by the lemmas in the rows next to them.

## Findings

| source | as written | input that shows it | evidently intended | confidence | as-written member | corrected member |
|---|---|---|---|---|---|---|
| client/packages/common/src/hooks/useSortBy/useSortBy.ts:33 | the initial `direction` is computed from the hook argument `initialIsDesc`, while `isDesc` may come from the URL | initial sort `{key: "name"}` with URL `?desc=true`: `isDesc` is true but `direction` is `asc` | the initial direction follows the `isDesc` actually chosen | not executed | SortBy.InitialSortByAsWrittenIsInconsistent | SortBy.InitialSortBy |
