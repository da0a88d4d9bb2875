/**
 * Validation of an update to a stock-out line (a line of an outbound shipment, prescription or
 * inventory reduction): the line, its invoice and the batches involved are looked up and the
 * checks run in a fixed order, the first failing one giving the error.
 */
module StockOutValidate {
  import opened Wrappers
  import opened InvoiceRows

  datatype UpdateStockOutLineError =
    | LineDoesNotExist
    | InvoiceDoesNotExist
    | NotThisStoreInvoice
    | StockLineAlreadyExistsInInvoice(stockLineId: string)
    | InvoiceTypeDoesNotMatch
    | NoInvoiceType
    | CannotEditFinalised
    | NotThisInvoiceLine(invoiceId: string)
    | NumberOfPacksBelowZero
    | StockLineNotFound
    | LineDoesNotReferenceStockLine
    | BatchIsOnHold
    | LocationIsOnHold
    | ReductionBelowZero(stockLineId: string, lineId: string)

  /**
   * The update input. The stock-out type arrives already mapped to the invoice type it stands
   * for; the remaining fields only feed the helpers passed in `StockOutChecks`.
   */
  datatype UpdateStockOutLine = UpdateStockOutLine(
    id: string,
    stockLineId: Option<string>,
    numberOfPacks: Option<real>,
    invoiceType: Option<InvoiceType>)

  /** The batch the line will draw from, and the batch it drew from when that changes. */
  datatype BatchPair = BatchPair(mainBatch: StockLine, previousBatchOption: Option<StockLine>)

  /**
   * The invoice-line helpers the checks call: an existing stock line of the invoice already used
   * by another line (`check_existing_stock_line`), the editable test, the number-of-packs test, the
   * batch and location on-hold tests (true meaning "may be used"), and the main batch reduction.
   */
  datatype StockOutChecks = StockOutChecks(
    existingStockLine: (string, string, Option<string>) -> Option<StockLineRow>,
    isEditable: InvoiceRow -> bool,
    numberOfPacksOk: Option<real> -> bool,
    batchUsable: StockLine -> bool,
    locationUsable: StockLine -> bool,
    mainBatchReduction: (BatchPair, UpdateStockOutLine, InvoiceLineRow) -> real)

  /** The stored data: invoice lines joined with their item, invoices and batches, by id. */
  datatype StockOutData = StockOutData(
    lines: map<string, InvoiceLine>,
    invoices: map<string, InvoiceRow>,
    batches: map<string, StockLine>)

  /** `check_batch_exists`: a batch of this store with that id. */
  function CheckBatchExists(batches: map<string, StockLine>, storeId: string, batchId: string): (r: Option<StockLine>)
    ensures r.Some? <==> batchId in batches && batches[batchId].row.storeId == storeId
    ensures r.Some? ==> r.value == batches[batchId]
  {
    if batchId in batches && batches[batchId].row.storeId == storeId then Some(batches[batchId]) else None
  }

  /**
   * `check_batch_exists_option`: the line's current batch must exist; a different batch in the
   * input becomes the main batch with the current one as previous, otherwise the current batch is
   * the main one and there is no previous batch.
   */
  function CheckBatchExistsOption(batches: map<string, StockLine>, storeId: string, input: UpdateStockOutLine,
                                  existingLine: InvoiceLineRow): (r: Result<BatchPair, UpdateStockOutLineError>)
    ensures existingLine.stockLineId.None? ==> r == Err(LineDoesNotReferenceStockLine)
    ensures existingLine.stockLineId.Some? && CheckBatchExists(batches, storeId, existingLine.stockLineId.value).None?
            ==> r == Err(StockLineNotFound)
    ensures r.Ok? ==>
      && existingLine.stockLineId.Some?
      && var previous := batches[existingLine.stockLineId.value];
         if input.stockLineId.Some? && input.stockLineId.value != previous.row.id then
           && r.value.previousBatchOption == Some(previous)
           && input.stockLineId.value in batches
           && r.value.mainBatch == batches[input.stockLineId.value]
           && r.value.mainBatch.row.storeId == storeId
         else
           r.value == BatchPair(previous, None)
    ensures r.Err? ==> r.error == LineDoesNotReferenceStockLine || r.error == StockLineNotFound
  {
    if existingLine.stockLineId.None? then Err(LineDoesNotReferenceStockLine)
    else
      match CheckBatchExists(batches, storeId, existingLine.stockLineId.value)
      case None => Err(StockLineNotFound)
      case Some(previous) =>
        if input.stockLineId.Some? && input.stockLineId.value != previous.row.id then
          match CheckBatchExists(batches, storeId, input.stockLineId.value)
          case None => Err(StockLineNotFound)
          case Some(main) => Ok(BatchPair(main, Some(previous)))
        else Ok(BatchPair(previous, None))
  }

  /** `check_reduction_below_zero` with the reduction already computed for the main batch. */
  function CheckReductionBelowZero(line: InvoiceLineRow, pair: BatchPair, reduction: real): (r: Result<(), UpdateStockOutLineError>)
    ensures r.Err? <==> pair.mainBatch.row.availableNumberOfPacks < reduction
    ensures r.Err? ==> r.error == ReductionBelowZero(pair.mainBatch.row.id, line.id)
  {
    if pair.mainBatch.row.availableNumberOfPacks < reduction then
      Err(ReductionBelowZero(pair.mainBatch.row.id, line.id))
    else Ok(())
  }

  datatype ValidatedStockOut = ValidatedStockOut(line: InvoiceLineRow, item: ItemRow, batchPair: BatchPair, invoice: InvoiceRow)

  /** `validate`: the checks in the order the service makes them. */
  function Validate(data: StockOutData, checks: StockOutChecks, input: UpdateStockOutLine, storeId: string)
    : (r: Result<ValidatedStockOut, UpdateStockOutLineError>)
    ensures r == Err(LineDoesNotExist) <==> input.id !in data.lines
    ensures r == Err(InvoiceDoesNotExist) <==>
      input.id in data.lines && data.lines[input.id].row.invoiceId !in data.invoices
    ensures r == Err(NotThisStoreInvoice) <==>
      (&& input.id in data.lines && data.lines[input.id].row.invoiceId in data.invoices
       && data.invoices[data.lines[input.id].row.invoiceId].storeId != storeId)
    ensures r.Err? && r.error == NumberOfPacksBelowZero ==>
      data.invoices[data.lines[input.id].row.invoiceId].status != New
    ensures r.Err? && r.error.ReductionBelowZero? ==>
      input.id in data.lines && r.error.lineId == data.lines[input.id].row.id
    ensures r.Ok? ==>
      && input.id in data.lines && r.value.line == data.lines[input.id].row
      && r.value.item == data.lines[input.id].item
      && r.value.line.invoiceId in data.invoices && r.value.invoice == data.invoices[r.value.line.invoiceId]
      && r.value.invoice.storeId == storeId
      && checks.existingStockLine(r.value.line.id, r.value.invoice.id, input.stockLineId).None?
      && input.invoiceType == Some(r.value.invoice.invoiceType)
      && checks.isEditable(r.value.invoice)
      && r.value.line.invoiceId == r.value.invoice.id
      && (r.value.invoice.status != New ==> checks.numberOfPacksOk(input.numberOfPacks))
      && CheckBatchExistsOption(data.batches, storeId, input, r.value.line) == Ok(r.value.batchPair)
      && checks.batchUsable(r.value.batchPair.mainBatch)
      && checks.locationUsable(r.value.batchPair.mainBatch)
      && r.value.batchPair.mainBatch.row.availableNumberOfPacks
         >= checks.mainBatchReduction(r.value.batchPair, input, r.value.line)
  {
    if input.id !in data.lines then Err(LineDoesNotExist)
    else
      var line := data.lines[input.id];
      var lineRow := line.row;
      if lineRow.invoiceId !in data.invoices then Err(InvoiceDoesNotExist)
      else
        var invoice := data.invoices[lineRow.invoiceId];
        if invoice.storeId != storeId then Err(NotThisStoreInvoice)
        else
          match checks.existingStockLine(lineRow.id, invoice.id, input.stockLineId)
          case Some(existing) => Err(StockLineAlreadyExistsInInvoice(existing.id))
          case None =>
            if input.invoiceType.None? then Err(NoInvoiceType)
            else if invoice.invoiceType != input.invoiceType.value then Err(InvoiceTypeDoesNotMatch)
            else if !checks.isEditable(invoice) then Err(CannotEditFinalised)
            else if lineRow.invoiceId != invoice.id then Err(NotThisInvoiceLine(lineRow.invoiceId))
            else if invoice.status != New && !checks.numberOfPacksOk(input.numberOfPacks) then Err(NumberOfPacksBelowZero)
            else
              match CheckBatchExistsOption(data.batches, storeId, input, lineRow)
              case Err(e) => Err(e)
              case Ok(pair) =>
                if !checks.batchUsable(pair.mainBatch) then Err(BatchIsOnHold)
                else if !checks.locationUsable(pair.mainBatch) then Err(LocationIsOnHold)
                else
                  match CheckReductionBelowZero(lineRow, pair, checks.mainBatchReduction(pair, input, lineRow))
                  case Err(e) => Err(e)
                  case Ok(_) => Ok(ValidatedStockOut(lineRow, line.item, pair, invoice))
  }

  /**
   * Once the line, its invoice and the store check pass, the remaining checks run in the source's
   * order: each error appears exactly when every check before it passes and its own fails, and
   * the result is Ok exactly when every check passes.
   */
  lemma ValidateCheckOrder(data: StockOutData, checks: StockOutChecks, input: UpdateStockOutLine, storeId: string)
    requires input.id in data.lines && data.lines[input.id].row.invoiceId in data.invoices
    requires data.invoices[data.lines[input.id].row.invoiceId].storeId == storeId
    ensures var line := data.lines[input.id].row;
      var invoice := data.invoices[line.invoiceId];
      var r := Validate(data, checks, input, storeId);
      var noExisting := checks.existingStockLine(line.id, invoice.id, input.stockLineId).None?;
      var typed := noExisting && input.invoiceType == Some(invoice.invoiceType);
      var editable := typed && checks.isEditable(invoice) && line.invoiceId == invoice.id;
      var packsOk := editable && (invoice.status != New ==> checks.numberOfPacksOk(input.numberOfPacks));
      var pair := CheckBatchExistsOption(data.batches, storeId, input, line);
      && (r.Err? && r.error.StockLineAlreadyExistsInInvoice? <==> !noExisting)
      && (r == Err(NoInvoiceType) <==> noExisting && input.invoiceType.None?)
      && (r == Err(InvoiceTypeDoesNotMatch) <==>
            noExisting && input.invoiceType.Some? && input.invoiceType.value != invoice.invoiceType)
      && (r == Err(CannotEditFinalised) <==> typed && !checks.isEditable(invoice))
      && (r == Err(NumberOfPacksBelowZero) <==>
            editable && invoice.status != New && !checks.numberOfPacksOk(input.numberOfPacks))
      && (packsOk && pair.Err? ==> r == Err(pair.error))
      && (r == Err(BatchIsOnHold) <==> packsOk && pair.Ok? && !checks.batchUsable(pair.value.mainBatch))
      && (r == Err(LocationIsOnHold) <==>
            (&& packsOk && pair.Ok? && checks.batchUsable(pair.value.mainBatch)
             && !checks.locationUsable(pair.value.mainBatch)))
      && (r.Ok? <==>
            (&& packsOk && pair.Ok? && checks.batchUsable(pair.value.mainBatch)
             && checks.locationUsable(pair.value.mainBatch)
             && CheckReductionBelowZero(line, pair.value, checks.mainBatchReduction(pair.value, input, line)).Ok?))
  {
  }

  /** Every stored invoice sits under its own id. */
  predicate InvoicesKeyedById(invoices: map<string, InvoiceRow>)
  {
    forall id :: id in invoices ==> invoices[id].id == id
  }

  /**
   * The invoice is looked up by the line's own invoice id, so with invoices stored under their
   * ids the belongs-to check never fails.
   */
  lemma NotThisInvoiceLineIsUnreachable(data: StockOutData, checks: StockOutChecks, input: UpdateStockOutLine, storeId: string)
    requires InvoicesKeyedById(data.invoices)
    ensures var r := Validate(data, checks, input, storeId); !(r.Err? && r.error.NotThisInvoiceLine?)
  {
  }

  /**
   * Once the line, invoice, store, existing-stock, type and editable checks pass, an invoice
   * still New never fails on its number of packs, whatever the packs.
   */
  lemma NewInvoiceSkipsNumberOfPacksCheck(data: StockOutData, checks: StockOutChecks, input: UpdateStockOutLine, storeId: string)
    requires input.id in data.lines && data.lines[input.id].row.invoiceId in data.invoices
    requires data.invoices[data.lines[input.id].row.invoiceId].status == New
    ensures Validate(data, checks, input, storeId) != Err(NumberOfPacksBelowZero)
  {
  }

  /** A line that references no batch is never accepted, and never gets as far as the on-hold checks. */
  lemma LineWithoutBatchIsRejected(data: StockOutData, checks: StockOutChecks, input: UpdateStockOutLine, storeId: string)
    requires input.id in data.lines && data.lines[input.id].row.stockLineId.None?
    ensures var r := Validate(data, checks, input, storeId);
      && r.Err?
      && !(r.error.BatchIsOnHold? || r.error.LocationIsOnHold? || r.error.ReductionBelowZero?)
  {
  }
}
