/**
 * Inserting an inventory adjustment: a stock line is adjusted up or down through a new
 * inventory-addition or inventory-reduction invoice that is written and then verified in one
 * transaction, with an activity-log entry for the invoice.
 */
module InventoryAdjustment {
  import opened Wrappers
  import opened Repository
  import opened InvoiceRows
  import opened ActivityLog

  datatype AdjustmentType = Addition | Reduction

  /** `AdjustmentType::default`. */
  function DefaultAdjustmentType(): (t: AdjustmentType)
    ensures t == Addition
  {
    Addition
  }

  datatype InsertInventoryAdjustment = InsertInventoryAdjustment(
    stockLineId: string,
    adjustment: real,
    adjustmentType: AdjustmentType,
    inventoryAdjustmentReasonId: Option<string>)

  /** The derived default input: empty id, zero adjustment, the default type, no reason. */
  function DefaultInput(): (i: InsertInventoryAdjustment)
    ensures i.adjustmentType == Addition && i.adjustment == 0.0 && i.inventoryAdjustmentReasonId.None?
  {
    InsertInventoryAdjustment("", 0.0, DefaultAdjustmentType(), None)
  }

  datatype InsertInventoryAdjustmentError =
    | InvalidStore
    | StockLineDoesNotExist
    | StockLineReducedBelowZero(stockLine: StockLineRow)
    | InvalidAdjustment
    | AdjustmentReasonNotValid
    | AdjustmentReasonNotProvided
    | NewlyCreatedInvoiceDoesNotExist
    | DatabaseError(error: RepositoryError)
    | InternalError(message: string)

  /** What the adjustment-reason check can object to. */
  datatype ReasonError = ReasonNotValid | ReasonNotProvided

  /**
   * The validation, in the order its tests exercise: the stock line exists, belongs to the store,
   * the adjustment is not zero, the reason passes `reasonCheck`, and a reduction does not take
   * more packs than the line has available.
   */
  function Validate(stockLines: map<string, StockLineRow>, storeId: string, input: InsertInventoryAdjustment,
                    reasonCheck: InsertInventoryAdjustment -> Option<ReasonError>)
    : (r: Result<StockLineRow, InsertInventoryAdjustmentError>)
    ensures r == Err(StockLineDoesNotExist) <==> input.stockLineId !in stockLines
    ensures r == Err(InvalidStore) <==>
      input.stockLineId in stockLines && stockLines[input.stockLineId].storeId != storeId
    ensures r.Err? && r.error.StockLineReducedBelowZero? ==>
      && input.adjustmentType == Reduction
      && r.error.stockLine == stockLines[input.stockLineId]
      && r.error.stockLine.availableNumberOfPacks < input.adjustment
    ensures r.Ok? <==>
      (&& input.stockLineId in stockLines && stockLines[input.stockLineId].storeId == storeId
       && input.adjustment != 0.0 && reasonCheck(input).None?
       && (input.adjustmentType == Reduction ==> input.adjustment <= stockLines[input.stockLineId].availableNumberOfPacks))
    ensures r.Ok? ==> r.value == stockLines[input.stockLineId]
    ensures r.Err? ==> !r.error.DatabaseError? && !r.error.InternalError? && r.error != NewlyCreatedInvoiceDoesNotExist
  {
    if input.stockLineId !in stockLines then Err(StockLineDoesNotExist)
    else
      var stockLine := stockLines[input.stockLineId];
      if stockLine.storeId != storeId then Err(InvalidStore)
      else if input.adjustment == 0.0 then Err(InvalidAdjustment)
      else if reasonCheck(input).Some? then
        Err(match reasonCheck(input).value
            case ReasonNotValid => AdjustmentReasonNotValid
            case ReasonNotProvided => AdjustmentReasonNotProvided)
      else if input.adjustmentType == Reduction && stockLine.availableNumberOfPacks < input.adjustment then
        Err(StockLineReducedBelowZero(stockLine))
      else Ok(stockLine)
  }

  /** What `generate` yields: the new invoice, its single line, and the adjusted stock line. */
  datatype GeneratedAdjustment = GeneratedAdjustment(newInvoice: InvoiceRow, invoiceLine: InvoiceLineRow, stockLine: StockLineRow)

  /** The invoice as it stays in the table: the generated one, verified. */
  function VerifiedInvoice(generated: InvoiceRow): (r: InvoiceRow)
    ensures r.status == Verified
    ensures r.(status := generated.status) == generated
  {
    generated.(status := Verified)
  }

  class InventoryAdjustmentDatabase {
    var invoices: map<string, InvoiceRow>
    var lines: map<string, InvoiceLineRow>
    var stockLines: map<string, StockLineRow>
    var activityLog: seq<ActivityLogEntry>

    constructor (invoices: map<string, InvoiceRow>, lines: map<string, InvoiceLineRow>, stockLines: map<string, StockLineRow>)
      ensures this.invoices == invoices && this.lines == lines && this.stockLines == stockLines && activityLog == []
    {
      this.invoices := invoices;
      this.lines := lines;
      this.stockLines := stockLines;
      activityLog := [];
    }

    /**
     * `insert_inventory_adjustment`. The rows `generate` produces are the parameter `generate`.
     * The invoice is written, then the line, the stock line, the invoice again as Verified, and a
     * log entry for it; the read-back then finds the verified invoice. A failed validation writes
     * nothing.
     */
    method InsertInventoryAdjustment(storeId: string, input: InsertInventoryAdjustment,
                                     reasonCheck: InsertInventoryAdjustment -> Option<ReasonError>,
                                     generate: (InsertInventoryAdjustment, StockLineRow) -> GeneratedAdjustment)
      returns (r: Result<InvoiceRow, InsertInventoryAdjustmentError>)
      modifies this
      ensures var v := Validate(old(stockLines), storeId, input, reasonCheck);
        && (v.Err? ==> r == Err(v.error) && unchanged(this))
        && (v.Ok? ==>
              var g := generate(input, v.value);
              var verified := VerifiedInvoice(g.newInvoice);
              && invoices == old(invoices)[verified.id := verified]
              && lines == old(lines)[g.invoiceLine.id := g.invoiceLine]
              && stockLines == old(stockLines)[g.stockLine.id := g.stockLine]
              && activityLog == old(activityLog) + [ActivityLogEntry(ActivityLogType.InventoryAdjustment, Some(verified.id))]
              && r == Ok(verified))
    {
      var validated := Validate(stockLines, storeId, input, reasonCheck);
      if validated.Err? {
        return Err(validated.error);
      }
      var generated := generate(input, validated.value);
      invoices := invoices[generated.newInvoice.id := generated.newInvoice];
      lines := lines[generated.invoiceLine.id := generated.invoiceLine];
      stockLines := stockLines[generated.stockLine.id := generated.stockLine];
      var verifiedInvoice := generated.newInvoice.(status := Verified);
      invoices := invoices[verifiedInvoice.id := verifiedInvoice];
      activityLog := activityLog + [ActivityLogEntry(ActivityLogType.InventoryAdjustment, Some(verifiedInvoice.id))];
      if verifiedInvoice.id in invoices {
        r := Ok(invoices[verifiedInvoice.id]);
      } else {
        r := Err(NewlyCreatedInvoiceDoesNotExist);
      }
    }
  }

  /** The stock line of the tests, with fewer than 50 packs available, in store A. */
  function StockLineA(): StockLineRow
  {
    StockLineRow("stock_line_a", "item_a", "store_a", None, 1, 30.0, 40.0, false)
  }

  /** A reason check that rejects no input, as the default inputs of the tests pass it. */
  function NoReasonError(input: InsertInventoryAdjustment): Option<ReasonError>
  {
    None
  }

  /** The answers of the error test, in its order, each input starting from the defaults. */
  lemma InsertInventoryAdjustmentErrorExamples()
    ensures Validate(map["stock_line_a" := StockLineA()], "store_a", DefaultInput().(stockLineId := "x"), NoReasonError)
            == Err(StockLineDoesNotExist)
    ensures Validate(map["stock_line_a" := StockLineA()], "store_b", DefaultInput().(stockLineId := "stock_line_a"), NoReasonError)
            == Err(InvalidStore)
    ensures Validate(map["stock_line_a" := StockLineA()], "store_a",
                     DefaultInput().(stockLineId := "stock_line_a", inventoryAdjustmentReasonId := Some("invalid")),
                     NoReasonError)
            == Err(InvalidAdjustment)
    ensures Validate(map["stock_line_a" := StockLineA()], "store_a", DefaultInput().(stockLineId := "stock_line_a"), NoReasonError)
            == Err(InvalidAdjustment)
    ensures Validate(map["stock_line_a" := StockLineA()], "store_a",
                     DefaultInput().(stockLineId := "stock_line_a", adjustmentType := Reduction, adjustment := 50.0),
                     NoReasonError)
            == Err(StockLineReducedBelowZero(StockLineA()))
    ensures Validate(map["stock_line_a" := StockLineA()], "store_a",
                     DefaultInput().(stockLineId := "stock_line_a", adjustment := 2.0), NoReasonError)
            == Ok(StockLineA())
  {
  }
}
