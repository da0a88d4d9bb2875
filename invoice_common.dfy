/**
 * Helpers shared by the invoice services: the user-id update of an invoice, the optional tax and
 * currency totals, the master-list visibility checks, and the stock-line totals update that
 * follows the stock-out lines of an invoice.
 */
module InvoiceCommon {
  import opened Wrappers
  import opened Repository
  import opened InvoiceRows
  import opened Sequences

  /**
   * `generate_invoice_user_id_update`: an updated invoice carrying the acting user, or None when
   * the invoice already carries that user.
   */
  function GenerateInvoiceUserIdUpdate(userId: string, existing: InvoiceRow): (r: Option<InvoiceRow>)
    ensures r.None? <==> existing.userId == Some(userId)
    ensures r.Some? ==> r.value == existing.(userId := Some(userId))
  {
    if existing.userId != Some(userId) then Some(existing.(userId := Some(userId))) else None
  }

  /** Once the update is applied, asking again for the same user yields no further update. */
  lemma UserIdUpdateSettles(userId: string, existing: InvoiceRow)
    ensures var once := GenerateInvoiceUserIdUpdate(userId, existing).UnwrapOr(existing);
      GenerateInvoiceUserIdUpdate(userId, once).None?
  {
  }

  /**
   * `calculate_total_after_tax`: without a tax rate the total is unchanged. The f64 arithmetic
   * applied with a rate is the parameter `withTax`.
   */
  function CalculateTotalAfterTax(totalBeforeTax: real, tax: Option<real>, withTax: (real, real) -> real): (r: real)
    ensures tax.None? ==> r == totalBeforeTax
    ensures tax.Some? ==> r == withTax(totalBeforeTax, tax.value)
  {
    match tax
    case Some(t) => withTax(totalBeforeTax, t)
    case None => totalBeforeTax
  }

  /**
   * `calculate_foreign_currency_total`: no currency rate, no foreign total. The f64 division is
   * the parameter `divide`.
   */
  function CalculateForeignCurrencyTotal(total: real, currencyRate: Option<real>, divide: (real, real) -> real): (r: Option<real>)
    ensures r.None? <==> currencyRate.None?
    ensures r.Some? ==> r.value == divide(total, currencyRate.value)
  {
    match currencyRate
    case Some(rate) => Some(divide(total, rate))
    case None => None
  }

  /** `check_master_list_for_store`: the master list with this id, if it is visible to the store. */
  function CheckMasterListForStore(lists: seq<MasterList>, storeId: string, masterListId: string): Option<MasterList>
  {
    Pop(Filter(lists, (m: MasterList) => m.id == masterListId && storeId in m.storeIds))
  }

  /** `check_master_list_for_name`: the master list with this id, if it is visible to the name. */
  function CheckMasterListForName(lists: seq<MasterList>, nameId: string, masterListId: string): Option<MasterList>
  {
    Pop(Filter(lists, (m: MasterList) => m.id == masterListId && nameId in m.nameIds))
  }

  /**
   * Both checks answer None exactly when no stored list has that id and is visible, and otherwise
   * the last such list of the query.
   */
  lemma CheckMasterListIsLastVisible(lists: seq<MasterList>, storeId: string, nameId: string, masterListId: string)
    ensures CheckMasterListForStore(lists, storeId, masterListId).None? <==>
      forall i :: 0 <= i < |lists| ==> !(lists[i].id == masterListId && storeId in lists[i].storeIds)
    ensures CheckMasterListForName(lists, nameId, masterListId).None? <==>
      forall i :: 0 <= i < |lists| ==> !(lists[i].id == masterListId && nameId in lists[i].nameIds)
    ensures CheckMasterListForStore(lists, storeId, masterListId).Some? ==>
      var m := CheckMasterListForStore(lists, storeId, masterListId).value;
      && m.id == masterListId && storeId in m.storeIds
      && exists i :: LastMatchAt(lists, (l: MasterList) => l.id == masterListId && storeId in l.storeIds, i) && lists[i] == m
    ensures CheckMasterListForName(lists, nameId, masterListId).Some? ==>
      var m := CheckMasterListForName(lists, nameId, masterListId).value;
      && m.id == masterListId && nameId in m.nameIds
      && exists i :: LastMatchAt(lists, (l: MasterList) => l.id == masterListId && nameId in l.nameIds, i) && lists[i] == m
  {
    PopOfFilterIsLastMatch(lists, (m: MasterList) => m.id == masterListId && storeId in m.storeIds);
    PopOfFilterIsLastMatch(lists, (m: MasterList) => m.id == masterListId && nameId in m.nameIds);
  }

  datatype InvoiceLineHasNoStockLine =
    | InvoiceLineHasNoStockLine(lineId: string)
    | DatabaseError(error: RepositoryError)

  /** The query of the stock-out lines of an invoice, in load order. */
  function StockOutLinesOf(lines: seq<InvoiceLine>, invoiceId: string): seq<InvoiceLine>
  {
    Filter(lines, (l: InvoiceLine) => l.row.invoiceId == invoiceId && l.row.lineType == StockOut)
  }

  /** A stock line whose total no longer counts the packs the invoice line takes from it. */
  function ReducedBy(stockLine: StockLineRow, line: InvoiceLineRow): StockLineRow
  {
    stockLine.(totalNumberOfPacks := stockLine.totalNumberOfPacks - line.numberOfPacks)
  }

  /** The loop of `generate_batches_total_number_of_packs_update` over already-queried lines. */
  function BatchesUpdate(lines: seq<InvoiceLine>): Result<seq<StockLineRow>, InvoiceLineHasNoStockLine>
    decreases |lines|
  {
    if lines == [] then Ok([])
    else
      var done := BatchesUpdate(lines[..|lines| - 1]);
      var last := lines[|lines| - 1];
      if done.Err? then done
      else if last.stockLine.None? then Err(InvoiceLineHasNoStockLine(last.row.id))
      else Ok(done.value + [ReducedBy(last.stockLine.value, last.row)])
  }

  /**
   * The update succeeds exactly when every line has a stock line, and then yields one updated
   * stock line per line, in line order, each with its total reduced by that line's packs.
   */
  lemma {:induction false} BatchesUpdateSucceeds(lines: seq<InvoiceLine>)
    ensures BatchesUpdate(lines).Ok? <==> forall i :: 0 <= i < |lines| ==> lines[i].stockLine.Some?
    ensures BatchesUpdate(lines).Ok? ==>
      && |BatchesUpdate(lines).value| == |lines|
      && forall i :: 0 <= i < |lines| ==>
           BatchesUpdate(lines).value[i] == ReducedBy(lines[i].stockLine.value, lines[i].row)
    decreases |lines|
  {
    if lines != [] {
      var init := lines[..|lines| - 1];
      BatchesUpdateSucceeds(init);
      assert forall i :: 0 <= i < |init| ==> init[i] == lines[i];
    }
  }

  /** A failure names the FIRST line without a stock line. */
  lemma {:induction false} BatchesUpdateFailsAtFirstMissing(lines: seq<InvoiceLine>, k: nat)
    requires k < |lines| && lines[k].stockLine.None?
    requires forall i :: 0 <= i < k ==> lines[i].stockLine.Some?
    ensures BatchesUpdate(lines) == Err(InvoiceLineHasNoStockLine(lines[k].row.id))
    decreases |lines|
  {
    var init := lines[..|lines| - 1];
    if k < |lines| - 1 {
      assert init[k] == lines[k];
      assert forall i :: 0 <= i < k ==> init[i] == lines[i];
      BatchesUpdateFailsAtFirstMissing(init, k);
    } else {
      assert forall i :: 0 <= i < |init| ==> init[i] == lines[i];
      BatchesUpdateSucceeds(init);
    }
  }

  /**
   * `generate_batches_total_number_of_packs_update` over the invoice line table `lines`: query
   * the invoice's stock-out lines, then push one reduced stock line per line.
   */
  method GenerateBatchesTotalNumberOfPacksUpdate(invoiceId: string, lines: seq<InvoiceLine>)
    returns (r: Result<seq<StockLineRow>, InvoiceLineHasNoStockLine>)
    ensures r == BatchesUpdate(StockOutLinesOf(lines, invoiceId))
  {
    var invoiceLines := StockOutLinesOf(lines, invoiceId);
    var result := [];
    var i := 0;
    while i < |invoiceLines|
      invariant 0 <= i <= |invoiceLines|
      invariant BatchesUpdate(invoiceLines[..i]) == Ok(result)
      invariant forall j :: 0 <= j < i ==> invoiceLines[j].stockLine.Some?
    {
      assert invoiceLines[..i + 1][..i] == invoiceLines[..i];
      var line := invoiceLines[i];
      if line.stockLine.None? {
        BatchesUpdateFailsAtFirstMissing(invoiceLines, i);
        return Err(InvoiceLineHasNoStockLine(line.row.id));
      }
      var stockLine := line.stockLine.value;
      stockLine := stockLine.(totalNumberOfPacks := stockLine.totalNumberOfPacks - line.row.numberOfPacks);
      result := result + [stockLine];
      i := i + 1;
    }
    assert invoiceLines[..i] == invoiceLines;
    r := Ok(result);
  }
}
