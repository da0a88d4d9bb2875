/**
 * Adding the items of a master list to a new inbound shipment: the shipment must exist, belong
 * to the store, still be New, be an inbound shipment, and the master list must be visible to the
 * store; then one empty line is added for every stock item of the list not yet on the shipment.
 */
module AddFromMasterList {
  import opened Wrappers
  import opened InvoiceRows
  import opened InvoiceCommon
  import opened Sequences

  datatype AddToInboundShipmentFromMasterListError =
    | ShipmentDoesNotExist
    | NotThisStoreShipment
    | CannotEditShipment
    | MasterListNotFoundForThisStore
    | NotAnInboundShipment

  datatype AddToShipmentFromMasterListInput = AddToShipmentFromMasterListInput(shipmentId: string, masterListId: string)

  type InvoiceTable = map<string, InvoiceRow>
  type LineTable = map<string, InvoiceLineRow>
  type ItemTable = map<string, ItemRow>

  /** `validate`: the checks in the order the service makes them, answering the shipment. */
  function Validate(invoices: InvoiceTable, masterLists: seq<MasterList>, storeId: string,
                    input: AddToShipmentFromMasterListInput): (r: Result<InvoiceRow, AddToInboundShipmentFromMasterListError>)
    ensures r.Ok? <==>
      (&& input.shipmentId in invoices
       && invoices[input.shipmentId].storeId == storeId
       && invoices[input.shipmentId].status == New
       && invoices[input.shipmentId].invoiceType == InboundShipment
       && CheckMasterListForStore(masterLists, storeId, input.masterListId).Some?)
    ensures r.Ok? ==> r.value == invoices[input.shipmentId]
    ensures r == Err(ShipmentDoesNotExist) <==> input.shipmentId !in invoices
    ensures r == Err(NotThisStoreShipment) <==>
      input.shipmentId in invoices && invoices[input.shipmentId].storeId != storeId
    ensures r == Err(CannotEditShipment) <==>
      (&& input.shipmentId in invoices && invoices[input.shipmentId].storeId == storeId
       && invoices[input.shipmentId].status != New)
    ensures r == Err(NotAnInboundShipment) <==>
      (&& input.shipmentId in invoices && invoices[input.shipmentId].storeId == storeId
       && invoices[input.shipmentId].status == New
       && invoices[input.shipmentId].invoiceType != InboundShipment)
  {
    if input.shipmentId !in invoices then Err(ShipmentDoesNotExist)
    else
      var invoice := invoices[input.shipmentId];
      if invoice.storeId != storeId then Err(NotThisStoreShipment)
      else if invoice.status != New then Err(CannotEditShipment)
      else if invoice.invoiceType != InboundShipment then Err(NotAnInboundShipment)
      else if CheckMasterListForStore(masterLists, invoice.storeId, input.masterListId).None? then
        Err(MasterListNotFoundForThisStore)
      else Ok(invoice)
  }

  /** `get_lines_for_invoice`, reduced to the ids of the items already on the invoice. */
  function ItemIdsInInvoice(lines: LineTable, invoiceId: string): (r: set<string>)
    ensures forall x :: x in r <==> exists id :: id in lines && lines[id].invoiceId == invoiceId && lines[id].itemId == x
  {
    set id | id in lines && lines[id].invoiceId == invoiceId :: lines[id].itemId
  }

  /** The master-list line query: this list, an item not on the invoice, and a stock item. */
  predicate IsNewStockLine(items: ItemTable, masterListId: string, inInvoice: set<string>, l: MasterListLine)
  {
    && l.masterListId == masterListId
    && l.itemId !in inInvoice
    && l.itemId in items
    && items[l.itemId].itemType == Stock
  }

  function MasterListLinesNotInInvoice(masterListLines: seq<MasterListLine>, items: ItemTable, masterListId: string,
                                       inInvoice: set<string>): (r: seq<MasterListLine>)
    ensures forall i :: 0 <= i < |r| ==> r[i] in masterListLines && IsNewStockLine(items, masterListId, inInvoice, r[i])
    ensures forall j :: 0 <= j < |masterListLines| && IsNewStockLine(items, masterListId, inInvoice, masterListLines[j]) ==>
      masterListLines[j] in r
  {
    Filter(masterListLines, (l: MasterListLine) => IsNewStockLine(items, masterListId, inInvoice, l))
  }

  /**
   * An empty invoice line for the item with id `itemId`. The defaults of the fields this model does not follow
   * (type, pack size, prices, batch, ...) are those of `template`.
   */
  function EmptyLine(template: InvoiceLineRow, id: string, invoice: InvoiceRow, itemId: string, item: ItemRow): (r: InvoiceLineRow)
    ensures r.id == id && r.invoiceId == invoice.id && r.itemId == itemId
    ensures r.itemName == item.name && r.itemCode == item.code
    ensures r.numberOfPacks == 0.0
    ensures r.packSize == template.packSize && r.sellPricePerPack == template.sellPricePerPack
    ensures r.costPricePerPack == template.costPricePerPack
  {
    template.(id := id, invoiceId := invoice.id, itemId := itemId, itemName := item.name,
              itemCode := item.code, numberOfPacks := 0.0)
  }

  /**
   * `generate`: one empty line per item of the master-list query, in query order; the i-th line
   * takes the fresh id `freshId(i)`.
   */
  function Generate(lines: LineTable, items: ItemTable, masterListLines: seq<MasterListLine>,
                    invoice: InvoiceRow, input: AddToShipmentFromMasterListInput,
                    template: InvoiceLineRow, freshId: nat -> string): (r: seq<InvoiceLineRow>)
    ensures var query := MasterListLinesNotInInvoice(masterListLines, items, input.masterListId,
                                                     ItemIdsInInvoice(lines, input.shipmentId));
      && |r| == |query|
      && (forall i :: 0 <= i < |r| ==> r[i].id == freshId(i))
      && (forall i :: 0 <= i < |r| ==> r[i].invoiceId == invoice.id)
      && (forall i :: 0 <= i < |r| ==> r[i].itemId == query[i].itemId)
      && (forall i :: 0 <= i < |r| ==> query[i].itemId in items)
      && (forall i :: 0 <= i < |r| ==> r[i].itemName == items[query[i].itemId].name)
      && (forall i :: 0 <= i < |r| ==> r[i].itemCode == items[query[i].itemId].code)
      && (forall i :: 0 <= i < |r| ==> r[i].numberOfPacks == 0.0)
  {
    var query := MasterListLinesNotInInvoice(masterListLines, items, input.masterListId,
                                             ItemIdsInInvoice(lines, input.shipmentId));
    seq(|query|, (i: int) requires 0 <= i < |query| => EmptyLine(template, freshId(i), invoice, query[i].itemId, items[query[i].itemId]))
  }

  /**
   * The generated lines are for stock items of the list that are not yet on the invoice, and every
   * such master-list line yields one.
   */
  lemma GenerateAddsExactlyMissingStockItems(lines: LineTable, items: ItemTable, masterListLines: seq<MasterListLine>,
                                             invoice: InvoiceRow, input: AddToShipmentFromMasterListInput,
                                             template: InvoiceLineRow, freshId: nat -> string)
    ensures var gen := Generate(lines, items, masterListLines, invoice, input, template, freshId);
      && (forall i :: 0 <= i < |gen| ==>
            && gen[i].itemId !in ItemIdsInInvoice(lines, input.shipmentId)
            && gen[i].itemId in items && items[gen[i].itemId].itemType == Stock
            && exists j :: 0 <= j < |masterListLines| && masterListLines[j].masterListId == input.masterListId
                 && masterListLines[j].itemId == gen[i].itemId)
      && (forall j :: (0 <= j < |masterListLines| &&
            IsNewStockLine(items, input.masterListId, ItemIdsInInvoice(lines, input.shipmentId), masterListLines[j])) ==>
            exists i :: 0 <= i < |gen| && gen[i].itemId == masterListLines[j].itemId)
  {
    var inInvoice := ItemIdsInInvoice(lines, input.shipmentId);
    var query := MasterListLinesNotInInvoice(masterListLines, items, input.masterListId, inInvoice);
    var gen := Generate(lines, items, masterListLines, invoice, input, template, freshId);
    forall i | 0 <= i < |gen|
      ensures exists j :: 0 <= j < |masterListLines| && masterListLines[j].masterListId == input.masterListId
                 && masterListLines[j].itemId == gen[i].itemId
    {
      var j :| 0 <= j < |masterListLines| && masterListLines[j] == query[i];
    }
    forall j | 0 <= j < |masterListLines| && IsNewStockLine(items, input.masterListId, inInvoice, masterListLines[j])
      ensures exists i :: 0 <= i < |gen| && gen[i].itemId == masterListLines[j].itemId
    {
      var i :| 0 <= i < |query| && query[i] == masterListLines[j];
      assert gen[i].itemId == masterListLines[j].itemId;
    }
  }

  predicate HasRowWithId(rows: seq<InvoiceLineRow>, id: string)
  {
    exists i :: 0 <= i < |rows| && rows[i].id == id
  }

  /**
   * The invoice line table after `upsert_one` of each row in turn: it holds the ids of the table
   * and of the rows, the last row's id holds that row, and ids without rows keep their lines.
   */
  function UpsertLines(t: LineTable, rows: seq<InvoiceLineRow>): (r: LineTable)
    ensures forall id :: id in r <==> id in t || HasRowWithId(rows, id)
    ensures rows != [] ==> rows[|rows| - 1].id in r && r[rows[|rows| - 1].id] == rows[|rows| - 1]
    ensures forall id :: id in t && (forall i :: 0 <= i < |rows| ==> rows[i].id != id) ==> r[id] == t[id]
    decreases |rows|
  {
    if rows == [] then t
    else
      var init := rows[..|rows| - 1];
      var last := rows[|rows| - 1];
      assert forall i :: 0 <= i < |init| ==> init[i] == rows[i];
      assert forall id :: HasRowWithId(rows, id) <==> HasRowWithId(init, id) || id == last.id;
      UpsertLines(t, init)[last.id := last]
  }

  /**
   * Rows keep their place in the table under their own id when their ids are fresh and distinct,
   * and every row already in the table is untouched.
   */
  lemma {:induction false} UpsertLinesOfFreshRows(t: LineTable, rows: seq<InvoiceLineRow>)
    requires forall i :: 0 <= i < |rows| ==> rows[i].id !in t
    requires forall i, j :: 0 <= i < j < |rows| ==> rows[i].id != rows[j].id
    ensures forall id :: id in UpsertLines(t, rows) <==> id in t || exists i :: 0 <= i < |rows| && rows[i].id == id
    ensures forall id :: id in t ==> UpsertLines(t, rows)[id] == t[id]
    ensures forall i :: 0 <= i < |rows| ==> UpsertLines(t, rows)[rows[i].id] == rows[i]
    decreases |rows|
  {
    if rows != [] {
      var init := rows[..|rows| - 1];
      UpsertLinesOfFreshRows(t, init);
      assert forall i :: 0 <= i < |init| ==> init[i] == rows[i];
    }
  }

  /** The lines the service answers: every line of the shipment after the upserts. */
  function LinesOfInvoice(lines: LineTable, invoiceId: string): (r: set<InvoiceLineRow>)
    ensures forall l :: l in r <==> l.invoiceId == invoiceId && exists id :: id in lines && lines[id] == l
  {
    set id | id in lines && lines[id].invoiceId == invoiceId :: lines[id]
  }

  /** Upserting rows with fresh, distinct ids keeps every line the shipment had. */
  lemma FreshUpsertKeepsShipmentLine(lines: LineTable, rows: seq<InvoiceLineRow>, shipmentId: string, id: string)
    requires forall i :: 0 <= i < |rows| ==> rows[i].id !in lines
    requires forall i, j :: 0 <= i < j < |rows| ==> rows[i].id != rows[j].id
    requires id in lines && lines[id].invoiceId == shipmentId
    ensures lines[id] in LinesOfInvoice(UpsertLines(lines, rows), shipmentId)
  {
    UpsertLinesOfFreshRows(lines, rows);
    assert UpsertLines(lines, rows)[id] == lines[id];
  }

  /** Upserting rows with fresh, distinct ids puts each row of the shipment among its lines. */
  lemma FreshUpsertAddsShipmentLine(lines: LineTable, rows: seq<InvoiceLineRow>, shipmentId: string, i: int)
    requires forall i :: 0 <= i < |rows| ==> rows[i].id !in lines
    requires forall i, j :: 0 <= i < j < |rows| ==> rows[i].id != rows[j].id
    requires 0 <= i < |rows| && rows[i].invoiceId == shipmentId
    ensures rows[i] in LinesOfInvoice(UpsertLines(lines, rows), shipmentId)
  {
    UpsertLinesOfFreshRows(lines, rows);
    assert UpsertLines(lines, rows)[rows[i].id] == rows[i];
  }

  /** One stock item of the list: it is on the shipment after the generated lines are upserted. */
  lemma ListStockItemIsOnShipment(lines: LineTable, items: ItemTable, masterListLines: seq<MasterListLine>,
                                  invoice: InvoiceRow, input: AddToShipmentFromMasterListInput,
                                  template: InvoiceLineRow, freshId: nat -> string, j: int)
    requires invoice.id == input.shipmentId
    requires forall i: nat :: freshId(i) !in lines
    requires forall i: nat, j: nat :: i != j ==> freshId(i) != freshId(j)
    requires 0 <= j < |masterListLines| && masterListLines[j].masterListId == input.masterListId
    requires masterListLines[j].itemId in items && items[masterListLines[j].itemId].itemType == Stock
    ensures var after := UpsertLines(lines, Generate(lines, items, masterListLines, invoice, input, template, freshId));
      exists l :: l in LinesOfInvoice(after, input.shipmentId) && l.itemId == masterListLines[j].itemId
  {
    var gen := Generate(lines, items, masterListLines, invoice, input, template, freshId);
    var inInvoice := ItemIdsInInvoice(lines, input.shipmentId);
    assert forall i :: 0 <= i < |gen| ==> gen[i].id !in lines;
    assert forall i, k :: 0 <= i < k < |gen| ==> gen[i].id != gen[k].id by {
      assert forall i :: 0 <= i < |gen| ==> gen[i].id == freshId(i);
    }
    var x := masterListLines[j].itemId;
    if x in inInvoice {
      var id :| id in lines && lines[id].invoiceId == input.shipmentId && lines[id].itemId == x;
      FreshUpsertKeepsShipmentLine(lines, gen, input.shipmentId, id);
    } else {
      GenerateAddsExactlyMissingStockItems(lines, items, masterListLines, invoice, input, template, freshId);
      assert IsNewStockLine(items, input.masterListId, inInvoice, masterListLines[j]);
      var i :| 0 <= i < |gen| && gen[i].itemId == x;
      FreshUpsertAddsShipmentLine(lines, gen, input.shipmentId, i);
    }
  }

  /**
   * With fresh line ids, after adding from a master list every stock item of the list is on the
   * shipment, and every line the shipment had is still there.
   */
  lemma AfterAddEveryListStockItemIsOnShipment(lines: LineTable, items: ItemTable, masterListLines: seq<MasterListLine>,
                                              invoice: InvoiceRow, input: AddToShipmentFromMasterListInput,
                                              template: InvoiceLineRow, freshId: nat -> string)
    requires invoice.id == input.shipmentId
    requires forall i: nat :: freshId(i) !in lines
    requires forall i: nat, j: nat :: i != j ==> freshId(i) != freshId(j)
    ensures var after := UpsertLines(lines, Generate(lines, items, masterListLines, invoice, input, template, freshId));
      && (forall id :: id in lines && lines[id].invoiceId == input.shipmentId ==> lines[id] in LinesOfInvoice(after, input.shipmentId))
      && forall j :: 0 <= j < |masterListLines| && masterListLines[j].masterListId == input.masterListId
                     && masterListLines[j].itemId in items && items[masterListLines[j].itemId].itemType == Stock ==>
                     exists l :: l in LinesOfInvoice(after, input.shipmentId) && l.itemId == masterListLines[j].itemId
  {
    var gen := Generate(lines, items, masterListLines, invoice, input, template, freshId);
    assert forall i :: 0 <= i < |gen| ==> gen[i].id == freshId(i);
    UpsertLinesOfFreshRows(lines, gen);
    forall j | 0 <= j < |masterListLines| && masterListLines[j].masterListId == input.masterListId
               && masterListLines[j].itemId in items && items[masterListLines[j].itemId].itemType == Stock
      ensures exists l :: l in LinesOfInvoice(UpsertLines(lines, gen), input.shipmentId) && l.itemId == masterListLines[j].itemId
    {
      ListStockItemIsOnShipment(lines, items, masterListLines, invoice, input, template, freshId, j);
    }
  }

  /** The tables `add_from_master_list` reads and the invoice line table it writes. */
  class InboundShipmentDatabase {
    var invoices: InvoiceTable
    var lines: LineTable
    var items: ItemTable
    var masterLists: seq<MasterList>
    var masterListLines: seq<MasterListLine>

    constructor (invoices: InvoiceTable, lines: LineTable, items: ItemTable, masterLists: seq<MasterList>,
                 masterListLines: seq<MasterListLine>)
      ensures this.invoices == invoices && this.lines == lines && this.items == items
      ensures this.masterLists == masterLists && this.masterListLines == masterListLines
    {
      this.invoices := invoices;
      this.lines := lines;
      this.items := items;
      this.masterLists := masterLists;
      this.masterListLines := masterListLines;
    }

    /**
     * `add_from_master_list` in one transaction: validate, generate, upsert each new line, then
     * answer every line of the shipment. A failed validation writes nothing.
     */
    method AddFromMasterList(storeId: string, input: AddToShipmentFromMasterListInput, template: InvoiceLineRow,
                             freshId: nat -> string)
      returns (r: Result<set<InvoiceLineRow>, AddToInboundShipmentFromMasterListError>)
      modifies this
      ensures unchanged(this`invoices, this`items, this`masterLists, this`masterListLines)
      ensures var v := Validate(old(invoices), old(masterLists), storeId, input);
        && (v.Err? ==> r == Err(v.error) && lines == old(lines))
        && (v.Ok? ==>
              && lines == UpsertLines(old(lines), Generate(old(lines), items, masterListLines, v.value, input, template, freshId))
              && r == Ok(LinesOfInvoice(lines, input.shipmentId)))
    {
      var validated := Validate(invoices, masterLists, storeId, input);
      if validated.Err? {
        return Err(validated.error);
      }
      var newLines := Generate(lines, items, masterListLines, validated.value, input, template, freshId);
      ghost var before := lines;
      var i := 0;
      while i < |newLines|
        invariant 0 <= i <= |newLines|
        invariant lines == UpsertLines(before, newLines[..i])
        invariant unchanged(this`invoices, this`items, this`masterLists, this`masterListLines)
      {
        assert newLines[..i + 1][..i] == newLines[..i];
        lines := lines[newLines[i].id := newLines[i]];
        i := i + 1;
      }
      assert newLines[..i] == newLines;
      r := Ok(LinesOfInvoice(lines, input.shipmentId));
    }
  }

  /** The shipments of the error test, reduced to what decides each answer. */
  function TestInvoices(): InvoiceTable
  {
    map[
      "inbound_shipment_a" := InvoiceRow("inbound_shipment_a", "store_a", None, Delivered, InboundShipment),
      "inbound_shipment_c" := InvoiceRow("inbound_shipment_c", "store_a", None, New, InboundShipment),
      "outbound_shipment_c" := InvoiceRow("outbound_shipment_c", "store_c", None, New, OutboundShipment)
    ]
  }

  /** The answers of the error test, in its order. */
  lemma ValidateErrorExamples()
    ensures Validate(TestInvoices(), [], "store_a", AddToShipmentFromMasterListInput("invalid", "n/a"))
            == Err(ShipmentDoesNotExist)
    ensures Validate(TestInvoices(), [], "store_a", AddToShipmentFromMasterListInput("inbound_shipment_a", "n/a"))
            == Err(CannotEditShipment)
    ensures Validate(TestInvoices(), [MasterList("not_store_a", "not_store_a", {"store_b"}, {})], "store_a",
                     AddToShipmentFromMasterListInput("inbound_shipment_c", "not_store_a"))
            == Err(MasterListNotFoundForThisStore)
    ensures Validate(TestInvoices(), [], "store_c", AddToShipmentFromMasterListInput("inbound_shipment_c", "n/a"))
            == Err(NotThisStoreShipment)
    ensures Validate(TestInvoices(), [], "store_c", AddToShipmentFromMasterListInput("outbound_shipment_c", "n/a"))
            == Err(NotAnInboundShipment)
  {
  }
}
