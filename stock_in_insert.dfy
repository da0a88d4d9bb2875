/**
 * Inserting a stock-in line (a line of an inbound shipment or inbound return): validation, then
 * one transaction that writes the new batch if any, the line, and the invoice's user update if
 * any, and reads the line back.
 */
module StockInInsert {
  import opened Wrappers
  import opened Repository
  import opened InvoiceRows

  datatype StockInType = InboundShipment | InboundReturn

  /** `StockInType::to_domain`: the invoice type a stock-in line belongs to. */
  function StockInTypeToDomain(t: StockInType): (r: InvoiceType)
    ensures r == InvoiceType.InboundShipment || r == InvoiceType.InboundReturn
  {
    match t
    case InboundShipment => InvoiceType.InboundShipment
    case InboundReturn => InvoiceType.InboundReturn
  }

  /** Distinct stock-in types stand for distinct invoice types. */
  lemma StockInTypeToDomainInjective(a: StockInType, b: StockInType)
    ensures StockInTypeToDomain(a) == StockInTypeToDomain(b) <==> a == b
  {
  }

  /**
   * The insert input. `location` is the nullable update: None leaves it unset, Some(None) clears
   * it, Some(Some(id)) names a location. Expiry date and the tax fields are not followed.
   */
  datatype InsertStockInLine = InsertStockInLine(
    id: string,
    invoiceId: string,
    itemId: string,
    location: Option<Option<string>>,
    packSize: nat,
    batch: Option<string>,
    note: Option<string>,
    costPricePerPack: real,
    sellPricePerPack: real,
    numberOfPacks: real,
    stockInType: StockInType)

  /**
   * The input every field of which takes its default, as the tests start from. The default of the
   * stock-in type is `InboundReturn`: the tests insert into inbound returns without setting it.
   */
  function DefaultInput(): InsertStockInLine
  {
    InsertStockInLine("", "", "", None, 0, None, None, 0.0, 0.0, 0.0, StockInType.InboundReturn)
  }

  datatype InsertStockInLineError =
    | LineAlreadyExists
    | DatabaseError(error: RepositoryError)
    | InvoiceDoesNotExist
    | NotAStockIn
    | NotThisStoreInvoice
    | CannotEditFinalised
    | LocationDoesNotExist
    | ItemNotFound
    | PackSizeBelowOne
    | NumberOfPacksBelowOne
    | NewlyCreatedLineDoesNotExist

  /** The location part of the input names a location of this store, or no location at all. */
  predicate LocationExists(locations: map<string, LocationRow>, storeId: string, location: Option<Option<string>>)
  {
    match location
    case Some(Some(id)) => id in locations && locations[id].storeId == storeId
    case _ => true
  }

  /**
   * The validation of the insert, in the order its tests exercise: the line id, pack size, number
   * of packs, item, location, invoice, then the invoice's store, type and editability.
   */
  function Validate(lines: map<string, InvoiceLineRow>, invoices: map<string, InvoiceRow>, items: map<string, ItemRow>,
                    locations: map<string, LocationRow>, isEditable: InvoiceRow -> bool, storeId: string,
                    input: InsertStockInLine): (r: Result<(ItemRow, InvoiceRow), InsertStockInLineError>)
    ensures r == Err(LineAlreadyExists) <==> input.id in lines
    ensures r == Err(PackSizeBelowOne) <==> input.id !in lines && input.packSize < 1
    ensures r == Err(NumberOfPacksBelowOne) <==> input.id !in lines && input.packSize >= 1 && input.numberOfPacks < 1.0
    ensures r.Ok? <==>
      (&& input.id !in lines && input.packSize >= 1 && input.numberOfPacks >= 1.0
       && input.itemId in items && LocationExists(locations, storeId, input.location)
       && input.invoiceId in invoices
       && invoices[input.invoiceId].storeId == storeId
       && invoices[input.invoiceId].invoiceType == StockInTypeToDomain(input.stockInType)
       && isEditable(invoices[input.invoiceId]))
    ensures r.Ok? ==> r.value == (items[input.itemId], invoices[input.invoiceId])
    ensures r.Err? ==> !r.error.DatabaseError? && r.error != NewlyCreatedLineDoesNotExist
  {
    if input.id in lines then Err(LineAlreadyExists)
    else if input.packSize < 1 then Err(PackSizeBelowOne)
    else if input.numberOfPacks < 1.0 then Err(NumberOfPacksBelowOne)
    else if input.itemId !in items then Err(ItemNotFound)
    else if !LocationExists(locations, storeId, input.location) then Err(LocationDoesNotExist)
    else if input.invoiceId !in invoices then Err(InvoiceDoesNotExist)
    else
      var invoice := invoices[input.invoiceId];
      if invoice.storeId != storeId then Err(NotThisStoreInvoice)
      else if invoice.invoiceType != StockInTypeToDomain(input.stockInType) then Err(NotAStockIn)
      else if !isEditable(invoice) then Err(CannotEditFinalised)
      else Ok((items[input.itemId], invoice))
  }

  /**
   * The pack-to-one store preference: a line of `n` packs of size `p` becomes `n * p` packs of
   * size one, each priced at a `p`-th of the pack price.
   */
  function PackToOne(line: InvoiceLineRow): (r: InvoiceLineRow)
    requires line.packSize >= 1
    ensures r.packSize == 1
    ensures r.numberOfPacks * r.packSize as real == line.numberOfPacks * line.packSize as real
    ensures r.sellPricePerPack * line.packSize as real == line.sellPricePerPack
    ensures r.costPricePerPack * line.packSize as real == line.costPricePerPack
    ensures r == line.(packSize := 1, numberOfPacks := r.numberOfPacks,
                       sellPricePerPack := r.sellPricePerPack, costPricePerPack := r.costPricePerPack)
  {
    line.(packSize := 1,
          numberOfPacks := line.numberOfPacks * line.packSize as real,
          sellPricePerPack := line.sellPricePerPack / line.packSize as real,
          costPricePerPack := line.costPricePerPack / line.packSize as real)
  }

  /** Converting to single units keeps the value of the line at both prices. */
  lemma PackToOneKeepsLineValue(line: InvoiceLineRow)
    requires line.packSize >= 1
    ensures PackToOne(line).sellPricePerPack * PackToOne(line).numberOfPacks
            == line.sellPricePerPack * line.numberOfPacks
    ensures PackToOne(line).costPricePerPack * PackToOne(line).numberOfPacks
            == line.costPricePerPack * line.numberOfPacks
  {
    var p := line.packSize as real;
    var n := line.numberOfPacks;
    assert line.sellPricePerPack / p * (n * p) == line.sellPricePerPack * n;
    assert line.costPricePerPack / p * (n * p) == line.costPricePerPack * n;
  }

  /** Converting a line already in single units changes nothing. */
  lemma PackToOneIdempotent(line: InvoiceLineRow)
    requires line.packSize >= 1
    ensures PackToOne(PackToOne(line)) == PackToOne(line)
  {
  }

  /** What `generate` yields: the invoice's user update if any, the new line, and the new batch if any. */
  datatype GeneratedStockIn = GeneratedStockIn(
    invoiceUserUpdate: Option<InvoiceRow>,
    newLine: InvoiceLineRow,
    newBatch: Option<StockLineRow>)

  /** The line as stored: converted to single units when the store prefers it. */
  function StoredLine(packToOne: bool, line: InvoiceLineRow): (r: InvoiceLineRow)
    ensures !packToOne || line.packSize < 1 ==> r == line
    ensures packToOne && line.packSize >= 1 ==> r.packSize == 1
  {
    if packToOne && line.packSize >= 1 then PackToOne(line) else line
  }

  /** The tables a stock-in insert reads and writes. */
  class StockInDatabase {
    var lines: map<string, InvoiceLineRow>
    var invoices: map<string, InvoiceRow>
    var batches: map<string, StockLineRow>
    const items: map<string, ItemRow>
    const locations: map<string, LocationRow>

    constructor (lines: map<string, InvoiceLineRow>, invoices: map<string, InvoiceRow>, batches: map<string, StockLineRow>,
                 items: map<string, ItemRow>, locations: map<string, LocationRow>)
      ensures this.lines == lines && this.invoices == invoices && this.batches == batches
      ensures this.items == items && this.locations == locations
    {
      this.lines := lines;
      this.invoices := invoices;
      this.batches := batches;
      this.items := items;
      this.locations := locations;
    }

    /**
     * `insert_stock_in_line`. The rows `generate` produces are the parameter `generate` (with
     * the pack-to-one preference `packToOne` applied to the line); a failed validation writes
     * nothing, and the read-back of the line written in the same transaction always succeeds.
     */
    method InsertStockInLine(storeId: string, input: InsertStockInLine, isEditable: InvoiceRow -> bool, packToOne: bool,
                             generate: (InsertStockInLine, ItemRow, InvoiceRow) -> GeneratedStockIn)
      returns (r: Result<InvoiceLineRow, InsertStockInLineError>)
      modifies this
      ensures var v := Validate(old(lines), old(invoices), items, locations, isEditable, storeId, input);
        && (v.Err? ==> r == Err(v.error) && unchanged(this))
        && (v.Ok? ==>
              var g := generate(input, v.value.0, v.value.1);
              var line := StoredLine(packToOne, g.newLine);
              && batches == (if g.newBatch.Some? then old(batches)[g.newBatch.value.id := g.newBatch.value] else old(batches))
              && lines == old(lines)[line.id := line]
              && invoices == (if g.invoiceUserUpdate.Some? then old(invoices)[g.invoiceUserUpdate.value.id := g.invoiceUserUpdate.value]
                              else old(invoices))
              && r == Ok(line))
    {
      var validated := Validate(lines, invoices, items, locations, isEditable, storeId, input);
      if validated.Err? {
        return Err(validated.error);
      }
      var (item, invoice) := validated.value;
      var generated := generate(input, item, invoice);
      var newLine := StoredLine(packToOne, generated.newLine);
      if generated.newBatch.Some? {
        batches := batches[generated.newBatch.value.id := generated.newBatch.value];
      }
      lines := lines[newLine.id := newLine];
      if generated.invoiceUserUpdate.Some? {
        invoices := invoices[generated.invoiceUserUpdate.value.id := generated.invoiceUserUpdate.value];
      }
      if newLine.id in lines {
        r := Ok(lines[newLine.id]);
      } else {
        r := Err(NewlyCreatedLineDoesNotExist);
      }
    }
  }

  /** The invoices of the error test, reduced to what decides each answer. */
  function TestInvoices(): map<string, InvoiceRow>
  {
    map[
      "verified_inbound_return" := InvoiceRow("verified_inbound_return", "store_a", None, Verified, InvoiceType.InboundReturn),
      "outbound_shipment_e" := InvoiceRow("outbound_shipment_e", "store_a", None, New, OutboundShipment),
      "inbound_return_a" := InvoiceRow("inbound_return_a", "store_b", None, New, InvoiceType.InboundReturn)
    ]
  }

  function TestLines(): map<string, InvoiceLineRow>
  {
    map["inbound_return_a_invoice_line_a" :=
      InvoiceLineRow("inbound_return_a_invoice_line_a", "inbound_return_a", "item_a", "Item A", "item_a_code",
                     None, None, StockIn, 1, 1.0, None, None, 0.0, 0.0)]
  }

  function TestItems(): map<string, ItemRow>
  {
    map["item_a" := ItemRow("item_a", "Item A", "item_a_code", Stock)]
  }

  /** The store's editable test as the tests rely on it: a verified invoice is not editable. */
  function NotVerified(invoice: InvoiceRow): bool
  {
    invoice.status != Verified
  }

  function ValidateInTest(storeId: string, input: InsertStockInLine): Result<(ItemRow, InvoiceRow), InsertStockInLineError>
  {
    Validate(TestLines(), TestInvoices(), TestItems(), map[], NotVerified, storeId, input)
  }

  /** The default input with the fields every later case of the error test sets. */
  function CompleteInput(invoiceId: string): InsertStockInLine
  {
    DefaultInput().(id := "new invoice line id", packSize := 1, numberOfPacks := 1.0, itemId := "item_a", invoiceId := invoiceId)
  }

  /**
   * The answers of the error test in store A, in its order, each input starting from the defaults;
   * then the two inserts of the success test in store B, and a fractional pack count below one.
   */
  lemma InsertStockInLineErrorExamples()
    ensures ValidateInTest("store_a", DefaultInput().(id := "inbound_return_a_invoice_line_a")) == Err(LineAlreadyExists)
    ensures ValidateInTest("store_a", DefaultInput().(id := "new invoice line id", packSize := 0)) == Err(PackSizeBelowOne)
    ensures ValidateInTest("store_a", DefaultInput().(id := "new invoice line id", packSize := 1, numberOfPacks := 0.0))
            == Err(NumberOfPacksBelowOne)
    ensures ValidateInTest("store_a", DefaultInput().(id := "new invoice line id", packSize := 1, numberOfPacks := 1.0,
                                                      itemId := "invalid"))
            == Err(ItemNotFound)
    ensures ValidateInTest("store_a", CompleteInput("").(location := Some(Some("invalid")))) == Err(LocationDoesNotExist)
    ensures ValidateInTest("store_a", CompleteInput("new invoice id")) == Err(InvoiceDoesNotExist)
    ensures ValidateInTest("store_a", CompleteInput("outbound_shipment_e")) == Err(NotAStockIn)
    ensures ValidateInTest("store_a", CompleteInput("verified_inbound_return")) == Err(CannotEditFinalised)
    ensures ValidateInTest("store_a", CompleteInput("inbound_return_a")) == Err(NotThisStoreInvoice)
    ensures ValidateInTest("store_b", DefaultInput().(id := "new_invoice_line_id", invoiceId := "inbound_return_a",
                                                      itemId := "item_a", packSize := 1, numberOfPacks := 1.0))
            == Ok((TestItems()["item_a"], TestInvoices()["inbound_return_a"]))
    ensures ValidateInTest("store_b", DefaultInput().(id := "new_invoice_line_pack_to_one", invoiceId := "inbound_return_a",
                                                      itemId := "item_a", packSize := 10, numberOfPacks := 20.0,
                                                      sellPricePerPack := 100.0))
            == Ok((TestItems()["item_a"], TestInvoices()["inbound_return_a"]))
    ensures ValidateInTest("store_b", DefaultInput().(id := "new_invoice_line_id", invoiceId := "inbound_return_a",
                                                      itemId := "item_a", packSize := 1, numberOfPacks := 0.5))
            == Err(NumberOfPacksBelowOne)
  {
  }

  /** The pack-to-one test: 20 packs of 10 at 100 become 200 packs of one at 10. */
  lemma PackToOneExample()
    ensures var line := InvoiceLineRow("new_invoice_line_pack_to_one", "inbound_return_a", "item_a", "Item A", "item_a_code",
                                       None, None, StockIn, 10, 20.0, None, None, 0.0, 100.0);
      && PackToOne(line).packSize == 1
      && PackToOne(line).numberOfPacks == 200.0
      && PackToOne(line).sellPricePerPack == 10.0
  {
  }
}
