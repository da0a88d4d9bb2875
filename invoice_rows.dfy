/**
 * The invoice-side rows the services read and write: invoices, invoice lines, stock lines (batches),
 * items, locations and master lists. Only the fields the modelled code reads or sets are kept;
 * the enums list the variants the modelled code and its tests name.
 */
module InvoiceRows {
  import opened Wrappers

  datatype InvoiceStatus = New | Allocated | Picked | Shipped | Delivered | Verified

  datatype InvoiceType =
    | OutboundShipment
    | InboundShipment
    | Prescription
    | InventoryAddition
    | InventoryReduction
    | Repack
    | InboundReturn
    | OutboundReturn

  datatype InvoiceRow = InvoiceRow(
    id: string,
    storeId: string,
    userId: Option<string>,
    status: InvoiceStatus,
    invoiceType: InvoiceType)

  datatype InvoiceLineType = StockIn | StockOut | UnallocatedStock | Service

  /** Pack counts and prices are the source's `f64`s, as reals without rounding; pack sizes are integers. */
  datatype InvoiceLineRow = InvoiceLineRow(
    id: string,
    invoiceId: string,
    itemId: string,
    itemName: string,
    itemCode: string,
    stockLineId: Option<string>,
    locationId: Option<string>,
    lineType: InvoiceLineType,
    packSize: int,
    numberOfPacks: real,
    batch: Option<string>,
    note: Option<string>,
    costPricePerPack: real,
    sellPricePerPack: real)

  datatype ItemType = Stock | NonStock | ServiceItem

  datatype ItemRow = ItemRow(id: string, name: string, code: string, itemType: ItemType)

  datatype LocationRow = LocationRow(id: string, name: string, storeId: string, onHold: bool)

  datatype StockLineRow = StockLineRow(
    id: string,
    itemId: string,
    storeId: string,
    locationId: Option<string>,
    packSize: int,
    availableNumberOfPacks: real,
    totalNumberOfPacks: real,
    onHold: bool)

  /** An invoice line joined with its item and, when it references one, its stock line. */
  datatype InvoiceLine = InvoiceLine(row: InvoiceLineRow, item: ItemRow, stockLine: Option<StockLineRow>)

  /** A stock line joined with its location, if any. */
  datatype StockLine = StockLine(row: StockLineRow, location: Option<LocationRow>)

  /**
   * A master list. The name-join tables that make a list visible to stores and names are
   * abstracted into the set of store ids and of name ids it is visible to.
   */
  datatype MasterList = MasterList(id: string, name: string, storeIds: set<string>, nameIds: set<string>)

  datatype MasterListLine = MasterListLine(id: string, itemId: string, masterListId: string)
}
