/**
 * The GraphQL mutation that updates an inbound shipment line: the input's conversion to the
 * service input, and the mapping of the service's errors to structured GraphQL errors or to
 * standard GraphQL errors.
 */
module InboundLineUpdateApi {
  import opened Wrappers
  import opened Repository
  import opened InvoiceRows

  datatype TaxInput = TaxInput(percentage: Option<real>)

  datatype ShipmentTaxUpdate = ShipmentTaxUpdate(percentage: Option<real>)

  /** `UpdateInboundShipmentLineInput`; dates are day numbers, `u32` counts are naturals. */
  datatype UpdateInput = UpdateInput(
    id: string,
    itemId: Option<string>,
    locationId: Option<string>,
    packSize: Option<nat>,
    batch: Option<string>,
    costPricePerPack: Option<real>,
    sellPricePerPack: Option<real>,
    expiryDate: Option<int>,
    numberOfPacks: Option<nat>,
    totalBeforeTax: Option<real>,
    tax: Option<TaxInput>)

  /** The service's `UpdateInboundShipmentLine`. */
  datatype ServiceInput = ServiceInput(
    id: string,
    itemId: Option<string>,
    locationId: Option<string>,
    packSize: Option<nat>,
    batch: Option<string>,
    expiryDate: Option<int>,
    sellPricePerPack: Option<real>,
    costPricePerPack: Option<real>,
    numberOfPacks: Option<nat>,
    totalBeforeTax: Option<real>,
    tax: Option<ShipmentTaxUpdate>)

  /** `UpdateInput::to_domain`: every field copied, the tax percentage carried over. */
  function ToDomain(input: UpdateInput): (r: ServiceInput)
    ensures r.id == input.id && r.itemId == input.itemId && r.locationId == input.locationId
    ensures r.packSize == input.packSize && r.batch == input.batch && r.expiryDate == input.expiryDate
    ensures r.sellPricePerPack == input.sellPricePerPack && r.costPricePerPack == input.costPricePerPack
    ensures r.numberOfPacks == input.numberOfPacks && r.totalBeforeTax == input.totalBeforeTax
    ensures r.tax.None? <==> input.tax.None?
    ensures r.tax.Some? ==> r.tax.value.percentage == input.tax.value.percentage
  {
    ServiceInput(
      input.id, input.itemId, input.locationId, input.packSize, input.batch, input.expiryDate,
      input.sellPricePerPack, input.costPricePerPack, input.numberOfPacks, input.totalBeforeTax,
      match input.tax case Some(t) => Some(ShipmentTaxUpdate(t.percentage)) case None => None)
  }

  /** The GraphQL input a service input comes from: the inverse of `ToDomain`. */
  function FromDomain(s: ServiceInput): (r: UpdateInput)
    ensures r.id == s.id && r.itemId == s.itemId && r.locationId == s.locationId
    ensures r.packSize == s.packSize && r.batch == s.batch && r.expiryDate == s.expiryDate
    ensures r.sellPricePerPack == s.sellPricePerPack && r.costPricePerPack == s.costPricePerPack
    ensures r.numberOfPacks == s.numberOfPacks && r.totalBeforeTax == s.totalBeforeTax
    ensures r.tax.None? <==> s.tax.None?
    ensures r.tax.Some? ==> r.tax.value.percentage == s.tax.value.percentage
  {
    UpdateInput(
      s.id, s.itemId, s.locationId, s.packSize, s.batch, s.costPricePerPack, s.sellPricePerPack,
      s.expiryDate, s.numberOfPacks, s.totalBeforeTax,
      match s.tax case Some(t) => Some(TaxInput(t.percentage)) case None => None)
  }

  /** The conversion loses nothing: it is a bijection between the two input shapes. */
  lemma ToDomainRoundTrips(input: UpdateInput, s: ServiceInput)
    ensures FromDomain(ToDomain(input)) == input
    ensures ToDomain(FromDomain(s)) == s
  {
  }

  /** `UpdateInboundShipmentLineError`, the service's errors. */
  datatype ServiceError =
    | LineDoesNotExist
    | InvoiceDoesNotExist
    | CannotEditFinalised
    | BatchIsReserved
    | NotThisStoreInvoice
    | NotAnInboundShipment
    | NumberOfPacksBelowOne
    | NotThisInvoiceLine(invoiceId: string)
    | PackSizeBelowOne
    | LocationDoesNotExist
    | ItemNotFound
    | DatabaseError(error: RepositoryError)
    | UpdatedLineDoesNotExist

  datatype ForeignKey = InvoiceId

  /** The structured errors of the mutation's error interface. */
  datatype UpdateErrorInterface =
    | ForeignKeyError(key: ForeignKey)
    | RecordNotFound
    | CannotEditInvoice
    | NotAnInboundShipmentError
    | BatchIsReservedError

  /** The standard GraphQL errors the mutation can fail with, each carrying the error's debug text. */
  datatype StandardGraphqlError = BadUserInput(message: string) | InternalError(message: string)

  /** The service errors caused by the caller's input, reported as bad user input. */
  predicate IsBadUserInput(e: ServiceError)
  {
    e.NotThisStoreInvoice? || e.NotAnInboundShipment? || e.NumberOfPacksBelowOne? || e.NotThisInvoiceLine?
    || e.PackSizeBelowOne? || e.LocationDoesNotExist? || e.ItemNotFound?
  }

  /**
   * `map_error`: four errors become structured errors; the others fail the request with a
   * standard error carrying `debug(error)`, the pretty debug text of the service error.
   */
  function MapError(error: ServiceError, debug: ServiceError -> string): (r: Result<UpdateErrorInterface, StandardGraphqlError>)
    ensures r.Ok? <==> error in {LineDoesNotExist, InvoiceDoesNotExist, CannotEditFinalised, BatchIsReserved}
    ensures error == LineDoesNotExist ==> r == Ok(RecordNotFound)
    ensures error == InvoiceDoesNotExist ==> r == Ok(ForeignKeyError(InvoiceId))
    ensures error == CannotEditFinalised ==> r == Ok(CannotEditInvoice)
    ensures error == BatchIsReserved ==> r == Ok(BatchIsReservedError)
    ensures IsBadUserInput(error) <==> r == Err(BadUserInput(debug(error)))
    ensures error.DatabaseError? || error == UpdatedLineDoesNotExist <==> r == Err(InternalError(debug(error)))
  {
    var formattedError := debug(error);
    match error
    case LineDoesNotExist => Ok(RecordNotFound)
    case InvoiceDoesNotExist => Ok(ForeignKeyError(InvoiceId))
    case CannotEditFinalised => Ok(CannotEditInvoice)
    case BatchIsReserved => Ok(BatchIsReservedError)
    case NotThisStoreInvoice => Err(BadUserInput(formattedError))
    case NotAnInboundShipment => Err(BadUserInput(formattedError))
    case NumberOfPacksBelowOne => Err(BadUserInput(formattedError))
    case NotThisInvoiceLine(_) => Err(BadUserInput(formattedError))
    case PackSizeBelowOne => Err(BadUserInput(formattedError))
    case LocationDoesNotExist => Err(BadUserInput(formattedError))
    case ItemNotFound => Err(BadUserInput(formattedError))
    case DatabaseError(_) => Err(InternalError(formattedError))
    case UpdatedLineDoesNotExist => Err(InternalError(formattedError))
  }

  /**
   * The interface's `NotAnInboundShipment` member is never produced: the service error of that
   * name is reported as bad user input instead.
   */
  lemma NotAnInboundShipmentIsNeverStructured(error: ServiceError, debug: ServiceError -> string)
    ensures MapError(error, debug) != Ok(NotAnInboundShipmentError)
    ensures MapError(NotAnInboundShipment, debug).Err?
  {
  }

  datatype UpdateResponse = Error(error: UpdateErrorInterface) | Response(line: InvoiceLine)

  /** `map_response`: a line is the response, a structured error the error response, the rest fail. */
  function MapResponse(from: Result<InvoiceLine, ServiceError>, debug: ServiceError -> string)
    : (r: Result<UpdateResponse, StandardGraphqlError>)
    ensures from.Ok? ==> r == Ok(Response(from.value))
    ensures from.Err? && MapError(from.error, debug).Ok? ==> r == Ok(Error(MapError(from.error, debug).value))
    ensures from.Err? && MapError(from.error, debug).Err? ==> r == Err(MapError(from.error, debug).error)
  {
    match from
    case Ok(line) => Ok(Response(line))
    case Err(error) =>
      match MapError(error, debug)
      case Ok(e) => Ok(Error(e))
      case Err(e) => Err(e)
  }
}
