/** Validation before the lines of an inbound return are updated. */
module InboundReturnValidate {
  import opened Wrappers
  import opened InvoiceRows

  datatype UpdateInboundReturnLinesError =
    | ReturnDoesNotExist
    | ReturnDoesNotBelongToCurrentStore
    | ReturnIsNotEditable
    | NotAnInboundReturn

  /**
   * `validate`: the return must exist, belong to the store, be editable (the helper
   * `isEditable`) and be an inbound return, checked in that order.
   */
  function Validate(invoices: map<string, InvoiceRow>, isEditable: InvoiceRow -> bool, storeId: string, id: string)
    : (r: Result<(), UpdateInboundReturnLinesError>)
    ensures r == Err(ReturnDoesNotExist) <==> id !in invoices
    ensures r == Err(ReturnDoesNotBelongToCurrentStore) <==> id in invoices && invoices[id].storeId != storeId
    ensures r == Err(ReturnIsNotEditable) <==>
      id in invoices && invoices[id].storeId == storeId && !isEditable(invoices[id])
    ensures r == Err(NotAnInboundReturn) <==>
      (&& id in invoices && invoices[id].storeId == storeId && isEditable(invoices[id])
       && invoices[id].invoiceType != InboundReturn)
    ensures r.Ok? <==>
      (&& id in invoices && invoices[id].storeId == storeId && isEditable(invoices[id])
       && invoices[id].invoiceType == InboundReturn)
  {
    if id !in invoices then Err(ReturnDoesNotExist)
    else
      var returnRow := invoices[id];
      if returnRow.storeId != storeId then Err(ReturnDoesNotBelongToCurrentStore)
      else if !isEditable(returnRow) then Err(ReturnIsNotEditable)
      else if returnRow.invoiceType != InboundReturn then Err(NotAnInboundReturn)
      else Ok(())
  }

  /** Only the stored return decides the answer: another invoice under another id changes nothing. */
  lemma ValidateLooksOnlyAtTheReturn(invoices: map<string, InvoiceRow>, isEditable: InvoiceRow -> bool,
                                     storeId: string, id: string, other: InvoiceRow)
    requires other.id != id
    ensures Validate(invoices[other.id := other], isEditable, storeId, id) == Validate(invoices, isEditable, storeId, id)
  {
  }
}
