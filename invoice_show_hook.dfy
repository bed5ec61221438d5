/** useInvoiceShow: the invoice shown on its own page and the three actions on
    it (mark as paid, finalize, delete). Each action is one request; its
    response is a parameter of the method that models the action. */
module InvoiceShowHook {
  import opened JsModel
  import opened InvoiceTypes
  import opened InvoiceTotals

  /** The `invoice` body of an update request: the id and the one flag set. */
  datatype InvoiceUpdate = InvoiceUpdate(id: int, paid: Option<bool>, finalized: Option<bool>)

  /** markPaid's guard `!invoice || updating || invoice.paid`, negated. */
  predicate MarkPaidAllowed(invoice: Option<Invoice>, updating: bool) {
    invoice.Some? && !updating && !invoice.value.paid
  }

  /** finalizeInvoice's guard `!invoice || updating || invoice.finalized`, negated. */
  predicate FinalizeAllowed(invoice: Option<Invoice>, updating: bool) {
    invoice.Some? && !updating && !invoice.value.finalized
  }

  /** deleteInvoice's guards: an invoice, no update in flight, and the user
      confirmed the dialog. */
  predicate DeleteAllowed(invoice: Option<Invoice>, updating: bool, confirmed: bool) {
    invoice.Some? && !updating && confirmed
  }

  /** The totals the page shows: {0, 0} without an invoice, the calculator's
      result otherwise. */
  function ShownTotals(invoice: Option<Invoice>, nums: Numerics): (t: Totals)
    ensures invoice.None? ==> t == Totals(Finite(0.0), Finite(0.0))
    ensures invoice.Some? ==> t == CalcInvoiceTotals(FromInvoice(invoice.value), nums)
  {
    if invoice.Some? then CalcInvoiceTotals(FromInvoice(invoice.value), nums)
    else Totals(Finite(0.0), Finite(0.0))
  }

  class ShowState {
    var invoice: Option<Invoice>
    var loading: bool
    var updating: bool
    var error: Option<string>

    /** An update is only ever in flight for a loaded invoice. */
    predicate Valid()
      reads this
    {
      updating ==> invoice.Some?
    }

    constructor()
      ensures Valid()
      ensures invoice.None? && loading && !updating && error.None?
    {
      invoice := None;
      loading := true;
      updating := false;
      error := None;
    }

    /** fetchInvoice. `routeId` is the `:id` route parameter. */
    method FetchInvoice(routeId: Option<string>, response: Response<Invoice>)
      requires Valid()
      modifies this`invoice, this`loading, this`error
      ensures Valid()
      ensures routeId.None? || routeId.value == "" ==>
        invoice == old(invoice) && loading == old(loading) && error == old(error)
      ensures routeId.Some? && routeId.value != "" ==> !loading
      ensures routeId.Some? && routeId.value != "" && response.Ok? ==>
        invoice == Some(response.value) && error.None?
      ensures routeId.Some? && routeId.value != "" && response.Failed? ==>
        invoice == old(invoice) && error == Some(ErrorText(response.message, "Failed to load invoice"))
    {
      if routeId.None? || routeId.value == "" {
        return;
      }
      loading := true;
      error := None;
      match response {
        case Ok(inv) =>
          invoice := Some(inv);
        case Failed(message) =>
          error := Some(ErrorText(message, "Failed to load invoice"));
      }
      loading := false;
    }

    /** markPaid. `sent` is the request body, when one is sent. */
    method MarkPaid(response: Response<Invoice>) returns (sent: Option<InvoiceUpdate>)
      requires Valid()
      modifies this`invoice, this`updating, this`error
      ensures Valid()
      ensures !MarkPaidAllowed(old(invoice), old(updating)) ==>
        sent.None? && invoice == old(invoice) && updating == old(updating) && error == old(error)
      ensures MarkPaidAllowed(old(invoice), old(updating)) ==>
        sent == Some(InvoiceUpdate(old(invoice).value.id, Some(true), None)) && !updating
      ensures MarkPaidAllowed(old(invoice), old(updating)) && response.Ok? ==>
        invoice == Some(response.value) && error.None?
      ensures MarkPaidAllowed(old(invoice), old(updating)) && response.Failed? ==>
        invoice == old(invoice) && error == Some(ErrorText(response.message, "Failed to mark as paid"))
    {
      if !MarkPaidAllowed(invoice, updating) {
        return None;
      }
      updating := true;
      error := None;
      sent := Some(InvoiceUpdate(invoice.value.id, Some(true), None));
      match response {
        case Ok(inv) =>
          invoice := Some(inv);
        case Failed(message) =>
          error := Some(ErrorText(message, "Failed to mark as paid"));
      }
      updating := false;
    }

    /** finalizeInvoice. `sent` is the request body, when one is sent. */
    method FinalizeInvoice(response: Response<Invoice>) returns (sent: Option<InvoiceUpdate>)
      requires Valid()
      modifies this`invoice, this`updating, this`error
      ensures Valid()
      ensures !FinalizeAllowed(old(invoice), old(updating)) ==>
        sent.None? && invoice == old(invoice) && updating == old(updating) && error == old(error)
      ensures FinalizeAllowed(old(invoice), old(updating)) ==>
        sent == Some(InvoiceUpdate(old(invoice).value.id, None, Some(true))) && !updating
      ensures FinalizeAllowed(old(invoice), old(updating)) && response.Ok? ==>
        invoice == Some(response.value) && error.None?
      ensures FinalizeAllowed(old(invoice), old(updating)) && response.Failed? ==>
        invoice == old(invoice) && error == Some(ErrorText(response.message, "Failed to finalize invoice"))
    {
      if !FinalizeAllowed(invoice, updating) {
        return None;
      }
      updating := true;
      error := None;
      sent := Some(InvoiceUpdate(invoice.value.id, None, Some(true)));
      match response {
        case Ok(inv) =>
          invoice := Some(inv);
        case Failed(message) =>
          error := Some(ErrorText(message, "Failed to finalize invoice"));
      }
      updating := false;
    }

    /** deleteInvoice. `confirmed` is the user's answer to the confirmation
        dialog; `deleted` the id whose deletion was requested. On success the
        page navigates home and `updating` is left set. */
    method DeleteInvoice(confirmed: bool, response: Response<()>) returns (deleted: Option<int>, navigateTo: Option<Route>)
      requires Valid()
      modifies this`updating, this`error
      ensures Valid()
      ensures !DeleteAllowed(invoice, old(updating), confirmed) ==>
        deleted.None? && navigateTo.None? && updating == old(updating) && error == old(error)
      ensures DeleteAllowed(invoice, old(updating), confirmed) ==> deleted == Some(invoice.value.id)
      ensures DeleteAllowed(invoice, old(updating), confirmed) && response.Ok? ==>
        navigateTo == Some(Home) && updating && error.None?
      ensures DeleteAllowed(invoice, old(updating), confirmed) && response.Failed? ==>
        navigateTo.None? && !updating && error == Some(ErrorText(response.message, "Failed to delete invoice"))
    {
      if !DeleteAllowed(invoice, updating, confirmed) {
        return None, None;
      }
      updating := true;
      error := None;
      deleted := Some(invoice.value.id);
      match response {
        case Ok(_) =>
          navigateTo := Some(Home);
        case Failed(message) =>
          error := Some(ErrorText(message, "Failed to delete invoice"));
          updating := false;
          navigateTo := None;
      }
    }
  }
}
