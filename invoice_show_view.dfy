/** The invoice page's status badge and the enable/visibility rules of its
    four action buttons (Edit, Delete, Finalize, Mark as Paid). An invoice
    moves Draft -> Finalized -> Paid. */
module InvoiceShowView {
  import opened JsModel
  import opened InvoiceTypes
  import opened InvoiceShowHook

  /** The status badge's text. */
  function Badge(inv: Invoice): (r: string)
    ensures r == "DRAFT" <==> !inv.finalized
    ensures r == "FINALIZED" <==> inv.finalized && !inv.paid
    ensures r == "PAID" <==> inv.finalized && inv.paid
  {
    if inv.finalized then (if inv.paid then "PAID" else "FINALIZED") else "DRAFT"
  }

  /** The action bar is rendered once the invoice is loaded. */
  predicate ActionBarShown(invoice: Option<Invoice>, loading: bool) {
    invoice.Some? && !loading
  }

  /** The Edit and Delete buttons are rendered for a draft that is not paid. */
  predicate DraftActionsVisible(inv: Invoice) {
    !inv.finalized && !inv.paid
  }

  /** Edit and Delete are disabled while an update is in flight. */
  predicate DraftActionsDisabled(updating: bool) {
    updating
  }

  function DeleteLabel(updating: bool): (r: string)
    ensures r == "Deleting..." <==> updating
    ensures r == "Delete Invoice" <==> !updating
  {
    if updating then "Deleting..." else "Delete Invoice"
  }

  predicate FinalizeDisabled(inv: Invoice, updating: bool) {
    inv.finalized || updating
  }

  function FinalizeLabel(inv: Invoice, updating: bool): (r: string)
    ensures r == "Finalized" <==> inv.finalized
    ensures r == "Finalizing..." <==> !inv.finalized && updating
    ensures r == "Finalize Invoice" <==> !inv.finalized && !updating
  {
    if inv.finalized then "Finalized" else if updating then "Finalizing..." else "Finalize Invoice"
  }

  predicate MarkPaidDisabled(inv: Invoice, updating: bool) {
    inv.paid || updating || !inv.finalized
  }

  function MarkPaidLabel(inv: Invoice, updating: bool): (r: string)
    ensures r == "Paid" <==> inv.paid
    ensures r == "Marking..." <==> !inv.paid && updating
    ensures r == "Mark as Paid" <==> !inv.paid && !updating
  {
    if inv.paid then "Paid" else if updating then "Marking..." else "Mark as Paid"
  }

  // ---- Properties ----

  /** The Finalize button is enabled exactly when finalizeInvoice's guard lets
      the request through. */
  lemma FinalizeEnabledIffHookAccepts(inv: Invoice, updating: bool)
    ensures !FinalizeDisabled(inv, updating) <==> FinalizeAllowed(Some(inv), updating)
  {
  }

  /** An enabled Mark as Paid button always passes markPaid's guard ... */
  lemma MarkPaidEnabledPassesGuard(inv: Invoice, updating: bool)
    ensures !MarkPaidDisabled(inv, updating) ==> MarkPaidAllowed(Some(inv), updating)
  {
  }

  /** ... but the guard alone does not require a finalized invoice: the hook
      would mark an unpaid draft as paid, which only the disabled button
      prevents. */
  lemma HookAcceptsUnpaidDraft(inv: Invoice)
    requires !inv.finalized && !inv.paid
    ensures MarkPaidAllowed(Some(inv), false) && MarkPaidDisabled(inv, false)
  {
  }

  /** An enabled Delete button passes deleteInvoice's guard once confirmed. */
  lemma DeleteEnabledPassesGuard(inv: Invoice, updating: bool)
    requires DraftActionsVisible(inv) && !DraftActionsDisabled(updating)
    ensures DeleteAllowed(Some(inv), updating, true)
    ensures !DeleteAllowed(Some(inv), updating, false)
  {
  }

  /** On a finalized, paid invoice no action is available. */
  lemma NoActionWhenPaid(inv: Invoice, updating: bool)
    requires inv.finalized && inv.paid
    ensures !DraftActionsVisible(inv)
    ensures FinalizeDisabled(inv, updating) && MarkPaidDisabled(inv, updating)
    ensures Badge(inv) == "PAID"
  {
  }

  /** While an update is in flight every visible action is disabled. */
  lemma UpdatingDisablesAll(inv: Invoice)
    ensures DraftActionsDisabled(true) && FinalizeDisabled(inv, true) && MarkPaidDisabled(inv, true)
  {
  }

  /** The action bar exists only for a loaded invoice, so while the page is
      loading no button is offered, and every button the bar shows enabled
      is one whose request the hook sends. */
  lemma ShownButtonsActOnLoadedInvoice(invoice: Option<Invoice>, loading: bool, updating: bool)
    ensures !ActionBarShown(invoice, true)
    ensures ActionBarShown(invoice, loading) && !FinalizeDisabled(invoice.value, updating) ==>
      FinalizeAllowed(invoice, updating)
    ensures ActionBarShown(invoice, loading) && !MarkPaidDisabled(invoice.value, updating) ==>
      MarkPaidAllowed(invoice, updating)
    ensures (ActionBarShown(invoice, loading) && DraftActionsVisible(invoice.value) &&
             !DraftActionsDisabled(updating)) ==> DeleteAllowed(invoice, updating, true)
  {
  }
}
