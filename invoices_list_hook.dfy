/** useInvoicesList: the invoices fetched for the dashboard and the selected
    tab. */
module InvoicesListHook {
  import opened JsModel
  import opened InvoiceTypes
  import opened InvoiceFilters

  class ListState {
    var invoicesList: seq<Invoice>
    var activeTab: InvoiceFilter

    constructor()
      ensures invoicesList == [] && activeTab == All
    {
      invoicesList := [];
      activeTab := All;
    }

    /** fetchInvoices. `response` is the server's answer: the `invoices` of
        the response body, or the failure, which the hook does not catch and
        which leaves the list as it was. */
    method FetchInvoices(response: Response<seq<Invoice>>)
      modifies this`invoicesList
      ensures response.Ok? ==> invoicesList == response.value
      ensures response.Failed? ==> invoicesList == old(invoicesList)
    {
      if response.Ok? {
        invoicesList := response.value;
      }
    }

    /** setActiveTab: only the tab changes, never the list. */
    method SetActiveTab(f: InvoiceFilter)
      modifies this`activeTab
      ensures activeTab == f
    {
      activeTab := f;
    }

    /** filteredInvoices: the invoices of the active tab, in list order. */
    function FilteredInvoices(): (r: seq<Invoice>)
      reads this
      ensures activeTab == All ==> r == invoicesList
      ensures forall i :: 0 <= i < |r| ==> r[i] in invoicesList
      ensures activeTab == Open ==> forall i :: 0 <= i < |r| ==> !r[i].paid
      ensures activeTab == Open ==> forall i :: 0 <= i < |invoicesList| && !invoicesList[i].paid ==> invoicesList[i] in r
      ensures activeTab == Past ==> forall i :: 0 <= i < |r| ==> r[i].paid
      ensures activeTab == Past ==> forall i :: 0 <= i < |invoicesList| && invoicesList[i].paid ==> invoicesList[i] in r
      ensures |r| == InvoiceCount(invoicesList, activeTab)
    {
      FilterInvoices(invoicesList, activeTab)
    }
  }
}
