/** The dashboard page: one tab per filter with its count, and the Prev/Next
    pagination buttons. The page number and the server's pagination record
    are inputs here. */
module InvoicesListView {
  import opened InvoiceTypes
  import opened InvoiceFilters

  /** The server's pagination record. */
  datatype Pagination = Pagination(page: int, pageSize: int, totalPages: int, totalEntries: int)

  /** One tab: its filter, label, count and the invoices it renders. */
  datatype Tab = Tab(filter: InvoiceFilter, labelText: string, count: nat, content: seq<Invoice>)

  /** The Prev button's target `Math.max(1, page - 1)`. */
  function PrevTarget(page: int): (r: int)
    ensures r >= 1
    ensures page > 1 ==> r == page - 1
    ensures page <= 1 ==> r == 1
  {
    if page - 1 > 1 then page - 1 else 1
  }

  predicate PrevDisabled(page: int) {
    page <= 1
  }

  /** The Next button's target: one page on while the server reports more
      pages, the same page otherwise. */
  function NextTarget(page: int, p: Pagination): (r: int)
    ensures p.page < p.totalPages ==> r == page + 1
    ensures p.page >= p.totalPages ==> r == page
  {
    if p.page < p.totalPages then page + 1 else page
  }

  predicate NextDisabled(p: Pagination) {
    p.page >= p.totalPages
  }

  /** The three tabs. Counts come from the whole list; every tab renders the
      same `filtered` list, the one of the active tab. */
  function Tabs(invoicesList: seq<Invoice>, filtered: seq<Invoice>): (ts: seq<Tab>)
    ensures |ts| == 3
    ensures ts[0] == Tab(All, FilterLabel(All), InvoiceCount(invoicesList, All), filtered)
    ensures ts[1] == Tab(Open, FilterLabel(Open), InvoiceCount(invoicesList, Open), filtered)
    ensures ts[2] == Tab(Past, FilterLabel(Past), InvoiceCount(invoicesList, Past), filtered)
  {
    [Tab(All, "All Invoices", InvoiceCount(invoicesList, All), filtered),
     Tab(Open, "Open Invoices", InvoiceCount(invoicesList, Open), filtered),
     Tab(Past, "Past Invoices", InvoiceCount(invoicesList, Past), filtered)]
  }

  // ---- Properties ----

  /** An enabled Prev button moves one page back, an enabled Next button one
      page on; a disabled Next button would leave the page as it is. */
  lemma EnabledButtonsMoveOnePage(page: int, p: Pagination)
    ensures !PrevDisabled(page) ==> PrevTarget(page) == page - 1
    ensures !NextDisabled(p) ==> NextTarget(page, p) == page + 1
    ensures NextDisabled(p) ==> NextTarget(page, p) == page
  {
  }

  /** Next then Prev comes back to the same page, and so does Prev then Next
      when the server's record follows the page. */
  lemma PrevNextRoundTrip(page: int, p: Pagination)
    requires p.page == page && 1 <= page
    ensures page < p.totalPages ==> PrevTarget(NextTarget(page, p)) == page
    ensures 1 < page <= p.totalPages ==>
      NextTarget(PrevTarget(page), p.(page := PrevTarget(page))) == page
  {
  }

  /** On page 1 of 3 (25 entries), Prev is disabled and Next goes to page 2;
      on page 3 of 3, Next is disabled and Prev goes to page 2. */
  lemma FirstAndLastPageExample()
    ensures PrevDisabled(1) && NextTarget(1, Pagination(1, 10, 3, 25)) == 2
    ensures NextDisabled(Pagination(3, 10, 3, 25)) && PrevTarget(3) == 2
  {
  }

  /** The Open and Past counts add up to the All count. */
  lemma TabCountsAddUp(invoicesList: seq<Invoice>, filtered: seq<Invoice>)
    ensures Tabs(invoicesList, filtered)[1].count + Tabs(invoicesList, filtered)[2].count
         == Tabs(invoicesList, filtered)[0].count
    ensures Tabs(invoicesList, filtered)[0].count == |invoicesList|
  {
    OpenAndPastPartition(invoicesList);
  }
}
