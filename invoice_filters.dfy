/** The dashboard's three tabs: all invoices, the open (unpaid) ones and the
    past (paid) ones, with their labels and counts. */
module InvoiceFilters {
  import opened InvoiceTypes
  import opened Seqs

  datatype InvoiceFilter = All | Open | Past

  predicate IsUnpaid(inv: Invoice) { !inv.paid }

  predicate IsPaid(inv: Invoice) { inv.paid }

  /** filterInvoices */
  function FilterInvoices(xs: seq<Invoice>, f: InvoiceFilter): (r: seq<Invoice>)
    ensures f == All ==> r == xs
    ensures f == Open ==> forall i :: 0 <= i < |r| ==> r[i] in xs && !r[i].paid
    ensures f == Open ==> forall i :: 0 <= i < |xs| && !xs[i].paid ==> xs[i] in r
    ensures f == Past ==> forall i :: 0 <= i < |r| ==> r[i] in xs && r[i].paid
    ensures f == Past ==> forall i :: 0 <= i < |xs| && xs[i].paid ==> xs[i] in r
  {
    match f
    case All => xs
    case Open => Filter(xs, IsUnpaid)
    case Past => Filter(xs, IsPaid)
  }

  /** getInvoiceFilterLabel */
  function FilterLabel(f: InvoiceFilter): (r: string)
    ensures r == "All Invoices" <==> f == All
    ensures r == "Open Invoices" <==> f == Open
    ensures r == "Past Invoices" <==> f == Past
  {
    match f
    case All => "All Invoices"
    case Open => "Open Invoices"
    case Past => "Past Invoices"
  }

  /** getInvoiceCount */
  function InvoiceCount(xs: seq<Invoice>, f: InvoiceFilter): (r: nat)
    ensures r <= |xs|
    ensures f == All ==> r == |xs|
  {
    |FilterInvoices(xs, f)|
  }

  // ---- Properties ----

  /** Every tab shows its invoices in the order of the full list. */
  lemma FilterKeepsOrder(xs: seq<Invoice>, f: InvoiceFilter)
    ensures SubseqOf(FilterInvoices(xs, f), xs)
  {
    match f
    case All => SubseqOfSelf(xs);
    case Open => FilterIsSubsequence(xs, IsUnpaid);
    case Past => FilterIsSubsequence(xs, IsPaid);
  }

  /** Applying a tab's filter to its own result changes nothing. */
  lemma FilterIsIdempotent(xs: seq<Invoice>, f: InvoiceFilter)
    ensures FilterInvoices(FilterInvoices(xs, f), f) == FilterInvoices(xs, f)
  {
    match f
    case All =>
    case Open => FilterIdempotent(xs, IsUnpaid);
    case Past => FilterIdempotent(xs, IsPaid);
  }

  /** Open and Past partition the list: no invoice is in both, every invoice
      is in one, and their counts add up to the All count. */
  lemma OpenAndPastPartition(xs: seq<Invoice>)
    ensures multiset(FilterInvoices(xs, Open)) + multiset(FilterInvoices(xs, Past)) == multiset(xs)
    ensures InvoiceCount(xs, Open) + InvoiceCount(xs, Past) == InvoiceCount(xs, All)
    ensures forall inv :: inv in FilterInvoices(xs, Open) ==> inv !in FilterInvoices(xs, Past)
  {
    FilterSplits(xs, IsUnpaid, IsPaid);
  }
}
