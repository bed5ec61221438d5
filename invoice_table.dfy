/** The invoice table: one row per invoice with its effective total, its
    Finalized/Paid badges and a link to its page, or a single 'No invoices
    found' row for an empty list. */
module InvoiceTable {
  import opened JsModel
  import opened InvoiceTypes
  import opened InvoiceTotals

  datatype TableRow =
    | InvoiceRow(id: int, total: Number, finalizedBadge: bool, paidBadge: bool, link: Route)
    | NoInvoicesRow

  /** `Number(invoice.total ?? computed.total)`: a present total string wins,
      even an empty one; only null falls back to the calculator. */
  function RowTotal(inv: Invoice, nums: Numerics): (r: Number)
    ensures inv.total.Some? ==> r == ToNumber(Str(inv.total.value), nums)
    ensures inv.total.None? ==> r == CalcInvoiceTotals(FromInvoice(inv), nums).total
  {
    ToNumber(Coalesce(OfOption(inv.total), NumberValue(CalcInvoiceTotals(FromInvoice(inv), nums).total)), nums)
  }

  /** A computed number passed back through `Number(...)`; NaN stays NaN. */
  function NumberValue(x: Number): (v: Value)
    ensures x.Finite? ==> v == Num(x.r)
    ensures x.NaN? ==> v == Undefined
  {
    if x.Finite? then Num(x.r) else Undefined
  }

  function RowOf(inv: Invoice, nums: Numerics): (row: TableRow)
    ensures row.InvoiceRow? && row.id == inv.id && row.link == InvoicePage(inv.id)
    ensures row.finalizedBadge <==> inv.finalized && !inv.paid
    ensures row.paidBadge <==> inv.paid
    ensures row.total == RowTotal(inv, nums)
  {
    InvoiceRow(inv.id, RowTotal(inv, nums), inv.finalized && !inv.paid, inv.paid, InvoicePage(inv.id))
  }

  /** The table body: the invoice rows, then the empty-state row when there
      are none. */
  function Rows(invoices: seq<Invoice>, nums: Numerics): (rows: seq<TableRow>)
    ensures invoices == [] ==> rows == [NoInvoicesRow]
    ensures invoices != [] ==> |rows| == |invoices|
    ensures invoices != [] ==> forall i :: 0 <= i < |invoices| ==> rows[i] == RowOf(invoices[i], nums)
    ensures forall i :: 0 <= i < |rows| ==> (rows[i].NoInvoicesRow? <==> invoices == [])
  {
    seq(|invoices|, i requires 0 <= i < |invoices| => RowOf(invoices[i], nums))
      + (if |invoices| == 0 then [NoInvoicesRow] else [])
  }

  // ---- Properties ----

  /** The row total agrees with the calculator's total except when the
      server's total is the empty string: `??` keeps '' where the
      calculator's truthiness test falls back to the lines. */
  lemma {:induction false} RowTotalMatchesCalculator(inv: Invoice, nums: Numerics)
    ensures inv.total != Some("") ==> RowTotal(inv, nums) == CalcInvoiceTotals(FromInvoice(inv), nums).total
    ensures inv.total == Some("") ==>
      RowTotal(inv, nums) == ToNumber(Str(""), nums) &&
      CalcInvoiceTotals(FromInvoice(inv), nums).total == Finite(LineSum(LinesOf(FromInvoice(inv)), PriceColumn, nums))
  {
    if inv.total.Some? && inv.total.value != "" {
      assert Truthy(FromInvoice(inv).total);
    }
  }

  /** A row never shows both badges. */
  lemma BadgesAreExclusive(inv: Invoice, nums: Numerics)
    ensures !(RowOf(inv, nums).finalizedBadge && RowOf(inv, nums).paidBadge)
  {
  }

  /** An invoice with a total of '555.00' shows 555; one with a null total
      and lines priced 100.00 and 23.45 shows their sum 123.45. */
  lemma RowTotalExamples(explicit: Invoice, fallback: Invoice, nums: Numerics)
    requires explicit.total == Some("555.00") && nums.number("555.00") == Some(555.0)
    requires fallback.total.None? && |fallback.lines| == 2
    requires fallback.lines[0].price == Some("100.00") && fallback.lines[1].price == Some("23.45")
    requires nums.number("100.00") == Some(100.0) && nums.number("23.45") == Some(23.45)
    ensures RowOf(explicit, nums).total == Finite(555.0)
    ensures RowOf(fallback, nums).total == Finite(123.45)
  {
    var ls := LinesOf(FromInvoice(fallback));
    assert ls[0].price == Str("100.00") && ls[1].price == Str("23.45");
    assert ls[1..][1..] == [];
    assert LineSum(ls[1..], PriceColumn, nums) == 23.45;
    assert LineSum(ls, PriceColumn, nums) == 123.45;
  }
}
