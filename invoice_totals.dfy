/** calcInvoiceTotals: the (total, tax) pair shown for an invoice, either the
    server's own top-level figures or a sum over the invoice's lines. */
module InvoiceTotals {
  import opened JsModel
  import opened InvoiceTypes

  /** The two fields of a line that the sums read. */
  datatype LineAmounts = LineAmounts(price: Value, tax: Value)

  /** The fields of an invoice-like object that the calculator reads. Callers
      pass real invoices, but also ad-hoc objects (numeric 0 overrides, no
      override at all); `lines` is None when `invoice_lines` is missing. */
  datatype TotalsInput = TotalsInput(total: Value, tax: Value, lines: Option<seq<LineAmounts>>)

  datatype Totals = Totals(total: Number, tax: Number)

  datatype Column = PriceColumn | TaxColumn

  /** `invoice.invoice_lines || []` */
  function LinesOf(p: TotalsInput): seq<LineAmounts> {
    if p.lines.Some? then p.lines.value else []
  }

  function Pick(l: LineAmounts, c: Column): Value {
    if c == PriceColumn then l.price else l.tax
  }

  /** What one line adds to a sum: `Number(v ?? 0)`, with NaN counted as 0. */
  function Term(v: Value, nums: Numerics): (r: real)
    ensures v == Null || v == Undefined ==> r == 0.0
    ensures v.Num? ==> r == v.n
    ensures v.Str? && nums.number(v.s).None? ==> r == 0.0
    ensures v.Str? && nums.number(v.s).Some? ==> r == nums.number(v.s).value
  {
    match ToNumber(Coalesce(v, Num(0.0)), nums)
    case NaN => 0.0
    case Finite(x) => x
  }

  /** The reduce over one column. Amounts are exact reals here, so the order
      in which the fold adds them does not change the value. */
  function LineSum(ls: seq<LineAmounts>, c: Column, nums: Numerics): (r: real)
    ensures ls == [] ==> r == 0.0
    ensures |ls| == 1 ==> r == Term(Pick(ls[0], c), nums)
  {
    if ls == [] then 0.0 else Term(Pick(ls[0], c), nums) + LineSum(ls[1..], c, nums)
  }

  /** `ls.reduce((sum, l) => sum + term(l), acc)` as JavaScript evaluates it:
      left to right, carrying the running sum. */
  function ReduceSum(ls: seq<LineAmounts>, c: Column, nums: Numerics, acc: real): real {
    if ls == [] then acc else ReduceSum(ls[1..], c, nums, acc + Term(Pick(ls[0], c), nums))
  }

  /** calcInvoiceTotals. A top-level field replaces the matching sum only when
      it is truthy, and only `Number(...)` of it is taken: nothing guards the
      top-level values against NaN. */
  function CalcInvoiceTotals(p: TotalsInput, nums: Numerics): (r: Totals)
    ensures Truthy(p.total) ==> r.total == ToNumber(p.total, nums)
    ensures Truthy(p.tax) ==> r.tax == ToNumber(p.tax, nums)
    ensures !Truthy(p.total) ==> r.total.Finite?
    ensures !Truthy(p.tax) ==> r.tax.Finite?
  {
    var summedTotal := LineSum(LinesOf(p), PriceColumn, nums);
    var summedTax := LineSum(LinesOf(p), TaxColumn, nums);
    Totals(if Truthy(p.total) then ToNumber(p.total, nums) else Finite(summedTotal),
           if Truthy(p.tax) then ToNumber(p.tax, nums) else Finite(summedTax))
  }

  /** The derived figure every caller shows beside the totals: total - tax. */
  function Net(t: Totals): (r: Number)
    ensures t.total.Finite? && t.tax.Finite? ==> r == Finite(t.total.r - t.tax.r)
    ensures t.total.NaN? || t.tax.NaN? ==> r == NaN
  {
    Minus(t.total, t.tax)
  }

  function LineAmountsOf(l: InvoiceLine): LineAmounts {
    LineAmounts(OfOption(l.price), OfOption(l.tax))
  }

  /** A server invoice as the calculator sees it. */
  function FromInvoice(inv: Invoice): (p: TotalsInput)
    ensures p.total == OfOption(inv.total) && p.tax == OfOption(inv.tax)
    ensures p.lines.Some? && |p.lines.value| == |inv.lines|
    ensures forall i :: 0 <= i < |inv.lines| ==> p.lines.value[i] == LineAmountsOf(inv.lines[i])
  {
    TotalsInput(OfOption(inv.total), OfOption(inv.tax),
                Some(seq(|inv.lines|, i requires 0 <= i < |inv.lines| => LineAmountsOf(inv.lines[i]))))
  }

  // ---- Properties ----

  /** Sums add up over concatenated line lists. */
  lemma {:induction false} LineSumAppend(xs: seq<LineAmounts>, ys: seq<LineAmounts>, c: Column, nums: Numerics)
    ensures LineSum(xs + ys, c, nums) == LineSum(xs, c, nums) + LineSum(ys, c, nums)
  {
    if xs == [] {
      assert xs + ys == ys;
    } else {
      LineSumAppend(xs[1..], ys, c, nums);
      assert (xs + ys)[1..] == xs[1..] + ys;
    }
  }

  /** The sum the calculator uses is the value of the source's reduce from 0:
      with exact amounts, the order of the additions does not matter. */
  lemma {:induction false} LineSumIsReduce(ls: seq<LineAmounts>, c: Column, nums: Numerics, acc: real)
    ensures ReduceSum(ls, c, nums, acc) == acc + LineSum(ls, c, nums)
  {
    if ls != [] {
      LineSumIsReduce(ls[1..], c, nums, acc + Term(Pick(ls[0], c), nums));
    }
  }

  /** Lines whose values are all missing or unparsable sum to 0. */
  lemma {:induction false} LineSumOfUnparsable(ls: seq<LineAmounts>, c: Column, nums: Numerics)
    requires forall i :: 0 <= i < |ls| ==>
      Pick(ls[i], c) == Null || Pick(ls[i], c) == Undefined ||
      (Pick(ls[i], c).Str? && nums.number(Pick(ls[i], c).s).None?)
    ensures LineSum(ls, c, nums) == 0.0
  {
    if ls != [] {
      LineSumOfUnparsable(ls[1..], c, nums);
    }
  }

  /** A missing `invoice_lines` gives the same result as an empty one. */
  lemma MissingLinesAreEmpty(total: Value, tax: Value, nums: Numerics)
    ensures CalcInvoiceTotals(TotalsInput(total, tax, None), nums)
         == CalcInvoiceTotals(TotalsInput(total, tax, Some([])), nums)
  {
  }

  /** A falsy top-level field (null, undefined, '' or 0) falls back to the line sum. */
  lemma FalsyOverrideUsesLineSum(p: TotalsInput, nums: Numerics)
    ensures !Truthy(p.total) ==> CalcInvoiceTotals(p, nums).total == Finite(LineSum(LinesOf(p), PriceColumn, nums))
    ensures !Truthy(p.tax) ==> CalcInvoiceTotals(p, nums).tax == Finite(LineSum(LinesOf(p), TaxColumn, nums))
  {
  }

  /** A truthy top-level field makes the lines irrelevant to that figure. */
  lemma TruthyOverrideIgnoresLines(p: TotalsInput, lines: Option<seq<LineAmounts>>, nums: Numerics)
    ensures Truthy(p.total) ==> CalcInvoiceTotals(p.(lines := lines), nums).total == CalcInvoiceTotals(p, nums).total
    ensures Truthy(p.tax) ==> CalcInvoiceTotals(p.(lines := lines), nums).tax == CalcInvoiceTotals(p, nums).tax
  {
  }

  /** The two overrides are decided independently: the top-level tax never
      affects the total, and the top-level total never affects the tax. */
  lemma OverridesAreIndependent(p: TotalsInput, v: Value, nums: Numerics)
    ensures CalcInvoiceTotals(p.(tax := v), nums).total == CalcInvoiceTotals(p, nums).total
    ensures CalcInvoiceTotals(p.(total := v), nums).tax == CalcInvoiceTotals(p, nums).tax
  {
  }

  /** The NaN guard covers line values only: the same unparsable string counts
      as 0 on a line but makes the result NaN at the top level. */
  lemma TopLevelNaNIsNotGuarded(s: string, lines: Option<seq<LineAmounts>>, nums: Numerics)
    requires s != "" && nums.number(s).None?
    ensures CalcInvoiceTotals(TotalsInput(Str(s), Null, lines), nums).total == NaN
    ensures CalcInvoiceTotals(TotalsInput(Null, Str(s), lines), nums).tax == NaN
    ensures LineSum([LineAmounts(Str(s), Str(s))], PriceColumn, nums) == 0.0
  {
  }

  /** No lines and null top-level fields give {0, 0}. */
  lemma EmptyInvoiceTotalsAreZero(nums: Numerics)
    ensures CalcInvoiceTotals(TotalsInput(Null, Null, Some([])), nums) == Totals(Finite(0.0), Finite(0.0))
  {
  }

  /** Lines priced 'abc' with tax 'xyz' and null top-level fields give {0, 0}. */
  lemma InvalidStringsExample(nums: Numerics)
    requires nums.number("abc").None? && nums.number("xyz").None?
    ensures CalcInvoiceTotals(TotalsInput(Null, Null, Some([LineAmounts(Str("abc"), Str("xyz"))])), nums)
         == Totals(Finite(0.0), Finite(0.0))
  {
    var ls := [LineAmounts(Str("abc"), Str("xyz"))];
    assert ls[1..] == [];
    assert LineSum(ls, PriceColumn, nums) == 0.0 && LineSum(ls, TaxColumn, nums) == 0.0;
  }

  /** Two lines, 22000.00/3666.66 and 65000.00/0.00, with null top-level
      fields sum to {87000, 3666.66}. */
  lemma TwoLinesExample(nums: Numerics)
    requires nums.number("22000.00") == Some(22000.0) && nums.number("3666.66") == Some(3666.66)
    requires nums.number("65000.00") == Some(65000.0) && nums.number("0.00") == Some(0.0)
    ensures CalcInvoiceTotals(TotalsInput(Null, Null, Some([LineAmounts(Str("22000.00"), Str("3666.66")),
                                                          LineAmounts(Str("65000.00"), Str("0.00"))])), nums)
         == Totals(Finite(87000.0), Finite(3666.66))
  {
    var ls := [LineAmounts(Str("22000.00"), Str("3666.66")), LineAmounts(Str("65000.00"), Str("0.00"))];
    assert ls[1..] == [ls[1]] && ls[1..][1..] == [];
    assert Term(Pick(ls[1], TaxColumn), nums) == 0.0 && LineSum(ls[1..][1..], TaxColumn, nums) == 0.0;
    var rest := ls[1..];
    assert rest != [] && rest[0] == ls[1];
    assert LineSum(rest, TaxColumn, nums) == Term(Pick(rest[0], TaxColumn), nums) + LineSum(rest[1..], TaxColumn, nums);
    assert LineSum(rest, PriceColumn, nums) == 65000.0 && LineSum(rest, TaxColumn, nums) == 0.0;
    assert LineSum(ls, PriceColumn, nums) == 87000.0 && LineSum(ls, TaxColumn, nums) == 3666.66;
  }
}
