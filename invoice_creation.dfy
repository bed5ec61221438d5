/** The invoice-creation form: a customer, two dates and a list of draft lines,
    each line priced from its product. Removing a line, or setting its quantity
    to zero or below, takes it out of the list. */
module InvoiceCreation {
  import opened JsModel
  import opened InvoiceTypes
  import opened Seqs
  import opened LinePricing
  import opened InvoiceTotals

  /** InvoiceLineItem of the create form; `id` is a client-side temporary id. */
  datatype DraftLine = DraftLine(
    id: string,
    productId: int,
    product: Product,
    quantity: int,
    labelText: string,
    vatRate: Option<string>,    // copied from the product, may be null
    price: string,
    tax: string)

  /** One entry of `invoice_lines_attributes` in the create request. It has no
      tax field: the server computes the tax. */
  datatype CreateLineAttrs = CreateLineAttrs(
    productId: int,
    quantity: int,
    labelText: string,
    unit: Option<string>,
    vatRate: Option<string>,
    price: string)

  datatype CreatePayload = CreatePayload(
    customerId: int,
    date: string,
    deadline: string,
    finalized: bool,
    paid: bool,
    lines: seq<CreateLineAttrs>)

  /** The line addLineItem builds for `product`: quantity 1, priced at the
      product's unit price and VAT rate. */
  function NewLine(product: Product, tempId: string, nums: Numerics): (l: DraftLine)
    ensures l.id == tempId && l.quantity == 1
    ensures l.productId == product.id && l.product == product
    ensures l.labelText == product.labelText && l.vatRate == product.vatRate
    ensures Amounts(l.price, l.tax) == PricedAt(product.unitPrice, product.vatRate, 1, nums)
  {
    var a := PricedAt(product.unitPrice, product.vatRate, 1, nums);
    DraftLine(tempId, product.id, product, 1, product.labelText, product.vatRate, a.price, a.tax)
  }

  /** addLineItem: the new line goes at the end. */
  function AddLine(ls: seq<DraftLine>, product: Product, tempId: string, nums: Numerics): (r: seq<DraftLine>)
    ensures |r| == |ls| + 1
    ensures r[..|ls|] == ls
    ensures r[|ls|] == NewLine(product, tempId, nums)
  {
    ls + [NewLine(product, tempId, nums)]
  }

  /** The filter test `line.id !== lineId`. */
  function KeepOther(id: string): DraftLine -> bool {
    (l: DraftLine) => l.id != id
  }

  /** removeLineItem: every line carrying `id` goes, the others stay in order. */
  function RemoveLine(ls: seq<DraftLine>, id: string): (r: seq<DraftLine>)
    ensures |r| <= |ls|
    ensures forall i :: 0 <= i < |r| ==> r[i] in ls && r[i].id != id
    ensures forall i :: 0 <= i < |ls| && ls[i].id != id ==> ls[i] in r
  {
    Filter(ls, KeepOther(id))
  }

  /** A line at a new positive quantity: quantity, price and tax change, the
      price taken from the product and the rate from the line. */
  function Repriced(l: DraftLine, q: int, nums: Numerics): (m: DraftLine)
    ensures m.quantity == q
    ensures Amounts(m.price, m.tax) == PricedAt(l.product.unitPrice, l.vatRate, q, nums)
    ensures m.(quantity := l.quantity, price := l.price, tax := l.tax) == l
  {
    var a := PricedAt(l.product.unitPrice, l.vatRate, q, nums);
    l.(quantity := q, price := a.price, tax := a.tax)
  }

  /** updateLineQuantity */
  function UpdateQuantity(ls: seq<DraftLine>, id: string, q: int, nums: Numerics): (r: seq<DraftLine>)
    ensures q <= 0 ==> r == RemoveLine(ls, id)
    ensures q > 0 ==> |r| == |ls|
    ensures q > 0 ==> forall i :: 0 <= i < |ls| && ls[i].id != id ==> r[i] == ls[i]
    ensures q > 0 ==> forall i :: 0 <= i < |ls| && ls[i].id == id ==> r[i] == Repriced(ls[i], q, nums)
  {
    if q <= 0 then RemoveLine(ls, id)
    else seq(|ls|, i requires 0 <= i < |ls| => if ls[i].id == id then Repriced(ls[i], q, nums) else ls[i])
  }

  /** `customer?.id || null`: a customer whose id is 0 counts as none. */
  function CustomerIdOf(customer: Option<Customer>): (r: Option<int>)
    ensures r.Some? <==> customer.Some? && customer.value.id != 0
    ensures r.Some? ==> r.value == customer.value.id
  {
    if customer.Some? && customer.value.id != 0 then Some(customer.value.id) else None
  }

  /** The lines as the totals calculator reads them. */
  function AmountsOf(ls: seq<DraftLine>): (r: seq<LineAmounts>)
    ensures |r| == |ls|
    ensures forall i :: 0 <= i < |ls| ==> r[i] == LineAmounts(Str(ls[i].price), Str(ls[i].tax))
  {
    seq(|ls|, i requires 0 <= i < |ls| => LineAmounts(Str(ls[i].price), Str(ls[i].tax)))
  }

  /** The form's totals: calcInvoiceTotals over the lines with numeric 0 as
      the top-level total and tax. Since 0 is falsy, the figures are always the
      line sums, never NaN. */
  function FormTotals(ls: seq<DraftLine>, nums: Numerics): (t: Totals)
    ensures t.total == Finite(LineSum(AmountsOf(ls), PriceColumn, nums))
    ensures t.tax == Finite(LineSum(AmountsOf(ls), TaxColumn, nums))
  {
    CalcInvoiceTotals(TotalsInput(Num(0.0), Num(0.0), Some(AmountsOf(ls))), nums)
  }

  /** validateForm: the customer is checked before the lines. */
  function ValidateForm(customerId: Option<int>, ls: seq<DraftLine>): (r: Option<string>)
    ensures r.None? <==> customerId.Some? && customerId.value != 0 && ls != []
    ensures customerId.None? || customerId.value == 0 ==> r == Some("Please select a customer")
    ensures customerId.Some? && customerId.value != 0 && ls == [] ==> r == Some("Please add at least one product")
  {
    if customerId.None? || customerId.value == 0 then Some("Please select a customer")
    else if |ls| == 0 then Some("Please add at least one product")
    else None
  }

  /** The create page's submit button: disabled while creating, without a
      customer id, or without lines. */
  predicate SubmitDisabled(creating: bool, customerId: Option<int>, ls: seq<DraftLine>) {
    creating || customerId.None? || customerId.value == 0 || |ls| == 0
  }

  function LineAttrs(l: DraftLine): (a: CreateLineAttrs)
    ensures a.productId == l.productId && a.quantity == l.quantity && a.labelText == l.labelText
    ensures a.unit == l.product.unit && a.vatRate == l.vatRate && a.price == l.price
  {
    CreateLineAttrs(l.productId, l.quantity, l.labelText, l.product.unit, l.vatRate, l.price)
  }

  /** The `invoice` body of the create request. */
  function BuildPayload(customerId: int, date: string, deadline: string, ls: seq<DraftLine>): (p: CreatePayload)
    ensures !p.finalized && !p.paid
    ensures p.customerId == customerId && p.date == date && p.deadline == deadline
    ensures |p.lines| == |ls|
    ensures forall i :: 0 <= i < |ls| ==>
      p.lines[i].productId == ls[i].productId && p.lines[i].quantity == ls[i].quantity &&
      p.lines[i].price == ls[i].price && p.lines[i].vatRate == ls[i].vatRate &&
      p.lines[i].unit == ls[i].product.unit && p.lines[i].labelText == ls[i].labelText
  {
    CreatePayload(customerId, date, deadline, false, false,
                  seq(|ls|, i requires 0 <= i < |ls| => LineAttrs(ls[i])))
  }

  /** The form state of useInvoiceCreation. */
  class CreationForm {
    var customerId: Option<int>
    var customer: Option<Customer>
    var date: string
    var deadline: string
    var lines: seq<DraftLine>
    var creating: bool
    var error: Option<string>

    /** The id always mirrors the selected customer, and no line has a
        quantity below 1. */
    predicate Valid()
      reads this
    {
      customerId == CustomerIdOf(customer) &&
      forall i :: 0 <= i < |lines| ==> lines[i].quantity >= 1
    }

    /** `today` and `dueDefault` stand for the two dates the hook derives from the clock. */
    constructor(today: string, dueDefault: string)
      ensures Valid()
      ensures customerId.None? && customer.None? && lines == []
      ensures date == today && deadline == dueDefault
      ensures !creating && error.None?
    {
      customerId := None;
      customer := None;
      date := today;
      deadline := dueDefault;
      lines := [];
      creating := false;
      error := None;
    }

    method AddLineItem(product: Product, tempId: string, nums: Numerics)
      requires Valid()
      modifies this`lines
      ensures Valid()
      ensures lines == AddLine(old(lines), product, tempId, nums)
    {
      lines := AddLine(lines, product, tempId, nums);
    }

    method RemoveLineItem(id: string)
      requires Valid()
      modifies this`lines
      ensures Valid()
      ensures lines == RemoveLine(old(lines), id)
    {
      lines := RemoveLine(lines, id);
    }

    method UpdateLineQuantity(id: string, q: int, nums: Numerics)
      requires Valid()
      modifies this`lines
      ensures Valid()
      ensures lines == UpdateQuantity(old(lines), id, q, nums)
    {
      lines := UpdateQuantity(lines, id, q, nums);
    }

    method UpdateCustomer(c: Option<Customer>)
      requires Valid()
      modifies this`customerId, this`customer
      ensures Valid()
      ensures customer == c && customerId == CustomerIdOf(c)
    {
      customerId := CustomerIdOf(c);
      customer := c;
    }

    method UpdateDate(d: string)
      modifies this`date
      ensures date == d
    {
      date := d;
    }

    method UpdateDeadline(d: string)
      modifies this`deadline
      ensures deadline == d
    {
      deadline := d;
    }

    /** submitInvoice. `response` is the server's answer to the create
        request: the new invoice's id, or the failure. The request is sent only
        when the form validates; `sent` is its body and `navigateTo` the page
        shown next. */
    method SubmitInvoice(response: Response<int>) returns (sent: Option<CreatePayload>, navigateTo: Option<Route>)
      requires Valid()
      modifies this`creating, this`error
      ensures Valid()
      ensures ValidateForm(customerId, lines).Some? ==>
        sent.None? && navigateTo.None? && error == ValidateForm(customerId, lines) && creating == old(creating)
      ensures ValidateForm(customerId, lines).None? ==>
        sent == Some(BuildPayload(customerId.value, date, deadline, lines)) && !creating
      ensures sent.Some? ==> customer.Some? && sent.value.customerId == customer.value.id
      ensures ValidateForm(customerId, lines).None? && response.Ok? ==>
        navigateTo == Some(InvoicePage(response.value)) && error.None?
      ensures ValidateForm(customerId, lines).None? && response.Failed? ==>
        navigateTo.None? && error == Some(ErrorText(response.message, "Failed to create invoice"))
    {
      var validationError := ValidateForm(customerId, lines);
      if validationError.Some? {
        error := validationError;
        return None, None;
      }
      creating := true;
      error := None;
      sent := Some(BuildPayload(customerId.value, date, deadline, lines));
      match response {
        case Ok(newId) =>
          navigateTo := Some(InvoicePage(newId));
        case Failed(message) =>
          error := Some(ErrorText(message, "Failed to create invoice"));
          navigateTo := None;
      }
      creating := false;
    }
  }

  // ---- Properties ----

  /** A line added under a fresh temporary id and removed again leaves the
      list as it was. */
  lemma {:induction false} AddThenRemove(ls: seq<DraftLine>, product: Product, tempId: string, nums: Numerics)
    requires forall i :: 0 <= i < |ls| ==> ls[i].id != tempId
    ensures RemoveLine(AddLine(ls, product, tempId, nums), tempId) == ls
  {
    FilterAppend(ls, [NewLine(product, tempId, nums)], KeepOther(tempId));
    FilterKeepsAll(ls, KeepOther(tempId));
  }

  /** Removing keeps the remaining lines in their order. */
  lemma RemoveKeepsOrder(ls: seq<DraftLine>, id: string)
    ensures SubseqOf(RemoveLine(ls, id), ls)
  {
    FilterIsSubsequence(ls, KeepOther(id));
  }

  /** Removing the same id twice is the same as removing it once. */
  lemma RemoveIsIdempotent(ls: seq<DraftLine>, id: string)
    ensures RemoveLine(RemoveLine(ls, id), id) == RemoveLine(ls, id)
  {
    FilterIdempotent(ls, KeepOther(id));
  }

  /** Setting the same quantity twice is the same as setting it once. */
  lemma UpdateIsIdempotent(ls: seq<DraftLine>, id: string, q: int, nums: Numerics)
    ensures UpdateQuantity(UpdateQuantity(ls, id, q, nums), id, q, nums) == UpdateQuantity(ls, id, q, nums)
  {
    if q <= 0 {
      RemoveIsIdempotent(ls, id);
    } else {
      var once := UpdateQuantity(ls, id, q, nums);
      var twice := UpdateQuantity(once, id, q, nums);
      forall i | 0 <= i < |ls|
        ensures twice[i] == once[i]
      {
        if ls[i].id == id {
          assert once[i] == Repriced(ls[i], q, nums);
        }
      }
    }
  }

  /** Adding a line raises the form's total and tax by that line's amounts. */
  lemma AddLineRaisesTotals(ls: seq<DraftLine>, product: Product, tempId: string, nums: Numerics)
    ensures var l := NewLine(product, tempId, nums);
      FormTotals(AddLine(ls, product, tempId, nums), nums).total.r
        == FormTotals(ls, nums).total.r + Term(Str(l.price), nums)
    ensures var l := NewLine(product, tempId, nums);
      FormTotals(AddLine(ls, product, tempId, nums), nums).tax.r
        == FormTotals(ls, nums).tax.r + Term(Str(l.tax), nums)
  {
    var l := NewLine(product, tempId, nums);
    var extra := [LineAmounts(Str(l.price), Str(l.tax))];
    assert AmountsOf(ls + [l]) == AmountsOf(ls) + extra;
    LineSumAppend(AmountsOf(ls), extra, PriceColumn, nums);
    LineSumAppend(AmountsOf(ls), extra, TaxColumn, nums);
    assert extra[1..] == [];
  }

  /** The submit button is enabled exactly when validateForm passes and no
      request is in flight. */
  lemma SubmitEnabledIffValid(creating: bool, customerId: Option<int>, ls: seq<DraftLine>)
    ensures !SubmitDisabled(creating, customerId, ls) <==> !creating && ValidateForm(customerId, ls).None?
  {
  }
}
