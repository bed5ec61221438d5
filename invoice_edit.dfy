/** The invoice-edit form. Lines loaded from the server keep their server id;
    deleting a line, or setting its quantity to zero or below, only marks it
    `_destroy` with zeroed amounts, so that the save request can tell the
    server to delete it. Totals count the lines not marked. */
module InvoiceEdit {
  import opened JsModel
  import opened InvoiceTypes
  import opened Seqs
  import opened LinePricing
  import opened InvoiceTotals
  import InvoiceCreation

  /** A line's `id: string | number`: the temporary id of an added line or the
      server id of a loaded one. Strict equality never equates the two kinds. */
  datatype LineKey = Temp(tempId: string) | Saved(serverId: int)

  /** InvoiceLineItem of the edit form. */
  datatype EditLine = EditLine(
    key: LineKey,
    invoiceLineId: Option<int>,     // present on loaded lines
    productId: int,
    product: Product,
    quantity: int,
    labelText: string,
    vatRate: Option<string>,
    price: string,
    tax: string,
    destroy: bool)                  // `_destroy`

  /** One entry of `invoice_lines_attributes` in the update request. `id` is
      absent on lines the server does not know yet, and `destroy` stands for
      the presence of `_destroy: true`. */
  datatype EditLineAttrs = EditLineAttrs(
    id: Option<int>,
    productId: int,
    quantity: int,
    labelText: string,
    unit: Option<string>,
    vatRate: Option<string>,
    price: string,
    tax: string,
    destroy: bool)

  datatype EditPayload = EditPayload(
    id: Number,                     // Number(id) of the route parameter
    customerId: int,
    date: string,
    deadline: string,
    lines: seq<EditLineAttrs>)

  /** `String(x ?? '0')` for a nullable string field: null becomes '0', any
      string (even '') is kept. */
  function OrZero(o: Option<string>): (r: string)
    ensures o.None? ==> r == "0"
    ensures o.Some? ==> r == o.value
  {
    if o.Some? then o.value else "0"
  }

  /** The form line made from a server line when the invoice is loaded. */
  function LoadLine(l: InvoiceLine): (e: EditLine)
    ensures e.key == Saved(l.id) && e.invoiceLineId == Some(l.id) && !e.destroy
    ensures e.productId == l.productId && e.product == l.product
    ensures e.quantity == l.quantity && e.labelText == l.labelText
    ensures e.vatRate == Some(OrZero(l.vatRate))
    ensures e.price == OrZero(l.price) && e.tax == OrZero(l.tax)
  {
    EditLine(Saved(l.id), Some(l.id), l.productId, l.product, l.quantity, l.labelText,
             Some(OrZero(l.vatRate)), OrZero(l.price), OrZero(l.tax), false)
  }

  /** `(inv.invoice_lines || []).map(...)` */
  function LoadLines(inv: Invoice): (r: seq<EditLine>)
    ensures |r| == |inv.lines|
    ensures forall i :: 0 <= i < |r| ==> r[i] == LoadLine(inv.lines[i])
  {
    seq(|inv.lines|, i requires 0 <= i < |inv.lines| => LoadLine(inv.lines[i]))
  }

  /** The line addLineItem builds for `product`: quantity 1, not yet known to
      the server, priced at the product's unit price and VAT rate. */
  function NewLine(product: Product, tempId: string, nums: Numerics): (e: EditLine)
    ensures e.key == Temp(tempId) && e.invoiceLineId.None? && !e.destroy
    ensures e.quantity == 1 && e.productId == product.id && e.product == product
    ensures e.labelText == product.labelText && e.vatRate == product.vatRate
    ensures Amounts(e.price, e.tax) == PricedAt(product.unitPrice, product.vatRate, 1, nums)
  {
    var a := PricedAt(product.unitPrice, product.vatRate, 1, nums);
    EditLine(Temp(tempId), None, product.id, product, 1, product.labelText, product.vatRate, a.price, a.tax, false)
  }

  /** addLineItem */
  function AddLine(ls: seq<EditLine>, product: Product, tempId: string, nums: Numerics): (r: seq<EditLine>)
    ensures |r| == |ls| + 1
    ensures r[..|ls|] == ls
    ensures r[|ls|] == NewLine(product, tempId, nums)
  {
    ls + [NewLine(product, tempId, nums)]
  }

  /** A line marked for deletion: `_destroy`, quantity 0, price and tax '0'. */
  function Destroyed(l: EditLine): (m: EditLine)
    ensures m.destroy && m.quantity == 0 && m.price == "0" && m.tax == "0"
    ensures m.(destroy := l.destroy, quantity := l.quantity, price := l.price, tax := l.tax) == l
  {
    l.(destroy := true, quantity := 0, price := "0", tax := "0")
  }

  /** A line at a new positive quantity. The `_destroy` mark is kept as it was. */
  function Repriced(l: EditLine, q: int, nums: Numerics): (m: EditLine)
    ensures m.quantity == q
    ensures Amounts(m.price, m.tax) == PricedAt(l.product.unitPrice, l.vatRate, q, nums)
    ensures m.(quantity := l.quantity, price := l.price, tax := l.tax) == l
  {
    var a := PricedAt(l.product.unitPrice, l.vatRate, q, nums);
    l.(quantity := q, price := a.price, tax := a.tax)
  }

  /** updateLineQuantity: the list keeps its length; only the lines carrying
      `key` change. */
  function UpdateQuantity(ls: seq<EditLine>, key: LineKey, q: int, nums: Numerics): (r: seq<EditLine>)
    ensures |r| == |ls|
    ensures forall i :: 0 <= i < |ls| && ls[i].key != key ==> r[i] == ls[i]
    ensures forall i :: 0 <= i < |ls| && ls[i].key == key && q <= 0 ==> r[i] == Destroyed(ls[i])
    ensures forall i :: 0 <= i < |ls| && ls[i].key == key && q > 0 ==> r[i] == Repriced(ls[i], q, nums)
    ensures forall i :: 0 <= i < |ls| ==> r[i].destroy == (ls[i].destroy || (ls[i].key == key && q <= 0))
  {
    seq(|ls|, i requires 0 <= i < |ls| =>
      if ls[i].key != key then ls[i]
      else if q <= 0 then Destroyed(ls[i])
      else Repriced(ls[i], q, nums))
  }

  /** removeLineItem: marks the lines carrying `key` for deletion. */
  function RemoveLine(ls: seq<EditLine>, key: LineKey): (r: seq<EditLine>)
    ensures |r| == |ls|
    ensures forall i :: 0 <= i < |ls| && ls[i].key != key ==> r[i] == ls[i]
    ensures forall i :: 0 <= i < |ls| && ls[i].key == key ==> r[i] == Destroyed(ls[i])
  {
    seq(|ls|, i requires 0 <= i < |ls| => if ls[i].key == key then Destroyed(ls[i]) else ls[i])
  }

  predicate IsActive(l: EditLine) { !l.destroy }

  /** activeLines */
  function ActiveLines(ls: seq<EditLine>): (r: seq<EditLine>)
    ensures forall i :: 0 <= i < |r| ==> r[i] in ls && !r[i].destroy
    ensures forall i :: 0 <= i < |ls| && !ls[i].destroy ==> ls[i] in r
  {
    Filter(ls, IsActive)
  }

  /** The lines as the totals calculator reads them. */
  function AmountsOf(ls: seq<EditLine>): (r: seq<LineAmounts>)
    ensures |r| == |ls|
    ensures forall i :: 0 <= i < |ls| ==> r[i] == LineAmounts(Str(ls[i].price), Str(ls[i].tax))
  {
    seq(|ls|, i requires 0 <= i < |ls| => LineAmounts(Str(ls[i].price), Str(ls[i].tax)))
  }

  /** The form's totals: calcInvoiceTotals over the active lines, with no
      top-level total or tax, so the figures are the line sums. */
  function EditTotals(ls: seq<EditLine>, nums: Numerics): (t: Totals)
    ensures t.total == Finite(LineSum(AmountsOf(ActiveLines(ls)), PriceColumn, nums))
    ensures t.tax == Finite(LineSum(AmountsOf(ActiveLines(ls)), TaxColumn, nums))
  {
    CalcInvoiceTotals(TotalsInput(Undefined, Undefined, Some(AmountsOf(ActiveLines(ls)))), nums)
  }

  /** The checks onSave makes before sending: a customer with a truthy id
      first, then at least one active line. */
  function SaveCheck(customer: Option<Customer>, ls: seq<EditLine>): (r: Option<string>)
    ensures r.None? <==> customer.Some? && customer.value.id != 0 && ActiveLines(ls) != []
    ensures customer.None? || customer.value.id == 0 ==> r == Some("Please select a customer")
    ensures customer.Some? && customer.value.id != 0 && ActiveLines(ls) == [] ==>
      r == Some("Please add at least one product")
  {
    if customer.None? || customer.value.id == 0 then Some("Please select a customer")
    else if |ActiveLines(ls)| == 0 then Some("Please add at least one product")
    else None
  }

  /** The payload entry of one line: `id` only when `invoice_line_id` is
      truthy, `_destroy` only when the line is marked. */
  function LineAttrs(l: EditLine): (a: EditLineAttrs)
    ensures a.id.Some? <==> l.invoiceLineId.Some? && l.invoiceLineId.value != 0
    ensures a.id.Some? ==> a.id == l.invoiceLineId
    ensures a.destroy == l.destroy
    ensures a.productId == l.productId && a.quantity == l.quantity && a.labelText == l.labelText
    ensures a.unit == l.product.unit && a.vatRate == l.vatRate
    ensures a.price == l.price && a.tax == l.tax
  {
    EditLineAttrs(if l.invoiceLineId.Some? && l.invoiceLineId.value != 0 then l.invoiceLineId else None,
                  l.productId, l.quantity, l.labelText, l.product.unit, l.vatRate, l.price, l.tax, l.destroy)
  }

  /** The `invoice` body of the update request: every line, marked ones
      included, in form order. */
  function BuildPayload(routeId: string, customerId: int, date: string, deadline: string,
                        ls: seq<EditLine>, nums: Numerics): (p: EditPayload)
    ensures p.id == ToNumber(Str(routeId), nums) && p.customerId == customerId
    ensures p.date == date && p.deadline == deadline
    ensures |p.lines| == |ls|
    ensures forall i :: 0 <= i < |ls| ==> p.lines[i] == LineAttrs(ls[i])
  {
    EditPayload(ToNumber(Str(routeId), nums), customerId, date, deadline,
                seq(|ls|, i requires 0 <= i < |ls| => LineAttrs(ls[i])))
  }

  /** The form state of InvoiceEdit. */
  class EditForm {
    var loading: bool
    var saving: bool
    var error: Option<string>
    var customer: Option<Customer>
    var date: string
    var deadline: string
    var lines: seq<EditLine>

    constructor()
      ensures loading && !saving && error.None? && customer.None?
      ensures date == "" && deadline == "" && lines == []
    {
      loading := true;
      saving := false;
      error := None;
      customer := None;
      date := "";
      deadline := "";
      lines := [];
    }

    /** The load effect. `routeId` is the `:id` route parameter, `response`
        the server's answer, and `today` and `dueDefault` the two dates the
        component derives from the clock. */
    method Load(routeId: Option<string>, response: Response<Invoice>, today: string, dueDefault: string)
      modifies this`loading, this`error, this`customer, this`date, this`deadline, this`lines
      ensures routeId.None? || routeId.value == "" ==>
        loading == old(loading) && error == old(error) && customer == old(customer) &&
        date == old(date) && deadline == old(deadline) && lines == old(lines)
      ensures routeId.Some? && routeId.value != "" ==> !loading
      ensures routeId.Some? && routeId.value != "" && response.Ok? ==>
        error.None? && customer == response.value.customer &&
        date == StrOr(response.value.date, today) && deadline == StrOr(response.value.deadline, dueDefault) &&
        lines == LoadLines(response.value)
      ensures routeId.Some? && routeId.value != "" && response.Failed? ==>
        error == Some(ErrorText(response.message, "Failed to load invoice")) &&
        customer == old(customer) && date == old(date) && deadline == old(deadline) && lines == old(lines)
    {
      if routeId.None? || routeId.value == "" {
        return;
      }
      loading := true;
      error := None;
      match response {
        case Ok(inv) =>
          customer := inv.customer;
          date := StrOr(inv.date, today);
          deadline := StrOr(inv.deadline, dueDefault);
          lines := LoadLines(inv);
        case Failed(message) =>
          error := Some(ErrorText(message, "Failed to load invoice"));
      }
      loading := false;
    }

    method AddLineItem(product: Product, tempId: string, nums: Numerics)
      modifies this`lines
      ensures lines == AddLine(old(lines), product, tempId, nums)
    {
      lines := AddLine(lines, product, tempId, nums);
    }

    method UpdateLineQuantity(key: LineKey, q: int, nums: Numerics)
      modifies this`lines
      ensures lines == UpdateQuantity(old(lines), key, q, nums)
    {
      lines := UpdateQuantity(lines, key, q, nums);
    }

    method RemoveLineItem(key: LineKey)
      modifies this`lines
      ensures lines == RemoveLine(old(lines), key)
    {
      lines := RemoveLine(lines, key);
    }

    method SetCustomer(c: Option<Customer>)
      modifies this`customer
      ensures customer == c
    {
      customer := c;
    }

    method SetDate(d: string)
      modifies this`date
      ensures date == d
    {
      date := d;
    }

    method SetDeadline(d: string)
      modifies this`deadline
      ensures deadline == d
    {
      deadline := d;
    }

    /** onSave. `response` is the server's answer to the update request: the
        saved invoice's id, or the failure. `sent` is the request body, when
        one is sent, and `navigateTo` the page shown next. */
    method OnSave(routeId: Option<string>, response: Response<int>, nums: Numerics)
      returns (sent: Option<EditPayload>, navigateTo: Option<Route>)
      modifies this`saving, this`error
      ensures routeId.None? || routeId.value == "" ==>
        sent.None? && navigateTo.None? && saving == old(saving) && error == old(error)
      ensures routeId.Some? && routeId.value != "" && SaveCheck(customer, lines).Some? ==>
        sent.None? && navigateTo.None? && saving == old(saving) && error == SaveCheck(customer, lines)
      ensures routeId.Some? && routeId.value != "" && SaveCheck(customer, lines).None? ==>
        sent == Some(BuildPayload(routeId.value, customer.value.id, date, deadline, lines, nums)) && !saving
      ensures routeId.Some? && routeId.value != "" && SaveCheck(customer, lines).None? && response.Ok? ==>
        navigateTo == Some(InvoicePage(response.value)) && error.None?
      ensures routeId.Some? && routeId.value != "" && SaveCheck(customer, lines).None? && response.Failed? ==>
        navigateTo.None? && error == Some(ErrorText(response.message, "Failed to save invoice"))
    {
      if routeId.None? || routeId.value == "" {
        return None, None;
      }
      var check := SaveCheck(customer, lines);
      if check.Some? {
        error := check;
        return None, None;
      }
      saving := true;
      error := None;
      sent := Some(BuildPayload(routeId.value, customer.value.id, date, deadline, lines, nums));
      match response {
        case Ok(savedId) =>
          navigateTo := Some(InvoicePage(savedId));
        case Failed(message) =>
          error := Some(ErrorText(message, "Failed to save invoice"));
          navigateTo := None;
      }
      saving := false;
    }
  }

  // ---- Properties ----

  /** removeLineItem is updateLineQuantity with quantity 0. */
  lemma RemoveIsUpdateToZero(ls: seq<EditLine>, key: LineKey, nums: Numerics)
    ensures RemoveLine(ls, key) == UpdateQuantity(ls, key, 0, nums)
  {
  }

  /** The filter test `line.id !== key`. */
  function KeepOther(key: LineKey): EditLine -> bool {
    (l: EditLine) => l.key != key
  }

  /** Marking a line destroyed takes it out of the active lines exactly as the
      create form's hard delete takes it out of its list: the active lines
      after the removal are the active lines before it, minus those with `key`. */
  lemma {:induction false} RemoveDropsFromActive(ls: seq<EditLine>, key: LineKey)
    ensures ActiveLines(RemoveLine(ls, key)) == Filter(ActiveLines(ls), KeepOther(key))
  {
    if ls != [] {
      var r := RemoveLine(ls, key);
      RemoveDropsFromActive(ls[1..], key);
      assert r[1..] == RemoveLine(ls[1..], key);
      FilterAppend(if IsActive(ls[0]) then [ls[0]] else [], ActiveLines(ls[1..]), KeepOther(key));
      assert ActiveLines(ls) == (if IsActive(ls[0]) then [ls[0]] else []) + ActiveLines(ls[1..]);
      var head: seq<EditLine> := if IsActive(ls[0]) then [ls[0]] else [];
      if IsActive(ls[0]) && ls[0].key != key {
        assert Filter(head, KeepOther(key)) == head by {
          assert head[1..] == [];
        }
      } else if IsActive(ls[0]) {
        assert Filter(head, KeepOther(key)) == [] by {
          assert head[1..] == [];
        }
      }
    }
  }

  /** The edit form never drops a line: every operation keeps the length and
      a line once marked for deletion stays marked. */
  lemma DestroyIsSticky(ls: seq<EditLine>, key: LineKey, q: int, nums: Numerics)
    ensures |UpdateQuantity(ls, key, q, nums)| == |ls| && |RemoveLine(ls, key)| == |ls|
    ensures forall i :: 0 <= i < |ls| && ls[i].destroy ==>
      UpdateQuantity(ls, key, q, nums)[i].destroy && RemoveLine(ls, key)[i].destroy
  {
  }

  /** Lines loaded from the server add up to the same sums the calculator
      computes on the server lines themselves, as long as Number('0') is 0:
      a null amount becomes '0' on load and counts 0 either way. */
  lemma {:induction false} LoadedSumsMatchServer(inv: Invoice, c: Column, nums: Numerics)
    requires nums.number("0") == Some(0.0)
    ensures LineSum(AmountsOf(LoadLines(inv)), c, nums) == LineSum(LinesOf(FromInvoice(inv)), c, nums)
  {
    LoadedSumsMatch(inv.lines, c, nums);
    assert AmountsOf(LoadLines(inv)) == LoadedAmounts(inv.lines);
    assert LinesOf(FromInvoice(inv)) == ServerAmounts(inv.lines);
  }

  function LoadedAmounts(ls: seq<InvoiceLine>): seq<LineAmounts> {
    seq(|ls|, i requires 0 <= i < |ls| => LineAmounts(Str(OrZero(ls[i].price)), Str(OrZero(ls[i].tax))))
  }

  function ServerAmounts(ls: seq<InvoiceLine>): seq<LineAmounts> {
    seq(|ls|, i requires 0 <= i < |ls| => LineAmountsOf(ls[i]))
  }

  lemma {:induction false} LoadedSumsMatch(ls: seq<InvoiceLine>, c: Column, nums: Numerics)
    requires nums.number("0") == Some(0.0)
    ensures LineSum(LoadedAmounts(ls), c, nums) == LineSum(ServerAmounts(ls), c, nums)
  {
    if ls != [] {
      LoadedSumsMatch(ls[1..], c, nums);
      assert LoadedAmounts(ls)[1..] == LoadedAmounts(ls[1..]);
      assert ServerAmounts(ls)[1..] == ServerAmounts(ls[1..]);
    }
  }

  /** One loaded Audi S5 line, quantity 3, priced 75000.00 with 12500.01 tax:
      the form shows 75000 total, 12500.01 tax and 62499.99 net. */
  lemma LoadedLineTotalsExample(l: EditLine, nums: Numerics)
    requires !l.destroy && l.price == "75000.00" && l.tax == "12500.01"
    requires nums.number("75000.00") == Some(75000.0) && nums.number("12500.01") == Some(12500.01)
    ensures EditTotals([l], nums) == Totals(Finite(75000.0), Finite(12500.01))
    ensures Net(EditTotals([l], nums)) == Finite(62499.99)
  {
    assert ActiveLines([l]) == [l] by {
      FilterKeepsAll([l], IsActive);
    }
    var a := AmountsOf([l]);
    assert a[0] == LineAmounts(Str("75000.00"), Str("12500.01")) && a[1..] == [];
    assert LineSum(a, PriceColumn, nums) == 75000.0;
    assert LineSum(a, TaxColumn, nums) == 12500.01;
  }

  /** The loaded Audi S5 line (server id 90, quantity 3, 25000.00 at 20%)
      set to quantity 2 is sent with its server id, quantity 2, price
      50000.00 and tax 10000.00. */
  lemma QuantityTwoSaveExample(l: InvoiceLine, date: string, deadline: string, nums: Numerics)
    requires l.id == 90 && l.productId == 5 && l.quantity == 3
    requires l.product.unitPrice == Some("25000.00") && l.vatRate == Some("20")
    requires nums.parseFloat("25000.00") == Some(25000.0) && nums.parseFloat("20") == Some(20.0)
    requires nums.toFixed2(50000.0) == "50000.00" && nums.toFixed2(10000.0) == "10000.00"
    ensures var a := BuildPayload("321", 22, date, deadline, UpdateQuantity([LoadLine(l)], Saved(90), 2, nums), nums).lines[0];
      a.id == Some(90) && a.productId == 5 && a.quantity == 2 &&
      a.price == "50000.00" && a.tax == "10000.00" && !a.destroy
  {
    TwoAtTwentyPercentExample(nums);
    var ls := UpdateQuantity([LoadLine(l)], Saved(90), 2, nums);
    assert ls[0] == Repriced(LoadLine(l), 2, nums);
  }
  /** An edit line seen as a line of the create form: the `_destroy` mark and
      the server line id dropped, a temporary key kept as the draft's id. */
  function AsDraft(e: EditLine): InvoiceCreation.DraftLine {
    InvoiceCreation.DraftLine(if e.key.Temp? then e.key.tempId else "", e.productId, e.product,
                              e.quantity, e.labelText, e.vatRate, e.price, e.tax)
  }

  function DraftsOf(ls: seq<EditLine>): seq<InvoiceCreation.DraftLine> {
    seq(|ls|, i requires 0 <= i < |ls| => AsDraft(ls[i]))
  }

  /** The edit form repeats the create form's pricing: a new line, a repriced
      line and the amounts the calculator reads agree with the create form's,
      and the edit form's totals are the create form's totals over the lines
      not marked for deletion. */
  lemma SamePricingAsCreateForm(product: Product, tempId: string, e: EditLine, q: int,
                                ls: seq<EditLine>, nums: Numerics)
    ensures AsDraft(NewLine(product, tempId, nums)) == InvoiceCreation.NewLine(product, tempId, nums)
    ensures AsDraft(Repriced(e, q, nums)) == InvoiceCreation.Repriced(AsDraft(e), q, nums)
    ensures AmountsOf(ls) == InvoiceCreation.AmountsOf(DraftsOf(ls))
    ensures EditTotals(ls, nums) == InvoiceCreation.FormTotals(DraftsOf(ActiveLines(ls)), nums)
  {
    var active := ActiveLines(ls);
    assert AmountsOf(active) == InvoiceCreation.AmountsOf(DraftsOf(active));
  }
}
