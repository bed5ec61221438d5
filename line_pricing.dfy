/** The price and tax a draft line carries for a quantity of a product. The
    create form and the edit form compute them with the same expressions. */
module LinePricing {
  import opened JsModel

  datatype Amounts = Amounts(price: string, tax: string)

  /** price = (unitPrice * quantity).toFixed(2) and
      tax = (unitPrice * quantity * vatRate / 100).toFixed(2), where
      unitPrice = parseFloat(unit_price || '0') and vatRate = parseFloat(vat_rate || '0'). */
  function PricedAt(unitPrice: Option<string>, vatRate: Option<string>, quantity: int, nums: Numerics): (a: Amounts)
    ensures nums.parseFloat(StrOr(unitPrice, "0")).Some? ==>
      a.price == nums.toFixed2(nums.parseFloat(StrOr(unitPrice, "0")).value * (quantity as real))
    ensures nums.parseFloat(StrOr(unitPrice, "0")).Some? && nums.parseFloat(StrOr(vatRate, "0")).Some? ==>
      a.tax == nums.toFixed2(nums.parseFloat(StrOr(unitPrice, "0")).value * (quantity as real)
                             * nums.parseFloat(StrOr(vatRate, "0")).value / 100.0)
    ensures nums.parseFloat(StrOr(unitPrice, "0")).None? ==> a == Amounts("NaN", "NaN")
    ensures nums.parseFloat(StrOr(vatRate, "0")).None? ==> a.tax == "NaN"
  {
    var u := ParseFloat(StrOr(unitPrice, "0"), nums);
    var v := ParseFloat(StrOr(vatRate, "0"), nums);
    assert u.Finite? <==> nums.parseFloat(StrOr(unitPrice, "0")).Some?;
    assert u.Finite? ==> u.r == nums.parseFloat(StrOr(unitPrice, "0")).value;
    assert v.Finite? <==> nums.parseFloat(StrOr(vatRate, "0")).Some?;
    assert v.Finite? ==> v.r == nums.parseFloat(StrOr(vatRate, "0")).value;
    var gross := Mul(u, Finite(quantity as real));
    var tax := DivBy(Mul(gross, v), 100.0);
    assert nums.parseFloat(StrOr(unitPrice, "0")).Some? ==>
      gross == Finite(nums.parseFloat(StrOr(unitPrice, "0")).value * (quantity as real));
    assert nums.parseFloat(StrOr(unitPrice, "0")).Some? && nums.parseFloat(StrOr(vatRate, "0")).Some? ==>
      tax == Finite(nums.parseFloat(StrOr(unitPrice, "0")).value * (quantity as real)
                    * nums.parseFloat(StrOr(vatRate, "0")).value / 100.0);
    Amounts(ToFixed2(gross, nums), ToFixed2(tax, nums))
  }

  /** Quantity 2 of a 25000.00 product at 20% VAT is priced 50000.00 with
      10000.00 tax. */
  lemma TwoAtTwentyPercentExample(nums: Numerics)
    requires nums.parseFloat("25000.00") == Some(25000.0) && nums.parseFloat("20") == Some(20.0)
    requires nums.toFixed2(50000.0) == "50000.00" && nums.toFixed2(10000.0) == "10000.00"
    ensures PricedAt(Some("25000.00"), Some("20"), 2, nums) == Amounts("50000.00", "10000.00")
  {
  }
}
