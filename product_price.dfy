/** How the shop presents a product's price: the discount it detects, the
    discount amount in exact fixed point, and the component it chooses. */
module ProductPrice {
  import opened Common
  import opened Product
  import opened ProductCurrencySymbol

  /** The `discount` of a product as the price component receives it: absent,
      or an object whose `percent` may or may not be a number (`None` when it
      is not) and whose `expires` is a number or missing. */
  datatype RawDiscount = Absent | Given(percent: Option<int>, expires: Option<int>)

  /** `isDiscount`: the value carries a numeric `percent`. */
  predicate IsDiscount(raw: RawDiscount) {
    raw.Given? && raw.percent.Some?
  }

  /** `{ amount, expires }` */
  datatype FormattedDiscount = FormattedDiscount(amount: Dinero, expires: Option<int>)

  /** `base` to the power `n`. */
  function Pow(base: int, n: nat): int {
    if n == 0 then 1 else base * Pow(base, n - 1)
  }

  lemma {:induction false} PowPositive(base: int, n: nat)
    requires base > 0
    ensures Pow(base, n) > 0
  {
    if n > 0 {
      PowPositive(base, n - 1);
    }
  }

  lemma {:induction false} PowAdd(base: int, m: nat, n: nat)
    ensures Pow(base, m + n) == Pow(base, m) * Pow(base, n)
  {
    if n > 0 {
      PowAdd(base, m, n - 1);
      assert Pow(base, m + n) == base * Pow(base, m + n - 1);
    }
  }

  /** What `toDecimal` denotes: the amount divided by base to the scale. */
  function Value(d: Dinero): real
    requires d.currency.base > 0 && d.scale >= 0
  {
    PowPositive(d.currency.base, d.scale);
    d.amount as real / Pow(d.currency.base, d.scale) as real
  }

  /** `formatDiscount`: nothing without a discount; otherwise the price
      multiplied by `{ amount: percent, scale: 2 }`, in the price's currency,
      with `expires` passed through. */
  function FormatDiscount(price: Dinero, raw: RawDiscount): (r: Option<FormattedDiscount>)
    ensures r.Some? <==> IsDiscount(raw)
    ensures r.Some? ==> r.value.expires == raw.expires && r.value.amount.currency == price.currency
    ensures r.Some? && price.currency.base > 0 && price.scale >= 0 ==>
              r.value.amount.scale >= 0 &&
              Value(r.value.amount) ==
                Value(price) * raw.percent.value as real / (price.currency.base * price.currency.base) as real
  {
    if IsDiscount(raw) then
      var amount := Dinero(price.amount * raw.percent.value, price.currency, price.scale + 2);
      if price.currency.base > 0 && price.scale >= 0 then
        DiscountValue(price, raw.percent.value);
        Some(FormattedDiscount(amount, raw.expires))
      else
        Some(FormattedDiscount(amount, raw.expires))
    else None
  }

  /** Multiplying by `percent` at two extra places of scale is multiplying
      the value by `percent` / base squared. */
  lemma DiscountValue(price: Dinero, percent: int)
    requires price.currency.base > 0 && price.scale >= 0
    ensures var m := Dinero(price.amount * percent, price.currency, price.scale + 2);
            Value(m) == Value(price) * percent as real / (price.currency.base * price.currency.base) as real
  {
    var b := price.currency.base;
    PowAdd(b, price.scale, 2);
    PowPositive(b, price.scale);
    var p := Pow(b, price.scale) as real;
    assert Pow(b, price.scale + 2) as real == p * (b * b) as real;
    var bb := (b * b) as real;
    assert (price.amount * percent) as real == price.amount as real * percent as real;
    DivideInTwo(price.amount as real, percent as real, p, bb);
  }

  /** Dividing by a product is dividing by each factor in turn. */
  lemma DivideInTwo(a: real, q: real, p: real, bb: real)
    requires p > 0.0 && bb > 0.0
    ensures (a * q) / (p * bb) == (a / p) * q / bb
  {
    var x := a / p;
    var lhs := (a * q) / (p * bb);
    var rhs := x * q / bb;
    assert x * p == a;
    assert lhs * (p * bb) == a * q;
    assert rhs * bb == x * q;
    assert rhs * (p * bb) == (rhs * bb) * p;
    assert (x * q) * p == (x * p) * q;
    assert rhs * (p * bb) == lhs * (p * bb);
  }

  /** In a decimal currency the discount is `percent` hundredths of the price. */
  lemma DecimalDiscount(price: Dinero, percent: int)
    requires price.currency.base == 10 && price.scale >= 0
    ensures var r := FormatDiscount(price, Given(Some(percent), None));
            r.Some? && Value(r.value.amount) == Value(price) * percent as real / 100.0
  {
  }

  /** The component `ProductPrice` renders. */
  datatype View =
    | PlainPrice(symbol: string, price: Dinero)
    | Deal(price: Dinero, discount: FormattedDiscount)
    | LighteningDeal(price: Dinero, discount: FormattedDiscount)

  /** `ProductPrice({ price, discount })`: with a discount, the lightning deal
      when `expires` is a non-zero number and the plain deal otherwise;
      without one, the symbol and the price. */
  function ProductPriceView(price: Dinero, raw: RawDiscount): (r: View)
    ensures r.PlainPrice? <==> !IsDiscount(raw)
    ensures r.LighteningDeal? <==> IsDiscount(raw) && raw.expires.Some? && raw.expires.value != 0
    ensures r.Deal? <==> IsDiscount(raw) && (raw.expires.None? || raw.expires.value == 0)
    ensures r.PlainPrice? ==> r == PlainPrice(CurrencySymbol(price), price)
    ensures !r.PlainPrice? ==> r.price == price && Some(r.discount) == FormatDiscount(price, raw)
  {
    match FormatDiscount(price, raw)
    case None => PlainPrice(CurrencySymbol(price), price)
    case Some(discount) =>
      if discount.expires.Some? && discount.expires.value != 0 then LighteningDeal(price, discount)
      else Deal(price, discount)
  }
}
