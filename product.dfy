/** The product record shared by the server action and both product editors
    (the shapes of `Product`, `Price`, `Currency` and `Discount`), the
    schema bounds every one of them enforces, and the field-by-field spread
    merge the editors use to complete a partial product with defaults. */
module Product {
  import opened Common

  datatype Currency = Currency(code: string, base: int, exponent: int)

  /** A fixed-point amount as stored: `amount` in units of 1/`scale`. */
  datatype Price = Price(amount: real, scale: int, currency: Currency)

  /** `expires` is a number of days, or `null`. */
  datatype Discount = Discount(percent: real, expires: Option<int>)

  /** A validated product, as the server action's schema produces it. */
  datatype ProductData = ProductData(
    name: string,
    description: string,
    stock: int,
    rating: real,
    productType: string,
    leadTime: int,
    isBestSeller: bool,
    isActive: bool,
    image: string,
    imageBlur: string,
    datasheet: string,
    images: seq<string>,
    categories: seq<string>,
    price: Price,
    discount: Discount,
    usedPrice: Price)

  /** The tabs of both product editors. */
  datatype Tab = Basic | Pricing | Media | Categorization

  /** The defaults every schema and every editor uses. */
  const Usd := Currency("USD", 10, 2)
  const ZeroPrice := Price(0.0, 100, Usd)
  const NoDiscount := Discount(0.0, None)

  // ---------------------------------------------------------------------
  // Bounds common to every product schema of the repository

  /** name at least 2 UTF-16 code units, description at least 10, stock and
      lead time non-negative, rating within [0, 5], type non-empty. */
  predicate ValidBasics(name: string, description: string, stock: int, rating: real,
                        productType: string, leadTime: int)
  {
    Utf16Length(name) >= 2 && Utf16Length(description) >= 10 && stock >= 0 && 0.0 <= rating <= 5.0 &&
    Utf16Length(productType) >= 1 && leadTime >= 0
  }

  /** A non-negative amount in a currency with a non-empty code. */
  predicate ValidPrice(p: Price) {
    p.amount >= 0.0 && Utf16Length(p.currency.code) >= 1
  }

  /** A percentage within [0, 100]. */
  predicate ValidDiscount(d: Discount) {
    0.0 <= d.percent <= 100.0
  }

  predicate ValidProduct(d: ProductData) {
    ValidBasics(d.name, d.description, d.stock, d.rating, d.productType, d.leadTime) &&
    ValidPrice(d.price) && ValidDiscount(d.discount) && ValidPrice(d.usedPrice)
  }

  lemma DefaultsValid()
    ensures ValidPrice(ZeroPrice) && ValidDiscount(NoDiscount)
  {
  }

  // ---------------------------------------------------------------------
  // Partial sub-records and the spread merge `{ ...defaults, ...(given || {}) }`
  //
  // A field is `Some` when the key is present in the given object.

  datatype PartialCurrency = PartialCurrency(code: Option<string>, base: Option<int>, exponent: Option<int>)
  datatype PartialPrice = PartialPrice(amount: Option<real>, scale: Option<int>, currency: Option<PartialCurrency>)
  datatype PartialDiscount = PartialDiscount(percent: Option<real>, expires: Option<Option<int>>)

  /** Key by key, each field of `r` comes from the given object when the key
      is present there, and from the default otherwise. */
  predicate CurrencyOver(d: Currency, given: Option<PartialCurrency>, r: Currency) {
    match given
    case None => r == d
    case Some(g) =>
      r.code == g.code.GetOr(d.code) && r.base == g.base.GetOr(d.base) &&
      r.exponent == g.exponent.GetOr(d.exponent)
  }

  predicate PriceOver(d: Price, given: Option<PartialPrice>, r: Price) {
    match given
    case None => r == d
    case Some(g) =>
      r.amount == g.amount.GetOr(d.amount) && r.scale == g.scale.GetOr(d.scale) &&
      CurrencyOver(d.currency, g.currency, r.currency)
  }

  predicate DiscountOver(d: Discount, given: Option<PartialDiscount>, r: Discount) {
    match given
    case None => r == d
    case Some(g) => r.percent == g.percent.GetOr(d.percent) && r.expires == g.expires.GetOr(d.expires)
  }

  /** `{ ...d, ...(given || {}) }` for a currency: each field from the given
      object when present, otherwise from the default. */
  function MergeCurrency(d: Currency, given: Option<PartialCurrency>): (r: Currency)
    ensures given.None? ==> r == d
    ensures CurrencyOver(d, given, r)
  {
    match given
    case None => d
    case Some(p) =>
      d.(code := if p.code.Some? then p.code.value else d.code,
         base := if p.base.Some? then p.base.value else d.base,
         exponent := if p.exponent.Some? then p.exponent.value else d.exponent)
  }

  /** `{ ...d, ...(given || {}), currency: { ...d.currency, ...(given?.currency || {}) } }` */
  function MergePrice(d: Price, given: Option<PartialPrice>): (r: Price)
    ensures given.None? ==> r == d
    ensures PriceOver(d, given, r)
  {
    match given
    case None => d
    case Some(p) =>
      Price(if p.amount.Some? then p.amount.value else d.amount,
            if p.scale.Some? then p.scale.value else d.scale,
            MergeCurrency(d.currency, p.currency))
  }

  /** `{ ...d, ...(given || {}) }` for a discount. */
  function MergeDiscount(d: Discount, given: Option<PartialDiscount>): (r: Discount)
    ensures given.None? ==> r == d
    ensures DiscountOver(d, given, r)
  {
    match given
    case None => d
    case Some(p) =>
      Discount(if p.percent.Some? then p.percent.value else d.percent,
               if p.expires.Some? then p.expires.value else d.expires)
  }

  /** Every key present. */
  function WholeCurrency(c: Currency): PartialCurrency {
    PartialCurrency(Some(c.code), Some(c.base), Some(c.exponent))
  }

  function WholePrice(p: Price): PartialPrice {
    PartialPrice(Some(p.amount), Some(p.scale), Some(WholeCurrency(p.currency)))
  }

  function WholeDiscount(d: Discount): PartialDiscount {
    PartialDiscount(Some(d.percent), Some(d.expires))
  }

  /** A complete given record wins over every default. */
  lemma MergeWhole(dp: Price, p: Price, dd: Discount, d: Discount)
    ensures MergePrice(dp, Some(WholePrice(p))) == p
    ensures MergeDiscount(dd, Some(WholeDiscount(d))) == d
  {
  }

  /** A given record with no keys leaves the defaults as they are. */
  lemma MergeEmpty(dp: Price, dd: Discount)
    ensures MergePrice(dp, Some(PartialPrice(None, None, None))) == dp
    ensures MergePrice(dp, Some(PartialPrice(None, None, Some(PartialCurrency(None, None, None))))) == dp
    ensures MergeDiscount(dd, Some(PartialDiscount(None, None))) == dd
  {
  }

  /** Merging the same given record a second time changes nothing. */
  lemma MergeIdempotent(dp: Price, p: Option<PartialPrice>, dd: Discount, d: Option<PartialDiscount>)
    ensures MergePrice(MergePrice(dp, p), p) == MergePrice(dp, p)
    ensures MergeDiscount(MergeDiscount(dd, d), d) == MergeDiscount(dd, d)
  {
  }
}
