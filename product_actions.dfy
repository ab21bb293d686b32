/** The server actions on products: the validating schema with its defaults
    (`productSchema`), and `createProduct`, `updateProduct` and
    `deleteProduct` with their success/failure records. */
module ProductActions {
  import opened Common
  import opened Product

  // ---------------------------------------------------------------------
  // What the action receives. Numbers are JavaScript numbers, so they are
  // reals here; `.int()` is the check that one of them is whole.

  datatype RawCurrency = RawCurrency(code: Option<string>, base: Option<real>, exponent: Option<real>)
  datatype RawPrice = RawPrice(amount: Option<real>, scale: Option<real>, currency: Option<RawCurrency>)
  datatype RawDiscount = RawDiscount(percent: Option<real>, expires: Nullable<real>)

  datatype RawProduct = RawProduct(
    name: string,
    description: string,
    stock: real,
    rating: real,
    productType: string,
    leadTime: real,
    isBestSeller: Option<bool>,
    isActive: Option<bool>,
    image: Option<string>,
    imageBlur: Option<string>,
    datasheet: Nullable<string>,
    images: Option<seq<string>>,
    categories: Option<seq<string>>,
    price: Option<RawPrice>,
    discount: Option<RawDiscount>,
    usedPrice: Option<RawPrice>)

  predicate IsInteger(x: real) {
    x.Floor as real == x
  }

  // ---------------------------------------------------------------------
  // Validation issues, in the order the schema reports them: fields in
  // declaration order, and for one number every failed check in the order
  // the checks are chained.

  datatype IssueKind =
    | StringTooShort(minLength: nat)
    | NotAnInteger
    | NumberTooSmall(minimum: real)
    | NumberTooBig(maximum: real)
    | ExpectedString

  /** `message` is the schema's own message where it sets one. */
  datatype Issue = Issue(path: seq<string>, kind: IssueKind, message: Option<string>)

  const NameMessage := "Name must be at least 2 characters"
  const DescriptionMessage := "Description must be at least 10 characters"
  const TypeMessage := "Type is required"

  /** `.min(n)` on a string: at least n UTF-16 code units. */
  function MinLength(path: seq<string>, s: string, minimum: nat, message: Option<string>): seq<Issue> {
    if Utf16Length(s) < minimum then [Issue(path, StringTooShort(minimum), message)] else []
  }

  function WholeAtLeast(path: seq<string>, x: real, minimum: real): seq<Issue> {
    (if IsInteger(x) then [] else [Issue(path, NotAnInteger, None)]) +
    (if x < minimum then [Issue(path, NumberTooSmall(minimum), None)] else [])
  }

  function Whole(path: seq<string>, x: real): seq<Issue> {
    if IsInteger(x) then [] else [Issue(path, NotAnInteger, None)]
  }

  function Within(path: seq<string>, x: real, minimum: real, maximum: real): seq<Issue> {
    (if x < minimum then [Issue(path, NumberTooSmall(minimum), None)] else []) +
    (if x > maximum then [Issue(path, NumberTooBig(maximum), None)] else [])
  }

  function AtLeast(path: seq<string>, x: real, minimum: real): seq<Issue> {
    if x < minimum then [Issue(path, NumberTooSmall(minimum), None)] else []
  }

  /** A missing field takes its default, which satisfies its checks; a present
      one is checked. */
  function Given<T>(x: Option<T>, check: T -> seq<Issue>): seq<Issue> {
    if x.Some? then check(x.value) else []
  }

  function CurrencyIssues(path: seq<string>, c: Option<RawCurrency>): seq<Issue> {
    match c
    case None => []
    case Some(c) =>
      Given(c.code, (s: string) => MinLength(path + ["code"], s, 1, None)) +
      Given(c.base, (x: real) => Whole(path + ["base"], x)) +
      Given(c.exponent, (x: real) => Whole(path + ["exponent"], x))
  }

  function PriceIssues(path: seq<string>, p: Option<RawPrice>): seq<Issue> {
    match p
    case None => []
    case Some(p) =>
      Given(p.amount, (x: real) => AtLeast(path + ["amount"], x, 0.0)) +
      Given(p.scale, (x: real) => Whole(path + ["scale"], x)) +
      CurrencyIssues(path + ["currency"], p.currency)
  }

  function DiscountIssues(d: Option<RawDiscount>): seq<Issue> {
    match d
    case None => []
    case Some(d) =>
      Given(d.percent, (x: real) => Within(["discount", "percent"], x, 0.0, 100.0)) +
      (if d.expires.Defined? then Whole(["discount", "expires"], d.expires.value) else [])
  }

  /** Every issue `productSchema.parse` reports, in order. */
  function Issues(raw: RawProduct): seq<Issue> {
    MinLength(["name"], raw.name, 2, Some(NameMessage)) +
    MinLength(["description"], raw.description, 10, Some(DescriptionMessage)) +
    WholeAtLeast(["stock"], raw.stock, 0.0) +
    Within(["rating"], raw.rating, 0.0, 5.0) +
    MinLength(["type"], raw.productType, 1, Some(TypeMessage)) +
    WholeAtLeast(["leadTime"], raw.leadTime, 0.0) +
    (if raw.datasheet.Null? then [Issue(["datasheet"], ExpectedString, None)] else []) +
    PriceIssues(["price"], raw.price) +
    DiscountIssues(raw.discount) +
    PriceIssues(["usedPrice"], raw.usedPrice)
  }

  // ---------------------------------------------------------------------
  // The rules, stated field by field, independently of the issue list.

  predicate CurrencyAccepted(c: Option<RawCurrency>) {
    c.Some? ==>
      (c.value.code.Some? ==> Utf16Length(c.value.code.value) >= 1) &&
      (c.value.base.Some? ==> IsInteger(c.value.base.value)) &&
      (c.value.exponent.Some? ==> IsInteger(c.value.exponent.value))
  }

  predicate PriceAccepted(p: Option<RawPrice>) {
    p.Some? ==>
      (p.value.amount.Some? ==> p.value.amount.value >= 0.0) &&
      (p.value.scale.Some? ==> IsInteger(p.value.scale.value)) &&
      CurrencyAccepted(p.value.currency)
  }

  predicate DiscountAccepted(d: Option<RawDiscount>) {
    d.Some? ==>
      (d.value.percent.Some? ==> 0.0 <= d.value.percent.value <= 100.0) &&
      (d.value.expires.Defined? ==> IsInteger(d.value.expires.value))
  }

  /** What `productSchema` demands of its input. */
  predicate Accepted(raw: RawProduct) {
    Utf16Length(raw.name) >= 2 && Utf16Length(raw.description) >= 10 &&
    IsInteger(raw.stock) && raw.stock >= 0.0 &&
    0.0 <= raw.rating <= 5.0 &&
    Utf16Length(raw.productType) >= 1 &&
    IsInteger(raw.leadTime) && raw.leadTime >= 0.0 &&
    !raw.datasheet.Null? &&
    PriceAccepted(raw.price) && DiscountAccepted(raw.discount) && PriceAccepted(raw.usedPrice)
  }

  lemma CurrencyIssuesEmpty(path: seq<string>, c: Option<RawCurrency>)
    ensures CurrencyIssues(path, c) == [] <==> CurrencyAccepted(c)
  {
  }

  lemma PriceIssuesEmpty(path: seq<string>, p: Option<RawPrice>)
    ensures PriceIssues(path, p) == [] <==> PriceAccepted(p)
  {
    if p.Some? {
      CurrencyIssuesEmpty(path + ["currency"], p.value.currency);
    }
  }

  /** The schema reports no issue exactly when its rules hold. */
  lemma IssuesEmptyIff(raw: RawProduct)
    ensures Issues(raw) == [] <==> Accepted(raw)
  {
    PriceIssuesEmpty(["price"], raw.price);
    PriceIssuesEmpty(["usedPrice"], raw.usedPrice);
  }

  // ---------------------------------------------------------------------
  // The parsed record, defaults filled in

  function ParseCurrency(c: Option<RawCurrency>): Currency {
    match c
    case None => Usd
    case Some(c) => Currency(c.code.GetOr("USD"), c.base.GetOr(10.0).Floor, c.exponent.GetOr(2.0).Floor)
  }

  function ParsePrice(p: Option<RawPrice>): Price {
    match p
    case None => ZeroPrice
    case Some(p) => Price(p.amount.GetOr(0.0), p.scale.GetOr(100.0).Floor, ParseCurrency(p.currency))
  }

  function ParseDiscount(d: Option<RawDiscount>): Discount {
    match d
    case None => NoDiscount
    case Some(d) =>
      Discount(d.percent.GetOr(0.0), if d.expires.Defined? then Some(d.expires.value.Floor) else None)
  }

  /** The record the schema yields for an input it accepts. */
  function WithDefaults(raw: RawProduct): ProductData {
    ProductData(
      raw.name, raw.description, raw.stock.Floor, raw.rating, raw.productType, raw.leadTime.Floor,
      raw.isBestSeller.GetOr(false), raw.isActive.GetOr(true),
      raw.image.GetOr(""), raw.imageBlur.GetOr(""),
      if raw.datasheet.Defined? then raw.datasheet.value else "",
      raw.images.GetOr([]), raw.categories.GetOr([]),
      ParsePrice(raw.price), ParseDiscount(raw.discount), ParsePrice(raw.usedPrice))
  }

  /** A parsed currency keeps every key that was given and holds the default
      for every key that was not. */
  predicate CurrencyFrom(given: Option<RawCurrency>, c: Currency) {
    match given
    case None => c == Currency("USD", 10, 2)
    case Some(g) =>
      (if g.code.Some? then c.code == g.code.value else c.code == "USD") &&
      (if g.base.Some? then c.base as real == g.base.value else c.base == 10) &&
      (if g.exponent.Some? then c.exponent as real == g.exponent.value else c.exponent == 2)
  }

  /** The same for a price, down to its currency. */
  predicate PriceFrom(given: Option<RawPrice>, p: Price) {
    match given
    case None => p == Price(0.0, 100, Currency("USD", 10, 2))
    case Some(g) =>
      (if g.amount.Some? then p.amount == g.amount.value else p.amount == 0.0) &&
      (if g.scale.Some? then p.scale as real == g.scale.value else p.scale == 100) &&
      CurrencyFrom(g.currency, p.currency)
  }

  /** The same for a discount; a `null` or absent expiry is none. */
  predicate DiscountFrom(given: Option<RawDiscount>, d: Discount) {
    match given
    case None => d == Discount(0.0, None)
    case Some(g) =>
      (if g.percent.Some? then d.percent == g.percent.value else d.percent == 0.0) &&
      (if g.expires.Defined? then d.expires.Some? && d.expires.value as real == g.expires.value
       else d.expires == None)
  }

  /** What the defaults-filling does to an accepted input, key by key. */
  lemma WithDefaultsSpec(raw: RawProduct)
    requires Accepted(raw)
    ensures ValidProduct(WithDefaults(raw))
    ensures PriceFrom(raw.price, WithDefaults(raw).price)
    ensures DiscountFrom(raw.discount, WithDefaults(raw).discount)
    ensures PriceFrom(raw.usedPrice, WithDefaults(raw).usedPrice)
  {
  }

  datatype ParseResult = Parsed(data: ProductData) | ZodError(issues: seq<Issue>)

  /** `productSchema.parse(raw)`: the record with defaults, or every issue. */
  function Parse(raw: RawProduct): (r: ParseResult)
    ensures r.Parsed? <==> Accepted(raw)
    ensures r.ZodError? ==> r.issues != [] && r.issues == Issues(raw)
    ensures r.Parsed? ==> ValidProduct(r.data)
    // values are kept as given
    ensures r.Parsed? ==> r.data.name == raw.name && r.data.description == raw.description &&
                          r.data.stock as real == raw.stock && r.data.rating == raw.rating &&
                          r.data.productType == raw.productType && r.data.leadTime as real == raw.leadTime
    ensures r.Parsed? ==> (raw.images.Some? ==> r.data.images == raw.images.value) &&
                          (raw.categories.Some? ==> r.data.categories == raw.categories.value) &&
                          (raw.image.Some? ==> r.data.image == raw.image.value) &&
                          (raw.imageBlur.Some? ==> r.data.imageBlur == raw.imageBlur.value) &&
                          (raw.datasheet.Defined? ==> r.data.datasheet == raw.datasheet.value) &&
                          (raw.isBestSeller.Some? ==> r.data.isBestSeller == raw.isBestSeller.value) &&
                          (raw.isActive.Some? ==> r.data.isActive == raw.isActive.value)
    // defaults for absent fields
    ensures r.Parsed? ==> (raw.images.None? ==> r.data.images == []) &&
                          (raw.categories.None? ==> r.data.categories == []) &&
                          (raw.image.None? ==> r.data.image == "") &&
                          (raw.imageBlur.None? ==> r.data.imageBlur == "") &&
                          (raw.datasheet.Undefined? ==> r.data.datasheet == "") &&
                          (raw.isBestSeller.None? ==> !r.data.isBestSeller) &&
                          (raw.isActive.None? ==> r.data.isActive)
    // the nested records, key by key (absent ones default to 0 at scale 100
    // in USD/10/2, and 0 % with no expiry)
    ensures r.Parsed? ==> PriceFrom(raw.price, r.data.price) &&
                          DiscountFrom(raw.discount, r.data.discount) &&
                          PriceFrom(raw.usedPrice, r.data.usedPrice)
  {
    IssuesEmptyIff(raw);
    if Issues(raw) == [] then
      WithDefaultsSpec(raw);
      Parsed(WithDefaults(raw))
    else ZodError(Issues(raw))
  }

  // ---------------------------------------------------------------------
  // Round trip: a validated record, sent again, parses to itself.

  function RawOf(d: ProductData): RawProduct {
    RawProduct(
      d.name, d.description, d.stock as real, d.rating, d.productType, d.leadTime as real,
      Some(d.isBestSeller), Some(d.isActive), Some(d.image), Some(d.imageBlur), Defined(d.datasheet),
      Some(d.images), Some(d.categories),
      Some(RawPriceOf(d.price)),
      Some(RawDiscountOf(d.discount)),
      Some(RawPriceOf(d.usedPrice)))
  }

  function RawPriceOf(p: Price): RawPrice {
    RawPrice(Some(p.amount), Some(p.scale as real),
             Some(RawCurrency(Some(p.currency.code), Some(p.currency.base as real), Some(p.currency.exponent as real))))
  }

  function RawDiscountOf(d: Discount): RawDiscount {
    RawDiscount(Some(d.percent), if d.expires.Some? then Defined(d.expires.value as real) else Null)
  }

  lemma ParseRoundTrip(d: ProductData)
    requires ValidProduct(d)
    ensures Parse(RawOf(d)) == Parsed(d)
  {
    assert Accepted(RawOf(d));
  }

  /** Parsing is idempotent: what the schema yields, it accepts unchanged. */
  lemma ParseIdempotent(raw: RawProduct)
    requires Parse(raw).Parsed?
    ensures Parse(RawOf(Parse(raw).data)) == Parse(raw)
  {
    ParseRoundTrip(Parse(raw).data);
  }

  /** Each rule broken shows up as an issue at its path. */
  lemma ShortNameReported(raw: RawProduct)
    requires Utf16Length(raw.name) < 2
    ensures Issue(["name"], StringTooShort(2), Some("Name must be at least 2 characters")) in Issues(raw)
  {
  }

  lemma FractionalStockReported(raw: RawProduct)
    requires !IsInteger(raw.stock)
    ensures Issue(["stock"], NotAnInteger, None) in Issues(raw)
  {
  }

  lemma RatingOutOfRangeReported(raw: RawProduct)
    requires raw.rating > 5.0
    ensures Issue(["rating"], NumberTooBig(5.0), None) in Issues(raw)
  {
  }

  lemma PercentOutOfRangeReported(raw: RawProduct, d: RawDiscount)
    requires raw.discount == Some(d) && d.percent.Some? && d.percent.value > 100.0
    ensures Issue(["discount", "percent"], NumberTooBig(100.0), None) in Issues(raw)
  {
  }

  // ---------------------------------------------------------------------
  // The actions. `effectsThrow` says whether the code after validation (the
  // delay, the log and `revalidatePath`) threw.

  datatype ActionResult =
    | Saved(data: ProductData)          // { success: true, data }
    | Rejected(issues: seq<Issue>)      // { success: false, error: error.errors }
    | Failed(message: string)           // { success: false, error: "..." }
  {
    predicate Success() { Saved? }
  }

  /** `createProduct(formData)` */
  function CreateProduct(formData: RawProduct, effectsThrow: bool): (r: ActionResult)
    ensures r.Success() <==> Accepted(formData) && !effectsThrow
    ensures r.Saved? ==> Parse(formData) == Parsed(r.data)
    ensures r.Rejected? <==> !Accepted(formData)
    ensures r.Rejected? ==> r.issues == Issues(formData) && r.issues != []
    ensures r.Failed? ==> r.message == "Failed to create product"
  {
    match Parse(formData)
    case ZodError(issues) => Rejected(issues)
    case Parsed(data) => if effectsThrow then Failed("Failed to create product") else Saved(data)
  }

  /** `updateProduct(id, formData)`: the id only names what to revalidate. */
  function UpdateProduct(id: string, formData: RawProduct, effectsThrow: bool): (r: ActionResult)
    ensures r.Success() <==> Accepted(formData) && !effectsThrow
    ensures r.Saved? ==> Parse(formData) == Parsed(r.data)
    ensures r.Rejected? <==> !Accepted(formData)
    ensures r.Rejected? ==> r.issues == Issues(formData) && r.issues != []
    ensures r.Failed? ==> r.message == "Failed to update product"
  {
    match Parse(formData)
    case ZodError(issues) => Rejected(issues)
    case Parsed(data) => if effectsThrow then Failed("Failed to update product") else Saved(data)
  }

  /** Update and create differ only in the wording of the fixed failure
      message, whatever the id. */
  lemma UpdateMatchesCreate(id: string, formData: RawProduct, effectsThrow: bool)
    ensures var u := UpdateProduct(id, formData, effectsThrow);
            var c := CreateProduct(formData, effectsThrow);
            u == (if c.Failed? then Failed("Failed to update product") else c)
  {
  }

  datatype DeleteResult = Deleted | DeleteFailed(message: string)

  /** `deleteProduct(id)`: nothing is validated. */
  function DeleteProduct(id: string, effectsThrow: bool): (r: DeleteResult)
    ensures r.Deleted? <==> !effectsThrow
    ensures r.DeleteFailed? ==> r.message == "Failed to delete product"
  {
    if effectsThrow then DeleteFailed("Failed to delete product") else Deleted
  }

  /** The outcome of a delete never depends on the id. */
  lemma DeleteIgnoresId(a: string, b: string, effectsThrow: bool)
    ensures DeleteProduct(a, effectsThrow) == DeleteProduct(b, effectsThrow)
  {
  }
}
