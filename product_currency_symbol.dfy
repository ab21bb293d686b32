/** The currency symbol shown in front of a price, and the money value the
    shop's price components render. */
module ProductCurrencySymbol {
  import opened Product

  /** A dinero.js amount: `amount` in units of `currency.base` to the minus
      `scale`. */
  datatype Dinero = Dinero(amount: int, currency: Currency, scale: int)

  /** The symbol for a currency code: the pound and the euro are named and
      every other code, the dollar among them, gets the dollar sign. */
  function Symbol(code: string): (r: string)
    ensures r == "\U{00A3}" <==> code == "GBP"
    ensures r == "\U{20AC}" <==> code == "EUR"
    ensures r == "$" <==> code != "GBP" && code != "EUR"
    ensures r != ""
  {
    if code == "GBP" then "\U{00A3}"
    else if code == "EUR" then "\U{20AC}"
    else "$"
  }

  /** `ProductCurrencySymbol({ dinero })` */
  function CurrencySymbol(d: Dinero): (r: string)
    ensures r in {"\U{00A3}", "\U{20AC}", "$"}
  {
    Symbol(d.currency.code)
  }

  /** The symbol depends on the currency code alone. */
  lemma SymbolIgnoresAmount(d: Dinero, e: Dinero)
    requires d.currency.code == e.currency.code
    ensures CurrencySymbol(d) == CurrencySymbol(e)
  {
  }

  lemma KnownCodes()
    ensures Symbol("GBP") == "\U{00A3}" && Symbol("EUR") == "\U{20AC}" && Symbol("USD") == "$"
  {
  }
}
