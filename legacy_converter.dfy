/**
 * The stand-alone converter of `scripts.js`: a static table of prices for
 * three coins in two currencies, and `render`, which on every change sets
 * the error line, the unit-price line and the result line from the selected
 * coin, the selected currency and the typed amount.
 */
module LegacyConverter {
  import opened Js
  import Text

  /** `RATES`: price of one coin, by provider id and currency. */
  const Rates: map<string, map<string, real>> := map[
    "bitcoin" := map["usd" := 60000.0, "eur" := 55000.0],
    "ethereum" := map["usd" := 2800.0, "eur" := 2600.0],
    "solana" := map["usd" := 160.0, "eur" := 150.0]
  ]

  /** `SYMBOL`: ticker of each coin. */
  const Tickers: map<string, string> := map["bitcoin" := "BTC", "ethereum" := "ETH", "solana" := "SOL"]

  const RateUnavailable: string := "Tarifa no disponible para esa combinación."
  const InvalidAmountText: string := "Introduce una cantidad válida (≥ 0)."

  /** What a line shows: a dash, the price of one coin, or the converted total. */
  datatype Line =
    | Dash
    | UnitPrice(ticker: string, price: real, currency: string)
    | Total(amount: JsNumber, ticker: string, total: JsNumber, currency: string)

  /** The three outputs of `render`: error text, unit-price line, result line. */
  datatype View = View(error: string, unitPrice: Line, result: Line)

  /** `(RATES[crypto] || {})[fiat]` when it is a number. */
  function TablePrice(crypto: string, fiat: string): Option<real>
  {
    if crypto in Rates && fiat in Rates[crypto] then Some(Rates[crypto][fiat]) else None
  }

  /** `SYMBOL[crypto]` as a template literal prints it. */
  function Ticker(crypto: string): string
  {
    if crypto in Tickers then Tickers[crypto] else "undefined"
  }

  /** The amount check: neither NaN nor negative; zero is accepted. */
  predicate AcceptedAmount(n: JsNumber)
  {
    match n
    case Finite(v) => v >= 0.0
    case NotANumber => false
    case PosInfinity => true
    case NegInfinity => false
  }

  /**
   * `render()`, where `raw` is the trimmed text of the amount field and
   * `parsed` is `parseFloat(raw)`. The error starts cleared; a missing
   * rate blanks both lines; the unit price is shown before the amount is
   * looked at; an empty amount blanks the result without an error.
   */
  function Render(crypto: string, fiat: string, raw: string, parsed: JsNumber): (v: View)
    ensures v.error == "" <==> TablePrice(crypto, fiat).Some? && (raw == "" || AcceptedAmount(parsed))
    ensures v.unitPrice.UnitPrice? <==> TablePrice(crypto, fiat).Some?
    ensures !v.unitPrice.UnitPrice? ==> v.unitPrice == Dash
    ensures v.unitPrice.UnitPrice? ==>
              v.unitPrice == UnitPrice(Ticker(crypto), TablePrice(crypto, fiat).value, Text.Upper(fiat))
    ensures !v.result.Total? ==> v.result == Dash
    ensures v.error != "" ==> v.error == RateUnavailable || v.error == InvalidAmountText
    ensures v.result.Total? <==> TablePrice(crypto, fiat).Some? && raw != "" && AcceptedAmount(parsed)
    ensures v.result.Total? ==> v.result == Total(parsed, Ticker(crypto), Times(parsed, TablePrice(crypto, fiat).value), Text.Upper(fiat))
  {
    var error := "";
    var price := TablePrice(crypto, fiat);
    if price.None? then
      View(RateUnavailable, Dash, Dash)
    else
      var currency := Text.Upper(fiat);
      var unit := UnitPrice(Ticker(crypto), price.value, currency);
      if raw == "" then
        View(error, unit, Dash)
      else if !AcceptedAmount(parsed) then
        View(InvalidAmountText, unit, Dash)
      else
        View(error, unit, Total(parsed, Ticker(crypto), Times(parsed, price.value), currency))
  }

  // ----- Properties of the legacy converter -----

  /** The table prices every coin in both currencies, and every priced coin has a ticker. */
  lemma TableIsComplete(crypto: string, fiat: string)
    requires crypto in {"bitcoin", "ethereum", "solana"} && fiat in {"usd", "eur"}
    ensures TablePrice(crypto, fiat).Some? && TablePrice(crypto, fiat).value > 0.0
    ensures crypto in Tickers
  {
  }

  /** An unknown coin or currency blanks both lines and reports the missing rate. */
  lemma UnavailableRate(crypto: string, fiat: string, raw: string, parsed: JsNumber)
    requires TablePrice(crypto, fiat).None?
    ensures Render(crypto, fiat, raw, parsed) == View(RateUnavailable, Dash, Dash)
  {
  }

  /** An empty amount shows '—' as the result, with no error, while the unit price stays. */
  lemma EmptyAmount(crypto: string, fiat: string, parsed: JsNumber)
    requires TablePrice(crypto, fiat).Some?
    ensures Render(crypto, fiat, "", parsed).result == Dash
    ensures Render(crypto, fiat, "", parsed).error == ""
    ensures Render(crypto, fiat, "", parsed).unitPrice.UnitPrice?
  {
  }

  /** NaN or a negative amount blanks the result and reports it; the unit price stays. */
  lemma RejectedAmount(crypto: string, fiat: string, raw: string, parsed: JsNumber)
    requires TablePrice(crypto, fiat).Some? && raw != ""
    requires parsed.NotANumber? || parsed.NegInfinity? || (parsed.Finite? && parsed.value < 0.0)
    ensures Render(crypto, fiat, raw, parsed).error == InvalidAmountText
    ensures Render(crypto, fiat, raw, parsed).result == Dash
    ensures Render(crypto, fiat, raw, parsed).unitPrice.UnitPrice?
  {
  }

  /** A finite non-negative amount, zero included, is multiplied by the unit price. */
  lemma TotalIsAmountTimesPrice(crypto: string, fiat: string, raw: string, amount: real)
    requires TablePrice(crypto, fiat).Some? && raw != "" && amount >= 0.0
    ensures Render(crypto, fiat, raw, Finite(amount)).result.Total?
    ensures Render(crypto, fiat, raw, Finite(amount)).result.total == Finite(amount * TablePrice(crypto, fiat).value)
    ensures Render(crypto, fiat, raw, Finite(amount)).error == ""
  {
  }
}
