# CriptoConverter price pipeline, in Dafny

This project models the price-resolution and conversion pipeline of a
browser crypto/fiat converter:

- **Asset catalog** (`Catalog`, `catalog.dfy`): the five coins of `COINS`
  (btc, eth, sol, xrp, ada, with their provider ids), the two currencies of
  `FIAT` (usd, eur), their union `ASSETS`, `coinInfo`, the id-to-symbol
  search of the series fallback, the comma-joined id list of the price
  query, and `labelFor`.
- **Rate snapshot** (`RateSource`, `rate_source.dfy`): `getSimplePrices`
  turns the provider payload into `{base, rates}`. The requested fiat is 1,
  the other fiat is NaN, and each coin gets `Number(data[id][vs])`. Any
  failure selects the bundled fallback document: a transport error, a
  non-OK status, an unparsable body, or a coin id that is absent or null.
  The loop that fills the rates is a method proved against a specification
  function.
- **Series** (`SeriesSource`, `series_source.dfy`): `get7dSeries` passes the
  market chart through point by point. On failure it builds seven flat
  points, one day apart and ending at `now`. Their price is the coin's spot
  rate, or 1 when that rate is falsy. The fiat branch of `updateChart`
  draws a single point at 1.
- **Conversion engine** (`Conversion`, `conversion.dfy`): the checks of
  `onConvert`, the USD prices of both legs, the three-branch gross result,
  and the 0.35% fee and the net, each rounded the way `toFixed(8)` rounds.
- **Application state** (`App`, `app.dfy`): `readJSON` and its default, the
  form prefill, and the conversion history. A class `AppStore` owns the
  prefill and history keys; its `OnConvert` pushes each ticket at the head
  of a history capped at 50.
- **Legacy converter** (`LegacyConverter`, `legacy_converter.dfy`): the
  `render` logic of `scripts.js` over its static rate table, as a pure
  function returning the error, unit-price and result lines.
- `Js` (`js.dfy`) and `Text` (`text.dfy`) hold the JavaScript value shapes
  (`Rate = Num | NaN | Missing`, with truthiness) and the string helpers
  (`join`, `split`, ASCII `toUpperCase`).

Numbers are mathematical reals. NaN and `undefined` are explicit
constructors. Every network call is an input: either `Reply(status, body)`,
where the body is `None` when it does not parse, or `NetworkFailure`. The
bundled `rates.json` is an input snapshot. The ticket id, the date and
`now` are inputs as well.

Points worth knowing about what the code does, and so what the model does:

- The live series has as many points as the provider returns; only the
  fallback series has exactly seven.
- Every conversion is priced in `"usd"`, written literally; there is no
  configurable pivot currency.
- For a coin id that is not in the catalog, the series fallback reads the
  property named `"undefined"`. This is how JavaScript coerces the
  undefined key.
- A failure to read the bundled document is not handled. It propagates out
  of the call.

## Model

| member | source | states |
|---|---|---|
| `Js.FindIndex` | js/api.js:69 | the index is of the first element satisfying the predicate; none before it does; `|s|` means not found |
| `Text.Join` | js/api.js:38-40 | the joined text starts with the first piece, followed by the separator when more pieces follow |
| `Text.SplitJoin` | js/api.js:38-40 | splitting the comma-joined list gives back the list when no piece contains a comma (join has an inverse) |
| `Text.Upper` | js/app.js:74 | `toUpperCase` keeps the length and upper-cases each ASCII letter in place |
| `Catalog.Get` | js/api.js:80 | an object lookup finds a value exactly when the key is among the keys, and that value is one stored under the key |
| `Catalog.GetAt` | js/api.js:80 | with distinct keys, looking up entry i's key yields entry i's value |
| `Catalog.Assets` | js/api.js:33 | the spread lists every coin entry in order, then every fiat entry in order |
| `Catalog.CoinIds` | js/api.js:38-39 | one id per coin, in catalog order |
| `Catalog.SymbolsWrittenOut` | js/api.js:2-33 | the coin symbols are btc, eth, sol, xrp, ada; the fiat symbols usd, eur; `ASSETS` keys are the two lists joined |
| `Catalog.SymbolsDistinct` | js/api.js:2-33 | no symbol occurs twice, among the coins or among all assets |
| `Catalog.IdsDistinct` | js/api.js:2-27 | no provider id occurs twice, and none contains a comma |
| `Catalog.AssetOrder` | js/api.js:33 | `ASSETS` keys are btc, eth, sol, xrp, ada, usd, eur, in that order |
| `Catalog.CoinInfo` | js/api.js:79-81 | `coinInfo` is defined exactly on the coin symbols, and returns an entry stored under that symbol |
| `Catalog.SymbolForId` | js/api.js:69 | the search is `undefined` exactly when no coin has the id; otherwise it returns the symbol of a coin with that id |
| `Catalog.LabelFor` | js/app.js:72-75 | `labelFor` throws exactly for a symbol that is not a key of `ASSETS` |
| `Catalog.CoinInfoOnlyForCrypto` | js/api.js:79-81 | `coinInfo` of usd or eur is `undefined` |
| `Catalog.CoinInfoAt` | js/api.js:79-81 | `coinInfo` of a coin's symbol is that coin's entry |
| `Catalog.SymbolForIdInverts` | js/api.js:69 | the id search finds the symbol of the coin with that id (it inverts `coinInfo(...).id`) |
| `Catalog.Ids` | js/api.js:38-40 | the query's `ids` parameter splits back into every coin id, in catalog order |
| `Catalog.IdsCommaFree` | js/api.js:2-27 | no coin id contains a comma, so the joined list is unambiguous |
| `Catalog.LabelsAreNames` | js/app.js:72-75 | every asset is labelled by its catalog name; an unknown symbol makes `labelFor` throw |
| `Catalog.NamesNonEmpty` | js/api.js:2-33 | every asset has a non-empty display name, so `labelFor` never falls back to the upper-cased symbol |
| `RateSource.ToNumber` | js/api.js:49 | `Number(...)` is never `undefined`, is NaN exactly for a non-number, non-null, non-boolean value, keeps a number, maps null to 0 and true/false to 1/0 |
| `RateSource.CoinPrice` | js/api.js:49 | the read throws exactly when the coin id is absent or null; otherwise it gives a defined rate, `Number` of the fiat field when there is one |
| `RateSource.FiatRates` | js/api.js:46-47 | the fiat entries are exactly usd and eur; an entry is 1 iff it is `vs`, otherwise NaN |
| `RateSource.AssignPrices` | js/api.js:48-50 | when the loop completes, the keys are those before it plus every coin symbol |
| `RateSource.LiveSnapshot` | js/api.js:44-51 | the live snapshot has `base = vs` and exactly the keys usd, eur and the coin symbols |
| `RateSource.SimplePrices` | js/api.js:36-56 | the result is the bundled document, or else comes from an OK reply and is priced in `vs` |
| `RateSource.BuildLiveSnapshot` | js/api.js:45-51 | the loop over `COINS` returns exactly the specified live snapshot, or the throw when a coin entry is unreadable |
| `RateSource.AssignPricesSomeIff` | js/api.js:48-50 | the coin loop completes exactly when every entry's `data[v.id]` can be read |
| `RateSource.AssignPricesKeeps` | js/api.js:46-50 | a key no coin entry assigns keeps the value it had before the loop |
| `RateSource.AssignPricesEntry` | js/api.js:48-50 | with distinct symbols, each coin's entry after the loop is `Number(data[v.id][vs])` |
| `RateSource.LiveSnapshotIff` | js/api.js:44-51 | the `try` block returns a snapshot exactly when every coin id is present and not null |
| `RateSource.FetchSimplePrices` | js/api.js:36-56 | the try/catch selects the live snapshot or the fallback exactly as the specification function does |
| `RateSource.FailureGivesFallback` | js/api.js:42-55 | a network failure, non-OK status, parse failure or unreadable coin gives exactly the bundled document |
| `RateSource.MissingCoinGivesFallback` | js/api.js:48-55 | a coin id absent from the payload throws, so the result is the fallback |
| `RateSource.LiveReplyIsUsed` | js/api.js:42-51 | an OK, readable reply yields the live snapshot, not the fallback |
| `RateSource.LiveFiatEntries` | js/api.js:45-47 | live snapshot: `base = vs`; usd is 1 iff vs is usd, else NaN; likewise eur |
| `RateSource.LiveCoinEntry` | js/api.js:48-50 | every coin symbol gets the number read for its id, and is never `undefined` |
| `RateSource.MissingFiatKeyIsNaN` | js/api.js:49 | a present coin without the fiat key gets NaN, and no fallback happens |
| `SeriesSource.LiveSeries` | js/api.js:66 | with no `null` point, the live series has the payload's length and order, point i = (prices[i][0], prices[i][1]) |
| `SeriesSource.FallbackPrice` | js/api.js:68-70 | the fallback price is never 0 (the `|| 1` default) |
| `SeriesSource.FlatSeries` | js/api.js:71-75 | 7 points, all at the same price, each one day after the previous, the last at `now` |
| `SeriesSource.Series7d` | js/api.js:59-77 | an OK chart reply with prices and no `null` point keeps their count; any other outcome gives 7 points, the last at `now`, each at the fallback price (the coin's rate in `getSimplePrices(vs)`, or 1), which is non-zero |
| `SeriesSource.ChartFor` | js/app.js:223-233 | a symbol without `coinInfo` draws one point at 1 under its upper-cased name; a coin draws its USD series by provider id under its name |
| `SeriesSource.LiveSeriesKept` | js/api.js:61-66 | an OK chart reply without `null` points is returned point by point |
| `SeriesSource.NullPointFallsBack` | js/api.js:66-76 | a `null` point makes `p[0]` throw, so the flat fallback line is drawn |
| `SeriesSource.FailedChartIsFlat` | js/api.js:67-76 | any chart failure (including a `null` point) gives 7 points at now − (6−i) days, each at the fallback price: the coin's rate in `getSimplePrices(vs)` when truthy, else 1 |
| `SeriesSource.TimestampFromEnd` | js/api.js:72-75 | one-day steps ending at `now` put point i exactly 6−i days before `now` |
| `SeriesSource.FallbackUsesCoinRate` | js/api.js:68-70 | the fallback price is the coin's snapshot rate when truthy, otherwise 1 |
| `SeriesSource.FiatChartIsFlat` | js/app.js:223-230 | a fiat source asset skips the series and draws one point at 1 |
| `Conversion.Validate` | js/app.js:126-131 | accepted iff the amount is finite and > 0 and the assets differ; a bad amount is reported first |
| `Conversion.PriceInUsd` | js/app.js:135-136 | the USD leg is 1 whatever the snapshot says under usd; any other symbol the snapshot lacks is `undefined` |
| `Conversion.Gross` | js/app.js:135-147 | the gross is never `undefined`, and is NaN iff the source is not USD and its rate is NaN or missing |
| `Conversion.RoundHalfUp8` | js/app.js:150-151 | rounding a non-negative number gives a multiple of 10⁻⁸ in (y − 5·10⁻⁹, y + 5·10⁻⁹] |
| `Conversion.RoundHalfUp8Unique` | js/app.js:150-151 | that grid point is unique: the rounding is the nearest multiple of 10⁻⁸, halves going up |
| `Conversion.Round8` | js/app.js:150-151 | `+x.toFixed(8)` is within 5·10⁻⁹ of x and keeps its sign, and a tie goes away from zero (the interval is half-open on the side toward zero); for \|x\| < 10²¹ it is a multiple of 10⁻⁸ |
| `Conversion.Fee` | js/app.js:150 | the fee is a number iff the gross is, and then within 5·10⁻⁹ of 0.35% of it and, below 10²¹, a multiple of 10⁻⁸ |
| `Conversion.Net` | js/app.js:151 | the net is a number iff gross and fee are, and then within 5·10⁻⁹ of gross − fee and, below 10²¹, a multiple of 10⁻⁸ |
| `Conversion.Convert` | js/app.js:120-151 | refused iff the amount is invalid or the assets are equal; otherwise the quote is of the typed amount, its gross of this pair, with fee and net from that gross |
| `Conversion.RefusalIgnoresRates` | js/app.js:126-133 | refusals (bad amount, same asset, usd→usd included) happen whatever the snapshot holds |
| `Conversion.ResolvedCrossRate` | js/app.js:138-147 | with a numeric source leg and a non-zero target leg, every branch gives amount · price(from) / price(to); a source rate of 0 gives 0 |
| `Conversion.UnpricedTargetDividesByOne` | js/app.js:143-147 | an unpriced target makes the third branch divide by 1, so usd→X gives the amount itself |
| `Conversion.EurLegOnUsdSnapshot` | js/app.js:135-147 | on a USD snapshot, from-EUR is NaN and to-EUR yields the source's USD value |
| `Conversion.UsdRoundTrip` | js/app.js:139-142 | usd→X then X→usd at a truthy rate returns the original amount (before fees) |
| `Conversion.Round8Idempotent` | js/app.js:150-151 | rounding an already-rounded fee or net changes nothing |
| `Conversion.FeeAndNetAddUp` | js/app.js:150-151 | fee ≈ 0.35% of gross, net ≈ gross − fee, fee + net ≈ gross, each within 5·10⁻⁹; fee ≥ 0 for gross ≥ 0 |
| `Conversion.BtcToUsdExample` | js/app.js:133-151 | 100 BTC at 60000 → gross 6,000,000, fee 21,000, net 5,979,000 |
| `Conversion.UsdToEthExample` | js/app.js:133-151 | 100 USD at 2800 → gross 1/28, fee 0.000125, net 0.03558929 |
| `App.ReadJSON` | js/app.js:283-289 | the stored value when one parses to non-null, otherwise the default |
| `App.Prefill` | js/app.js:55-60 | each field is the saved one when present and not null, otherwise its default ("100", "btc", "usd"); nothing usable saved gives the default form |
| `App.PrefillRoundTrip` | js/app.js:264-270 | a saved prefill is shown back unchanged |
| `App.ConvertTicket` | js/app.js:120-166 | refused iff amount invalid or assets equal, with the amount error first; otherwise the ticket carries the inputs' id, date, pair and amount, the gross of that conversion, fee = round8(gross·0.0035) and net = round8(gross − fee) |
| `App.Push` | js/app.js:179-181 | after unshift+slice: length min(old+1, 50), the new ticket first, older ones in their order |
| `App.HistoryIsNewestFirst` | js/app.js:179-181 | after any run of conversions the history is the newest 50 tickets, most recent first |
| `App.AppStore.History` | js/app.js:188-189 | the history read from storage holds at most 50 well-formed tickets |
| `App.AppStore.OnConvert` | js/app.js:120-185 | result as `ConvertTicket` on the fetched snapshot; on refusal storage is untouched, on success history = Push(ticket, old) |
| `App.AppStore.SavePrefill` | js/app.js:264-270 | the saved form is what the prefill shows next; history unchanged |
| `App.AppStore.HistoryCount` | js/app.js:187-190 | the count is the stored history's length, at most 50 |
| `App.AppStore.ResetAll` | js/app.js:272-280 | both keys are removed; history is empty and the form returns to its defaults |
| `LegacyConverter.Render` | js/scripts.js:24-60 | no error iff a rate exists and the input is empty or accepted; the unit line is the table price, ticker and upper-cased currency iff a rate exists, else '—'; a total iff rate, non-empty and accepted, with total = amount · price, else '—' |
| `LegacyConverter.EmptyAmount` | js/scripts.js:46-49 | an empty amount shows '—' with no error, and the unit price stays |
| `LegacyConverter.TableIsComplete` | js/scripts.js:2-8 | every pair of {bitcoin, ethereum, solana} × {usd, eur} has a positive price and a ticker |
| `LegacyConverter.UnavailableRate` | js/scripts.js:31-40 | an unknown coin or currency blanks both lines and sets the rate-unavailable error |
| `LegacyConverter.RejectedAmount` | js/scripts.js:51-56 | a NaN or negative amount blanks the result and sets the error, while the unit price stays |
| `LegacyConverter.TotalIsAmountTimesPrice` | js/scripts.js:58-59 | a finite amount ≥ 0, zero included, gives total = amount · price and no error |

## Left out

- Floating point: the model computes over reals. IEEE-754 rounding of `*`, `/` and of `toFixed(8)` is not modelled. Overflow to Infinity, and Infinity as a rate, are not modelled either.
- `Number(...)` of any string or array in the payload is modelled as NaN. JavaScript gives a number for some of them: a numeric string, `""`, a whitespace-only string and `[]` (the last three give 0), and a one-element array. The provider sends JSON numbers.
- A payload whose top level is not an object is modelled as an empty map. In both cases every coin read throws and the fallback is used.
- `JSON.stringify` writes a NaN `gross`, `fee` or `net` as `null` when the history is stored. The model keeps NaN. (The ticket's `amount` is always finite and positive.)
- A stored history that parses to something other than an array is not modelled. In the code, `unshift` would then throw.
- Property names inherited from `Object.prototype` (for example `coinInfo("toString")`) are not modelled. Lookups only see the catalog's own keys.
- `fetch`, `async`/`await` and the HTTP transport are not modelled. Each call's outcome is an input. The URLs are not modelled beyond the id list.
- A failure to read the bundled `rates.json` is not modelled; the document is an input.
- JSON cannot hold NaN, so the bundled `rates.json` never contains one. A `null` rate in it behaves as 0 in `amount * r`, in `r || 1` and in `Number(r)`, so its faithful image is `Num(0.0)`; `Rate` has no separate null. A snapshot with a NaN entry, as in `EurLegOnUsdSnapshot`, describes the live USD snapshot, not the bundled document.
- A chart point is a pair of numbers or `null`. A point whose fields are not numbers (for example `[t, null]`, or an array of fewer than two elements) is not modelled. In the code such a point does not throw; it yields a point with a `null` or `undefined` value.
- Requests are not ordered or cancelled against each other.
- `localStorage` itself is not modelled; the `AppStore` class owns the two keys it uses.
- The `favs` and `lastSymbol` keys are not modelled; no code reads or writes them.
- `Math.random` ticket ids, `dayjs` dates and `Date.now` are inputs.
- DOM work is not modelled: element lookups, template cloning in `renderMarket`, the option lists of `fillAssetSelects`, the ticket and history HTML, toasts and modals (`js/ui.js`).
- Chart.js drawing, `Intl.NumberFormat` and `toLocaleString` formatting are not modelled. Display lines are datatypes instead of strings.
- `parseFloat` prefix parsing and `trim` in `scripts.js` are not modelled. The trimmed text and its parsed number are inputs.
- `toUpperCase` is modelled on ASCII letters only.
