/**
 * `get7dSeries`: the seven-day price history of one coin, read from the
 * provider's market chart, or, when that query fails in any way, a flat
 * line of seven daily points at the current spot price; and the chart
 * branch of `updateChart` that skips the query for a fiat currency.
 */
module SeriesSource {
  import opened Js
  import Catalog
  import Text
  import opened RateSource

  /** A chart point: a timestamp in milliseconds and a price. */
  datatype Point = Point(t: int, y: real)

  /**
   * The parsed body of the market chart query; `prices` is None when the key
   * is absent, and an element is None when it is `null`.
   */
  datatype ChartPayload = ChartPayload(prices: Option<seq<Option<(int, real)>>>)

  /** One day in milliseconds. */
  const DayMs: int := 86400000

  /** No element of the chart is `null`, so reading `p[0]` never throws. */
  predicate AllPoints(prices: seq<Option<(int, real)>>)
  {
    forall i :: 0 <= i < |prices| ==> prices[i].Some?
  }

  /** The chart query succeeded and its prices can be mapped: an OK reply, a `prices` array, no `null` point. */
  predicate LiveChart(chart: Response<ChartPayload>)
  {
    && chart.Reply? && IsOk(chart.status) && chart.body.Some? && chart.body.value.prices.Some?
    && AllPoints(chart.body.value.prices.value)
  }

  /** `data.prices.map(p => ({ t: new Date(p[0]), y: p[1] }))`: same length, same order. */
  function LiveSeries(prices: seq<Option<(int, real)>>): (s: seq<Point>)
    requires AllPoints(prices)
    ensures |s| == |prices|
    ensures forall i :: 0 <= i < |prices| ==> s[i].t == prices[i].value.0 && s[i].y == prices[i].value.1
  {
    seq(|prices|, i requires 0 <= i < |prices| && AllPoints(prices) => Point(prices[i].value.0, prices[i].value.1))
  }

  /**
   * The price of the fallback line: the snapshot's rate for the coin whose
   * id is `coin`, or 1 when that rate is 0, NaN or `undefined`. An id that
   * is not in the catalog leaves `key` undefined, and JavaScript then reads
   * the property named "undefined".
   */
  function FallbackPrice(coin: string, base: Snapshot): (price: real)
    ensures price != 0.0
  {
    var key := Catalog.SymbolForId(coin);
    var rate := RateOf(base, if key.Some? then key.value else "undefined");
    if Truthy(rate) then rate.value else 1.0
  }

  /** `Array.from({ length: 7 }, (_, i) => ({ t: now - (6 - i) * DayMs, y: price }))`. */
  function FlatSeries(price: real, now: int): (s: seq<Point>)
    ensures |s| == 7
    ensures s[6].t == now
    ensures forall i :: 0 <= i < 7 ==> s[i].y == price
    ensures forall i :: 0 < i < 7 ==> s[i].t == s[i - 1].t + DayMs
  {
    seq(7, i requires 0 <= i < 7 => Point(now - (6 - i) * DayMs, price))
  }

  /**
   * `get7dSeries(coin, vs)`, with both network outcomes, the bundled
   * document and the clock reading `now` as inputs. The fallback calls
   * `getSimplePrices(vs)`, which makes a request of its own.
   */
  function Series7d(coin: string, vs: string, chart: Response<ChartPayload>,
                    prices: Response<Payload>, fallback: Snapshot, now: int): (s: seq<Point>)
    ensures LiveChart(chart) ==> |s| == |chart.body.value.prices.value|
    ensures !LiveChart(chart) ==> |s| == 7 && s[6].t == now && s[0].y != 0.0
    ensures !LiveChart(chart) ==>
              forall i :: 0 <= i < 7 ==> s[i].y == FallbackPrice(coin, SimplePrices(vs, prices, fallback))
  {
    if LiveChart(chart) then
      LiveSeries(chart.body.value.prices.value)
    else
      FlatSeries(FallbackPrice(coin, SimplePrices(vs, prices, fallback)), now)
  }

  /** What `updateChart` draws for the symbol selected as the source asset: a label and a series. */
  function ChartFor(symbol: string, chart: Response<ChartPayload>, prices: Response<Payload>,
                    fallback: Snapshot, now: int): (r: (string, seq<Point>))
    ensures Catalog.CoinInfo(symbol).None? ==> r == (Text.Upper(symbol), [Point(now, 1.0)])
    ensures Catalog.CoinInfo(symbol).Some? ==>
              && r.0 == Catalog.CoinInfo(symbol).value.name
              && r.1 == Series7d(Catalog.CoinInfo(symbol).value.id, "usd", chart, prices, fallback, now)
  {
    match Catalog.CoinInfo(symbol)
    case None => (Text.Upper(symbol), [Point(now, 1.0)])
    case Some(info) => (info.name, Series7d(info.id, "usd", chart, prices, fallback, now))
  }

  // ----- Properties of the series -----

  /** A successful chart query is passed through point by point. */
  lemma LiveSeriesKept(coin: string, vs: string, status: int, ps: seq<Option<(int, real)>>,
                       prices: Response<Payload>, fallback: Snapshot, now: int)
    requires IsOk(status)
    requires AllPoints(ps)
    ensures var s := Series7d(coin, vs, Reply(status, Some(ChartPayload(Some(ps)))), prices, fallback, now);
      |s| == |ps| && forall i :: 0 <= i < |ps| ==> s[i] == Point(ps[i].value.0, ps[i].value.1)
  {
  }

  /**
   * Any failure of the chart query gives seven points with one price,
   * one day apart, the last at `now`; the price is never 0.
   */
  lemma FailedChartIsFlat(coin: string, vs: string, chart: Response<ChartPayload>,
                          prices: Response<Payload>, fallback: Snapshot, now: int)
    requires !LiveChart(chart)
    ensures var s := Series7d(coin, vs, chart, prices, fallback, now);
      && |s| == 7
      && s[6].t == now
      && s[0].y != 0.0
      && (forall i :: 0 <= i < 7 ==> s[i].y == FallbackPrice(coin, SimplePrices(vs, prices, fallback)))
      && (forall i :: 0 <= i < 7 ==> s[i].t == now - (6 - i) * DayMs)
  {
    var s := Series7d(coin, vs, chart, prices, fallback, now);
    assert forall i :: 0 <= i < 7 ==> s[i].t == now - (6 - i) * DayMs by {
      forall i | 0 <= i < 7 ensures s[i].t == now - (6 - i) * DayMs {
        TimestampFromEnd(s, now, i);
      }
    }
  }

  /** An OK reply holding a `null` point makes `p[0]` throw, so the flat fallback is drawn. */
  lemma NullPointFallsBack(coin: string, vs: string, status: int, ps: seq<Option<(int, real)>>,
                           prices: Response<Payload>, fallback: Snapshot, now: int, j: nat)
    requires j < |ps| && ps[j].None?
    ensures Series7d(coin, vs, Reply(status, Some(ChartPayload(Some(ps)))), prices, fallback, now)
            == FlatSeries(FallbackPrice(coin, SimplePrices(vs, prices, fallback)), now)
  {
  }

  /** In a series whose steps are one day and whose last point is at `now`, point `i` is `6 - i` days earlier. */
  lemma {:induction false} TimestampFromEnd(s: seq<Point>, now: int, i: nat)
    requires |s| == 7 && s[6].t == now
    requires forall j :: 0 < j < 7 ==> s[j].t == s[j - 1].t + DayMs
    requires i < 7
    ensures s[i].t == now - (6 - i) * DayMs
    decreases 6 - i
  {
    if i < 6 {
      TimestampFromEnd(s, now, i + 1);
    }
  }

  /** The fallback price is the coin's rate in the snapshot when that rate is truthy. */
  lemma FallbackUsesCoinRate(i: nat, base: Snapshot)
    requires i < |Catalog.Coins|
    ensures Truthy(RateOf(base, Catalog.Coins[i].0)) ==>
              FallbackPrice(Catalog.Coins[i].1.id, base) == RateOf(base, Catalog.Coins[i].0).value
    ensures !Truthy(RateOf(base, Catalog.Coins[i].0)) ==> FallbackPrice(Catalog.Coins[i].1.id, base) == 1.0
  {
    Catalog.SymbolForIdInverts(i);
  }

  /** A fiat source asset is drawn as one point at 1, labelled with its upper-cased symbol. */
  lemma FiatChartIsFlat(symbol: string, chart: Response<ChartPayload>, prices: Response<Payload>,
                        fallback: Snapshot, now: int)
    requires symbol in Catalog.FiatSymbols()
    ensures ChartFor(symbol, chart, prices, fallback, now) == (Text.Upper(symbol), [Point(now, 1.0)])
  {
    Catalog.CoinInfoOnlyForCrypto(symbol);
  }
}
