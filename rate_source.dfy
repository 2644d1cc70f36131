/**
 * `getSimplePrices`: one batched price query for every coin against one
 * fiat currency, turned into a rate snapshot `{base, rates}`; any error on
 * the way (transport failure, non-OK status, unparsable body, a coin id
 * missing from the payload) replaces the whole snapshot with the bundled
 * fallback document.
 */
module RateSource {
  import opened Js
  import Catalog

  /** A JSON value found at `data[id][vs]`; `JOther` stands for a string, object or array. */
  datatype Json = JNum(n: real) | JNull | JBool(b: bool) | JOther

  /** What `data[id]` holds: an object of prices, `null`, or a scalar (number, string, boolean). */
  datatype Entry = Fields(fields: map<string, Json>) | JsonNull | Scalar

  /** The parsed body of the price query: `{ [coinId]: { [fiat]: number } }`. */
  type Payload = map<string, Entry>

  /**
   * The outcome of a `fetch`: a reply with its status and its body as
   * parsed by `r.json()` (None when parsing failed), or a transport failure.
   */
  datatype Response<T> = Reply(status: int, body: Option<T>) | NetworkFailure

  /** `r.ok`. */
  predicate IsOk(status: int)
  {
    200 <= status <= 299
  }

  /** A rate snapshot, the shape shared by the live result and the bundled `rates.json`. */
  datatype Snapshot = Snapshot(base: string, rates: map<string, Rate>)

  /** `snapshot.rates[key]`. */
  function RateOf(s: Snapshot, key: string): Rate
  {
    if key in s.rates then s.rates[key] else Missing
  }

  /** `Number(j)`: never `undefined`; NaN exactly for a value that is not a number, null or a boolean. */
  function ToNumber(j: Json): (r: Rate)
    ensures r != Missing
    ensures r == NaN <==> j.JOther?
    ensures j.JNum? ==> r == Num(j.n)
    ensures j.JNull? ==> r == Num(0.0)
    ensures j.JBool? ==> r == Num(if j.b then 1.0 else 0.0)
  {
    match j
    case JNum(n) => Num(n)
    case JNull => Num(0.0)
    case JBool(b) => Num(if b then 1.0 else 0.0)
    case JOther => NaN
  }

  /**
   * `Number(data[id][vs])`; None when `data[id]` is `undefined` or `null`,
   * so that reading `[vs]` of it throws.
   */
  function CoinPrice(data: Payload, id: string, vs: string): (r: Option<Rate>)
    ensures r.None? <==> id !in data || data[id].JsonNull?
    ensures r.Some? ==> r.value != Missing
    ensures r.Some? && data[id].Fields? && vs in data[id].fields ==> r.value == ToNumber(data[id].fields[vs])
  {
    if id !in data then None
    else match data[id]
      case JsonNull => None
      case Scalar => Some(NaN)
      case Fields(f) => Some(if vs in f then ToNumber(f[vs]) else NaN)
  }

  /** The two fiat entries: 1 for the requested currency, NaN for the other. */
  function FiatRates(vs: string): (rates: map<string, Rate>)
    ensures rates.Keys == {"usd", "eur"}
    ensures forall k :: k in rates ==> (rates[k] == Num(1.0) <==> k == vs) && (rates[k] == NaN <==> k != vs)
  {
    map["usd" := if vs == "usd" then Num(1.0) else NaN,
        "eur" := if vs == "eur" then Num(1.0) else NaN]
  }

  /**
   * The coin loop from `rates` on: for each entry `[k, v]` in order,
   * `rates[k] = Number(data[v.id][vs])`; None as soon as a read throws.
   */
  function AssignPrices(rates: map<string, Rate>, data: Payload, vs: string,
                        coins: seq<(string, Catalog.Coin)>): (r: Option<map<string, Rate>>)
    ensures r.Some? ==> r.value.Keys == rates.Keys + Symbols(coins)
    decreases |coins|
  {
    if |coins| == 0 then Some(rates)
    else match CoinPrice(data, coins[0].1.id, vs)
      case None => None
      case Some(p) =>
        assert Catalog.Keys(coins) == [coins[0].0] + Catalog.Keys(coins[1..]);
        AssignPrices(rates[coins[0].0 := p], data, vs, coins[1..])
  }

  /** The symbols the coin loop assigns: the keys of its entries, as a set. */
  function Symbols(coins: seq<(string, Catalog.Coin)>): set<string>
  {
    set k | k in Catalog.Keys(coins)
  }

  /** No price read throws: every coin id is present and not `null`. */
  predicate AllPricesReadable(data: Payload, vs: string)
  {
    forall i :: 0 <= i < |Catalog.Coins| ==> CoinPrice(data, Catalog.Coins[i].1.id, vs).Some?
  }

  /** The snapshot the `try` block returns, or None when it throws. */
  function LiveSnapshot(vs: string, data: Payload): (r: Option<Snapshot>)
    ensures r.Some? ==> r.value.base == vs
    ensures r.Some? ==> r.value.rates.Keys == {"usd", "eur"} + Symbols(Catalog.Coins)
  {
    match AssignPrices(FiatRates(vs), data, vs, Catalog.Coins)
    case None => None
    case Some(rates) => Some(Snapshot(vs, rates))
  }

  /** `getSimplePrices(vs)`, with the network outcome and the bundled document as inputs. */
  function SimplePrices(vs: string, response: Response<Payload>, fallback: Snapshot): (s: Snapshot)
    ensures s == fallback || (response.Reply? && IsOk(response.status) && s.base == vs)
  {
    match response
    case NetworkFailure => fallback
    case Reply(status, body) =>
      if !IsOk(status) || body.None? then fallback
      else match LiveSnapshot(vs, body.value)
        case Some(s) => s
        case None => fallback
  }

  /**
   * The body of the `try` block: set the two fiat entries, then assign one
   * entry per coin, in catalog order, stopping at the first coin whose
   * entry cannot be read.
   */
  method BuildLiveSnapshot(vs: string, data: Payload) returns (r: Option<Snapshot>)
    ensures r == LiveSnapshot(vs, data)
  {
    var coins := Catalog.Coins;
    var rates := FiatRates(vs);
    var i := 0;
    while i < |coins|
      invariant 0 <= i <= |coins|
      invariant AssignPrices(rates, data, vs, coins[i..]) == AssignPrices(FiatRates(vs), data, vs, coins)
    {
      var entry := coins[i];
      assert coins[i..][0] == entry && coins[i..][1..] == coins[i + 1..];
      var price := CoinPrice(data, entry.1.id, vs);
      if price.None? {
        return None;
      }
      rates := rates[entry.0 := price.value];
      i := i + 1;
    }
    r := Some(Snapshot(vs, rates));
  }

  /** `getSimplePrices(vs)` as the application runs it. */
  method FetchSimplePrices(vs: string, response: Response<Payload>, fallback: Snapshot) returns (s: Snapshot)
    ensures s == SimplePrices(vs, response, fallback)
  {
    if response.NetworkFailure? || !IsOk(response.status) || response.body.None? {
      return fallback;
    }
    var live := BuildLiveSnapshot(vs, response.body.value);
    s := if live.Some? then live.value else fallback;
  }

  // ----- Properties of the snapshot -----

  /** Any failure of the query yields exactly the bundled document. */
  lemma FailureGivesFallback(vs: string, response: Response<Payload>, fallback: Snapshot)
    requires || response.NetworkFailure?
             || (response.Reply? && !IsOk(response.status))
             || (response.Reply? && response.body.None?)
             || (response.Reply? && response.body.Some? && !AllPricesReadable(response.body.value, vs))
    ensures SimplePrices(vs, response, fallback) == fallback
  {
    if response.Reply? && response.body.Some? {
      LiveSnapshotIff(vs, response.body.value);
    }
  }

  /** The loop completes exactly when every entry's read succeeds. */
  lemma {:induction false} AssignPricesSomeIff(rates: map<string, Rate>, data: Payload, vs: string,
                                               coins: seq<(string, Catalog.Coin)>)
    ensures AssignPrices(rates, data, vs, coins).Some?
            <==> forall i :: 0 <= i < |coins| ==> CoinPrice(data, coins[i].1.id, vs).Some?
    decreases |coins|
  {
    if |coins| > 0 {
      var p := CoinPrice(data, coins[0].1.id, vs);
      if p.Some? {
        AssignPricesSomeIff(rates[coins[0].0 := p.value], data, vs, coins[1..]);
        assert forall i :: 1 <= i < |coins| ==> coins[i] == coins[1..][i - 1];
      }
    }
  }

  /** A key that no entry assigns keeps its value from before the loop. */
  lemma {:induction false} AssignPricesKeeps(rates: map<string, Rate>, data: Payload, vs: string,
                                             coins: seq<(string, Catalog.Coin)>, k: string)
    requires AssignPrices(rates, data, vs, coins).Some?
    requires forall i :: 0 <= i < |coins| ==> coins[i].0 != k
    ensures k in AssignPrices(rates, data, vs, coins).value <==> k in rates
    ensures k in rates ==> AssignPrices(rates, data, vs, coins).value[k] == rates[k]
    decreases |coins|
  {
    if |coins| > 0 {
      var p := CoinPrice(data, coins[0].1.id, vs);
      assert forall i :: 0 <= i < |coins| - 1 ==> coins[1..][i] == coins[i + 1];
      AssignPricesKeeps(rates[coins[0].0 := p.value], data, vs, coins[1..], k);
    }
  }

  /** With distinct symbols, each coin's entry is the number read for its id. */
  lemma {:induction false} AssignPricesEntry(rates: map<string, Rate>, data: Payload, vs: string,
                                             coins: seq<(string, Catalog.Coin)>, i: nat)
    requires AssignPrices(rates, data, vs, coins).Some?
    requires Catalog.DistinctKeys(coins)
    requires i < |coins|
    ensures CoinPrice(data, coins[i].1.id, vs).Some?
    ensures coins[i].0 in AssignPrices(rates, data, vs, coins).value
    ensures AssignPrices(rates, data, vs, coins).value[coins[i].0] == CoinPrice(data, coins[i].1.id, vs).value
    decreases |coins|
  {
    var p := CoinPrice(data, coins[0].1.id, vs);
    var rest := coins[1..];
    assert forall j :: 0 <= j < |rest| ==> rest[j] == coins[j + 1];
    if i == 0 {
      AssignPricesKeeps(rates[coins[0].0 := p.value], data, vs, rest, coins[0].0);
    } else {
      AssignPricesEntry(rates[coins[0].0 := p.value], data, vs, rest, i - 1);
    }
  }

  /** The live snapshot exists exactly when every coin's price can be read. */
  lemma LiveSnapshotIff(vs: string, data: Payload)
    ensures LiveSnapshot(vs, data).Some? <==> AllPricesReadable(data, vs)
  {
    AssignPricesSomeIff(FiatRates(vs), data, vs, Catalog.Coins);
  }

  /** A coin id absent from the payload makes the read throw, and so selects the fallback. */
  lemma MissingCoinGivesFallback(vs: string, status: int, data: Payload, fallback: Snapshot, i: nat)
    requires i < |Catalog.Coins|
    requires Catalog.Coins[i].1.id !in data
    ensures SimplePrices(vs, Reply(status, Some(data)), fallback) == fallback
  {
    LiveSnapshotIff(vs, data);
  }

  /** A reply that is OK and readable is turned into the live snapshot, not the fallback. */
  lemma LiveReplyIsUsed(vs: string, status: int, data: Payload, fallback: Snapshot)
    requires IsOk(status)
    requires AllPricesReadable(data, vs)
    ensures LiveSnapshot(vs, data).Some?
    ensures SimplePrices(vs, Reply(status, Some(data)), fallback) == LiveSnapshot(vs, data).value
  {
    LiveSnapshotIff(vs, data);
  }

  /** The live snapshot is priced in `vs`: the requested fiat maps to 1 and the other one to NaN. */
  lemma LiveFiatEntries(vs: string, data: Payload)
    requires AllPricesReadable(data, vs)
    ensures LiveSnapshot(vs, data).Some?
    ensures LiveSnapshot(vs, data).value.base == vs
    ensures RateOf(LiveSnapshot(vs, data).value, "usd") == (if vs == "usd" then Num(1.0) else NaN)
    ensures RateOf(LiveSnapshot(vs, data).value, "eur") == (if vs == "eur" then Num(1.0) else NaN)
  {
    LiveSnapshotIff(vs, data);
    Catalog.FiatSymbolsAreNotCoins();
    AssignPricesKeeps(FiatRates(vs), data, vs, Catalog.Coins, "usd");
    AssignPricesKeeps(FiatRates(vs), data, vs, Catalog.Coins, "eur");
  }

  /** Every coin symbol maps to the number read from the payload for its id, never to `undefined`. */
  lemma LiveCoinEntry(vs: string, data: Payload, i: nat)
    requires AllPricesReadable(data, vs)
    requires i < |Catalog.Coins|
    ensures LiveSnapshot(vs, data).Some?
    ensures CoinPrice(data, Catalog.Coins[i].1.id, vs) == Some(RateOf(LiveSnapshot(vs, data).value, Catalog.Coins[i].0))
    ensures RateOf(LiveSnapshot(vs, data).value, Catalog.Coins[i].0) != Missing
  {
    LiveSnapshotIff(vs, data);
    Catalog.SymbolsDistinct();
    AssignPricesEntry(FiatRates(vs), data, vs, Catalog.Coins, i);
  }

  /**
   * A coin that is present but has no entry for `vs` gets NaN
   * (`Number(undefined)`) and does not trigger the fallback.
   */
  lemma MissingFiatKeyIsNaN(vs: string, status: int, data: Payload, fallback: Snapshot, i: nat)
    requires IsOk(status)
    requires AllPricesReadable(data, vs)
    requires i < |Catalog.Coins|
    requires Catalog.Coins[i].1.id in data
    requires data[Catalog.Coins[i].1.id].Fields? && vs !in data[Catalog.Coins[i].1.id].fields
    ensures SimplePrices(vs, Reply(status, Some(data)), fallback).base == vs
    ensures RateOf(SimplePrices(vs, Reply(status, Some(data)), fallback), Catalog.Coins[i].0) == NaN
  {
    LiveReplyIsUsed(vs, status, data, fallback);
    LiveFiatEntries(vs, data);
    LiveCoinEntry(vs, data, i);
  }
}
