/**
 * The asset catalog: the crypto coins (`COINS`), the fiat currencies
 * (`FIAT`) and their union `ASSETS`, with the lookups the rest of the
 * application performs on them (`coinInfo`, the id-to-symbol search of the
 * series fallback, and `labelFor`).
 */
module Catalog {
  import opened Js
  import Text

  /** An entry of `COINS`: the provider's id, a display name and an image path. */
  datatype Coin = Coin(id: string, name: string, img: string)

  /** An entry of `ASSETS`: a crypto coin, or a fiat currency that only has a name. */
  datatype Asset = Crypto(coin: Coin) | Fiat(name: string)
  {
    function Name(): string
    {
      match this
      case Crypto(c) => c.name
      case Fiat(n) => n
    }
  }

  /** `COINS`, in declaration order (object keys keep their insertion order). */
  const Coins: seq<(string, Coin)> := [
    ("btc", Coin("bitcoin", "Bitcoin", "/imgs/bitcoin.jpg")),
    ("eth", Coin("ethereum", "Ethereum", "/imgs/ethereum.jpg")),
    ("sol", Coin("solana", "Solana", "/imgs/solana.jpeg")),
    ("xrp", Coin("ripple-xrp-logo", "XRP", "/imgs/xrp.png")),
    ("ada", Coin("cardano", "Cardano", "/imgs/cardano.png"))
  ]

  /** `FIAT`: symbol and display name. */
  const Fiats: seq<(string, string)> := [("usd", "Dólar (USD)"), ("eur", "Euro (EUR)")]

  /** `ASSETS = { ...COINS, ...FIAT }`: the coins first, then the fiat currencies. */
  function Assets(): (all: seq<(string, Asset)>)
    ensures |all| == |Coins| + |Fiats|
    ensures forall i :: 0 <= i < |Coins| ==> all[i] == (Coins[i].0, Crypto(Coins[i].1))
    ensures forall j :: 0 <= j < |Fiats| ==> all[|Coins| + j] == (Fiats[j].0, Fiat(Fiats[j].1))
  {
    seq(|Coins|, i requires 0 <= i < |Coins| => (Coins[i].0, Crypto(Coins[i].1)))
    + seq(|Fiats|, i requires 0 <= i < |Fiats| => (Fiats[i].0, Fiat(Fiats[i].1)))
  }

  /** `Object.keys(entries)`. */
  function Keys<V>(entries: seq<(string, V)>): (ks: seq<string>)
    ensures |ks| == |entries|
    ensures forall i :: 0 <= i < |ks| ==> ks[i] == entries[i].0
  {
    seq(|entries|, i requires 0 <= i < |entries| => entries[i].0)
  }

  predicate DistinctKeys<V>(entries: seq<(string, V)>)
  {
    forall i, j :: 0 <= i < j < |entries| ==> entries[i].0 != entries[j].0
  }

  /** `entries[key]`: the value of the first entry with that key, or `undefined`. */
  function Get<V>(entries: seq<(string, V)>, key: string): (r: Option<V>)
    ensures r.Some? <==> key in Keys(entries)
    ensures r.Some? ==> (key, r.value) in entries
  {
    var i := FindIndex(entries, (e: (string, V)) => e.0 == key);
    if i < |entries| then Some(entries[i].1) else None
  }

  /** With distinct keys, looking up the key of entry `i` yields entry `i`'s value. */
  lemma GetAt<V>(entries: seq<(string, V)>, i: nat)
    requires DistinctKeys(entries)
    requires i < |entries|
    ensures Get(entries, entries[i].0) == Some(entries[i].1)
  {
    var k := FindIndex(entries, (e: (string, V)) => e.0 == entries[i].0);
    assert k <= i;
  }

  function CoinSymbols(): seq<string>
  {
    Keys(Coins)
  }

  function FiatSymbols(): seq<string>
  {
    Keys(Fiats)
  }

  /** The provider ids of `COINS`, in catalog order (`Object.values(COINS).map(c => c.id)`). */
  function CoinIds(): (ids: seq<string>)
    ensures |ids| == |Coins|
    ensures forall i :: 0 <= i < |Coins| ==> ids[i] == Coins[i].1.id
  {
    seq(|Coins|, i requires 0 <= i < |Coins| => Coins[i].1.id)
  }

  /** The `ids` parameter of the price query: every coin id, comma-joined; it splits back into the ids. */
  function Ids(): (ids: string)
    ensures Text.Split(ids, ',') == CoinIds()
  {
    IdsCommaFree();
    Text.SplitJoin(CoinIds(), ',');
    Text.Join(CoinIds(), ',')
  }

  /** `coinInfo(symbol)`, i.e. `COINS[symbol]`: defined exactly on the coin symbols. */
  function CoinInfo(symbol: string): (r: Option<Coin>)
    ensures r.Some? <==> symbol in CoinSymbols()
    ensures r.Some? ==> (symbol, r.value) in Coins
  {
    Get(Coins, symbol)
  }

  /** `ASSETS[symbol]`. */
  function AssetInfo(symbol: string): Option<Asset>
  {
    Get(Assets(), symbol)
  }

  /**
   * `Object.keys(COINS).find(k => COINS[k].id === id)`: the symbol of the
   * first coin with that id, or `undefined` when no coin has it.
   */
  function SymbolForId(id: string): (r: Option<string>)
    ensures r.None? <==> forall i :: 0 <= i < |Coins| ==> Coins[i].1.id != id
    ensures r.Some? ==> exists i :: 0 <= i < |Coins| && Coins[i] == (r.value, Coins[i].1) && Coins[i].1.id == id
  {
    var i := FindIndex(Coins, (e: (string, Coin)) => e.1.id == id);
    if i < |Coins| then Some(Coins[i].0) else None
  }

  /** Reading `.name` of an unknown asset throws a TypeError. */
  datatype LabelError = UnknownAsset

  /** `labelFor(sym)`: the asset's name, or the upper-cased symbol when the name is empty. */
  function LabelFor(symbol: string): (r: Result<string, LabelError>)
    ensures r.Failure? <==> symbol !in Keys(Assets())
  {
    match AssetInfo(symbol)
    case None => Failure(UnknownAsset)
    case Some(a) => Success(if a.Name() != "" then a.Name() else Text.Upper(symbol))
  }

  // ----- Facts about the catalog -----

  /** The catalog's symbols, written out. */
  lemma SymbolsWrittenOut()
    ensures CoinSymbols() == ["btc", "eth", "sol", "xrp", "ada"]
    ensures FiatSymbols() == ["usd", "eur"]
    ensures Keys(Assets()) == CoinSymbols() + FiatSymbols()
  {
  }

  /** No symbol occurs twice, among the coins or among all assets. */
  lemma SymbolsDistinct()
    ensures DistinctKeys(Coins)
    ensures DistinctKeys(Assets())
  {
    SymbolsWrittenOut();
    var ks := Keys(Assets());
    // The third letters c, h, l, p, a, d, r tell the seven symbols apart.
    assert forall i :: 0 <= i < |ks| ==> |ks[i]| == 3;
    assert [ks[0][2], ks[1][2], ks[2][2], ks[3][2], ks[4][2], ks[5][2], ks[6][2]] == "chlpadr";
  }

  /** No coin has a fiat symbol: the coin loop never overwrites usd or eur. */
  lemma FiatSymbolsAreNotCoins()
    ensures forall i :: 0 <= i < |Coins| ==> Coins[i].0 != "usd" && Coins[i].0 != "eur"
  {
  }

  /** No provider id occurs twice, and none contains a comma. */
  lemma IdsDistinct()
    ensures forall i, j :: 0 <= i < j < |Coins| ==> Coins[i].1.id != Coins[j].1.id
    ensures forall i :: 0 <= i < |Coins| ==> ',' !in Coins[i].1.id
  {
    // The first letters b, e, s, r, c tell the five ids apart.
    assert [Coins[0].1.id[0], Coins[1].1.id[0], Coins[2].1.id[0], Coins[3].1.id[0], Coins[4].1.id[0]] == "besrc";
  }

  /** `ASSETS` lists exactly the five coins followed by the two fiat currencies. */
  lemma AssetOrder()
    ensures Keys(Assets()) == ["btc", "eth", "sol", "xrp", "ada", "usd", "eur"]
  {
    SymbolsWrittenOut();
  }

  /** A fiat symbol is not a key of `COINS`: `coinInfo` of usd or eur is `undefined`. */
  lemma CoinInfoOnlyForCrypto(symbol: string)
    ensures symbol in FiatSymbols() ==> CoinInfo(symbol) == None
  {
    SymbolsWrittenOut();
  }

  /** `coinInfo` returns the catalog entry of the symbol it is given. */
  lemma CoinInfoAt(i: nat)
    requires i < |Coins|
    ensures CoinInfo(Coins[i].0) == Some(Coins[i].1)
  {
    SymbolsDistinct();
    GetAt(Coins, i);
  }

  /** Searching a coin's id finds that coin's symbol: the id search inverts `coinInfo`. */
  lemma SymbolForIdInverts(i: nat)
    requires i < |Coins|
    ensures SymbolForId(Coins[i].1.id) == Some(Coins[i].0)
  {
    IdsDistinct();
    var k := FindIndex(Coins, (e: (string, Coin)) => e.1.id == Coins[i].1.id);
    assert k <= i;
  }

  /** No coin id contains the separator of the id list. */
  lemma IdsCommaFree()
    ensures forall x :: x in CoinIds() ==> ',' !in x
  {
    IdsDistinct();
    forall x | x in CoinIds() ensures ',' !in x {
      var i :| 0 <= i < |CoinIds()| && CoinIds()[i] == x;
    }
  }

  /** Every asset is labelled by its catalog name; an unknown symbol makes `labelFor` throw. */
  lemma LabelsAreNames(symbol: string)
    ensures symbol in Keys(Assets()) ==> LabelFor(symbol) == Success(AssetInfo(symbol).value.Name())
    ensures symbol !in Keys(Assets()) ==> LabelFor(symbol) == Failure(UnknownAsset)
  {
    NamesNonEmpty();
  }

  /** Every asset has a display name. */
  lemma NamesNonEmpty()
    ensures forall e :: e in Assets() ==> e.1.Name() != ""
  {
    var all := Assets();
    assert forall i :: 0 <= i < |all| ==> all[i].1.Name() != "";
  }
}
