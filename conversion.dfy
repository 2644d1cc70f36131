/**
 * The conversion engine of `onConvert`: validate the amount and the pair,
 * price both assets in USD, pick one of three ways to compute the gross
 * result, then take a 0.35% fee and round fee and net to 8 decimals the
 * way `Number.prototype.toFixed(8)` does.
 */
module Conversion {
  import opened Js
  import opened RateSource

  /** Why a conversion is refused; each is shown to the user and the conversion is abandoned. */
  datatype ConvertError = InvalidAmount | SameAsset

  /** The checks made before any price is fetched; on success, the amount as a real. */
  function Validate(amount: JsNumber, from: string, to: string): (r: Result<real, ConvertError>)
    ensures r.Success? <==> IsFinite(amount) && amount.value > 0.0 && from != to
    ensures r.Success? ==> r.value == amount.value && r.value > 0.0
    ensures !(IsFinite(amount) && amount.value > 0.0) ==> r == Failure(InvalidAmount)
  {
    if !IsFinite(amount) || amount.value <= 0.0 then Failure(InvalidAmount)
    else if from == to then Failure(SameAsset)
    else Success(amount.value)
  }

  /**
   * `from === "usd" ? 1 : base.rates[from]`: the USD price of one unit of
   * `symbol`. The USD leg is 1 whatever the snapshot holds under "usd";
   * any other symbol the snapshot lacks is `undefined`.
   */
  function PriceInUsd(symbol: string, base: Snapshot): (r: Rate)
    ensures symbol == "usd" ==> r == Num(1.0)
    ensures symbol != "usd" && symbol !in base.rates ==> r == Missing
  {
    if symbol == "usd" then Num(1.0) else RateOf(base, symbol)
  }

  /** `amount * rate`: a missing or NaN rate gives NaN. */
  function TimesRate(amount: real, rate: Rate): Rate
  {
    if rate.Num? then Num(amount * rate.value) else NaN
  }

  /**
   * The gross result of converting `amount` of `from` into `to`, in the
   * source's three branches. It is never `undefined`, and it is NaN exactly
   * when the source asset is not USD and its rate is NaN or missing; a zero,
   * NaN or missing target rate never leads to a division by zero.
   */
  function Gross(amount: real, from: string, to: string, base: Snapshot): (r: Rate)
    ensures r != Missing
    ensures r == NaN <==> from != "usd" && !RateOf(base, from).Num?
  {
    var priceFromUsd := PriceInUsd(from, base);
    var priceToUsd := PriceInUsd(to, base);
    if from == "usd" && Truthy(priceToUsd) then
      Num(amount / priceToUsd.value)
    else if to == "usd" && Truthy(priceFromUsd) then
      Num(amount * priceFromUsd.value)
    else
      var inUsd := TimesRate(amount, priceFromUsd);
      var divisor := if Truthy(priceToUsd) then priceToUsd.value else 1.0;
      if inUsd.Num? then Num(inUsd.value / divisor) else NaN
  }

  /** 10^8: `toFixed(8)` keeps eight decimals. */
  const Scale: real := 100000000.0

  /** `toFixed` writes numbers of this magnitude or more unrounded. */
  const FixedLimit: real := 1000000000000000000000.0

  /** Half of the last kept decimal: the largest error `toFixed(8)` makes. */
  const HalfUnit: real := 0.000000005

  /** The nearest multiple of 10^-8 to a non-negative `y`, halves rounded up. */
  function RoundHalfUp8(y: real): (r: real)
    requires y >= 0.0
    ensures r >= 0.0
    ensures OnGrid(r)
    ensures y - HalfUnit < r <= y + HalfUnit
  {
    var k := (y * Scale + 0.5).Floor;
    assert k as real <= y * Scale + 0.5 < k as real + 1.0;
    k as real / Scale
  }

  /** `x` has at most 8 decimals: it is a whole multiple of 10^-8. */
  predicate OnGrid(x: real)
  {
    (x * Scale).Floor as real == x * Scale
  }

  /**
   * Only one number on the 10^-8 grid lies in (y - HalfUnit, y + HalfUnit],
   * so the rounding is determined: the nearest grid point, with a tie going
   * to the upper one.
   */
  lemma RoundHalfUp8Unique(y: real, r: real)
    requires y >= 0.0
    requires OnGrid(r)
    requires y - HalfUnit < r <= y + HalfUnit
    ensures r == RoundHalfUp8(y)
  {
    var q := RoundHalfUp8(y);
    var m := (r * Scale).Floor;
    var k := (q * Scale).Floor;
    assert y * Scale - 0.5 < m as real <= y * Scale + 0.5;
    assert y * Scale - 0.5 < k as real <= y * Scale + 0.5;
    assert m == k;
  }

  /** The grid is symmetric about 0. */
  lemma GridIsSymmetric(q: real)
    requires OnGrid(q)
    ensures OnGrid(-q)
  {
    var k := (q * Scale).Floor;
    assert -q * Scale == (-k) as real;
  }

  /**
   * `+x.toFixed(8)`: the magnitude is rounded to 8 decimals with halves
   * away from zero, and the sign put back; magnitudes of 10^21 or more are
   * kept as they are.
   */
  function Round8(x: real): (r: real)
    ensures -FixedLimit < x < FixedLimit ==> OnGrid(r)
    ensures x - HalfUnit <= r <= x + HalfUnit
    ensures x >= 0.0 ==> x - HalfUnit < r
    ensures x <= 0.0 ==> r < x + HalfUnit
    ensures x >= 0.0 ==> r >= 0.0
    ensures x <= 0.0 ==> r <= 0.0
  {
    if x >= FixedLimit || x <= -FixedLimit then x
    else if x < 0.0 then
      var q := RoundHalfUp8(-x);
      GridIsSymmetric(q);
      -q
    else RoundHalfUp8(x)
  }

  /** The fee rate, 0.35%. */
  const FeeRate: real := 0.0035

  /** `+(result * 0.0035).toFixed(8)`: 0.35% of the gross to 8 decimals; NaN stays NaN. */
  function Fee(gross: Rate): (fee: Rate)
    ensures fee.Num? <==> gross.Num?
    ensures gross.Num? ==> gross.value * FeeRate - HalfUnit <= fee.value <= gross.value * FeeRate + HalfUnit
    ensures gross.Num? && -FixedLimit < gross.value * FeeRate < FixedLimit ==> OnGrid(fee.value)
  {
    if gross.Num? then Num(Round8(gross.value * FeeRate)) else NaN
  }

  /** `+(result - fee).toFixed(8)`: the gross less the fee, to 8 decimals; NaN when either is NaN. */
  function Net(gross: Rate, fee: Rate): (net: Rate)
    ensures net.Num? <==> gross.Num? && fee.Num?
    ensures net.Num? ==> gross.value - fee.value - HalfUnit <= net.value <= gross.value - fee.value + HalfUnit
    ensures net.Num? && -FixedLimit < gross.value - fee.value < FixedLimit ==> OnGrid(net.value)
  {
    if gross.Num? && fee.Num? then Num(Round8(gross.value - fee.value)) else NaN
  }

  /** The numeric part of a conversion ticket. */
  datatype Quote = Quote(amount: real, gross: Rate, fee: Rate, net: Rate)

  /** `onConvert` up to the ticket: the checks, then the three-branch gross, the fee and the net. */
  function Convert(amount: JsNumber, from: string, to: string, base: Snapshot): (r: Result<Quote, ConvertError>)
    ensures r.Failure? <==> !(IsFinite(amount) && amount.value > 0.0) || from == to
    ensures r.Success? ==> r.value.amount == amount.value && r.value.gross == Gross(amount.value, from, to, base)
    ensures r.Success? ==> r.value.fee == Fee(r.value.gross) && r.value.net == Net(r.value.gross, r.value.fee)
  {
    match Validate(amount, from, to)
    case Failure(e) => Failure(e)
    case Success(a) =>
      var gross := Gross(a, from, to, base);
      var fee := Fee(gross);
      Success(Quote(a, gross, fee, Net(gross, fee)))
  }

  // ----- Properties of the conversion -----

  /** Both checks come before the rates are looked at: a refusal does not depend on the snapshot. */
  lemma RefusalIgnoresRates(amount: JsNumber, from: string, to: string, base1: Snapshot, base2: Snapshot)
    ensures Convert(amount, from, to, base1).Failure? <==> !(IsFinite(amount) && amount.value > 0.0) || from == to
    ensures Convert(amount, from, to, base1).Failure? ==> Convert(amount, from, to, base1) == Convert(amount, from, to, base2)
    ensures from == to && IsFinite(amount) && amount.value > 0.0 ==> Convert(amount, from, to, base1) == Failure(SameAsset)
  {
  }

  /**
   * When the source leg is a number and the target leg a non-zero number,
   * every branch computes the same cross rate: amount × price(from) /
   * price(to); a source rate of 0 gives 0.
   */
  lemma ResolvedCrossRate(amount: real, from: string, to: string, base: Snapshot)
    requires PriceInUsd(from, base).Num? && Truthy(PriceInUsd(to, base))
    ensures Gross(amount, from, to, base)
            == Num(amount * PriceInUsd(from, base).value / PriceInUsd(to, base).value)
  {
    var p := PriceInUsd(from, base).value;
    var q := PriceInUsd(to, base).value;
    var x := amount * p;
    if from == "usd" {
      assert p == 1.0 && x == amount;
      assert Gross(amount, from, to, base) == Num(amount / q);
    } else if to == "usd" {
      assert q == 1.0 && x / q == x;
      if p == 0.0 {
        assert Gross(amount, from, to, base) == Num(x / 1.0);
      } else {
        assert Gross(amount, from, to, base) == Num(x);
      }
    } else {
      assert Gross(amount, from, to, base) == Num(x / q);
    }
  }

  /**
   * The `|| 1` divisor of the third branch: with an unpriced target, the
   * source is priced and not divided; so USD into an unpriced asset gives
   * back the amount itself, where the one-formula reading would be undefined.
   */
  lemma UnpricedTargetDividesByOne(amount: real, from: string, to: string, base: Snapshot)
    requires to != "usd" && !Truthy(RateOf(base, to))
    requires PriceInUsd(from, base).Num?
    ensures Gross(amount, from, to, base) == Num(amount * PriceInUsd(from, base).value)
    ensures from == "usd" ==> Gross(amount, from, to, base) == Num(amount)
  {
  }

  /**
   * On a snapshot priced in USD the EUR entry is NaN: converting from EUR
   * gives NaN, and converting into EUR falls to the `|| 1` divisor, so the
   * result is the USD value of the source.
   */
  lemma EurLegOnUsdSnapshot(amount: real, other: string, base: Snapshot)
    requires RateOf(base, "eur") == NaN
    requires other != "usd" && other != "eur" && RateOf(base, other).Num?
    ensures Gross(amount, "eur", other, base) == NaN
    ensures Gross(amount, "eur", "usd", base) == NaN
    ensures Gross(amount, other, "eur", base) == Num(amount * RateOf(base, other).value)
    ensures Gross(amount, "usd", "eur", base) == Num(amount)
  {
  }

  /** USD into an asset and back, at the same rate, returns the original amount (before fees). */
  lemma {:induction false} UsdRoundTrip(amount: real, asset: string, base: Snapshot)
    requires asset != "usd"
    requires Truthy(RateOf(base, asset))
    ensures Gross(amount, "usd", asset, base).Num?
    ensures Gross(Gross(amount, "usd", asset, base).value, asset, "usd", base) == Num(amount)
  {
    var p := RateOf(base, asset).value;
    assert Gross(amount, "usd", asset, base) == Num(amount / p);
    assert amount / p * p == amount;
  }

  /** Rounding to 8 decimals twice is rounding once: fee and net are already on the 10^-8 grid. */
  lemma Round8Idempotent(x: real)
    ensures Round8(Round8(x)) == Round8(x)
  {
    if -FixedLimit < x < FixedLimit {
      var y := if x < 0.0 then -x else x;
      var k := (y * Scale + 0.5).Floor;
      assert RoundHalfUp8(y) == k as real / Scale;
      assert k >= 0;
      assert (k as real + 0.5).Floor == k;
      assert k as real / Scale * Scale + 0.5 == k as real + 0.5;
      if k as real / Scale < FixedLimit {
        assert RoundHalfUp8(k as real / Scale) == k as real / Scale;
      }
    }
  }

  /**
   * The ticket's amounts are consistent: the fee is within half a unit of
   * 0.35% of the gross, the net within half a unit of gross minus fee, so
   * fee and net add up to the gross within one unit of the 8th decimal.
   */
  lemma FeeAndNetAddUp(gross: real)
    ensures Fee(Num(gross)).Num? && Net(Num(gross), Fee(Num(gross))).Num?
    ensures var fee := Fee(Num(gross)).value;
      var net := Net(Num(gross), Fee(Num(gross))).value;
      && gross * FeeRate - HalfUnit <= fee <= gross * FeeRate + HalfUnit
      && gross - fee - HalfUnit <= net <= gross - fee + HalfUnit
      && gross - 2.0 * HalfUnit <= fee + net <= gross + 2.0 * HalfUnit
      && (gross >= 0.0 ==> fee >= 0.0)
  {
  }

  /** Converting 100 BTC into USD at 60000: gross 6,000,000, fee 21,000, net 5,979,000. */
  lemma BtcToUsdExample(base: Snapshot)
    requires RateOf(base, "btc") == Num(60000.0)
    ensures Convert(Finite(100.0), "btc", "usd", base)
            == Success(Quote(100.0, Num(6000000.0), Num(21000.0), Num(5979000.0)))
  {
    assert (21000.0 * Scale + 0.5).Floor == 2100000000000;
    assert (5979000.0 * Scale + 0.5).Floor == 597900000000000;
  }

  /** Converting 100 USD into ETH at 2800: gross 1/28, fee 0.000125, net 0.03558929. */
  lemma UsdToEthExample(base: Snapshot)
    requires RateOf(base, "eth") == Num(2800.0)
    ensures Convert(Finite(100.0), "usd", "eth", base)
            == Success(Quote(100.0, Num(100.0 / 2800.0), Num(0.000125), Num(0.03558929)))
  {
    assert (100.0 / 2800.0 * FeeRate * Scale + 0.5).Floor == 12500;
    assert ((100.0 / 2800.0 - 0.000125) * Scale + 0.5).Floor == 3558929;
  }
}
