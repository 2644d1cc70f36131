/**
 * The JavaScript values the price pipeline handles: rates looked up in a
 * table, which may be NaN or `undefined`; numbers typed by the user, which
 * may be NaN or infinite; and the Option/Result wrappers that stand for a
 * lookup that misses and an operation that throws.
 */
module Js {

  datatype Option<+T> = None | Some(value: T)

  datatype Result<+T, +E> = Success(value: T) | Failure(error: E)

  /** A value read out of a rate table: a number, NaN, or `undefined` (the key is absent). */
  datatype Rate = Num(value: real) | NaN | Missing

  /** JavaScript truthiness of such a value: `0`, `NaN` and `undefined` are all falsy. */
  predicate Truthy(r: Rate)
  {
    r.Num? && r.value != 0.0
  }

  /** A number produced by `Number(text)` or `parseFloat(text)`. */
  datatype JsNumber = Finite(value: real) | NotANumber | PosInfinity | NegInfinity

  /** `Number.isFinite(n)`. */
  predicate IsFinite(n: JsNumber)
  {
    n.Finite?
  }

  /** `n * k` for a finite factor `k`, with the IEEE rules for NaN and the infinities. */
  function Times(n: JsNumber, k: real): JsNumber
  {
    match n
    case Finite(v) => Finite(v * k)
    case NotANumber => NotANumber
    case PosInfinity => if k > 0.0 then PosInfinity else if k < 0.0 then NegInfinity else NotANumber
    case NegInfinity => if k > 0.0 then NegInfinity else if k < 0.0 then PosInfinity else NotANumber
  }

  /**
   * The index of the first element of `s` that satisfies `p`, or `|s|` when
   * none does (`findIndex`, with "not found" written as `|s|`).
   */
  function FindIndex<T>(s: seq<T>, p: T -> bool): (i: nat)
    ensures i <= |s|
    ensures i < |s| ==> p(s[i])
    ensures forall j :: 0 <= j < i ==> !p(s[j])
  {
    if |s| == 0 then 0
    else if p(s[0]) then 0
    else 1 + FindIndex(s[1..], p)
  }
}
