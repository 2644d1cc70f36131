/**
 * The string operations the pipeline relies on: `Array.prototype.join`,
 * its inverse `String.prototype.split`, and `toUpperCase` on ASCII letters.
 */
module Text {
  import opened Js

  /**
   * `xs.join(sep)`: the pieces in order with one separator between
   * neighbours; `Split` undoes it (see `SplitJoin`).
   */
  function Join(xs: seq<string>, sep: char): (s: string)
    ensures |xs| == 0 ==> s == ""
    ensures |xs| > 0 ==> xs[0] <= s
    ensures |xs| > 1 ==> xs[0] + [sep] <= s
  {
    if |xs| == 0 then ""
    else if |xs| == 1 then xs[0]
    else xs[0] + [sep] + Join(xs[1..], sep)
  }

  /** `s.split(sep)`: the pieces between the separators, in order; no piece contains one. */
  function Split(s: string, sep: char): (parts: seq<string>)
    ensures |parts| >= 1
    ensures forall piece :: piece in parts ==> sep !in piece
    decreases |s|
  {
    var i := FindIndex(s, c => c == sep);
    if i == |s| then [s]
    else [s[..i]] + Split(s[i + 1..], sep)
  }

  /** The first separator in `a + [sep] + b` is the one after `a` when `a` has none. */
  lemma FirstSeparator(a: string, sep: char, b: string)
    requires sep !in a
    ensures FindIndex(a + [sep] + b, c => c == sep) == |a|
  {
    var s := a + [sep] + b;
    var i := FindIndex(s, c => c == sep);
    assert s[|a|] == sep;
  }

  /** Splitting at a first separator peels off the piece before it. */
  lemma SplitStep(x: string, sep: char, rest: string)
    requires sep !in x
    ensures Split(x + [sep] + rest, sep) == [x] + Split(rest, sep)
  {
    var s := x + [sep] + rest;
    FirstSeparator(x, sep, rest);
    assert s[..|x|] == x;
    assert s[|x| + 1..] == rest;
  }

  /** Splitting a join recovers the pieces, provided none of them contains the separator. */
  lemma {:induction false} SplitJoin(xs: seq<string>, sep: char)
    requires |xs| >= 1
    requires forall x :: x in xs ==> sep !in x
    ensures Split(Join(xs, sep), sep) == xs
  {
    assert xs[0] in xs;
    if |xs| > 1 {
      var rest := Join(xs[1..], sep);
      assert Join(xs, sep) == xs[0] + [sep] + rest;
      SplitStep(xs[0], sep, rest);
      forall x | x in xs[1..] ensures sep !in x {
        assert x in xs;
      }
      SplitJoin(xs[1..], sep);
      assert xs == [xs[0]] + xs[1..];
    }
  }

  /** `toUpperCase` on one character: ASCII letters only. */
  function UpperChar(c: char): char
  {
    if 'a' <= c <= 'z' then (c as int - 32) as char else c
  }

  /** `s.toUpperCase()`, character by character. */
  function Upper(s: string): (u: string)
    ensures |u| == |s|
    ensures forall i :: 0 <= i < |s| ==> u[i] == UpperChar(s[i])
  {
    if |s| == 0 then "" else [UpperChar(s[0])] + Upper(s[1..])
  }
}
