/** Small shared vocabulary: an optional value, JavaScript's Math.round on
    exact reals, clamping, and the ASCII part of String.toLowerCase/includes. */
module Basics {

  datatype Option<+T> = None | Some(value: T)

  /** Math.round: the nearest integer, halves rounded towards +infinity. */
  function Round(x: real): (r: int)
    ensures x - 0.5 < r as real <= x + 0.5
  {
    (x + 0.5).Floor
  }

  lemma RoundMonotone(x: real, y: real)
    requires x <= y
    ensures Round(x) <= Round(y)
  {
  }

  /** Rounding an exact integer gives it back. */
  lemma RoundInt(n: int)
    ensures Round(n as real) == n
  {
  }

  /** Math.max(lo, Math.min(hi, x)) on integers. */
  function ClampInt(lo: int, hi: int, x: int): (r: int)
    ensures r >= lo
    ensures lo <= hi ==> r <= hi
    ensures lo <= x <= hi ==> r == x
  {
    if x > hi then (if hi > lo then hi else lo) else (if x < lo then lo else x)
  }

  /** Math.max(lo, Math.min(hi, x)) on reals. */
  function ClampReal(lo: real, hi: real, x: real): (r: real)
    ensures r >= lo
    ensures lo <= hi ==> r <= hi
    ensures lo <= x <= hi ==> r == x
  {
    if x > hi then (if hi > lo then hi else lo) else (if x < lo then lo else x)
  }

  function AbsReal(x: real): (r: real)
    ensures r >= 0.0 && (r == x || r == -x)
  {
    if x < 0.0 then -x else x
  }

  /** String.toLowerCase restricted to ASCII letters. */
  function LowerChar(c: char): char
  {
    if 'A' <= c <= 'Z' then (c as int + 32) as char else c
  }

  function ToLower(s: string): (r: string)
    ensures |r| == |s|
    ensures forall i :: 0 <= i < |s| ==> r[i] == LowerChar(s[i])
  {
    seq(|s|, i requires 0 <= i < |s| => LowerChar(s[i]))
  }

  /** `sub` occurs in `s` starting at position `i`. */
  predicate MatchAt(s: string, sub: string, i: int)
  {
    0 <= i <= |s| - |sub| && s[i..i + |sub|] == sub
  }

  /** String.prototype.includes. */
  function Includes(s: string, sub: string): (b: bool)
    ensures b <==> exists i :: MatchAt(s, sub, i)
    decreases |s|
  {
    if |sub| > |s| then false
    else if s[..|sub|] == sub then assert MatchAt(s, sub, 0); true
    else
      assert forall j :: MatchAt(s[1..], sub, j) ==> MatchAt(s, sub, j + 1);
      assert forall i :: MatchAt(s, sub, i) ==> MatchAt(s[1..], sub, i - 1);
      Includes(s[1..], sub)
  }
}
