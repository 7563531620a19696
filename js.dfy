/** The few JavaScript value semantics the script relies on: truthiness of
 *  numbers, the `x || 0` default, and `String.prototype.trim`.
 */
module Js {

  /** A numeric JavaScript value as this script meets it: an integer, NaN
   *  (what `parseInt` yields for text without digits), or an absent
   *  document field (undefined or null).
   */
  datatype JsNum = Int(n: int) | NaN | Missing

  /** JavaScript truthiness of a numeric value: only non-zero integers are truthy. */
  predicate Truthy(x: JsNum) {
    x.Int? && x.n != 0
  }

  /** `x || 0`: the value itself when truthy, otherwise the integer 0. */
  function OrZero(x: JsNum): (r: int)
    ensures Truthy(x) ==> r == x.n
    ensures !Truthy(x) ==> r == 0
    ensures r != 0 <==> Truthy(x)
  {
    match x
    case Int(n) => n
    case _ => 0
  }

  /** Applying `|| 0` to a value it already produced changes nothing,
   *  so coercing twice (as the dialog path does) equals coercing once. */
  lemma OrZeroIdempotent(x: JsNum)
    ensures OrZero(Int(OrZero(x))) == OrZero(x)
  {
  }

  /** A coordinate after `parseFloat`: a number of degrees, or NaN. */
  datatype Coord = At(degrees: real) | NotANumber

  /** JavaScript truthiness of a coordinate: NaN and 0 are falsy. */
  predicate CoordTruthy(c: Coord) {
    c.At? && c.degrees != 0.0
  }

  /** The characters `String.prototype.trim` removes: the ECMAScript
   *  WhiteSpace and LineTerminator code points. */
  predicate IsWhitespace(c: char) {
    c == '\t' || c == '\n' || c == '\U{B}' || c == '\U{C}' || c == '\r' ||
    c == ' ' || c == '\U{A0}' || c == '\U{1680}' ||
    ('\U{2000}' <= c <= '\U{200A}') ||
    c == '\U{2028}' || c == '\U{2029}' || c == '\U{202F}' || c == '\U{205F}' ||
    c == '\U{3000}' || c == '\U{FEFF}'
  }

  /** Drops leading whitespace: the result is a suffix of `s` whose removed
   *  prefix is all whitespace and which does not start with whitespace. */
  function TrimStart(s: string): (r: string)
    ensures |r| <= |s| && r == s[|s| - |r|..]
    ensures forall i :: 0 <= i < |s| - |r| ==> IsWhitespace(s[i])
    ensures r != [] ==> !IsWhitespace(r[0])
  {
    if s != [] && IsWhitespace(s[0]) then TrimStart(s[1..]) else s
  }

  /** Drops trailing whitespace: the result is a prefix of `s` whose removed
   *  suffix is all whitespace and which does not end with whitespace. */
  function TrimEnd(s: string): (r: string)
    ensures |r| <= |s| && r == s[..|r|]
    ensures forall i :: |r| <= i < |s| ==> IsWhitespace(s[i])
    ensures r != [] ==> !IsWhitespace(r[|r| - 1])
  {
    if s != [] && IsWhitespace(s[|s| - 1]) then TrimEnd(s[..|s| - 1]) else s
  }

  /** `r` is the part of `s` that starts at `i` and is surrounded only by
   *  whitespace. */
  predicate MiddleAt(s: string, r: string, i: int) {
    0 <= i <= |s| - |r| && r == s[i..i + |r|] &&
    (forall k :: 0 <= k < i ==> IsWhitespace(s[k])) &&
    (forall k :: i + |r| <= k < |s| ==> IsWhitespace(s[k]))
  }

  /** `s.trim()`: the part of `s` left after cutting the whitespace on both
   *  sides; empty exactly when `s` is whitespace only, and otherwise
   *  neither starting nor ending with whitespace. */
  function Trim(s: string): (r: string)
    ensures exists i :: MiddleAt(s, r, i)
    ensures r == [] <==> forall i :: 0 <= i < |s| ==> IsWhitespace(s[i])
    ensures r != [] ==> !IsWhitespace(r[0]) && !IsWhitespace(r[|r| - 1])
  {
    var t := TrimStart(s);
    var r := TrimEnd(t);
    assert r != [] ==> !IsWhitespace(r[0]) by {
      if r != [] {
        assert r[0] == t[0];
      }
    }
    TrimsLeaveMiddle(s, t, r);
    r
  }

  /** Cutting the leading whitespace and then the trailing whitespace
   *  leaves a middle part of `s`. */
  lemma TrimsLeaveMiddle(s: string, t: string, r: string)
    requires |t| <= |s| && t == s[|s| - |t|..]
    requires forall i :: 0 <= i < |s| - |t| ==> IsWhitespace(s[i])
    requires |r| <= |t| && r == t[..|r|]
    requires forall i :: |r| <= i < |t| ==> IsWhitespace(t[i])
    ensures MiddleAt(s, r, |s| - |t|)
  {
    var d := |s| - |t|;
    forall k | d + |r| <= k < |s|
      ensures IsWhitespace(s[k])
    {
      assert s[k] == t[k - d];
    }
    assert r == s[d..d + |r|];
  }

  /** Trimming a trimmed string changes nothing. */
  lemma {:induction false} TrimIdempotent(s: string)
    ensures Trim(Trim(s)) == Trim(s)
  {
    var r := Trim(s);
    if r != [] {
      assert TrimStart(r) == r;
      assert TrimEnd(r) == r;
    }
  }
}
