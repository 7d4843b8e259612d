/**
 * The few pieces of JavaScript number and string semantics that the
 * alignment logic depends on, stated over Dafny's unbounded integers and
 * exact reals.
 */
module JsRuntime {

  datatype Option<+T> = None | Some(value: T)

  function Abs(x: real): (r: real)
    ensures r >= 0.0 && (r == x || r == -x)
  {
    if x < 0.0 then -x else x
  }

  function IntAbs(x: int): (r: int)
    ensures r >= 0 && (r == x || r == -x)
  {
    if x < 0 then -x else x
  }

  /** The quotient of JavaScript's division once truncated towards zero. */
  function TruncQuot(a: int, n: int): int
    requires n > 0
  {
    if a >= 0 then a / n else -((-a) / n)
  }

  /**
   * JavaScript's `%`: the quotient is truncated towards zero, so the
   * remainder carries the sign of the dividend (Dafny's `%` is Euclidean).
   */
  function TruncRem(a: int, n: int): (r: int)
    requires n > 0
    ensures a == TruncQuot(a, n) * n + r
    ensures -n < r < n
    ensures a >= 0 ==> 0 <= r
    ensures a <= 0 ==> r <= 0
  {
    if a >= 0 then a % n
    else
      var q := (-a) / n;
      assert -a == q * n + (-a) % n;
      assert -q * n == -(q * n);
      -((-a) % n)
  }

  /** `Math.round`: the nearest integer, with halves rounded towards +infinity. */
  function Round(x: real): (r: int)
    ensures r as real - 0.5 <= x < r as real + 0.5
  {
    (x + 0.5).Floor
  }

  /** A JavaScript number held in a nullable slot is truthy unless it is null or 0 (NaN is not modelled). */
  predicate Truthy(x: Option<real>)
    ensures Truthy(x) <==> x != None && x != Some(0.0)
  {
    x.Some? && x.value != 0.0
  }

  predicate IsUpper(c: char)
  {
    'A' <= c <= 'Z'
  }

  /** U+212A KELVIN SIGN, the one non-ASCII letter whose lower case is an ASCII letter (`k`). */
  const KelvinSign: char := '\U{212A}'

  function LowerChar(c: char): (d: char)
    ensures !IsUpper(d) && d != KelvinSign
    ensures IsUpper(c) ==> d as int == c as int + 32
    ensures c == KelvinSign ==> d == 'k'
    ensures !IsUpper(c) && c != KelvinSign ==> d == c
  {
    if IsUpper(c) then (c as int + 32) as char
    else if c == KelvinSign then 'k'
    else c
  }

  /**
   * `String.prototype.toLowerCase` for the ASCII letters and the Kelvin sign;
   * every other character is kept as it is.
   */
  function ToLowerCase(s: string): (t: string)
    ensures |t| == |s|
    ensures forall i :: 0 <= i < |s| ==> t[i] == LowerChar(s[i])
  {
    if s == [] then [] else [LowerChar(s[0])] + ToLowerCase(s[1..])
  }

  /** Lower-casing twice is lower-casing once. */
  lemma {:induction false} ToLowerCaseIdempotent(s: string)
    ensures ToLowerCase(ToLowerCase(s)) == ToLowerCase(s)
  {
    if s != [] {
      ToLowerCaseIdempotent(s[1..]);
      assert ToLowerCase(s)[1..] == ToLowerCase(s[1..]);
    }
  }
}
