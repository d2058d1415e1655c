/**
 * Numbers as the engine uses them: JavaScript doubles are modelled as reals, and the
 * host's transcendental functions are uninterpreted parameters.
 */
module Numeric {

  /** `Math.abs`. */
  function Abs(x: real): (r: real)
    ensures 0.0 <= r && (r == x || r == -x)
  {
    if x < 0.0 then -x else x
  }

  /** `Math.min` of two numbers. */
  function Min(a: real, b: real): (r: real)
    ensures r <= a && r <= b && (r == a || r == b)
  {
    if a <= b then a else b
  }

  /** `Math.max` of two numbers. */
  function Max(a: real, b: real): (r: real)
    ensures a <= r && b <= r && (r == a || r == b)
  {
    if a <= b then b else a
  }

  /** `Math.floor`: the largest integer not above `x`. */
  function Floor(x: real): (r: int)
    ensures r as real <= x < r as real + 1.0
  {
    x.Floor
  }

  /** `Math.ceil`: the smallest integer not below `x`. */
  function Ceil(x: real): (r: int)
    ensures r as real - 1.0 < x <= r as real
  {
    -((-x).Floor)
  }

  /** `Math.PI`. */
  const Pi: real := 3.141592653589793

  /**
   * The host functions `Math.sqrt`, `Math.cos`, `Math.sin` and `Math.atan2`, left
   * uninterpreted: every member that uses them takes them as a parameter.
   */
  datatype MathFns = MathFns(sqrt: real -> real, cos: real -> real, sin: real -> real, atan2: (real, real) -> real)

  /** What a property may assume of `Math.sqrt` when it needs to: it is the non-negative square root. */
  ghost predicate IsSqrt(sqrt: real -> real) {
    forall x: real {:trigger sqrt(x)} :: 0.0 <= x ==> 0.0 <= sqrt(x) && sqrt(x) * sqrt(x) == x
  }

  // ---------------------------------------------------------------------------------
  // Decimal formatting, as `Number.prototype.toString` prints integers.

  predicate IsDigit(c: char) {
    '0' <= c <= '9'
  }

  function DigitValue(c: char): (d: nat)
    requires IsDigit(c)
    ensures d < 10
  {
    (c as int) - ('0' as int)
  }

  function DigitChar(d: nat): (c: char)
    requires d < 10
    ensures IsDigit(c) && DigitValue(c) == d
  {
    "0123456789"[d]
  }

  /** The shortest decimal numeral of `n`, as `n.toString()` gives it. */
  function NatToString(n: nat): string
    decreases n
  {
    if n < 10 then [DigitChar(n)] else NatToString(n / 10) + [DigitChar(n % 10)]
  }

  /** The value of a string of decimal digits. */
  function ParseDigits(s: string): nat
    requires forall i :: 0 <= i < |s| ==> IsDigit(s[i])
  {
    if s == [] then 0
    else 10 * ParseDigits(s[..|s| - 1]) + DigitValue(s[|s| - 1])
  }

  /** `NatToString` yields digits only, without a leading zero, and reading them back gives `n`. */
  lemma {:induction false} NatToStringRoundTrip(n: nat)
    ensures |NatToString(n)| > 0
    ensures forall i :: 0 <= i < |NatToString(n)| ==> IsDigit(NatToString(n)[i])
    ensures |NatToString(n)| > 1 ==> NatToString(n)[0] != '0'
    ensures ParseDigits(NatToString(n)) == n
    decreases n
  {
    if n >= 10 {
      NatToStringRoundTrip(n / 10);
      var s := NatToString(n);
      assert s[..|s| - 1] == NatToString(n / 10);
    }
  }

  /** Distinct naturals print as distinct strings. */
  lemma NatToStringInjective(m: nat, n: nat)
    requires NatToString(m) == NatToString(n)
    ensures m == n
  {
    NatToStringRoundTrip(m);
    NatToStringRoundTrip(n);
  }

  /** The digits of an integer numeral: everything after a leading minus sign. */
  function MagnitudeDigits(s: string): string {
    if |s| > 0 && s[0] == '-' then s[1..] else s
  }

  /**
   * A canonical integer numeral: an optional minus sign, then at least one digit, with no
   * leading zero and no negative zero.
   */
  predicate IsIntNumeral(s: string) {
    var d := MagnitudeDigits(s);
    && |d| > 0
    && (forall i :: 0 <= i < |d| ==> IsDigit(d[i]))
    && (|d| > 1 ==> d[0] != '0')
    && (|s| > 0 && s[0] == '-' ==> d != "0")
  }

  /** The value of an integer numeral, read independently of how it was printed. */
  function ParseInt(s: string): int
    requires IsIntNumeral(s)
  {
    if s[0] == '-' then -(ParseDigits(s[1..]) as int) else ParseDigits(s)
  }

  /**
   * `toString` of an integer: a canonical numeral that starts with a minus sign exactly
   * for negative integers and reads back as the integer.
   */
  function IntToString(i: int): (s: string)
    ensures IsIntNumeral(s)
    ensures s[0] == '-' <==> i < 0
    ensures ParseInt(s) == i
  {
    var n: nat := if i < 0 then -i else i;
    NatToStringRoundTrip(n);
    var d := NatToString(n);
    assert d[0] != '-';
    if i < 0 then
      assert ("-" + d)[1..] == d;
      "-" + d
    else d
  }

  /** A digit character is the character of its own value. */
  lemma DigitCharOfValue(c: char)
    requires IsDigit(c)
    ensures DigitChar(DigitValue(c)) == c
  {
  }

  /**
   * A digit string without a leading zero is what `NatToString` prints for its value, and its
   * value is positive when it does not start with zero.
   */
  lemma {:induction false} DigitsRoundTrip(d: string)
    requires |d| > 0 && (forall i :: 0 <= i < |d| ==> IsDigit(d[i])) && (|d| > 1 ==> d[0] != '0')
    ensures NatToString(ParseDigits(d)) == d
    ensures d[0] != '0' ==> ParseDigits(d) > 0
    decreases |d|
  {
    var last := d[|d| - 1];
    DigitCharOfValue(last);
    if |d| > 1 {
      var p := d[..|d| - 1];
      assert p[0] == d[0];
      DigitsRoundTrip(p);
      var n := ParseDigits(d);
      assert n == 10 * ParseDigits(p) + DigitValue(last);
      assert n / 10 == ParseDigits(p) && n % 10 == DigitValue(last);
      assert d == p + [last];
    } else {
      assert d == [last];
    }
  }

  /** Every canonical integer numeral is what `IntToString` prints for its value. */
  lemma ParseIntRoundTrip(s: string)
    requires IsIntNumeral(s)
    ensures IntToString(ParseInt(s)) == s
  {
    var d := MagnitudeDigits(s);
    DigitsRoundTrip(d);
    if s[0] == '-' {
      assert d[0] != '0';
      assert s == "-" + d;
    }
  }

  /**
   * `Number.prototype.toString` of a double: an integral value of magnitude below 10^21
   * prints as a plain decimal integer; any other value is printed by the host's
   * shortest-round-trip algorithm, which is left abstract as `fractional`.
   */
  function NumberToString(x: real, fractional: real -> string): (s: string)
    ensures x == (x.Floor as real) && Abs(x) < 1000000000000000000000.0 ==>
              IsIntNumeral(s) && ParseInt(s) as real == x && (s[0] == '-' <==> x < 0.0)
  {
    if x == (x.Floor as real) && Abs(x) < 1000000000000000000000.0 then IntToString(x.Floor) else fractional(x)
  }
}
