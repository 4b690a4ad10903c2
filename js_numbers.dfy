/**
 * The few JavaScript number operations the controllers rely on, written out
 * over Dafny's unbounded `int` and exact `real`:
 *  - `Math.floor` on a number,
 *  - the `%` operator, which truncates toward zero (the result takes the sign
 *    of the dividend), unlike Dafny's Euclidean `%`,
 *  - `toString()` of an integral number and `padStart(2, '0')`.
 */
module JsNumbers {

  /** `Math.floor(x)`: the greatest integer not above x. */
  function Floor(x: real): (r: int)
    ensures r as real <= x < r as real + 1.0
  {
    x.Floor
  }

  /** Truncation toward zero, the quotient JavaScript's `%` is built on. */
  function Trunc(x: real): (r: int)
    ensures x >= 0.0 ==> r == Floor(x)
    ensures x < 0.0 ==> r == -Floor(-x)
    ensures (if r < 0 then -r else r) as real <= (if x < 0.0 then -x else x)
    ensures x >= 0.0 ==> 0.0 <= x - r as real < 1.0
    ensures x < 0.0 ==> -1.0 < x - r as real <= 0.0
  {
    if x >= 0.0 then Floor(x) else -Floor(-x)
  }

  /** `a % n` on numbers: `a - n * q` where q is a / n truncated toward zero. */
  function RealRem(a: real, n: real): (r: real)
    requires n != 0.0
    ensures a >= 0.0 ==> r >= 0.0
    ensures a < 0.0 ==> r <= 0.0
    ensures (if r < 0.0 then -r else r) < (if n < 0.0 then -n else n)
    ensures a - r == n * Trunc(a / n) as real
  {
    TruncRemainder(a, n);
    a - n * Trunc(a / n) as real
  }

  /** What truncating a quotient leaves over: the dividend's sign, and less than the divisor in magnitude. */
  lemma TruncRemainder(a: real, n: real)
    requires n != 0.0
    ensures var r := a - n * Trunc(a / n) as real;
            && (a >= 0.0 ==> r >= 0.0) && (a < 0.0 ==> r <= 0.0)
            && (if r < 0.0 then -r else r) < (if n < 0.0 then -n else n)
  {
    var q := a / n;
    var f := q - Trunc(q) as real;
    assert a == n * q;
    assert a - n * Trunc(q) as real == n * f;
    ScaledFraction(n, f);
    // the fraction dropped by truncation has the quotient's sign, so n * f has the dividend's
    if n > 0.0 {
      assert a >= 0.0 <==> q >= 0.0;
    } else {
      assert a >= 0.0 <==> q <= 0.0;
    }
  }

  /** A fraction strictly between -1 and 1 of n is smaller than n in magnitude. */
  lemma ScaledFraction(n: real, f: real)
    requires n != 0.0 && -1.0 < f < 1.0
    ensures (if n * f < 0.0 then -(n * f) else n * f) < (if n < 0.0 then -n else n)
  {
    if n > 0.0 {
      if f >= 0.0 { assert n * f < n * 1.0; } else { assert n * -f < n * 1.0; }
    } else {
      if f >= 0.0 { assert -n * f < -n * 1.0; } else { assert -n * -f < -n * 1.0; }
    }
  }

  /** The quotient of a by n truncated toward zero, on integers. */
  function IntQuot(a: int, n: int): int
    requires n > 0
  {
    if a >= 0 then a / n else -((-a) / n)
  }

  /** `a % n` on integral numbers, truncating toward zero: the remainder left by IntQuot. */
  function IntRem(a: int, n: int): (r: int)
    requires n > 0
    ensures a >= 0 ==> 0 <= r < n
    ensures a < 0 ==> -n < r <= 0
    ensures a - r == n * IntQuot(a, n)
  {
    if a >= 0 then a % n else -((-a) % n)
  }

  /** The decimal digit character of d. */
  function DigitChar(d: int): (c: char)
    requires 0 <= d < 10
    ensures '0' <= c <= '9'
  {
    "0123456789"[d]
  }

  /** The value of a decimal digit character. */
  function DigitValue(c: char): (d: int)
    requires '0' <= c <= '9'
    ensures 0 <= d < 10
  {
    (c as int) - ('0' as int)
  }

  lemma DigitRoundTrip(d: int)
    requires 0 <= d < 10
    ensures DigitValue(DigitChar(d)) == d
  {
  }

  predicate IsDigits(s: string)
  {
    forall i :: 0 <= i < |s| ==> '0' <= s[i] <= '9'
  }

  /** `n.toString()` for a non-negative integral number. */
  function NatToString(n: nat): (s: string)
    ensures |s| >= 1 && IsDigits(s)
    ensures n < 10 <==> |s| == 1
    ensures n >= 10 ==> s[0] != '0'
    decreases n
  {
    if n < 10 then [DigitChar(n)] else NatToString(n / 10) + [DigitChar(n % 10)]
  }

  /** `n.toString()` for any integral number: a leading '-' when negative. */
  function IntToString(n: int): (s: string)
    ensures n >= 0 ==> s == NatToString(n)
    ensures n < 0 ==> s == "-" + NatToString(-n)
  {
    if n >= 0 then NatToString(n) else "-" + NatToString(-n)
  }

  /** The value of a non-empty run of decimal digits. */
  function DigitsValue(s: string): (n: nat)
    requires IsDigits(s)
    decreases |s|
  {
    if s == [] then 0 else 10 * DigitsValue(s[..|s| - 1]) + DigitValue(s[|s| - 1])
  }

  /** Printing a natural number and reading the digits back gives the number. */
  lemma {:induction false} NatToStringRoundTrip(n: nat)
    ensures DigitsValue(NatToString(n)) == n
    decreases n
  {
    var s := NatToString(n);
    if n < 10 {
      DigitRoundTrip(n);
    } else {
      NatToStringRoundTrip(n / 10);
      assert s[..|s| - 1] == NatToString(n / 10);
      DigitRoundTrip(n % 10);
    }
  }

  /** `s.padStart(2, '0')`: left-pad with zeros to at least two characters. */
  function PadStart2(s: string): (r: string)
    ensures |s| >= 2 ==> r == s
    ensures |s| == 1 ==> r == ['0', s[0]]
    ensures |s| == 0 ==> r == ['0', '0']
  {
    if |s| >= 2 then s else seq(2 - |s|, _ => '0') + s
  }
}
