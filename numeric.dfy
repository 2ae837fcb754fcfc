/**
 * The few pieces of Java arithmetic the simulator relies on, written out over
 * unbounded integers and reals.
 */
module Numeric {

  function Abs(x: int): (r: nat)
    ensures r == x || r == -x
  {
    if x < 0 then -x else x
  }

  function Max(a: real, b: real): (r: real)
    ensures r >= a && r >= b && (r == a || r == b)
  {
    if a >= b then a else b
  }

  function Min(a: real, b: real): (r: real)
    ensures r <= a && r <= b && (r == a || r == b)
  {
    if a <= b then a else b
  }

  function MaxInt(a: int, b: int): (r: int)
    ensures r >= a && r >= b && (r == a || r == b)
  {
    if a >= b then a else b
  }

  /** Scaling a non-negative amount by a factor in [0, 1] keeps it between 0 and itself. */
  lemma ScaleByUnit(a: real, b: real)
    requires 0.0 <= a && 0.0 <= b <= 1.0
    ensures 0.0 <= a * b <= a
  {
  }

  /**
   * `Math.round` on a finite double: the nearest integer, halves rounded up,
   * i.e. the floor of x + 1/2.
   */
  function Round(x: real): (r: int)
    ensures x - 1.0 / 2.0 < r as real <= x + 1.0 / 2.0
  {
    (x + 1.0 / 2.0).Floor
  }

  function MinInt(a: int, b: int): (r: int)
    ensures r <= a && r <= b && (r == a || r == b)
  {
    if a <= b then a else b
  }

  /** A cast of a finite double to an integer type: the value truncated toward zero. */
  function Trunc(x: real): (r: int)
    ensures x >= 0.0 ==> r == x.Floor
    ensures x < 0.0 ==> r == -((-x).Floor)
    ensures Abs(r) as real <= (if x < 0.0 then -x else x)
  {
    if x >= 0.0 then x.Floor else -((-x).Floor)
  }

  /** `Math.round` never decreases as its argument grows. */
  lemma RoundMonotone(x: real, y: real)
    requires x <= y
    ensures Round(x) <= Round(y)
  {
  }

  /** Rounding a value at least an integer gives at least that integer. */
  lemma RoundAtLeast(n: int, x: real)
    requires n as real <= x
    ensures n <= Round(x)
  {
  }

  lemma DivNonNegative(x: int, y: int)
    requires x >= 0 && y > 0
    ensures x / y >= 0
  {
  }

  /** Java's `/` on integers: the quotient truncated toward zero. */
  function JavaDiv(a: int, b: int): (q: int)
    requires b != 0
    ensures Abs(q) == Abs(a) / Abs(b)
    ensures a >= 0 && b > 0 ==> q == a / b
  {
    var m := Abs(a) / Abs(b);
    assert m >= 0 by { DivNonNegative(Abs(a), Abs(b)); }
    if (a < 0) != (b < 0) then -m else m
  }

  /** Decimal digits of a natural number, as `String.format("%d", n)` writes it. */
  function NatToString(n: nat): (s: string)
    ensures |s| >= 1
    ensures forall i :: 0 <= i < |s| ==> '0' <= s[i] <= '9'
    ensures n > 0 ==> s[0] != '0'
  {
    if n < 10 then [Digit(n)] else NatToString(n / 10) + [Digit(n % 10)]
  }

  function Digit(d: nat): (c: char)
    requires d < 10
    ensures '0' <= c <= '9'
  {
    ['0','1','2','3','4','5','6','7','8','9'][d]
  }

  /** `Integer.toString` / string concatenation of an int. */
  function IntToString(n: int): (s: string)
    ensures |s| >= 1
  {
    if n < 0 then "-" + NatToString(-n) else NatToString(n)
  }

  function DigitValue(c: char): (d: nat)
    requires '0' <= c <= '9'
    ensures d < 10
  {
    (c as int - '0' as int) as nat
  }

  /** `Integer.parseInt` on a non-empty string of ASCII digits. */
  /** Strings of decimal digits only. */
  type Digits = s: string | forall i :: 0 <= i < |s| ==> '0' <= s[i] <= '9'

  function ParseNat(s: Digits): (n: nat)
  {
    if s == [] then 0 else ParseNat(s[..|s| - 1]) * 10 + DigitValue(s[|s| - 1])
  }

  lemma {:induction false} ParseNatToString(n: nat)
    ensures ParseNat(NatToString(n)) == n
  {
    if n >= 10 {
      var s := NatToString(n);
      assert s[..|s| - 1] == NatToString(n / 10);
      ParseNatToString(n / 10);
      assert s[|s| - 1] == Digit(n % 10);
    }
  }
}
