/** The part of Go's fmt the handler needs: the verb %.0f, which prints a
    float rounded to a whole number, ties to even. */
module Fmt {

  /** The decimal digit for d. */
  function Digit(d: nat): (c: char)
    requires d < 10
    ensures '0' <= c <= '9' && c as int - '0' as int == d
  {
    ('0' as int + d) as char
  }

  ghost predicate AllDigits(s: string)
  {
    forall i :: 0 <= i < |s| ==> '0' <= s[i] <= '9'
  }

  /** n in decimal, without leading zeros. */
  function Decimal(n: nat): (s: string)
    ensures |s| >= 1 && AllDigits(s)
    ensures s[0] == '0' ==> n == 0
    decreases n
  {
    if n < 10 then [Digit(n)] else Decimal(n / 10) + [Digit(n % 10)]
  }

  /** The number a string of decimal digits denotes. */
  function DecimalValue(s: string): nat
    requires AllDigits(s)
  {
    if s == [] then 0
    else DecimalValue(s[..|s| - 1]) * 10 + (s[|s| - 1] as int - '0' as int)
  }

  /** Printing a whole number and reading it back gives that number. */
  lemma {:induction false} DecimalRoundTrip(n: nat)
    ensures DecimalValue(Decimal(n)) == n
    decreases n
  {
    var s := Decimal(n);
    if n >= 10 {
      DecimalRoundTrip(n / 10);
      assert s[..|s| - 1] == Decimal(n / 10);
    }
  }

  /** The whole number nearest to x, the even one when x lies halfway. */
  function RoundHalfEven(x: real): (n: int)
    ensures -0.5 <= n as real - x <= 0.5
    ensures (n as real - x == 0.5 || x - n as real == 0.5) ==> n % 2 == 0
  {
    var f := x.Floor;
    var frac := x - f as real;
    if frac < 0.5 then f
    else if frac > 0.5 then f + 1
    else if f % 2 == 0 then f else f + 1
  }

  /** fmt.Sprintf("%.0f", x): a minus sign for a negative x (kept even when
      the digits round to 0), then the rounded magnitude in decimal. */
  function FormatFixed0(x: real): (s: string)
  {
    if x < 0.0 then "-" + Decimal(RoundHalfEven(-x)) else Decimal(RoundHalfEven(x))
  }

  /** A whole number prints as its own decimal digits. */
  lemma FormatWhole(n: nat)
    ensures FormatFixed0(n as real) == Decimal(n)
  {
    assert RoundHalfEven(n as real) == n;
  }
}
