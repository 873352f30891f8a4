/**
 * Decimal text of Go `int32` values, as `fmt.Sprintf("%d", x)` writes it:
 * an optional '-' followed by the digits of |x|, with no leading zeros.
 */
module Decimal {
  import opened Wrappers

  /** Go's `int32`. */
  type int32 = x: int | -0x8000_0000 <= x < 0x8000_0000

  predicate IsDigit(c: char) {
    '0' <= c <= '9'
  }

  predicate AllDigits(s: string) {
    forall i :: 0 <= i < |s| ==> IsDigit(s[i])
  }

  function DigitChar(d: nat): (c: char)
    requires d < 10
    ensures IsDigit(c) && DigitValue(c) == d
  {
    (48 + d) as char
  }

  function DigitValue(c: char): (d: nat)
    requires IsDigit(c)
    ensures d < 10
  {
    c as int - 48
  }

  /** The canonical decimal digits of `n`. */
  function NatToDecimal(n: nat): (s: string)
    ensures |s| >= 1 && AllDigits(s)
    ensures |s| > 1 ==> s[0] != '0'
    decreases n
  {
    if n < 10 then [DigitChar(n)] else NatToDecimal(n / 10) + [DigitChar(n % 10)]
  }

  /** The number a string of decimal digits denotes (most significant first). */
  function DecimalValue(s: string): nat
    requires AllDigits(s)
  {
    if s == [] then 0 else 10 * DecimalValue(s[..|s| - 1]) + DigitValue(s[|s| - 1])
  }

  /** `fmt.Sprintf("%d", x)` for any integer. */
  function FormatInt(x: int): string {
    if x < 0 then "-" + NatToDecimal(-x) else NatToDecimal(x)
  }

  /** `fmt.Sprintf("%d", x)` for an `int32`. */
  function FormatInt32(x: int32): (s: string)
    ensures s != [] && (s[0] == '-' <==> x < 0)
    ensures AllDigits(if x < 0 then s[1..] else s)
  {
    FormatInt(x)
  }

  /** Reads back an optionally signed decimal numeral; `None` if `s` is not one. */
  function ParseInt(s: string): Option<int> {
    if |s| > 1 && s[0] == '-' && AllDigits(s[1..]) then Some(0 - DecimalValue(s[1..]) as int)
    else if |s| > 0 && AllDigits(s) then Some(DecimalValue(s))
    else None
  }

  /** Reads back an `int32` numeral; `None` if `s` is not one or is out of range. */
  function ParseInt32(s: string): Option<int32> {
    match ParseInt(s)
    case Some(x) => if -0x8000_0000 <= x < 0x8000_0000 then Some(x) else None
    case None => None
  }

  lemma {:induction false} DecimalRoundTrip(n: nat)
    ensures DecimalValue(NatToDecimal(n)) == n
    decreases n
  {
    if n >= 10 {
      DecimalRoundTrip(n / 10);
      var s := NatToDecimal(n);
      assert s[..|s| - 1] == NatToDecimal(n / 10);
    }
  }

  /** Every `int32` written by `%d` reads back as itself. */
  lemma FormatInt32RoundTrip(x: int32)
    ensures ParseInt32(FormatInt32(x)) == Some(x)
  {
    if x < 0 {
      var magnitude: nat := -(x as int);
      DecimalRoundTrip(magnitude);
      assert ("-" + NatToDecimal(magnitude))[1..] == NatToDecimal(magnitude);
    } else {
      DecimalRoundTrip(x);
    }
  }

  /** Two `int32` values have the same `%d` text only if they are equal. */
  lemma FormatInt32Injective(x: int32, y: int32)
    requires FormatInt32(x) == FormatInt32(y)
    ensures x == y
  {
    FormatInt32RoundTrip(x);
    FormatInt32RoundTrip(y);
  }
}
