/** Decimal rendering of integers, as string interpolation of an Integer
    does in Ruby: optional '-' then the digits, without leading zeros. */
module Decimal {

  predicate IsDigit(c: char)
  {
    '0' <= c <= '9'
  }

  function DigitChar(d: nat): (c: char)
    requires d < 10
    ensures IsDigit(c) && c as int - '0' as int == d
  {
    ('0' as int + d) as char
  }

  /** The digits of `n`, most significant first. */
  function NatToString(n: nat): (s: string)
    ensures |s| >= 1
    ensures forall k :: 0 <= k < |s| ==> IsDigit(s[k])
    ensures |s| > 1 ==> s[0] != '0'
  {
    if n < 10 then [DigitChar(n)] else NatToString(n / 10) + [DigitChar(n % 10)]
  }

  /** Ruby's `Integer#to_s` in base 10. */
  function IntToString(i: int): (s: string)
    ensures |s| >= 1
    ensures i < 0 <==> s[0] == '-'
  {
    if i < 0 then "-" + NatToString(-i) else NatToString(i)
  }

  /** The value of a string of digits, read most significant first. */
  function DigitsValue(s: string): nat
    requires forall k :: 0 <= k < |s| ==> IsDigit(s[k])
  {
    if s == [] then 0
    else
      assert IsDigit(s[|s| - 1]);
      10 * DigitsValue(s[..|s| - 1]) + (s[|s| - 1] as int - '0' as int)
  }

  /** The inverse of `IntToString`. */
  function ParseInt(s: string): int
    requires |s| >= 1
    requires forall k :: 0 <= k < |s| ==> IsDigit(s[k]) || (k == 0 && s[k] == '-' && |s| > 1)
  {
    if s[0] == '-' then -(DigitsValue(s[1..]) as int) else DigitsValue(s)
  }

  lemma {:induction false} NatRoundTrip(n: nat)
    ensures DigitsValue(NatToString(n)) == n
  {
    if n >= 10 {
      NatRoundTrip(n / 10);
      var s := NatToString(n);
      assert s[..|s| - 1] == NatToString(n / 10);
    }
  }

  /** Rendering an integer loses nothing: reading the text back gives it. */
  lemma IntRoundTrip(i: int)
    ensures var s := IntToString(i);
      (forall k :: 0 <= k < |s| ==> IsDigit(s[k]) || (k == 0 && s[k] == '-' && |s| > 1)) &&
      ParseInt(s) == i
  {
    var s := IntToString(i);
    if i < 0 {
      NatRoundTrip(-i);
      assert s[1..] == NatToString(-i);
    } else {
      NatRoundTrip(i);
    }
  }
}
