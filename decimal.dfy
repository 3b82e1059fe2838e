/**
 * Decimal rendering of integers, as Java's string concatenation `"" + i`
 * (Integer.toString) and `String.format("%02d", i)` produce it, together with
 * the parser that inverts it.
 */
module Decimal {

  predicate IsDigit(c: char) { '0' <= c <= '9' }

  predicate IsDigits(s: string) { |s| > 0 && forall i :: 0 <= i < |s| ==> IsDigit(s[i]) }

  function DigitChar(d: nat): (c: char)
    requires d < 10
    ensures IsDigit(c) && c as int - '0' as int == d
  {
    ('0' as int + d) as char
  }

  function DigitValue(c: char): (d: nat)
    requires IsDigit(c)
    ensures d < 10 && DigitChar(d) == c
  {
    c as int - '0' as int
  }

  /** The shortest decimal representation of `n` (no leading zeros). */
  function NatToString(n: nat): (s: string)
    decreases n
  {
    if n < 10 then [DigitChar(n)] else NatToString(n / 10) + [DigitChar(n % 10)]
  }

  /** Integer.toString: a minus sign for negative numbers, then the digits. */
  function IntToString(i: int): (s: string)
  {
    if i < 0 then "-" + NatToString(-i) else NatToString(i)
  }

  /** The value of a non-empty string of decimal digits. */
  function ParseNat(s: string): (n: nat)
    requires IsDigits(s)
    decreases |s|
  {
    if |s| == 1 then DigitValue(s[0])
    else ParseNat(s[..|s| - 1]) * 10 + DigitValue(s[|s| - 1])
  }

  /** Inverse of IntToString on its range. */
  function ParseInt(s: string): (i: int)
    requires IsDigits(s) || (|s| > 1 && s[0] == '-' && IsDigits(s[1..]))
  {
    if s[0] == '-' then -(ParseNat(s[1..]) as int) else ParseNat(s) as int
  }

  lemma {:induction false} NatToStringRoundTrip(n: nat)
    ensures IsDigits(NatToString(n))
    ensures ParseNat(NatToString(n)) == n
    ensures n < 10 <==> |NatToString(n)| == 1
    ensures 10 <= n < 100 ==> |NatToString(n)| == 2
    ensures NatToString(n)[0] != '0' || n == 0
    decreases n
  {
    if n >= 10 {
      NatToStringRoundTrip(n / 10);
      var s := NatToString(n);
      assert s[..|s| - 1] == NatToString(n / 10);
    }
  }

  lemma {:induction false} IntToStringRoundTrip(i: int)
    ensures IsDigits(IntToString(i)) || (IntToString(i)[0] == '-' && |IntToString(i)| > 1 && IsDigits(IntToString(i)[1..]))
    ensures IntToString(i)[0] == '-' <==> i < 0
    ensures ParseInt(IntToString(i)) == i
  {
    if i < 0 {
      NatToStringRoundTrip(-i);
      assert IntToString(i)[1..] == NatToString(-i);
    } else {
      NatToStringRoundTrip(i);
    }
  }

  /** `String.format("%02d", i)`: at least two characters, zero-padded when non-negative. */
  function Pad2(i: int): (s: string)
  {
    if 0 <= i < 10 then "0" + IntToString(i) else IntToString(i)
  }

  lemma Pad2TwoDigits(i: int)
    requires 0 <= i < 100
    ensures |Pad2(i)| == 2 && IsDigits(Pad2(i)) && ParseNat(Pad2(i)) == i
  {
    NatToStringRoundTrip(i);
    if i < 10 {
      var s := Pad2(i);
      assert s[..1] == "0";
      assert s == [DigitChar(0), DigitChar(i)];
      assert ParseNat(s[..1]) == 0;
    }
  }
}
