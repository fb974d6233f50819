/** Decimal rendering of unsigned integers, as WTF's integer-to-string adapters
    (`lengthOfIntegerAsString`, `writeIntegerToBuffer`, printing a number to a stream) produce it. */
module Decimal {

  /** The character of one decimal digit. */
  function DigitChar(d: nat): (c: char)
    requires d < 10
    ensures '0' <= c <= '9'
    ensures c as int - '0' as int == d
  {
    ('0' as int + d) as char
  }

  /** The number of decimal digits of `n` (at least one: zero is written "0"). */
  function DigitCount(n: nat): (k: nat)
    ensures k >= 1
    ensures n < 10 <==> k == 1
  {
    if n < 10 then 1 else DigitCount(n / 10) + 1
  }

  /** The decimal digits of `n`, most significant first, without leading zeros. */
  function NatToString(n: nat): (s: string)
    ensures |s| >= 1
    ensures forall i :: 0 <= i < |s| ==> '0' <= s[i] <= '9'
  {
    if n < 10 then [DigitChar(n)] else NatToString(n / 10) + [DigitChar(n % 10)]
  }

  /** The value of a string of decimal digits. */
  function DigitsValue(s: string): nat
    requires forall i :: 0 <= i < |s| ==> '0' <= s[i] <= '9'
  {
    if s == [] then 0 else 10 * DigitsValue(s[..|s| - 1]) + (s[|s| - 1] as int - '0' as int)
  }

  /** The rendering has exactly DigitCount(n) characters. */
  lemma {:induction false} LengthIsDigitCount(n: nat)
    ensures |NatToString(n)| == DigitCount(n)
  {
    if n >= 10 {
      LengthIsDigitCount(n / 10);
    }
  }

  /** When `digits[..i]` renders `q`, its last character is the last digit of `q`
      and, when there is more than one, the characters before it render `q / 10`. */
  lemma LastDigit(q: nat, digits: string, i: nat)
    requires 0 < i <= |digits| && NatToString(q) == digits[..i]
    ensures digits[i - 1] == DigitChar(q % 10)
    ensures i > 1 ==> NatToString(q / 10) == digits[..i - 1]
  {
    var s := NatToString(q);
    assert digits[i - 1] == s[i - 1];
    if q >= 10 {
      assert s == NatToString(q / 10) + [DigitChar(q % 10)];
      assert s[..i - 1] == NatToString(q / 10);
    }
  }

  /** Reading the rendering back gives the number: the rendering is lossless. */
  lemma {:induction false} NatToStringRoundTrip(n: nat)
    ensures DigitsValue(NatToString(n)) == n
  {
    if n >= 10 {
      var s := NatToString(n);
      assert s[..|s| - 1] == NatToString(n / 10);
      NatToStringRoundTrip(n / 10);
    }
  }

  /** Only zero starts with the digit '0'. */
  lemma {:induction false} NoLeadingZero(n: nat)
    ensures NatToString(n)[0] == '0' <==> n == 0
  {
    if n >= 10 {
      NoLeadingZero(n / 10);
    }
  }

  /** Distinct numbers are rendered differently. */
  lemma NatToStringInjective(m: nat, n: nat)
    requires NatToString(m) == NatToString(n)
    ensures m == n
  {
    NatToStringRoundTrip(m);
    NatToStringRoundTrip(n);
  }
}
