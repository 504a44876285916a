/**
 * Decimal text of integers, as JavaScript writes a number when it becomes a
 * property key, and the reverse reading JavaScript applies to decide whether a
 * property key is an array index.
 */
module Decimal {

  import opened Wrappers

  predicate IsDigit(c: char) { '0' <= c <= '9' }

  predicate IsDigits(s: string) { forall i :: 0 <= i < |s| ==> IsDigit(s[i]) }

  function DigitChar(d: nat): (c: char)
    requires d < 10
    ensures IsDigit(c) && c as int - '0' as int == d
  {
    "0123456789"[d]
  }

  /** Shortest decimal text of `n`: digits only, no leading zero. */
  function NatToDecimal(n: nat): (s: string)
    ensures |s| > 0 && IsDigits(s)
    ensures |s| > 1 ==> s[0] != '0'
    decreases n
  {
    if n < 10 then [DigitChar(n)] else NatToDecimal(n / 10) + [DigitChar(n % 10)]
  }

  /** Decimal text of an integer, with a leading '-' when it is negative. */
  function IntToDecimal(i: int): string
  {
    if i < 0 then "-" + NatToDecimal(-i) else NatToDecimal(i)
  }

  /** The number a string of digits denotes. */
  function DecimalValue(s: string): nat
    requires IsDigits(s)
  {
    if s == [] then 0
    else DecimalValue(s[..|s| - 1]) * 10 + (s[|s| - 1] as int - '0' as int)
  }

  /**
   * A property key is an array index when it is the canonical decimal text of
   * a number below 2^32 - 1 (no sign, no leading zero unless it is "0").
   */
  function ArrayIndex(key: string): (r: Option<nat>)
    ensures r.Some? ==> r.value < 0xFFFF_FFFF
  {
    if |key| > 0 && IsDigits(key) && (|key| == 1 || key[0] != '0') && DecimalValue(key) < 0xFFFF_FFFF
    then Some(DecimalValue(key))
    else None
  }

  /** Reading back the decimal text of `n` gives `n`. */
  lemma {:induction false} DecimalRoundTrip(n: nat)
    ensures DecimalValue(NatToDecimal(n)) == n
  {
    if n >= 10 {
      DecimalRoundTrip(n / 10);
      var s := NatToDecimal(n / 10);
      var t := s + [DigitChar(n % 10)];
      assert t[..|t| - 1] == s;
    }
  }

  /** The decimal text of every index below 2^32 - 1 is read as that index. */
  lemma ArrayIndexOfDecimal(n: nat)
    requires n < 0xFFFF_FFFF
    ensures ArrayIndex(NatToDecimal(n)) == Some(n)
  {
    DecimalRoundTrip(n);
  }
}
