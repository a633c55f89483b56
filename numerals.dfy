/** Decimal digit strings: what `parseInt` yields for a string of digits and what
    JavaScript prints for a non-negative integer. */
module Numerals {

  predicate IsDigit(c: char) {
    '0' <= c <= '9'
  }

  /** A non-empty string of decimal digits: the language of the regular expression `^\d+$`. */
  predicate AllDigits(s: string) {
    |s| > 0 && forall i :: 0 <= i < |s| ==> IsDigit(s[i])
  }

  function DigitValue(c: char): nat
    requires IsDigit(c)
  {
    (c as int - '0' as int) as nat
  }

  function DigitChar(d: nat): (c: char)
    requires d < 10
    ensures IsDigit(c) && DigitValue(c) == d
  {
    ('0' as int + d) as char
  }

  /** `parseInt(s)` for a string of digits, read most significant digit first. */
  function DigitsValue(s: string): nat
    requires forall i :: 0 <= i < |s| ==> IsDigit(s[i])
    decreases |s|
  {
    if |s| == 0 then 0
    else DigitsValue(s[..|s| - 1]) * 10 + DigitValue(s[|s| - 1])
  }

  /** `parseInt(s)` read from the left: `acc` followed by the leading decimal digits
      of `s`, stopping at the first non-digit. */
  function LeadingValue(s: string, acc: nat): nat
    decreases |s|
  {
    if |s| > 0 && IsDigit(s[0]) then LeadingValue(s[1..], acc * 10 + DigitValue(s[0])) else acc
  }

  /** The decimal text of a non-negative integer, as `String(n)` prints it. */
  function ShowNat(n: nat): (s: string)
    decreases n
  {
    if n < 10 then [DigitChar(n)] else ShowNat(n / 10) + [DigitChar(n % 10)]
  }

  /** The decimal text of an integer, with a leading minus sign when negative. */
  function ShowInt(n: int): string {
    if n < 0 then "-" + ShowNat(-n) else ShowNat(n)
  }

  /** `parseInt` undoes `String`: printing a number and parsing it back gives the number. */
  lemma {:induction false} ShowNatRoundTrip(n: nat)
    ensures AllDigits(ShowNat(n))
    ensures DigitsValue(ShowNat(n)) == n
    decreases n
  {
    if n >= 10 {
      ShowNatRoundTrip(n / 10);
      var s := ShowNat(n);
      assert s[..|s| - 1] == ShowNat(n / 10);
    }
  }
}
