/**
 * The two JavaScript built-ins on strings that the REST adapter relies on:
 * `String.prototype.lastIndexOf` for one character, and the conversion of a
 * non-negative integer Number to its decimal text (what `"..." + n` does).
 */
module JsText {

  /** `s.lastIndexOf(c)`: the index of the last occurrence of `c`, or -1. */
  function LastIndexOf(s: string, c: char): (r: int)
    ensures -1 <= r < |s|
    ensures r >= 0 ==> s[r] == c
    ensures forall j :: r < j < |s| ==> s[j] != c
  {
    if s == [] then -1
    else if s[|s| - 1] == c then |s| - 1
    else LastIndexOf(s[..|s| - 1], c)
  }

  predicate IsDigit(c: char) {
    '0' <= c <= '9'
  }

  predicate AllDigits(s: string) {
    forall i :: 0 <= i < |s| ==> IsDigit(s[i])
  }

  function DigitChar(d: nat): (c: char)
    requires d < 10
  {
    (48 + d) as char
  }

  function DigitValue(c: char): nat
    requires IsDigit(c)
  {
    (c as int) - 48
  }

  /** The decimal text of a non-negative integer: at least one digit, only
      digits, no leading zero.  JavaScript prints integers below 10^21 this
      way (larger ones in exponent form); HTTP statuses have three digits. */
  function NumberToString(n: nat): (r: string)
    ensures |r| >= 1 && AllDigits(r)
    ensures r[0] == '0' ==> n == 0
    decreases n
  {
    if n < 10 then [DigitChar(n)] else NumberToString(n / 10) + [DigitChar(n % 10)]
  }

  /** The value of a string of decimal digits, most significant first. */
  function DigitsValue(s: string): nat
    requires AllDigits(s)
  {
    if s == [] then 0 else DigitsValue(s[..|s| - 1]) * 10 + DigitValue(s[|s| - 1])
  }

  /** Reading back the decimal text gives the number. */
  lemma {:induction false} NumberToStringRoundTrip(n: nat)
    ensures DigitsValue(NumberToString(n)) == n
    decreases n
  {
    if n >= 10 {
      var r := NumberToString(n);
      assert r[..|r| - 1] == NumberToString(n / 10);
      NumberToStringRoundTrip(n / 10);
    }
  }

  /** Two numbers with the same decimal text are equal. */
  lemma NumberToStringInjective(m: nat, n: nat)
    requires NumberToString(m) == NumberToString(n)
    ensures m == n
  {
    NumberToStringRoundTrip(m);
    NumberToStringRoundTrip(n);
  }
}
