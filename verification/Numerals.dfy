/** Natural numbers in decimal. */
module Numerals {
  predicate IsDigit(c: char) { '0' <= c <= '9' }

  /** The digits beyond '0' to '9' that a scanner takes, with their values: Python's `\d` and `int` know all
      decimal digits of Unicode, a JavaScript pattern knows none of them. */
  type Wide = w: map<char, nat> | IsWide(w) witness map[]

  predicate IsWide(w: map<char, nat>) {
    forall c <- w :: w[c] < 10 && !IsDigit(c) && c != '[' && c != ']'
  }

  const ASCII_ONLY: Wide := map[]

  predicate IsDigitFor(c: char, wide: Wide) {
    IsDigit(c) || c in wide
  }

  function DigitValue(c: char, wide: Wide): nat
    requires IsDigitFor(c, wide)
  {
    if IsDigit(c) then c as int - '0' as int else wide[c]
  }

  predicate IsNumber(s: string, wide: Wide := ASCII_ONLY) {
    s != "" && forall i | 0 <= i < |s| :: IsDigitFor(s[i], wide)
  }

  function ToNat(s: string, wide: Wide := ASCII_ONLY): nat
    requires s == "" || IsNumber(s, wide)
  {
    if s == "" then 0 else 10 * ToNat(s[..|s| - 1], wide) + DigitValue(s[|s| - 1], wide)
  }

  function Digit(n: nat): char
    requires n < 10
  {
    ('0' as int + n) as char
  }

  function Digits(n: nat): string {
    if n < 10 then [Digit(n)] else Digits(n / 10) + [Digit(n % 10)]
  }

  /** Printing and reading a number gives it back; no two numbers are printed alike. */
  lemma {:induction false} DigitsRoundTrip(n: nat)
    ensures IsNumber(Digits(n)) && ToNat(Digits(n)) == n
  {
    if n < 10 {
      assert Digits(n)[..0] == "";
    } else {
      DigitsRoundTrip(n / 10);
      assert Digits(n)[..|Digits(n)| - 1] == Digits(n / 10);
    }
  }
}
