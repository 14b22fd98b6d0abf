/**
 * Decimal rendering of integers, as Python's f-strings write them
 * (`f"{n}"`), and the inverse reading of a run of digits.
 */
module Decimal {

  predicate IsDigit(c: char) {
    '0' <= c <= '9'
  }

  predicate AllDigits(s: string) {
    forall i :: 0 <= i < |s| ==> IsDigit(s[i])
  }

  function DigitChar(d: nat): (c: char)
    requires d < 10
    ensures IsDigit(c) && c as int - '0' as int == d
  {
    ('0' as int + d) as char
  }

  /** `str(n)` for a non-negative integer: no sign, no leading zeros. */
  function DigitsOf(n: nat): (s: string)
    ensures |s| >= 1 && AllDigits(s)
    ensures n < 10 <==> |s| == 1
    ensures s[0] == '0' ==> n == 0
    decreases n
  {
    if n < 10 then [DigitChar(n)] else DigitsOf(n / 10) + [DigitChar(n % 10)]
  }

  /** `str(i)` for any integer. */
  function IntToString(i: int): (s: string)
    ensures |s| >= 1
    ensures i >= 0 ==> s == DigitsOf(i)
    ensures i < 0 ==> s[0] == '-' && s[1..] == DigitsOf(-i)
  {
    if i < 0 then "-" + DigitsOf(-i) else DigitsOf(i)
  }

  /** The number a run of decimal digits denotes. */
  function ValueOf(s: string): nat
    requires AllDigits(s)
  {
    if s == [] then 0 else ValueOf(s[..|s| - 1]) * 10 + (s[|s| - 1] as int - '0' as int)
  }

  /** Reading back what `DigitsOf` wrote gives the number again. */
  lemma {:induction false} ValueOfDigitsOf(n: nat)
    ensures ValueOf(DigitsOf(n)) == n
    decreases n
  {
    if n >= 10 {
      var s := DigitsOf(n);
      assert s[..|s| - 1] == DigitsOf(n / 10);
      ValueOfDigitsOf(n / 10);
    }
  }

  /** The longest run of digits at the end of `s`. */
  function TrailingDigits(s: string): (t: string)
    ensures AllDigits(t) && |t| <= |s| && t == s[|s| - |t|..]
    ensures |t| < |s| ==> !IsDigit(s[|s| - |t| - 1])
  {
    if |s| > 0 && IsDigit(s[|s| - 1]) then TrailingDigits(s[..|s| - 1]) + [s[|s| - 1]] else []
  }

  /** A non-digit marker cuts the trailing run: whatever stands before it is not read. */
  lemma {:induction false} TrailingDigitsAfter(p: string, marker: char, d: string)
    requires !IsDigit(marker) && AllDigits(d)
    ensures TrailingDigits(p + [marker] + d) == d
    decreases |d|
  {
    var s := p + [marker] + d;
    if d == [] {
      assert s[|s| - 1] == marker;
    } else {
      assert s[..|s| - 1] == p + [marker] + d[..|d| - 1];
      TrailingDigitsAfter(p, marker, d[..|d| - 1]);
      assert d == d[..|d| - 1] + [d[|d| - 1]];
    }
  }
}
