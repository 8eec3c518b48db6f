/** Decimal rendering of non-negative integers, as JavaScript's `String(n)` and template
    literals write a safe integer such as `Date.now()`, and reading the digits back. */
module Decimal {

  predicate IsDigit(ch: char) {
    '0' <= ch <= '9'
  }

  predicate AllDigits(s: string) {
    forall i | 0 <= i < |s| :: IsDigit(s[i])
  }

  function DigitChar(d: nat): (ch: char)
    requires d < 10
    ensures IsDigit(ch) && DigitValue(ch) == d
  {
    (48 + d) as char
  }

  function DigitValue(ch: char): nat
    requires IsDigit(ch)
  {
    ch as nat - 48
  }

  /** The decimal digits of `n`, most significant first, without leading zeros. */
  function Show(n: nat): (s: string)
    ensures |s| >= 1 && AllDigits(s)
    ensures s[0] == '0' <==> n == 0
    decreases n
  {
    if n < 10 then [DigitChar(n)] else Show(n / 10) + [DigitChar(n % 10)]
  }

  /** The number a string of decimal digits denotes. */
  function ValueOf(s: string): nat
    requires AllDigits(s)
    decreases |s|
  {
    if s == [] then 0 else 10 * ValueOf(s[..|s| - 1]) + DigitValue(s[|s| - 1])
  }

  /** Reading back the digits `Show` writes gives the number. */
  lemma {:induction false} ValueOfShow(n: nat)
    ensures ValueOf(Show(n)) == n
    decreases n
  {
    if n >= 10 {
      var s := Show(n);
      assert s[..|s| - 1] == Show(n / 10);
      ValueOfShow(n / 10);
    }
  }

  /** Different numbers are written differently. */
  lemma ShowInjective(m: nat, n: nat)
    ensures Show(m) == Show(n) <==> m == n
  {
    ValueOfShow(m);
    ValueOfShow(n);
  }

  /** A number from 1000 to 9999 is written with exactly four digits. */
  lemma ShowFourDigits(n: nat)
    requires 1000 <= n <= 9999
    ensures |Show(n)| == 4
  {
    assert Show(n / 1000) == [DigitChar(n / 1000)];
    assert Show(n / 100) == Show(n / 100 / 10) + [DigitChar(n / 100 % 10)];
    assert n / 100 / 10 == n / 1000;
    assert Show(n / 10) == Show(n / 10 / 10) + [DigitChar(n / 10 % 10)];
    assert n / 10 / 10 == n / 100;
  }

  /** A digit string contains no other character, in particular no separator. */
  lemma DigitsExclude(s: string, sep: char)
    requires AllDigits(s) && !IsDigit(sep)
    ensures sep !in s
  {
  }
}
