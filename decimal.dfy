/** Decimal digit strings and their values: what JavaScript's `Number(...)`
    does to a string made only of the digits 0-9. */
module Decimal {

  predicate IsDigit(c: char) {
    '0' <= c <= '9'
  }

  /** A non-empty string of decimal digits. */
  predicate IsDigits(s: string) {
    |s| > 0 && forall i :: 0 <= i < |s| ==> IsDigit(s[i])
  }

  /** A digit string without leading zeros ("0" itself is canonical). */
  predicate IsCanonical(s: string) {
    IsDigits(s) && (|s| == 1 || s[0] != '0')
  }

  function DigitValue(c: char): (d: nat)
    requires IsDigit(c)
    ensures d < 10
  {
    (c as int) - ('0' as int)
  }

  function DigitChar(d: nat): (c: char)
    requires d < 10
    ensures IsDigit(c) && DigitValue(c) == d
  {
    (('0' as int) + d) as char
  }

  function Pow10(n: nat): (p: nat)
    ensures p > 0
  {
    if n == 0 then 1 else 10 * Pow10(n - 1)
  }

  /** The number a digit string denotes; leading zeros are allowed, as in
      `Number("05") == 5`. A string of n digits denotes a number below 10^n. */
  function Value(s: string): (r: nat)
    requires forall i :: 0 <= i < |s| ==> IsDigit(s[i])
    ensures r < Pow10(|s|)
    decreases |s|
  {
    if |s| == 0 then 0
    else
      var p := Value(s[..|s| - 1]);
      assert 10 * p + 9 < 10 * Pow10(|s| - 1);
      10 * p + DigitValue(s[|s| - 1])
  }

  /** The shortest decimal spelling of n. */
  function Digits(n: nat): (s: string)
    ensures IsCanonical(s)
    decreases n
  {
    if n < 10 then [DigitChar(n)] else Digits(n / 10) + [DigitChar(n % 10)]
  }

  /** Reading back the spelling of a number gives the number. */
  lemma {:induction false} ValueOfDigits(n: nat)
    ensures Value(Digits(n)) == n
  {
    if n >= 10 {
      var s := Digits(n);
      assert s[..|s| - 1] == Digits(n / 10);
      ValueOfDigits(n / 10);
    }
  }

  /** A digit string whose first digit is not zero denotes a positive number. */
  lemma {:induction false} ValuePositive(s: string)
    requires IsDigits(s) && s[0] != '0'
    ensures Value(s) > 0
  {
    if |s| > 1 {
      var p := s[..|s| - 1];
      assert p[0] == s[0];
      ValuePositive(p);
    }
  }

  /** Spelling the value of a canonical digit string gives the string back. */
  lemma {:induction false} DigitsOfValue(s: string)
    requires IsCanonical(s)
    ensures Digits(Value(s)) == s
  {
    var c := s[|s| - 1];
    if |s| == 1 {
      assert DigitChar(DigitValue(c)) == c;
      assert [c] == s;
    } else {
      var p := s[..|s| - 1];
      assert p[0] == s[0];
      ValuePositive(p);
      DigitsOfValue(p);
      assert Value(s) / 10 == Value(p) && Value(s) % 10 == DigitValue(c);
      assert DigitChar(DigitValue(c)) == c;
      assert p + [c] == s;
    }
  }

  /** The value of a two-digit string. */
  lemma ValueOfTwoDigits(a: char, b: char)
    requires IsDigit(a) && IsDigit(b)
    ensures Value([a, b]) == 10 * DigitValue(a) + DigitValue(b)
  {
    assert [a, b][..1] == [a];
    assert [a][..0] == [];
    assert Value([a]) == DigitValue(a);
  }

  /** A number below 100 spelled with exactly two digits, as in "05". */
  function Pad2(n: nat): (s: string)
    requires n < 100
    ensures |s| == 2 && IsDigits(s)
  {
    [DigitChar(n / 10), DigitChar(n % 10)]
  }

  lemma ValueOfPad2(n: nat)
    requires n < 100
    ensures Value(Pad2(n)) == n
  {
    ValueOfTwoDigits(DigitChar(n / 10), DigitChar(n % 10));
  }

  /** Every two-digit string is the padded spelling of its value. */
  lemma Pad2OfValue(s: string)
    requires |s| == 2 && IsDigits(s)
    ensures Value(s) < 100 && Pad2(Value(s)) == s
  {
    ValueOfTwoDigits(s[0], s[1]);
    assert DigitChar(DigitValue(s[0])) == s[0];
    assert DigitChar(DigitValue(s[1])) == s[1];
    assert [s[0], s[1]] == s;
  }

}
