/**
 * Decimal text of numbers: the digits that Python's `int()` reads and that
 * f-strings write, restricted to ASCII digits.
 */
module Decimal {

  predicate IsDigit(c: char) {
    '0' <= c <= '9'
  }

  predicate AllDigits(s: string) {
    forall i :: 0 <= i < |s| ==> IsDigit(s[i])
  }

  function DigitValue(c: char): nat
    requires IsDigit(c)
  {
    c as int - '0' as int
  }

  function DigitChar(d: nat): (c: char)
    requires d < 10
    ensures IsDigit(c) && DigitValue(c) == d
  {
    ('0' as int + d) as char
  }

  /** The value of a string of decimal digits, most significant first. */
  function Value(s: string): nat
    requires AllDigits(s)
    decreases |s|
  {
    if s == [] then 0 else Value(s[..|s| - 1]) * 10 + DigitValue(s[|s| - 1])
  }

  /** The shortest decimal text of `n`: no sign, no leading zero. */
  function NatText(n: nat): (s: string)
    ensures |s| >= 1 && AllDigits(s)
    ensures (s[0] == '0') == (n == 0)
    ensures n < 10 <==> |s| == 1
    decreases n
  {
    if n < 10 then [DigitChar(n)] else NatText(n / 10) + [DigitChar(n % 10)]
  }

  /** Decimal text of an integer as Python's `str(int)` writes it. */
  function IntText(n: int): string {
    if n < 0 then "-" + NatText(-n) else NatText(n)
  }

  /** A string of digits is canonical when it has no superfluous leading zero. */
  predicate Canonical(s: string) {
    s != [] && AllDigits(s) && (s == "0" || s[0] != '0')
  }

  lemma {:induction false} ValueOfNatText(n: nat)
    ensures Value(NatText(n)) == n
    decreases n
  {
    if n >= 10 {
      ValueOfNatText(n / 10);
      var s := NatText(n);
      assert s[..|s| - 1] == NatText(n / 10);
    }
  }

  lemma {:induction false} ValueAtLeastLeadingDigit(s: string)
    requires s != [] && AllDigits(s)
    ensures Value(s) >= DigitValue(s[0])
    decreases |s|
  {
    if |s| > 1 {
      ValueAtLeastLeadingDigit(s[..|s| - 1]);
    }
  }

  /** Reading canonical digits and writing them back gives the same text. */
  lemma {:induction false} NatTextOfValue(s: string)
    requires Canonical(s)
    ensures NatText(Value(s)) == s
    decreases |s|
  {
    if |s| > 1 {
      var p := s[..|s| - 1];
      assert p[0] == s[0];
      ValueAtLeastLeadingDigit(p);
      NatTextOfValue(p);
      assert Value(s) / 10 == Value(p);
      assert Value(s) % 10 == DigitValue(s[|s| - 1]);
      assert s == p + [s[|s| - 1]];
    }
  }

  lemma {:induction false} NatTextLength(n: nat)
    requires n < 1000
    ensures |NatText(n)| <= 3
  {
    if n >= 10 {
      if n / 10 >= 10 {
        assert n / 100 < 10;
        assert |NatText(n / 10)| == 2;
      }
    }
  }
}
