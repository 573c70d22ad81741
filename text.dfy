/**
 * Character counting and the decimal rendering that Python's `str.format`
 * gives to the integers and two-decimal `Decimal`s the probes print.
 */
module Text {

  /** Number of occurrences of `c` in `s`. */
  function Count(c: char, s: string): (n: nat)
    ensures n <= |s|
    ensures n == 0 <==> c !in s
  {
    if s == [] then 0 else (if s[0] == c then 1 else 0) + Count(c, s[1..])
  }

  lemma {:induction false} CountConcat(c: char, a: string, b: string)
    ensures Count(c, a + b) == Count(c, a) + Count(c, b)
  {
    if a == [] {
      assert a + b == b;
    } else {
      assert (a + b)[1..] == a[1..] + b;
      CountConcat(c, a[1..], b);
    }
  }

  predicate IsDigit(ch: char) {
    '0' <= ch <= '9'
  }

  predicate AllDigits(s: string) {
    forall i :: 0 <= i < |s| ==> IsDigit(s[i])
  }

  function DigitChar(d: nat): (ch: char)
    requires d < 10
    ensures IsDigit(ch) && ch as int - '0' as int == d
  {
    ('0' as int + d) as char
  }

  /** The numeric value of a string of decimal digits (the inverse of NatText). */
  function DigitsValue(s: string): nat
    requires AllDigits(s)
  {
    if s == [] then 0 else DigitsValue(s[..|s| - 1]) * 10 + (s[|s| - 1] as int - '0' as int)
  }

  /** Python's `str(n)` for a non-negative integer: decimal digits, no leading zero. */
  function NatText(n: nat): (s: string)
    ensures |s| >= 1 && AllDigits(s)
    ensures s[0] == '0' <==> n == 0
  {
    if n < 10 then [DigitChar(n)] else NatText(n / 10) + [DigitChar(n % 10)]
  }

  lemma {:induction false} NatTextValue(n: nat)
    ensures DigitsValue(NatText(n)) == n
  {
    if n >= 10 {
      var s := NatText(n);
      assert s[..|s| - 1] == NatText(n / 10);
      NatTextValue(n / 10);
    }
  }

  /** Python's `str(i)` for any integer: a minus sign before the digits of a negative one. */
  function IntText(i: int): (s: string)
    ensures |s| >= 1
    ensures s[0] == '-' <==> i < 0
    ensures forall k :: 0 <= k < |s| ==> IsDigit(s[k]) || (k == 0 && s[k] == '-')
  {
    if i < 0 then "-" + NatText(-i) else NatText(i)
  }

  /** The text of an integer reads back to it: the digits after a minus sign give its magnitude. */
  lemma IntTextValue(i: int)
    ensures i < 0 ==> DigitsValue(IntText(i)[1..]) == -i
    ensures i >= 0 ==> DigitsValue(IntText(i)) == i
  {
    if i < 0 {
      assert IntText(i)[1..] == NatText(-i);
      NatTextValue(-i);
    } else {
      NatTextValue(i);
    }
  }

  /**
   * `str` of a `Decimal` quantized to two places, given in hundredths:
   * the integral digits, a point, and exactly two fractional digits.
   */
  function HundredthsText(h: nat): (s: string)
  {
    NatText(h / 100) + "." + [DigitChar(h / 10 % 10), DigitChar(h % 10)]
  }

  lemma HundredthsTextValue(h: nat)
    ensures var s := HundredthsText(h);
      && |s| >= 4 && s[|s| - 3] == '.'
      && AllDigits(s[..|s| - 3]) && AllDigits(s[|s| - 2..])
      && DigitsValue(s[..|s| - 3]) * 100 + DigitsValue(s[|s| - 2..]) == h
  {
    var s := HundredthsText(h);
    var whole := NatText(h / 100);
    var frac := [DigitChar(h / 10 % 10), DigitChar(h % 10)];
    assert s == whole + "." + frac;
    assert s[..|s| - 3] == whole;
    assert s[|s| - 2..] == frac;
    NatTextValue(h / 100);
    TwoDigitsValue(h / 10 % 10, h % 10);
    HundredthsSplit(h);
  }

  lemma TwoDigitsValue(hi: nat, lo: nat)
    requires hi < 10 && lo < 10
    ensures DigitsValue([DigitChar(hi), DigitChar(lo)]) == hi * 10 + lo
  {
    var s := [DigitChar(hi), DigitChar(lo)];
    assert s[..1] == [DigitChar(hi)] && s[..1][..0] == [];
    assert DigitsValue(s[..1]) == hi;
  }

  lemma HundredthsSplit(h: nat)
    ensures (h / 100) * 100 + (h / 10 % 10) * 10 + h % 10 == h
  {
    assert h / 10 == (h / 100) * 10 + h / 10 % 10;
    assert h == (h / 10) * 10 + h % 10;
  }
}
