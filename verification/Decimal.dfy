/** Decimal printing of integers, as PHP's `(string) $n` does it: read back, it gives the number. */
module Decimal {

  const DIGITS := "0123456789"

  function Digit(d: nat): char
    requires d < 10
  {
    DIGITS[d]
  }

  function OfNat(n: nat): (s: string)
    ensures s != [] && s[0] in DIGITS
    decreases n
  {
    if n < 10 then [Digit(n)] else OfNat(n / 10) + [Digit(n % 10)]
  }

  function OfInt(n: int): string {
    if n < 0 then "-" + OfNat(-n) else OfNat(n)
  }

  // A text of digits read from the left.
  function ValueOf(s: string): int {
    if s == [] then 0 else 10 * ValueOf(s[..|s| - 1]) + (s[|s| - 1] as int - '0' as int)
  }

  ghost predicate IsNumeral(s: string) {
    && s != [] && (|s| > 1 ==> s[0] != '0')
    && forall i :: 0 <= i < |s| ==> '0' <= s[i] <= '9'
  }

  // The printed digits, without a leading zero, read back as the number.
  lemma {:induction false} OfNatReadsBack(n: nat)
    ensures IsNumeral(OfNat(n)) && ValueOf(OfNat(n)) == n && (n > 0 ==> OfNat(n)[0] != '0')
    decreases n
  {
    if n < 10 {
      DigitReadsBack(n);
      assert ValueOf([Digit(n)]) == ValueOf([]) + n;
    } else {
      OfNatReadsBack(n / 10);
      DigitReadsBack(n % 10);
      var front, s := OfNat(n / 10), OfNat(n);
      assert s == front + [Digit(n % 10)];
      assert s[..|s| - 1] == front;
      hide OfNat, Digit;
    }
  }

  lemma DigitReadsBack(d: nat)
    requires d < 10
    ensures '0' <= Digit(d) <= '9' && Digit(d) as int - '0' as int == d
  {
  }

  lemma OfIntReadsBack(n: int)
    ensures n >= 0 ==> IsNumeral(OfInt(n)) && ValueOf(OfInt(n)) == n
    ensures n < 0 ==> OfInt(n)[0] == '-' && IsNumeral(OfInt(n)[1..]) && -ValueOf(OfInt(n)[1..]) == n
  {
    hide OfNat, ValueOf, IsNumeral;
    OfNatReadsBack(if n < 0 then -n else n);
    assert n < 0 ==> OfInt(n)[1..] == OfNat(-n);
  }

  lemma DigitInjective(a: nat, b: nat)
    requires a < 10 && b < 10 && Digit(a) == Digit(b)
    ensures a == b
  {
  }

  lemma {:induction false} OfNatInjective(a: nat, b: nat)
    requires OfNat(a) == OfNat(b)
    ensures a == b
    decreases a
  {
    var s := OfNat(a);
    assert s[|s| - 1] == Digit(a % 10) && s[|s| - 1] == Digit(b % 10);
    DigitInjective(a % 10, b % 10);
    assert |s| == 1 <==> a < 10;
    assert |s| == 1 <==> b < 10;
    if a >= 10 {
      assert s[..|s| - 1] == OfNat(a / 10) == OfNat(b / 10);
      OfNatInjective(a / 10, b / 10);
    }
  }

  lemma OfIntInjective(a: int, b: int)
    requires OfInt(a) == OfInt(b)
    ensures a == b
  {
    FirstIsDigit(a);
    FirstIsDigit(b);
    hide OfNat;
    if a < 0 {
      assert OfInt(a)[1..] == OfNat(-a) && OfInt(b)[1..] == OfNat(-b);
      OfNatInjective(-a, -b);
    } else {
      OfNatInjective(a, b);
    }
  }

  lemma FirstIsDigit(n: int)
    ensures OfInt(n)[0] == '-' <==> n < 0
  {
  }
}
