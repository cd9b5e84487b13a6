/** Decimal digits: writing a number, reading it back, and digits that make no difference. */
module Numerals {

  predicate IsDigit(x: char) {
    '0' <= x <= '9'
  }

  predicate AllDigits(s: string) {
    forall i | 0 <= i < |s| :: IsDigit(s[i])
  }

  function DigitValue(x: char): (v: nat)
    requires IsDigit(x)
    ensures v < 10
  {
    (x as int) - ('0' as int)
  }

  function DigitOf(n: nat): (x: char)
    requires n < 10
    ensures IsDigit(x) && DigitValue(x) == n
  {
    ('0' as int + n) as char
  }

  function DecimalValue(s: string): nat
    requires AllDigits(s)
  {
    if s == "" then 0 else DecimalValue(s[..|s| - 1]) * 10 + DigitValue(s[|s| - 1])
  }

  /** The shortest text of a number. */
  function DecimalText(n: nat): (s: string)
    ensures AllDigits(s) && s != ""
  {
    (if n < 10 then "" else DecimalText(n / 10)) + [DigitOf(n % 10)]
  }

  lemma {:induction false} DecimalRoundTrip(n: nat)
    ensures DecimalValue(DecimalText(n)) == n
  {
    ValueWithDigit(if n < 10 then "" else DecimalText(n / 10), n % 10);
    if n >= 10 {
      DecimalRoundTrip(n / 10);
    }
  }

  function Zeros(n: nat): (s: string)
    ensures |s| == n && AllDigits(s) && forall i | 0 <= i < n :: s[i] == '0'
  {
    seq(n, _ => '0')
  }

  function Pow10(n: nat): (p: nat)
    ensures p >= 1
  {
    if n == 0 then 1 else 10 * Pow10(n - 1)
  }

  /** The last `width` digits of a number. */
  function LowDigits(n: nat, width: nat): (s: string)
    ensures |s| == width && AllDigits(s)
  {
    if width == 0 then "" else LowDigits(n / 10, width - 1) + [DigitOf(n % 10)]
  }

  lemma {:induction false} LowDigitsValue(n: nat, width: nat)
    requires n < Pow10(width)
    ensures DecimalValue(LowDigits(n, width)) == n
  {
    if width > 0 {
      LowDigitsValue(n / 10, width - 1);
      ValueWithDigit(LowDigits(n / 10, width - 1), n % 10);
    }
  }

  lemma ValueWithDigit(front: string, d: nat)
    requires AllDigits(front) && d < 10
    ensures AllDigits(front + [DigitOf(d)]) && DecimalValue(front + [DigitOf(d)]) == DecimalValue(front) * 10 + d
  {
    assert (front + [DigitOf(d)])[..|front|] == front;
  }

  /** Digits side by side. */
  lemma {:induction false} ValueOfConcat(a: string, b: string)
    requires AllDigits(a) && AllDigits(b)
    ensures AllDigits(a + b) && DecimalValue(a + b) == DecimalValue(a) * Pow10(|b|) + DecimalValue(b)
  {
    if b == "" {
      assert a + b == a;
    } else {
      var front, last := b[..|b| - 1], |b| - 1;
      ValueOfConcat(a, front);
      assert (a + b)[..|a + b| - 1] == a + front;
      Tenfold(DecimalValue(a), Pow10(last));
    }
  }

  lemma Tenfold(a: nat, b: nat)
    ensures a * (10 * b) == 10 * (a * b)
  {
  }

  lemma {:induction false} LeadingZeros(n: nat, s: string)
    requires AllDigits(s)
    ensures DecimalValue(Zeros(n) + s) == DecimalValue(s)
  {
    if s != "" {
      LeadingZeros(n, s[..|s| - 1]);
      assert (Zeros(n) + s)[..n + |s| - 1] == Zeros(n) + s[..|s| - 1];
    } else if n > 0 {
      LeadingZeros(n - 1, s);
      assert (Zeros(n) + s)[..n - 1] == Zeros(n - 1) + s;
    }
  }
}
