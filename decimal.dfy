/**
 * Decimal rendering of non-negative integers: `str(i)` for column ids and the
 * zero-padded fields `%02d` / `%04d` of date and time formatting.
 */
module Decimal {

  predicate IsDigit(c: char) { '0' <= c <= '9' }

  predicate AllDigits(s: string) { forall i :: 0 <= i < |s| ==> IsDigit(s[i]) }

  function DigitChar(d: nat): (c: char)
    requires d < 10
    ensures IsDigit(c) && c as int - '0' as int == d
  {
    ('0' as int + d) as char
  }

  function DigitValue(c: char): nat
    requires IsDigit(c)
  {
    c as int - '0' as int
  }

  /** The number a string of decimal digits denotes. */
  function Value(s: string): nat
    requires AllDigits(s)
  {
    if s == [] then 0 else Value(s[..|s| - 1]) * 10 + DigitValue(s[|s| - 1])
  }

  /** Python's `str(n)` for n >= 0: shortest decimal form, no leading zero. */
  function NatToString(n: nat): (s: string)
    ensures |s| >= 1 && AllDigits(s)
    decreases n
  {
    if n < 10 then [DigitChar(n)] else NatToString(n / 10) + [DigitChar(n % 10)]
  }

  predicate Canonical(s: string)
  {
    |s| >= 1 && AllDigits(s) && (|s| == 1 || s[0] != '0')
  }

  /** `str(n)` reads back as n and has no leading zero. */
  lemma {:induction false} NatToStringRoundTrip(n: nat)
    ensures Canonical(NatToString(n))
    ensures Value(NatToString(n)) == n
    decreases n
  {
    if n >= 10 {
      NatToStringRoundTrip(n / 10);
      var s := NatToString(n);
      assert s[..|s| - 1] == NatToString(n / 10);
    }
  }

  /** Distinct numbers have distinct decimal forms. */
  lemma NatToStringInjective(a: nat, b: nat)
    requires NatToString(a) == NatToString(b)
    ensures a == b
  {
    NatToStringRoundTrip(a);
    NatToStringRoundTrip(b);
  }

  /** Appending a digit multiplies by ten and adds it. */
  lemma ValueSnoc(s: string, c: char)
    requires AllDigits(s) && IsDigit(c)
    ensures AllDigits(s + [c]) && Value(s + [c]) == Value(s) * 10 + DigitValue(c)
  {
    assert (s + [c])[..|s|] == s;
  }

  /** `%02d` for 0 <= n < 100. */
  function Pad2(n: nat): (s: string)
    requires n < 100
    ensures |s| == 2 && AllDigits(s)
  {
    [DigitChar(n / 10), DigitChar(n % 10)]
  }

  /** `%04d` for 0 <= n < 10000. */
  function Pad4(n: nat): (s: string)
    requires n < 10000
    ensures |s| == 4 && AllDigits(s)
  {
    [DigitChar(n / 1000), DigitChar(n / 100 % 10), DigitChar(n / 10 % 10), DigitChar(n % 10)]
  }

  /** The two padded digits read back as n. */
  lemma Pad2Value(n: nat)
    requires n < 100
    ensures Value(Pad2(n)) == n
  {
    var a, b := DigitChar(n / 10), DigitChar(n % 10);
    ValueSnoc([], a);
    ValueSnoc([a], b);
    assert [] + [a] == [a];
    assert [a] + [b] == Pad2(n);
  }

  /** Dropping the last digit of n / p leaves n / (10 p), for p = 10 or 100. */
  lemma DropDigit(n: nat, p: nat)
    requires p == 10 || p == 100
    ensures n / (10 * p) * 10 + n / p % 10 == n / p
  {
    var m := n / p;
    assert n == p * m + n % p;
    assert n == (10 * p) * (m / 10) + (p * (m % 10) + n % p);
    assert 0 <= p * (m % 10) + n % p < 10 * p;
    assert n / (10 * p) == m / 10;
  }

  /** The four padded digits read back as n. */
  lemma Pad4Value(n: nat)
    requires n < 10000
    ensures Value(Pad4(n)) == n
  {
    var a, b, c, d := DigitChar(n / 1000), DigitChar(n / 100 % 10), DigitChar(n / 10 % 10), DigitChar(n % 10);
    ValueSnoc([], a);
    assert [] + [a] == [a];
    ValueSnoc([a], b);
    assert [a] + [b] == [a, b];
    DropDigit(n, 100);
    assert Value([a, b]) == n / 100;
    ValueSnoc([a, b], c);
    assert [a, b] + [c] == [a, b, c];
    DropDigit(n, 10);
    assert Value([a, b, c]) == n / 10;
    ValueSnoc([a, b, c], d);
    assert [a, b, c] + [d] == Pad4(n);
  }

  /** The digit character of a digit's value is that character. */
  lemma DigitRoundTrip(c: char)
    requires IsDigit(c)
    ensures DigitChar(DigitValue(c)) == c
  {
  }

  lemma FourDigits(a: int, b: int, c: int, d: int)
    requires 0 <= a < 10 && 0 <= b < 10 && 0 <= c < 10 && 0 <= d < 10
    ensures var n := 1000 * a + 100 * b + 10 * c + d;
      n / 1000 == a && n / 100 % 10 == b && n / 10 % 10 == c && n % 10 == d
  {
    var n := 1000 * a + 100 * b + 10 * c + d;
    assert n / 1000 == a;
    assert n / 100 == 10 * a + b;
    assert n / 10 == 100 * a + 10 * b + c;
  }

  /** Four digits are the `%04d` form of the number they denote: the padded form is unique. */
  lemma Pad4Digits(s: string)
    requires |s| == 4 && AllDigits(s)
    ensures Value(s) < 10000 && Pad4(Value(s)) == s
  {
    var a, b, c, d := DigitValue(s[0]), DigitValue(s[1]), DigitValue(s[2]), DigitValue(s[3]);
    ValueOfFour(s);
    FourDigits(a, b, c, d);
    DigitRoundTrip(s[0]);
    DigitRoundTrip(s[1]);
    DigitRoundTrip(s[2]);
    DigitRoundTrip(s[3]);
    assert s == [s[0], s[1], s[2], s[3]];
  }

  lemma ValueOfFour(s: string)
    requires |s| == 4 && AllDigits(s)
    ensures Value(s) == 1000 * DigitValue(s[0]) + 100 * DigitValue(s[1]) + 10 * DigitValue(s[2]) + DigitValue(s[3])
  {
    var a, b, c := DigitValue(s[0]), DigitValue(s[1]), DigitValue(s[2]);
    assert s[..1][..0] == [];
    assert Value(s[..1]) == a;
    assert s[..2][..1] == s[..1];
    assert Value(s[..2]) == 10 * a + b;
    assert s[..3][..2] == s[..2];
    assert Value(s[..3]) == 100 * a + 10 * b + c;
    assert s[..4] == s;
  }
}
