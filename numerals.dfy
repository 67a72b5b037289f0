/** Decimal numerals: the digit strings of natural numbers, and their values. */
module Numerals {

  predicate IsDigit(c: char) {
    '0' <= c <= '9'
  }

  predicate AllDigits(s: string) {
    forall i :: 0 <= i < |s| ==> IsDigit(s[i])
  }

  function DigitValue(c: char): (d: nat)
    requires IsDigit(c)
    ensures d < 10
  {
    c as int - '0' as int
  }

  function DigitChar(d: nat): (c: char)
    requires d < 10
    ensures IsDigit(c) && DigitValue(c) == d
  {
    ('0' as int + d) as char
  }

  function Pow10(k: nat): (p: nat)
    ensures p >= 1
  {
    if k == 0 then 1 else 10 * Pow10(k - 1)
  }

  /** The decimal numeral of `n`, without leading zeros. */
  function Numeral(n: nat): (s: string)
    ensures s != [] && AllDigits(s)
  {
    if n < 10 then [DigitChar(n)] else Numeral(n / 10) + [DigitChar(n % 10)]
  }

  /** The value of a string of decimal digits, read most significant digit first. */
  function ValueOf(s: string): nat
    requires AllDigits(s)
  {
    if s == [] then 0 else 10 * ValueOf(s[..|s| - 1]) + DigitValue(s[|s| - 1])
  }

  lemma {:induction false} Pow10Monotone(j: nat, k: nat)
    requires j <= k
    ensures Pow10(j) <= Pow10(k)
  {
    if j < k {
      Pow10Monotone(j, k - 1);
    }
  }

  /** Reading a numeral gives back its number, and a non-zero number has no leading zero. */
  lemma {:induction false} ValueOfNumeral(n: nat)
    ensures ValueOf(Numeral(n)) == n
    ensures n > 0 ==> Numeral(n)[0] != '0'
  {
    if n >= 10 {
      var s := Numeral(n);
      ValueOfNumeral(n / 10);
      assert s[..|s| - 1] == Numeral(n / 10);
    }
  }

  /** A numeral whose leading digit is `a` lies between a * 10^(len-1) and (a + 1) * 10^(len-1). */
  lemma {:induction false} ValueBounds(s: string)
    requires s != [] && AllDigits(s)
    ensures DigitValue(s[0]) * Pow10(|s| - 1) <= ValueOf(s) < (DigitValue(s[0]) + 1) * Pow10(|s| - 1)
  {
    if |s| > 1 {
      var p := s[..|s| - 1];
      ValueBounds(p);
      assert p[0] == s[0];
      ShiftBounds(DigitValue(s[0]), Pow10(|p| - 1), ValueOf(p), DigitValue(s[|s| - 1]));
    }
  }

  /** Appending a digit to v scales the bounds of v by ten. */
  lemma ShiftBounds(a: nat, p: nat, v: nat, d: nat)
    requires a * p <= v < (a + 1) * p && d < 10
    ensures a * (10 * p) <= 10 * v + d < (a + 1) * (10 * p)
  {
    var x := a * p;
    assert (a + 1) * p == x + p;
    assert a * (10 * p) == 10 * x;
    assert (a + 1) * (10 * p) == 10 * x + 10 * p;
  }

  /** A digit string without a leading zero is the numeral of its own value. */
  lemma {:induction false} NumeralOfValue(s: string)
    requires s != [] && AllDigits(s) && s[0] != '0'
    ensures Numeral(ValueOf(s)) == s
  {
    var d := DigitValue(s[|s| - 1]);
    if |s| == 1 {
      assert DigitChar(d) == s[0];
    } else {
      var p := s[..|s| - 1];
      assert p[0] == s[0];
      ValueBounds(p);
      NumeralOfValue(p);
      var v := ValueOf(s);
      assert v == 10 * ValueOf(p) + d;
      assert v / 10 == ValueOf(p) && v % 10 == d;
      assert DigitChar(d) == s[|s| - 1];
      assert s == p + [s[|s| - 1]];
    }
  }

  /** The numerals of length exactly k + 1 are those of the numbers in [10^k, 10^(k+1)). */
  lemma NumeralLength(n: nat, k: nat)
    requires Pow10(k) <= n < Pow10(k + 1)
    ensures |Numeral(n)| == k + 1
  {
    var s := Numeral(n);
    ValueOfNumeral(n);
    ValueBounds(s);
    var a, m := DigitValue(s[0]), |s| - 1;
    assert a >= 1;
    LeadingDigitBounds(a, Pow10(m), n);
    if m > k {
      Pow10Monotone(k + 1, m);
    }
    if m < k {
      Pow10Monotone(m + 1, k);
    }
  }

  lemma LeadingDigitBounds(a: nat, p: nat, n: nat)
    requires 1 <= a < 10 && a * p <= n < (a + 1) * p
    ensures p <= n < 10 * p
  {
    assert p <= a * p;
    assert (a + 1) * p <= 10 * p;
  }
}
