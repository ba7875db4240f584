/**
 * Positional notation: powers, the decimal digits of a natural number
 * (most significant first) and their value, and the decimal string Rust's
 * `format!("{}", n)` prints for an unsigned integer.
 */
module Positional {

  type Digit = x: int | 0 <= x < 10

  function Pow(base: nat, k: nat): (p: nat)
    ensures base > 0 ==> p > 0
  {
    if k == 0 then 1 else base * Pow(base, k - 1)
  }

  /** The absolute value of an integer. */
  function Magnitude(v: int): (m: nat)
    ensures m == v || m == -v
    ensures m == v <==> v >= 0
  {
    if v < 0 then -v else v
  }

  /**
   * The decimal digits of `v`, most significant first; 0 has none. The
   * leading digit of a positive value is never 0.
   */
  function DecimalDigits(v: nat): (ds: seq<Digit>)
    ensures v > 0 <==> |ds| > 0
    ensures v > 0 ==> ds[0] != 0
    ensures v > 0 ==> ds[|ds| - 1] == v % 10
  {
    if v == 0 then [] else DecimalDigits(v / 10) + [v % 10]
  }

  /** The value a digit sequence denotes, most significant first. */
  function ValueOf(ds: seq<Digit>): nat {
    if ds == [] then 0 else ValueOf(ds[..|ds| - 1]) * 10 + ds[|ds| - 1]
  }

  /** Decomposing and re-evaluating gives the value back. */
  lemma {:induction false} ValueOfDecimalDigits(v: nat)
    ensures ValueOf(DecimalDigits(v)) == v
  {
    if v > 0 {
      var ds := DecimalDigits(v);
      assert ds[..|ds| - 1] == DecimalDigits(v / 10);
      ValueOfDecimalDigits(v / 10);
    }
  }

  /** A digit sequence without a leading zero is the decomposition of its value. */
  lemma {:induction false} DecimalDigitsOfValue(ds: seq<Digit>)
    requires ds != [] ==> ds[0] != 0
    ensures DecimalDigits(ValueOf(ds)) == ds
  {
    if ds != [] {
      var init := ds[..|ds| - 1];
      DecimalDigitsOfValue(init);
      if init == [] {
        assert ValueOf(ds) == ds[0];
      } else {
        LeadingDigitMakesPositive(init);
      }
    }
  }

  lemma {:induction false} LeadingDigitMakesPositive(ds: seq<Digit>)
    requires ds != [] && ds[0] != 0
    ensures ValueOf(ds) > 0
  {
    if |ds| > 1 {
      LeadingDigitMakesPositive(ds[..|ds| - 1]);
    }
  }

  /** `v` has exactly n digits when 10^(n-1) <= v < 10^n. */
  lemma {:induction false} DigitCountBounds(v: nat)
    requires v > 0
    ensures Pow(10, |DecimalDigits(v)| - 1) <= v < Pow(10, |DecimalDigits(v)|)
  {
    if v >= 10 {
      DigitCountBounds(v / 10);
    }
  }

  /** A value below 10^n has at most n digits. */
  lemma DigitCountAtMost(v: nat, n: nat)
    requires v < Pow(10, n)
    ensures |DecimalDigits(v)| <= n
  {
    if v > 0 {
      DigitCountBounds(v);
      var m := |DecimalDigits(v)|;
      if m > n {
        PowMonotone(10, n, m - 1);
      }
    }
  }

  lemma {:induction false} PowMonotone(base: nat, i: nat, j: nat)
    requires base > 0 && i <= j
    ensures Pow(base, i) <= Pow(base, j)
  {
    if i < j {
      PowMonotone(base, i, j - 1);
    }
  }

  lemma MulNonNegative(x: int, y: int)
    requires x >= 0 && y >= 0
    ensures x * y >= 0
  {
  }

  lemma MulAtLeast(x: int, d: int)
    requires x >= 1 && d >= 0
    ensures x * d >= d
  {
    MulNonNegative(x - 1, d);
  }

  /** A multiple of d strictly between -d and d is zero. */
  lemma MultipleInsideUnitIsZero(t: int, d: int)
    requires d > 0 && -d < t * d < d
    ensures t == 0
  {
    if t >= 1 {
      MulAtLeast(t, d);
    } else if t <= -1 {
      MulAtLeast(-t, d);
    }
  }

  /** Division is unique: a quotient/remainder pair fixes v / d. */
  lemma DivUnique(v: nat, d: nat, q: nat, r: nat)
    requires d > 0 && r < d && v == q * d + r
    ensures v / d == q && v % d == r
  {
    var q', r' := v / d, v % d;
    assert (q' - q) * d == r - r' by {
      assert q' * d + r' == q * d + r;
      assert (q' - q) * d == q' * d - q * d;
    }
    MultipleInsideUnitIsZero(q' - q, d);
  }

  lemma DivDiv(v: nat, a: nat, b: nat)
    requires a > 0 && b > 0
    ensures v / a / b == v / (a * b)
  {
    var q, r := v / a, v % a;
    var q2, r2 := q / b, q % b;
    assert v == q * a + r;
    assert q == q2 * b + r2;
    assert q * a == (q2 * b + r2) * a;
    Regroup(q2, b, r2, a);
    assert v == q2 * (a * b) + (r2 * a + r);
    RemainderBelowProduct(r2, b, a, r);
    DivUnique(v, a * b, q2, r2 * a + r);
  }

  lemma Regroup(q: nat, b: nat, r: nat, a: nat)
    ensures (q * b + r) * a == q * (a * b) + r * a
  {
  }

  lemma RemainderBelowProduct(r2: nat, b: nat, a: nat, r: nat)
    requires r2 < b && r < a
    ensures r2 * a + r < a * b
  {
    MulNonNegative(b - 1 - r2, a);
    assert (b - 1 - r2) * a == a * b - a - r2 * a;
  }

  /** The k-th digit from the left is (v / 10^(n-1-k)) % 10. */
  lemma {:induction false} DecimalDigitAt(v: nat, k: nat)
    requires k < |DecimalDigits(v)|
    ensures DecimalDigits(v)[k] == (v / Pow(10, |DecimalDigits(v)| - 1 - k)) % 10
  {
    var ds := DecimalDigits(v);
    var n := |ds|;
    if k == n - 1 {
      assert Pow(10, 0) == 1;
    } else {
      var init := DecimalDigits(v / 10);
      assert ds == init + [v % 10];
      DecimalDigitAt(v / 10, k);
      assert init[k] == (v / 10 / Pow(10, n - 2 - k)) % 10;
      DivDiv(v, 10, Pow(10, n - 2 - k));
      assert 10 * Pow(10, n - 2 - k) == Pow(10, n - 1 - k);
    }
  }

  function DigitChar(d: Digit): (c: char)
    ensures '0' <= c <= '9'
  {
    "0123456789"[d]
  }

  /** What `format!("{}", n)` prints: the decimal digits, most significant first. */
  function DecimalString(n: nat): (s: string)
    ensures |s| >= 1
    ensures forall i :: 0 <= i < |s| ==> '0' <= s[i] <= '9'
    ensures s[0] == '0' <==> n == 0
  {
    if n < 10 then [DigitChar(n)] else DecimalString(n / 10) + [DigitChar(n % 10)]
  }

  /** Reading decimal digits back, most significant first. */
  function DecimalValue(s: string): nat
    requires forall i :: 0 <= i < |s| ==> '0' <= s[i] <= '9'
  {
    if s == [] then 0 else DecimalValue(s[..|s| - 1]) * 10 + (s[|s| - 1] as int - '0' as int)
  }

  /** Printing a number and reading it back gives the number. */
  lemma {:induction false} DecimalStringRoundTrip(n: nat)
    ensures DecimalValue(DecimalString(n)) == n
  {
    var s := DecimalString(n);
    if n >= 10 {
      assert s[..|s| - 1] == DecimalString(n / 10);
      DecimalStringRoundTrip(n / 10);
    }
  }

  /** The powers of ten the integer widths need. */
  lemma PowersOfTen()
    ensures Pow(10, 3) == 1000 && Pow(10, 5) == 100000
    ensures Pow(10, 10) == 10_000_000_000
    ensures Pow(10, 16) == 10_000_000_000_000_000
    ensures Pow(10, 19) == 10_000_000_000_000_000_000
    ensures Pow(10, 20) == 100_000_000_000_000_000_000
    ensures Pow(10, 39) == 1_000_000_000_000_000_000_000_000_000_000_000_000_000
  {
    assert Pow(10, 1) == 10;
    assert Pow(10, 2) == 100;
    assert Pow(10, 3) == 1000;
    assert Pow(10, 4) == 10000;
    assert Pow(10, 5) == 100000;
    assert Pow(10, 6) == 1000000;
    assert Pow(10, 7) == 10000000;
    assert Pow(10, 8) == 100000000;
    assert Pow(10, 9) == 1000000000;
    assert Pow(10, 10) == 10000000000;
    assert Pow(10, 11) == 100000000000;
    assert Pow(10, 12) == 1000000000000;
    assert Pow(10, 13) == 10000000000000;
    assert Pow(10, 14) == 100000000000000;
    assert Pow(10, 15) == 1000000000000000;
    assert Pow(10, 16) == 10000000000000000;
    assert Pow(10, 17) == 100000000000000000;
    assert Pow(10, 18) == 1000000000000000000;
    assert Pow(10, 19) == 10000000000000000000;
    assert Pow(10, 20) == 100000000000000000000;
    assert Pow(10, 21) == 1000000000000000000000;
    assert Pow(10, 22) == 10000000000000000000000;
    assert Pow(10, 23) == 100000000000000000000000;
    assert Pow(10, 24) == 1000000000000000000000000;
    assert Pow(10, 25) == 10000000000000000000000000;
    assert Pow(10, 26) == 100000000000000000000000000;
    assert Pow(10, 27) == 1000000000000000000000000000;
    assert Pow(10, 28) == 10000000000000000000000000000;
    assert Pow(10, 29) == 100000000000000000000000000000;
    assert Pow(10, 30) == 1000000000000000000000000000000;
    assert Pow(10, 31) == 10000000000000000000000000000000;
    assert Pow(10, 32) == 100000000000000000000000000000000;
    assert Pow(10, 33) == 1000000000000000000000000000000000;
    assert Pow(10, 34) == 10000000000000000000000000000000000;
    assert Pow(10, 35) == 100000000000000000000000000000000000;
    assert Pow(10, 36) == 1000000000000000000000000000000000000;
    assert Pow(10, 37) == 10000000000000000000000000000000000000;
    assert Pow(10, 38) == 100000000000000000000000000000000000000;
    assert Pow(10, 39) == 1000000000000000000000000000000000000000;
  }
}
