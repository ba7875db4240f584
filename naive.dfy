/**
 * The naive renderer: the glyph of every decimal digit, most significant
 * first, with no unit words (123 becomes 一二三), and its entry points for
 * every integer width.
 */
module Naive {
  import opened ChineseCase
  import opened ChineseCharacters
  import opened Positional
  import opened Widths

  function DigitGlyph(script: NumberScript, d: Digit): (g: string)
    ensures |g| == 1
  {
    NumberGlyph(NumberFromOrdinal(d), script)
  }

  /** The glyphs of a digit sequence, one per digit, in the same order. */
  function GlyphString(script: NumberScript, ds: seq<Digit>): (s: string)
    ensures |s| == |ds|
  {
    if ds == [] then "" else GlyphString(script, ds[..|ds| - 1]) + DigitGlyph(script, ds[|ds| - 1])
  }

  /** What the naive renderer prints for a non-negative value. */
  function NaiveRendering(script: NumberScript, v: nat): string {
    if v == 0 then NumberGlyph(Zero, script) else GlyphString(script, DecimalDigits(v))
  }

  /** What the naive renderer prints for any integer: 負 before the magnitude when negative. */
  function SignedNaiveRendering(script: NumberScript, v: int): string {
    (if v < 0 then SignGlyph(Negative, script) else "") + NaiveRendering(script, Magnitude(v))
  }

  // ---------------------------------------------------------------------
  // The digit loop

  /**
   * `unsigned_integer_to_chinese` and `big_unsigned_integer_to_chinese`,
   * which run the same loop on `u128` and on `BigUint`: collect the digits
   * least significant first, then emit their glyphs in reverse.
   */
  method UnsignedIntegerToChinese(script: NumberScript, value: nat) returns (s: string)
    ensures s == NaiveRendering(script, value)
  {
    if value == 0 {
      return NumberGlyph(Zero, script);
    }
    ghost var ds := DecimalDigits(value);
    var numbers: seq<ChineseNumber> := [];
    var rest := value;
    while rest > 0
      invariant |numbers| <= |ds|
      invariant DecimalDigits(rest) == ds[..|ds| - |numbers|]
      invariant forall k :: 0 <= k < |numbers| ==> numbers[k] == NumberFromOrdinal(ds[|ds| - 1 - k])
    {
      DigitLoopStep(ds, rest, |ds| - |numbers|);
      var n := rest % 10;
      rest := rest / 10;
      numbers := numbers + [NumberFromOrdinal(n)];
    }
    s := CollectReversed(script, numbers);
    ReversedGlyphsOfDigits(script, numbers, ds);
  }

  /** The glyphs of a sequence of digits read back to front. */
  function ReversedGlyphs(script: NumberScript, numbers: seq<ChineseNumber>): (s: string)
    ensures |s| == |numbers|
  {
    if numbers == [] then "" else ReversedGlyphs(script, numbers[1..]) + NumberGlyph(numbers[0], script)
  }

  /** `numbers.into_iter().rev().map(..).collect()`: append the glyphs, last digit first. */
  method CollectReversed(script: NumberScript, numbers: seq<ChineseNumber>) returns (s: string)
    ensures s == ReversedGlyphs(script, numbers)
  {
    s := "";
    var i := |numbers|;
    while i > 0
      invariant 0 <= i <= |numbers|
      invariant s == ReversedGlyphs(script, numbers[i..])
    {
      assert numbers[i - 1..][1..] == numbers[i..];
      i := i - 1;
      s := s + NumberGlyph(numbers[i], script);
    }
  }

  /** Digits collected lowest first and read back to front are the digits in order. */
  lemma {:induction false} ReversedGlyphsOfDigits(script: NumberScript, numbers: seq<ChineseNumber>, ds: seq<Digit>)
    requires |numbers| == |ds|
    requires forall k :: 0 <= k < |numbers| ==> numbers[k] == NumberFromOrdinal(ds[|ds| - 1 - k])
    ensures ReversedGlyphs(script, numbers) == GlyphString(script, ds)
  {
    if numbers != [] {
      var n := |ds|;
      ReversedGlyphsOfDigits(script, numbers[1..], ds[..n - 1]);
    }
  }

  /** One turn of the digit loop peels off the last digit of what remains. */
  lemma DigitLoopStep(ds: seq<Digit>, rest: nat, m: nat)
    requires rest > 0 && m <= |ds| && DecimalDigits(rest) == ds[..m]
    ensures m >= 1 && DecimalDigits(rest / 10) == ds[..m - 1] && ds[m - 1] == rest % 10
  {
    var init := DecimalDigits(rest / 10);
    var whole := DecimalDigits(rest);
    assert whole == init + [rest % 10];
    assert |whole| == m;
    forall k | 0 <= k < m - 1
      ensures init[k] == ds[k]
    {
      assert init[k] == whole[k];
    }
    assert whole[m - 1] == ds[m - 1];
  }

  // ---------------------------------------------------------------------
  // Entry points per width

  method FromU128ToChineseNaive(script: NumberScript, value: U128) returns (s: string)
    ensures s == NaiveRendering(script, value)
    ensures 1 <= |s| <= 39
  {
    s := UnsignedIntegerToChinese(script, value);
    PowersOfTen();
    NaiveLengthAtMost(script, value, 39);
  }

  method FromU8ToChineseNaive(script: NumberScript, value: U8) returns (s: string)
    ensures s == NaiveRendering(script, value)
    ensures 1 <= |s| <= 3
  {
    s := FromU128ToChineseNaive(script, value);
    PowersOfTen();
    NaiveLengthAtMost(script, value, 3);
  }

  method FromU16ToChineseNaive(script: NumberScript, value: U16) returns (s: string)
    ensures s == NaiveRendering(script, value)
    ensures 1 <= |s| <= 5
  {
    s := FromU128ToChineseNaive(script, value);
    PowersOfTen();
    NaiveLengthAtMost(script, value, 5);
  }

  method FromU32ToChineseNaive(script: NumberScript, value: U32) returns (s: string)
    ensures s == NaiveRendering(script, value)
    ensures 1 <= |s| <= 10
  {
    s := FromU128ToChineseNaive(script, value);
    PowersOfTen();
    NaiveLengthAtMost(script, value, 10);
  }

  method FromU64ToChineseNaive(script: NumberScript, value: U64) returns (s: string)
    ensures s == NaiveRendering(script, value)
    ensures 1 <= |s| <= 20
  {
    s := FromU128ToChineseNaive(script, value);
    PowersOfTen();
    NaiveLengthAtMost(script, value, 20);
  }

  method FromUsizeToChineseNaive(script: NumberScript, value: Usize) returns (s: string)
    ensures s == NaiveRendering(script, value)
    ensures 1 <= |s| <= 20
  {
    s := UnsignedIntegerToChinese(script, value);
    PowersOfTen();
    NaiveLengthAtMost(script, value, 20);
  }

  /** `from_i128_to_chinese_naive`: render the magnitude, then insert 負 at the front. */
  method FromI128ToChineseNaive(script: NumberScript, value: I128) returns (s: string)
    ensures s == SignedNaiveRendering(script, value)
    ensures 1 <= |s| <= 40
  {
    if value < 0 {
      var magnitude := NegateToU128(value);
      var digits := FromU128ToChineseNaive(script, magnitude);
      assert Magnitude(value) == magnitude as int;
      NegativeRendering(script, value);
      s := SignGlyph(Negative, script) + digits;
    } else {
      s := FromU128ToChineseNaive(script, value);
    }
  }

  method FromI8ToChineseNaive(script: NumberScript, value: I8) returns (s: string)
    ensures s == SignedNaiveRendering(script, value)
    ensures 1 <= |s| <= 4
  {
    s := FromI128ToChineseNaive(script, value);
    PowersOfTen();
    SignedNaiveLengthAtMost(script, value, 3);
  }

  method FromI16ToChineseNaive(script: NumberScript, value: I16) returns (s: string)
    ensures s == SignedNaiveRendering(script, value)
    ensures 1 <= |s| <= 6
  {
    s := FromI128ToChineseNaive(script, value);
    PowersOfTen();
    SignedNaiveLengthAtMost(script, value, 5);
  }

  method FromI32ToChineseNaive(script: NumberScript, value: I32) returns (s: string)
    ensures s == SignedNaiveRendering(script, value)
    ensures 1 <= |s| <= 11
  {
    s := FromI128ToChineseNaive(script, value);
    PowersOfTen();
    SignedNaiveLengthAtMost(script, value, 10);
  }

  method FromI64ToChineseNaive(script: NumberScript, value: I64) returns (s: string)
    ensures s == SignedNaiveRendering(script, value)
    ensures 1 <= |s| <= 20
  {
    s := FromI128ToChineseNaive(script, value);
    PowersOfTen();
    SignedNaiveLengthAtMost(script, value, 19);
  }

  method FromIsizeToChineseNaive(script: NumberScript, value: Isize) returns (s: string)
    ensures s == SignedNaiveRendering(script, value)
    ensures 1 <= |s| <= 20
  {
    s := FromI128ToChineseNaive(script, value);
    PowersOfTen();
    SignedNaiveLengthAtMost(script, value, 19);
  }

  // ---------------------------------------------------------------------
  // Properties of the naive rendering

  lemma {:induction false} GlyphStringAt(script: NumberScript, ds: seq<Digit>, k: nat)
    requires k < |ds|
    ensures GlyphString(script, ds)[k] == DigitGlyph(script, ds[k])[0]
  {
    if k < |ds| - 1 {
      GlyphStringAt(script, ds[..|ds| - 1], k);
    }
  }

  lemma {:induction false} GlyphStringInjective(script: NumberScript, a: seq<Digit>, b: seq<Digit>)
    requires GlyphString(script, a) == GlyphString(script, b)
    ensures a == b
  {
    if a != [] {
      var n := |a|;
      GlyphStringAt(script, a, n - 1);
      GlyphStringAt(script, b, n - 1);
      NumberGlyphsDistinct(script, NumberFromOrdinal(a[n - 1]), NumberFromOrdinal(b[n - 1]));
      assert GlyphString(script, a[..n - 1]) == GlyphString(script, a)[..n - 1];
      assert GlyphString(script, b[..n - 1]) == GlyphString(script, b)[..n - 1];
      GlyphStringInjective(script, a[..n - 1], b[..n - 1]);
      assert a == a[..n - 1] + [a[n - 1]];
      assert b == b[..n - 1] + [b[n - 1]];
    }
  }

  /**
   * Zero is exactly the script's zero glyph; a positive value gets one glyph
   * per decimal digit, so its length n satisfies 10^(n-1) <= v < 10^n.
   */
  lemma NaiveRenderingLength(script: NumberScript, v: nat)
    ensures v == 0 ==> NaiveRendering(script, v) == NumberGlyph(Zero, script)
    ensures v > 0 ==> Pow(10, |NaiveRendering(script, v)| - 1) <= v < Pow(10, |NaiveRendering(script, v)|)
  {
    if v > 0 {
      DigitCountBounds(v);
    }
  }

  /** The k-th glyph of a positive value is the glyph of its k-th digit from the left. */
  lemma NaiveRenderingAt(script: NumberScript, v: nat, k: nat)
    requires v > 0 && k < |NaiveRendering(script, v)|
    ensures NaiveRendering(script, v)[k]
      == DigitGlyph(script, (v / Pow(10, |NaiveRendering(script, v)| - 1 - k)) % 10)[0]
  {
    var ds := DecimalDigits(v);
    assert NaiveRendering(script, v) == GlyphString(script, ds);
    GlyphStringAt(script, ds, k);
    DecimalDigitAt(v, k);
  }

  /**
   * Every glyph is a digit glyph (0..9, never 十, never a unit), and the
   * first glyph of a positive value is never the zero glyph.
   */
  lemma NaiveRenderingGlyphs(script: NumberScript, v: nat)
    ensures forall k :: 0 <= k < |NaiveRendering(script, v)| ==>
      exists d: Digit :: NaiveRendering(script, v)[k] == DigitGlyph(script, d)[0]
    ensures v > 0 ==> NaiveRendering(script, v)[0] != NumberGlyph(Zero, script)[0]
  {
    forall k | 0 <= k < |NaiveRendering(script, v)|
      ensures exists d: Digit :: NaiveRendering(script, v)[k] == DigitGlyph(script, d)[0]
    {
      if v == 0 {
        assert NaiveRendering(script, v)[k] == DigitGlyph(script, 0)[0];
      } else {
        GlyphStringAt(script, DecimalDigits(v), k);
      }
    }
    if v > 0 {
      var ds := DecimalDigits(v);
      GlyphStringAt(script, ds, 0);
      NumberGlyphsDistinct(script, NumberFromOrdinal(ds[0]), Zero);
    }
  }

  /** Distinct non-negative values render to distinct strings. */
  lemma {:induction false} NaiveRenderingInjective(script: NumberScript, a: nat, b: nat)
    requires NaiveRendering(script, a) == NaiveRendering(script, b)
    ensures a == b
  {
    if a > 0 && b > 0 {
      GlyphStringInjective(script, DecimalDigits(a), DecimalDigits(b));
      ValueOfDecimalDigits(a);
      ValueOfDecimalDigits(b);
    } else if a > 0 || b > 0 {
      var v := if a > 0 then a else b;
      NaiveRenderingGlyphs(script, v);
    }
  }

  /** Distinct integers render to distinct strings, signs included. */
  lemma {:induction false} SignedNaiveRenderingInjective(script: NumberScript, a: int, b: int)
    requires SignedNaiveRendering(script, a) == SignedNaiveRendering(script, b)
    ensures a == b
  {
    if a < 0 && b < 0 {
      NegativeNaiveRenderingInjective(script, a, b);
    } else if a >= 0 && b >= 0 {
      NonNegativeNaiveRenderingInjective(script, a, b);
    } else if a < 0 {
      SignedNaiveRenderingSignsDiffer(script, a, b);
    } else {
      SignedNaiveRenderingSignsDiffer(script, b, a);
    }
  }

  lemma NonNegativeNaiveRenderingInjective(script: NumberScript, a: int, b: int)
    requires a >= 0 && b >= 0
    requires SignedNaiveRendering(script, a) == SignedNaiveRendering(script, b)
    ensures a == b
  {
    SignedNaiveRenderingParts(script, a);
    SignedNaiveRenderingParts(script, b);
    NaiveRenderingInjective(script, a, b);
  }

  lemma NegativeNaiveRenderingInjective(script: NumberScript, a: int, b: int)
    requires a < 0 && b < 0
    requires SignedNaiveRendering(script, a) == SignedNaiveRendering(script, b)
    ensures a == b
  {
    NegativeRendering(script, a);
    NegativeRendering(script, b);
    MagnitudeInjective(script, Magnitude(a), Magnitude(b));
  }

  lemma NegativeRendering(script: NumberScript, v: int)
    requires v < 0
    ensures SignedNaiveRendering(script, v) == SignGlyph(Negative, script) + NaiveRendering(script, Magnitude(v))
  {
  }

  lemma MagnitudeInjective(script: NumberScript, ma: nat, mb: nat)
    requires SignGlyph(Negative, script) + NaiveRendering(script, ma) == SignGlyph(Negative, script) + NaiveRendering(script, mb)
    ensures ma == mb
  {
    StripPrefix(SignGlyph(Negative, script), NaiveRendering(script, ma), NaiveRendering(script, mb));
    NaiveRenderingInjective(script, ma, mb);
  }

  lemma StripPrefix(p: string, x: string, y: string)
    requires p + x == p + y
    ensures x == y
  {
    assert x == (p + x)[|p|..];
    assert y == (p + y)[|p|..];
  }

  /** A negative and a non-negative value never render alike. */
  lemma {:induction false} SignedNaiveRenderingSignsDiffer(script: NumberScript, a: int, b: int)
    requires a < 0 <= b
    ensures SignedNaiveRendering(script, a) != SignedNaiveRendering(script, b)
  {
    SignedNaiveRenderingParts(script, a);
    SignedNaiveRenderingParts(script, b);
    SignBeforeDigits(script, b);
  }

  /** A signed rendering is the sign glyph and the magnitude, or the magnitude alone. */
  lemma SignedNaiveRenderingParts(script: NumberScript, v: int)
    ensures v < 0 ==> (|SignedNaiveRendering(script, v)| > 1
      && SignedNaiveRendering(script, v)[0] == SignGlyph(Negative, script)[0]
      && SignedNaiveRendering(script, v)[1..] == NaiveRendering(script, Magnitude(v)))
    ensures v >= 0 ==> SignedNaiveRendering(script, v) == NaiveRendering(script, v)
  {
    if v < 0 {
      NaiveLengthAtLeastOne(script, Magnitude(v));
    }
  }

  lemma NaiveLengthAtLeastOne(script: NumberScript, v: nat)
    ensures |NaiveRendering(script, v)| >= 1
  {
  }

  /** The rendering of a non-negative value never starts with the minus sign. */
  lemma SignBeforeDigits(script: NumberScript, v: nat)
    ensures NaiveRendering(script, v)[0] != SignGlyph(Negative, script)[0]
  {
    NaiveRenderingGlyphs(script, v);
    var d: Digit :| NaiveRendering(script, v)[0] == DigitGlyph(script, d)[0];
    SignAndPointAreNotDigits(script, NumberFromOrdinal(d));
  }

  lemma NaiveLengthAtMost(script: NumberScript, v: nat, n: nat)
    requires n >= 1 && v < Pow(10, n)
    ensures 1 <= |NaiveRendering(script, v)| <= n
  {
    if v > 0 {
      DigitCountAtMost(v, n);
    }
  }

  lemma SignedNaiveLengthAtMost(script: NumberScript, v: int, n: nat)
    requires n >= 1 && -(Pow(10, n) as int) < v < Pow(10, n)
    ensures 1 <= |SignedNaiveRendering(script, v)| <= n + 1
  {
    NaiveLengthAtMost(script, Magnitude(v), n);
  }

  /** Every digit glyph appears in place: 123456789 in simplified lower case. */
  lemma NaiveRenderingExampleLower()
    ensures NaiveRendering(SimplifiedChinese(Lower(false)), 123456789) == "一二三四五六七八九"
  {
    var lower := SimplifiedChinese(Lower(false));
    DigitsOf123456789();
    assert GlyphString(lower, [1]) == "一";
    assert GlyphString(lower, [1, 2]) == "一二";
    assert [1, 2, 3][..2] == [1, 2];
    assert GlyphString(lower, [1, 2, 3]) == "一二三";
    assert [1, 2, 3, 4][..3] == [1, 2, 3];
    assert GlyphString(lower, [1, 2, 3, 4]) == "一二三四";
    assert [1, 2, 3, 4, 5][..4] == [1, 2, 3, 4];
    assert GlyphString(lower, [1, 2, 3, 4, 5]) == "一二三四五";
    assert [1, 2, 3, 4, 5, 6][..5] == [1, 2, 3, 4, 5];
    assert GlyphString(lower, [1, 2, 3, 4, 5, 6]) == "一二三四五六";
    assert [1, 2, 3, 4, 5, 6, 7][..6] == [1, 2, 3, 4, 5, 6];
    assert GlyphString(lower, [1, 2, 3, 4, 5, 6, 7]) == "一二三四五六七";
    assert [1, 2, 3, 4, 5, 6, 7, 8][..7] == [1, 2, 3, 4, 5, 6, 7];
    assert GlyphString(lower, [1, 2, 3, 4, 5, 6, 7, 8]) == "一二三四五六七八";
    assert [1, 2, 3, 4, 5, 6, 7, 8, 9][..8] == [1, 2, 3, 4, 5, 6, 7, 8];
  }

  lemma DigitsOf123456789()
    ensures DecimalDigits(123456789) == [1, 2, 3, 4, 5, 6, 7, 8, 9]
  {
    assert DecimalDigits(1) == [1];
    assert DecimalDigits(12) == [1, 2];
    assert DecimalDigits(123) == [1, 2, 3];
    assert DecimalDigits(1234) == [1, 2, 3, 4];
    assert DecimalDigits(12345) == [1, 2, 3, 4, 5];
    assert DecimalDigits(123456) == [1, 2, 3, 4, 5, 6];
    assert DecimalDigits(1234567) == [1, 2, 3, 4, 5, 6, 7];
    assert DecimalDigits(12345678) == [1, 2, 3, 4, 5, 6, 7, 8];
  }

  /** The naive renderer writes digits only: 12 in simplified upper case has no 拾. */
  lemma NaiveRenderingExampleUpper()
    ensures NaiveRendering(SimplifiedChinese(Upper), 12) == "壹贰"
  {
    assert DecimalDigits(1) == [1];
    assert DecimalDigits(12) == [1, 2];
    assert GlyphString(SimplifiedChinese(Upper), [1]) == "壹";
  }

  /** A negative Korean value: the sign glyph, then one glyph per digit, zero included. */
  lemma NaiveRenderingExampleKorean()
    ensures SignedNaiveRendering(Korean(Upper), -105) == "부일영오"
  {
    NegativeRendering(Korean(Upper), -105);
    assert Magnitude(-105) == 105;
    KoreanDigits105();
  }

  lemma KoreanDigits105()
    ensures NaiveRendering(Korean(Upper), 105) == "일영오"
  {
    assert DecimalDigits(1) == [1];
    assert DecimalDigits(10) == [1, 0];
    assert DecimalDigits(105) == [1, 0, 5];
    assert GlyphString(Korean(Upper), [1]) == "일";
    assert [1, 0][..1] == [1];
    assert GlyphString(Korean(Upper), [1, 0]) == "일영";
    assert [1, 0, 5][..2] == [1, 0];
  }
}
