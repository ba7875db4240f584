/**
 * The glyph tables every renderer consults: a digit (零..十), an exponent
 * unit (分..極), a sign (正/負) and the decimal point, each resolved to one
 * glyph for a script family and style. Every table is total.
 */
module ChineseCharacters {
  import opened ChineseCase

  /** The digits 零 一 二 三 四 五 六 七 八 九 and 十, in declaration order. */
  datatype ChineseNumber = Zero | One | Two | Three | Four | Five | Six | Seven | Eight | Nine | Ten

  /**
   * The exponent units in declaration order: 分 角 個 十 百 千 萬 億 兆 京
   * 垓 秭 穰 溝 澗 正 載 極 (named here by their readings).
   */
  datatype ChineseExponent =
    | Fen | Jiao | Ge | Shi | Bai | Qian
    | Wan | Yi | Zhao | Jing | Gai | Zi | Rang | Gou | Jian | Zheng | Zai | Ji

  /** 正 (Positive) and 負 (Negative). */
  datatype ChineseSign = Positive | Negative

  /** The position of a digit in the declaration, its `u8` representation. */
  function NumberOrdinal(n: ChineseNumber): (k: nat)
    ensures k <= 10
  {
    match n
    case Zero => 0
    case One => 1
    case Two => 2
    case Three => 3
    case Four => 4
    case Five => 5
    case Six => 6
    case Seven => 7
    case Eight => 8
    case Nine => 9
    case Ten => 10
  }

  /** The checked replacement for `from_ordinal_unsafe`: only 0..=10 are accepted. */
  function NumberFromOrdinal(k: nat): (n: ChineseNumber)
    requires k <= 10
    ensures NumberOrdinal(n) == k
  {
    if k == 0 then Zero
    else if k == 1 then One
    else if k == 2 then Two
    else if k == 3 then Three
    else if k == 4 then Four
    else if k == 5 then Five
    else if k == 6 then Six
    else if k == 7 then Seven
    else if k == 8 then Eight
    else if k == 9 then Nine
    else Ten
  }

  function NumberGlyph(n: ChineseNumber, script: NumberScript): (g: string)
    ensures |g| == 1
  {
    match n
    case Zero =>
      (match script
        case SimplifiedChinese(Lower(true)) | TraditionalChinese(Lower(true)) | Japanese(Lower(true)) => "〇"
        case Korean(_) => "영"
        case _ => "零")
    case One =>
      (match script
        case SimplifiedChinese(Upper) | TraditionalChinese(Upper) => "壹"
        case Japanese(Upper) => "壱"
        case Korean(_) => "일"
        case _ => "一")
    case Two =>
      (match script
        case SimplifiedChinese(Upper) => "贰"
        case TraditionalChinese(Upper) => "貳"
        case Japanese(Upper) => "弐"
        case Korean(_) => "이"
        case _ => "二")
    case Three =>
      (match script
        case SimplifiedChinese(Upper) => "叁"
        case TraditionalChinese(Upper) => "參"
        case Japanese(Upper) => "参"
        case Korean(_) => "삼"
        case _ => "三")
    case Four =>
      (match script
        case SimplifiedChinese(Upper) => "肆"
        case TraditionalChinese(Upper) => "肆"
        case Korean(_) => "사"
        case _ => "四")
    case Five =>
      (match script
        case SimplifiedChinese(Upper) => "伍"
        case TraditionalChinese(Upper) => "伍"
        case Korean(_) => "오"
        case _ => "五")
    case Six =>
      (match script
        case SimplifiedChinese(Upper) => "陆"
        case TraditionalChinese(Upper) => "陸"
        case Korean(_) => "육"
        case _ => "六")
    case Seven =>
      (match script
        case SimplifiedChinese(Upper) | TraditionalChinese(Upper) => "柒"
        case Korean(_) => "칠"
        case _ => "七")
    case Eight =>
      (match script
        case SimplifiedChinese(Upper) | TraditionalChinese(Upper) => "捌"
        case Korean(_) => "팔"
        case _ => "八")
    case Nine =>
      (match script
        case SimplifiedChinese(Upper) | TraditionalChinese(Upper) => "玖"
        case Korean(_) => "구"
        case _ => "九")
    case Ten =>
      (match script
        case SimplifiedChinese(Upper) | TraditionalChinese(Upper) | Japanese(Upper) => "拾"
        case Korean(_) => "십"
        case _ => "十")
  }

  /** The position of a unit in the declaration; the derived `Ord` compares these. */
  function ExponentOrdinal(e: ChineseExponent): (k: nat)
    ensures k < 18
  {
    match e
    case Fen => 0
    case Jiao => 1
    case Ge => 2
    case Shi => 3
    case Bai => 4
    case Qian => 5
    case Wan => 6
    case Yi => 7
    case Zhao => 8
    case Jing => 9
    case Gai => 10
    case Zi => 11
    case Rang => 12
    case Gou => 13
    case Jian => 14
    case Zheng => 15
    case Zai => 16
    case Ji => 17
  }

  function ExponentFromOrdinal(k: nat): (e: ChineseExponent)
    requires k < 18
    ensures ExponentOrdinal(e) == k
  {
    [Fen, Jiao, Ge, Shi, Bai, Qian, Wan, Yi, Zhao, Jing, Gai, Zi, Rang, Gou, Jian, Zheng, Zai, Ji][k]
  }

  /** The order `#[derive(Ord)]` gives the units: declaration order. */
  predicate ExponentLess(a: ChineseExponent, b: ChineseExponent) {
    ExponentOrdinal(a) < ExponentOrdinal(b)
  }

  function ExponentGlyph(e: ChineseExponent, script: NumberScript): (g: string)
    ensures |g| == 1
  {
    match e
    case Fen =>
      (match script
        case SimplifiedChinese(_) | TraditionalChinese(_) => "分"
        case Japanese(_) => "厘"
        case Korean(_) => "분")
    case Jiao =>
      (match script
        case SimplifiedChinese(_) | TraditionalChinese(_) => "角"
        case Japanese(_) => "钱"
        case Korean(_) => "각")
    case Ge =>
      (match script
        case SimplifiedChinese(_) => "个"
        case TraditionalChinese(_) | Japanese(_) => "個"
        case Korean(_) => "개")
    case Shi =>
      (match script
        case SimplifiedChinese(Upper) | TraditionalChinese(Upper) => "拾"
        case Korean(_) => "십"
        case _ => "十")
    case Bai =>
      (match script
        case SimplifiedChinese(Upper) | TraditionalChinese(Upper) => "佰"
        case Korean(_) => "백"
        case _ => "百")
    case Qian =>
      (match script
        case SimplifiedChinese(Upper) | TraditionalChinese(Upper) => "仟"
        case Korean(_) => "천"
        case _ => "千")
    case Wan =>
      (match script
        case TraditionalChinese(_) => "萬"
        case Korean(_) => "만"
        case _ => "万")
    case Yi =>
      (match script
        case SimplifiedChinese(_) => "亿"
        case Korean(_) => "억"
        case _ => "億")
    case Zhao =>
      (match script
        case Korean(_) => "조"
        case _ => "兆")
    case Jing =>
      (match script
        case Korean(_) => "경"
        case _ => "京")
    case Gai =>
      (match script
        case Korean(_) => "해"
        case _ => "垓")
    case Zi =>
      (match script
        case Korean(_) => "자"
        case _ => "秭")
    case Rang =>
      (match script
        case Korean(_) => "양"
        case _ => "穰")
    case Gou =>
      (match script
        case SimplifiedChinese(_) => "沟"
        case Korean(_) => "구"
        case _ => "溝")
    case Jian =>
      (match script
        case SimplifiedChinese(_) => "涧"
        case Korean(_) => "간"
        case _ => "澗")
    case Zheng =>
      (match script
        case Korean(_) => "정"
        case _ => "正")
    case Zai =>
      (match script
        case SimplifiedChinese(_) => "载"
        case Korean(_) => "재"
        case _ => "載")
    case Ji =>
      (match script
        case SimplifiedChinese(_) => "极"
        case Korean(_) => "극"
        case _ => "極")
  }

  function SignGlyph(sign: ChineseSign, script: NumberScript): (g: string)
    ensures |g| == 1
  {
    match sign
    case Positive =>
      (match script
        case Korean(_) => "정"
        case _ => "正")
    case Negative =>
      (match script
        case SimplifiedChinese(_) => "负"
        case Korean(_) => "부"
        case _ => "負")
  }

  function PointGlyph(script: NumberScript): (g: string)
    ensures |g| == 1
  {
    match script
    case TraditionalChinese(_) => "點"
    case Korean(_) => "점"
    case _ => "点"
  }

  // ---------------------------------------------------------------------
  // Properties of the tables

  /** 〇 appears exactly for a CJK family in Lower style with circle_as_zero; Korean always uses 영. */
  lemma ZeroGlyphRule(script: NumberScript)
    ensures NumberGlyph(Zero, script) == "〇" <==> !script.Korean? && script.style == Lower(true)
    ensures NumberGlyph(Zero, script) == "영" <==> script.Korean?
    ensures NumberGlyph(Zero, script) == "零" <==> !script.Korean? && script.style != Lower(true)
  {
  }

  /** Korean ignores the style, for digits, units and both signs alike. */
  lemma KoreanIgnoresStyle(n: ChineseNumber, e: ChineseExponent, a: ScriptStyle, b: ScriptStyle)
    ensures NumberGlyph(n, Korean(a)) == NumberGlyph(n, Korean(b))
    ensures ExponentGlyph(e, Korean(a)) == ExponentGlyph(e, Korean(b))
    ensures SignGlyph(Negative, Korean(a)) == SignGlyph(Negative, Korean(b))
    ensures SignGlyph(Positive, Korean(a)) == SignGlyph(Positive, Korean(b))
  {
  }

  /**
   * Japanese Upper replaces only 一, 二, 三 and 十 (and, against a Lower
   * style that prints 〇, the zero); 四..九 fall back to the everyday glyphs.
   */
  lemma JapaneseUpperSubstitutes(n: ChineseNumber, circle: bool)
    ensures NumberGlyph(n, Japanese(Upper)) != NumberGlyph(n, Japanese(Lower(circle)))
      <==> n in {One, Two, Three, Ten} || (n == Zero && circle)
  {
  }

  /**
   * The digit 十 and the unit 十 part ways in Japanese Upper: the digit is
   * 拾, while the units 十, 百, 千 keep their everyday glyphs.
   */
  lemma JapaneseUpperTenDigitAndUnit(circle: bool)
    ensures NumberGlyph(Ten, Japanese(Upper)) == "拾"
    ensures ExponentGlyph(Shi, Japanese(Upper)) == "十"
    ensures NumberGlyph(Ten, Japanese(Upper)) != ExponentGlyph(Shi, Japanese(Upper))
    ensures forall e | e in {Shi, Bai, Qian} ::
      ExponentGlyph(e, Japanese(Upper)) == ExponentGlyph(e, Japanese(Lower(circle)))
  {
  }

  /**
   * Within a family, only 十, 百 and 千 depend on the style, and they do in
   * Simplified and Traditional; 萬 is 万 in Simplified and Japanese and 萬
   * only in Traditional.
   */
  lemma UnitStyleRule(e: ChineseExponent, a: ScriptStyle, b: ScriptStyle)
    ensures e !in {Shi, Bai, Qian} ==>
      && ExponentGlyph(e, SimplifiedChinese(a)) == ExponentGlyph(e, SimplifiedChinese(b))
      && ExponentGlyph(e, TraditionalChinese(a)) == ExponentGlyph(e, TraditionalChinese(b))
      && ExponentGlyph(e, Japanese(a)) == ExponentGlyph(e, Japanese(b))
    ensures e in {Shi, Bai, Qian} ==>
      && ExponentGlyph(e, SimplifiedChinese(Upper)) != ExponentGlyph(e, SimplifiedChinese(Lower(false)))
      && ExponentGlyph(e, TraditionalChinese(Upper)) != ExponentGlyph(e, TraditionalChinese(Lower(false)))
    ensures ExponentGlyph(Wan, SimplifiedChinese(a)) == ExponentGlyph(Wan, Japanese(b)) == "万"
    ensures ExponentGlyph(Wan, TraditionalChinese(a)) == "萬"
  {
  }

  /** Within every script the eleven digit glyphs are pairwise distinct. */
  lemma NumberGlyphsDistinct(script: NumberScript, m: ChineseNumber, n: ChineseNumber)
    ensures NumberGlyph(m, script) == NumberGlyph(n, script) <==> m == n
  {
  }

  /** The minus sign and the decimal point are never a digit glyph of the same script. */
  lemma SignAndPointAreNotDigits(script: NumberScript, n: ChineseNumber)
    ensures SignGlyph(Negative, script) != NumberGlyph(n, script)
    ensures PointGlyph(script) != NumberGlyph(n, script)
  {
  }

  /**
   * 負 is 负 in Simplified, 부 in Korean and 負 otherwise; 正 is 정 in Korean
   * and 正 otherwise; the point is 點 in Traditional, 점 in Korean and 点
   * otherwise.
   */
  lemma SignAndPointRule(script: NumberScript)
    ensures SignGlyph(Negative, script) == "负" <==> script.SimplifiedChinese?
    ensures SignGlyph(Negative, script) == "부" <==> script.Korean?
    ensures PointGlyph(script) == "點" <==> script.TraditionalChinese?
    ensures PointGlyph(script) == "점" <==> script.Korean?
    ensures !script.SimplifiedChinese? && !script.Korean? ==> SignGlyph(Negative, script) == "負"
    ensures !script.TraditionalChinese? && !script.Korean? ==> PointGlyph(script) == "点"
    ensures SignGlyph(Positive, script) == (if script.Korean? then "정" else "正")
  {
  }

  /** The ordinal is a bijection between the units and 0..17. */
  lemma ExponentOrdinalRoundTrip(e: ChineseExponent, k: nat)
    ensures ExponentFromOrdinal(ExponentOrdinal(e)) == e
    ensures k < 18 ==> ExponentOrdinal(ExponentFromOrdinal(k)) == k
  {
  }

  /** Declaration order is a strict total order: 分 < 角 < 個 < 十 < … < 極. */
  lemma ExponentOrderIsTotal(a: ChineseExponent, b: ChineseExponent, c: ChineseExponent)
    ensures !ExponentLess(a, a)
    ensures ExponentLess(a, b) && ExponentLess(b, c) ==> ExponentLess(a, c)
    ensures a != b ==> ExponentLess(a, b) || ExponentLess(b, a)
    ensures forall k :: 0 <= k < 17 ==> ExponentLess(ExponentFromOrdinal(k), ExponentFromOrdinal(k + 1))
  {
    ExponentOrdinalRoundTrip(a, 0);
    ExponentOrdinalRoundTrip(b, 0);
  }
}
