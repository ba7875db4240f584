/**
 * Grouping by ten thousands with the large-unit words of a language: the
 * four separator tables, the language/region choice among them, the loop
 * that prints the groups, and the dispatch of a decoded request.
 */
module TenThousandSeparators {
  import opened Results
  import opened ChineseCase
  import opened ChineseCharacters
  import opened Positional
  import opened Widths
  import opened Grouping

  const TEN_THOUSAND_SEP_JA: seq<string> :=
    ["万", "億", "兆", "京", "垓", "秭", "穰", "溝", "澗", "正", "載", "極"]
  const TEN_THOUSAND_SEP_KO: seq<string> :=
    ["만", "억", "조", "경", "해", "자", "양", "구", "간", "정", "재", "극"]
  const TEN_THOUSAND_SEP_ZH_SIM: seq<string> :=
    ["万", "亿", "兆", "京", "垓", "秭", "穰", "沟", "涧", "正", "载", "极"]
  const TEN_THOUSAND_SEP_ZH_TRA: seq<string> :=
    ["萬", "億", "兆", "京", "垓", "秭", "穰", "溝", "澗", "正", "載", "極"]

  /**
   * The table for a language and region: Japanese and Korean whatever the
   * region, Chinese in traditional characters for Hong Kong, Macau and
   * Taiwan and in simplified characters for every other region.
   */
  function GetTenThousandSeparators(lang: string, region: string): (r: Result<seq<string>, SeparatorError>)
    ensures r.Err? <==> lang != "ja" && lang != "ko" && lang != "zh"
    ensures r.Err? ==> r.error == UnsupportedLanguageRegion(lang, region)
    ensures lang == "ja" ==> r == Ok(TEN_THOUSAND_SEP_JA)
    ensures lang == "ko" ==> r == Ok(TEN_THOUSAND_SEP_KO)
    ensures lang == "zh" ==> r == Ok(if region in {"HK", "MO", "TW"} then TEN_THOUSAND_SEP_ZH_TRA else TEN_THOUSAND_SEP_ZH_SIM)
    ensures r.Ok? ==> |r.value| == 12
  {
    if lang == "ja" then Ok(TEN_THOUSAND_SEP_JA)
    else if lang == "ko" then Ok(TEN_THOUSAND_SEP_KO)
    else if lang == "zh" then
      if region == "CN" then Ok(TEN_THOUSAND_SEP_ZH_SIM)
      else if region == "HK" then Ok(TEN_THOUSAND_SEP_ZH_TRA)
      else if region == "MO" then Ok(TEN_THOUSAND_SEP_ZH_TRA)
      else if region == "SG" then Ok(TEN_THOUSAND_SEP_ZH_SIM)
      else if region == "TW" then Ok(TEN_THOUSAND_SEP_ZH_TRA)
      else Ok(TEN_THOUSAND_SEP_ZH_SIM)
    else Err(UnsupportedLanguageRegion(lang, region))
  }

  /** What `separate_number` prints: "0" for zero, else the groups with zero groups skipped. */
  function NumberSeparated(value: nat, separators: seq<string>): string {
    if value == 0 then "0" else Grouped(value, separators, 0, true)
  }

  /**
   * The printing loop: peel off the lowest four digits, skip the group when
   * it is zero (the position still advances), else put it and its
   * position's separator in front of what is built so far.
   */
  method SeparateNumber(value: U64, separators: seq<string>) returns (r: Result<string, SeparatorError>)
    ensures r == Ok(NumberSeparated(value, separators))
  {
    if value == 0 {
      return Ok("0");
    }
    var result := "";
    var step: nat := 0;
    var rest: nat := value;
    while rest > 0
      invariant Pending(value, rest, separators, step, true, result)
      invariant step == 0 ==> result == ""
      decreases rest
    {
      ghost var before := rest;
      var chunk := rest % CHUNK;
      rest := rest / CHUNK;
      if chunk == 0 {
        TurnSkippingZero(value, before, separators, step, result);
        step := step + 1;
        continue;
      }
      if step > 0 {
        TurnLater(value, before, separators, step, true, result);
        var separator := if step <= |separators| then separators[step - 1] else "";
        result := DecimalString(chunk) + separator + result;
      } else {
        TurnFirst(value, before, separators, true);
        result := DecimalString(chunk);
      }
      step := step + 1;
    }
    LoopDone(value, separators, step, true, result);
    r := Ok(result);
  }

  /**
   * Custom separators win; otherwise the language picks the table, with an
   * absent region read as ""; a region without a language, or nothing at
   * all, is refused.
   */
  method InnerSepByTenThousands(input: SepInput) returns (r: Result<string, SeparatorError>)
    ensures input.separators.Some? ==> r == Ok(NumberSeparated(input.value, input.separators.value))
    ensures input.separators.None? && input.lang.Some? ==>
      r == (match GetTenThousandSeparators(input.lang.value, input.region.GetOr(""))
            case Ok(seps) => Ok(NumberSeparated(input.value, seps))
            case Err(e) => Err(e))
    ensures input.separators.None? && input.lang.None? ==>
      r == Err(if input.region.Some? then RegionWithoutLanguage else NoSeparatorSource)
  {
    match input.separators
    case Some(custom) =>
      r := SeparateNumber(input.value, custom);
    case None =>
      match (input.lang, input.region)
      case (Some(lang), Some(region)) =>
        var tables := GetTenThousandSeparators(lang, region);
        if tables.Err? {
          return Err(tables.error);
        }
        r := SeparateNumber(input.value, tables.value);
      case (Some(lang), None) =>
        var tables := GetTenThousandSeparators(lang, "");
        if tables.Err? {
          return Err(tables.error);
        }
        r := SeparateNumber(input.value, tables.value);
      case (None, Some(_)) =>
        r := Err(RegionWithoutLanguage);
      case (None, None) =>
        r := Err(NoSeparatorSource);
  }

  // ---------------------------------------------------------------------
  // Properties

  /** Each table lists the unit glyphs 萬 .. 極 of its script family, in order, whatever the style. */
  lemma JapaneseTableIsUnitGlyphs(style: ScriptStyle)
    ensures forall i :: 0 <= i < 12 ==> TEN_THOUSAND_SEP_JA[i] == ExponentGlyph(ExponentFromOrdinal(6 + i), Japanese(style))
  {
  }

  lemma KoreanTableIsUnitGlyphs(style: ScriptStyle)
    ensures forall i :: 0 <= i < 12 ==> TEN_THOUSAND_SEP_KO[i] == ExponentGlyph(ExponentFromOrdinal(6 + i), Korean(style))
  {
  }

  lemma SimplifiedTableIsUnitGlyphs(style: ScriptStyle)
    ensures forall i :: 0 <= i < 12 ==>
      TEN_THOUSAND_SEP_ZH_SIM[i] == ExponentGlyph(ExponentFromOrdinal(6 + i), SimplifiedChinese(style))
  {
  }

  lemma TraditionalTableIsUnitGlyphs(style: ScriptStyle)
    ensures forall i :: 0 <= i < 12 ==>
      TEN_THOUSAND_SEP_ZH_TRA[i] == ExponentGlyph(ExponentFromOrdinal(6 + i), TraditionalChinese(style))
  {
  }

  /** 10001 in Japanese: both groups print, the upper one followed by 万, with no zero padding. */
  lemma SeparatedExampleJapanese()
    ensures NumberSeparated(10001, TEN_THOUSAND_SEP_JA) == "1万1"
    ensures NumberSeparated(10000, TEN_THOUSAND_SEP_JA) == "1万"
  {
    assert DecimalDigits(1) == [1];
    assert DecimalString(1) == "1";
    assert Grouped(1, TEN_THOUSAND_SEP_JA, 1, true) == "1万";
  }

  /** A zero group between two others disappears, and the top group keeps the word of its own position. */
  lemma SeparatedExampleGap()
    ensures NumberSeparated(1_0000_0005, TEN_THOUSAND_SEP_ZH_TRA) == "1億5"
  {
    assert DecimalDigits(1) == [1];
    assert DecimalString(1) == "1";
    assert DecimalDigits(5) == [5];
    assert DecimalString(5) == "5";
    assert Grouped(1, TEN_THOUSAND_SEP_ZH_TRA, 2, true) == "1億";
    assert Grouped(1_0000, TEN_THOUSAND_SEP_ZH_TRA, 1, true) == "1億";
  }

  /** Something is always printed: "0" for zero, and at least the top group otherwise. */
  lemma SeparatedIsNeverEmpty(value: nat, separators: seq<string>)
    ensures |NumberSeparated(value, separators)| > 0
  {
    if value > 0 {
      GroupedNonEmpty(value, separators, 0, true);
    }
  }
}
