/**
 * The library's own separator front end: its copy of the four tables and
 * of the language/region choice, `separate` (which, unlike the
 * ten-thousand front end, prints nothing for zero), `separate_with_custom`
 * (which prints every group, zero groups included), and the dispatch of a
 * decoded request.
 */
module ThousandSeparators {
  import opened Results
  import opened Positional
  import opened Widths
  import opened Grouping
  import opened TenThousandSeparators

  const THOUSAND_SEP_JA: seq<string> :=
    ["万", "億", "兆", "京", "垓", "秭", "穰", "溝", "澗", "正", "載", "極"]
  const THOUSAND_SEP_KO: seq<string> :=
    ["만", "억", "조", "경", "해", "자", "양", "구", "간", "정", "재", "극"]
  const THOUSAND_SEP_ZH_SIM: seq<string> :=
    ["万", "亿", "兆", "京", "垓", "秭", "穰", "沟", "涧", "正", "载", "极"]
  const THOUSAND_SEP_ZH_TRA: seq<string> :=
    ["萬", "億", "兆", "京", "垓", "秭", "穰", "溝", "澗", "正", "載", "極"]

  /** The table for a language and region, chosen as the ten-thousand front end chooses. */
  function GetThousandSeparators(lang: string, region: string): (r: Result<seq<string>, SeparatorError>)
    ensures r == GetTenThousandSeparators(lang, region)
  {
    if lang == "ja" then Ok(THOUSAND_SEP_JA)
    else if lang == "ko" then Ok(THOUSAND_SEP_KO)
    else if lang == "zh" then
      if region == "CN" then Ok(THOUSAND_SEP_ZH_SIM)
      else if region == "HK" then Ok(THOUSAND_SEP_ZH_TRA)
      else if region == "MO" then Ok(THOUSAND_SEP_ZH_TRA)
      else if region == "SG" then Ok(THOUSAND_SEP_ZH_SIM)
      else if region == "TW" then Ok(THOUSAND_SEP_ZH_TRA)
      else Ok(THOUSAND_SEP_ZH_SIM)
    else Err(UnsupportedLanguageRegion(lang, region))
  }

  /** What `separate_with_custom` prints: "0" for zero, else every group. */
  function CustomSeparated(value: nat, separators: seq<string>): string {
    if value == 0 then "0" else Grouped(value, separators, 0, false)
  }

  /**
   * `separate`: the table for the language and region, then the same loop
   * as the ten-thousand front end but without its zero case, so 0 prints
   * as the empty string.
   */
  method Separate(lang: string, region: string, value: U64) returns (r: Result<string, SeparatorError>)
    ensures GetThousandSeparators(lang, region).Err? ==> r == Err(GetThousandSeparators(lang, region).error)
    ensures GetThousandSeparators(lang, region).Ok? ==> r == Ok(Grouped(value, GetThousandSeparators(lang, region).value, 0, true))
  {
    var tables := GetThousandSeparators(lang, region);
    if tables.Err? {
      return Err(tables.error);
    }
    var separators := tables.value;
    var result := "";
    var step: nat := 0;
    var rest: nat := value;
    while rest > 0
      invariant Pending(value, rest, separators, step, true, result)
      invariant step == 0 ==> result == ""
      decreases rest
    {
      ghost var before := rest;
      var chunk := rest % CHUNK;
      rest := rest / CHUNK;
      if chunk == 0 {
        TurnSkippingZero(value, before, separators, step, result);
        step := step + 1;
        continue;
      }
      if step > 0 {
        TurnLater(value, before, separators, step, true, result);
        var separator := if step <= |separators| then separators[step - 1] else "";
        result := DecimalString(chunk) + separator + result;
      } else {
        TurnFirst(value, before, separators, true);
        result := DecimalString(chunk);
      }
      step := step + 1;
    }
    LoopDone(value, separators, step, true, result);
    r := Ok(result);
  }

  /**
   * `separate_with_custom`: "0" for zero, else every group, a zero group
   * printed as "0", each followed by its position's custom separator.
   */
  method SeparateWithCustom(value: U64, customSeparators: seq<string>) returns (r: Result<string, SeparatorError>)
    ensures r == Ok(CustomSeparated(value, customSeparators))
  {
    if value == 0 {
      return Ok("0");
    }
    var result := "";
    var step: nat := 0;
    var rest: nat := value;
    while rest > 0
      invariant Pending(value, rest, customSeparators, step, false, result)
      invariant step == 0 ==> result == ""
      decreases rest
    {
      ghost var before := rest;
      var chunk := rest % CHUNK;
      rest := rest / CHUNK;
      if step > 0 {
        TurnLater(value, before, customSeparators, step, false, result);
        var separator := if step <= |customSeparators| then customSeparators[step - 1] else "";
        result := DecimalString(chunk) + separator + result;
      } else {
        TurnFirst(value, before, customSeparators, false);
        result := DecimalString(chunk);
      }
      step := step + 1;
    }
    LoopDone(value, customSeparators, step, false, result);
    r := Ok(result);
  }

  /**
   * Custom separators win; otherwise the language picks the table, with an
   * absent region read as ""; a region without a language, or nothing at
   * all, is refused.
   */
  method InnerSepByThousands(input: SepInput) returns (r: Result<string, SeparatorError>)
    ensures input.separators.Some? ==> r == Ok(CustomSeparated(input.value, input.separators.value))
    ensures input.separators.None? && input.lang.Some? ==>
      r == (match GetThousandSeparators(input.lang.value, input.region.GetOr(""))
            case Ok(seps) => Ok(Grouped(input.value, seps, 0, true))
            case Err(e) => Err(e))
    ensures input.separators.None? && input.lang.None? ==>
      r == Err(if input.region.Some? then RegionWithoutLanguage else NoSeparatorSource)
  {
    match input.separators
    case Some(custom) =>
      r := SeparateWithCustom(input.value, custom);
    case None =>
      match (input.lang, input.region)
      case (Some(lang), Some(region)) =>
        r := Separate(lang, region, input.value);
      case (Some(lang), None) =>
        r := Separate(lang, "", input.value);
      case (None, Some(_)) =>
        r := Err(RegionWithoutLanguage);
      case (None, None) =>
        r := Err(NoSeparatorSource);
  }

  // ---------------------------------------------------------------------
  // Properties

  /** For every value but zero, `separate` prints what the ten-thousand front end prints. */
  lemma SeparateAgreesWithTenThousandsExceptAtZero(value: nat, seps: seq<string>)
    ensures value > 0 ==> Grouped(value, seps, 0, true) == NumberSeparated(value, seps)
    ensures value == 0 ==> Grouped(value, seps, 0, true) == "" && NumberSeparated(value, seps) == "0"
  {
  }

  /** A zero group is printed as "0" with custom separators: 10000 is "1", the first word, then "0". */
  lemma CustomSeparatedPrintsZeroGroups(sep: string, more: seq<string>)
    ensures CustomSeparated(10000, [sep] + more) == "1" + sep + "0"
  {
    var seps := [sep] + more;
    assert DecimalString(1) == "1";
    assert Grouped(1, seps, 1, false) == "" + ("1" + sep);
    assert Grouped(10000, seps, 0, false) == Grouped(1, seps, 1, false) + ("0" + "");
  }

  /** When no group is zero, custom separators print as the table separators do. */
  lemma CustomAgreesWhenNoGroupIsZero(value: nat, seps: seq<string>)
    requires value > 0
    requires forall i :: 0 <= i < ChunkCount(value) ==> Chunk(value, i) != 0
    ensures CustomSeparated(value, seps) == NumberSeparated(value, seps)
  {
    NoZeroChunkMeansNoSkip(value, seps, 0);
  }
}
