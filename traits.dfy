/**
 * The `NumberToChinese` capability of every integer type: `to_chinese`
 * widens to `u128`/`i128` and dispatches on the counting method, wrapping
 * the total methods' strings in `Ok`; `to_chinese_naive` calls the naive
 * entry point of the same width.
 */
module NumberToChineseTraits {
  import opened Results
  import opened ChineseCase
  import opened ChineseCountMethods
  import opened NumberToChineseErrors
  import opened Widths
  import opened Naive
  import opened NumberToChinese

  // ---------------------------------------------------------------------
  // to_chinese

  function U128ToChinese(units: UnitRenderers, value: U128, script: NumberScript, count: ChineseCountMethod)
    : (r: Result<string, NumberToChineseError>)
    ensures r == Rendering(units, count, script, value)
    ensures r.Err? ==> count == Low && r.error == Overflow
  {
    match count
    case Low => FromU128ToChineseLow(units, script, value)
    case TenThousand => Ok(FromU128ToChineseTenThousand(units, script, value))
    case Middle => Ok(FromU128ToChineseMiddle(units, script, value))
    case High => Ok(FromU128ToChineseHigh(units, script, value))
  }

  /** No `u8` is too large for any method. */
  function U8ToChinese(units: UnitRenderers, value: U8, script: NumberScript, count: ChineseCountMethod)
    : (r: Result<string, NumberToChineseError>)
    ensures r == Rendering(units, count, script, value)
    ensures r.Ok?
  {
    U128ToChinese(units, value, script, count)
  }

  function U16ToChinese(units: UnitRenderers, value: U16, script: NumberScript, count: ChineseCountMethod)
    : (r: Result<string, NumberToChineseError>)
    ensures r == Rendering(units, count, script, value)
    ensures r.Ok?
  {
    U128ToChinese(units, value, script, count)
  }

  function U32ToChinese(units: UnitRenderers, value: U32, script: NumberScript, count: ChineseCountMethod)
    : (r: Result<string, NumberToChineseError>)
    ensures r == Rendering(units, count, script, value)
    ensures r.Ok?
  {
    U128ToChinese(units, value, script, count)
  }

  function U64ToChinese(units: UnitRenderers, value: U64, script: NumberScript, count: ChineseCountMethod)
    : (r: Result<string, NumberToChineseError>)
    ensures r == Rendering(units, count, script, value)
  {
    U128ToChinese(units, value, script, count)
  }

  method I128ToChinese(units: UnitRenderers, value: I128, script: NumberScript, count: ChineseCountMethod)
    returns (r: Result<string, NumberToChineseError>)
    ensures r == Rendering(units, count, script, value)
    ensures r.Err? ==> count == Low && (r.error == Underflow <==> value < 0)
  {
    match count
    case Low =>
      r := FromI128ToChineseLow(units, script, value);
    case TenThousand =>
      var s := FromI128ToChineseTenThousand(units, script, value);
      r := Ok(s);
    case Middle =>
      var s := FromI128ToChineseMiddle(units, script, value);
      r := Ok(s);
    case High =>
      var s := FromI128ToChineseHigh(units, script, value);
      r := Ok(s);
  }

  /** No `i8` is too large or too small for any method. */
  method I8ToChinese(units: UnitRenderers, value: I8, script: NumberScript, count: ChineseCountMethod)
    returns (r: Result<string, NumberToChineseError>)
    ensures r == Rendering(units, count, script, value)
    ensures r.Ok?
  {
    r := I128ToChinese(units, value, script, count);
  }

  method I16ToChinese(units: UnitRenderers, value: I16, script: NumberScript, count: ChineseCountMethod)
    returns (r: Result<string, NumberToChineseError>)
    ensures r == Rendering(units, count, script, value)
    ensures r.Ok?
  {
    r := I128ToChinese(units, value, script, count);
  }

  method I32ToChinese(units: UnitRenderers, value: I32, script: NumberScript, count: ChineseCountMethod)
    returns (r: Result<string, NumberToChineseError>)
    ensures r == Rendering(units, count, script, value)
    ensures r.Ok?
  {
    r := I128ToChinese(units, value, script, count);
  }

  method I64ToChinese(units: UnitRenderers, value: I64, script: NumberScript, count: ChineseCountMethod)
    returns (r: Result<string, NumberToChineseError>)
    ensures r == Rendering(units, count, script, value)
  {
    r := I128ToChinese(units, value, script, count);
  }

  // ---------------------------------------------------------------------
  // to_chinese_naive

  method U8ToChineseNaive(value: U8, script: NumberScript) returns (s: string)
    ensures s == NaiveRendering(script, value)
  {
    s := FromU8ToChineseNaive(script, value);
  }

  method U16ToChineseNaive(value: U16, script: NumberScript) returns (s: string)
    ensures s == NaiveRendering(script, value)
  {
    s := FromU16ToChineseNaive(script, value);
  }

  method U32ToChineseNaive(value: U32, script: NumberScript) returns (s: string)
    ensures s == NaiveRendering(script, value)
  {
    s := FromU32ToChineseNaive(script, value);
  }

  method U64ToChineseNaive(value: U64, script: NumberScript) returns (s: string)
    ensures s == NaiveRendering(script, value)
  {
    s := FromU64ToChineseNaive(script, value);
  }

  method U128ToChineseNaive(value: U128, script: NumberScript) returns (s: string)
    ensures s == NaiveRendering(script, value)
  {
    s := FromU128ToChineseNaive(script, value);
  }

  method I8ToChineseNaive(value: I8, script: NumberScript) returns (s: string)
    ensures s == SignedNaiveRendering(script, value)
  {
    s := FromI8ToChineseNaive(script, value);
  }

  method I16ToChineseNaive(value: I16, script: NumberScript) returns (s: string)
    ensures s == SignedNaiveRendering(script, value)
  {
    s := FromI16ToChineseNaive(script, value);
  }

  method I32ToChineseNaive(value: I32, script: NumberScript) returns (s: string)
    ensures s == SignedNaiveRendering(script, value)
  {
    s := FromI32ToChineseNaive(script, value);
  }

  method I64ToChineseNaive(value: I64, script: NumberScript) returns (s: string)
    ensures s == SignedNaiveRendering(script, value)
  {
    s := FromI64ToChineseNaive(script, value);
  }

  method I128ToChineseNaive(value: I128, script: NumberScript) returns (s: string)
    ensures s == SignedNaiveRendering(script, value)
  {
    s := FromI128ToChineseNaive(script, value);
  }

  /**
   * The documented call: an unsuffixed literal is an `i32`, and 123456789
   * in simplified lower case comes out digit by digit.
   */
  lemma ToChineseNaiveExample()
    ensures SignedNaiveRendering(SimplifiedChinese(Lower(false)), 123456789) == "一二三四五六七八九"
  {
    NaiveRenderingExampleLower();
    assert SignedNaiveRendering(SimplifiedChinese(Lower(false)), 123456789)
      == NaiveRendering(SimplifiedChinese(Lower(false)), 123456789);
  }
}
