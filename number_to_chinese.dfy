/**
 * The integer entry points of the number renderer: one per integer width
 * and counting method. The u128 functions hold the only guard (下數 cannot
 * name 10^16 or more); the i128 ones negate safely, remap an overflow of
 * the magnitude to an underflow of the value, and put 負 in front; every
 * narrower width widens and calls one of those.
 *
 * The unit-placing renderers themselves are not part of this model: they
 * are passed in as `UnitRenderers`, four total functions from a script, a
 * boolean flag and a magnitude to a string. The flag's meaning is not
 * visible here; the integer entry points always pass `false`. Everything here is
 * proved against `Rendering`, the result the entry points promise in terms
 * of those renderers.
 */
module NumberToChinese {
  import opened Results
  import opened ChineseCase
  import opened ChineseCountMethods
  import opened ChineseCharacters
  import opened NumberToChineseErrors
  import opened Positional
  import opened Widths

  /** The four unit-placing renderers, one per counting method. */
  datatype UnitRenderers = UnitRenderers(
    low: (NumberScript, bool, nat) -> string,
    tenThousand: (NumberScript, bool, nat) -> string,
    middle: (NumberScript, bool, nat) -> string,
    high: (NumberScript, bool, nat) -> string)

  /** The renderer a counting method selects. */
  function Renderer(units: UnitRenderers, count: ChineseCountMethod): (NumberScript, bool, nat) -> string {
    match count
    case Low => units.low
    case TenThousand => units.tenThousand
    case Middle => units.middle
    case High => units.high
  }

  /** 下數 has units up to 極 = 10^15 only, so it accepts magnitudes below 10^16. */
  const LOW_LIMIT: nat := 1_0000_0000_0000_0000

  /**
   * What every integer entry point returns for `v`: with 下數 a magnitude of
   * 10^16 or more fails, as Underflow when `v` is negative and as Overflow
   * otherwise; every other case is the selected renderer's output for |v|,
   * after the sign glyph when `v` is negative.
   */
  function Rendering(units: UnitRenderers, count: ChineseCountMethod, script: NumberScript, v: int)
    : Result<string, NumberToChineseError>
  {
    if count == Low && Magnitude(v) >= LOW_LIMIT then
      Err(if v < 0 then Underflow else Overflow)
    else if v < 0 then
      Ok(SignGlyph(Negative, script) + Renderer(units, count)(script, false, Magnitude(v)))
    else
      Ok(Renderer(units, count)(script, false, v))
  }

  /** The negative branch of the signed entry points, applied to the unsigned result. */
  function Negated(script: NumberScript, unsigned: Result<string, NumberToChineseError>)
    : Result<string, NumberToChineseError>
  {
    match unsigned
    case Ok(s) => Ok(SignGlyph(Negative, script) + s)
    case Err(e) => Err(OverflowAsUnderflow(e))
  }

  /** The `map_err` of the signed 下數 entry point: too large a magnitude means too small a value. */
  function OverflowAsUnderflow(e: NumberToChineseError): (f: NumberToChineseError)
    ensures f == Underflow
  {
    match e
    case Overflow => Underflow
    case _ => e
  }

  // ---------------------------------------------------------------------
  // Properties of the promised result

  /** 下數 fails exactly when |v| >= 10^16; the other methods never fail. */
  lemma RenderingFailsOnlyForLargeLow(units: UnitRenderers, count: ChineseCountMethod, script: NumberScript, v: int)
    ensures Rendering(units, count, script, v).Err? <==> count == Low && (v <= -(LOW_LIMIT as int) || LOW_LIMIT <= v)
  {
  }

  /** A negative value never overflows and a non-negative one never underflows. */
  lemma RenderingErrorFollowsSign(units: UnitRenderers, count: ChineseCountMethod, script: NumberScript, v: int)
    requires Rendering(units, count, script, v).Err?
    ensures Rendering(units, count, script, v).error == Underflow <==> v < 0
  {
  }

  /**
   * A negative value renders as its magnitude does, with 負 in front, and an
   * overflow of the magnitude is reported as an underflow.
   */
  lemma NegativeRenderingIsNegatedMagnitude(units: UnitRenderers, count: ChineseCountMethod, script: NumberScript, v: int)
    requires v < 0
    ensures Rendering(units, count, script, v) == Negated(script, Rendering(units, count, script, -v))
  {
    assert Magnitude(-v) == Magnitude(v);
  }

  /** Every value of a type of at most 32 bits is below 10^16 in magnitude, so 下數 succeeds. */
  lemma NarrowValuesFitLow(units: UnitRenderers, script: NumberScript, v: int)
    requires -0x8000_0000 <= v < U32_LIMIT
    ensures Rendering(units, Low, script, v).Ok?
  {
  }

  // ---------------------------------------------------------------------
  // Unsigned entry points

  function FromU128ToChineseLow(units: UnitRenderers, script: NumberScript, value: U128)
    : (r: Result<string, NumberToChineseError>)
    ensures r == Rendering(units, Low, script, value)
  {
    if value >= LOW_LIMIT then Err(Overflow) else Ok(units.low(script, false, value))
  }

  function FromU128ToChineseTenThousand(units: UnitRenderers, script: NumberScript, value: U128): (s: string)
    ensures Rendering(units, TenThousand, script, value) == Ok(s)
  {
    units.tenThousand(script, false, value)
  }

  function FromU128ToChineseMiddle(units: UnitRenderers, script: NumberScript, value: U128): (s: string)
    ensures Rendering(units, Middle, script, value) == Ok(s)
  {
    units.middle(script, false, value)
  }

  function FromU128ToChineseHigh(units: UnitRenderers, script: NumberScript, value: U128): (s: string)
    ensures Rendering(units, High, script, value) == Ok(s)
  {
    units.high(script, false, value)
  }

  /** The `unwrap` cannot fail: every `u8` is below 10^16. */
  function FromU8ToChinese(units: UnitRenderers, script: NumberScript, value: U8): (s: string)
    ensures Rendering(units, Low, script, value) == Ok(s)
  {
    FromU128ToChineseLow(units, script, value).value
  }

  function FromU16ToChinese(units: UnitRenderers, script: NumberScript, value: U16): (s: string)
    ensures Rendering(units, Low, script, value) == Ok(s)
  {
    FromU128ToChineseLow(units, script, value).value
  }

  function FromU32ToChineseLow(units: UnitRenderers, script: NumberScript, value: U32): (s: string)
    ensures Rendering(units, Low, script, value) == Ok(s)
  {
    FromU128ToChineseLow(units, script, value).value
  }

  function FromU32ToChineseTenThousand(units: UnitRenderers, script: NumberScript, value: U32): (s: string)
    ensures Rendering(units, TenThousand, script, value) == Ok(s)
  {
    FromU128ToChineseTenThousand(units, script, value)
  }

  function FromU32ToChineseMiddle(units: UnitRenderers, script: NumberScript, value: U32): (s: string)
    ensures Rendering(units, Middle, script, value) == Ok(s)
  {
    FromU128ToChineseMiddle(units, script, value)
  }

  function FromU32ToChineseHigh(units: UnitRenderers, script: NumberScript, value: U32): (s: string)
    ensures Rendering(units, High, script, value) == Ok(s)
  {
    FromU128ToChineseHigh(units, script, value)
  }

  function FromU64ToChineseLow(units: UnitRenderers, script: NumberScript, value: U64)
    : (r: Result<string, NumberToChineseError>)
    ensures r == Rendering(units, Low, script, value)
  {
    FromU128ToChineseLow(units, script, value)
  }

  function FromU64ToChineseTenThousand(units: UnitRenderers, script: NumberScript, value: U64): (s: string)
    ensures Rendering(units, TenThousand, script, value) == Ok(s)
  {
    FromU128ToChineseTenThousand(units, script, value)
  }

  function FromU64ToChineseMiddle(units: UnitRenderers, script: NumberScript, value: U64): (s: string)
    ensures Rendering(units, Middle, script, value) == Ok(s)
  {
    FromU128ToChineseMiddle(units, script, value)
  }

  function FromU64ToChineseHigh(units: UnitRenderers, script: NumberScript, value: U64): (s: string)
    ensures Rendering(units, High, script, value) == Ok(s)
  {
    FromU128ToChineseHigh(units, script, value)
  }

  function FromUsizeToChineseLow(units: UnitRenderers, script: NumberScript, value: Usize)
    : (r: Result<string, NumberToChineseError>)
    ensures r == Rendering(units, Low, script, value)
  {
    FromU128ToChineseLow(units, script, value)
  }

  function FromUsizeToChineseTenThousand(units: UnitRenderers, script: NumberScript, value: Usize): (s: string)
    ensures Rendering(units, TenThousand, script, value) == Ok(s)
  {
    FromU128ToChineseTenThousand(units, script, value)
  }

  function FromUsizeToChineseMiddle(units: UnitRenderers, script: NumberScript, value: Usize): (s: string)
    ensures Rendering(units, Middle, script, value) == Ok(s)
  {
    FromU128ToChineseMiddle(units, script, value)
  }

  function FromUsizeToChineseHigh(units: UnitRenderers, script: NumberScript, value: Usize): (s: string)
    ensures Rendering(units, High, script, value) == Ok(s)
  {
    FromU128ToChineseHigh(units, script, value)
  }

  // ---------------------------------------------------------------------
  // Signed entry points: the sign glyph is inserted in front of the
  // unsigned rendering of the safely negated value.

  method FromI128ToChineseLow(units: UnitRenderers, script: NumberScript, value: I128)
    returns (r: Result<string, NumberToChineseError>)
    ensures r == Rendering(units, Low, script, value)
  {
    if value < 0 {
      var magnitude := NegateToU128(value);
      var unsigned := FromU128ToChineseLow(units, script, magnitude);
      if unsigned.Err? {
        return Err(OverflowAsUnderflow(unsigned.error));
      }
      var s := unsigned.value;
      s := SignGlyph(Negative, script) + s;
      r := Ok(s);
    } else {
      r := FromU128ToChineseLow(units, script, value);
    }
  }

  method FromI128ToChineseTenThousand(units: UnitRenderers, script: NumberScript, value: I128) returns (s: string)
    ensures Rendering(units, TenThousand, script, value) == Ok(s)
  {
    if value < 0 {
      var magnitude := NegateToU128(value);
      s := FromU128ToChineseTenThousand(units, script, magnitude);
      s := SignGlyph(Negative, script) + s;
    } else {
      s := FromU128ToChineseTenThousand(units, script, value);
    }
  }

  method FromI128ToChineseMiddle(units: UnitRenderers, script: NumberScript, value: I128) returns (s: string)
    ensures Rendering(units, Middle, script, value) == Ok(s)
  {
    if value < 0 {
      var magnitude := NegateToU128(value);
      s := FromU128ToChineseMiddle(units, script, magnitude);
      s := SignGlyph(Negative, script) + s;
    } else {
      s := FromU128ToChineseMiddle(units, script, value);
    }
  }

  method FromI128ToChineseHigh(units: UnitRenderers, script: NumberScript, value: I128) returns (s: string)
    ensures Rendering(units, High, script, value) == Ok(s)
  {
    if value < 0 {
      var magnitude := NegateToU128(value);
      s := FromU128ToChineseHigh(units, script, magnitude);
      s := SignGlyph(Negative, script) + s;
    } else {
      s := FromU128ToChineseHigh(units, script, value);
    }
  }

  /** The `unwrap` cannot fail: every `i8` is below 10^16 in magnitude. */
  method FromI8ToChinese(units: UnitRenderers, script: NumberScript, value: I8) returns (s: string)
    ensures Rendering(units, Low, script, value) == Ok(s)
  {
    var r := FromI128ToChineseLow(units, script, value);
    NarrowValuesFitLow(units, script, value);
    s := r.value;
  }

  method FromI16ToChinese(units: UnitRenderers, script: NumberScript, value: I16) returns (s: string)
    ensures Rendering(units, Low, script, value) == Ok(s)
  {
    var r := FromI128ToChineseLow(units, script, value);
    NarrowValuesFitLow(units, script, value);
    s := r.value;
  }

  method FromI32ToChineseLow(units: UnitRenderers, script: NumberScript, value: I32) returns (s: string)
    ensures Rendering(units, Low, script, value) == Ok(s)
  {
    var r := FromI128ToChineseLow(units, script, value);
    NarrowValuesFitLow(units, script, value);
    s := r.value;
  }

  method FromI32ToChineseTenThousand(units: UnitRenderers, script: NumberScript, value: I32) returns (s: string)
    ensures Rendering(units, TenThousand, script, value) == Ok(s)
  {
    s := FromI128ToChineseTenThousand(units, script, value);
  }

  method FromI32ToChineseMiddle(units: UnitRenderers, script: NumberScript, value: I32) returns (s: string)
    ensures Rendering(units, Middle, script, value) == Ok(s)
  {
    s := FromI128ToChineseMiddle(units, script, value);
  }

  method FromI32ToChineseHigh(units: UnitRenderers, script: NumberScript, value: I32) returns (s: string)
    ensures Rendering(units, High, script, value) == Ok(s)
  {
    s := FromI128ToChineseHigh(units, script, value);
  }

  method FromI64ToChineseLow(units: UnitRenderers, script: NumberScript, value: I64)
    returns (r: Result<string, NumberToChineseError>)
    ensures r == Rendering(units, Low, script, value)
  {
    r := FromI128ToChineseLow(units, script, value);
  }

  method FromI64ToChineseTenThousand(units: UnitRenderers, script: NumberScript, value: I64) returns (s: string)
    ensures Rendering(units, TenThousand, script, value) == Ok(s)
  {
    s := FromI128ToChineseTenThousand(units, script, value);
  }

  method FromI64ToChineseMiddle(units: UnitRenderers, script: NumberScript, value: I64) returns (s: string)
    ensures Rendering(units, Middle, script, value) == Ok(s)
  {
    s := FromI128ToChineseMiddle(units, script, value);
  }

  method FromI64ToChineseHigh(units: UnitRenderers, script: NumberScript, value: I64) returns (s: string)
    ensures Rendering(units, High, script, value) == Ok(s)
  {
    s := FromI128ToChineseHigh(units, script, value);
  }

  method FromIsizeToChineseLow(units: UnitRenderers, script: NumberScript, value: Isize)
    returns (r: Result<string, NumberToChineseError>)
    ensures r == Rendering(units, Low, script, value)
  {
    r := FromI128ToChineseLow(units, script, value);
  }

  method FromIsizeToChineseTenThousand(units: UnitRenderers, script: NumberScript, value: Isize) returns (s: string)
    ensures Rendering(units, TenThousand, script, value) == Ok(s)
  {
    s := FromI128ToChineseTenThousand(units, script, value);
  }

  method FromIsizeToChineseMiddle(units: UnitRenderers, script: NumberScript, value: Isize) returns (s: string)
    ensures Rendering(units, Middle, script, value) == Ok(s)
  {
    s := FromI128ToChineseMiddle(units, script, value);
  }

  method FromIsizeToChineseHigh(units: UnitRenderers, script: NumberScript, value: Isize) returns (s: string)
    ensures Rendering(units, High, script, value) == Ok(s)
  {
    s := FromI128ToChineseHigh(units, script, value);
  }
}
