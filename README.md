# conjak numbers, modelled in Dafny

conjak writes numbers in Chinese, Japanese and Korean numerals. This model
covers four parts of it:

- the glyph tables: digits 零..十, units 分..極, the sign and the decimal point,
  for each script family (simplified Chinese, traditional Chinese, Japanese,
  Korean) and style (upper case; lower case with or without 〇 for zero);
- the *naive* renderer, which writes a number digit by digit with no units
  (12 in simplified upper case is 壹贰),
  for every Rust integer width;
- the integer entry points of the unit-placing renderer, one per width and
  counting method (下數 `Low`, 萬進 `TenThousand`, 中數 `Middle`, 上數 `High`).
  They hold the 下數 range guard, the overflow-free negation of signed values,
  the remapping of Overflow to Underflow for negative values and the minus
  glyph in front. The `NumberToChinese` dispatch of each integer type is
  modelled on top of them;
- the two separator front ends. Each groups a `u64` into chunks of four
  decimal digits and writes every chunk in ASCII digits, followed by the
  large-unit word of its position (万, 億, 兆, ...). `separate_number`
  (ten-thousand front end) and `separate` (library front end) skip zero
  chunks; `separate_with_custom` prints them. Each front end also dispatches
  a decoded request.

The files follow the source. `chinese_case.dfy`, `chinese_count_method.dfy`
and `number_to_chinese_error.dfy` hold the enums. `chinese_characters.dfy`
holds the tables, `naive.dfy` the naive renderer, `number_to_chinese.dfy` the
entry points and `traits.dfy` the trait dispatch. `sep_10000.dfy` and
`thousand_separators.dfy` are the two separator front ends. Support modules
hold shared pieces: `results.dfy` (Option, Result), `widths.dfy` (Rust
integer widths as subset types, and the safe i128 negation), `positional.dfy`
(decimal digits, powers, decimal strings) and `grouping.dfy` (the chunked
form both front ends print and its loop invariant).

Each loop of the source is a method with a `while` loop, proved equal to a
reference function: the naive digit loop to `NaiveRendering`, and the three
separator loops to `Grouped`. The integer entry points have no loops; each
of them, and each trait dispatch, is proved to return `Rendering`. The
lemmas state what the source promises about those functions: injectivity
and lengths of the naive rendering, when the entry points fail and with
which error, and how the separator front ends relate to each other.

`Rendering(units, count, script, v)` is the result every integer entry point
promises. It takes the four unit-placing renderers as a parameter, because
their unit placement is not modelled (see below). The renderers also take a
boolean flag whose meaning is not visible in the modelled code; the integer
entry points always pass `false` for it, and so does the model.

## Model

| member | source | states |
|---|---|---|
| ChineseCharacters.NumberFromOrdinal | conjak-numbers/src/chinese_characters.rs:5-23 | the checked replacement for `from_ordinal_unsafe`: only ordinals 0..=10 are accepted, and the digit returned has exactly the requested ordinal |
| ChineseCharacters.NumberGlyph | conjak-numbers/src/chinese_characters.rs:26-105 | every digit has exactly one glyph in every script and style |
| ChineseCharacters.ZeroGlyphRule | conjak-numbers/src/chinese_characters.rs:26-105 | zero is 〇 exactly for a non-Korean lower-case script with circle-as-zero, 영 exactly for Korean, and 零 in every other case |
| ChineseCharacters.KoreanIgnoresStyle | conjak-numbers/src/chinese_characters.rs:26-252 | Korean digit and unit glyphs, and both sign glyphs, are the same whatever the style |
| ChineseCharacters.JapaneseUpperSubstitutes | conjak-numbers/src/chinese_characters.rs:26-105 | Japanese upper case differs from lower case exactly for 一 二 三 and 十, and for zero against a lower case that prints 〇; 四..九 keep the everyday glyphs |
| ChineseCharacters.JapaneseUpperTenDigitAndUnit | conjak-numbers/src/chinese_characters.rs:26-227 | in Japanese upper case the digit ten is 拾 while the unit ten stays 十, and the units 十 百 千 keep their lower-case glyphs |
| ChineseCharacters.NumberGlyphsDistinct | conjak-numbers/src/chinese_characters.rs:26-105 | within one script and style, two digits share a glyph if and only if they are the same digit |
| ChineseCharacters.ExponentFromOrdinal | conjak-numbers/src/chinese_characters.rs:109-133 | ordinals 0..17 name the units 分 .. 極, and the unit returned has the requested ordinal |
| ChineseCharacters.ExponentOrdinalRoundTrip | conjak-numbers/src/chinese_characters.rs:109-133 | ordinal and from-ordinal are inverse in both directions on 0..17 |
| ChineseCharacters.ExponentOrderIsTotal | conjak-numbers/src/chinese_characters.rs:109-133 | the derived order of the units is irreflexive, transitive and total, and follows the declaration from 分 up to 極 |
| ChineseCharacters.ExponentGlyph | conjak-numbers/src/chinese_characters.rs:136-227 | every unit has exactly one glyph in every script and style |
| ChineseCharacters.UnitStyleRule | conjak-numbers/src/chinese_characters.rs:136-227 | only 十 百 千 can depend on the style, and they do in simplified and traditional Chinese; every other unit depends on the script family alone; 萬 is 万 in simplified Chinese and Japanese and 萬 in traditional |
| ChineseCharacters.SignGlyph | conjak-numbers/src/chinese_characters.rs:239-252 | each sign has exactly one glyph in every script |
| ChineseCharacters.PointGlyph | conjak-numbers/src/chinese_characters.rs:259-266 | the decimal point has exactly one glyph in every script |
| ChineseCharacters.SignAndPointRule | conjak-numbers/src/chinese_characters.rs:239-266 | the minus sign is 负 exactly in simplified Chinese, 부 exactly in Korean, and 負 in every other script; the plus sign is 정 in Korean and 正 elsewhere; the point is 點 exactly in traditional Chinese, 점 exactly in Korean, and 点 in every other script |
| ChineseCharacters.SignAndPointAreNotDigits | conjak-numbers/src/chinese_characters.rs:26-266 | neither the minus sign nor the point is the glyph of any digit in the same script |
| Positional.Magnitude | conjak-numbers/src/number_to_chinese/mod.rs:284-285 | the magnitude of a value is the value or its negation, and equals the value exactly when the value is not negative |
| Widths.NegateToU128 | conjak-numbers/src/number_to_chinese/mod.rs:284-285 | the two-step negation `-(value + 1) as u128 + 1` never overflows for a negative i128, i128::MIN included, and yields exactly the magnitude |
| Positional.DecimalDigits | conjak-numbers/src/number_to_chinese/naive.rs:26-31 | the digits peeled off by repeated division by 10: none for 0, no leading zero, the last one is the value mod 10 |
| Positional.ValueOfDecimalDigits | conjak-numbers/src/number_to_chinese/naive.rs:26-33 | reading the peeled digits back, most significant first, gives the value again |
| Positional.DecimalDigitsOfValue | conjak-numbers/src/number_to_chinese/naive.rs:26-33 | conversely, a digit sequence without a leading zero is the peeled digit sequence of its own value |
| Positional.DigitCountBounds | conjak-numbers/src/number_to_chinese/naive.rs:26-33 | a positive value with n digits lies between 10^(n-1) and 10^n |
| Positional.DecimalDigitAt | conjak-numbers/src/number_to_chinese/naive.rs:26-33 | digit k of a value is (value / 10^(n-1-k)) mod 10 |
| Positional.DecimalString | src/models/sep_10000.rs:64-66 | the `{}` formatting of a chunk is a non-empty string of ASCII digits whose first character is 0 only for the value 0 |
| Positional.DecimalStringRoundTrip | src/models/sep_10000.rs:64-66 | reading the formatted digits back gives the formatted value |
| Naive.UnsignedIntegerToChinese | conjak-numbers/src/number_to_chinese/naive.rs:16-57 | for the u128 and the big-integer variant alike, the digit loop (0 gives the zero glyph; otherwise digits are collected least significant first and emitted reversed) yields `NaiveRendering`: one digit glyph per decimal digit, most significant first |
| Naive.CollectReversed | conjak-numbers/src/number_to_chinese/naive.rs:33 | emitting the collected digits reversed is `ReversedGlyphs` of them |
| Naive.ReversedGlyphsOfDigits | conjak-numbers/src/number_to_chinese/naive.rs:26-33 | the digits collected least significant first, emitted in reverse, are the glyphs of the decimal digits in order |
| Naive.GlyphStringInjective | conjak-numbers/src/number_to_chinese/naive.rs:16-34 | different digit sequences give different glyph strings in every script |
| Naive.NaiveRenderingAt | conjak-numbers/src/number_to_chinese/naive.rs:16-34 | character k of the naive rendering is the glyph of decimal digit k |
| Naive.NaiveRenderingGlyphs | conjak-numbers/src/number_to_chinese/naive.rs:16-34 | every character is the glyph of a digit 0..9, and a positive value never starts with the zero glyph; this is stated through digits because some unit glyphs coincide with digit glyphs (in Korean both the digit 九 and the unit 溝 are 구) |
| Naive.NaiveRenderingLength | conjak-numbers/src/number_to_chinese/naive.rs:16-34 | 0 renders as the zero glyph alone; a positive value renders in exactly as many glyphs as it has decimal digits |
| Naive.NaiveRenderingInjective | conjak-numbers/src/number_to_chinese/naive.rs:16-34 | different non-negative values render differently in every script |
| Naive.SignedNaiveRenderingInjective | conjak-numbers/src/number_to_chinese/naive.rs:183-199 | different signed values render differently in every script |
| Naive.SignedNaiveRenderingSignsDiffer | conjak-numbers/src/number_to_chinese/naive.rs:183-199 | a negative and a non-negative value never render alike, since a digit glyph is never the minus sign |
| Naive.SignedNaiveRenderingParts | conjak-numbers/src/number_to_chinese/naive.rs:183-199 | a negative value renders as the minus glyph followed by the rendering of its magnitude; a non-negative one renders unsigned |
| Naive.SignBeforeDigits | conjak-numbers/src/number_to_chinese/naive.rs:183-199 | the unsigned rendering never starts with the minus glyph |
| Naive.NaiveLengthAtMost | conjak-numbers/src/number_to_chinese/naive.rs:16-34 | a value below 10^n renders in between 1 and n glyphs |
| Naive.SignedNaiveLengthAtMost | conjak-numbers/src/number_to_chinese/naive.rs:183-199 | a value of magnitude below 10^n renders in between 1 and n + 1 glyphs |
| Naive.NaiveRenderingExampleLower | conjak-numbers/src/number_to_chinese/traits.rs:33-37 | 123456789 in simplified lower case is 一二三四五六七八九 |
| Naive.NaiveRenderingExampleUpper | conjak-numbers/src/number_to_chinese/naive.rs:16-34 | 12 in simplified upper case is 壹贰, digit by digit with no unit |
| Naive.NaiveRenderingExampleKorean | conjak-numbers/src/number_to_chinese/naive.rs:183-199 | -105 in Korean is 부일영오 |
| Naive.FromU128ToChineseNaive | conjak-numbers/src/number_to_chinese/naive.rs:129-136 | the result is the naive rendering of the value, between 1 and 39 glyphs long |
| Naive.FromU8ToChineseNaive | conjak-numbers/src/number_to_chinese/naive.rs:93-100 | the result is the naive rendering of the value, between 1 and 3 glyphs long |
| Naive.FromU16ToChineseNaive | conjak-numbers/src/number_to_chinese/naive.rs:102-109 | the result is the naive rendering of the value, between 1 and 5 glyphs long |
| Naive.FromU32ToChineseNaive | conjak-numbers/src/number_to_chinese/naive.rs:111-118 | the result is the naive rendering of the value, between 1 and 10 glyphs long |
| Naive.FromU64ToChineseNaive | conjak-numbers/src/number_to_chinese/naive.rs:120-127 | the result is the naive rendering of the value, between 1 and 20 glyphs long |
| Naive.FromUsizeToChineseNaive | conjak-numbers/src/number_to_chinese/naive.rs:138-145 | the result is the naive rendering of the value, between 1 and 20 glyphs long |
| Naive.FromI128ToChineseNaive | conjak-numbers/src/number_to_chinese/naive.rs:183-199 | the result is the signed naive rendering of the value, between 1 and 40 glyphs long; a negative value is negated without overflow, i128::MIN included, and the minus glyph is put in front |
| Naive.FromI8ToChineseNaive | conjak-numbers/src/number_to_chinese/naive.rs:147-154 | the result is the signed naive rendering of the value, between 1 and 4 glyphs long |
| Naive.FromI16ToChineseNaive | conjak-numbers/src/number_to_chinese/naive.rs:156-163 | the result is the signed naive rendering of the value, between 1 and 6 glyphs long |
| Naive.FromI32ToChineseNaive | conjak-numbers/src/number_to_chinese/naive.rs:165-172 | the result is the signed naive rendering of the value, between 1 and 11 glyphs long |
| Naive.FromI64ToChineseNaive | conjak-numbers/src/number_to_chinese/naive.rs:174-181 | the result is the signed naive rendering of the value, between 1 and 20 glyphs long |
| Naive.FromIsizeToChineseNaive | conjak-numbers/src/number_to_chinese/naive.rs:201-208 | the result is the signed naive rendering of the value, between 1 and 20 glyphs long |
| NumberToChinese.OverflowAsUnderflow | conjak-numbers/src/number_to_chinese/mod.rs:285-289 | the error remap of the signed 下數 entry point always reports an underflow |
| NumberToChinese.RenderingFailsOnlyForLargeLow | conjak-numbers/src/number_to_chinese/mod.rs:109-120 | an entry point fails exactly when 下數 is asked for a magnitude of 10^16 or more; 萬進, 中數 and 上數 never fail |
| NumberToChinese.RenderingErrorFollowsSign | conjak-numbers/src/number_to_chinese/mod.rs:277-297 | a failure is an underflow exactly when the value is negative, and an overflow otherwise |
| NumberToChinese.NegativeRenderingIsNegatedMagnitude | conjak-numbers/src/number_to_chinese/mod.rs:277-353 | a negative value gives the result for its magnitude with the minus glyph in front, an overflow of the magnitude reported as an underflow |
| NumberToChinese.NarrowValuesFitLow | conjak-numbers/src/number_to_chinese/mod.rs:19-71 | every value of at most 32 bits is below 10^16 in magnitude, so 下數 succeeds and the `unwrap` of the narrow entry points cannot panic |
| NumberToChinese.FromU128ToChineseLow | conjak-numbers/src/number_to_chinese/mod.rs:109-120 | the result is the promised 下數 result: Overflow for 10^16 or more, else the 下數 renderer's output |
| NumberToChinese.FromU128ToChineseTenThousand | conjak-numbers/src/number_to_chinese/mod.rs:122-129 | the result is the promised 萬進 result, which never fails |
| NumberToChinese.FromU128ToChineseMiddle | conjak-numbers/src/number_to_chinese/mod.rs:131-138 | the result is the promised 中數 result, which never fails |
| NumberToChinese.FromU128ToChineseHigh | conjak-numbers/src/number_to_chinese/mod.rs:140-147 | the result is the promised 上數 result, which never fails |
| NumberToChinese.FromU8ToChinese | conjak-numbers/src/number_to_chinese/mod.rs:19-26 | the result is the promised 下數 result, which for this width always succeeds |
| NumberToChinese.FromU16ToChinese | conjak-numbers/src/number_to_chinese/mod.rs:28-35 | the result is the promised 下數 result, which for this width always succeeds |
| NumberToChinese.FromU32ToChineseLow | conjak-numbers/src/number_to_chinese/mod.rs:37-44 | the result is the promised 下數 result, which for this width always succeeds |
| NumberToChinese.FromU32ToChineseTenThousand | conjak-numbers/src/number_to_chinese/mod.rs:46-53 | the result is the promised 萬進 result, which never fails |
| NumberToChinese.FromU32ToChineseMiddle | conjak-numbers/src/number_to_chinese/mod.rs:55-62 | the result is the promised 中數 result, which never fails |
| NumberToChinese.FromU32ToChineseHigh | conjak-numbers/src/number_to_chinese/mod.rs:64-71 | the result is the promised 上數 result, which never fails |
| NumberToChinese.FromU64ToChineseLow | conjak-numbers/src/number_to_chinese/mod.rs:73-80 | the result is the promised 下數 result: Overflow for 10^16 or more, else the 下數 renderer's output |
| NumberToChinese.FromU64ToChineseTenThousand | conjak-numbers/src/number_to_chinese/mod.rs:82-89 | the result is the promised 萬進 result, which never fails |
| NumberToChinese.FromU64ToChineseMiddle | conjak-numbers/src/number_to_chinese/mod.rs:91-98 | the result is the promised 中數 result, which never fails |
| NumberToChinese.FromU64ToChineseHigh | conjak-numbers/src/number_to_chinese/mod.rs:100-107 | the result is the promised 上數 result, which never fails |
| NumberToChinese.FromUsizeToChineseLow | conjak-numbers/src/number_to_chinese/mod.rs:149-156 | the result is the promised 下數 result: Overflow for 10^16 or more, else the 下數 renderer's output |
| NumberToChinese.FromUsizeToChineseTenThousand | conjak-numbers/src/number_to_chinese/mod.rs:158-165 | the result is the promised 萬進 result, which never fails |
| NumberToChinese.FromUsizeToChineseMiddle | conjak-numbers/src/number_to_chinese/mod.rs:167-174 | the result is the promised 中數 result, which never fails |
| NumberToChinese.FromUsizeToChineseHigh | conjak-numbers/src/number_to_chinese/mod.rs:176-183 | the result is the promised 上數 result, which never fails |
| NumberToChinese.FromI128ToChineseLow | conjak-numbers/src/number_to_chinese/mod.rs:277-297 | the result is the promised signed 下數 result: Underflow below -10^16 + 1, Overflow from 10^16, else the minus glyph (when negative) and the renderer's output for the magnitude |
| NumberToChinese.FromI128ToChineseTenThousand | conjak-numbers/src/number_to_chinese/mod.rs:299-317 | the result is the promised signed 萬進 result, which never fails; the magnitude is taken without overflow |
| NumberToChinese.FromI128ToChineseMiddle | conjak-numbers/src/number_to_chinese/mod.rs:319-335 | the result is the promised signed 中數 result, which never fails; the magnitude is taken without overflow |
| NumberToChinese.FromI128ToChineseHigh | conjak-numbers/src/number_to_chinese/mod.rs:337-353 | the result is the promised signed 上數 result, which never fails; the magnitude is taken without overflow |
| NumberToChinese.FromI8ToChinese | conjak-numbers/src/number_to_chinese/mod.rs:187-194 | the result is the promised signed 下數 result, which for this width always succeeds |
| NumberToChinese.FromI16ToChinese | conjak-numbers/src/number_to_chinese/mod.rs:196-203 | the result is the promised signed 下數 result, which for this width always succeeds |
| NumberToChinese.FromI32ToChineseLow | conjak-numbers/src/number_to_chinese/mod.rs:205-212 | the result is the promised signed 下數 result, which for this width always succeeds |
| NumberToChinese.FromI32ToChineseTenThousand | conjak-numbers/src/number_to_chinese/mod.rs:214-221 | the result is the promised signed 萬進 result, which never fails; the magnitude is taken without overflow |
| NumberToChinese.FromI32ToChineseMiddle | conjak-numbers/src/number_to_chinese/mod.rs:223-230 | the result is the promised signed 中數 result, which never fails; the magnitude is taken without overflow |
| NumberToChinese.FromI32ToChineseHigh | conjak-numbers/src/number_to_chinese/mod.rs:232-239 | the result is the promised signed 上數 result, which never fails; the magnitude is taken without overflow |
| NumberToChinese.FromI64ToChineseLow | conjak-numbers/src/number_to_chinese/mod.rs:241-248 | the result is the promised signed 下數 result: Underflow below -10^16 + 1, Overflow from 10^16, else the minus glyph (when negative) and the renderer's output for the magnitude |
| NumberToChinese.FromI64ToChineseTenThousand | conjak-numbers/src/number_to_chinese/mod.rs:250-257 | the result is the promised signed 萬進 result, which never fails; the magnitude is taken without overflow |
| NumberToChinese.FromI64ToChineseMiddle | conjak-numbers/src/number_to_chinese/mod.rs:259-266 | the result is the promised signed 中數 result, which never fails; the magnitude is taken without overflow |
| NumberToChinese.FromI64ToChineseHigh | conjak-numbers/src/number_to_chinese/mod.rs:268-275 | the result is the promised signed 上數 result, which never fails; the magnitude is taken without overflow |
| NumberToChinese.FromIsizeToChineseLow | conjak-numbers/src/number_to_chinese/mod.rs:355-362 | the result is the promised signed 下數 result: Underflow below -10^16 + 1, Overflow from 10^16, else the minus glyph (when negative) and the renderer's output for the magnitude |
| NumberToChinese.FromIsizeToChineseTenThousand | conjak-numbers/src/number_to_chinese/mod.rs:364-371 | the result is the promised signed 萬進 result, which never fails; the magnitude is taken without overflow |
| NumberToChinese.FromIsizeToChineseMiddle | conjak-numbers/src/number_to_chinese/mod.rs:373-380 | the result is the promised signed 中數 result, which never fails; the magnitude is taken without overflow |
| NumberToChinese.FromIsizeToChineseHigh | conjak-numbers/src/number_to_chinese/mod.rs:382-389 | the result is the promised signed 上數 result, which never fails; the magnitude is taken without overflow |
| NumberToChineseTraits.U128ToChinese | conjak-numbers/src/number_to_chinese/traits.rs:195-215 | dispatching on the counting method gives the promised result, and the only possible error is an Overflow under 下數 |
| NumberToChineseTraits.U8ToChinese | conjak-numbers/src/number_to_chinese/traits.rs:43-50 | widening to u128 gives the promised result, which always succeeds |
| NumberToChineseTraits.U16ToChinese | conjak-numbers/src/number_to_chinese/traits.rs:81-88 | widening to u128 gives the promised result, which always succeeds |
| NumberToChineseTraits.U32ToChinese | conjak-numbers/src/number_to_chinese/traits.rs:119-126 | widening to u128 gives the promised result, which always succeeds |
| NumberToChineseTraits.U64ToChinese | conjak-numbers/src/number_to_chinese/traits.rs:157-164 | widening to u128 gives the promised result |
| NumberToChineseTraits.I128ToChinese | conjak-numbers/src/number_to_chinese/traits.rs:227-247 | dispatching gives the promised result; an error only arises under 下數, and it is an underflow exactly when the value is negative |
| NumberToChineseTraits.I8ToChinese | conjak-numbers/src/number_to_chinese/traits.rs:62-69 | widening to i128 gives the promised result, which always succeeds |
| NumberToChineseTraits.I16ToChinese | conjak-numbers/src/number_to_chinese/traits.rs:100-107 | widening to i128 gives the promised result, which always succeeds |
| NumberToChineseTraits.I32ToChinese | conjak-numbers/src/number_to_chinese/traits.rs:138-145 | widening to i128 gives the promised result, which always succeeds |
| NumberToChineseTraits.I64ToChinese | conjak-numbers/src/number_to_chinese/traits.rs:176-183 | widening to i128 gives the promised result |
| NumberToChineseTraits.U8ToChineseNaive | conjak-numbers/src/number_to_chinese/traits.rs:52-58 | the naive conversion of the value is its naive rendering |
| NumberToChineseTraits.U16ToChineseNaive | conjak-numbers/src/number_to_chinese/traits.rs:90-96 | the naive conversion of the value is its naive rendering |
| NumberToChineseTraits.U32ToChineseNaive | conjak-numbers/src/number_to_chinese/traits.rs:128-134 | the naive conversion of the value is its naive rendering |
| NumberToChineseTraits.U64ToChineseNaive | conjak-numbers/src/number_to_chinese/traits.rs:166-172 | the naive conversion of the value is its naive rendering |
| NumberToChineseTraits.U128ToChineseNaive | conjak-numbers/src/number_to_chinese/traits.rs:217-223 | the naive conversion of the value is its naive rendering |
| NumberToChineseTraits.I8ToChineseNaive | conjak-numbers/src/number_to_chinese/traits.rs:71-77 | the naive conversion of the value is its signed naive rendering |
| NumberToChineseTraits.I16ToChineseNaive | conjak-numbers/src/number_to_chinese/traits.rs:109-115 | the naive conversion of the value is its signed naive rendering |
| NumberToChineseTraits.I32ToChineseNaive | conjak-numbers/src/number_to_chinese/traits.rs:147-153 | the naive conversion of the value is its signed naive rendering |
| NumberToChineseTraits.I64ToChineseNaive | conjak-numbers/src/number_to_chinese/traits.rs:185-191 | the naive conversion of the value is its signed naive rendering |
| NumberToChineseTraits.I128ToChineseNaive | conjak-numbers/src/number_to_chinese/traits.rs:249-255 | the naive conversion of the value is its signed naive rendering |
| NumberToChineseTraits.ToChineseNaiveExample | conjak-numbers/src/number_to_chinese/traits.rs:33-37 | the documented call on the i32 literal 123456789 in simplified lower case gives 一二三四五六七八九 |
| Grouping.TurnFirst | src/models/sep_10000.rs:65-67 | printing the lowest non-skipped chunk first, as bare digits, keeps the loop invariant |
| Grouping.TurnLater | src/models/sep_10000.rs:58-64 | putting a chunk and the separator of its position in front of what is built keeps the loop invariant |
| Grouping.TurnSkippingZero | src/models/sep_10000.rs:53-56 | skipping a zero chunk while still advancing the position keeps the loop invariant |
| Grouping.LoopDone | src/models/sep_10000.rs:49-71 | when nothing remains, what is built is the whole grouped form |
| Grouping.ChunkIsPositional | src/models/sep_10000.rs:50-51 | the chunk at position i is digits 4i .. 4i+3 of the value: (v / 10000^i) mod 10000 |
| Grouping.GroupedIsPieces | src/models/sep_10000.rs:49-69 | the grouped form lists the chunks from the most significant down, the chunk at position i followed by separator i (none for position 0 or past the table), zero chunks left out when skipped |
| Grouping.GroupedNonEmpty | src/models/sep_10000.rs:49-69 | a positive value never groups to the empty string |
| Grouping.NoZeroChunkMeansNoSkip | src/lib.rs:72-99 | when no chunk is zero, skipping zero chunks or printing them makes no difference |
| Grouping.ZeroChunkKeepsPositions | src/models/sep_10000.rs:53-56 | a skipped zero chunk still advances the position, so the chunk above it keeps the separator of its own position |
| TenThousandSeparators.GetTenThousandSeparators | src/models/sep_10000.rs:26-38 | fails exactly for a language other than ja, ko and zh, carrying both; ja and ko ignore the region; zh is traditional exactly for HK, MO and TW and simplified for every other region; every table has 12 words |
| TenThousandSeparators.SeparateNumber | src/models/sep_10000.rs:40-72 | "0" for zero, else the grouped form with zero chunks skipped |
| TenThousandSeparators.InnerSepByTenThousands | src/models/sep_10000.rs:74-105 | custom separators win; otherwise the language picks the table with an absent region read as "", an unsupported language fails, and a region without a language or no source at all is refused |
| TenThousandSeparators.JapaneseTableIsUnitGlyphs | src/models/sep_10000.rs:13-15 | the Japanese table is the Japanese glyphs of the units 萬 .. 極 in order, whatever the style |
| TenThousandSeparators.KoreanTableIsUnitGlyphs | src/models/sep_10000.rs:16-18 | the Korean table is the Korean glyphs of the units 萬 .. 極 in order |
| TenThousandSeparators.SimplifiedTableIsUnitGlyphs | src/models/sep_10000.rs:19-21 | the simplified table is the simplified Chinese glyphs of the units 萬 .. 極 in order |
| TenThousandSeparators.TraditionalTableIsUnitGlyphs | src/models/sep_10000.rs:22-24 | the traditional table is the traditional Chinese glyphs of the units 萬 .. 極 in order |
| TenThousandSeparators.SeparatedExampleJapanese | src/models/sep_10000.rs:40-72 | in Japanese 10001 prints as 1万1 and 10000 as 1万: no zero padding, and a zero low chunk vanishes |
| TenThousandSeparators.SeparatedExampleGap | src/models/sep_10000.rs:53-64 | in traditional Chinese 100000005 prints as 1億5: the zero middle chunk vanishes and the top chunk keeps the word of its own position |
| TenThousandSeparators.SeparatedIsNeverEmpty | src/models/sep_10000.rs:40-72 | something is always printed: "0" for zero, at least the top chunk otherwise |
| ThousandSeparators.GetThousandSeparators | src/lib.rs:27-39 | the library front end chooses exactly the table the ten-thousand front end chooses, errors included |
| ThousandSeparators.Separate | src/lib.rs:41-70 | an unsupported language fails; otherwise the grouped form with zero chunks skipped, so 0 prints as the empty string |
| ThousandSeparators.SeparateWithCustom | src/lib.rs:72-99 | "0" for zero, else the grouped form with every chunk printed, a zero chunk as "0" |
| ThousandSeparators.InnerSepByThousands | src/lib.rs:106-127 | custom separators win and print every chunk; otherwise the language picks the table with an absent region read as ""; a region without a language or no source at all is refused |
| ThousandSeparators.SeparateAgreesWithTenThousandsExceptAtZero | src/lib.rs:41-70 | `separate` prints what `separate_number` prints for every value but 0, where it prints "" instead of "0" |
| ThousandSeparators.CustomSeparatedPrintsZeroGroups | src/lib.rs:72-99 | with custom separators 10000 prints as 1, the first word, then 0: zero chunks are not skipped |
| ThousandSeparators.CustomAgreesWhenNoGroupIsZero | src/lib.rs:72-99 | when no chunk of the value is zero, custom separators print exactly as `separate_number` does with the same words |

## Left out

- Floating-point entry points (`from_f32_*`, `from_f64_*`, `positive_float_to_chinese` and the f32/f64 trait impls): floating point is not modelled.
- The unit-placing renderers of the four counting methods (`unsigned_integer_to_chinese_low` and its siblings) are not part of this model. The entry points receive them as the parameter `UnitRenderers`, so their output is taken as given.
- `big_unsigned_integer_to_chinese` is covered by `Naive.UnsignedIntegerToChinese`, whose value is unbounded. BigUint arithmetic itself is not modelled.
- `usize`/`isize` are modelled as 64 bits wide. On a 32-bit target every value is also a 64-bit value, so each property still holds.
- `traits.rs` has no `usize`/`isize` implementations, so the model has none either.
- CBOR decoding of the request, conversion of the result to UTF-8 bytes, the WASM export wrapper `sep_by_thousands` and the text of the error messages are left out. `SepInput` is the decoded request, and `SeparatorError` names each failure without its message.
- `number_to_text.rs` and `lunar.rs` are not part of this model.
- Glyph strings are one Unicode code point each. The model keeps them as one-character strings and does not model any byte encoding.
- Positional.DecimalString: states the digit string and its round trip, but not Rust's formatting machinery.
