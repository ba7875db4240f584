/**
 * Rust's fixed-width integer types as subset types of `int`. A cast from a
 * narrower type to `u128`/`i128` never changes the value, so widening is
 * the identity here. `usize`/`isize` are given the 64-bit range, which
 * contains the 32-bit one.
 */
module Widths {

  /** One past the largest `u32`, the bound of the narrow widths. */
  const U32_LIMIT: int := 0x1_0000_0000

  type U8 = x: int | 0 <= x < 0x100
  type U16 = x: int | 0 <= x < 0x1_0000
  type U32 = x: int | 0 <= x < 0x1_0000_0000
  type U64 = x: int | 0 <= x < 0x1_0000_0000_0000_0000
  type U128 = x: int | 0 <= x < 0x1_0000_0000_0000_0000_0000_0000_0000_0000
  type Usize = x: int | 0 <= x < 0x1_0000_0000_0000_0000

  type I8 = x: int | -0x80 <= x < 0x80
  type I16 = x: int | -0x8000 <= x < 0x8000
  type I32 = x: int | -0x8000_0000 <= x < 0x8000_0000
  type I64 = x: int | -0x8000_0000_0000_0000 <= x < 0x8000_0000_0000_0000
  type I128 = x: int | -0x8000_0000_0000_0000_0000_0000_0000_0000 <= x < 0x8000_0000_0000_0000_0000_0000_0000_0000
  type Isize = x: int | -0x8000_0000_0000_0000 <= x < 0x8000_0000_0000_0000

  /**
   * `-(value + 1) as u128 + 1`: the magnitude of a negative `i128`, computed
   * so that no step leaves its type, `i128::MIN` included. Each typed local
   * below is a range check.
   */
  method NegateToU128(value: I128) returns (magnitude: U128)
    requires value < 0
    ensures magnitude as int == -(value as int)
  {
    var plusOne: I128 := value + 1;
    var negated: I128 := -plusOne;
    var widened: U128 := negated;
    magnitude := widened + 1;
  }
}
