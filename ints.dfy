/** Java's fixed-width integers, as ranges of Dafny's unbounded int. */
module Ints {

  const INT32_MIN: int := -0x8000_0000
  const INT32_MAX: int := 0x7fff_ffff
  const INT64_MIN: int := -0x8000_0000_0000_0000
  const INT64_MAX: int := 0x7fff_ffff_ffff_ffff

  /** Java `int` / `Integer`. */
  type int32 = x: int | INT32_MIN <= x <= INT32_MAX

  /** Java `long` / `Long`. */
  type int64 = x: int | INT64_MIN <= x <= INT64_MAX

  predicate FitsInt32(x: int) {
    INT32_MIN <= x <= INT32_MAX
  }
}
