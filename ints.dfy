/** Fixed-width integers of the C++ source and the casts between them. */
module Ints {

  const TwoTo32: int := 0x1_0000_0000

  /** uint32_t */
  type u32 = x: int | 0 <= x < 0x1_0000_0000

  /** int32_t */
  type i32 = x: int | -0x8000_0000 <= x < 0x8000_0000

  /**
   * A double that `static_cast<uint32_t>` converts without undefined
   * behaviour: one whose truncation toward zero fits in a uint32_t.
   */
  type U32Castable = x: real | -1.0 < x < 4294967296.0

  /** `r` is `x` with its fractional part discarded (truncation toward zero). */
  ghost predicate TruncatesTo(x: real, r: int) {
    if x < 0.0 then r as real - 1.0 < x <= r as real
    else r as real <= x < r as real + 1.0
  }

  /** `static_cast<uint32_t>(i)` of an int32_t: the value modulo 2^32. */
  function AsU32(i: i32): (r: u32)
    ensures (r - i) % TwoTo32 == 0
    ensures 0 <= i ==> r == i
    ensures i < 0 ==> r >= 0x8000_0000
  {
    if i < 0 then i + TwoTo32 else i
  }

  /** `static_cast<uint32_t>(x)` of a double in range: truncation toward zero. */
  function TruncateToU32(x: U32Castable): (r: u32)
    ensures TruncatesTo(x, r)
    ensures x < 0.0 ==> r == 0
  {
    if x < 0.0 then 0 else x.Floor
  }
}
