/** Rust's fixed-width unsigned integers as bounded subsets of `int`. */
module Numeric {

  const U16_LIMIT: int := 0x1_0000
  const U32_LIMIT: int := 0x1_0000_0000
  const U64_LIMIT: int := 0x1_0000_0000_0000_0000

  type U8 = x: int | 0 <= x < 0x100
  type U16 = x: int | 0 <= x < 0x1_0000
  type U32 = x: int | 0 <= x < 0x1_0000_0000
  type U64 = x: int | 0 <= x < 0x1_0000_0000_0000_0000

  /** The cast `x as u16` from a `u64`: keeps the low 16 bits. */
  function AsU16(x: U64): (r: U16)
    ensures x < U16_LIMIT ==> r == x
    ensures (x - r) % U16_LIMIT == 0
  {
    x % U16_LIMIT
  }

  /** The cast `x as u32` from a `u64`: keeps the low 32 bits. */
  function AsU32(x: U64): (r: U32)
    ensures x < U32_LIMIT ==> r == x
    ensures (x - r) % U32_LIMIT == 0
  {
    x % U32_LIMIT
  }
}
