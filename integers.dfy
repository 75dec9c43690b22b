/** Fixed-width unsigned integers of the source, as bounded subsets of int. */
module Integers {
  const U8_MAX: int := 0xFF
  const U16_MAX: int := 0xFFFF

  type u8 = x: int | 0 <= x <= U8_MAX
  type u16 = x: int | 0 <= x <= U16_MAX
}
