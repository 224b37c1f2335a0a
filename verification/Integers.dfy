/** The fixed-width unsigned integers of the source. */
module Integers {
  const U16_MAX: nat := 0xFFFF
  const U32_MAX: nat := 0xFFFF_FFFF
  const U64_MAX: nat := 0xFFFF_FFFF_FFFF_FFFF
  const I64_MAX: nat := 0x7FFF_FFFF_FFFF_FFFF

  type U16 = n: nat | n <= U16_MAX
  type U32 = n: nat | n <= U32_MAX
}
