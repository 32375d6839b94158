/** The fixed-width unsigned integer types of C that both programs use, as
    ranges of unbounded integers. */
module CTypes {
  const TWO32: int := 0x1_0000_0000
  const TWO64: int := 0x1_0000_0000_0000_0000

  /** uint32_t. */
  type U32 = x: int | 0 <= x < TWO32
  /** uint64_t. */
  type U64 = x: int | 0 <= x < TWO64
}
