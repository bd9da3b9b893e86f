/** The fixed-width C integer types that appear in the black-level code. */
module IntTypes {

  /** `int16_t`: the type of every black level, in the 16-bit sample domain. */
  newtype int16 = x: int | -0x8000 <= x < 0x8000

  /** `uint32_t`: the frame number handed to `prepare`. */
  newtype uint32 = x: int | 0 <= x < 0x1_0000_0000
}
