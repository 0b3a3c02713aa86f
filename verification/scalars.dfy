/**
 * The scalar types carried by containers and messages: 32-bit integers with
 * their ranges written out, and floating-point values kept as opaque bit
 * patterns (they are only ever copied, never computed with).
 */
module Scalars {

  const TWO_TO_THE_32: int := 0x1_0000_0000
  const TWO_TO_THE_31: int := 0x8000_0000

  /** `uint32_t` */
  type uint32 = x: int | 0 <= x < TWO_TO_THE_32

  /** `int32_t` */
  type int32 = x: int | -TWO_TO_THE_31 <= x < TWO_TO_THE_31

  /** `float`: an IEEE-754 single, kept as its bit pattern. */
  datatype Float32 = Float32(bits: bv32)

  /** `double`: an IEEE-754 double, kept as its bit pattern. */
  datatype Float64 = Float64(bits: bv64)

  /** `0.0f`, the value a float variable initialised with `0` holds. */
  const FLOAT32_ZERO: Float32 := Float32(0)

  /** `0.0` */
  const FLOAT64_ZERO: Float64 := Float64(0)
}
