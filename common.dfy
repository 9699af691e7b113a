/** Fixed-width integer types and the byte sizes of the platform the harness
    is built for (common.hpp, renderer.hpp). */
module Common {

  /** `u8` of common.hpp: one byte. */
  newtype u8 = x: int | 0 <= x < 256

  const INT32_MIN: int := -0x8000_0000
  const INT32_MAX: int := 0x7fff_ffff

  predicate IsInt32(x: int) {
    INT32_MIN <= x <= INT32_MAX
  }

  /** sizeof(int), sizeof(float) and sizeof(u32) (checked by the static_asserts of common.hpp). */
  const SIZEOF_INT: nat := 4
  const SIZEOF_FLOAT: nat := 4
  const SIZEOF_U32: nat := 4

  datatype Option<T> = None | Some(value: T)
}
