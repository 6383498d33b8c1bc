/** What several modules share: a value that may be missing, and the limits of machine words. */
module Common {

  datatype Option<T> = None | Some(value: T)

  const INT32_MAX: int := 0x7fff_ffff
  const UINT32_MAX: int := 0xffff_ffff
  const INT64_MAX: int := 0x7fff_ffff_ffff_ffff
  const INT64_MIN: int := -0x8000_0000_0000_0000
  const INT128_MAX: int := 0x7fff_ffff_ffff_ffff_ffff_ffff_ffff_ffff
  const INT128_MIN: int := -0x8000_0000_0000_0000_0000_0000_0000_0000

  predicate Int64(x: int) {
    INT64_MIN <= x <= INT64_MAX
  }
}
