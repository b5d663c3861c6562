/** Wrapper types and machine integers shared by every component. */
module Prelude {

  datatype Option<+T> = None | Some(value: T)

  datatype Result<+T, +E> = Ok(value: T) | Err(error: E)

  const U64_MAX: nat := 0xFFFF_FFFF_FFFF_FFFF
  const U128_MAX: nat := 0xFFFF_FFFF_FFFF_FFFF_FFFF_FFFF_FFFF_FFFF

  type U64 = n: nat | n <= U64_MAX
  type NonZeroU64 = n: nat | 0 < n <= U64_MAX witness 1

  function Max(a: int, b: int): int {
    if a < b then b else a
  }

  function Min(a: int, b: int): int {
    if a < b then a else b
  }
}
