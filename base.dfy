/** Fixed-width unsigned integers of the Rust source, as bounded subsets of `int`. */
module Ints {
  /** An unsigned byte (`u8`). */
  type u8 = x: int | 0 <= x < 0x100

  /** An unsigned 16-bit integer (`u16`). */
  type u16 = x: int | 0 <= x < 0x1_0000

  const U16_MAX: u16 := 0xFFFF
  const U16_MIN: u16 := 0

  function Min(a: int, b: int): int { if a <= b then a else b }

  function Max(a: int, b: int): int { if a >= b then a else b }
}

/** `Option` and `Result`, as the Rust source uses them. */
module Wrappers {
  datatype Option<+T> = None | Some(value: T)

  datatype Result<+T, +E> = Success(value: T) | Failure(error: E)
}
