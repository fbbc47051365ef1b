/** Fixed-width integers of the Rust source, as subsets of the unbounded int. */
module Ints {
  const U32_MAX: int := 0xFFFF_FFFF
  const I32_MIN: int := -0x8000_0000
  const I32_MAX: int := 0x7FFF_FFFF

  newtype u16 = x: int | 0 <= x <= 0xFFFF
  newtype u32 = x: int | 0 <= x <= 0xFFFF_FFFF
  newtype i32 = x: int | -0x8000_0000 <= x <= 0x7FFF_FFFF
}

/** Optional values and the outcome of code that may panic. */
module Wrappers {
  datatype Option<+T> = None | Some(value: T)

  /** A Rust panic (`unwrap`, `expect`, an out-of-bounds index, an overflowing add), with its message. */
  datatype Error = Panic(message: string)

  datatype Result<+T> = Ok(value: T) | Err(error: Error)
}
