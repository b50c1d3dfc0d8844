/** Fixed-width unsigned integers of the Rust source, as bounded integers. */
module Native {
  /** 2^64: one past the largest `u64` and, on a 64-bit target, the largest `usize`. */
  const TwoTo64: int := 0x1_0000_0000_0000_0000

  /** Rust `u64`: configured timeouts, in seconds. */
  newtype u64 = x: int | 0 <= x < 0x1_0000_0000_0000_0000

  /** Rust `usize` on a 64-bit target: the arrival counter of a wait point. */
  newtype usize = x: int | 0 <= x < 0x1_0000_0000_0000_0000
}
