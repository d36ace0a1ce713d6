/** Fixed-width unsigned integers of the Rust source, as bounded naturals. */
module Ints {

  const U8_LIMIT: nat := 0x100
  const U16_LIMIT: nat := 0x1_0000
  const U32_LIMIT: nat := 0x1_0000_0000
  const U64_LIMIT: nat := 0x1_0000_0000_0000_0000
  const U256_LIMIT: nat := 0x1_0000_0000_0000_0000_0000_0000_0000_0000_0000_0000_0000_0000_0000_0000_0000_0000

  type U8 = x: nat | x < U8_LIMIT
  type U16 = x: nat | x < U16_LIMIT
  type U32 = x: nat | x < U32_LIMIT
  type U64 = x: nat | x < U64_LIMIT
  type U256 = x: nat | x < U256_LIMIT

  /** The width of Rust's `usize` depends on the compilation target. */
  datatype PointerWidth = W32 | W64

  function UsizeLimit(w: PointerWidth): (limit: nat)
    ensures limit <= U64_LIMIT
  {
    match w
    case W32 => U32_LIMIT
    case W64 => U64_LIMIT
  }

  /** A value of type `usize` on a target of width `w`. */
  predicate IsUsize(w: PointerWidth, x: nat)
  {
    x < UsizeLimit(w)
  }
}
