/**
 * The `Nonce` newtype: a per-account transaction counter wrapping a 64-bit
 * unsigned integer, with conversions from the narrower unsigned types and back.
 */
module Nonce {
  import opened Ints

  /** Derived equality compares the wrapped values; derived default wraps zero. */
  datatype Nonce = Nonce(value: U64)

  /** `Nonce::default()`. */
  function Default(): (n: Nonce)
    ensures n.value == 0
  {
    Nonce(0)
  }

  // Conversions: Other -> Nonce. Every narrower unsigned value fits in a U64.

  function FromU8(x: U8): (n: Nonce)
    ensures n.value == x
  {
    Nonce(x)
  }

  function FromU16(x: U16): (n: Nonce)
    ensures n.value == x
  {
    Nonce(x)
  }

  function FromU32(x: U32): (n: Nonce)
    ensures n.value == x
  {
    Nonce(x)
  }

  function FromU64(x: U64): (n: Nonce)
    ensures n.value == x
  {
    Nonce(x)
  }

  /** A `usize` is at most 64 bits wide on every supported target. */
  function FromUsize(w: PointerWidth, x: nat): (n: Nonce)
    requires IsUsize(w, x)
    ensures n.value == x
  {
    Nonce(x)
  }

  // Conversions: Nonce -> Other.

  /** `U64::as_u64`: the wrapped value. */
  function ToU64(n: Nonce): (x: U64)
    ensures FromU64(x) == n
  {
    n.value
  }

  /** `U64::as_usize` panics when the value does not fit in `usize`. */
  function ToUsize(w: PointerWidth, n: Nonce): (x: nat)
    requires IsUsize(w, n.value)
    ensures IsUsize(w, x)
    ensures FromUsize(w, x) == n
  {
    n.value
  }

  lemma U64RoundTrip(x: U64)
    ensures ToU64(FromU64(x)) == x
  {
  }

  lemma NonceRoundTrip(n: Nonce)
    ensures FromU64(ToU64(n)) == n
  {
  }

  /** The narrow conversions keep the numeric value, which reads back through u64. */
  lemma NarrowConversionsPreserveValue(a: U8, b: U16, c: U32)
    ensures ToU64(FromU8(a)) == a
    ensures ToU64(FromU16(b)) == b
    ensures ToU64(FromU32(c)) == c
    ensures FromU8(a) == FromU16(a) == FromU32(a) == FromU64(a)
  {
  }

  lemma UsizeRoundTrip(w: PointerWidth, x: nat)
    requires IsUsize(w, x)
    ensures ToUsize(w, FromUsize(w, x)) == x
    ensures ToU64(FromUsize(w, x)) == x
  {
  }

  /** On a 64-bit target every nonce converts to `usize`; on a 32-bit one exactly those below 2^32. */
  lemma UsizeFits(n: Nonce)
    ensures IsUsize(W64, n.value)
    ensures IsUsize(W32, n.value) <==> n.value < U32_LIMIT
  {
  }

  lemma EqualityIsValueEquality(a: Nonce, b: Nonce)
    ensures a == b <==> ToU64(a) == ToU64(b)
  {
  }
}
