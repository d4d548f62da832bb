/**
 * Go's fixed-width integers and the two conversions the core performs.
 * Go converts between integer types by keeping the low bits of the two's
 * complement representation; the functions below write that out.
 */
module GoInts {

  const TwoTo31: int := 0x8000_0000
  const TwoTo32: int := 0x1_0000_0000
  const TwoTo64: int := 0x1_0000_0000_0000_0000

  newtype int32 = x: int | -0x8000_0000 <= x < 0x8000_0000
  newtype uint64 = x: int | 0 <= x < 0x1_0000_0000_0000_0000

  /** Go's `int32(u)` for a `uint64` u: keep the low 32 bits, read them as signed. */
  function Int32FromUint64(u: uint64): (r: int32)
    ensures (u as int - r as int) % TwoTo32 == 0
  {
    var low := u as int % TwoTo32;
    if low < TwoTo31 then low as int32 else (low - TwoTo32) as int32
  }

  /** Go's `uint64(i)` for an `int32` i: sign-extend, read the 64 bits as unsigned. */
  function Uint64FromInt32(i: int32): (r: uint64)
    ensures (r as int - i as int) % TwoTo64 == 0
  {
    if i >= 0 then i as int as uint64 else (i as int + TwoTo64) as uint64
  }

  /** Below 2^31 the narrowing conversion keeps the value, and widening it back gives the original. */
  lemma Int32FromUint64Small(u: uint64)
    requires u as int < TwoTo31
    ensures Int32FromUint64(u) as int == u as int
    ensures Uint64FromInt32(Int32FromUint64(u)) == u
  {
  }

  /** From 2^31 on the narrowing conversion changes the value: it wraps modulo 2^32. */
  lemma Int32FromUint64Wraps(u: uint64)
    requires u as int >= TwoTo31
    ensures Int32FromUint64(u) as int != u as int
  {
  }

  /** A non-negative `int32` widens to the same number; a negative one to a number of at least 2^63. */
  lemma Uint64FromInt32Sign(i: int32)
    ensures i >= 0 ==> Uint64FromInt32(i) as int == i as int
    ensures i < 0 ==> Uint64FromInt32(i) as int >= TwoTo64 / 2
  {
  }
}
