/** Fixed-width integers of the C++ program and the conversions between them. */
module CTypes {

  /** `uint32_t`. */
  newtype uint32 = x: int | 0 <= x < 0x1_0000_0000

  /** `int32_t`. */
  newtype int32 = x: int | -0x8000_0000 <= x < 0x8000_0000

  /** `UINT32_MAX`, used by the renderer as the "no queue family" sentinel. */
  const UINT32_MAX: uint32 := 0xFFFF_FFFF

  /** The conversion `uint32_t` -> `int32_t` (two's complement reinterpretation). */
  function ToInt32(u: uint32): (i: int32)
    ensures u < 0x8000_0000 ==> i as int == u as int
    ensures u >= 0x8000_0000 ==> i < 0
  {
    if u < 0x8000_0000 then u as int as int32 else (u as int - 0x1_0000_0000) as int32
  }

  /** The conversion `int32_t` -> `uint32_t` (arithmetic modulo 2^32). */
  function ToUint32(i: int32): (u: uint32)
    ensures i >= 0 ==> u as int == i as int
    ensures i < 0 ==> u >= 0x8000_0000
  {
    if i >= 0 then i as int as uint32 else (i as int + 0x1_0000_0000) as uint32
  }

  /** Storing a `uint32_t` in an `int32_t` and reading it back as `uint32_t` gives it back unchanged. */
  lemma Int32RoundTrip(u: uint32)
    ensures ToUint32(ToInt32(u)) == u
  {
  }

  /** The sentinel is stored as -1 on its way through an `int32_t`. */
  lemma SentinelAsInt32()
    ensures ToInt32(UINT32_MAX) == -1
  {
  }
}
