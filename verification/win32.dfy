/**
 * The fixed-width integer types of the Windows C++ ABI that the window code
 * computes with. Dafny integers are unbounded, so each width, and each
 * wrap-around that the C++ code relies on, is written out here.
 */
module Win32 {
  const TwoTo32: int := 0x1_0000_0000
  const TwoTo64: int := 0x1_0000_0000_0000_0000

  /** `UINT32` / `UINT`. */
  type UInt32 = x: int | 0 <= x < TwoTo32

  /** `LONG`, the signed 32-bit field type of a `RECT`. */
  type Long = x: int | -0x8000_0000 <= x < 0x8000_0000

  /** `WPARAM` / `LPARAM` / `size_t` on a 64-bit build, as their bit patterns. */
  type Word64 = x: int | 0 <= x < TwoTo64

  /** Unsigned 32-bit addition: the sum is taken modulo 2^32. */
  function AddUInt32(a: UInt32, b: UInt32): (r: UInt32)
    ensures (r - a - b) % TwoTo32 == 0
    ensures a + b < TwoTo32 ==> r == a + b
  {
    (a + b) % TwoTo32
  }

  /** Unsigned 32-bit subtraction (an interlocked decrement read back as `uint32_t`). */
  function SubUInt32(a: UInt32, b: UInt32): (r: UInt32)
    ensures (r - a + b) % TwoTo32 == 0
    ensures b <= a ==> r == a - b
  {
    (a - b) % TwoTo32
  }

  /** Storing a 32-bit unsigned value into a `LONG`: the same bits, read as two's complement. */
  function AsLong(x: UInt32): (r: Long)
    ensures (r - x) % TwoTo32 == 0
    ensures x < 0x8000_0000 ==> r == x
  {
    if x < 0x8000_0000 then x else x - TwoTo32
  }

  /** `(UINT)w`: a 64-bit word truncated to its low 32 bits. */
  function TruncateToUInt32(w: Word64): (r: UInt32)
    ensures (w - r) % TwoTo32 == 0
    ensures w < TwoTo32 ==> r == w
  {
    w % TwoTo32
  }
}
