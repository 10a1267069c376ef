/** Fixed-width Go integers and the optional-value wrapper used across the model. */
module Base {

  datatype Option<+T> = None | Some(value: T)

  /** Go `byte` (uint8). */
  type byte = x: int | 0 <= x < 0x100

  /** Go `uint16`. */
  type uint16 = x: int | 0 <= x < 0x1_0000

  /** Go `uint64`. */
  type uint64 = x: int | 0 <= x < 0x1_0000_0000_0000_0000

  /** `b++` on a `byte`: 255 wraps to 0. */
  function IncU8(b: byte): (r: byte)
    ensures b < 0xFF ==> r == b + 1
    ensures b == 0xFF ==> r == 0
  {
    (b + 1) % 0x100
  }

  /** `n++` on a `uint64`: the maximum wraps to 0. */
  function IncU64(n: uint64): (r: uint64)
    ensures n < 0xFFFF_FFFF_FFFF_FFFF ==> r == n + 1
    ensures n == 0xFFFF_FFFF_FFFF_FFFF ==> r == 0
  {
    (n + 1) % 0x1_0000_0000_0000_0000
  }

  /** `a += uint16(n)` on a `uint16`, for `0 <= n`: the sum is taken modulo 2^16. */
  function AddU16(a: uint16, n: nat): (r: uint16)
    ensures a + n < 0x1_0000 ==> r == a + n
    ensures r % 0x1_0000 == (a + n) % 0x1_0000
  {
    (a + n) % 0x1_0000
  }
}
