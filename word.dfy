/** Fixed-width unsigned integers of the emulated machine.
    Bit masks and shifts on these are written as `%` and `/` by powers of two:
    `v & 0x0F` is `v % 16`, `(v >> 4) & 0x07` is `v / 16 % 8`, `(v & 0x20) != 0` is `v / 32 % 2 == 1`. */
module Word {
  type uint8 = x: int | 0 <= x < 0x100
  type uint16 = x: int | 0 <= x < 0x1_0000

  /** Bit `k` (given as the mask 2^k) of `v` is set. */
  predicate HasBit(v: int, mask: nat)
    requires mask > 0
  {
    v / mask % 2 == 1
  }

  /** Presence or absence of a value: a null pointer, an empty slot. */
  datatype Option<T> = None | Some(value: T)
}
