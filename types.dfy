/** Machine integer widths of the CC254x target and a small Option type. */
module Types {

  type uint8 = x: int | 0 <= x < 0x100
  type uint16 = x: int | 0 <= x < 0x1_0000
  type uint32 = x: int | 0 <= x < 0x1_0000_0000

  datatype Option<T> = None | Some(value: T)

  /** A byte with exactly one bit set. */
  predicate SingleBit(mask: uint8)
  {
    mask == 1 || mask == 2 || mask == 4 || mask == 8 || mask == 16 || mask == 32 || mask == 64 || mask == 128
  }

  /** `x & mask != 0` for a single-bit mask, as the C sources test flag bits. */
  predicate HasBit(x: uint8, mask: uint8)
    requires SingleBit(mask)
  {
    x / mask % 2 == 1
  }
}
