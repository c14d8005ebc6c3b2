/** Machine words shared by the ROM and CPU models. Rust's `u8` and `u16` are
    unbounded integers here, restricted to their ranges, so that any
    arithmetic that would overflow has to be excluded explicitly. */
module MachineWords {

  /** Rust `u8`. */
  newtype uint8 = x: int | 0 <= x < 0x100

  /** Rust `u16`. */
  newtype uint16 = x: int | 0 <= x < 0x1_0000

  /** The sixteen index registers (`[u8; 16]`). */
  type Index = s: seq<uint8> | |s| == 16 witness seq(16, _ => 0)

  /** The three stack levels (`[u16; 3]`). */
  type Stack = s: seq<uint16> | |s| == 3 witness seq(3, _ => 0)

  datatype Option<T> = None | Some(value: T)
}
