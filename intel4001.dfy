/** The Intel 4001 program memory (src/intel4001.rs): 256 bytes of ROM and a
    4-bit I/O port. Its only in-place update, loading an image from a file,
    is not part of this model, so the ROM is a value that the CPU owns. */
module Rom4001 {
  import opened MachineWords

  /** The ROM contents: always exactly 256 bytes (`[u8; 256]`). */
  type RomImage = s: seq<uint8> | |s| == 256 witness seq(256, _ => 0)

  datatype Intel4001 = Intel4001(rom: RomImage, io: uint8)
  {
    /** Bounds-checked read: the byte at `addr`, or 0 when `addr` lies past
        the end of the ROM. Never fails. */
    function FetchU8(addr: nat): (b: uint8)
      ensures addr < 256 ==> b == rom[addr]
      ensures 256 <= addr ==> b == 0
    {
      if addr < 256 then rom[addr] else 0
    }
  }

  /** A freshly constructed ROM: all bytes zero, port zero. Every address,
      in range or not, reads as 0. */
  function New(): (r: Intel4001)
    ensures r.io == 0
    ensures forall addr: nat :: r.FetchU8(addr) == 0
  {
    Intel4001(seq(256, _ => 0), 0)
  }
}
