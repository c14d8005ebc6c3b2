/** The earlier prototype of the CPU kept in src/main.rs: the same registers
    without ROM, RAM address or signal, and a `decode_op` that matches whole
    16-bit opcode values. None of its instructions does anything but advance
    `pc`. */
module Prototype {
  import opened MachineWords

  /** Every field of the prototype CPU at one instant. */
  datatype Snapshot = Snapshot(pc: uint8, carry: bool, acc: uint8, index: Index, stack: Stack)

  /** How far `decode_op` moves `pc` for `op`: the match is on the exact
      16-bit value, so only five values are recognised (NOP 0x0000 by 1,
      JNC 0x1000 and FIM 0x2000 by 2, SRC 0x2100 and 0x3000 by 1) and every
      other value, however close, falls to the default arm that adds 3. */
  function Advance(op: uint16): (n: nat)
    ensures n == 1 <==> op in {0x0000, 0x2100, 0x3000}
    ensures n == 2 <==> op in {0x1000, 0x2000}
    ensures n == 3 <==> op !in {0x0000, 0x1000, 0x2000, 0x2100, 0x3000}
  {
    match op
    case 0x0000 => 1
    case 0x1000 => 2
    case 0x2000 => 2
    case 0x2100 => 1
    case 0x3000 => 1
    case _ => 3
  }

  class Intel4004 {
    var pc: uint8
    var carry: bool
    var acc: uint8
    var index: array<uint8>
    var stack: array<uint16>

    ghost predicate Valid()
      reads this
    {
      index.Length == 16 && stack.Length == 3
    }

    ghost function State(): Snapshot
      reads this, index, stack
      requires Valid()
    {
      Snapshot(pc, carry, acc, index[..], stack[..])
    }

    /** All registers zero, carry clear. */
    constructor ()
      ensures Valid() && fresh(index) && fresh(stack)
      ensures State() == Snapshot(0, false, 0, seq(16, _ => 0), seq(3, _ => 0))
    {
      pc, carry, acc := 0, false, 0;
      index := new uint8[16](_ => 0);
      stack := new uint16[3](_ => 0);
    }

    /** Overwrites the whole CPU with a fresh one: the result is the same
        whatever the state before, so resetting twice equals resetting once. */
    method Reset()
      modifies this
      ensures Valid() && fresh(index) && fresh(stack)
      ensures State() == Snapshot(0, false, 0, seq(16, _ => 0), seq(3, _ => 0))
    {
      pc, carry, acc := 0, false, 0;
      index := new uint8[16](_ => 0);
      stack := new uint16[3](_ => 0);
    }

    /** Dispatch on the exact opcode value; changes nothing but `pc`. */
    method DecodeOp(op: uint16)
      requires Valid() && pc as int + Advance(op) <= 255
      modifies this
      ensures Valid() && index == old(index) && stack == old(stack)
      ensures State() == old(State()).(pc := old(pc) + Advance(op) as uint8)
    {
      match op
      case 0x0000 => Nop();
      case 0x1000 => Jnc(op);
      case 0x2000 => Fim(op);
      case 0x2100 => Src(op);
      case 0x3000 => Src(op);
      case _ => pc := pc + 3;
    }

    method Nop()
      requires Valid() && pc < 255
      modifies this
      ensures Valid() && index == old(index) && stack == old(stack)
      ensures State() == old(State()).(pc := old(pc) + 1)
    {
      pc := pc + 1;
    }

    method Jnc(op: uint16)
      requires Valid() && pc < 254
      modifies this
      ensures Valid() && index == old(index) && stack == old(stack)
      ensures State() == old(State()).(pc := old(pc) + 2)
    {
      pc := pc + 2;
    }

    method Fim(op: uint16)
      requires Valid() && pc < 254
      modifies this
      ensures Valid() && index == old(index) && stack == old(stack)
      ensures State() == old(State()).(pc := old(pc) + 2)
    {
      pc := pc + 2;
    }

    method Src(op: uint16)
      requires Valid() && pc < 255
      modifies this
      ensures Valid() && index == old(index) && stack == old(stack)
      ensures State() == old(State()).(pc := old(pc) + 1)
    {
      pc := pc + 1;
    }
  }
}
