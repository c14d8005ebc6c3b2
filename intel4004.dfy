/** The Intel 4004 CPU (src/intel4004.rs): registers, a one-byte program
    counter and the ROM it executes from. `decode_op` dispatches on the high
    nibble of an opcode; JCN, FIM and SRC do real work and every other
    instruction only advances the program counter.

    The behaviour is the program's, not the chip datasheet's: bit 3 of the JCN
    condition suppresses the jump instead of inverting the test, SRC stores
    the pair number and not the pair's contents, and FIM stores a whole byte. */
module Cpu4004 {
  import opened MachineWords
  import Rom4001

  /** Every field of the CPU at one instant. */
  datatype Snapshot = Snapshot(
    pc: uint8,
    carry: bool,
    acc: uint8,
    index: Index,
    stack: Stack,
    ramAddr: uint8,
    signal: bool,
    rom: Rom4001.Intel4001)

  /** `op_code & 0xF0`: the instruction group. */
  function High(op: uint8): (group: uint8) { op / 16 * 16 }

  /** `op_code & 0x0F`: the operand nibble handed to an instruction. */
  function Low(op: uint8): (opa: uint8) { op % 16 }

  /** The slot FIM writes, `(opa >> 1) * 2`: the even register of pair `opa >> 1`. */
  function PairSlot(opa: uint8): (k: uint8)
    requires opa < 16
    ensures k < 16 && k % 2 == 0
    ensures k == opa || k + 1 == opa
  {
    (opa / 2) * 2
  }

  /** Whether JCN with operand `opa` jumps. The condition nibble's bits are
      C1 (bit 3), C2 (bit 2), C3 (bit 1) and C4 (bit 0); C1 set suppresses the
      jump altogether, otherwise it is taken when the accumulator is zero and
      C2 is set, the carry is set and C3 is set, or the signal is set and C4
      is set. */
  function JcnJumps(acc: uint8, carry: bool, signal: bool, opa: uint8): (jumps: bool)
  {
    var condition := opa % 16;
    var c1, c2, c3, c4 := condition / 8 % 2, condition / 4 % 2, condition / 2 % 2, condition % 2;
    c1 != 1 && ((acc == 0 && c2 == 1) || (carry && c3 == 1) || (signal && c4 == 1))
  }

  /** The amount an instruction advances `pc` by when it does not jump: 2 for
      the two-word forms (JCN, FIM, JUN, JMS, ISZ), 1 for everything else. */
  function Width(op: uint8): (w: nat)
  {
    var group := High(op);
    if group == 0x10 || group == 0x40 || group == 0x50 || group == 0x70 then 2
    else if group == 0x20 && Low(op) % 2 == 0 then 2
    else 1
  }

  /** Executing `op` in state `s` performs no `u8` addition on `pc` that
      overflows (which would panic). A JCN that jumps only adds 1 before
      loading the target. */
  predicate NoPcOverflow(s: Snapshot, op: uint8)
  {
    if High(op) == 0x10 && JcnJumps(s.acc, s.carry, s.signal, Low(op))
    then s.pc as int + 1 <= 255
    else s.pc as int + Width(op) <= 255
  }

  /** The state after the CPU decodes and executes `op`. Apart from `pc`, only
      FIM changes an index register (the one the opcode names) and only SRC
      changes `ramAddr` (to a pair number, at most 7); nothing changes the
      accumulator, carry, stack, signal or ROM. */
  function Step(s: Snapshot, op: uint8): (t: Snapshot)
    requires NoPcOverflow(s, op)
    ensures t.carry == s.carry && t.acc == s.acc && t.stack == s.stack
    ensures t.signal == s.signal && t.rom == s.rom
    ensures forall k | 0 <= k < 16 && !(High(op) == 0x20 && op % 2 == 0 && k == Low(op)) ::
              t.index[k] == s.index[k]
    ensures t.ramAddr != s.ramAddr ==> High(op) == 0x20 && op % 2 == 1 && t.ramAddr <= 7
  {
    var opa := Low(op);
    match High(op)
    case 0x10 =>
      s.(pc := if JcnJumps(s.acc, s.carry, s.signal, opa) then s.rom.FetchU8(s.pc as nat + 1) else s.pc + 2)
    case 0x20 =>
      if opa % 2 == 0 then s.(index := s.index[PairSlot(opa) := s.rom.FetchU8(s.pc as nat + 1)], pc := s.pc + 2)
      else s.(ramAddr := opa / 2, pc := s.pc + 1)
    case 0x40 => s.(pc := s.pc + 2)
    case 0x50 => s.(pc := s.pc + 2)
    case 0x70 => s.(pc := s.pc + 2)
    case _ => s.(pc := s.pc + 1)
  }

  /** The state after `n` clock cycles from `s`, or None when one of them
      would overflow `pc`. Over any number of cycles the accumulator, carry,
      stack, signal and ROM stay as they were, and `ramAddr` stays at most 7
      once it is. */
  function Run(s: Snapshot, n: nat): (r: Option<Snapshot>)
    ensures r.Some? ==> r.value.carry == s.carry && r.value.acc == s.acc && r.value.stack == s.stack
    ensures r.Some? ==> r.value.signal == s.signal && r.value.rom == s.rom
    ensures r.Some? && s.ramAddr <= 7 ==> r.value.ramAddr <= 7
    decreases n
  {
    if n == 0 then Some(s)
    else
      var op := s.rom.FetchU8(s.pc as nat);
      if NoPcOverflow(s, op) then Run(Step(s, op), n - 1) else None
  }

  /** Running `m` cycles and then `n` more is running `m + n` cycles. */
  lemma {:induction false} RunAppend(s: Snapshot, m: nat, n: nat)
    ensures Run(s, m + n) == match Run(s, m) case None => None case Some(t) => Run(t, n)
    decreases m
  {
    if m > 0 {
      var op := s.rom.FetchU8(s.pc as nat);
      if NoPcOverflow(s, op) {
        RunAppend(Step(s, op), m - 1, n);
        assert m + n - 1 == (m - 1) + n;
      }
    }
  }

  /** JCN with C1 set (opcodes 0x18-0x1F) never jumps: it skips its operand byte. */
  lemma JcnSuppressed(s: Snapshot, op: uint8)
    requires 0x18 <= op <= 0x1F && s.pc < 254
    ensures NoPcOverflow(s, op) && Step(s, op) == s.(pc := s.pc + 2)
  {
  }

  /** JCN with C1 clear (opcodes 0x10-0x17) jumps to the ROM byte after the
      opcode exactly when one of the selected tests holds, else skips it. */
  lemma JcnConditional(s: Snapshot, op: uint8)
    requires 0x10 <= op <= 0x17 && NoPcOverflow(s, op)
    ensures var taken := (s.acc == 0 && op / 4 % 2 == 1) || (s.carry && op / 2 % 2 == 1) || (s.signal && op % 2 == 1);
            Step(s, op) == s.(pc := if taken then s.rom.rom[s.pc + 1] else s.pc + 2)
  {
  }

  /** FIM (0x20, 0x22, ..., 0x2E) loads the whole ROM byte after the opcode
      into index register `op & 0x0F` and skips that byte. */
  lemma FimLoadsPair(s: Snapshot, op: uint8)
    requires 0x20 <= op <= 0x2F && op % 2 == 0 && s.pc < 254
    ensures NoPcOverflow(s, op)
    ensures Step(s, op) == s.(index := s.index[op - 0x20 := s.rom.rom[s.pc + 1]], pc := s.pc + 2)
  {
  }

  /** SRC (0x21, 0x23, ..., 0x2F) sets `ramAddr` to the pair number
      `(op & 0x0F) >> 1`, at most 7, and advances `pc` by one. */
  lemma SrcSelectsPair(s: Snapshot, op: uint8)
    requires 0x21 <= op <= 0x2F && op % 2 == 1 && s.pc < 255
    ensures NoPcOverflow(s, op)
    ensures Step(s, op) == s.(ramAddr := (op - 0x20) / 2, pc := s.pc + 1)
    ensures Step(s, op).ramAddr <= 7
  {
  }

  /** NOP, FIN, JIN, INC, ADD, SUB, LD, XCH, BBL, LDM and every opcode from
      0xE0 up only advance `pc` by one. */
  lemma OneWordStubs(s: Snapshot, op: uint8)
    requires op / 16 in {0x0, 0x3, 0x6, 0x8, 0x9, 0xA, 0xB, 0xC, 0xD} || 0xE0 <= op
    requires s.pc < 255
    ensures NoPcOverflow(s, op) && Step(s, op) == s.(pc := s.pc + 1)
  {
  }

  /** JUN, JMS and ISZ only advance `pc` by two. */
  lemma TwoWordStubs(s: Snapshot, op: uint8)
    requires op / 16 in {0x4, 0x5, 0x7} && s.pc < 254
    ensures NoPcOverflow(s, op) && Step(s, op) == s.(pc := s.pc + 2)
  {
  }

  /** The CPU. `index` and `stack` are fixed-size register files updated in place. */
  class Intel4004 {
    var pc: uint8
    var carry: bool
    var acc: uint8
    const index: array<uint8>
    const stack: array<uint16>
    var ramAddr: uint8
    var signal: bool
    var rom: Rom4001.Intel4001

    ghost predicate Valid()
      reads this
    {
      index.Length == 16 && stack.Length == 3
    }

    ghost function State(): Snapshot
      reads this, index, stack
      requires Valid()
    {
      Snapshot(pc, carry, acc, index[..], stack[..], ramAddr, signal, rom)
    }

    /** Every register zero, both flags clear, a zeroed ROM. */
    constructor ()
      ensures Valid() && fresh(index) && fresh(stack)
      ensures State() == Snapshot(0, false, 0, seq(16, _ => 0), seq(3, _ => 0), 0, false, Rom4001.New())
    {
      pc, carry, acc := 0, false, 0;
      index := new uint8[16](_ => 0);
      stack := new uint16[3](_ => 0);
      ramAddr, signal := 0, false;
      rom := Rom4001.New();
    }

    /** One cycle: decode and execute the ROM byte at `pc`. */
    method Clock()
      requires Valid() && NoPcOverflow(State(), rom.FetchU8(pc as nat))
      modifies this, index
      ensures Valid() && State() == Step(old(State()), old(rom.FetchU8(pc as nat)))
    {
      DecodeOp(rom.FetchU8(pc as nat));
    }

    method GetPc() returns (r: uint8)
      ensures r == pc
    {
      r := pc;
    }

    method GetCarry() returns (r: bool)
      ensures r == carry
    {
      r := carry;
    }

    method GetAcc() returns (r: uint8)
      ensures r == acc
    {
      r := acc;
    }

    /** A copy of the index registers (the source lends them out read-only). */
    method GetIndex() returns (r: seq<uint8>)
      requires Valid()
      ensures |r| == 16 && forall k | 0 <= k < 16 :: r[k] == index[k]
    {
      r := index[..];
    }

    /** A copy of the stack levels (the source lends them out read-only). */
    method GetStack() returns (r: seq<uint16>)
      requires Valid()
      ensures |r| == 3 && forall k | 0 <= k < 3 :: r[k] == stack[k]
    {
      r := stack[..];
    }

    /** Dispatch on the high nibble, handing the low nibble to the instruction. */
    method DecodeOp(op: uint8)
      requires Valid() && NoPcOverflow(State(), op)
      modifies this, index
      ensures Valid() && State() == Step(old(State()), op)
    {
      match High(op)
      case 0x00 => Nop();
      case 0x10 => Jcn(Low(op));
      case 0x20 =>
        if Low(op) % 2 == 0 {
          Fim(Low(op));
        } else {
          Src(Low(op));
        }
      case 0x30 =>
        if Low(op) % 2 == 0 {
          Fin(Low(op));
        } else {
          Jin(Low(op));
        }
      case 0x40 => Jun(Low(op));
      case 0x50 => Jms(Low(op));
      case 0x60 => Inc(Low(op));
      case 0x70 => Isz(Low(op));
      case 0x80 => Add(Low(op));
      case 0x90 => Sub(Low(op));
      case 0xA0 => Ld(Low(op));
      case 0xB0 => Xch(Low(op));
      case 0xC0 => Bbl(Low(op));
      case 0xD0 => Ldm(Low(op));
      case _ => pc := pc + 1;
    }

    method Nop()
      requires Valid() && pc < 255
      modifies this
      ensures Valid() && State() == old(State()).(pc := old(pc) + 1)
    {
      pc := pc + 1;
    }

    /** Jump to the ROM byte after the opcode if the condition holds, else skip it. */
    method Jcn(opa: uint8)
      requires Valid() && pc < 255 && (JcnJumps(acc, carry, signal, opa) || pc < 254)
      modifies this
      ensures Valid()
      ensures State() == old(State()).(pc := if JcnJumps(old(acc), old(carry), old(signal), opa)
                                             then old(rom.FetchU8(pc as nat + 1)) else old(pc) + 2)
    {
      var condition := opa % 16;
      var c1 := condition / 8 % 2;
      var c2 := condition / 4 % 2;
      var c3 := condition / 2 % 2;
      var c4 := condition % 2;
      pc := pc + 1;
      if c1 != 1 && ((acc == 0 && c2 == 1) || (carry && c3 == 1) || (signal && c4 == 1)) {
        pc := rom.FetchU8(pc as nat);
      } else {
        pc := pc + 1;
      }
    }

    /** Fetch immediate: the ROM byte after the opcode goes to the even register of pair `opa >> 1`. */
    method Fim(opa: uint8)
      requires Valid() && opa < 16 && pc < 254
      modifies this, index
      ensures Valid()
      ensures State() == old(State()).(index := old(index[..])[PairSlot(opa) := old(rom.FetchU8(pc as nat + 1))],
                                       pc := old(pc) + 2)
    {
      pc := pc + 1;
      index[(opa / 2) * 2] := rom.FetchU8(pc as nat);
      pc := pc + 1;
    }

    /** Send register control: records the pair number `opa >> 1`. */
    method Src(opa: uint8)
      requires Valid() && pc < 255
      modifies this
      ensures Valid() && State() == old(State()).(ramAddr := opa / 2, pc := old(pc) + 1)
    {
      ramAddr := opa / 2;
      pc := pc + 1;
    }

    method Fin(opa: uint8)
      requires Valid() && pc < 255
      modifies this
      ensures Valid() && State() == old(State()).(pc := old(pc) + 1)
    {
      pc := pc + 1;
    }

    method Jin(opa: uint8)
      requires Valid() && pc < 255
      modifies this
      ensures Valid() && State() == old(State()).(pc := old(pc) + 1)
    {
      pc := pc + 1;
    }

    method Jun(opa: uint8)
      requires Valid() && pc < 254
      modifies this
      ensures Valid() && State() == old(State()).(pc := old(pc) + 2)
    {
      pc := pc + 2;
    }

    method Jms(opa: uint8)
      requires Valid() && pc < 254
      modifies this
      ensures Valid() && State() == old(State()).(pc := old(pc) + 2)
    {
      pc := pc + 2;
    }

    method Inc(opa: uint8)
      requires Valid() && pc < 255
      modifies this
      ensures Valid() && State() == old(State()).(pc := old(pc) + 1)
    {
      pc := pc + 1;
    }

    method Isz(opa: uint8)
      requires Valid() && pc < 254
      modifies this
      ensures Valid() && State() == old(State()).(pc := old(pc) + 2)
    {
      pc := pc + 2;
    }

    method Add(opa: uint8)
      requires Valid() && pc < 255
      modifies this
      ensures Valid() && State() == old(State()).(pc := old(pc) + 1)
    {
      pc := pc + 1;
    }

    method Sub(opa: uint8)
      requires Valid() && pc < 255
      modifies this
      ensures Valid() && State() == old(State()).(pc := old(pc) + 1)
    {
      pc := pc + 1;
    }

    method Ld(opa: uint8)
      requires Valid() && pc < 255
      modifies this
      ensures Valid() && State() == old(State()).(pc := old(pc) + 1)
    {
      pc := pc + 1;
    }

    method Xch(opa: uint8)
      requires Valid() && pc < 255
      modifies this
      ensures Valid() && State() == old(State()).(pc := old(pc) + 1)
    {
      pc := pc + 1;
    }

    method Bbl(opa: uint8)
      requires Valid() && pc < 255
      modifies this
      ensures Valid() && State() == old(State()).(pc := old(pc) + 1)
    {
      pc := pc + 1;
    }

    method Ldm(opa: uint8)
      requires Valid() && pc < 255
      modifies this
      ensures Valid() && State() == old(State()).(pc := old(pc) + 1)
    {
      pc := pc + 1;
    }
  }
}
