# Intel 4004 emulator core, modelled in Dafny

This project models the instruction decode/execute step of a Rust emulator of
the Intel MCS-4 chip set: the 4004 CPU (`src/intel4004.rs`), the 4001 ROM it
executes from (`src/intel4001.rs`), and the older CPU prototype kept in
`src/main.rs`. It models what the emulator's code does, which is much less
than the historical chip does:

- `decode_op` dispatches on the high nibble of the opcode. JCN (0x1_) is a real
  conditional jump, FIM (0x2_, even) loads the ROM byte after the opcode into
  an index register, and SRC (0x2_, odd) sets the RAM address. Every other
  instruction only advances `pc`, by 1 or by 2, and opcodes 0xE0-0xFF fall to a
  default arm that advances it by 1.
- In JCN, bit 3 of the condition (C1) suppresses the jump altogether; on the
  chip it inverts the test.
- SRC stores the pair number `opa >> 1`, not the contents of the pair.
- FIM stores a whole byte in one index register; index registers are bytes,
  not nibbles.
- The ROM read `fetch_u8` returns 0 for any address past its 256 bytes.

The comments on the stub handlers (src/intel4004.rs:137-231) describe
register, ALU and stack behaviour, and the tests under tests/ expect RAM, I/O
and accumulator semantics for 0xE0-0xF4; the code implements none of these,
and the model follows the code.

Files:

- `words.dfy` (module `MachineWords`): the `uint8`/`uint16` ranges of Rust's
  `u8`/`u16`, the 16-register `Index` and 3-level `Stack` register files, and
  an `Option` type.
- `intel4001.dfy` (module `Rom4001`): the ROM as a value of 256 bytes plus
  the I/O port, with `FetchU8` and `New`.
- `intel4004.dfy` (module `Cpu4004`): the CPU as a class whose index
  registers and stack are arrays updated in place, with one method per
  instruction handler. `DecodeOp` and `Clock` are proved against `Step`, a
  function on `Snapshot` values (all of the CPU's fields at one instant).
  `Run` composes `n` clock cycles; the lemmas state the per-opcode behaviour.
- `prototype.dfy` (module `Prototype`): the `src/main.rs` CPU as a class.

Bit masks are written as arithmetic on byte values: `op & 0xF0` is
`op / 16 * 16`, `op & 0x0F` is `op % 16` and `x >> 1` is `x / 2`.

A Rust `u8 +=` that overflows panics in a debug build. Each method that adds
to `pc` therefore requires the exact condition under which none of its
additions overflows (`NoPcOverflow` for a whole instruction). `Run` returns
`None` at the first cycle that would overflow.

## Model

| member | source | states |
|---|---|---|
| `Rom4001.Intel4001.FetchU8` | src/intel4001.rs:22-28 | an address below 256 reads the stored byte; any larger address reads 0, and the read never fails and changes nothing |
| `Rom4001.New` | src/intel4001.rs:15-20 | a new ROM has the I/O port at 0 and every address, in range or not, reads 0 |
| `Cpu4004.PairSlot` | src/intel4004.rs:124 | the slot FIM writes is the even register of the pair, always one of the 16 slots, and equal to the operand or one below it |
| `Cpu4004.Step` | src/intel4004.rs:59-231 | executing any opcode leaves the accumulator, carry, stack, signal and ROM unchanged; only FIM changes an index register, and only the one its opcode names; only SRC changes the RAM address, and only to a value of at most 7 |
| `Cpu4004.Run` | src/intel4004.rs:30-32 | over any number of clock cycles without a `pc` overflow, the accumulator, carry, stack, signal and ROM keep their values, and a RAM address of at most 7 stays at most 7 |
| `Cpu4004.RunAppend` | src/intel4004.rs:30-32 | clocking is deterministic and composes: `m` cycles followed by `n` cycles give the same result as `m + n` cycles, including when an overflow stops the run |
| `Cpu4004.JcnSuppressed` | src/intel4004.rs:101-117 | JCN with C1 set (0x18-0x1F) never jumps, whatever the accumulator, carry and signal; `pc` ends two past the opcode |
| `Cpu4004.JcnConditional` | src/intel4004.rs:101-117 | JCN with C1 clear (0x10-0x17) sets `pc` to the ROM byte after the opcode when the accumulator is zero and C2 is set, or the carry and C3 are set, or the signal and C4 are set; otherwise `pc` ends two past the opcode; nothing else changes |
| `Cpu4004.FimLoadsPair` | src/intel4004.rs:64-66 | FIM (even 0x20-0x2E) puts the unmasked ROM byte after the opcode into index register `op & 0x0F`, leaves the other 15 untouched and advances `pc` by 2 |
| `Cpu4004.SrcSelectsPair` | src/intel4004.rs:67-68 | SRC (odd 0x21-0x2F) sets the RAM address to the pair number `(op & 0x0F) >> 1`, at most 7, and advances `pc` by 1 |
| `Cpu4004.OneWordStubs` | src/intel4004.rs:62-88 | opcode groups 0x0_, 0x3_ (both parities), 0x6_, 0x8_-0xD_ and every opcode from 0xE0 change nothing but `pc`, which advances by 1 |
| `Cpu4004.TwoWordStubs` | src/intel4004.rs:78-81 | opcode groups 0x4_, 0x5_ and 0x7_ change nothing but `pc`, which advances by 2 |
| `Cpu4004.Intel4004.constructor` | src/intel4004.rs:17-28 | a new CPU has `pc`, accumulator and RAM address 0, carry and signal clear, all 16 index registers and 3 stack levels 0, and a zeroed ROM |
| `Cpu4004.Intel4004.Clock` | src/intel4004.rs:30-32 | one cycle is exactly `decode_op` of the ROM byte at the current `pc` |
| `Cpu4004.Intel4004.GetPc` | src/intel4004.rs:36-38 | returns `pc` without changing anything |
| `Cpu4004.Intel4004.GetCarry` | src/intel4004.rs:40-42 | returns the carry without changing anything |
| `Cpu4004.Intel4004.GetAcc` | src/intel4004.rs:44-46 | returns the accumulator without changing anything |
| `Cpu4004.Intel4004.GetIndex` | src/intel4004.rs:48-50 | returns the 16 index registers without changing anything |
| `Cpu4004.Intel4004.GetStack` | src/intel4004.rs:52-54 | returns the 3 stack levels without changing anything |
| `Cpu4004.Intel4004.DecodeOp` | src/intel4004.rs:59-90 | the handler chosen by the opcode's high nibble (and, for 0x2_ and 0x3_, its parity) leaves the CPU in the state `Step` gives |
| `Cpu4004.Intel4004.Nop` | src/intel4004.rs:96-98 | advances `pc` by 1 and changes nothing else |
| `Cpu4004.Intel4004.Jcn` | src/intel4004.rs:101-117 | `pc` becomes the ROM byte after the opcode when the condition holds and C1 is clear, else two past the opcode; nothing else changes |
| `Cpu4004.Intel4004.Fim` | src/intel4004.rs:120-127 | the ROM byte after the opcode goes to index register `(opa >> 1) * 2`; `pc` advances by 2; nothing else changes |
| `Cpu4004.Intel4004.Src` | src/intel4004.rs:130-135 | the RAM address becomes `opa >> 1`; `pc` advances by 1; nothing else changes |
| `Cpu4004.Intel4004.Fin` | src/intel4004.rs:138-143 | advances `pc` by 1 and changes nothing else |
| `Cpu4004.Intel4004.Jin` | src/intel4004.rs:146-151 | advances `pc` by 1 and changes nothing else |
| `Cpu4004.Intel4004.Jun` | src/intel4004.rs:154-159 | advances `pc` by 2 and changes nothing else |
| `Cpu4004.Intel4004.Jms` | src/intel4004.rs:162-167 | advances `pc` by 2 and changes nothing else |
| `Cpu4004.Intel4004.Inc` | src/intel4004.rs:170-175 | advances `pc` by 1 and changes nothing else |
| `Cpu4004.Intel4004.Isz` | src/intel4004.rs:178-183 | advances `pc` by 2 and changes nothing else |
| `Cpu4004.Intel4004.Add` | src/intel4004.rs:186-191 | advances `pc` by 1 and changes nothing else |
| `Cpu4004.Intel4004.Sub` | src/intel4004.rs:194-199 | advances `pc` by 1 and changes nothing else |
| `Cpu4004.Intel4004.Ld` | src/intel4004.rs:202-207 | advances `pc` by 1 and changes nothing else |
| `Cpu4004.Intel4004.Xch` | src/intel4004.rs:210-215 | advances `pc` by 1 and changes nothing else |
| `Cpu4004.Intel4004.Bbl` | src/intel4004.rs:218-223 | advances `pc` by 1 and changes nothing else |
| `Cpu4004.Intel4004.Ldm` | src/intel4004.rs:226-231 | advances `pc` by 1 and changes nothing else |
| `Prototype.Advance` | src/main.rs:40-50 | dispatch is on the exact 16-bit value: 0x0000, 0x2100 and 0x3000 advance by 1, 0x1000 and 0x2000 by 2, and every other value by 3 |
| `Prototype.Intel4004.constructor` | src/main.rs:13-21 | a new prototype has `pc` and accumulator 0, carry clear, 16 zero index registers and 3 zero stack levels |
| `Prototype.Intel4004.Reset` | src/main.rs:25-33 | afterwards the prototype is in the same all-zero state as a new one, whatever it was before, so a second reset changes nothing |
| `Prototype.Intel4004.DecodeOp` | src/main.rs:40-50 | only `pc` changes, by the amount `Advance` gives for the opcode |
| `Prototype.Intel4004.Nop` | src/main.rs:55-57 | advances `pc` by 1 and changes nothing else |
| `Prototype.Intel4004.Jnc` | src/main.rs:60-65 | advances `pc` by 2 and changes nothing else |
| `Prototype.Intel4004.Fim` | src/main.rs:68-73 | advances `pc` by 2 and changes nothing else |
| `Prototype.Intel4004.Src` | src/main.rs:76-81 | advances `pc` by 1 and changes nothing else |

## Left out

- `Intel4001::load_rom` (src/intel4001.rs:30-35) reads a file into the ROM. File I/O is outside the model; the ROM is an arbitrary 256-byte value, which the public `rom` field lets a caller set.
- The overflow of `pc` itself is not modelled: a Rust debug build panics and a release build wraps. Every method requires that its additions to `pc` do not overflow, and `Run` stops with `None` instead.
- `Cpu4004.Intel4004.GetIndex`, `Cpu4004.Intel4004.GetStack`: the source lends out a read-only reference to the array; the model returns a copy of its contents.
- `Cpu4004.Run` and `Cpu4004.RunAppend` describe repeated calls of `clock`; the source has no driver loop of its own.
- The RAM chip record `Intel4002` (src/intel4002.rs) has no operations and the CPU never refers to it.
- The disassembler (src/disassembler.rs) and `print_cpu_state`/`main` in src/main.rs only print.
- The `Registers` struct and the empty `fetch_instruction` in src/main.rs have no behaviour.
- The tests under tests/ call operations that the CPU does not have (`set_acc`, `set_carry`, `set_ram_addrs`, `get_ram_addrs`, a `ram` field, a public `decode_op`) and expect 0xE0-0xEA and 0xF0-0xF4 to act as RAM, I/O and accumulator instructions; in the code those opcodes advance `pc` by 1, which is what the model states.
- The chip's real semantics for JCN's invert bit, SRC, the ALU, the call stack and 4-bit registers are not implemented by the code, so they are not modelled.
