# CHIP-8 interpreter core, modelled and verified in Dafny

This project models the CHIP-8 CPU of `src/lib.rs`. The `CPU` holds sixteen
8-bit registers V0–VF, 4096 bytes of memory, a program counter
(`position_in_memory`), and a sixteen-entry stack of 16-bit return addresses
with a stack pointer. `run` is a fetch-decode-execute loop. Each turn reads the
big-endian word at pc and advances pc by 2. It then splits the word into the
nibbles c, x, y, d, the address nnn and the byte kk, and dispatches on
(c, x, y, d):

- the halt word 0000;
- return 00EE;
- jump 1nnn and call 2nnn;
- the skips 3xkk, 4xkk and 5xy0;
- the loads and logic operations 6xkk, 7xkk and 8xy0 to 8xy3;
- add and subtract with the flag in VF, 8xy4 and 8xy5.

Files:

- `semantics.dfy`, module `Semantics`: the machine as a value (`Machine`) and
  the pure functions `Fetch`, `Decode`, `OverflowingAdd`/`OverflowingSub`,
  `ApplyBinary` (what `perform_op` computes), `Step` (one turn of the loop) and
  `Run` (the loop under a step budget).
- `cpu.dfy`, module `Cpu`: the class `CPU` with its arrays updated in place and
  the methods `ReadOpcode`, `PerformOp`, `AddXY`, `SubXY`, `Jmp`, `Call`, `Ret`,
  `Step` and `Run`. Each state-changing method's postcondition gives its new
  state. For `Step` and `Run` that state is the result of `Semantics.Step` /
  `Semantics.Run` applied to the old state.
- `properties.dfy`, module `Properties`: what a step does, one instruction
  family at a time (pc advance, skips, jump, call, return, arithmetic flags,
  single-register updates, unknown opcodes, halt), plus how runs compose.
- `scenarios.dfy`, module `Scenarios`: the program of `src/main.rs` computes
  V0 = 45, both on the value model and on the `CPU` class. It also holds a chain
  of seventeen nested calls: the first sixteen fill the stack and the
  seventeenth overflows it.
- `findings.dfy`, module `Findings`: the overflow guard of `call` as written.

Modelling choices:

- Bytes and words are the integer subtypes `Byte` (0..255) and `Word`
  (0..65535). Wrap-around is written out with `% 0x100`. The bitwise
  `|`, `&` and `^` are computed on `bv8`.
- The masks and shifts of the decode are written as divisions and remainders
  that are equivalent to them on 16-bit values (see the comment on `Decode`).
  That equivalence is stated in the comment, not proved.
- `7xkk` uses plain `+=` on `u8`. That wraps in a release build and panics in
  a debug build. The model wraps, and leaves VF alone.
- The Rust code panics, or stops at `todo!`, on four errors: an out-of-bounds
  fetch, stack overflow, stack underflow and an unknown opcode. Here each is a
  `Fault` value in the step's `Outcome`. A faulting step returns the machine as
  it was before that step, with pc put back too. The Rust process would have
  aborted instead.
- `run` has no bound and may loop forever, for example on a `1nnn` that jumps to
  itself. `Run` takes a step budget `fuel` and reports `Continue` when the
  budget runs out.

## Model

| member | source | states |
|---|---|---|
| Semantics.Initial | src/lib.rs:12-20 | every register, memory byte and stack slot is zero; pc and sp are zero |
| Cpu.CPU.constructor | src/lib.rs:12-20 | fresh register, memory and stack arrays, and the CPU's state is the all-zero machine |
| Semantics.Fetch | src/lib.rs:21-27 | a word is read exactly when pc + 1 is inside memory; its high byte is memory[pc] and its low byte memory[pc + 1] |
| Cpu.CPU.ReadOpcode | src/lib.rs:21-27 | changes nothing; its result has memory[pc] as high byte and memory[pc + 1] as low byte, which is what Fetch yields |
| Semantics.Decode | src/lib.rs:34-40 | c·4096 + x·256 + y·16 + d is the word, nnn = x·256 + y·16 + d and kk = y·16 + d, so c, x, y, d are the nibbles from high to low |
| Properties.DecodeEncode | src/lib.rs:34-40 | decoding the word assembled from four nibbles gives back those nibbles, nnn from the low three and kk from the low two |
| Properties.EncodeDecode | src/lib.rs:34-37 | every word is the assembly of its four decoded nibbles |
| Semantics.OverflowingAdd | src/lib.rs:86-88 | the wrapped sum plus 256 when the flag is set equals the true sum a + b |
| Semantics.OverflowingSub | src/lib.rs:90-92 | the wrapped difference minus 256 when the flag is set equals the true difference a - b |
| Semantics.ApplyBinary | src/lib.rs:94-109 | VF is 1 or 0 as f reports overflow; Vx is f's value unless x is F (the flag is written last); every other register is unchanged |
| Cpu.CPU.PerformOp | src/lib.rs:94-109 | the register array becomes ApplyBinary of its old contents |
| Cpu.CPU.AddXY | src/lib.rs:86-88 | perform_op with overflowing add |
| Cpu.CPU.SubXY | src/lib.rs:90-92 | perform_op with overflowing subtract |
| Cpu.CPU.Jmp | src/lib.rs:111-113 | pc becomes the address and nothing else changes |
| Cpu.CPU.Call | src/lib.rs:115-126 | with sp < 16: the old pc (as u16) is stored in slot sp, sp is incremented and pc becomes the address; with sp = 16: stack overflow and nothing changes |
| Cpu.CPU.Ret | src/lib.rs:128-136 | with sp > 0: sp is decremented and pc becomes stack[sp]; with sp = 0: stack underflow and nothing changes |
| Semantics.Step | src/lib.rs:31-82 | a step keeps the machine well formed (sp ≤ 16), never writes memory, and a faulting step leaves the machine unchanged |
| Cpu.CPU.Step | src/lib.rs:31-82 | the outcome and the CPU's new state are Semantics.Step of its old state; no array is reallocated |
| Semantics.Run | src/lib.rs:29-84 | any number of steps keeps the machine well formed and leaves memory unchanged |
| Cpu.CPU.Run | src/lib.rs:29-84 | the loop over Step gives the outcome and the state of Semantics.Run with the same budget |
| Properties.RunAppend | src/lib.rs:29-33 | running a + b steps is running a steps and then, if still running, b more |
| Properties.OutOfBoundsStep | src/lib.rs:21-24 | a pc whose two-byte window does not fit in memory faults as OutOfBounds(pc) and leaves the machine unchanged |
| Properties.HaltStep | src/lib.rs:43-45 | the halt word returns Halted; pc has moved by 2 and nothing else changed |
| Properties.HaltRun | src/lib.rs:29-45 | a program that starts with the halt word stops the loop at its first step without touching registers, memory or the stack |
| Properties.SequentialPc | src/lib.rs:31-32 | every non-faulting step of an instruction other than jump, call, return or skip leaves pc at the old pc + 2 and the stack and sp unchanged |
| Properties.SkipStep | src/lib.rs:49-63 | 3xkk, 4xkk and 5xy0 go to pc + 4 when the condition (Vx = kk, Vx ≠ kk, Vx = Vy) holds and to pc + 2 otherwise, changing nothing else |
| Properties.JumpStep | src/lib.rs:47 | 1nnn sets pc to the low twelve bits of the word and changes nothing else |
| Properties.CallStep | src/lib.rs:48 | 2nnn with sp < 16 pushes pc + 2, increments sp and jumps to nnn; with sp = 16 it is a stack overflow with the machine unchanged |
| Properties.RetStep | src/lib.rs:46 | 00EE with sp > 0 pops the top slot into pc; with sp = 0 it is a stack underflow with the machine unchanged |
| Properties.StepKeepsLowerSlots | src/lib.rs:115-136 | a step never changes a stack slot below sp (only a call writes the stack, at slot sp) |
| Properties.RunKeepsSlot | src/lib.rs:29-33 | a run in which every machine has sp above k leaves stack slot k unchanged |
| Properties.CallThenReturn | src/lib.rs:115-136 | a call, then any n-step subroutine body that keeps sp above the caller's depth and ends at a return with the callee's sp, then the return: n + 2 steps after the call pc is the call's address + 2 and sp is its value before the call |
| Properties.ArithmeticStep | src/lib.rs:79-80 | 8xy4/8xy5 with a = Vx and b = Vy: Vx becomes (a + b) mod 256 or (a - b) mod 256 (unless x = F); VF is 1 exactly when a + b > 255 or a < b; other registers, memory, stack and sp are kept and pc advances by 2 |
| Properties.SingleRegisterStep | src/lib.rs:64-78 | 6xkk, 7xkk, 8xy0 to 8xy3 change only Vx, to kk, (Vx + kk) mod 256, Vy, Vx or Vy, Vx and Vy, or Vx xor Vy; memory, stack and sp are kept and pc advances by 2 |
| Properties.UnknownOpcodeStep | src/lib.rs:42-81 | a fetched word faults as an unknown opcode exactly when it is not in the table of recognised patterns |
| Properties.UnknownOpcodeExamples | src/lib.rs:81 | 0nnn other than 0000/00EE, 5xyN with N ≠ 0, 8xyN with N ≥ 6 and every class 9 to F are unrecognised |
| Scenarios.DemoComputes45 | src/main.rs:13-43 | the demonstration program, started with V0 = 5 and V1 = 10, halts after nine steps with V0 = 45 |
| Scenarios.RunDemo | src/main.rs:4-43 | building a CPU, poking the registers and the program in, and running it yields V0 = 45 |
| Scenarios.NestingToCapacity | src/lib.rs:115-126 | sixteen nested calls succeed and fill the stack; the seventeenth is a stack overflow |
| Findings.CallAsWritten | src/lib.rs:115-126 | call as written: it pushes exactly when sp < 16, storing the old pc in slot sp and jumping to the address |
| Findings.GuardNeverFires | src/lib.rs:119-121 | the guard `sp > stack.len()` never holds for a stack pointer within the stack |
| Findings.FullStackPassesGuard | src/lib.rs:119-123 | at sp = 16 the guard lets the call through and the failure is the out-of-bounds index of the write |
| Findings.AgreesBelowCapacity | src/lib.rs:115-126 | below capacity, call as written and the corrected Step push the same address and jump to the same place |

## Findings

| source | as written | input that shows it | evidently intended | confidence | as-written member | corrected member |
|---|---|---|---|---|---|---|
| src/lib.rs:119-123 | `if sp > stack.len()` guards the write `stack[sp]` | a call with sp = 16 (all slots used): the guard passes and `stack[16]` panics on the index instead of as "Stack overflow!" | `sp >= stack.len()`, so a full stack is reported as stack overflow | not executed; high (the guard is unreachable because sp never exceeds 16) | Findings.FullStackPassesGuard | Properties.CallStep |

Either way the seventeenth nested call fails. The difference is which check
catches it. `Semantics.Step`, `Cpu.CPU.Call` and every lemma use the corrected
guard.

## Left out

- Display, keyboard, delay and sound timers, and the rest of the CHIP-8
  instruction set: the source has none of them.
- Panic and `todo!` message text: each error is a `Fault` tag. The unknown
  opcode tag keeps the word and its address.
- The debug-build overflow panic of `7xkk`: the release-build wrap-around is
  modelled.
- Cpu.CPU.Run: the Rust loop has no bound. The model runs at most `fuel` steps
  and reports `Continue` when they are used up, so a program that never halts
  is seen one budget at a time.
- Semantics.Step: after a fault the model gives back the machine as it was
  before the step. The Rust code panics instead. For three of the four errors
  (a failing call, a failing return and an unknown opcode at `todo!`) it has
  already advanced pc by 2 at src/lib.rs:32 when it panics; only the
  out-of-bounds fetch at src/lib.rs:23-24 fails before the advance. The model
  rolls back so that a failed run leaves the state of the last completed
  instruction.
- `usize` wrap-around of pc is not modelled (pc is a `nat`). A fetch needs
  pc ≤ 0xFFE, and jumps and returns land below 0x1001, so pc never comes near
  the `usize` limit.
- `src/main.rs` is a harness and not a core file. Its program is used as a
  fixture. Its struct literal sets fields that are private to the library
  crate, so as written it would not compile. `Scenarios.RunDemo` sets them
  directly instead.
- The bitwise operators `|`, `&` and `^` are computed on `bv8` and have no
  lemmas of their own.
