/** The `CPU` struct of src/lib.rs and its methods, over arrays updated in
    place.  Each method is proved to leave the CPU in the state that the
    value-level semantics of module Semantics prescribes. */
module Cpu {
  import opened Semantics

  class CPU {
    var registers: array<Byte>
    var memory: array<Byte>
    /** `position_in_memory` */
    var pc: nat
    var stack: array<Word>
    /** `stack_pointer`: the next free stack slot */
    var sp: nat

    ghost predicate Valid()
      reads this
    {
      && registers.Length == RegisterCount
      && memory.Length == MemorySize
      && stack.Length == StackSize
      && registers != memory
      && sp <= StackSize
    }

    /** The machine this CPU holds. */
    ghost function State(): (m: Machine)
      reads this, registers, memory, stack
      requires Valid()
      ensures Semantics.Valid(m)
    {
      Machine(registers[..], memory[..], pc, stack[..], sp)
    }

    /** `CPU::new` */
    constructor ()
      ensures Valid() && fresh(registers) && fresh(memory) && fresh(stack)
      ensures State() == Initial()
    {
      registers := new Byte[RegisterCount](_ => 0);
      memory := new Byte[MemorySize](_ => 0);
      pc := 0;
      stack := new Word[StackSize](_ => 0);
      sp := 0;
      new;
      assert registers[..] == Initial().registers;
      assert memory[..] == Initial().memory;
      assert stack[..] == Initial().stack;
    }

    /** `read_opcode`: reads the word at pc and changes nothing.  The caller
        (`Step`) reports an out-of-bounds window before calling it. */
    method ReadOpcode() returns (opcode: Word)
      requires Valid() && pc + 1 < memory.Length
      ensures opcode / 0x100 == memory[pc] && opcode % 0x100 == memory[pc + 1]
      ensures Fetch(memory[..], pc) == Some(opcode)
    {
      var byte1 := memory[pc];
      var byte2 := memory[pc + 1];
      opcode := byte1 as int * 0x100 + byte2;
    }

    /** `perform_op`: Vx := f(Vx, Vy).0, then VF := f(Vx, Vy).1 as 0 or 1. */
    method PerformOp(x: Nibble, y: Nibble, f: (Byte, Byte) -> (Byte, bool))
      requires Valid()
      modifies registers
      ensures registers[..] == ApplyBinary(old(registers[..]), x, y, f)
    {
      var arg1 := registers[x];
      var arg2 := registers[y];
      var (val, overflow) := f(arg1, arg2);
      registers[x] := val;
      if overflow {
        registers[Flag] := 1;
      } else {
        registers[Flag] := 0;
      }
    }

    /** `add_xy` (opcode 8xy4) */
    method AddXY(x: Nibble, y: Nibble)
      requires Valid()
      modifies registers
      ensures registers[..] == ApplyBinary(old(registers[..]), x, y, OverflowingAdd)
    {
      PerformOp(x, y, OverflowingAdd);
    }

    /** `sub_xy` (opcode 8xy5) */
    method SubXY(x: Nibble, y: Nibble)
      requires Valid()
      modifies registers
      ensures registers[..] == ApplyBinary(old(registers[..]), x, y, OverflowingSub)
    {
      PerformOp(x, y, OverflowingSub);
    }

    /** `jmp` */
    method Jmp(addr: Word)
      modifies this`pc
      ensures pc == addr
    {
      pc := addr;
    }

    /** `call`: push pc (as a u16) and jump to addr, or fail on a full stack.
        The Rust guard is `sp > stack.len()`, which never holds; at
        sp == 16 Rust panics on the array index instead.  The guard here is
        the one that catches that case. */
    method Call(addr: Word) returns (outcome: Outcome)
      requires Valid()
      modifies this`pc, this`sp, stack
      ensures Valid()
      ensures old(sp) < StackSize ==>
        && outcome == Continue
        && stack[..] == old(stack[..])[old(sp) := AsU16(old(pc))]
        && sp == old(sp) + 1
        && pc == addr
      ensures old(sp) >= StackSize ==>
        && outcome == Faulted(StackOverflow)
        && stack[..] == old(stack[..]) && sp == old(sp) && pc == old(pc)
    {
      if sp >= stack.Length {
        return Faulted(StackOverflow);
      }
      stack[sp] := AsU16(pc);
      sp := sp + 1;
      pc := addr;
      outcome := Continue;
    }

    /** `ret`: pop the return address into pc, or fail on an empty stack. */
    method Ret() returns (outcome: Outcome)
      requires Valid()
      modifies this`pc, this`sp
      ensures Valid()
      ensures old(sp) > 0 ==> outcome == Continue && sp == old(sp) - 1 && pc == stack[sp]
      ensures old(sp) == 0 ==> outcome == Faulted(StackUnderflow) && sp == 0 && pc == old(pc)
    {
      if sp == 0 {
        return Faulted(StackUnderflow);
      }
      sp := sp - 1;
      pc := stack[sp];
      outcome := Continue;
    }

    /** One turn of the loop of `CPU::run`.  On a fault, pc is put back, so
        the CPU is as it was before the step. */
    method Step() returns (outcome: Outcome)
      requires Valid()
      modifies this, registers, stack
      ensures Valid() && registers == old(registers) && memory == old(memory) && stack == old(stack)
      ensures (outcome, State()) == Semantics.Step(old(State()))
    {
      ghost var before := State();
      if pc + 1 >= memory.Length {
        assert Fetch(before.memory, before.pc) == None;
        return Faulted(OutOfBounds(pc));
      }
      var opcode := ReadOpcode();
      assert Fetch(before.memory, before.pc) == Some(opcode);
      var address := pc;
      pc := pc + 2;
      var i := Decode(opcode);
      outcome := Continue;
      match (i.c, i.x, i.y, i.d)
      case (0, 0, 0, 0) => outcome := Halted;
      case (0, 0, 0xE, 0xE) =>
        outcome := Ret();
        if outcome.Faulted? {
          pc := address;
        }
      case (1, _, _, _) => Jmp(i.nnn);
      case (2, _, _, _) =>
        outcome := Call(i.nnn);
        if outcome.Faulted? {
          pc := address;
        }
      case (3, x, _, _) =>
        if registers[x] == i.kk {
          pc := pc + 2;
        }
      case (4, x, _, _) =>
        if registers[x] != i.kk {
          pc := pc + 2;
        }
      case (5, x, y, 0) =>
        if registers[x] == registers[y] {
          pc := pc + 2;
        }
      case (6, x, _, _) => registers[x] := i.kk;
      // wrapping, as `+=` on u8 behaves in a release build
      case (7, x, _, _) => registers[x] := (registers[x] as int + i.kk) % 0x100;
      case (8, x, y, 0) => registers[x] := registers[y];
      case (8, x, y, 1) => registers[x] := Or(registers[x], registers[y]);
      case (8, x, y, 2) => registers[x] := And(registers[x], registers[y]);
      case (8, x, y, 3) => registers[x] := Xor(registers[x], registers[y]);
      case (8, x, y, 4) => AddXY(x, y);
      case (8, x, y, 5) => SubXY(x, y);
      case _ =>
        outcome := Faulted(UnknownOpcode(opcode, address));
        pc := address;
    }

    /** `CPU::run` under a budget of `fuel` steps (a host's step budget; the
        Rust loop itself has none). */
    method Run(fuel: nat) returns (outcome: Outcome)
      requires Valid()
      modifies this, registers, stack
      ensures Valid() && registers == old(registers) && memory == old(memory) && stack == old(stack)
      ensures (outcome, State()) == Semantics.Run(old(State()), fuel)
    {
      outcome := Continue;
      var remaining: nat := fuel;
      while remaining > 0 && outcome == Continue
        invariant Valid() && registers == old(registers) && memory == old(memory) && stack == old(stack)
        invariant remaining <= fuel
        invariant Semantics.Run(old(State()), fuel) ==
                  if outcome == Continue then Semantics.Run(State(), remaining) else (outcome, State())
      {
        outcome := Step();
        remaining := remaining - 1;
      }
    }
  }
}
