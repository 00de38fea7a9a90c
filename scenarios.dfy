/** Whole programs run on the interpreter: the demonstration program of
    src/main.rs, and a chain of nested calls that fills the return stack. */
module Scenarios {
  import opened Semantics
  import opened Properties
  import Cpu

  /** One more step of a machine that keeps going is one step less of
      budget from the next machine. */
  lemma RunUnfold(m: Machine, n: nat)
    requires Valid(m) && Step(m).0 == Continue
    ensures Run(m, n + 1) == Run(Step(m).1, n)
  {
  }

  /** The memory image of src/main.rs: CALL 0x100 twice, then halt; at
      0x100 two `ADD V0, V1` (8014) and a return. */
  function DemoRom(): (rom: seq<Byte>)
    ensures |rom| == MemorySize
  {
    Initial().memory
      [0x000 := 0x21][0x001 := 0x00]
      [0x002 := 0x21][0x003 := 0x00]
      [0x004 := 0x00][0x005 := 0x00]
      [0x100 := 0x80][0x101 := 0x14]
      [0x102 := 0x80][0x103 := 0x14]
      [0x104 := 0x00][0x105 := 0xEE]
  }

  /** A fresh machine with V0 = 5, V1 = 10 and the demonstration program. */
  function DemoMachine(): (m: Machine)
    ensures Valid(m)
  {
    Initial().(registers := Initial().registers[0 := 5][1 := 10], memory := DemoRom())
  }

  /** The subroutine at 0x100 adds V1 to V0 twice and returns; run from
      pc = 0 the program halts after nine steps with V0 = 5 + 4 * 10 = 45. */
  lemma DemoComputes45()
    ensures Run(DemoMachine(), 9).0 == Halted
    ensures Run(DemoMachine(), 9).1.registers[0] == 45
  {
    var rom := DemoRom();
    var m0 := DemoMachine();
    assert Fetch(rom, 0x000) == Some(0x2100);
    assert Fetch(rom, 0x002) == Some(0x2100);
    assert Fetch(rom, 0x004) == Some(0x0000);
    assert Fetch(rom, 0x100) == Some(0x8014);
    assert Fetch(rom, 0x102) == Some(0x8014);
    assert Fetch(rom, 0x104) == Some(0x00EE);
    DecodeEncode(2, 1, 0, 0);
    DecodeEncode(8, 0, 1, 4);

    // first call, two additions, return
    CallStep(m0, 0x2100);
    var m1 := Step(m0).1;
    assert m1.pc == 0x100 && m1.sp == 1 && m1.stack[0] == 2 && m1.registers == m0.registers;
    ArithmeticStep(m1, 0x8014);
    var m2 := Step(m1).1;
    assert m2.pc == 0x102 && m2.sp == 1 && m2.stack == m1.stack;
    assert m2.registers[0] == 15 && m2.registers[1] == 10;
    ArithmeticStep(m2, 0x8014);
    var m3 := Step(m2).1;
    assert m3.pc == 0x104 && m3.sp == 1 && m3.stack == m1.stack;
    assert m3.registers[0] == 25 && m3.registers[1] == 10;
    RetStep(m3);
    var m4 := Step(m3).1;
    assert m4.pc == 0x002 && m4.sp == 0 && m4.registers == m3.registers;

    // second call, two additions, return
    CallStep(m4, 0x2100);
    var m5 := Step(m4).1;
    assert m5.pc == 0x100 && m5.sp == 1 && m5.stack[0] == 4 && m5.registers == m4.registers;
    ArithmeticStep(m5, 0x8014);
    var m6 := Step(m5).1;
    assert m6.pc == 0x102 && m6.sp == 1 && m6.stack == m5.stack;
    assert m6.registers[0] == 35 && m6.registers[1] == 10;
    ArithmeticStep(m6, 0x8014);
    var m7 := Step(m6).1;
    assert m7.pc == 0x104 && m7.sp == 1 && m7.stack == m5.stack;
    assert m7.registers[0] == 45;
    RetStep(m7);
    var m8 := Step(m7).1;
    assert m8.pc == 0x004 && m8.registers == m7.registers;

    // halt
    HaltStep(m8);
    RunUnfold(m0, 8);
    RunUnfold(m1, 7);
    RunUnfold(m2, 6);
    RunUnfold(m3, 5);
    RunUnfold(m4, 4);
    RunUnfold(m5, 3);
    RunUnfold(m6, 2);
    RunUnfold(m7, 1);
    HaltRun(m8, 1);
  }

  /** src/main.rs on the CPU class: build, poke the registers and the
      program, run, read V0. */
  method RunDemo() returns (v0: Byte)
    ensures v0 == 45
  {
    var cpu := new Cpu.CPU();
    cpu.registers[0] := 5;
    cpu.registers[1] := 10;
    cpu.memory[0x000] := 0x21;
    cpu.memory[0x001] := 0x00;
    cpu.memory[0x002] := 0x21;
    cpu.memory[0x003] := 0x00;
    cpu.memory[0x004] := 0x00;
    cpu.memory[0x005] := 0x00;
    cpu.memory[0x100] := 0x80;
    cpu.memory[0x101] := 0x14;
    cpu.memory[0x102] := 0x80;
    cpu.memory[0x103] := 0x14;
    cpu.memory[0x104] := 0x00;
    cpu.memory[0x105] := 0xEE;
    assert cpu.State() == DemoMachine();
    var outcome := cpu.Run(9);
    DemoComputes45();
    v0 := cpu.registers[0];
  }

  /** A program of seventeen calls, each to the word after it: at address
      2k the word 2(2k + 2). */
  function ChainRom(): (rom: seq<Byte>)
    ensures |rom| == MemorySize
  {
    seq(MemorySize, a => if a < 34 then (if a % 2 == 0 then 0x20 else a + 1) else 0)
  }

  /** The chain program after k calls. */
  function Chain(k: nat): (m: Machine)
    requires k <= StackSize
    ensures Valid(m)
  {
    Initial().(memory := ChainRom(), pc := 2 * k, sp := k,
               stack := seq(StackSize, j => if j < k then 2 * j + 2 else 0))
  }

  lemma ChainStep(k: nat)
    requires k < StackSize
    ensures Step(Chain(k)) == (Continue, Chain(k + 1))
  {
    var m := Chain(k);
    var w := 0x2000 + 2 * k + 2;
    assert Fetch(m.memory, m.pc) == Some(w);
    DecodeEncode(2, 0, (2 * k + 2) / 0x10, (2 * k + 2) % 0x10);
    CallStep(m, w);
    assert m.stack[k := 2 * k + 2] == Chain(k + 1).stack;
  }

  lemma {:induction false} ChainRun(k: nat)
    requires k <= StackSize
    ensures Run(Chain(0), k) == (Continue, Chain(k))
  {
    if k > 0 {
      ChainRun(k - 1);
      RunAppend(Chain(0), k - 1, 1);
      ChainStep(k - 1);
      assert k - 1 + 1 == k;
    }
  }

  /** Sixteen nested calls fill the stack; the seventeenth is a stack
      overflow that leaves the machine as the sixteenth left it. */
  lemma NestingToCapacity()
    ensures Run(Chain(0), StackSize) == (Continue, Chain(StackSize))
    ensures Chain(StackSize).sp == StackSize
    ensures Run(Chain(0), StackSize + 1) == (Faulted(StackOverflow), Chain(StackSize))
  {
    ChainRun(StackSize);
    RunAppend(Chain(0), StackSize, 1);
    var m := Chain(StackSize);
    assert Fetch(m.memory, m.pc) == Some(0x2022);
    DecodeEncode(2, 0, 2, 2);
    CallStep(m, 0x2022);
  }
}
