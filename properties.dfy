/** What one step of the interpreter does, instruction family by
    instruction family, and how steps compose. */
module Properties {
  import opened Semantics

  /** The recognised instructions, listed as a table of bit patterns
      independently of the dispatch in Step. */
  predicate Recognized(i: Instruction)
  {
    || (i.c == 0 && i.x == 0 && i.y == 0 && i.d == 0)        // halt
    || (i.c == 0 && i.x == 0 && i.y == 0xE && i.d == 0xE)    // ret
    || i.c == 1 || i.c == 2 || i.c == 3 || i.c == 4          // jmp, call, skips on kk
    || (i.c == 5 && i.d == 0)                                 // skip on Vx == Vy
    || i.c == 6 || i.c == 7                                   // load, add immediate
    || (i.c == 8 && i.d <= 5)                                 // register-register
  }

  /** The instructions that redirect pc: jump, call and return. */
  predicate IsTransfer(i: Instruction)
  {
    i.c == 1 || i.c == 2 || (i.c == 0 && i.x == 0 && i.y == 0xE && i.d == 0xE)
  }

  /** The conditional skips 3xkk, 4xkk and 5xy0. */
  predicate IsSkip(i: Instruction)
  {
    i.c == 3 || i.c == 4 || (i.c == 5 && i.d == 0)
  }

  /** Whether a skip instruction skips, given the registers. */
  predicate SkipTaken(i: Instruction, v: seq<Byte>)
    requires |v| == RegisterCount
  {
    if i.c == 3 then v[i.x] == i.kk
    else if i.c == 4 then v[i.x] != i.kk
    else v[i.x] == v[i.y]
  }

  /** Decoding an assembled word gives back its fields: the four nibbles,
      the 12-bit address of the low three and the byte of the low two. */
  lemma DecodeEncode(c: Nibble, x: Nibble, y: Nibble, d: Nibble)
    ensures Decode(Encode(c, x, y, d)) ==
            Instruction(c, x, y, d, x * 0x100 + y * 0x10 + d, y * 0x10 + d)
  {
    var w := Encode(c, x, y, d);
    var i := Decode(w);
    assert i.c == c by {
      assert x * 0x100 + y * 0x10 + d < 0x1000;
      assert i.x * 0x100 + i.y * 0x10 + i.d < 0x1000;
    }
    assert i.x == x by {
      assert y * 0x10 + d < 0x100;
      assert i.y * 0x10 + i.d < 0x100;
    }
    assert i.y == y;
  }

  /** Every word is the assembly of its decoded nibbles. */
  lemma EncodeDecode(w: Word)
    ensures Encode(Decode(w).c, Decode(w).x, Decode(w).y, Decode(w).d) == w
  {
  }

  /** The halt word returns from the run loop; pc has already moved past it
      and nothing else changes. */
  lemma HaltStep(m: Machine)
    requires Valid(m) && Fetch(m.memory, m.pc) == Some(0x0000)
    ensures Step(m) == (Halted, m.(pc := m.pc + 2))
  {
  }

  /** A pc whose two-byte window does not fit in memory is an
      out-of-bounds fetch, reported before pc moves: the machine is
      unchanged. */
  lemma OutOfBoundsStep(m: Machine)
    requires Valid(m) && m.pc + 1 >= MemorySize
    ensures Step(m) == (Faulted(OutOfBounds(m.pc)), m)
  {
  }

  /** A non-faulting step of an instruction other than a jump, call, return
      or skip moves pc to the next instruction and does not touch the stack. */
  lemma SequentialPc(m: Machine, w: Word)
    requires Valid(m) && Fetch(m.memory, m.pc) == Some(w)
    requires !IsTransfer(Decode(w)) && !IsSkip(Decode(w))
    requires !Step(m).0.Faulted?
    ensures Step(m).1.pc == m.pc + 2
    ensures Step(m).1.stack == m.stack && Step(m).1.sp == m.sp
  {
  }

  /** 3xkk, 4xkk and 5xy0 advance pc by 4 from the instruction's own address
      when their condition holds and by 2 otherwise, and change nothing else. */
  lemma SkipStep(m: Machine, w: Word)
    requires Valid(m) && Fetch(m.memory, m.pc) == Some(w) && IsSkip(Decode(w))
    ensures Step(m) == (Continue, m.(pc := m.pc + if SkipTaken(Decode(w), m.registers) then 4 else 2))
  {
  }

  /** 1nnn sets pc to nnn, the low twelve bits of the word. */
  lemma JumpStep(m: Machine, w: Word)
    requires Valid(m) && Fetch(m.memory, m.pc) == Some(w) && Decode(w).c == 1
    ensures Step(m) == (Continue, m.(pc := w % 0x1000))
  {
  }

  /** 2nnn with room on the stack pushes the address of the next
      instruction and jumps to nnn; on a full stack it is a stack overflow
      and the machine is unchanged. */
  lemma CallStep(m: Machine, w: Word)
    requires Valid(m) && Fetch(m.memory, m.pc) == Some(w) && Decode(w).c == 2
    ensures m.sp < StackSize ==>
      Step(m) == (Continue, m.(stack := m.stack[m.sp := m.pc + 2], sp := m.sp + 1, pc := w % 0x1000))
    ensures m.sp == StackSize ==> Step(m) == (Faulted(StackOverflow), m)
  {
    assert AsU16(m.pc + 2) == m.pc + 2;
  }

  /** 00EE on a non-empty stack pops the top address into pc; on an empty
      stack it is a stack underflow and the machine is unchanged. */
  lemma RetStep(m: Machine)
    requires Valid(m) && Fetch(m.memory, m.pc) == Some(0x00EE)
    ensures m.sp > 0 ==> Step(m) == (Continue, m.(pc := m.stack[m.sp - 1], sp := m.sp - 1))
    ensures m.sp == 0 ==> Step(m) == (Faulted(StackUnderflow), m)
  {
    DecodeEncode(0, 0, 0xE, 0xE);
  }

  /** A step writes the stack only at slot sp (a call pushing there), so
      every slot below sp keeps its value. */
  lemma StepKeepsLowerSlots(m: Machine, k: nat)
    requires Valid(m) && k < m.sp
    ensures Step(m).1.stack[k] == m.stack[k]
  {
  }

  /** Every machine of a run of n steps from m, up to the one it stops at,
      has its stack pointer above k: the run stays inside the subroutine
      whose return address is in slot k. */
  predicate StaysAbove(m: Machine, n: nat, k: nat)
    requires Valid(m)
    decreases n
  {
    && m.sp > k
    && (n > 0 && Step(m).0 == Continue ==> StaysAbove(Step(m).1, n - 1, k))
  }

  /** A run that stays above slot k leaves slot k as it found it. */
  lemma {:induction false} RunKeepsSlot(m: Machine, n: nat, k: nat)
    requires Valid(m) && StaysAbove(m, n, k)
    ensures k < StackSize && Run(m, n).1.stack[k] == m.stack[k]
    decreases n
  {
    if n > 0 && Step(m).0 == Continue {
      StepKeepsLowerSlots(m, k);
      RunKeepsSlot(Step(m).1, n - 1, k);
    }
  }

  /** A call, then n steps of a subroutine body that stays above the
      caller's stack depth and ends at a return with the callee's stack
      pointer: the return brings pc back to the instruction after the call
      and the stack pointer back to its value before the call, n + 2 steps
      after the call. */
  lemma CallThenReturn(m: Machine, w: Word, n: nat)
    requires Valid(m) && Fetch(m.memory, m.pc) == Some(w) && Decode(w).c == 2
    requires m.sp < StackSize
    requires StaysAbove(Step(m).1, n, m.sp)
    requires Run(Step(m).1, n).0 == Continue
    requires Run(Step(m).1, n).1.sp == m.sp + 1
    requires Fetch(Run(Step(m).1, n).1.memory, Run(Step(m).1, n).1.pc) == Some(0x00EE)
    ensures Step(m).0 == Continue && Step(m).1.pc == w % 0x1000
    ensures
      var body := Run(Step(m).1, n).1;
      Run(m, n + 2) == (Continue, body.(pc := m.pc + 2, sp := m.sp))
  {
    CallStep(m, w);
    var m1 := Step(m).1;
    var body := Run(m1, n).1;
    RunKeepsSlot(m1, n, m.sp);
    assert body.stack[m.sp] == m.pc + 2;
    RetStep(body);
    RunAppend(m, 1, n);
    RunAppend(m, 1 + n, 1);
    assert Run(m, 1) == (Continue, m1);
    assert Run(body, 1) == (Continue, body.(pc := m.pc + 2, sp := m.sp));
    assert n + 2 == 1 + n + 1;
  }

  /** 8xy4 and 8xy5 with a = Vx and b = Vy: Vx becomes (a + b) mod 256 or
      (a - b) mod 256, VF becomes 1 exactly when the sum exceeds 255 or
      a < b; VF is written after Vx, so x == F leaves the flag in VF; no
      other register, nor memory, nor the stack changes. */
  lemma ArithmeticStep(m: Machine, w: Word)
    requires Valid(m) && Fetch(m.memory, m.pc) == Some(w)
    requires Decode(w).c == 8 && (Decode(w).d == 4 || Decode(w).d == 5)
    ensures
      var x, y, add := Decode(w).x, Decode(w).y, Decode(w).d == 4;
      var a, b := m.registers[x] as int, m.registers[y] as int;
      var (o, m') := Step(m);
      && o == Continue
      && m'.pc == m.pc + 2 && m'.memory == m.memory && m'.stack == m.stack && m'.sp == m.sp
      && (x != Flag ==> m'.registers[x] == if add then (a + b) % 0x100 else (a - b) % 0x100)
      && m'.registers[Flag] == (if (add && a + b > 0xFF) || (!add && a < b) then 1 else 0)
      && (forall j :: 0 <= j < RegisterCount && j != x && j != Flag ==> m'.registers[j] == m.registers[j])
  {
    var i := Decode(w);
    var a, b := m.registers[i.x], m.registers[i.y];
    var sum, sub := OverflowingAdd(a, b), OverflowingSub(a, b);
    assert sum.0 == (a as int + b) % 0x100 && (sum.1 <==> a as int + b > 0xFF);
    assert sub.0 == (a as int - b) % 0x100 && (sub.1 <==> a < b);
  }

  /** 6xkk, 7xkk, 8xy0, 8xy1, 8xy2 and 8xy3 write Vx only: kk, Vx + kk
      wrapped to 8 bits (no carry into VF), Vy, Vx | Vy, Vx & Vy or
      Vx ^ Vy; memory, the stack and the stack pointer are untouched. */
  lemma SingleRegisterStep(m: Machine, w: Word)
    requires Valid(m) && Fetch(m.memory, m.pc) == Some(w)
    requires Decode(w).c == 6 || Decode(w).c == 7 || (Decode(w).c == 8 && Decode(w).d <= 3)
    ensures
      var i := Decode(w);
      var v := m.registers;
      var (o, m') := Step(m);
      && o == Continue
      && m'.pc == m.pc + 2 && m'.memory == m.memory && m'.stack == m.stack && m'.sp == m.sp
      && (forall j :: 0 <= j < RegisterCount && j != i.x ==> m'.registers[j] == v[j])
      && m'.registers[i.x] ==
         (if i.c == 6 then i.kk
          else if i.c == 7 then (v[i.x] as int + i.kk) % 0x100
          else if i.d == 0 then v[i.y]
          else if i.d == 1 then Or(v[i.x], v[i.y])
          else if i.d == 2 then And(v[i.x], v[i.y])
          else Xor(v[i.x], v[i.y]))
  {
  }

  /** A fetched word faults as an unknown opcode exactly when it is not in
      the table of recognised instructions. */
  lemma UnknownOpcodeStep(m: Machine, w: Word)
    requires Valid(m) && Fetch(m.memory, m.pc) == Some(w)
    ensures Step(m).0 == Faulted(UnknownOpcode(w, m.pc)) <==> !Recognized(Decode(w))
  {
  }

  /** Words of each kind that the dispatch does not recognise: 0nnn other
      than 0000 and 00EE, 5xyN with N != 0, 8xyN with N >= 6, and every
      class from 9 to F. */
  lemma UnknownOpcodeExamples(c: Nibble, x: Nibble, y: Nibble, d: Nibble)
    ensures !Recognized(Decode(0x0123)) && !Recognized(Decode(0x00E0))
    ensures c == 0 && !(x == 0 && y == 0 && d == 0) && !(x == 0 && y == 0xE && d == 0xE) ==>
              !Recognized(Decode(Encode(0, x, y, d)))
    ensures d != 0 ==> !Recognized(Decode(Encode(5, x, y, d)))
    ensures d >= 6 ==> !Recognized(Decode(Encode(8, x, y, d)))
    ensures c >= 9 ==> !Recognized(Decode(Encode(c, x, y, d)))
  {
    DecodeEncode(0, 1, 2, 3);
    DecodeEncode(0, 0, 0xE, 0);
    DecodeEncode(0, x, y, d);
    DecodeEncode(5, x, y, d);
    DecodeEncode(8, x, y, d);
    DecodeEncode(c, x, y, d);
  }

  /** Running a + b steps is running a steps, then, if the machine is still
      going, b more. */
  lemma {:induction false} RunAppend(m: Machine, a: nat, b: nat)
    requires Valid(m)
    ensures Run(m, a + b) == if Run(m, a).0 == Continue then Run(Run(m, a).1, b) else Run(m, a)
    decreases a
  {
    if a > 0 {
      var (o, m') := Step(m);
      if o == Continue {
        RunAppend(m', a - 1, b);
        assert a + b - 1 == (a - 1) + b;
      }
    }
  }

  /** A program consisting of the halt word stops the loop at once, with
      no register, memory or stack change. */
  lemma HaltRun(m: Machine, fuel: nat)
    requires Valid(m) && Fetch(m.memory, m.pc) == Some(0x0000) && fuel > 0
    ensures Run(m, fuel) == (Halted, m.(pc := m.pc + 2))
  {
    HaltStep(m);
  }
}
