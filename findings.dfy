/** The overflow guard of `call` in src/lib.rs as written, next to the
    corrected guard that Step uses. */
module Findings {
  import opened Semantics

  /** How the Rust `call` ends: it writes the stack slot and jumps, panics
      in its own guard, or panics when indexing the stack. */
  datatype RustCall = Pushed(m: Machine) | GuardPanic | IndexPanic

  /** `call(addr)` as written: the guard is `sp > stack.len()`, and the
      write `stack[sp]` is bounds-checked by Rust. */
  function CallAsWritten(m: Machine, addr: Word): (r: RustCall)
    requires Valid(m)
    ensures r.Pushed? <==> m.sp < |m.stack|
    ensures r.Pushed? ==>
      && r.m.sp == m.sp + 1 && r.m.pc == addr
      && |r.m.stack| == |m.stack| && r.m.stack[m.sp] == AsU16(m.pc)
      && (forall j :: 0 <= j < |m.stack| && j != m.sp ==> r.m.stack[j] == m.stack[j])
      && r.m.registers == m.registers && r.m.memory == m.memory
  {
    if m.sp > |m.stack| then GuardPanic
    else if m.sp >= |m.stack| then IndexPanic
    else Pushed(m.(stack := m.stack[m.sp := AsU16(m.pc)], sp := m.sp + 1, pc := addr))
  }

  /** The guard as written never fires on a machine whose stack pointer is
      within the stack. */
  lemma GuardNeverFires(m: Machine, addr: Word)
    requires Valid(m)
    ensures !CallAsWritten(m, addr).GuardPanic?
  {
  }

  /** The input that shows it: with all sixteen slots in use, the guard as
      written lets the call through and the panic comes from the index
      `stack[16]` instead of from the stack-overflow check. */
  lemma FullStackPassesGuard(m: Machine, addr: Word)
    requires Valid(m) && m.sp == StackSize
    ensures !(m.sp > |m.stack|)
    ensures CallAsWritten(m, addr) == IndexPanic
  {
  }

  /** Below capacity the code as written and the corrected Step push the
      same return address and jump to the same place. */
  lemma AgreesBelowCapacity(m: Machine, w: Word)
    requires Valid(m) && Fetch(m.memory, m.pc) == Some(w) && Decode(w).c == 2
    requires m.sp < StackSize
    ensures CallAsWritten(m.(pc := m.pc + 2), Decode(w).nnn) == Pushed(Step(m).1)
  {
  }
}
