/** Value-level semantics of the CHIP-8 interpreter core of src/lib.rs.

    A `Machine` is a snapshot of everything a `CPU` owns: the sixteen 8-bit
    registers, the 4096 bytes of memory, the program counter
    (`position_in_memory`), the sixteen-entry return-address stack and its
    stack pointer.  `Step` is one turn of the fetch-decode-execute loop of
    `CPU::run`, `Run` is that loop under a step budget.  The class in module
    Cpu is proved to compute exactly these functions.
 */
module Semantics {

  /** An unsigned 8-bit value (Rust `u8`). */
  type Byte = b: int | 0 <= b < 0x100

  /** An unsigned 16-bit value (Rust `u16`). */
  type Word = w: int | 0 <= w < 0x1_0000

  /** A 4-bit field of an instruction word. */
  type Nibble = n: int | 0 <= n < 0x10

  const RegisterCount: nat := 0x10
  const MemorySize: nat := 0x1000
  const StackSize: nat := 0x10

  /** Register VF, overwritten with the carry/borrow of 8xy4 and 8xy5. */
  const Flag: Nibble := 0xF

  datatype Option<T> = None | Some(value: T)

  datatype Machine = Machine(
    registers: seq<Byte>,
    memory: seq<Byte>,
    pc: nat,
    stack: seq<Word>,
    sp: nat)

  /** The fixed array sizes of the Rust struct, and the stack pointer never
      past the end of the stack. */
  predicate Valid(m: Machine)
  {
    && |m.registers| == RegisterCount
    && |m.memory| == MemorySize
    && |m.stack| == StackSize
    && m.sp <= StackSize
  }

  /** The machine `CPU::new` builds: every register, byte and stack slot zero. */
  function Initial(): (m: Machine)
    ensures Valid(m) && m.pc == 0 && m.sp == 0
    ensures forall i :: 0 <= i < RegisterCount ==> m.registers[i] == 0
    ensures forall a :: 0 <= a < MemorySize ==> m.memory[a] == 0
    ensures forall k :: 0 <= k < StackSize ==> m.stack[k] == 0
  {
    Machine(seq(RegisterCount, _ => 0), seq(MemorySize, _ => 0), 0, seq(StackSize, _ => 0), 0)
  }

  /** `read_opcode`: the big-endian word in memory[pc], memory[pc + 1].
      `byte1 << 8 | byte2` is `byte1 * 0x100 + byte2` because byte2 < 0x100.
      A window that does not fit in memory is the out-of-bounds fetch at which
      Rust panics; here it is `None`. */
  function Fetch(memory: seq<Byte>, pc: nat): (r: Option<Word>)
    ensures r.Some? <==> pc + 1 < |memory|
    ensures r.Some? ==> r.value / 0x100 == memory[pc] && r.value % 0x100 == memory[pc + 1]
  {
    if pc + 1 < |memory| then Some(memory[pc] as int * 0x100 + memory[pc + 1]) else None
  }

  /** The bit fields of an instruction word: class c and operands x, y, d
      from the high nibble to the low one, the 12-bit address nnn and the
      8-bit immediate kk. */
  datatype Instruction = Instruction(c: Nibble, x: Nibble, y: Nibble, d: Nibble, nnn: Word, kk: Byte)

  lemma LowByteOfAddress(w: Word)
    ensures w % 0x1000 % 0x100 == w % 0x100
  {
    var q := w / 0x1000;
    assert w == q * 0x1000 + w % 0x1000;
    assert q * 0x1000 == (q * 0x10) * 0x100;
  }

  /** The decode of `CPU::run`.  Each mask-and-shift is replaced by a
      division and remainder that is equivalent to it on a 16-bit value
      (the equivalence is not proved here):
      `(w & 0xF000) >> 12` by `w / 0x1000`, `(w & 0x0F00) >> 8` by
      `(w % 0x1000) / 0x100`, `(w & 0x00F0) >> 4` by `(w % 0x100) / 0x10`,
      `w & 0x0FFF` by `w % 0x1000` and `w & 0x00FF` by `w % 0x100`.
      `w & 0x000F` is taken as `kk % 0x10`, which equals `w % 0x10`.
      The ensures clauses fix the four nibbles as the base-16 digits of w. */
  function Decode(w: Word): (i: Instruction)
    ensures i.c * 0x1000 + i.x * 0x100 + i.y * 0x10 + i.d == w
    ensures i.nnn == i.x * 0x100 + i.y * 0x10 + i.d
    ensures i.kk == i.y * 0x10 + i.d
  {
    LowByteOfAddress(w);
    var nnn := w % 0x1000;
    var kk := w % 0x100;
    Instruction(w / 0x1000, nnn / 0x100, kk / 0x10, kk % 0x10, nnn, kk)
  }

  /** The instruction word with the given four nibbles (what an assembler
      emits); the inverse of Decode. */
  function Encode(c: Nibble, x: Nibble, y: Nibble, d: Nibble): (w: Word)
  {
    c * 0x1000 + x * 0x100 + y * 0x10 + d
  }

  /** `u8::overflowing_add`: the wrapped sum and whether it wrapped; the
      flag is the ninth bit of the true sum. */
  function OverflowingAdd(a: Byte, b: Byte): (r: (Byte, bool))
    ensures r.0 + (if r.1 then 0x100 else 0) == a + b
  {
    ((a as int + b) % 0x100, a as int + b > 0xFF)
  }

  /** `u8::overflowing_sub`: the wrapped difference and whether it borrowed. */
  function OverflowingSub(a: Byte, b: Byte): (r: (Byte, bool))
    ensures r.0 - (if r.1 then 0x100 else 0) == a - b
  {
    ((a as int - b) % 0x100, a < b)
  }

  /** Bitwise operators on `u8`, computed on 8-bit vectors. */
  function Or(a: Byte, b: Byte): Byte { ((a as bv8) | (b as bv8)) as int }
  function And(a: Byte, b: Byte): Byte { ((a as bv8) & (b as bv8)) as int }
  function Xor(a: Byte, b: Byte): Byte { ((a as bv8) ^ (b as bv8)) as int }

  /** `perform_op`: apply `f` to Vx and Vy, store the value in Vx, then the
      overflow bit in VF.  VF is written last, so for x == 0xF it holds the
      flag; every other register keeps its value. */
  function ApplyBinary(registers: seq<Byte>, x: Nibble, y: Nibble, f: (Byte, Byte) -> (Byte, bool)): (r: seq<Byte>)
    requires |registers| == RegisterCount
    ensures |r| == RegisterCount
    ensures r[Flag] == if f(registers[x], registers[y]).1 then 1 else 0
    ensures x != Flag ==> r[x] == f(registers[x], registers[y]).0
    ensures forall i :: 0 <= i < RegisterCount && i != x && i != Flag ==> r[i] == registers[i]
  {
    var (val, overflow) := f(registers[x], registers[y]);
    registers[x := val][Flag := if overflow then 1 else 0]
  }

  /** The run-time errors at which the Rust code panics (or stops at `todo!`). */
  datatype Fault =
    | OutOfBounds(pc: nat)
    | StackOverflow
    | StackUnderflow
    | UnknownOpcode(opcode: Word, address: nat)

  /** What one step of the loop does: go on, return from `run` at the halt
      word, or fail. */
  datatype Outcome = Continue | Halted | Faulted(fault: Fault)

  /** The value `position_in_memory as u16` pushed by `call`. */
  function AsU16(n: nat): Word { n % 0x1_0000 }

  /** One turn of the loop of `CPU::run`: fetch at pc, advance pc by 2,
      decode, dispatch.  A faulting step leaves the machine as it was before
      the step. */
  function Step(m: Machine): (r: (Outcome, Machine))
    requires Valid(m)
    ensures Valid(r.1) && r.1.memory == m.memory
    ensures r.0.Faulted? ==> r.1 == m
  {
    match Fetch(m.memory, m.pc)
    case None => (Faulted(OutOfBounds(m.pc)), m)
    case Some(opcode) =>
      var i := Decode(opcode);
      var v := m.registers;
      var next := m.(pc := m.pc + 2);
      match (i.c, i.x, i.y, i.d)
      case (0, 0, 0, 0) => (Halted, next)
      case (0, 0, 0xE, 0xE) =>
        if m.sp == 0 then (Faulted(StackUnderflow), m)
        else (Continue, next.(sp := m.sp - 1, pc := m.stack[m.sp - 1]))
      case (1, _, _, _) => (Continue, next.(pc := i.nnn))
      case (2, _, _, _) =>
        if m.sp >= StackSize then (Faulted(StackOverflow), m)
        else (Continue, next.(stack := m.stack[m.sp := AsU16(next.pc)], sp := m.sp + 1, pc := i.nnn))
      case (3, x, _, _) => (Continue, if v[x] == i.kk then next.(pc := next.pc + 2) else next)
      case (4, x, _, _) => (Continue, if v[x] != i.kk then next.(pc := next.pc + 2) else next)
      case (5, x, y, 0) => (Continue, if v[x] == v[y] then next.(pc := next.pc + 2) else next)
      case (6, x, _, _) => (Continue, next.(registers := v[x := i.kk]))
      // `+=` on u8 wraps in a release build (a debug build panics); the
      // wrapping behaviour is the one modelled.
      case (7, x, _, _) => (Continue, next.(registers := v[x := (v[x] as int + i.kk) % 0x100]))
      case (8, x, y, 0) => (Continue, next.(registers := v[x := v[y]]))
      case (8, x, y, 1) => (Continue, next.(registers := v[x := Or(v[x], v[y])]))
      case (8, x, y, 2) => (Continue, next.(registers := v[x := And(v[x], v[y])]))
      case (8, x, y, 3) => (Continue, next.(registers := v[x := Xor(v[x], v[y])]))
      case (8, x, y, 4) => (Continue, next.(registers := ApplyBinary(v, x, y, OverflowingAdd)))
      case (8, x, y, 5) => (Continue, next.(registers := ApplyBinary(v, x, y, OverflowingSub)))
      case _ => (Faulted(UnknownOpcode(opcode, m.pc)), m)
  }

  /** `CPU::run` under a budget of `fuel` steps: it stops at the first step
      that halts or faults, and reports `Continue` when the budget runs out
      first (the Rust loop has no budget and may run forever). */
  function Run(m: Machine, fuel: nat): (r: (Outcome, Machine))
    requires Valid(m)
    ensures Valid(r.1) && r.1.memory == m.memory
    decreases fuel
  {
    if fuel == 0 then (Continue, m)
    else
      var (o, m') := Step(m);
      if o == Continue then Run(m', fuel - 1) else (o, m')
  }
}
