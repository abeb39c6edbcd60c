/**
 The x86_64 subset that translated filters use: operations, a machine with
 sixteen 64-bit registers, two flags and byte-addressed memory, and its
 fetch-execute loop. An access to an unmapped byte, a division error or a
 branch on flags that the architecture leaves undefined is a fault.
 */
module Native {
  import opened Words

  /** Register names with the operand width they are used at. `Rsi` is not part of the
      translator's subset; it is only reached by reading bytes as the architecture does. */
  datatype Register =
    | Eax | Ecx | Edx | Esi | R13d | R14d | R15d
    | Rbp | Rsp | R12 | R13 | R14 | R15 | Rdi | Rsi

  datatype Width = W8 | W16 | W32 | W64 {
    function Bytes(): nat {
      match this
      case W8 => 1
      case W16 => 2
      case W32 => 4
      case W64 => 8
    }
  }

  datatype Operand = Reg(r: Register) | Imm(v: U32) | Mem(base: Register, disp: int)

  datatype BinaryKind = XAdd | XSub | XMul | XOr | XAnd | XXor

  datatype ShiftKind = Left | Right

  datatype UnaryKind = Negate | ByteSwap | RotateLeft

  datatype Condition = Below | Equal | NotEqual | Above | AboveOrEqual

  datatype NativeOp =
    | Push(r: Register)
    | Pop(r: Register)
    | Mov(width: Width, dst: Operand, src: Operand)
    | Load(width: Width, reg: Register, base: Register, disp: int)
    | Binary(kind: BinaryKind, width: Width, dst: Operand, src: Operand)
    | ImmediateMultiply(reg: Register, from: Register, v: U32)
    | Compare(width: Width, left: Operand, right: Operand)
    | Test(width: Width, left: Operand, right: Operand)
    | ShiftImmediate(shift: ShiftKind, width: Width, reg: Register, count: U8)
    | ShiftRegister(shift: ShiftKind, width: Width, reg: Register)
    | Unary(unary: UnaryKind, width: Width, reg: Register, v8: U8)
    | Divide(width: Width, divisor: Operand)
    | SpeculationBarrier
    | ConditionalJump(condition: Condition, target: nat)
    | DirectJump(target: nat)
    | Return

  // ----- machine state -----

  datatype Flags = Undefined | Flags(cf: bool, zf: bool)

  type Memory = map<int, U8>

  type Registers = r: seq<U64> | |r| == 16 witness seq(16, _ => 0)

  datatype State = State(regs: Registers, flags: Flags, mem: Memory)

  const RAX: nat := 0
  const RCX: nat := 1
  const RDX: nat := 2
  const RSP: nat := 4
  const RBP: nat := 5
  const RSI: nat := 6
  const RDI: nat := 7

  function Number(r: Register): (n: nat)
    ensures n < 16
  {
    match r
    case Eax => 0
    case Ecx => 1
    case Edx => 2
    case Rsp => 4
    case Rbp => 5
    case Esi => 6
    case Rsi => 6
    case Rdi => 7
    case R12 => 12
    case R13d => 13
    case R13 => 13
    case R14d => 14
    case R14 => 14
    case R15d => 15
    case R15 => 15
  }

  predicate Mapped(mem: Memory, a: int, n: nat) {
    forall i :: a <= i < a + n ==> i in mem
  }

  /** The little-endian value of `n` bytes. */
  function Read(mem: Memory, a: int, n: nat): nat
    requires Mapped(mem, a, n)
    decreases n
  {
    if n == 0 then 0 else mem[a] + 0x100 * Read(mem, a + 1, n - 1)
  }

  /** Stores the low `n` bytes of `v`, little-endian. */
  function Write(mem: Memory, a: int, n: nat, v: nat): (r: Memory)
    requires Mapped(mem, a, n)
    ensures r.Keys == mem.Keys
    ensures forall i :: i in mem && !(a <= i < a + n) ==> r[i] == mem[i]
    decreases n
  {
    if n == 0 then mem else Write(mem[a := v % 0x100], a + 1, n - 1, v / 0x100)
  }

  function Address(s: State, base: Register, disp: int): U64 {
    (s.regs[Number(base)] + disp) % B64
  }

  function Reg32(s: State, r: Register): U32 { s.regs[Number(r)] % B32 }

  function Set(s: State, r: Register, v: U64): State {
    s.(regs := s.regs[Number(r) := v])
  }

  function LoadInto(s: State, width: Width, reg: Register, base: Register, disp: int): Option<State> {
    var a := Address(s, base, disp);
    if !Mapped(s.mem, a, width.Bytes()) then None
    else
      ReadBound(s.mem, a, width);
      Some(Set(s, reg, Read(s.mem, a, width.Bytes())))
  }

  lemma ReadBound(mem: Memory, a: int, width: Width)
    requires Mapped(mem, a, width.Bytes())
    ensures 0 <= Read(mem, a, width.Bytes()) < B64
    ensures width != W64 ==> Read(mem, a, width.Bytes()) < B32
  {
    ReadBelow(mem, a, width.Bytes());
    assert Pow256(4) == B32;
    assert Pow256(8) == B64;
  }

  function Pow256(n: nat): nat { if n == 0 then 1 else 0x100 * Pow256(n - 1) }

  lemma {:induction false} ReadBelow(mem: Memory, a: int, n: nat)
    requires Mapped(mem, a, n)
    ensures Read(mem, a, n) < Pow256(n)
    decreases n
  {
    if n > 0 {
      ReadBelow(mem, a + 1, n - 1);
    }
  }

  /** An immediate operand is sign-extended when the operation is 64 bits wide. */
  function Wide(v: U32): U64 { if v < 0x8000_0000 then v else v + (B64 - B32) }

  function Value(s: State, width: Width, o: Operand): Option<U64> {
    match (width, o)
    case (W32, Reg(r)) => Some(Reg32(s, r))
    case (W64, Reg(r)) => Some(s.regs[Number(r)])
    case (W8, Reg(r)) => Some(s.regs[Number(r)] % 0x100)
    case (W32, Imm(v)) => Some(v)
    case (W64, Imm(v)) => Some(Wide(v))
    case (W8, Imm(v)) => Some(v % 0x100)
    case _ => None
  }

  function LogicFlags(result: int): Flags { Flags(false, result == 0) }

  function BinaryValue(kind: BinaryKind, a: U32, b: U32): U32 {
    match kind
    case XAdd => Add32(a, b)
    case XSub => Sub32(a, b)
    case XMul => Mul32(a, b)
    case XOr => Or32(a, b)
    case XAnd => And32(a, b)
    case XXor => Xor32(a, b)
  }

  function BinaryFlags(kind: BinaryKind, a: U32, b: U32): Flags {
    match kind
    case XAdd => Flags(a + b >= B32, Add32(a, b) == 0)
    case XSub => Flags(a < b, a == b)
    case XMul => Undefined
    case _ => Flags(false, BinaryValue(kind, a, b) == 0)
  }

  function BinaryOn32(s: State, kind: BinaryKind, d: Register, b: U32): State {
    Set(s, d, BinaryValue(kind, Reg32(s, d), b)).(flags := BinaryFlags(kind, Reg32(s, d), b))
  }

  function BinaryOn64(s: State, kind: BinaryKind, d: Register, b: U64): Option<State> {
    var a := s.regs[Number(d)];
    match kind
    case XAdd => Some(Set(s, d, (a + b) % B64).(flags := Flags(a + b >= B64, (a + b) % B64 == 0)))
    case XSub => Some(Set(s, d, (a - b) % B64).(flags := Flags(a < b, a == b)))
    case _ => None
  }

  function Shifted(shift: ShiftKind, a: U32, count: U8): U32 {
    match shift
    case Left => Shl32(a, count)
    case Right => Shr32(a, count)
  }

  /** Unsigned division of edx:eax; a zero divisor or a quotient over 32 bits raises #DE. */
  function DivideBy(s: State, d: U32): Option<State> {
    var hi, lo := Reg32(s, Edx), Reg32(s, Eax);
    if d == 0 || hi >= d then None
    else if hi == 0 then
      Some(Set(Set(s, Eax, Quotient32(lo, d)), Edx, Remainder32(lo, d)).(flags := Undefined))
    else
      var n := hi * B32 + lo;
      WideQuotient(hi, lo, d);
      Some(Set(Set(s, Eax, n / d), Edx, n % d).(flags := Undefined))
  }

  lemma {:induction false} WideQuotient(hi: U32, lo: U32, d: U32)
    requires hi < d
    ensures 0 <= (hi * B32 + lo) / d < B32
  {
    var n := hi * B32 + lo;
    assert n < d * B32;
    QuotientBound(n, d);
    DivisionBelow(n, d, B32);
  }

  lemma {:induction false} DivisionBelow(n: int, d: int, b: int)
    requires n >= 0 && d > 0 && n < d * b
    ensures n / d < b
  {
    var q := n / d;
    assert n >= q * d;
    assert q >= b ==> q * d >= b * d;
  }

  function Pushed(s: State, v: U64): Option<State> {
    var sp := (s.regs[RSP] - 8) % B64;
    if !Mapped(s.mem, sp, 8) then None
    else Some(s.(regs := s.regs[RSP := sp], mem := Write(s.mem, sp, 8, v)))
  }

  /** The value on top of the stack. */
  function Top(s: State): U64
    requires Mapped(s.mem, s.regs[RSP], 8)
  {
    ReadBound(s.mem, s.regs[RSP], W64);
    Read(s.mem, s.regs[RSP], 8)
  }

  function Dropped(s: State): State { s.(regs := s.regs[RSP := (s.regs[RSP] + 8) % B64]) }

  function Popped(s: State, r: Register): Option<State> {
    if !Mapped(s.mem, s.regs[RSP], 8) then None else Some(Set(Dropped(s), r, Top(s)))
  }

  function Stored(s: State, base: Register, disp: int, v: U32): Option<State> {
    var a := Address(s, base, disp);
    if !Mapped(s.mem, a, 4) then None else Some(s.(mem := Write(s.mem, a, 4, v)))
  }

  function Moved(s: State, width: Width, dst: Operand, src: Operand): Option<State> {
    match (dst, src)
    case (Mem(base, disp), Reg(r)) => if width == W32 then Stored(s, base, disp, Reg32(s, r)) else None
    case (Reg(d), _) =>
      if width == W8 || Value(s, width, src).None? then None else Some(Set(s, d, Value(s, width, src).value))
    case _ => None
  }

  function Combined(s: State, kind: BinaryKind, width: Width, dst: Operand, src: Operand): Option<State> {
    if !dst.Reg? || Value(s, width, src).None? then None
    else
      match width
      case W32 => Some(BinaryOn32(s, kind, dst.r, Value32(s, src)))
      case W64 => BinaryOn64(s, kind, dst.r, Value(s, W64, src).value)
      case _ => None
  }

  function Value32(s: State, o: Operand): U32
    requires Value(s, W32, o).Some?
  {
    Value(s, W32, o).value
  }

  function Compared(s: State, width: Width, left: Operand, right: Operand): Option<State> {
    match (Value(s, width, left), Value(s, width, right))
    case (Some(a), Some(b)) => Some(s.(flags := Flags(a < b, a == b)))
    case _ => None
  }

  function Tested(s: State, width: Width, left: Operand, right: Operand): Option<State> {
    match (Value(s, width, left), Value(s, width, right))
    case (Some(a), Some(b)) => Some(s.(flags := LogicFlags(Bits(BitAnd, a, b, 8 * width.Bytes()))))
    case _ => None
  }

  /** A 16-bit rotation leaves the upper 48 bits of the register in place. */
  function HalfRotated(v: U64): U64 {
    var high := v / 0x1_0000;
    assert high * 0x1_0000 <= v;
    assert high < 0x1_0000_0000_0000;
    high * 0x1_0000 + Swap16(v % 0x1_0000)
  }

  function Transformed(s: State, unary: UnaryKind, width: Width, reg: Register, v8: U8): Option<State> {
    match (unary, width)
    case (Negate, W32) => Some(Set(s, reg, Neg32(Reg32(s, reg))).(flags := Undefined))
    case (ByteSwap, W32) => Some(Set(s, reg, Swap32(Reg32(s, reg))))
    case (RotateLeft, W16) =>
      if v8 != 8 then None else Some(Set(s, reg, HalfRotated(s.regs[Number(reg)])).(flags := Undefined))
    case _ => None
  }

  /** Straight-line operations; `None` is a fault. Control transfers are executed by `Run`. */
  function Exec(op: NativeOp, s: State): Option<State> {
    match op
    case Push(r) => Pushed(s, s.regs[Number(r)])
    case Pop(r) => Popped(s, r)
    case Mov(width, dst, src) => Moved(s, width, dst, src)
    case Load(width, reg, base, disp) => LoadInto(s, width, reg, base, disp)
    case Binary(kind, width, dst, src) => Combined(s, kind, width, dst, src)
    case ImmediateMultiply(reg, from, v) =>
      Some(Set(s, reg, Mul32(Reg32(s, from), v)).(flags := Undefined))
    case Compare(width, left, right) => Compared(s, width, left, right)
    case Test(width, left, right) => Tested(s, width, left, right)
    case ShiftImmediate(shift, width, reg, count) =>
      if width != W32 then None
      else Some(Set(s, reg, Shifted(shift, Reg32(s, reg), count)).(flags := Undefined))
    case ShiftRegister(shift, width, reg) =>
      if width != W32 then None
      else Some(Set(s, reg, Shifted(shift, Reg32(s, reg), s.regs[RCX] % 0x100)).(flags := Undefined))
    case Unary(unary, width, reg, v8) => Transformed(s, unary, width, reg, v8)
    case Divide(width, divisor) =>
      if width == W32 && divisor.Reg? then DivideBy(s, Reg32(s, divisor.r)) else None
    case SpeculationBarrier => Some(s)
    case ConditionalJump(_, _) => None
    case DirectJump(_) => None
    case Return => None
  }

  predicate Holds(c: Condition, f: Flags)
    requires f.Flags?
  {
    match c
    case Below => f.cf
    case Equal => f.zf
    case NotEqual => !f.zf
    case Above => !f.cf && !f.zf
    case AboveOrEqual => !f.cf
  }

  // ----- fetch-execute -----

  /** What is fetched at an offset: an operation and the offset after it. */
  type Fetch = nat -> Option<(NativeOp, nat)>

  /** The effect of straight-line operations, as a value that the loop is given. */
  type Executor = (NativeOp, State) -> Option<State>

  datatype Halt = Returned(state: State, address: U64) | Faulted | Exhausted

  function Run(exec: Executor, fetch: Fetch, rip: nat, s: State, fuel: nat): Halt
    decreases fuel
  {
    if fuel == 0 then Exhausted
    else
      match fetch(rip)
      case None => Faulted
      case Some((op, next)) =>
        if op.DirectJump? then Run(exec, fetch, op.target, s, fuel - 1)
        else if op.ConditionalJump? then
          if s.flags.Undefined? then Faulted
          else Run(exec, fetch, if Holds(op.condition, s.flags) then op.target else next, s, fuel - 1)
        else if op.Return? then
          if !Mapped(s.mem, s.regs[RSP], 8) then Faulted else Returned(Dropped(s), Top(s))
        else
          match exec(op, s)
          case None => Faulted
          case Some(t) => Run(exec, fetch, next, t, fuel - 1)
  }

  // ----- memory laws -----

  lemma {:induction false} ReadFrame(m1: Memory, m2: Memory, a: int, n: nat)
    requires Mapped(m1, a, n) && Mapped(m2, a, n)
    requires forall i :: a <= i < a + n ==> m1[i] == m2[i]
    ensures Read(m1, a, n) == Read(m2, a, n)
    decreases n
  {
    if n > 0 {
      ReadFrame(m1, m2, a + 1, n - 1);
    }
  }

  /** A value that fits is read back as it was stored. */
  lemma {:induction false} ReadWrite(mem: Memory, a: int, n: nat, v: nat)
    requires Mapped(mem, a, n) && v < Pow256(n)
    ensures Read(Write(mem, a, n, v), a, n) == v
    decreases n
  {
    if n > 0 {
      var next := mem[a := v % 0x100];
      ReadWrite(next, a + 1, n - 1, v / 0x100);
      var w := Write(next, a + 1, n - 1, v / 0x100);
      assert w[a] == v % 0x100;
    }
  }
}
