/**
 How the processor itself reads the same bytes: operand-size and REX prefixes,
 an opcode, and a ModRM byte whose fields select registers or a memory operand.
 Encodings beyond the forms below are outside this model and read as `None`.
 The validator's exact-byte table is compared with this reading.
 */
module Architecture {
  import opened Words
  import opened Native
  import opened Decoder

  /** A register number at an operand width, where the subset has a name for it. */
  function Name(w: Width, n: nat): Option<Register> {
    match w
    case W64 =>
      if n == 4 then Some(Rsp) else if n == 5 then Some(Rbp) else if n == 6 then Some(Rsi)
      else if n == 7 then Some(Rdi) else if n == 12 then Some(R12) else if n == 13 then Some(R13)
      else if n == 14 then Some(R14) else if n == 15 then Some(R15) else None
    case _ =>
      if n == 0 then Some(Eax) else if n == 1 then Some(Ecx) else if n == 2 then Some(Edx)
      else if n == 6 then Some(Esi) else if n == 13 then Some(R13d) else if n == 14 then Some(R14d)
      else if n == 15 then Some(R15d) else None
  }

  /** Prefix state: operand-size override and the REX bits W, R and B. */
  datatype Prefix = Prefix(half: bool, w: bool, r: bool, b: bool) {
    function OperandWidth(): Width { if w then W64 else if half then W16 else W32 }
  }

  /** ModRM: the register field and the r/m operand. */
  datatype ModRm = ModRm(reg: nat, rm: RmOperand, next: nat)

  datatype RmOperand = RmRegister(n: nat) | RmMemory(base: nat, disp: int)

  function Bit(f: bool): nat { if f then 8 else 0 }

  function ModRmAt(b: seq<U8>, p: nat, x: Prefix): Option<ModRm> {
    if p >= |b| then None
    else
      var m := b[p];
      var mode, reg, low := m / 64, m / 8 % 8 + Bit(x.r), m % 8;
      var n := low + Bit(x.b);
      if mode == 3 then Some(ModRm(reg, RmRegister(n), p + 1))
      else if mode == 0 && low != 4 && low != 5 then Some(ModRm(reg, RmMemory(n, 0), p + 1))
      else if mode == 1 && low != 4 && p + 1 < |b| then Some(ModRm(reg, RmMemory(n, Signed8(b[p + 1])), p + 2))
      else None
  }

  function OperandOf(w: Width, rm: RmOperand): Option<Operand> {
    match rm
    case RmRegister(n) =>
      (match Name(w, n)
       case None => None
       case Some(r) => Some(Reg(r)))
    case RmMemory(base, disp) =>
      (match Name(W64, base)
       case None => None
       case Some(r) => Some(Mem(r, disp)))
  }

  /** An operation with an r/m operand and a register operand. */
  function RmReg(b: seq<U8>, p: nat, x: Prefix, w: Width, op: (Operand, Register) -> Option<NativeOp>): Decoded {
    match ModRmAt(b, p, x)
    case None => None
    case Some(m) =>
      match (OperandOf(w, m.rm), Name(x.OperandWidth(), m.reg))
      case (Some(o), Some(r)) =>
        (match op(o, r)
         case None => None
         case Some(op) => Some((op, m.next)))
      case _ => None
  }

  /** A group operation, selected by the register field of ModRM, on an r/m operand. */
  function RmGroup(b: seq<U8>, p: nat, x: Prefix, w: Width): Option<(nat, Operand, nat)> {
    match ModRmAt(b, p, x)
    case None => None
    case Some(m) =>
      match OperandOf(w, m.rm)
      case Some(o) => Some((m.reg % 8, o, m.next))
      case None => None
  }

  function LoadFrom(w: Width, d: Register, o: Operand): Option<NativeOp> {
    match o
    case Mem(base, disp) => Some(Load(w, d, base, disp))
    case _ => None
  }

  function MoveTo(w: Width, d: Register, o: Operand): Option<NativeOp> {
    match o
    case Mem(base, disp) => Some(Load(w, d, base, disp))
    case Reg(r) => Some(Mov(w, Reg(d), o))
    case Imm(_) => None
  }

  function Arithmetic(kind: nat, w: Width, left: Operand, right: Operand): Option<NativeOp> {
    if kind == 0 then Some(Binary(XAdd, w, left, right))
    else if kind == 1 then Some(Binary(XOr, w, left, right))
    else if kind == 4 then Some(Binary(XAnd, w, left, right))
    else if kind == 5 then Some(Binary(XSub, w, left, right))
    else if kind == 6 then Some(Binary(XXor, w, left, right))
    else if kind == 7 then Some(Compare(w, left, right))
    else None
  }

  function ConditionOf(code: nat): Option<Condition> {
    if code == 2 then Some(Below) else if code == 3 then Some(AboveOrEqual)
    else if code == 4 then Some(Equal) else if code == 5 then Some(NotEqual)
    else if code == 7 then Some(Above) else None
  }

  /** A byte immediate is sign-extended to the operand. */
  function SignExtended(v: U8): U32 { if v < 0x80 then v else v + (B32 - 0x100) }

  function Finish(op: Option<NativeOp>, next: nat): Decoded {
    match op
    case None => None
    case Some(o) => Some((o, next))
  }

  function RexBits(v: U8): Prefix {
    Prefix(false, v / 8 % 2 == 1, v / 4 % 2 == 1, v % 2 == 1)
  }

  /** The prefixes at `p` and the offset after them; REX.X only serves forms outside this model. */
  function PrefixAt(b: seq<U8>, p: nat): (Prefix, nat) {
    if ByteAt(b, p) == 0x66 then (Prefix(true, false, false, false), p + 1)
    else if 0x40 <= ByteAt(b, p) < 0x50 && b[p] / 2 % 2 == 0 then (RexBits(b[p]), p + 1)
    else (Prefix(false, false, false, false), p)
  }

  function ReadInstruction(b: seq<U8>, p: nat): Decoded {
    ReadOpcode(b, PrefixAt(b, p).1, PrefixAt(b, p).0)
  }

  function ReadOpcode(b: seq<U8>, p: nat, x: Prefix): Decoded {
    if p >= |b| then None
    else
      var code := b[p];
      if code == 0x0f then ReadEscape(b, p + 1, x)
      else if 0x50 <= code < 0x58 then
        (match Name(W64, code - 0x50 + Bit(x.b))
         case None => None
         case Some(r) => Some((Push(r), p + 1)))
      else if 0x58 <= code < 0x60 then
        (match Name(W64, code - 0x58 + Bit(x.b))
         case None => None
         case Some(r) => Some((Pop(r), p + 1)))
      else if code < 0x40 then ReadArithmetic(b, p, x)
      else if code in {0x81, 0x83, 0xc1, 0xd3, 0xf6, 0xf7} then ReadGroup(b, p, x)
      else ReadMove(b, p, x)
  }

  /** The eight arithmetic rows, in their r/m,reg and accumulator,imm32 columns. */
  function ReadArithmetic(b: seq<U8>, p: nat, x: Prefix): Decoded
    requires p < |b|
  {
    var kind, column, w := b[p] / 8, b[p] % 8, x.OperandWidth();
    if column == 1 then RmReg(b, p + 1, x, w, (o: Operand, r: Register) => Arithmetic(kind, w, o, Reg(r)))
    else if column == 5 && w == W32 then
      (match Imm32At(b, p + 1)
       case None => None
       case Some(v) => Finish(Arithmetic(kind, W32, Reg(Eax), Imm(v)), p + 5))
    else None
  }

  function ReadMove(b: seq<U8>, p: nat, x: Prefix): Decoded
    requires p < |b|
  {
    var code, w := b[p], x.OperandWidth();
    if code == 0x89 then RmReg(b, p + 1, x, w, (o: Operand, r: Register) => Some(Mov(w, o, Reg(r))))
    else if code == 0x8b then RmReg(b, p + 1, x, w, (o: Operand, r: Register) => MoveTo(w, r, o))
    else if code == 0x85 then RmReg(b, p + 1, x, w, (o: Operand, r: Register) => Some(Test(w, o, Reg(r))))
    else if code == 0x69 && w == W32 then
      (match ModRmAt(b, p + 1, x)
       case None => None
       case Some(m) =>
         match (OperandOf(W32, m.rm), Name(W32, m.reg), Imm32At(b, m.next))
         case (Some(Reg(s)), Some(r), Some(v)) => Some((ImmediateMultiply(r, s, v), m.next + 4))
         case _ => None)
    else if 0xb8 <= code < 0xc0 && w == W32 then
      (match (Name(W32, code - 0xb8 + Bit(x.b)), Imm32At(b, p + 1))
       case (Some(r), Some(v)) => Some((Mov(W32, Reg(r), Imm(v)), p + 5))
       case _ => None)
    else if code == 0xa9 && w == W32 then
      (match Imm32At(b, p + 1)
       case None => None
       case Some(v) => Some((Test(W32, Reg(Eax), Imm(v)), p + 5)))
    else if code == 0xe9 then
      (match TargetAt(b, p + 1)
       case None => None
       case Some(t) => Some((DirectJump(t), p + 5)))
    else if code == 0xc3 then Some((Return, p + 1))
    else None
  }

  function ReadGroup(b: seq<U8>, p: nat, x: Prefix): Decoded
    requires p < |b|
  {
    var code, w := b[p], x.OperandWidth();
    match RmGroup(b, p + 1, x, if code == 0xf6 then W8 else w)
    case None => None
    case Some((kind, o, next)) =>
      if code == 0x81 && w != W16 then
        (match Imm32At(b, next)
         case None => None
         case Some(v) => Finish(Arithmetic(kind, w, o, Imm(v)), next + 4))
      else if code == 0x83 && next < |b| then Finish(Arithmetic(kind, w, o, Imm(SignExtended(b[next]))), next + 1)
      else if code == 0xc1 && next < |b| && o.Reg? then
        if kind == 0 then Some((Unary(RotateLeft, w, o.r, b[next]), next + 1))
        else if kind == 4 then Some((ShiftImmediate(Left, w, o.r, b[next]), next + 1))
        else if kind == 5 then Some((ShiftImmediate(Right, w, o.r, b[next]), next + 1))
        else None
      else if code == 0xd3 && o.Reg? then
        if kind == 4 then Some((ShiftRegister(Left, w, o.r), next))
        else if kind == 5 then Some((ShiftRegister(Right, w, o.r), next))
        else None
      else if code == 0xf6 && next < |b| && kind == 0 then Some((Test(W8, o, Imm(b[next])), next + 1))
      else if code == 0xf7 && o.Reg? then
        if kind == 3 then Some((Unary(Negate, w, o.r, 0), next))
        else if kind == 6 then Some((Divide(w, o), next))
        else None
      else None
  }

  function ReadEscape(b: seq<U8>, p: nat, x: Prefix): Decoded {
    if p >= |b| then None
    else
      var code, w := b[p], x.OperandWidth();
      if 0x80 <= code < 0x90 then
        (match (ConditionOf(code - 0x80), TargetAt(b, p + 1))
         case (Some(c), Some(t)) => Some((ConditionalJump(c, t), p + 5))
         case _ => None)
      else if code == 0xaf then RmReg(b, p + 1, x, w, (o: Operand, r: Register) => Some(Binary(XMul, w, Reg(r), o)))
      else if code == 0xb6 then RmReg(b, p + 1, x, w, (o: Operand, r: Register) => LoadFrom(W8, r, o))
      else if code == 0xb7 then RmReg(b, p + 1, x, w, (o: Operand, r: Register) => LoadFrom(W16, r, o))
      else if 0xc8 <= code < 0xd0 then
        (match Name(w, code - 0xc8 + Bit(x.b))
         case None => None
         case Some(r) => Some((Unary(ByteSwap, w, r, 0), p + 1)))
      else if code == 0xae && ByteAt(b, p + 1) == 0xe8 then Some((SpeculationBarrier, p + 2))
      else None
  }

  // ----- comparison with the validator's table -----

  /**
   The only byte sequences of the table that the processor reads differently:
   `8b 06` without a REX prefix, which loads through rsi rather than r14, and
   byte immediates with the sign bit set, which are sign-extended.
   */
  predicate Misread(b: seq<U8>, p: nat) {
    || BareLoad(b, p)
    || (ByteAt(b, p) in {0x41, 0x48} && ByteAt(b, p + 1) == 0x83 && ByteAt(b, p + 3) >= 0x80)
  }

  predicate Agrees(table: Decoded, read: Decoded) {
    table.Some? ==> read == table
  }

  const PLAIN: Prefix := Prefix(false, false, false, false)
  const REX_B: Prefix := Prefix(false, false, false, true)
  const REX_R: Prefix := Prefix(false, false, true, false)
  const REX_RB: Prefix := Prefix(false, false, true, true)
  const REX_W: Prefix := Prefix(false, true, false, false)
  const REX_WB: Prefix := Prefix(false, true, false, true)
  const REX_WR: Prefix := Prefix(false, true, true, false)
  const REX_WRB: Prefix := Prefix(false, true, true, true)

  lemma RexBStack(b: seq<U8>, p: nat)
    requires 0x50 <= ByteAt(b, p) < 0x60
    ensures Agrees(DecodeRexB(b, p), ReadOpcode(b, p, REX_B))
  {
  }

  lemma RexBGroup1(b: seq<U8>, p: nat)
    requires ByteAt(b, p) in {0x81, 0x83}
    ensures DecodeRexB(b, p).Some? ==>
              (Agrees(DecodeRexB(b, p), ReadOpcode(b, p, REX_B)) <==>
               !(ByteAt(b, p) == 0x83 && ByteAt(b, p + 2) >= 0x80))
  {
  }

  lemma RexBLoad(b: seq<U8>, p: nat)
    requires ByteAt(b, p) in {0x8b, 0xbe}
    ensures Agrees(DecodeRexB(b, p), ReadOpcode(b, p, REX_B))
  {
  }

  lemma RexBMove(b: seq<U8>, p: nat)
    requires ByteAt(b, p) == 0x89
    ensures Agrees(DecodeRexB(b, p), ReadOpcode(b, p, REX_B))
  {
  }

  lemma RexBRest(b: seq<U8>, p: nat)
    requires ByteAt(b, p) !in {0x81, 0x83, 0x89, 0x8b, 0xbe} && !(0x50 <= ByteAt(b, p) < 0x60)
    ensures Agrees(DecodeRexB(b, p), ReadOpcode(b, p, REX_B))
  {
  }

  lemma PlainArithmetic(b: seq<U8>, p: nat)
    requires ByteAt(b, p) in {0x31, 0x01, 0x09, 0x21, 0x29, 0x39}
    ensures Agrees(DecodePlain(b, p), ReadOpcode(b, p, PLAIN))
  {
  }

  lemma PlainTest(b: seq<U8>, p: nat)
    requires ByteAt(b, p) == 0x85
    ensures Agrees(DecodePlain(b, p), ReadOpcode(b, p, PLAIN))
  {
  }

  lemma PlainMove(b: seq<U8>, p: nat)
    requires ByteAt(b, p) == 0x89
    ensures Agrees(DecodePlain(b, p), ReadOpcode(b, p, PLAIN))
  {
  }

  lemma PlainLoad(b: seq<U8>, p: nat)
    requires ByteAt(b, p) == 0x8b
    ensures DecodePlain(b, p).Some? ==>
              (Agrees(DecodePlain(b, p), ReadOpcode(b, p, PLAIN)) <==> ByteAt(b, p + 1) != 0x06)
  {
  }

  lemma PlainAccumulator(b: seq<U8>, p: nat)
    requires ByteAt(b, p) < 0x40
    ensures Agrees(DecodeImmediate(b, p), ReadOpcode(b, p, PLAIN))
  {
  }

  lemma PlainGroup(b: seq<U8>, p: nat)
    requires ByteAt(b, p) in {0x83, 0xc1, 0xd3, 0xf7}
    ensures Agrees(DecodeImmediate(b, p), ReadOpcode(b, p, PLAIN))
  {
  }

  lemma PlainImmediate(b: seq<U8>, p: nat)
    requires ByteAt(b, p) >= 0x40 && ByteAt(b, p) !in {0x83, 0xc1, 0xd3, 0xf7}
    ensures Agrees(DecodeImmediate(b, p), ReadOpcode(b, p, PLAIN))
  {
  }

  lemma PlainBytes(b: seq<U8>, p: nat)
    requires ByteAt(b, p) !in {0x55, 0x5d, 0x0f, 0x66, 0xc3, 0xe9}
    ensures DecodePlain(b, p).Some? ==>
              (Agrees(DecodePlain(b, p), ReadOpcode(b, p, PLAIN)) <==>
               !(ByteAt(b, p) == 0x8b && ByteAt(b, p + 1) == 0x06))
  {
    var first := ByteAt(b, p);
    if first in {0x31, 0x01, 0x09, 0x21, 0x29, 0x39} {
      PlainArithmetic(b, p);
    } else if first == 0x85 {
      PlainTest(b, p);
    } else if first == 0x89 {
      PlainMove(b, p);
    } else if first == 0x8b {
      PlainLoad(b, p);
    } else if first < 0x40 {
      PlainAccumulator(b, p);
    } else if first in {0x83, 0xc1, 0xd3, 0xf7} {
      PlainGroup(b, p);
    } else {
      PlainImmediate(b, p);
    }
  }

  lemma EscapeBytes(b: seq<U8>, p: nat)
    ensures Agrees(Decode0F(b, p), ReadEscape(b, p, PLAIN))
  {
  }

  lemma RexRBytes(b: seq<U8>, p: nat)
    ensures Agrees(DecodeRexR(b, p), ReadOpcode(b, p, REX_R))
  {
  }

  lemma RexRBBytes(b: seq<U8>, p: nat)
    ensures Agrees(DecodeRexRB(b, p), ReadOpcode(b, p, REX_RB))
  {
  }

  lemma RexWBytes(b: seq<U8>, p: nat)
    ensures DecodeRexW(b, p).Some? ==>
              (Agrees(DecodeRexW(b, p), ReadOpcode(b, p, REX_W)) <==>
               !(ByteAt(b, p) == 0x83 && ByteAt(b, p + 2) >= 0x80))
  {
  }

  lemma RexWBBytes(b: seq<U8>, p: nat)
    ensures Agrees(DecodeRexWB(b, p), ReadOpcode(b, p, REX_WB))
  {
  }

  lemma RexWRBytes(b: seq<U8>, p: nat)
    ensures Agrees(DecodeRexWR(b, p), ReadOpcode(b, p, REX_WR))
  {
  }

  lemma RexWRBBytes(b: seq<U8>, p: nat)
    ensures Agrees(DecodeRexWRB(b, p), ReadOpcode(b, p, REX_WRB))
  {
  }

  lemma HalfBytes(b: seq<U8>, p: nat)
    requires ByteAt(b, p) == 0x66
    ensures Agrees(Decode(b, p), ReadInstruction(b, p))
  {
  }

  lemma RexBBytes(b: seq<U8>, p: nat)
    ensures DecodeRexB(b, p).Some? ==>
              (Agrees(DecodeRexB(b, p), ReadOpcode(b, p, REX_B)) <==>
               !(ByteAt(b, p) == 0x83 && ByteAt(b, p + 2) >= 0x80))
  {
    var first := ByteAt(b, p);
    if 0x50 <= first < 0x60 {
      RexBStack(b, p);
    } else if first in {0x81, 0x83} {
      RexBGroup1(b, p);
    } else if first in {0x8b, 0xbe} {
      RexBLoad(b, p);
    } else if first == 0x89 {
      RexBMove(b, p);
    } else {
      RexBRest(b, p);
    }
  }

  /** The prefixes that the table spells out. */
  lemma PrefixRead(b: seq<U8>, p: nat)
    requires p < |b|
    ensures b[p] == 0x41 ==> PrefixAt(b, p) == (REX_B, p + 1)
    ensures b[p] == 0x44 ==> PrefixAt(b, p) == (REX_R, p + 1)
    ensures b[p] == 0x45 ==> PrefixAt(b, p) == (REX_RB, p + 1)
    ensures b[p] == 0x48 ==> PrefixAt(b, p) == (REX_W, p + 1)
    ensures b[p] == 0x49 ==> PrefixAt(b, p) == (REX_WB, p + 1)
    ensures b[p] == 0x4c ==> PrefixAt(b, p) == (REX_WR, p + 1)
    ensures b[p] == 0x4d ==> PrefixAt(b, p) == (REX_WRB, p + 1)
    ensures b[p] != 0x66 && !(0x40 <= b[p] < 0x50) ==> PrefixAt(b, p) == (PLAIN, p)
  {
  }

  lemma SimpleBytes(b: seq<U8>, p: nat)
    requires ByteAt(b, p) in {0x55, 0x5d, 0xc3, 0xe9}
    ensures Agrees(Decode(b, p), ReadOpcode(b, p, PLAIN))
  {
  }

  /** The table agrees with the processor on exactly the sequences that are not misread. */
  lemma TableAgreesExactly(b: seq<U8>, p: nat)
    ensures Decode(b, p).Some? ==> (Agrees(Decode(b, p), ReadInstruction(b, p)) <==> !Misread(b, p))
  {
    if p < |b| {
      PrefixRead(b, p);
      var first := b[p];
      if first == 0x41 { RexBBytes(b, p + 1); }
      else if first == 0x44 { RexRBytes(b, p + 1); }
      else if first == 0x45 { RexRBBytes(b, p + 1); }
      else if first == 0x48 { RexWBytes(b, p + 1); }
      else if first == 0x49 { RexWBBytes(b, p + 1); }
      else if first == 0x4c { RexWRBytes(b, p + 1); }
      else if first == 0x4d { RexWRBBytes(b, p + 1); }
      else if first == 0x0f { EscapeBytes(b, p + 1); }
      else if first == 0x66 { HalfBytes(b, p); }
      else if first in {0x55, 0x5d, 0xc3, 0xe9} { SimpleBytes(b, p); }
      else { PlainBytes(b, p); }
    }
  }
}
