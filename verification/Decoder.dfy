/**
 The validator's strict decoder: a table of exact byte sequences. It is not a
 general x86 decoder; anything outside the table is refused.
 */
module Decoder {
  import opened Words
  import opened Native

  type Decoded = Option<(NativeOp, nat)>

  /** The byte at `p`, or -1 past the end. */
  function ByteAt(b: seq<U8>, p: nat): int { if p < |b| then b[p] else -1 }

  function Imm32At(b: seq<U8>, p: nat): Option<U32> {
    if p + 4 <= |b| then Some(Little32(b[p], b[p + 1], b[p + 2], b[p + 3])) else None
  }

  function Signed8(v: U8): int { if v < 0x80 then v else v - 0x100 }

  function Signed32(v: U32): int { if v < 0x8000_0000 then v else v - B32 }

  /** The target of a 32-bit displacement stored at `p`; a target before the image is refused. */
  function TargetAt(b: seq<U8>, p: nat): Option<nat> {
    match Imm32At(b, p)
    case None => None
    case Some(v) => if p + 4 + Signed32(v) >= 0 then Some(p + 4 + Signed32(v)) else None
  }

  function Rr(op: NativeOp, p: nat): Decoded { Some((op, p)) }

  function WithImm32(b: seq<U8>, p: nat, op: U32 -> NativeOp): Decoded {
    match Imm32At(b, p)
    case None => None
    case Some(v) => Some((op(v), p + 4))
  }

  function WithByte(b: seq<U8>, p: nat, op: U8 -> NativeOp): Decoded {
    if p < |b| then Some((op(b[p]), p + 1)) else None
  }

  function WithTarget(b: seq<U8>, p: nat, op: nat -> NativeOp): Decoded {
    match TargetAt(b, p)
    case None => None
    case Some(t) => Some((op(t), p + 4))
  }

  function MovReg(w: Width, d: Register, s: Register): NativeOp { Mov(w, Reg(d), Reg(s)) }

  function XorReg(d: Register, s: Register): NativeOp { Binary(XXor, W32, Reg(d), Reg(s)) }

  function Decode(b: seq<U8>, p: nat): Decoded {
    var first := ByteAt(b, p);
    if first == 0x55 then Rr(Push(Rbp), p + 1)
    else if first == 0x5d then Rr(Pop(Rbp), p + 1)
    else if first == 0x41 then DecodeRexB(b, p + 1)
    else if first == 0x44 then DecodeRexR(b, p + 1)
    else if first == 0x45 then DecodeRexRB(b, p + 1)
    else if first == 0x48 then DecodeRexW(b, p + 1)
    else if first == 0x49 then DecodeRexWB(b, p + 1)
    else if first == 0x4c then DecodeRexWR(b, p + 1)
    else if first == 0x4d then DecodeRexWRB(b, p + 1)
    else if first == 0x0f then Decode0F(b, p + 1)
    else if first == 0x66 then
      if ByteAt(b, p + 1) == 0xc1 && ByteAt(b, p + 2) == 0xc0 && ByteAt(b, p + 3) == 8 then
        Rr(Unary(RotateLeft, W16, Eax, 8), p + 4)
      else None
    else if first == 0xc3 then Rr(Return, p + 1)
    else if first == 0xe9 then WithTarget(b, p + 1, (t: nat) => DirectJump(t))
    else DecodePlain(b, p)
  }

  function DecodePlain(b: seq<U8>, p: nat): Decoded {
    var first, second := ByteAt(b, p), ByteAt(b, p + 1);
    if first == 0x31 then
      if second == 0xc0 then Rr(XorReg(Eax, Eax), p + 2)
      else if second == 0xc8 then Rr(XorReg(Eax, Ecx), p + 2)
      else if second == 0xc9 then Rr(XorReg(Ecx, Ecx), p + 2)
      else if second == 0xd2 then Rr(XorReg(Edx, Edx), p + 2)
      else None
    else if first in {0x01, 0x09, 0x21, 0x29} then
      if second != 0xc8 then None
      else
        var kind := if first == 0x01 then XAdd else if first == 0x09 then XOr else if first == 0x21 then XAnd else XSub;
        Rr(Binary(kind, W32, Reg(Eax), Reg(Ecx)), p + 2)
    else if first == 0x39 then
      if second == 0xc8 then Rr(Compare(W32, Reg(Eax), Reg(Ecx)), p + 2) else None
    else if first == 0x85 then
      if second == 0xc8 then Rr(Test(W32, Reg(Eax), Reg(Ecx)), p + 2)
      else if second == 0xc9 then Rr(Test(W32, Reg(Ecx), Reg(Ecx)), p + 2)
      else None
    else if first == 0x89 then
      if second == 0xc1 then Rr(MovReg(W32, Ecx, Eax), p + 2)
      else if second == 0xc8 then Rr(MovReg(W32, Eax, Ecx), p + 2)
      else if second == 0xd0 then Rr(MovReg(W32, Eax, Edx), p + 2)
      else if second == 0x45 then WithByte(b, p + 2, (d: U8) => Mov(W32, Mem(Rbp, Signed8(d)), Reg(Eax)))
      else if second == 0x4d then WithByte(b, p + 2, (d: U8) => Mov(W32, Mem(Rbp, Signed8(d)), Reg(Ecx)))
      else None
    else if first == 0x8b then
      if second == 0x06 then Rr(Load(W32, Eax, R14, 0), p + 2)
      else if second == 0x47 then WithByte(b, p + 2, (d: U8) => Load(W32, Eax, Rdi, Signed8(d)))
      else if second == 0x45 then WithByte(b, p + 2, (d: U8) => Load(W32, Eax, Rbp, Signed8(d)))
      else if second == 0x4d then WithByte(b, p + 2, (d: U8) => Load(W32, Ecx, Rbp, Signed8(d)))
      else None
    else DecodeImmediate(b, p)
  }

  function DecodeImmediate(b: seq<U8>, p: nat): Decoded {
    var first, second, third := ByteAt(b, p), ByteAt(b, p + 1), ByteAt(b, p + 2);
    if first == 0x05 then WithImm32(b, p + 1, (v: U32) => Binary(XAdd, W32, Reg(Eax), Imm(v)))
    else if first == 0x0d then WithImm32(b, p + 1, (v: U32) => Binary(XOr, W32, Reg(Eax), Imm(v)))
    else if first == 0x25 then WithImm32(b, p + 1, (v: U32) => Binary(XAnd, W32, Reg(Eax), Imm(v)))
    else if first == 0x2d then WithImm32(b, p + 1, (v: U32) => Binary(XSub, W32, Reg(Eax), Imm(v)))
    else if first == 0x35 then WithImm32(b, p + 1, (v: U32) => Binary(XXor, W32, Reg(Eax), Imm(v)))
    else if first == 0x3d then WithImm32(b, p + 1, (v: U32) => Compare(W32, Reg(Eax), Imm(v)))
    else if first == 0x69 then
      if second == 0xc0 then WithImm32(b, p + 2, (v: U32) => ImmediateMultiply(Eax, Eax, v)) else None
    else if first == 0x83 then
      if second == 0xe0 && third == 0x0f then Rr(Binary(XAnd, W32, Reg(Eax), Imm(0x0f)), p + 3)
      else if second == 0xe1 && third == 0x0f then Rr(Binary(XAnd, W32, Reg(Ecx), Imm(0x0f)), p + 3)
      else None
    else if first == 0xa9 then WithImm32(b, p + 1, (v: U32) => Test(W32, Reg(Eax), Imm(v)))
    else if first == 0xb8 then WithImm32(b, p + 1, (v: U32) => Mov(W32, Reg(Eax), Imm(v)))
    else if first == 0xb9 then WithImm32(b, p + 1, (v: U32) => Mov(W32, Reg(Ecx), Imm(v)))
    else if first == 0xc1 then
      if second == 0xe0 then WithByte(b, p + 2, (c: U8) => ShiftImmediate(Left, W32, Eax, c))
      else if second == 0xe1 then WithByte(b, p + 2, (c: U8) => ShiftImmediate(Left, W32, Ecx, c))
      else if second == 0xe8 then WithByte(b, p + 2, (c: U8) => ShiftImmediate(Right, W32, Eax, c))
      else None
    else if first == 0xd3 then
      if second == 0xe0 then Rr(ShiftRegister(Left, W32, Eax), p + 2)
      else if second == 0xe8 then Rr(ShiftRegister(Right, W32, Eax), p + 2)
      else None
    else if first == 0xf7 then
      if second == 0xd8 then Rr(Unary(Negate, W32, Eax, 0), p + 2)
      else if second == 0xf1 then Rr(Divide(W32, Reg(Ecx)), p + 2)
      else None
    else None
  }

  /** After the prefix 41 (REX.B). */
  function DecodeRexB(b: seq<U8>, p: nat): Decoded {
    var first, second, third := ByteAt(b, p), ByteAt(b, p + 1), ByteAt(b, p + 2);
    if first == 0x54 then Rr(Push(R12), p + 1)
    else if first == 0x55 then Rr(Push(R13), p + 1)
    else if first == 0x56 then Rr(Push(R14), p + 1)
    else if first == 0x57 then Rr(Push(R15), p + 1)
    else if first == 0x5c then Rr(Pop(R12), p + 1)
    else if first == 0x5d then Rr(Pop(R13), p + 1)
    else if first == 0x5e then Rr(Pop(R14), p + 1)
    else if first == 0x5f then Rr(Pop(R15), p + 1)
    else if first == 0x81 then
      if second == 0xc6 then WithImm32(b, p + 2, (v: U32) => Binary(XAdd, W32, Reg(R14d), Imm(v))) else None
    else if first == 0x83 then
      if second == 0xe6 then WithByte(b, p + 2, (v: U8) => Binary(XAnd, W32, Reg(R14d), Imm(v)))
      else if second == 0xef then WithByte(b, p + 2, (v: U8) => Binary(XSub, W32, Reg(R15d), Imm(v)))
      else if second == 0xfd then WithByte(b, p + 2, (v: U8) => Compare(W32, Reg(R13d), Imm(v)))
      else None
    else if first == 0x89 then
      if second == 0xce then Rr(MovReg(W32, R14d, Ecx), p + 2)
      else if second == 0xcf then Rr(MovReg(W32, R15d, Ecx), p + 2)
      else if second == 0xf5 then Rr(MovReg(W32, R13d, Esi), p + 2)
      else None
    else if first == 0x8b then
      if second == 0x06 then Rr(Load(W32, Eax, R14, 0), p + 2) else None
    else if first == 0x0f then
      if second == 0xb6 && third == 0x06 then Rr(Load(W8, Eax, R14, 0), p + 3)
      else if second == 0xb6 && third == 0x0e then Rr(Load(W8, Ecx, R14, 0), p + 3)
      else if second == 0xb7 && third == 0x06 then Rr(Load(W16, Eax, R14, 0), p + 3)
      else None
    else if first == 0xf6 then
      if second == 0xc6 && third == 3 then Rr(Test(W8, Reg(R14d), Imm(3)), p + 3) else None
    else if first == 0xf7 then
      if second == 0xf6 then Rr(Divide(W32, Reg(R14d)), p + 2) else None
    else if first == 0xbe then WithImm32(b, p + 1, (v: U32) => Mov(W32, Reg(R14d), Imm(v)))
    else None
  }

  /** After the prefix 44 (REX.R). */
  function DecodeRexR(b: seq<U8>, p: nat): Decoded {
    var first, second := ByteAt(b, p), ByteAt(b, p + 1);
    if first == 0x8b then
      if second == 0x6f then WithByte(b, p + 2, (d: U8) => Load(W32, R13d, Rdi, Signed8(d))) else None
    else if first == 0x89 then
      if second == 0xe8 then Rr(MovReg(W32, Eax, R13d), p + 2)
      else if second == 0xe9 then Rr(MovReg(W32, Ecx, R13d), p + 2)
      else if second == 0xf1 then Rr(MovReg(W32, Ecx, R14d), p + 2)
      else if second == 0xf9 then Rr(MovReg(W32, Ecx, R15d), p + 2)
      else None
    else None
  }

  /** After the prefix 45 (REX.RB). */
  function DecodeRexRB(b: seq<U8>, p: nat): Decoded {
    var first, second := ByteAt(b, p), ByteAt(b, p + 1);
    if first == 0x89 && second == 0xef then Rr(MovReg(W32, R15d, R13d), p + 2)
    else if first == 0x39 && second == 0xf7 then Rr(Compare(W32, Reg(R15d), Reg(R14d)), p + 2)
    else None
  }

  /** After the prefix 48 (REX.W). */
  function DecodeRexW(b: seq<U8>, p: nat): Decoded {
    var first, second := ByteAt(b, p), ByteAt(b, p + 1);
    if first == 0x83 && second == 0xec then WithByte(b, p + 2, (v: U8) => Binary(XSub, W64, Reg(Rsp), Imm(v)))
    else if first == 0x83 && second == 0xc4 then WithByte(b, p + 2, (v: U8) => Binary(XAdd, W64, Reg(Rsp), Imm(v)))
    else if first == 0x89 && second == 0xe5 then Rr(MovReg(W64, Rbp, Rsp), p + 2)
    else None
  }

  /** After the prefix 49 (REX.WB). */
  function DecodeRexWB(b: seq<U8>, p: nat): Decoded {
    if ByteAt(b, p) == 0x89 && ByteAt(b, p + 1) == 0xfc then Rr(MovReg(W64, R12, Rdi), p + 2) else None
  }

  /** After the prefix 4c (REX.WR). */
  function DecodeRexWR(b: seq<U8>, p: nat): Decoded {
    if ByteAt(b, p) == 0x8b && ByteAt(b, p + 1) == 0x27 then Rr(Load(W64, R12, Rdi, 0), p + 2) else None
  }

  /** After the prefix 4d (REX.WRB). */
  function DecodeRexWRB(b: seq<U8>, p: nat): Decoded {
    if ByteAt(b, p) == 0x01 && ByteAt(b, p + 1) == 0xe6 then Rr(Binary(XAdd, W64, Reg(R14), Reg(R12)), p + 2)
    else None
  }

  /** After the escape byte 0f. */
  function Decode0F(b: seq<U8>, p: nat): Decoded {
    var first, second := ByteAt(b, p), ByteAt(b, p + 1);
    if first == 0xae then
      if second == 0xe8 then Rr(SpeculationBarrier, p + 2) else None
    else if first == 0x82 then WithTarget(b, p + 1, (t: nat) => ConditionalJump(Below, t))
    else if first == 0x83 then WithTarget(b, p + 1, (t: nat) => ConditionalJump(AboveOrEqual, t))
    else if first == 0x84 then WithTarget(b, p + 1, (t: nat) => ConditionalJump(Equal, t))
    else if first == 0x85 then WithTarget(b, p + 1, (t: nat) => ConditionalJump(NotEqual, t))
    else if first == 0x87 then WithTarget(b, p + 1, (t: nat) => ConditionalJump(Above, t))
    else if first == 0xaf then
      if second == 0xc1 then Rr(Binary(XMul, W32, Reg(Eax), Reg(Ecx)), p + 2) else None
    else if first == 0xc8 then Rr(Unary(ByteSwap, W32, Eax, 0), p + 1)
    else None
  }

  /** Two bytes that this table reads as a load through r14 and the processor as a load through rsi. */
  predicate BareLoad(b: seq<U8>, p: nat) { ByteAt(b, p) == 0x8b && ByteAt(b, p + 1) == 0x06 }

  /** Decoding makes progress and stays inside the image. */
  lemma DecodeAdvances(b: seq<U8>, p: nat)
    ensures Decode(b, p).Some? ==> p < Decode(b, p).value.1 <= |b|
  {
  }
}
