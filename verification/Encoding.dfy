/**
 Emitted bytes decode to the operations the validator expects: each literal
 encoding on its own, then in any context, then a whole block with its
 displacements filled in.
 */
module Encoding {
  import opened Words
  import opened Bpf
  import opened Native
  import opened Lowering
  import opened Emitter
  import opened Decoder

  predicate Contains(b: seq<U8>, p: nat, code: seq<U8>) {
    p + |code| <= |b| && forall k :: 0 <= k < |code| ==> b[p + k] == code[k]
  }

  predicate IsJump(op: NativeOp) { op.ConditionalJump? || op.DirectJump? }

  function Shifted(d: Decoded, p: nat): Decoded {
    match d
    case None => None
    case Some((op, next)) => Some((op, p + next))
  }

  predicate Moves(code: seq<U8>, here: Decoded, there: Decoded, p: nat) {
    here.Some? && !IsJump(here.value.0) ==> here.value.1 <= |code| && there == Shifted(here, p)
  }

  lemma SameBytes(b: seq<U8>, p: nat, code: seq<U8>, k: nat)
    requires Contains(b, p, code)
    ensures k < |code| ==> ByteAt(b, p + k) == ByteAt(code, k)
    ensures k + 1 < |code| ==> ByteAt(b, p + k + 1) == ByteAt(code, k + 1)
    ensures k + 2 < |code| ==> ByteAt(b, p + k + 2) == ByteAt(code, k + 2)
    ensures k + 5 <= |code| ==> Imm32At(b, p + k + 1) == Imm32At(code, k + 1)
    ensures k + 6 <= |code| ==> Imm32At(b, p + k + 2) == Imm32At(code, k + 2)
  {
  }

  lemma RexBLocal(b: seq<U8>, p: nat, code: seq<U8>)
    requires Contains(b, p, code)
    ensures Moves(code, DecodeRexB(code, 1), DecodeRexB(b, p + 1), p)
  {
    SameBytes(b, p, code, 1);
  }

  lemma ImmediateLocal(b: seq<U8>, p: nat, code: seq<U8>)
    requires Contains(b, p, code)
    ensures Moves(code, DecodeImmediate(code, 0), DecodeImmediate(b, p), p)
  {
    SameBytes(b, p, code, 0);
  }

  lemma PlainLocal(b: seq<U8>, p: nat, code: seq<U8>)
    requires Contains(b, p, code)
    ensures Moves(code, DecodePlain(code, 0), DecodePlain(b, p), p)
  {
    SameBytes(b, p, code, 0);
    ImmediateLocal(b, p, code);
  }

  lemma RexLocal(b: seq<U8>, p: nat, code: seq<U8>)
    requires Contains(b, p, code)
    ensures Moves(code, DecodeRexR(code, 1), DecodeRexR(b, p + 1), p)
    ensures Moves(code, DecodeRexRB(code, 1), DecodeRexRB(b, p + 1), p)
    ensures Moves(code, DecodeRexW(code, 1), DecodeRexW(b, p + 1), p)
  {
    SameBytes(b, p, code, 1);
  }

  lemma WideLocal(b: seq<U8>, p: nat, code: seq<U8>)
    requires Contains(b, p, code)
    ensures Moves(code, DecodeRexWB(code, 1), DecodeRexWB(b, p + 1), p)
    ensures Moves(code, DecodeRexWR(code, 1), DecodeRexWR(b, p + 1), p)
    ensures Moves(code, DecodeRexWRB(code, 1), DecodeRexWRB(b, p + 1), p)
  {
    SameBytes(b, p, code, 1);
  }

  lemma EscapeLocal(b: seq<U8>, p: nat, code: seq<U8>)
    requires Contains(b, p, code)
    ensures Moves(code, Decode0F(code, 1), Decode0F(b, p + 1), p)
  {
    SameBytes(b, p, code, 1);
  }

  lemma HalfLocal(b: seq<U8>, p: nat, code: seq<U8>)
    requires Contains(b, p, code) && ByteAt(code, 0) == 0x66
    ensures Moves(code, Decode(code, 0), Decode(b, p), p)
  {
    SameBytes(b, p, code, 0);
    SameBytes(b, p, code, 1);
  }

  /** Decoding looks only at the instruction's own bytes, and only branches depend on where they stand. */
  lemma DecodeLocal(b: seq<U8>, p: nat, code: seq<U8>)
    requires Contains(b, p, code)
    ensures Moves(code, Decode(code, 0), Decode(b, p), p)
  {
    SameBytes(b, p, code, 0);
    var first := ByteAt(code, 0);
    if first == 0x41 { RexBLocal(b, p, code); }
    else if first in {0x44, 0x45, 0x48} { RexLocal(b, p, code); }
    else if first in {0x49, 0x4c, 0x4d} { WideLocal(b, p, code); }
    else if first == 0x0f { EscapeLocal(b, p, code); }
    else if first == 0x66 { HalfLocal(b, p, code); }
    else if first !in {0x55, 0x5d, 0xc3, 0xe9} { PlainLocal(b, p, code); }
  }

  // ----- emitted instructions and the validator's patterns -----

  function ConditionCode(c: Condition): U8 {
    match c
    case Below => 0x82
    case AboveOrEqual => 0x83
    case Equal => 0x84
    case NotEqual => 0x85
    case Above => 0x87
  }

  /** The bytes decode, all of them, to the operation. */
  predicate IsRead(code: seq<U8>, op: NativeOp) { Decode(code, 0) == Some((op, |code|)) && !IsJump(op) }

  /** They do, and the processor reads them the same way. */
  predicate IsCodeOf(code: seq<U8>, op: NativeOp) { IsRead(code, op) && !BareLoad(code, 0) }

  predicate Encodes(piece: Piece, pattern: Pattern) {
    match pattern
    case Exact(op) => piece.Code? && IsCodeOf(piece.bytes, op)
    case Branch(c, t) => piece == Jcc(ConditionCode(c), t)
    case Goto(t) => piece == Jmp(t)
  }

  predicate EncodesAll(pieces: seq<Piece>, ps: seq<Pattern>) {
    |pieces| == |ps| && forall k :: 0 <= k < |ps| ==> Encodes(pieces[k], ps[k])
  }

  /** The table reads the instruction as the pattern, whatever the processor does. */
  predicate ReadsAs(piece: Piece, pattern: Pattern) {
    match pattern
    case Exact(op) => piece.Code? && IsRead(piece.bytes, op)
    case Branch(c, t) => piece == Jcc(ConditionCode(c), t)
    case Goto(t) => piece == Jmp(t)
  }

  predicate ReadsAsAll(pieces: seq<Piece>, ps: seq<Pattern>) {
    |pieces| == |ps| && forall k :: 0 <= k < |ps| ==> ReadsAs(pieces[k], ps[k])
  }

  predicate NotBare(piece: Piece) { piece.Code? ==> !BareLoad(piece.bytes, 0) }

  predicate NoneBare(pieces: seq<Piece>) { forall k :: 0 <= k < |pieces| ==> NotBare(pieces[k]) }

  lemma EncodesReads(pieces: seq<Piece>, ps: seq<Pattern>)
    requires EncodesAll(pieces, ps)
    ensures ReadsAsAll(pieces, ps) && NoneBare(pieces)
  {
    forall k | 0 <= k < |ps| ensures ReadsAs(pieces[k], ps[k]) && NotBare(pieces[k]) {
      assert Encodes(pieces[k], ps[k]);
    }
  }

  lemma EncodesSum(a: seq<Piece>, b: seq<Piece>, ps: seq<Pattern>, qs: seq<Pattern>)
    requires EncodesAll(a, ps) && EncodesAll(b, qs)
    ensures EncodesAll(a + b, ps + qs)
  {
  }

  lemma SaveEncoded()
    ensures EncodesAll(EmitSave(), SaveRegisters())
  {
    assert IsCodeOf([0x55], Push(Rbp));
    assert IsCodeOf([0x41, 0x54], Push(R12));
    assert IsCodeOf([0x41, 0x55], Push(R13));
    assert IsCodeOf([0x41, 0x56], Push(R14));
    assert IsCodeOf([0x41, 0x57], Push(R15));
  }

  lemma FrameEncoded()
    ensures EncodesAll(EmitFrame(), EnterFrame())
    ensures EncodesAll([Code([0x31, 0xc0]), Code([0x31, 0xc9])], ClearRegisters())
  {
    assert IsCodeOf([0x48, 0x89, 0xe5], Mov(W64, Reg(Rbp), Reg(Rsp)));
    assert IsCodeOf([0x48, 0x83, 0xec, 0x40], Binary(XSub, W64, Reg(Rsp), Imm(0x40)));
    assert IsCodeOf([0x31, 0xc0], XorReg(Eax, Eax));
    assert IsCodeOf([0x31, 0xc9], XorReg(Ecx, Ecx));
  }

  lemma ArgumentsEncoded(profile: InputProfile)
    ensures EncodesAll(EmitArguments(profile), Arguments(profile))
  {
    assert IsCodeOf([0x4c, 0x8b, 0x27], Load(W64, R12, Rdi, 0));
    assert IsCodeOf([0x44, 0x8b, 0x6f, 8], Load(W32, R13d, Rdi, 8));
    assert IsCodeOf([0x49, 0x89, 0xfc], Mov(W64, Reg(R12), Reg(Rdi)));
    assert IsCodeOf([0x41, 0x89, 0xf5], Mov(W32, Reg(R13d), Reg(Esi)));
  }

  lemma PrologueEncoded(profile: InputProfile)
    ensures EncodesAll(EmitPrologue(profile), Prologue(profile))
  {
    SaveEncoded();
    FrameEncoded();
    ArgumentsEncoded(profile);
    EncodesSum(EmitSave(), EmitFrame(), SaveRegisters(), EnterFrame());
    EncodesSum(EmitSave() + EmitFrame(), EmitArguments(profile), SaveRegisters() + EnterFrame(), Arguments(profile));
    EncodesSum(EmitSave() + EmitFrame() + EmitArguments(profile), [Code([0x31, 0xc0]), Code([0x31, 0xc9])],
               SaveRegisters() + EnterFrame() + Arguments(profile), ClearRegisters());
  }

  lemma FailureEncoded()
    ensures EncodesAll(EmitZeroReturn(), FailureBlock())
  {
    assert IsCodeOf([0x31, 0xc0], XorReg(Eax, Eax));
  }

  lemma EpilogueEncoded()
    ensures EncodesAll(EmitEpilogue(), Epilogue())
  {
    assert IsCodeOf([0x48, 0x83, 0xc4, 0x40], Binary(XAdd, W64, Reg(Rsp), Imm(0x40)));
    assert IsCodeOf([0x41, 0x5f], Pop(R15));
    assert IsCodeOf([0x41, 0x5e], Pop(R14));
    assert IsCodeOf([0x41, 0x5d], Pop(R13));
    assert IsCodeOf([0x41, 0x5c], Pop(R12));
    assert IsCodeOf([0x5d], Pop(Rbp));
    assert IsCodeOf([0xc3], Return);
  }

  // ----- loads -----

  lemma BoundsEncoded(width: LoadWidth)
    ensures EncodesAll(EmitBounds(width), Bounds(width))
  {
    var n := width.Bytes();
    assert IsCodeOf([0x41, 0x83, 0xfd, n], Compare(W32, Reg(R13d), Imm(n)));
    assert IsCodeOf([0x45, 0x89, 0xef], MovReg(W32, R15d, R13d));
    assert IsCodeOf([0x41, 0x83, 0xef, n], Binary(XSub, W32, Reg(R15d), Imm(n)));
    assert IsCodeOf([0x45, 0x39, 0xf7], Compare(W32, Reg(R15d), Reg(R14d)));
  }

  lemma AddressEncoded(width: LoadWidth, profile: InputProfile)
    ensures EncodesAll(EmitAddress(), AddressAdd())
    ensures EncodesAll(EmitAlignment(width, profile), AlignmentCheck(width, profile))
  {
    assert IsCodeOf([0x4d, 0x01, 0xe6], Binary(XAdd, W64, Reg(R14), Reg(R12)));
    assert IsCodeOf([0x41, 0xf6, 0xc6, 0x03], Test(W8, Reg(R14d), Imm(3)));
  }

  lemma SwapEncoded(width: LoadWidth, profile: InputProfile)
    ensures EncodesAll(EmitSwap(width, profile), EndianTransform(width, profile))
  {
    assert IsCodeOf([0x66, 0xc1, 0xc0, 0x08], Unary(RotateLeft, W16, Eax, 8));
    assert IsCodeOf([0x0f, 0xc8], Unary(ByteSwap, W32, Eax, 0));
  }

  lemma FetchEncoded(width: LoadWidth)
    ensures EncodesAll(EmitFetch(width), FetchInto(width, Eax))
  {
    assert IsCodeOf([0x0f, 0xae, 0xe8], SpeculationBarrier);
    assert IsCodeOf([0x41, 0x0f, 0xb6, 0x06], Load(W8, Eax, R14, 0));
    assert IsCodeOf([0x41, 0x0f, 0xb7, 0x06], Load(W16, Eax, R14, 0));
    assert IsCodeOf([0x41, 0x8b, 0x06], Load(W32, Eax, R14, 0));
  }

  /** The part of every load after its bounds check. */
  lemma AccessEncoded(width: LoadWidth, profile: InputProfile)
    ensures EncodesAll(EmitAddress() + (EmitFetch(width) + EmitSwap(width, profile)),
                       AddressAdd() + (FetchInto(width, Eax) + EndianTransform(width, profile)))
  {
    AddressEncoded(width, profile);
    FetchEncoded(width);
    SwapEncoded(width, profile);
    EncodesSum(EmitFetch(width), EmitSwap(width, profile), FetchInto(width, Eax), EndianTransform(width, profile));
    EncodesSum(EmitAddress(), EmitFetch(width) + EmitSwap(width, profile),
               AddressAdd(), FetchInto(width, Eax) + EndianTransform(width, profile));
  }

  lemma OffsetEncoded(k: U32)
    ensures EncodesAll([With32([0x41, 0xbe], k)], [Move32(R14d, Imm(k))])
    ensures EncodesAll([Code([0x41, 0x89, 0xce]), With32([0x41, 0x81, 0xc6], k), Jcc(0x82, ToFailure)],
                       IndirectOffset(k))
  {
    BytesRoundTrip(k);
    assert IsCodeOf([0x41, 0xbe] + Bytes32(k), Mov(W32, Reg(R14d), Imm(k)));
    assert IsCodeOf([0x41, 0x89, 0xce], MovReg(W32, R14d, Ecx));
    assert IsCodeOf([0x41, 0x81, 0xc6] + Bytes32(k), Binary(XAdd, W32, Reg(R14d), Imm(k)));
  }

  lemma AncillaryEncoded(field: Ancillary)
    ensures EncodesAll([Code([0x8b, 0x47, METADATA_OFFSET + MetadataOffset(field)])],
                       [Exact(Load(W32, Eax, Rdi, METADATA_OFFSET + MetadataOffset(field)))])
  {
    var d := METADATA_OFFSET + MetadataOffset(field);
    assert IsCodeOf([0x8b, 0x47, d], Load(W32, Eax, Rdi, d));
  }

  lemma AbsoluteEncoded(k: U32, width: LoadWidth, profile: InputProfile)
    ensures EncodesAll(EmitAbsolute(k, width, profile), AbsoluteLoad(k, width, profile))
  {
    var field := AncillaryFromOffset(k);
    if field.Some? {
      AncillaryEncoded(field.value);
    } else {
      var a := EmitAddress() + (EmitFetch(width) + EmitSwap(width, profile));
      var b := AddressAdd() + (FetchInto(width, Eax) + EndianTransform(width, profile));
      AccessEncoded(width, profile);
      BoundsEncoded(width);
      OffsetEncoded(k);
      EncodesSum(EmitBounds(width), a, Bounds(width), b);
      EncodesSum([With32([0x41, 0xbe], k)], EmitBounds(width) + a, [Move32(R14d, Imm(k))], Bounds(width) + b);
    }
  }

  lemma IndirectEncoded(k: U32, width: LoadWidth, profile: InputProfile)
    ensures EncodesAll(EmitIndirect(k, width, profile), IndirectLoad(k, width, profile))
  {
    var a := EmitAddress() + (EmitFetch(width) + EmitSwap(width, profile));
    var b := AddressAdd() + (FetchInto(width, Eax) + EndianTransform(width, profile));
    var c, d := EmitAlignment(width, profile), AlignmentCheck(width, profile);
    AccessEncoded(width, profile);
    AddressEncoded(width, profile);
    BoundsEncoded(width);
    OffsetEncoded(k);
    EncodesSum(c, a, d, b);
    EncodesSum(EmitBounds(width), c + a, Bounds(width), d + b);
    EncodesSum([Code([0x41, 0x89, 0xce]), With32([0x41, 0x81, 0xc6], k), Jcc(0x82, ToFailure)],
               EmitBounds(width) + (c + a), IndirectOffset(k), Bounds(width) + (d + b));
  }

  lemma NibbleEncoded()
    ensures EncodesAll([EmitBarrier(), Code([0x41, 0x0f, 0xb6, 0x0e])], FetchInto(Byte, Ecx))
    ensures EncodesAll([Code([0x83, 0xe1, 0x0f]), Code([0xc1, 0xe1, 0x02])],
                       [Op32(XAnd, Ecx, Imm(0x0f)), Exact(ShiftImmediate(Left, W32, Ecx, 2))])
  {
    assert IsCodeOf([0x0f, 0xae, 0xe8], SpeculationBarrier);
    assert IsCodeOf([0x41, 0x0f, 0xb6, 0x0e], Load(W8, Ecx, R14, 0));
    assert IsCodeOf([0x83, 0xe1, 0x0f], Binary(XAnd, W32, Reg(Ecx), Imm(0x0f)));
    assert IsCodeOf([0xc1, 0xe1, 0x02], ShiftImmediate(Left, W32, Ecx, 2));
  }

  lemma HeaderEncoded(k: U32)
    ensures EncodesAll(EmitHeaderLength(k), AbsoluteLoadToX(k))
  {
    var a, b := [EmitBarrier(), Code([0x41, 0x0f, 0xb6, 0x0e])], FetchInto(Byte, Ecx);
    var c := [Code([0x83, 0xe1, 0x0f]), Code([0xc1, 0xe1, 0x02])];
    var d := [Op32(XAnd, Ecx, Imm(0x0f)), Exact(ShiftImmediate(Left, W32, Ecx, 2))];
    NibbleEncoded();
    AddressEncoded(Byte, PacketBytesBigEndian);
    BoundsEncoded(Byte);
    OffsetEncoded(k);
    EncodesSum(a, c, b, d);
    EncodesSum(EmitAddress(), a + c, AddressAdd(), b + d);
    EncodesSum(EmitBounds(Byte), EmitAddress() + (a + c), Bounds(Byte), AddressAdd() + (b + d));
    EncodesSum([With32([0x41, 0xbe], k)], EmitBounds(Byte) + (EmitAddress() + (a + c)),
               [Move32(R14d, Imm(k))], Bounds(Byte) + (AddressAdd() + (b + d)));
  }

  // ----- arithmetic and control -----

  lemma SimpleAluK(kind: AluKind, k: U32)
    requires kind in {Add, Sub, Mul, Or, And, Xor}
    ensures EncodesAll(EmitAluK(kind, k), LowerAlu(kind, FromK, k))
  {
    BytesRoundTrip(k);
    match kind
    case Add => assert IsCodeOf([0x05] + Bytes32(k), Binary(XAdd, W32, Reg(Eax), Imm(k)));
    case Sub => assert IsCodeOf([0x2d] + Bytes32(k), Binary(XSub, W32, Reg(Eax), Imm(k)));
    case Mul => assert IsCodeOf([0x69, 0xc0] + Bytes32(k), ImmediateMultiply(Eax, Eax, k));
    case Or => assert IsCodeOf([0x0d] + Bytes32(k), Binary(XOr, W32, Reg(Eax), Imm(k)));
    case And => assert IsCodeOf([0x25] + Bytes32(k), Binary(XAnd, W32, Reg(Eax), Imm(k)));
    case Xor => assert IsCodeOf([0x35] + Bytes32(k), Binary(XXor, W32, Reg(Eax), Imm(k)));
    case _ =>
  }

  lemma DivideKEncoded(kind: AluKind, k: U32)
    requires kind in {Div, Mod}
    ensures EncodesAll(EmitAluK(kind, k), LowerAlu(kind, FromK, k))
  {
    OffsetEncoded(k);
    assert IsCodeOf([0x31, 0xd2], XorReg(Edx, Edx));
    assert IsCodeOf([0x41, 0xf7, 0xf6], Divide(W32, Reg(R14d)));
    assert IsCodeOf([0x89, 0xd0], MovReg(W32, Eax, Edx));
  }

  lemma DivideXEncoded(kind: AluKind, k: U32)
    requires kind in {Div, Mod}
    ensures EncodesAll(EmitAluX(kind), LowerAlu(kind, FromX, k))
  {
    assert IsCodeOf([0x85, 0xc9], Test(W32, Reg(Ecx), Reg(Ecx)));
    assert IsCodeOf([0x31, 0xd2], XorReg(Edx, Edx));
    assert IsCodeOf([0xf7, 0xf1], Divide(W32, Reg(Ecx)));
    assert IsCodeOf([0x89, 0xd0], MovReg(W32, Eax, Edx));
  }

  lemma ShiftKEncoded(kind: AluKind, k: U32)
    requires kind in {Lsh, Rsh}
    ensures EncodesAll(EmitAluK(kind, k), LowerAlu(kind, FromK, k))
  {
    assert IsCodeOf([0xc1, 0xe0, k % 0x100], ShiftImmediate(Left, W32, Eax, k % 0x100));
    assert IsCodeOf([0xc1, 0xe8, k % 0x100], ShiftImmediate(Right, W32, Eax, k % 0x100));
  }

  lemma CountMoves()
    ensures IsCodeOf([0x41, 0x89, 0xce], MovReg(W32, R14d, Ecx)) && IsCodeOf([0x41, 0x89, 0xcf], MovReg(W32, R15d, Ecx))
    ensures IsCodeOf([0x44, 0x89, 0xf1], MovReg(W32, Ecx, R14d)) && IsCodeOf([0x44, 0x89, 0xf9], MovReg(W32, Ecx, R15d))
  {
  }

  lemma Shifts()
    ensures IsCodeOf([0x41, 0x83, 0xe6, 0x1f], Binary(XAnd, W32, Reg(R14d), Imm(0x1f)))
    ensures IsCodeOf([0xd3, 0xe0], ShiftRegister(Left, W32, Eax))
            && IsCodeOf([0xd3, 0xe8], ShiftRegister(Right, W32, Eax))
  {
  }

  lemma ShiftXEncoded(kind: AluKind, k: U32)
    requires kind in {Lsh, Rsh}
    ensures EncodesAll(EmitAluX(kind), LowerAlu(kind, FromX, k))
  {
    CountMoves();
    Shifts();
  }

  lemma SimpleAluX(kind: AluKind, k: U32)
    requires kind in {Add, Sub, Mul, Or, And, Xor}
    ensures EncodesAll(EmitAluX(kind), LowerAlu(kind, FromX, k))
  {
    match kind
    case Add => assert IsCodeOf([0x01, 0xc8], Binary(XAdd, W32, Reg(Eax), Reg(Ecx)));
    case Sub => assert IsCodeOf([0x29, 0xc8], Binary(XSub, W32, Reg(Eax), Reg(Ecx)));
    case Mul => assert IsCodeOf([0x0f, 0xaf, 0xc1], Binary(XMul, W32, Reg(Eax), Reg(Ecx)));
    case Or => assert IsCodeOf([0x09, 0xc8], Binary(XOr, W32, Reg(Eax), Reg(Ecx)));
    case And => assert IsCodeOf([0x21, 0xc8], Binary(XAnd, W32, Reg(Eax), Reg(Ecx)));
    case Xor => assert IsCodeOf([0x31, 0xc8], XorReg(Eax, Ecx));
    case _ =>
  }

  lemma AluEncoded(kind: AluKind, src: Source, k: U32)
    ensures EncodesAll(if src.FromK? then EmitAluK(kind, k) else EmitAluX(kind), LowerAlu(kind, src, k))
  {
    if kind in {Div, Mod} {
      if src.FromK? { DivideKEncoded(kind, k); } else { DivideXEncoded(kind, k); }
    }
    else if kind in {Lsh, Rsh} {
      if src.FromK? { ShiftKEncoded(kind, k); } else { ShiftXEncoded(kind, k); }
    }
    else if src.FromK? { SimpleAluK(kind, k); } else { SimpleAluX(kind, k); }
  }

  lemma JumpEncoded(i: Instruction, kind: JumpKind, src: Source, pc: nat)
    ensures EncodesAll([EmitTest(kind, src, i.k), Jcc(ConditionByte(kind), ToSource(pc + 1 + i.jt)),
                        Jmp(ToSource(pc + 1 + i.jf))], LowerJump(i, kind, src, pc))
  {
    BytesRoundTrip(i.k);
    if src.FromX? {
      assert IsCodeOf([0x85, 0xc8], Test(W32, Reg(Eax), Reg(Ecx)));
      assert IsCodeOf([0x39, 0xc8], Compare(W32, Reg(Eax), Reg(Ecx)));
    } else {
      assert IsCodeOf([0xa9] + Bytes32(i.k), Test(W32, Reg(Eax), Imm(i.k)));
      assert IsCodeOf([0x3d] + Bytes32(i.k), Compare(W32, Reg(Eax), Imm(i.k)));
    }
  }

  lemma ConstantEncoded(k: U32)
    ensures EncodesAll([With32([0xb8], k)], [Move32(Eax, Imm(k))])
            && EncodesAll([With32([0xb9], k)], [Move32(Ecx, Imm(k))])
    ensures EncodesAll([With32([0xb8], k), Jmp(ToEpilogue)], [Move32(Eax, Imm(k)), Goto(ToEpilogue)])
  {
    BytesRoundTrip(k);
    assert IsCodeOf([0xb8] + Bytes32(k), Mov(W32, Reg(Eax), Imm(k)));
    assert IsCodeOf([0xb9] + Bytes32(k), Mov(W32, Reg(Ecx), Imm(k)));
  }

  lemma ScratchEncoded(k: nat)
    ensures EncodesAll([Code([0x8b, 0x45, ScratchByte(k)])], [Exact(Load(W32, Eax, Rbp, SlotOffset(k)))])
    ensures EncodesAll([Code([0x8b, 0x4d, ScratchByte(k)])], [Exact(Load(W32, Ecx, Rbp, SlotOffset(k)))])
    ensures EncodesAll([Code([0x89, 0x45, ScratchByte(k)])], [Exact(Mov(W32, Mem(Rbp, SlotOffset(k)), Reg(Eax)))])
    ensures EncodesAll([Code([0x89, 0x4d, ScratchByte(k)])], [Exact(Mov(W32, Mem(Rbp, SlotOffset(k)), Reg(Ecx)))])
  {
    var d := ScratchByte(k);
    assert Signed8(d) == SlotOffset(k);
    assert IsCodeOf([0x8b, 0x45, d], Load(W32, Eax, Rbp, Signed8(d)));
    assert IsCodeOf([0x8b, 0x4d, d], Load(W32, Ecx, Rbp, Signed8(d)));
    assert IsCodeOf([0x89, 0x45, d], Mov(W32, Mem(Rbp, Signed8(d)), Reg(Eax)));
    assert IsCodeOf([0x89, 0x4d, d], Mov(W32, Mem(Rbp, Signed8(d)), Reg(Ecx)));
  }

  lemma MoveEncoded()
    ensures EncodesAll([Code([0x44, 0x89, 0xe8])], [Move32(Eax, Reg(R13d))])
    ensures EncodesAll([Code([0x44, 0x89, 0xe9])], [Move32(Ecx, Reg(R13d))])
    ensures EncodesAll([Code([0x89, 0xc1])], [Move32(Ecx, Reg(Eax))])
    ensures EncodesAll([Code([0x89, 0xc8])], [Move32(Eax, Reg(Ecx))])
    ensures EncodesAll([Code([0xf7, 0xd8])], [Exact(Unary(Negate, W32, Eax, 0))])
  {
  }

  lemma SimpleEncoded(i: Instruction, pc: nat, profile: InputProfile)
    requires !i.op.LdAbs? && !i.op.LdInd? && !i.op.LdxMsh? && !i.op.Alu? && !i.op.Jump?
    ensures EncodesAll(Emit(i, pc, profile), Lower(i, pc, profile))
  {
    match i.op
    case LdImm => ConstantEncoded(i.k);
    case LdxImm => ConstantEncoded(i.k);
    case RetK => ConstantEncoded(i.k);
    case LdMem => ScratchEncoded(i.k);
    case LdxMem => ScratchEncoded(i.k);
    case St => ScratchEncoded(i.k);
    case Stx => ScratchEncoded(i.k);
    case Ja => assert EncodesAll([Jmp(ToSource(pc + 1 + i.k))], [Goto(ToSource(pc + 1 + i.k))]);
    case RetA => assert EncodesAll([Jmp(ToEpilogue)], [Goto(ToEpilogue)]);
    case Unsupported(_) =>
    case _ => MoveEncoded();
  }

  /** What the translator emits for an instruction is an encoding of what the validator expects. */
  lemma EmittedIsExpected(i: Instruction, pc: nat, profile: InputProfile)
    ensures EncodesAll(Emit(i, pc, profile), Lower(i, pc, profile))
  {
    match i.op
    case LdAbs(width) => AbsoluteEncoded(i.k, width, profile);
    case LdInd(width) => IndirectEncoded(i.k, width, profile);
    case LdxMsh => HeaderEncoded(i.k);
    case Alu(kind, src) => AluEncoded(kind, src, i.k);
    case Jump(kind, src) => JumpEncoded(i, kind, src, pc);
    case _ => SimpleEncoded(i, pc, profile);
  }
}
