/**
 What the translator emits for each source instruction: literal bytes, with a
 zero displacement and a target to be resolved for every branch.
 */
module Emitter {
  import opened Words
  import opened Bpf
  import opened Native
  import opened Lowering

  /** One emitted native instruction; the displacement of a branch is not known yet. */
  datatype Piece =
    | Code(bytes: seq<U8>)
    | Jcc(condition: U8, target: Target)
    | Jmp(target: Target)

  /** A word in memory order. */
  function Bytes32(v: U32): seq<U8> {
    var high := v / 0x100;
    var higher := high / 0x100;
    [v % 0x100, high % 0x100, higher % 0x100, higher / 0x100]
  }

  lemma BytesRoundTrip(v: U32)
    ensures var b := Bytes32(v); Little32(b[0], b[1], b[2], b[3]) == v
  {
  }

  function With32(code: seq<U8>, v: U32): Piece { Code(code + Bytes32(v)) }

  function EmitPrologue(profile: InputProfile): seq<Piece> {
    EmitSave() + EmitFrame() + EmitArguments(profile) + [Code([0x31, 0xc0]), Code([0x31, 0xc9])]
  }

  function EmitSave(): seq<Piece> {
    [Code([0x55]), Code([0x41, 0x54]), Code([0x41, 0x55]), Code([0x41, 0x56]), Code([0x41, 0x57])]
  }

  function EmitFrame(): seq<Piece> { [Code([0x48, 0x89, 0xe5]), Code([0x48, 0x83, 0xec, 0x40])] }

  function EmitArguments(profile: InputProfile): seq<Piece> {
    if profile.PacketContextBigEndian? then [Code([0x4c, 0x8b, 0x27]), Code([0x44, 0x8b, 0x6f, 8])]
    else [Code([0x49, 0x89, 0xfc]), Code([0x41, 0x89, 0xf5])]
  }

  function EmitZeroReturn(): seq<Piece> { [Code([0x31, 0xc0]), Jmp(ToEpilogue)] }

  function EmitEpilogue(): seq<Piece> {
    [Code([0x48, 0x83, 0xc4, 0x40]), Code([0x41, 0x5f]), Code([0x41, 0x5e]), Code([0x41, 0x5d]), Code([0x41, 0x5c]),
     Code([0x5d]), Code([0xc3])]
  }

  // ----- loads -----

  function EmitBounds(width: LoadWidth): seq<Piece> {
    [Code([0x41, 0x83, 0xfd, width.Bytes()]), Jcc(0x82, ToFailure),
     Code([0x45, 0x89, 0xef]), Code([0x41, 0x83, 0xef, width.Bytes()]),
     Code([0x45, 0x39, 0xf7]), Jcc(0x82, ToFailure)]
  }

  function EmitAlignment(width: LoadWidth, profile: InputProfile): seq<Piece> {
    if profile.NativeAlignedWords? && width == Word then [Code([0x41, 0xf6, 0xc6, 0x03]), Jcc(0x85, ToFailure)] else []
  }

  function EmitAddress(): seq<Piece> { [Code([0x4d, 0x01, 0xe6]), Jcc(0x82, ToFailure)] }

  function EmitBarrier(): Piece { Code([0x0f, 0xae, 0xe8]) }

  function EmitFetch(width: LoadWidth): seq<Piece> {
    [EmitBarrier(),
     match width
     case Byte => Code([0x41, 0x0f, 0xb6, 0x06])
     case Half => Code([0x41, 0x0f, 0xb7, 0x06])
     case Word => Code([0x41, 0x8b, 0x06])]
  }

  function EmitSwap(width: LoadWidth, profile: InputProfile): seq<Piece> {
    if profile.NativeAlignedWords? then []
    else
      match width
      case Byte => []
      case Half => [Code([0x66, 0xc1, 0xc0, 0x08])]
      case Word => [Code([0x0f, 0xc8])]
  }

  function EmitAbsolute(k: U32, width: LoadWidth, profile: InputProfile): seq<Piece> {
    match AncillaryFromOffset(k)
    case Some(field) => [Code([0x8b, 0x47, METADATA_OFFSET + MetadataOffset(field)])]
    case None =>
      [With32([0x41, 0xbe], k)] + (EmitBounds(width) + (EmitAddress() + (EmitFetch(width) + EmitSwap(width, profile))))
  }

  function EmitHeaderLength(k: U32): seq<Piece> {
    [With32([0x41, 0xbe], k)] + (EmitBounds(Byte) + (EmitAddress() +
    ([EmitBarrier(), Code([0x41, 0x0f, 0xb6, 0x0e])] + [Code([0x83, 0xe1, 0x0f]), Code([0xc1, 0xe1, 0x02])])))
  }

  function EmitIndirect(k: U32, width: LoadWidth, profile: InputProfile): seq<Piece> {
    [Code([0x41, 0x89, 0xce]), With32([0x41, 0x81, 0xc6], k), Jcc(0x82, ToFailure)] +
    (EmitBounds(width) + (EmitAlignment(width, profile) +
    (EmitAddress() + (EmitFetch(width) + EmitSwap(width, profile)))))
  }

  /** The displacement byte of a scratch word. */
  function ScratchByte(k: nat): U8 { (-4 * (k + 1)) % 0x100 }

  // ----- arithmetic and control -----

  function EmitRemainder(kind: AluKind): seq<Piece> { if kind.Mod? then [Code([0x89, 0xd0])] else [] }

  function EmitShift(modrm: U8): seq<Piece> {
    [Code([0x41, 0x89, 0xce]), Code([0x41, 0x83, 0xe6, 0x1f]), Code([0x41, 0x89, 0xcf]),
     Code([0x44, 0x89, 0xf1]), Code([0xd3, modrm]), Code([0x44, 0x89, 0xf9])]
  }

  function EmitAluK(kind: AluKind, k: U32): seq<Piece> {
    match kind
    case Add => [With32([0x05], k)]
    case Sub => [With32([0x2d], k)]
    case Mul => [With32([0x69, 0xc0], k)]
    case Div => [With32([0x41, 0xbe], k), Code([0x31, 0xd2]), Code([0x41, 0xf7, 0xf6])] + EmitRemainder(kind)
    case Mod => [With32([0x41, 0xbe], k), Code([0x31, 0xd2]), Code([0x41, 0xf7, 0xf6])] + EmitRemainder(kind)
    case Or => [With32([0x0d], k)]
    case And => [With32([0x25], k)]
    case Lsh => [Code([0xc1, 0xe0, k % 0x100])]
    case Rsh => [Code([0xc1, 0xe8, k % 0x100])]
    case Xor => [With32([0x35], k)]
  }

  function EmitAluX(kind: AluKind): seq<Piece> {
    match kind
    case Add => [Code([0x01, 0xc8])]
    case Sub => [Code([0x29, 0xc8])]
    case Mul => [Code([0x0f, 0xaf, 0xc1])]
    case Div => [Code([0x85, 0xc9]), Jcc(0x84, ToFailure), Code([0x31, 0xd2]), Code([0xf7, 0xf1])] + EmitRemainder(kind)
    case Mod => [Code([0x85, 0xc9]), Jcc(0x84, ToFailure), Code([0x31, 0xd2]), Code([0xf7, 0xf1])] + EmitRemainder(kind)
    case Or => [Code([0x09, 0xc8])]
    case And => [Code([0x21, 0xc8])]
    case Lsh => EmitShift(0xe0)
    case Rsh => EmitShift(0xe8)
    case Xor => [Code([0x31, 0xc8])]
  }

  function ConditionByte(kind: JumpKind): U8 {
    match kind
    case Jeq => 0x84
    case Jgt => 0x87
    case Jge => 0x83
    case Jset => 0x85
  }

  function EmitTest(kind: JumpKind, src: Source, k: U32): Piece {
    if src.FromX? && kind.Jset? then Code([0x85, 0xc8])
    else if src.FromX? then Code([0x39, 0xc8])
    else if kind.Jset? then With32([0xa9], k)
    else With32([0x3d], k)
  }

  function Emit(i: Instruction, pc: nat, profile: InputProfile): seq<Piece> {
    var k := i.k;
    match i.op
    case LdImm => [With32([0xb8], k)]
    case LdAbs(width) => EmitAbsolute(k, width, profile)
    case LdInd(width) => EmitIndirect(k, width, profile)
    case LdMem => [Code([0x8b, 0x45, ScratchByte(k)])]
    case LdLen => [Code([0x44, 0x89, 0xe8])]
    case LdxImm => [With32([0xb9], k)]
    case LdxMem => [Code([0x8b, 0x4d, ScratchByte(k)])]
    case LdxLen => [Code([0x44, 0x89, 0xe9])]
    case LdxMsh => EmitHeaderLength(k)
    case St => [Code([0x89, 0x45, ScratchByte(k)])]
    case Stx => [Code([0x89, 0x4d, ScratchByte(k)])]
    case Alu(kind, src) => if src.FromK? then EmitAluK(kind, k) else EmitAluX(kind)
    case Neg => [Code([0xf7, 0xd8])]
    case Ja => [Jmp(ToSource(pc + 1 + k))]
    case Jump(kind, src) =>
      [EmitTest(kind, src, k), Jcc(ConditionByte(kind), ToSource(pc + 1 + i.jt)), Jmp(ToSource(pc + 1 + i.jf))]
    case RetK => [With32([0xb8], k), Jmp(ToEpilogue)]
    case RetA => [Jmp(ToEpilogue)]
    case Tax => [Code([0x89, 0xc1])]
    case Txa => [Code([0x89, 0xc8])]
    case Unsupported(_) => []
  }
}
