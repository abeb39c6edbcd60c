/**
 Classic BPF: raw instructions, the opcode table, the three input adapters and
 the reference semantics of one instruction and of a whole program.
 */
module Bpf {
  import opened Words

  const MAX_INSTRUCTIONS: nat := 4096
  const SCRATCH_WORDS: nat := 16

  /**
   A raw instruction. Its opcode word is held as the operation it names, which loses nothing
   (`OperationRoundTrip`).
   */
  datatype Instruction = Instruction(op: Op, jt: U8, jf: U8, k: U32) {
    function Code(): U16 { CodeOf(op) }
  }

  datatype LoadWidth = Byte | Half | Word {
    function Bytes(): nat {
      match this
      case Byte => 1
      case Half => 2
      case Word => 4
    }
  }

  datatype Source = FromK | FromX

  datatype AluKind = Add | Sub | Mul | Div | Or | And | Lsh | Rsh | Mod | Xor

  datatype JumpKind = Jeq | Jgt | Jge | Jset

  datatype Op =
    | LdImm | LdAbs(width: LoadWidth) | LdInd(width: LoadWidth) | LdMem | LdLen
    | LdxImm | LdxMem | LdxLen | LdxMsh
    | St | Stx
    | Alu(alu: AluKind, src: Source) | Neg
    | Ja | Jump(jump: JumpKind, src: Source)
    | RetK | RetA
    | Tax | Txa
    | Unsupported(code: UnknownCode)

  /** The opcode words that the program verifier knows. */
  predicate Supported(code: U16) {
    match code
    case 0x00 | 0x20 | 0x28 | 0x30 | 0x40 | 0x48 | 0x50 | 0x60 | 0x80 | 0x01 | 0x61 | 0x81 | 0xb1 => true
    case 0x02 | 0x03 => true
    case 0x04 | 0x0c | 0x14 | 0x1c | 0x24 | 0x2c | 0x34 | 0x3c | 0x44 | 0x4c | 0x54 | 0x5c => true
    case 0x64 | 0x6c | 0x74 | 0x7c | 0x84 | 0x94 | 0x9c | 0xa4 | 0xac => true
    case 0x05 | 0x15 | 0x1d | 0x25 | 0x2d | 0x35 | 0x3d | 0x45 | 0x4d => true
    case 0x06 | 0x16 | 0x07 | 0x87 => true
    case _ => false
  }

  type UnknownCode = code: U16 | !Supported(code) witness 0xffff

  /** The operation named by a raw `sock_filter.code` value. */
  function OpOf(code: U16): Op {
    match code
    case 0x00 => LdImm
    case 0x20 => LdAbs(Word)
    case 0x28 => LdAbs(Half)
    case 0x30 => LdAbs(Byte)
    case 0x40 => LdInd(Word)
    case 0x48 => LdInd(Half)
    case 0x50 => LdInd(Byte)
    case 0x60 => LdMem
    case 0x80 => LdLen
    case 0x01 => LdxImm
    case 0x61 => LdxMem
    case 0x81 => LdxLen
    case 0xb1 => LdxMsh
    case 0x02 => St
    case 0x03 => Stx
    case 0x04 => Alu(Add, FromK)
    case 0x0c => Alu(Add, FromX)
    case 0x14 => Alu(Sub, FromK)
    case 0x1c => Alu(Sub, FromX)
    case 0x24 => Alu(Mul, FromK)
    case 0x2c => Alu(Mul, FromX)
    case 0x34 => Alu(Div, FromK)
    case 0x3c => Alu(Div, FromX)
    case 0x44 => Alu(Or, FromK)
    case 0x4c => Alu(Or, FromX)
    case 0x54 => Alu(And, FromK)
    case 0x5c => Alu(And, FromX)
    case 0x64 => Alu(Lsh, FromK)
    case 0x6c => Alu(Lsh, FromX)
    case 0x74 => Alu(Rsh, FromK)
    case 0x7c => Alu(Rsh, FromX)
    case 0x84 => Neg
    case 0x94 => Alu(Mod, FromK)
    case 0x9c => Alu(Mod, FromX)
    case 0xa4 => Alu(Xor, FromK)
    case 0xac => Alu(Xor, FromX)
    case 0x05 => Ja
    case 0x15 => Jump(Jeq, FromK)
    case 0x1d => Jump(Jeq, FromX)
    case 0x25 => Jump(Jgt, FromK)
    case 0x2d => Jump(Jgt, FromX)
    case 0x35 => Jump(Jge, FromK)
    case 0x3d => Jump(Jge, FromX)
    case 0x45 => Jump(Jset, FromK)
    case 0x4d => Jump(Jset, FromX)
    case 0x06 => RetK
    case 0x16 => RetA
    case 0x07 => Tax
    case 0x87 => Txa
    case _ => Unsupported(code)
  }

  /** The raw code of an operation. */
  function CodeOf(op: Op): U16 {
    match op
    case LdImm => 0x00
    case LdAbs(Word) => 0x20
    case LdAbs(Half) => 0x28
    case LdAbs(Byte) => 0x30
    case LdInd(Word) => 0x40
    case LdInd(Half) => 0x48
    case LdInd(Byte) => 0x50
    case LdMem => 0x60
    case LdLen => 0x80
    case LdxImm => 0x01
    case LdxMem => 0x61
    case LdxLen => 0x81
    case LdxMsh => 0xb1
    case St => 0x02
    case Stx => 0x03
    case Alu(Add, FromK) => 0x04
    case Alu(Add, FromX) => 0x0c
    case Alu(Sub, FromK) => 0x14
    case Alu(Sub, FromX) => 0x1c
    case Alu(Mul, FromK) => 0x24
    case Alu(Mul, FromX) => 0x2c
    case Alu(Div, FromK) => 0x34
    case Alu(Div, FromX) => 0x3c
    case Alu(Or, FromK) => 0x44
    case Alu(Or, FromX) => 0x4c
    case Alu(And, FromK) => 0x54
    case Alu(And, FromX) => 0x5c
    case Alu(Lsh, FromK) => 0x64
    case Alu(Lsh, FromX) => 0x6c
    case Alu(Rsh, FromK) => 0x74
    case Alu(Rsh, FromX) => 0x7c
    case Neg => 0x84
    case Alu(Mod, FromK) => 0x94
    case Alu(Mod, FromX) => 0x9c
    case Alu(Xor, FromK) => 0xa4
    case Alu(Xor, FromX) => 0xac
    case Ja => 0x05
    case Jump(Jeq, FromK) => 0x15
    case Jump(Jeq, FromX) => 0x1d
    case Jump(Jgt, FromK) => 0x25
    case Jump(Jgt, FromX) => 0x2d
    case Jump(Jge, FromK) => 0x35
    case Jump(Jge, FromX) => 0x3d
    case Jump(Jset, FromK) => 0x45
    case Jump(Jset, FromX) => 0x4d
    case RetK => 0x06
    case RetA => 0x16
    case Tax => 0x07
    case Txa => 0x87
    case Unsupported(code) => code
  }

  /** Naming the operation of a raw code loses nothing. */
  lemma OpcodeRoundTrip(code: U16)
    ensures CodeOf(OpOf(code)) == code
  {
  }

  lemma AluRoundTrip(kind: AluKind, src: Source)
    ensures OpOf(CodeOf(Alu(kind, src))) == Alu(kind, src)
  {
    match kind
    case Add | Sub | Mul | Div | Or =>
    case And | Lsh | Rsh | Mod | Xor =>
  }

  /** Every operation is the one its raw code names, so the table is a bijection. */
  lemma OperationRoundTrip(op: Op)
    ensures OpOf(CodeOf(op)) == op
  {
    match op
    case LdImm | LdAbs(_) | LdInd(_) | LdMem | LdLen | LdxImm | LdxMem | LdxLen | LdxMsh =>
    case St | Stx | Neg | Ja | RetK | RetA | Tax | Txa =>
    case Alu(kind, src) => AluRoundTrip(kind, src);
    case Jump(_, _) =>
    case Unsupported(code) => assert !Supported(code);
  }

  // ----- ancillary metadata -----

  const SKF_AD_OFF: U32 := 0xffff_f000
  const SKF_AD_MAX: U32 := 64

  datatype Ancillary = Protocol | Pkttype | Ifindex | Mark | Queue | VlanTag | VlanTagPresent | VlanTpid

  datatype Metadata = Metadata(protocol: U32, ifindex: U32, pkttype: U32, mark: U32, queue: U32,
                               vlanTag: U32, vlanTagPresent: U32, vlanTpid: U32)

  function AncillaryFromOffset(offset: U32): Option<Ancillary> {
    match offset
    case 0xffff_f000 => Some(Protocol)
    case 0xffff_f004 => Some(Pkttype)
    case 0xffff_f008 => Some(Ifindex)
    case 0xffff_f014 => Some(Mark)
    case 0xffff_f018 => Some(Queue)
    case 0xffff_f02c => Some(VlanTag)
    case 0xffff_f030 => Some(VlanTagPresent)
    case 0xffff_f03c => Some(VlanTpid)
    case _ => None
  }

  predicate IsAncillaryOffset(offset: U32) { Sub32(offset, SKF_AD_OFF) < SKF_AD_MAX }

  /** Byte offset of a field inside the packed metadata record. */
  function MetadataOffset(field: Ancillary): nat {
    match field
    case Protocol => 0
    case Ifindex => 4
    case Pkttype => 8
    case Mark => 12
    case Queue => 16
    case VlanTag => 20
    case VlanTagPresent => 24
    case VlanTpid => 28
  }

  function ReadField(field: Ancillary, metadata: Metadata): U32 {
    match field
    case Protocol => metadata.protocol
    case Pkttype => metadata.pkttype
    case Ifindex => metadata.ifindex
    case Mark => metadata.mark
    case Queue => metadata.queue
    case VlanTag => metadata.vlanTag
    case VlanTagPresent => metadata.vlanTagPresent
    case VlanTpid => metadata.vlanTpid
  }

  // ----- inputs -----

  /** Input ABI used by emitted loads. */
  datatype InputProfile = PacketBytesBigEndian | PacketContextBigEndian | NativeAlignedWords

  /** The byte slice, the packet with metadata, and the native-word snapshot. */
  datatype Input =
    | ByteInput(data: seq<U8>)
    | PacketInput(data: seq<U8>, metadata: Metadata)
    | NativeWordInput(data: seq<U8>)
  {
    function Profile(): InputProfile {
      match this
      case ByteInput(_) => PacketBytesBigEndian
      case PacketInput(_, _) => PacketContextBigEndian
      case NativeWordInput(_) => NativeAlignedWords
    }

    function Len(): U32 { if |data| < B32 then |data| else B32 - 1 }

    function Load(offset: U32, width: LoadWidth): Option<U32> {
      if NativeWordInput? && width == Word && offset % 4 != 0 then None
      else if offset + width.Bytes() > |data| then None
      else
        match width
        case Byte => Some(data[offset])
        case Half =>
          if NativeWordInput? then Some(Little16(data[offset], data[offset + 1]))
          else Some(Big16(data[offset], data[offset + 1]))
        case Word =>
          if NativeWordInput? then Some(Little32(data[offset], data[offset + 1], data[offset + 2], data[offset + 3]))
          else Some(Big32(data[offset], data[offset + 1], data[offset + 2], data[offset + 3]))
    }

    /** Only the packet adapter provides metadata. */
    function AncillaryValue(field: Ancillary): Option<U32> {
      if PacketInput? then Some(ReadField(field, metadata)) else None
    }
  }

  // ----- semantics of one instruction -----

  /** The registers A and X and the sixteen scratch words. */
  datatype Vm = Vm(a: U32, x: U32, m: seq<U32>)

  datatype Outcome = Next(pc: nat, vm: Vm) | Done(value: U32)

  const INITIAL: Vm := Vm(0, 0, seq(SCRATCH_WORDS, _ => 0))

  predicate UsesScratch(op: Op) { op.LdMem? || op.LdxMem? || op.St? || op.Stx? }

  predicate IsReturn(op: Op) { op.RetK? || op.RetA? }

  /** What an instruction must satisfy for its semantics to be defined. */
  predicate Executable(i: Instruction) {
    var op := i.op;
    && !op.Unsupported?
    && (UsesScratch(op) ==> i.k < SCRATCH_WORDS)
    && (op in {Alu(Div, FromK), Alu(Mod, FromK)} ==> i.k != 0)
    && (op in {Alu(Lsh, FromK), Alu(Rsh, FromK)} ==> i.k < 32)
  }

  predicate ValidVm(vm: Vm) { |vm.m| == SCRATCH_WORDS }

  function AluResult(kind: AluKind, a: U32, operand: U32): U32
    requires kind in {Div, Mod} ==> operand != 0
  {
    match kind
    case Add => Add32(a, operand)
    case Sub => Sub32(a, operand)
    case Mul => Mul32(a, operand)
    case Div => Quotient32(a, operand)
    case Or => Or32(a, operand)
    case And => And32(a, operand)
    case Lsh => Shl32(a, operand)
    case Rsh => Shr32(a, operand)
    case Mod => Remainder32(a, operand)
    case Xor => Xor32(a, operand)
  }

  predicate JumpTaken(kind: JumpKind, a: U32, operand: U32) {
    match kind
    case Jeq => a == operand
    case Jgt => a > operand
    case Jge => a >= operand
    case Jset => And32(a, operand) != 0
  }

  function AfterLoad(loaded: Option<U32>, pc: nat, vm: Vm): Outcome {
    match loaded
    case None => Done(0)
    case Some(v) => Next(pc + 1, vm.(a := v))
  }

  function Step(i: Instruction, pc: nat, vm: Vm, input: Input): Outcome
    requires Executable(i) && ValidVm(vm)
  {
    var k := i.k;
    match i.op
    case LdImm => Next(pc + 1, vm.(a := k))
    case LdAbs(width) =>
      if AncillaryFromOffset(k).Some? then
        var field := input.AncillaryValue(AncillaryFromOffset(k).value);
        Next(pc + 1, vm.(a := if field.Some? then field.value else 0))
      else AfterLoad(input.Load(k, width), pc, vm)
    case LdInd(width) =>
      if vm.x + k >= B32 then Done(0) else AfterLoad(input.Load(vm.x + k, width), pc, vm)
    case LdMem => Next(pc + 1, vm.(a := vm.m[k]))
    case LdLen => Next(pc + 1, vm.(a := input.Len()))
    case LdxImm => Next(pc + 1, vm.(x := k))
    case LdxMem => Next(pc + 1, vm.(x := vm.m[k]))
    case LdxLen => Next(pc + 1, vm.(x := input.Len()))
    case LdxMsh =>
      (match input.Load(k, Byte)
       case None => Done(0)
       case Some(v) => Next(pc + 1, vm.(x := Shl32(And32(v, 0x0f), 2))))
    case St => Next(pc + 1, vm.(m := vm.m[k := vm.a]))
    case Stx => Next(pc + 1, vm.(m := vm.m[k := vm.x]))
    case Alu(kind, FromK) => Next(pc + 1, vm.(a := AluResult(kind, vm.a, k)))
    case Alu(kind, FromX) =>
      if kind in {Div, Mod} && vm.x == 0 then Done(0)
      else Next(pc + 1, vm.(a := AluResult(kind, vm.a, if kind in {Lsh, Rsh} then And32(vm.x, 31) else vm.x)))
    case Neg => Next(pc + 1, vm.(a := Neg32(vm.a)))
    case Ja => Next(pc + 1 + k, vm)
    case Jump(kind, src) =>
      var operand := if src.FromX? then vm.x else k;
      Next(pc + 1 + (if JumpTaken(kind, vm.a, operand) then i.jt else i.jf), vm)
    case RetK => Done(k)
    case RetA => Done(vm.a)
    case Tax => Next(pc + 1, vm.(x := vm.a))
    case Txa => Next(pc + 1, vm.(a := vm.x))
  }

  /** Which instructions an input profile can serve. */
  predicate ProfileAdmits(i: Instruction, profile: InputProfile) {
    && (i.op.LdAbs? && AncillaryFromOffset(i.k).Some? ==> profile.PacketContextBigEndian?)
    && (profile.NativeAlignedWords? ==>
          && (i.op == LdAbs(Word) ==> i.k % 4 == 0)
          && i.op !in {LdAbs(Half), LdAbs(Byte), LdInd(Half), LdInd(Byte), LdxMsh})
  }

  // ----- well-formed programs and their meaning -----

  /** The places control may go after the instruction at `pc`; empty after a return. */
  function Successors(i: Instruction, pc: nat): set<nat>
  {
    match i.op
    case RetK => {}
    case RetA => {}
    case Ja => {pc + 1 + i.k}
    case Jump(_, _) => {pc + 1 + i.jt, pc + 1 + i.jf}
    case Unsupported(_) => {}
    case _ => {pc + 1}
  }

  /** Every instruction is executable and hands control to a later instruction of the program. */
  predicate Closed(program: seq<Instruction>) {
    && |program| > 0
    && forall pc :: 0 <= pc < |program| ==>
         && Executable(program[pc])
         && forall q :: q in Successors(program[pc], pc) ==> q < |program|
  }

  /** The value a program returns from `pc` with the given registers. */
  function Evaluate(program: seq<Instruction>, pc: nat, vm: Vm, input: Input): U32
    requires Closed(program) && pc < |program| && ValidVm(vm)
    decreases |program| - pc
  {
    StepStays(program[pc], pc, vm, input);
    match Step(program[pc], pc, vm, input)
    case Done(v) => v
    case Next(q, next) => Evaluate(program, q, next, input)
  }

  /** A step either returns or moves to one of the later successors. */
  lemma StepStays(i: Instruction, pc: nat, vm: Vm, input: Input)
    requires Executable(i) && ValidVm(vm)
    ensures var o := Step(i, pc, vm, input);
            o.Next? ==> o.pc in Successors(i, pc) && o.pc > pc && ValidVm(o.vm)
  {
  }
}
