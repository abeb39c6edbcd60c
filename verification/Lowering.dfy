/**
 The validator's lowering model: for every source instruction and input profile,
 the exact native operations that must implement it. Branch targets stay
 symbolic: a source instruction, the common failure block or the epilogue.
 */
module Lowering {
  import opened Words
  import opened Bpf
  import opened Native

  datatype Target = ToSource(pc: nat) | ToFailure | ToEpilogue

  datatype Pattern =
    | Exact(op: NativeOp)
    | Branch(condition: Condition, target: Target)
    | Goto(target: Target)

  // Offsets inside the packet context record: data pointer, length, metadata.
  const LEN_OFFSET: int := 8
  const METADATA_OFFSET: int := 16

  function Move32(d: Register, s: Operand): Pattern { Exact(Mov(W32, Reg(d), s)) }

  function Op32(kind: BinaryKind, d: Register, s: Operand): Pattern { Exact(Binary(kind, W32, Reg(d), s)) }

  /** The byte displacement of a scratch word below rbp, as the signed byte it is encoded in. */
  function SlotOffset(k: nat): int { (-4 * (k + 1) + 0x80) % 0x100 - 0x80 }

  function Prologue(profile: InputProfile): seq<Pattern> {
    SaveRegisters() + EnterFrame() + Arguments(profile) + ClearRegisters()
  }

  function SaveRegisters(): seq<Pattern> {
    [Exact(Push(Rbp)), Exact(Push(R12)), Exact(Push(R13)), Exact(Push(R14)), Exact(Push(R15))]
  }

  function EnterFrame(): seq<Pattern> {
    [Exact(Mov(W64, Reg(Rbp), Reg(Rsp))), Exact(Binary(XSub, W64, Reg(Rsp), Imm(0x40)))]
  }

  function Arguments(profile: InputProfile): seq<Pattern> {
    if profile.PacketContextBigEndian? then
      [Exact(Load(W64, R12, Rdi, 0)), Exact(Load(W32, R13d, Rdi, LEN_OFFSET))]
    else
      [Exact(Mov(W64, Reg(R12), Reg(Rdi))), Move32(R13d, Reg(Esi))]
  }

  function ClearRegisters(): seq<Pattern> {
    [Op32(XXor, Eax, Reg(Eax)), Op32(XXor, Ecx, Reg(Ecx))]
  }

  function FailureBlock(): seq<Pattern> { [Op32(XXor, Eax, Reg(Eax)), Goto(ToEpilogue)] }

  function Epilogue(): seq<Pattern> {
    [Exact(Binary(XAdd, W64, Reg(Rsp), Imm(0x40))),
     Exact(Pop(R15)), Exact(Pop(R14)), Exact(Pop(R13)), Exact(Pop(R12)), Exact(Pop(Rbp)), Exact(Return)]
  }

  // ----- input loads -----

  /** Fails unless `offset + bytes <= len`, computed without wrapping. */
  function Bounds(width: LoadWidth): seq<Pattern> {
    [Exact(Compare(W32, Reg(R13d), Imm(width.Bytes()))), Branch(Below, ToFailure),
     Move32(R15d, Reg(R13d)), Op32(XSub, R15d, Imm(width.Bytes())),
     Exact(Compare(W32, Reg(R15d), Reg(R14d))), Branch(Below, ToFailure)]
  }

  function AddressAdd(): seq<Pattern> {
    [Exact(Binary(XAdd, W64, Reg(R14), Reg(R12))), Branch(Below, ToFailure)]
  }

  function NativeWidth(width: LoadWidth): Width {
    match width
    case Byte => W8
    case Half => W16
    case Word => W32
  }

  function EndianTransform(width: LoadWidth, profile: InputProfile): seq<Pattern> {
    if profile.NativeAlignedWords? then []
    else
      match width
      case Byte => []
      case Half => [Exact(Unary(RotateLeft, W16, Eax, 8))]
      case Word => [Exact(Unary(ByteSwap, W32, Eax, 0))]
  }

  function FetchInto(width: LoadWidth, d: Register): seq<Pattern> {
    [Exact(SpeculationBarrier), Exact(Load(NativeWidth(width), d, R14, 0))]
  }

  function IndirectOffset(k: U32): seq<Pattern> {
    [Move32(R14d, Reg(Ecx)), Op32(XAdd, R14d, Imm(k)), Branch(Below, ToFailure)]
  }

  function AlignmentCheck(width: LoadWidth, profile: InputProfile): seq<Pattern> {
    if profile.NativeAlignedWords? && width == Word then
      [Exact(Test(W8, Reg(R14d), Imm(3))), Branch(NotEqual, ToFailure)]
    else []
  }

  function AbsoluteLoad(k: U32, width: LoadWidth, profile: InputProfile): seq<Pattern> {
    match AncillaryFromOffset(k)
    case Some(field) => [Exact(Load(W32, Eax, Rdi, METADATA_OFFSET + MetadataOffset(field)))]
    case None =>
      [Move32(R14d, Imm(k))] +
        (Bounds(width) + (AddressAdd() + (FetchInto(width, Eax) + EndianTransform(width, profile))))
  }

  function AbsoluteLoadToX(k: U32): seq<Pattern> {
    [Move32(R14d, Imm(k))] + (Bounds(Byte) + (AddressAdd() + (FetchInto(Byte, Ecx) +
    [Op32(XAnd, Ecx, Imm(0x0f)), Exact(ShiftImmediate(Left, W32, Ecx, 2))])))
  }

  function IndirectLoad(k: U32, width: LoadWidth, profile: InputProfile): seq<Pattern> {
    IndirectOffset(k) + (Bounds(width) + (AlignmentCheck(width, profile) +
    (AddressAdd() + (FetchInto(width, Eax) + EndianTransform(width, profile)))))
  }

  // ----- arithmetic and control -----

  function TakeRemainder(kind: AluKind): seq<Pattern> {
    if kind.Mod? then [Move32(Eax, Reg(Edx))] else []
  }

  function DivideImmediate(kind: AluKind, k: U32): seq<Pattern> {
    [Move32(R14d, Imm(k)), Op32(XXor, Edx, Reg(Edx)), Exact(Divide(W32, Reg(R14d)))] + TakeRemainder(kind)
  }

  function DivideIndex(kind: AluKind): seq<Pattern> {
    [Exact(Test(W32, Reg(Ecx), Reg(Ecx))), Branch(Equal, ToFailure),
     Op32(XXor, Edx, Reg(Edx)), Exact(Divide(W32, Reg(Ecx)))] + TakeRemainder(kind)
  }

  function ShiftIndex(shift: ShiftKind): seq<Pattern> {
    [Move32(R14d, Reg(Ecx)), Op32(XAnd, R14d, Imm(0x1f)), Move32(R15d, Reg(Ecx)),
     Move32(Ecx, Reg(R14d)), Exact(ShiftRegister(shift, W32, Eax)), Move32(Ecx, Reg(R15d))]
  }

  function BinaryKindOf(kind: AluKind): BinaryKind {
    match kind
    case Add => XAdd
    case Sub => XSub
    case Or => XOr
    case And => XAnd
    case _ => XXor
  }

  function LowerAlu(kind: AluKind, src: Source, k: U32): seq<Pattern> {
    match (kind, src)
    case (Mul, FromK) => [Exact(ImmediateMultiply(Eax, Eax, k))]
    case (Mul, FromX) => [Op32(XMul, Eax, Reg(Ecx))]
    case (Div, FromK) => DivideImmediate(kind, k)
    case (Mod, FromK) => DivideImmediate(kind, k)
    case (Div, FromX) => DivideIndex(kind)
    case (Mod, FromX) => DivideIndex(kind)
    case (Lsh, FromK) => [Exact(ShiftImmediate(Left, W32, Eax, k % 0x100))]
    case (Rsh, FromK) => [Exact(ShiftImmediate(Right, W32, Eax, k % 0x100))]
    case (Lsh, FromX) => ShiftIndex(Left)
    case (Rsh, FromX) => ShiftIndex(Right)
    case (_, FromK) => [Op32(BinaryKindOf(kind), Eax, Imm(k))]
    case (_, FromX) => [Op32(BinaryKindOf(kind), Eax, Reg(Ecx))]
  }

  function JumpCondition(kind: JumpKind): Condition {
    match kind
    case Jeq => Equal
    case Jgt => Above
    case Jge => AboveOrEqual
    case Jset => NotEqual
  }

  function LowerJump(i: Instruction, kind: JumpKind, src: Source, pc: nat): seq<Pattern> {
    var right := if src.FromK? then Imm(i.k) else Reg(Ecx);
    [Exact(if kind.Jset? then Test(W32, Reg(Eax), right) else Compare(W32, Reg(Eax), right)),
     Branch(JumpCondition(kind), ToSource(pc + 1 + i.jt)),
     Goto(ToSource(pc + 1 + i.jf))]
  }

  /** The native operations of the instruction at `pc`. */
  function Lower(i: Instruction, pc: nat, profile: InputProfile): seq<Pattern> {
    var k := i.k;
    match i.op
    case LdImm => [Move32(Eax, Imm(k))]
    case LdAbs(width) => AbsoluteLoad(k, width, profile)
    case LdInd(width) => IndirectLoad(k, width, profile)
    case LdMem => [Exact(Load(W32, Eax, Rbp, SlotOffset(k)))]
    case LdLen => [Move32(Eax, Reg(R13d))]
    case LdxImm => [Move32(Ecx, Imm(k))]
    case LdxMem => [Exact(Load(W32, Ecx, Rbp, SlotOffset(k)))]
    case LdxLen => [Move32(Ecx, Reg(R13d))]
    case LdxMsh => AbsoluteLoadToX(k)
    case St => [Exact(Mov(W32, Mem(Rbp, SlotOffset(k)), Reg(Eax)))]
    case Stx => [Exact(Mov(W32, Mem(Rbp, SlotOffset(k)), Reg(Ecx)))]
    case Alu(kind, src) => LowerAlu(kind, src, k)
    case Neg => [Exact(Unary(Negate, W32, Eax, 0))]
    case Ja => [Goto(ToSource(pc + 1 + k))]
    case Jump(kind, src) => LowerJump(i, kind, src, pc)
    case RetK => [Move32(Eax, Imm(k)), Goto(ToEpilogue)]
    case RetA => [Goto(ToEpilogue)]
    case Tax => [Move32(Ecx, Reg(Eax))]
    case Txa => [Move32(Eax, Reg(Ecx))]
    case Unsupported(_) => []
  }

  // ----- executing a block of patterns -----

  datatype Flow = Fall(state: State) | Leave(target: Target, state: State) | Stuck

  function Do(exec: Executor, p: Pattern, s: State): Flow {
    match p
    case Exact(op) =>
      (match exec(op, s)
       case None => Stuck
       case Some(t) => Fall(t))
    case Branch(c, t) =>
      if s.flags.Undefined? then Stuck
      else if Holds(c, s.flags) then Leave(t, s) else Fall(s)
    case Goto(t) => Leave(t, s)
  }

  /** Runs a block until it falls through, branches away or faults. */
  function Perform(exec: Executor, ps: seq<Pattern>, s: State): Flow {
    if ps == [] then Fall(s)
    else
      match Do(exec, ps[0], s)
      case Fall(t) => Perform(exec, ps[1..], t)
      case other => other
  }

  /** Continues with `qs` where the first part fell through. */
  function Then(exec: Executor, f: Flow, qs: seq<Pattern>): Flow { if f.Fall? then Perform(exec, qs, f.state) else f }

  lemma PerformOne(exec: Executor, p: Pattern, s: State)
    ensures Perform(exec, [p], s) == Do(exec, p, s)
  {
    assert [p][1..] == [];
  }

  lemma {:induction false} PerformSeq(exec: Executor, ps: seq<Pattern>, qs: seq<Pattern>, s: State)
    ensures Perform(exec, ps + qs, s) == Then(exec, Perform(exec, ps, s), qs)
    decreases |ps|
  {
    if ps == [] {
      assert ps + qs == qs;
    } else {
      assert (ps + qs)[1..] == ps[1..] + qs;
      if Do(exec, ps[0], s).Fall? {
        PerformSeq(exec, ps[1..], qs, Do(exec, ps[0], s).state);
      }
    }
  }

  // ----- blocks as values -----

  /** The machine's effect on blocks, passed around as a value. */
  type Performer = (seq<Pattern>, State) -> Flow

  /** Asks for a block to be unfolded. */
  predicate Unfold(ps: seq<Pattern>, s: State) { true }

  /** `perform` performs blocks as the machine does; a block is only unfolded where `Unfold` asks for it. */
  ghost predicate IsMachine(perform: Performer) {
    forall ps, s {:trigger Unfold(ps, s)} :: Unfold(ps, s) ==> perform(ps, s) == Perform(Exec, ps, s)
  }

  lemma MachinePerforms()
    ensures IsMachine((ps: seq<Pattern>, s: State) => Perform(Exec, ps, s))
  {
  }

  lemma Single(perform: Performer, p: Pattern, s: State)
    requires IsMachine(perform)
    ensures perform([p], s) == Do(Exec, p, s)
  {
    assert Unfold([p], s);
    PerformOne(Exec, p, s);
  }

  lemma Nothing(perform: Performer, s: State)
    requires IsMachine(perform)
    ensures perform([], s) == Fall(s)
  {
    assert Unfold([], s);
  }

  lemma Sequence(perform: Performer, ps: seq<Pattern>, qs: seq<Pattern>, s: State)
    requires IsMachine(perform)
    ensures perform(ps + qs, s) == if perform(ps, s).Fall? then perform(qs, perform(ps, s).state) else perform(ps, s)
  {
    assert Unfold(ps + qs, s) && Unfold(ps, s);
    PerformSeq(Exec, ps, qs, s);
    if perform(ps, s).Fall? {
      assert Unfold(qs, perform(ps, s).state);
    }
  }

  lemma Pair(perform: Performer, p: Pattern, q: Pattern, s: State)
    requires IsMachine(perform)
    ensures perform([p, q], s) ==
            if perform([p], s).Fall? then perform([q], perform([p], s).state) else perform([p], s)
  {
    assert [p, q] == [p] + [q];
    Sequence(perform, [p], [q], s);
  }

  // ----- a block laid out in code -----

  /** Where each symbolic target lies. */
  type Layout = Target -> nat

  predicate Realises(p: Pattern, op: NativeOp, at: Layout) {
    match p
    case Exact(o) => op == o && !o.ConditionalJump? && !o.DirectJump?
    case Branch(c, t) => op == ConditionalJump(c, at(t))
    case Goto(t) => op == DirectJump(at(t))
  }

  /** The code from `p` up to `end` is exactly the given block, with its targets resolved by `at`. */
  predicate Placed(fetch: Fetch, p: nat, ps: seq<Pattern>, end: nat, at: Layout)
    decreases |ps|
  {
    if ps == [] then p == end
    else
      && fetch(p).Some?
      && p < fetch(p).value.1
      && Realises(ps[0], fetch(p).value.0, at)
      && Placed(fetch, fetch(p).value.1, ps[1..], end, at)
  }

  lemma {:induction false} PlacedOrder(fetch: Fetch, p: nat, ps: seq<Pattern>, end: nat, at: Layout)
    requires Placed(fetch, p, ps, end, at)
    ensures p + |ps| <= end
    decreases |ps|
  {
    if ps != [] {
      PlacedOrder(fetch, fetch(p).value.1, ps[1..], end, at);
    }
  }

  lemma {:induction false} PlacedSplit(fetch: Fetch, p: nat, ps: seq<Pattern>, qs: seq<Pattern>, end: nat, at: Layout)
    returns (mid: nat)
    requires Placed(fetch, p, ps + qs, end, at)
    ensures Placed(fetch, p, ps, mid, at) && Placed(fetch, mid, qs, end, at)
    decreases |ps|
  {
    if ps == [] {
      assert ps + qs == qs;
      mid := p;
    } else {
      assert (ps + qs)[1..] == ps[1..] + qs;
      mid := PlacedSplit(fetch, fetch(p).value.1, ps[1..], qs, end, at);
    }
  }

  lemma {:induction false} PlacedJoin(fetch: Fetch, p: nat, ps: seq<Pattern>, mid: nat, qs: seq<Pattern>, end: nat,
                                      at: Layout)
    requires Placed(fetch, p, ps, mid, at) && Placed(fetch, mid, qs, end, at)
    ensures Placed(fetch, p, ps + qs, end, at)
    decreases |ps|
  {
    if ps == [] {
      assert ps + qs == qs;
    } else {
      assert (ps + qs)[1..] == ps[1..] + qs;
      PlacedJoin(fetch, fetch(p).value.1, ps[1..], mid, qs, end, at);
    }
  }

  /** Every branch of the block goes to its end or beyond. */
  predicate Forward(ps: seq<Pattern>, end: nat, at: Layout) {
    forall k :: 0 <= k < |ps| && !ps[k].Exact? ==> at(ps[k].target) >= end
  }

  /** From offset `p`, every run with a step for each remaining byte halts as `post` says. */
  ghost predicate Ends(exec: Executor, fetch: Fetch, limit: nat, p: nat, s: State, post: Halt -> bool) {
    forall fuel: nat :: fuel >= limit - p && fuel > 0 ==> post(Run(exec, fetch, p, s, fuel))
  }

  /** Wherever the block leads, the run from there halts as `post` says. */
  ghost predicate Arrives(exec: Executor, fetch: Fetch, limit: nat, f: Flow, end: nat, at: Layout, post: Halt -> bool) {
    match f
    case Fall(t) => end < limit && Ends(exec, fetch, limit, end, t, post)
    case Leave(target, t) => at(target) < limit && Ends(exec, fetch, limit, at(target), t, post)
    case Stuck => false
  }

  /** Executing the code of a block is performing the block. */
  lemma {:induction false} RunBlock(exec: Executor, fetch: Fetch, limit: nat, p: nat, ps: seq<Pattern>, end: nat,
                                    at: Layout, s: State, post: Halt -> bool)
    requires Placed(fetch, p, ps, end, at) && Forward(ps, end, at) && end <= limit
    requires Arrives(exec, fetch, limit, Perform(exec, ps, s), end, at, post)
    requires forall k :: 0 <= k < |ps| ==> ps[k] != Exact(Return)
    ensures Ends(exec, fetch, limit, p, s, post)
    decreases |ps|
  {
    if ps != [] {
      var op, q := fetch(p).value.0, fetch(p).value.1;
      PlacedOrder(fetch, q, ps[1..], end, at);
      assert ps[0] != Exact(Return);
      forall fuel: nat | fuel >= limit - p && fuel > 0
        ensures post(Run(exec, fetch, p, s, fuel))
      {
        match Do(exec, ps[0], s)
        case Fall(t) =>
          RunBlock(exec, fetch, limit, q, ps[1..], end, at, t, post);
          assert Run(exec, fetch, p, s, fuel) == Run(exec, fetch, q, t, fuel - 1);
        case Leave(target, t) =>
          assert Run(exec, fetch, p, s, fuel) == Run(exec, fetch, at(target), t, fuel - 1);
      }
    }
  }
}
