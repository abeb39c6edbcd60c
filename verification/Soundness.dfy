/**
 Whole programs: code whose blocks are placed as the lowering asks returns the
 interpreter's value on every valid call, in at most one step per code byte,
 with the caller's registers and memory given back.
 */
module Soundness {
  import opened Words
  import opened Bpf
  import opened Paths
  import opened Native
  import opened Lowering
  import opened Frame
  import opened Footprint
  import opened Blocks
  import opened Simulation
  import opened Arithmetic
  import opened Scratch
  import opened Linkage

  // ----- one instruction -----

  lemma LoadInstruction(perform: Performer, c: Call, s: State, i: Instruction, pc: nat, vm: Vm)
    requires IsMachine(perform) && ValidInput(c) && ValidArguments(c) && OutsideKept(c, s.mem)
    requires Matches(c, s, vm) && ValidVm(vm) && ProfileAdmits(i, c.input.Profile())
    requires i.op.LdAbs? || i.op.LdInd? || i.op.LdxMsh?
    ensures Simulates(c, s, perform(Lower(i, pc, c.input.Profile()), s), pc, Step(i, pc, vm, c.input))
  {
    match i.op
    case LdAbs(width) =>
      match AncillaryFromOffset(i.k) {
        case Some(field) => AncillarySimulates(perform, c, s, field, pc, vm);
        case None => AbsoluteSimulates(perform, c, s, i.k, width, pc, vm);
      }
    case LdInd(width) => IndirectSimulates(perform, c, s, i.k, width, pc, vm);
    case LdxMsh => HeaderSimulates(perform, c, s, i.k, pc, vm);
  }

  lemma AluInstruction(perform: Performer, c: Call, s: State, i: Instruction, pc: nat, vm: Vm)
    requires IsMachine(perform) && Matches(c, s, vm) && ValidVm(vm) && i.op.Alu? && Executable(i)
    ensures Simulates(c, s, perform(Lower(i, pc, c.input.Profile()), s), pc, Step(i, pc, vm, c.input))
  {
    var kind, src := i.op.alu, i.op.src;
    if kind in {Div, Mod} {
      DivisionSimulates(perform, c, s, kind, src, i.k, pc, vm);
    } else if kind in {Lsh, Rsh} {
      ShiftSimulates(perform, c, s, kind, src, i.k, pc, vm);
    } else {
      AluSimulates(perform, c, s, kind, src, i.k, pc, vm);
    }
  }

  lemma PureInstruction(perform: Performer, c: Call, s: State, i: Instruction, pc: nat, vm: Vm)
    requires IsMachine(perform) && ValidInput(c) && ValidArguments(c) && OutsideKept(c, s.mem)
    requires Matches(c, s, vm) && ValidVm(vm) && ProfileAdmits(i, c.input.Profile())
    requires Executable(i) && !UsesScratch(i.op)
    ensures Simulates(c, s, perform(Lower(i, pc, c.input.Profile()), s), pc, Step(i, pc, vm, c.input))
  {
    if i.op.LdAbs? || i.op.LdInd? || i.op.LdxMsh? {
      LoadInstruction(perform, c, s, i, pc, vm);
    } else if i.op.Alu? {
      AluInstruction(perform, c, s, i, pc, vm);
    } else if i.op.Ja? || i.op.Jump? || IsReturn(i.op) {
      ControlSimulates(perform, c, s, i, pc, vm);
    } else {
      TransferSimulates(perform, c, s, i, pc, vm);
    }
  }

  lemma PureKeepsScratch(i: Instruction, pc: nat, vm: Vm, input: Input)
    requires Executable(i) && ValidVm(vm) && !UsesScratch(i.op)
    ensures var o := Step(i, pc, vm, input); o.Next? ==> o.vm.m == vm.m
  {
  }

  /** Performing the lowered block of any instruction carries the machine along with the interpreter. */
  lemma InstructionCarries(perform: Performer, c: Call, s: State, i: Instruction, pc: nat, vm: Vm, known: set<nat>)
    requires IsMachine(perform) && ValidCall(c) && Body(c, s, vm, known) && ValidVm(vm)
    requires Executable(i) && ProfileAdmits(i, c.input.Profile()) && (Reads(i) ==> i.k in known)
    ensures Carries(c, perform(Lower(i, pc, c.input.Profile()), s), pc, Step(i, pc, vm, c.input), known + StoredBy(i))
  {
    if Reads(i) {
      RecallCarries(perform, c, s, i, pc, vm, known);
      assert known + StoredBy(i) == known;
    } else if i.op.St? || i.op.Stx? {
      StoreCarries(perform, c, s, i, pc, vm, known);
    } else {
      PureInstruction(perform, c, s, i, pc, vm);
      PureKeepsScratch(i, pc, vm, c.input);
      assert known + StoredBy(i) == known;
    }
  }

  // ----- whole programs -----

  /** What the caller finds when the function returns `v`. */
  predicate ReturnsTo(c: Call, v: U32, h: Halt) {
    && h.Returned?
    && h.state.regs[RAX] == v
    && h.state.regs[RSP] == (c.StackTop() + 8) % B64
    && h.state.regs[3] == c.entry.regs[3]
    && (forall j :: 0 <= j < 5 ==> h.state.regs[SAVED[j]] == c.entry.regs[SAVED[j]])
    && OutsideKept(c, h.state.mem)
    && Mapped(c.entry.mem, c.StackTop(), 8) && h.address == Read(c.entry.mem, c.StackTop(), 8)
  }

  function BlockEnd(program: seq<Instruction>, pc: nat, at: Layout): nat {
    if pc + 1 < |program| then at(ToSource(pc + 1)) else at(ToFailure)
  }

  /** Asks for the placement of the block at a position to be looked up. */
  predicate Position(pc: nat) { true }

  /** One block per instruction, each followed by the next. */
  ghost predicate HasBlocks(fetch: Fetch, program: seq<Instruction>, profile: InputProfile, at: Layout) {
    forall pc: nat {:trigger Position(pc)} :: Position(pc) && pc < |program| ==>
      Placed(fetch, at(ToSource(pc)), Lower(program[pc], pc, profile), BlockEnd(program, pc, at), at)
  }

  /** The failure block and the epilogue, which ends the code. */
  ghost predicate HasTail(fetch: Fetch, limit: nat, at: Layout) {
    forall pc: nat {:trigger Position(pc)} :: Position(pc) ==>
      && Placed(fetch, at(ToFailure), FailureBlock(), at(ToEpilogue), at)
      && Placed(fetch, at(ToEpilogue), Epilogue(), limit, at)
  }

  /** Prologue, one block per instruction, failure block and epilogue, one after the other. */
  ghost predicate LaidOut(fetch: Fetch, limit: nat, program: seq<Instruction>, profile: InputProfile, at: Layout) {
    && Placed(fetch, 0, Prologue(profile), at(ToSource(0)), at)
    && HasBlocks(fetch, program, profile, at)
    && HasTail(fetch, limit, at)
  }

  /** Blocks lie in program order, before the failure block and the epilogue. */
  predicate InOrder(program: seq<Instruction>, limit: nat, at: Layout) {
    && (forall pc, q :: 0 <= pc < q < |program| ==> at(ToSource(pc)) < at(ToSource(q)))
    && (forall pc :: 0 <= pc < |program| ==> at(ToSource(pc)) < at(ToFailure))
    && at(ToFailure) < at(ToEpilogue) < limit
  }

  lemma LowerNonempty(i: Instruction, pc: nat, profile: InputProfile)
    requires !i.op.Unsupported?
    ensures |Lower(i, pc, profile)| > 0
  {
  }

  lemma BlockOrder(fetch: Fetch, program: seq<Instruction>, profile: InputProfile, at: Layout, pc: nat)
    requires HasBlocks(fetch, program, profile, at) && pc < |program| && !program[pc].op.Unsupported?
    ensures at(ToSource(pc)) < BlockEnd(program, pc, at)
  {
    assert Position(pc);
    LowerNonempty(program[pc], pc, profile);
    PlacedOrder(fetch, at(ToSource(pc)), Lower(program[pc], pc, profile), BlockEnd(program, pc, at), at);
  }

  lemma {:induction false} Ordered(fetch: Fetch, program: seq<Instruction>, profile: InputProfile, at: Layout, pc: nat,
                                   q: nat)
    requires HasBlocks(fetch, program, profile, at) && pc < q < |program|
    requires forall i :: 0 <= i < |program| ==> !program[i].op.Unsupported?
    ensures at(ToSource(pc)) < at(ToSource(q))
    decreases q - pc
  {
    BlockOrder(fetch, program, profile, at, pc);
    if pc + 1 < q {
      Ordered(fetch, program, profile, at, pc + 1, q);
    }
  }

  lemma TailOrder(fetch: Fetch, limit: nat, at: Layout)
    requires HasTail(fetch, limit, at)
    ensures at(ToFailure) < at(ToEpilogue) < limit
  {
    assert Position(0);
    PlacedOrder(fetch, at(ToFailure), FailureBlock(), at(ToEpilogue), at);
    PlacedOrder(fetch, at(ToEpilogue), Epilogue(), limit, at);
  }

  lemma CodeInOrder(fetch: Fetch, limit: nat, program: seq<Instruction>, profile: InputProfile, at: Layout)
    requires HasBlocks(fetch, program, profile, at) && HasTail(fetch, limit, at) && |program| > 0
    requires forall i :: 0 <= i < |program| ==> !program[i].op.Unsupported?
    ensures InOrder(program, limit, at)
  {
    TailOrder(fetch, limit, at);
    forall pc, q | 0 <= pc < q < |program|
      ensures at(ToSource(pc)) < at(ToSource(q))
    {
      Ordered(fetch, program, profile, at, pc, q);
    }
    BlockOrder(fetch, program, profile, at, |program| - 1);
  }

  // ----- where blocks branch -----

  predicate IsTransfer(op: NativeOp) { op.Return? || op.ConditionalJump? || op.DirectJump? }

  predicate NotRsi(r: Register) { r != Esi && r != Rsi }

  /** Operations that leave rsi as it is. */
  predicate SparesRsi(op: NativeOp) {
    match op
    case Pop(r) => NotRsi(r)
    case Mov(_, dst, _) => dst.Reg? ==> NotRsi(dst.r)
    case Load(_, reg, _, _) => NotRsi(reg)
    case Binary(_, _, dst, _) => dst.Reg? ==> NotRsi(dst.r)
    case ImmediateMultiply(reg, _, _) => NotRsi(reg)
    case ShiftImmediate(_, _, reg, _) => NotRsi(reg)
    case ShiftRegister(_, _, reg) => NotRsi(reg)
    case Unary(_, _, reg, _) => NotRsi(reg)
    case _ => true
  }

  /** Immediates that are encoded in one byte are positive, and nothing loads through rsi or changes it. */
  predicate Tame(op: NativeOp) {
    && (op.Binary? && op.src.Imm? && (op.dst in {Reg(R15d), Reg(Rsp)} || (op.kind.XAnd? && op.dst == Reg(R14d)))
        ==> op.src.v < 0x80)
    && (op.Compare? && op.right.Imm? && op.left == Reg(R13d) ==> op.right.v < 0x80)
    && (op.Load? ==> op.base != Rsi)
    && SparesRsi(op)
  }

  /** Branches go to the given targets, and nothing else transfers control. */
  predicate Confined(ps: seq<Pattern>, targets: set<Target>) {
    forall k :: 0 <= k < |ps| ==> if ps[k].Exact? then !IsTransfer(ps[k].op) && Tame(ps[k].op)
      else ps[k].target in targets
  }

  lemma ConfinedSum(ps: seq<Pattern>, qs: seq<Pattern>, targets: set<Target>)
    requires Confined(ps, targets) && Confined(qs, targets)
    ensures Confined(ps + qs, targets)
  {
  }

  function TargetsOf(i: Instruction, pc: nat): set<Target> {
    {ToFailure, ToEpilogue} + set q | q in Successors(i, pc) :: ToSource(q)
  }

  /** The part of every load after its bounds check. */
  lemma FetchConfined(width: LoadWidth, d: Register, rest: seq<Pattern>)
    requires Confined(rest, {ToFailure}) && NotRsi(d)
    ensures Confined(AddressAdd() + (FetchInto(width, d) + rest), {ToFailure})
  {
    ConfinedSum(FetchInto(width, d), rest, {ToFailure});
    ConfinedSum(AddressAdd(), FetchInto(width, d) + rest, {ToFailure});
  }

  lemma AbsoluteConfined(k: U32, width: LoadWidth, profile: InputProfile)
    ensures Confined(AbsoluteLoad(k, width, profile), {ToFailure})
  {
    if AncillaryFromOffset(k).None? {
      var e := EndianTransform(width, profile);
      var tail := AddressAdd() + (FetchInto(width, Eax) + e);
      FetchConfined(width, Eax, e);
      ConfinedSum(Bounds(width), tail, {ToFailure});
      ConfinedSum([Move32(R14d, Imm(k))], Bounds(width) + tail, {ToFailure});
    }
  }

  lemma HeaderConfined(k: U32)
    ensures Confined(AbsoluteLoadToX(k), {ToFailure})
  {
    var e := [Op32(XAnd, Ecx, Imm(0x0f)), Exact(ShiftImmediate(Left, W32, Ecx, 2))];
    var tail := AddressAdd() + (FetchInto(Byte, Ecx) + e);
    FetchConfined(Byte, Ecx, e);
    ConfinedSum(Bounds(Byte), tail, {ToFailure});
    ConfinedSum([Move32(R14d, Imm(k))], Bounds(Byte) + tail, {ToFailure});
  }

  lemma IndirectConfined(k: U32, width: LoadWidth, profile: InputProfile)
    ensures Confined(IndirectLoad(k, width, profile), {ToFailure})
  {
    var e := EndianTransform(width, profile);
    var tail := AddressAdd() + (FetchInto(width, Eax) + e);
    var aligned := AlignmentCheck(width, profile) + tail;
    FetchConfined(width, Eax, e);
    ConfinedSum(AlignmentCheck(width, profile), tail, {ToFailure});
    ConfinedSum(Bounds(width), aligned, {ToFailure});
    ConfinedSum(IndirectOffset(k), Bounds(width) + aligned, {ToFailure});
  }

  lemma AluConfined(kind: AluKind, src: Source, k: U32)
    ensures Confined(LowerAlu(kind, src, k), {ToFailure})
  {
  }

  lemma LowerConfined(i: Instruction, pc: nat, profile: InputProfile)
    ensures Confined(Lower(i, pc, profile), TargetsOf(i, pc))
  {
    match i.op
    case LdAbs(width) => AbsoluteConfined(i.k, width, profile);
    case LdInd(width) => IndirectConfined(i.k, width, profile);
    case LdxMsh => HeaderConfined(i.k);
    case Alu(kind, src) => AluConfined(kind, src, i.k);
    case Jump(_, _) =>
      assert ToSource(pc + 1 + i.jt) in TargetsOf(i, pc) && ToSource(pc + 1 + i.jf) in TargetsOf(i, pc);
    case Ja => assert ToSource(pc + 1 + i.k) in TargetsOf(i, pc);
    case _ =>
  }

  lemma ForwardTo(ps: seq<Pattern>, targets: set<Target>, end: nat, at: Layout)
    requires Confined(ps, targets) && forall t :: t in targets ==> at(t) >= end
    ensures Forward(ps, end, at)
  {
  }

  lemma BlockForward(program: seq<Instruction>, limit: nat, at: Layout, pc: nat, ps: seq<Pattern>)
    requires InOrder(program, limit, at) && Closed(program) && pc < |program|
    requires Confined(ps, TargetsOf(program[pc], pc))
    ensures Forward(ps, BlockEnd(program, pc, at), at)
  {
    forall t | t in TargetsOf(program[pc], pc)
      ensures at(t) >= BlockEnd(program, pc, at)
    {
      if t.ToSource? {
        assert pc < t.pc < |program|;
      }
    }
    ForwardTo(ps, TargetsOf(program[pc], pc), BlockEnd(program, pc, at), at);
  }

  // ----- the run -----

  function Post(c: Call, v: U32): Halt -> bool { (h: Halt) => ReturnsTo(c, v, h) }

  /** The return instruction, with the caller's registers already restored. */
  lemma ReturnEnds(fetch: Fetch, limit: nat, p: nat, at: Layout, c: Call, s: State, v: U32)
    requires Placed(fetch, p, [Exact(Return)], limit, at) && ValidStack(c) && Unwinding(c, s, 0, v)
    ensures Ends(Exec, fetch, limit, p, s, Post(c, v))
  {
    ReturnAddressKept(c, s.mem);
    assert ReturnsTo(c, v, Returned(Dropped(s), Top(s)));
    forall fuel: nat | fuel >= limit - p && fuel > 0
      ensures Post(c, v)(Run(Exec, fetch, p, s, fuel))
    {
      assert Run(Exec, fetch, p, s, fuel) == Returned(Dropped(s), Top(s));
    }
  }

  lemma ReturnAddressKept(c: Call, mem: Memory)
    requires ValidStack(c) && OutsideKept(c, mem)
    ensures Mapped(c.entry.mem, c.StackTop(), 8) && Mapped(mem, c.StackTop(), 8)
    ensures Read(mem, c.StackTop(), 8) == Read(c.entry.mem, c.StackTop(), 8)
  {
    MappedPart(c.entry.mem, c.StackTop() - 104, 112, c.StackTop(), 8);
    ReadFrame(mem, c.entry.mem, c.StackTop(), 8);
  }

  lemma EpilogueSplit(fetch: Fetch, limit: nat, at: Layout) returns (mid: nat)
    requires HasTail(fetch, limit, at)
    ensures Placed(fetch, at(ToEpilogue), Unwind(), mid, at) && Placed(fetch, mid, [Exact(Return)], limit, at)
  {
    assert Position(0);
    EpilogueShape();
    mid := PlacedSplit(fetch, at(ToEpilogue), Unwind(), [Exact(Return)], limit, at);
  }

  lemma UnwindState(c: Call, s: State, v: U32)
    requires ValidStack(c) && FrameRegisters(c, s.regs) && FrameMemory(c, s.mem) && s.regs[RAX] == v
    ensures var f := Perform(Exec, Unwind(), s); f.Fall? && Unwinding(c, f.state, 0, v)
  {
    var perform: Performer := (ps: seq<Pattern>, t: State) => Perform(Exec, ps, t);
    MachinePerforms();
    UnwindFlow(perform, c, s, v);
  }

  lemma UnwindIsPlain()
    ensures forall end: nat, at: Layout :: Forward(Unwind(), end, at)
    ensures forall k :: 0 <= k < |Unwind()| ==> Unwind()[k] != Exact(Return)
  {
  }

  /** A block that falls through into the return. */
  lemma ThenReturns(fetch: Fetch, limit: nat, p: nat, ps: seq<Pattern>, mid: nat, at: Layout, c: Call, s: State, v: U32)
    requires Placed(fetch, p, ps, mid, at) && Placed(fetch, mid, [Exact(Return)], limit, at) && ValidStack(c)
    requires Forward(ps, mid, at) && mid <= limit && forall k :: 0 <= k < |ps| ==> ps[k] != Exact(Return)
    requires var f := Perform(Exec, ps, s); f.Fall? && Unwinding(c, f.state, 0, v)
    ensures Ends(Exec, fetch, limit, p, s, Post(c, v))
  {
    ReturnEnds(fetch, limit, mid, at, c, Perform(Exec, ps, s).state, v);
    RunBlock(Exec, fetch, limit, p, ps, mid, at, s, Post(c, v));
  }

  /** The epilogue returns what is in eax. */
  lemma EpilogueEnds(fetch: Fetch, limit: nat, at: Layout, c: Call, s: State, v: U32)
    requires HasTail(fetch, limit, at) && ValidStack(c)
    requires FrameRegisters(c, s.regs) && FrameMemory(c, s.mem) && s.regs[RAX] == v
    ensures Ends(Exec, fetch, limit, at(ToEpilogue), s, Post(c, v))
  {
    UnwindState(c, s, v);
    var mid := EpilogueSplit(fetch, limit, at);
    PlacedOrder(fetch, mid, [Exact(Return)], limit, at);
    UnwindIsPlain();
    ThenReturns(fetch, limit, at(ToEpilogue), Unwind(), mid, at, c, s, v);
  }

  /** The failure block returns zero. */
  lemma FailureEnds(fetch: Fetch, limit: nat, at: Layout, c: Call, s: State)
    requires HasTail(fetch, limit, at) && at(ToFailure) < at(ToEpilogue) < limit
    requires ValidStack(c) && FrameRegisters(c, s.regs) && FrameMemory(c, s.mem)
    ensures Ends(Exec, fetch, limit, at(ToFailure), s, Post(c, 0))
  {
    var perform: Performer := (ps: seq<Pattern>, t: State) => Perform(Exec, ps, t);
    MachinePerforms();
    Pair(perform, Op32(XXor, Eax, Reg(Eax)), Goto(ToEpilogue), s);
    DoClear(perform, Eax, s);
    var t := Set(s, Eax, 0).(flags := Flags(false, true));
    DoGoto(perform, ToEpilogue, t);
    EpilogueEnds(fetch, limit, at, c, t, 0);
    assert Position(0);
    RunBlock(Exec, fetch, limit, at(ToFailure), FailureBlock(), at(ToEpilogue), at, s, Post(c, 0));
  }

  /** Where a block leads, the run ends with the interpreter's value. */
  ghost predicate LeadsOn(fetch: Fetch, limit: nat, program: seq<Instruction>, at: Layout, c: Call, pc: nat, f: Flow,
                          v: U32) {
    Arrives(Exec, fetch, limit, f, BlockEnd(program, pc, at), at, Post(c, v))
  }

  /** One block of the run. */
  lemma BlockEnds(fetch: Fetch, limit: nat, program: seq<Instruction>, profile: InputProfile, at: Layout,
                  pc: nat, s: State, post: Halt -> bool)
    requires InOrder(program, limit, at) && Closed(program) && pc < |program|
    requires Placed(fetch, at(ToSource(pc)), Lower(program[pc], pc, profile), BlockEnd(program, pc, at), at)
    requires Arrives(Exec, fetch, limit, Perform(Exec, Lower(program[pc], pc, profile), s), BlockEnd(program, pc, at),
                     at, post)
    ensures Ends(Exec, fetch, limit, at(ToSource(pc)), s, post)
  {
    var ps := Lower(program[pc], pc, profile);
    LowerConfined(program[pc], pc, profile);
    BlockForward(program, limit, at, pc, ps);
    RunBlock(Exec, fetch, limit, at(ToSource(pc)), ps, BlockEnd(program, pc, at), at, s, post);
  }

  ghost predicate Runnable(fetch: Fetch, limit: nat, program: seq<Instruction>, at: Layout, c: Call) {
    && HasBlocks(fetch, program, c.input.Profile(), at) && HasTail(fetch, limit, at) && InOrder(program, limit, at)
    && Closed(program) && ScratchSafe(program) && ValidCall(c)
    && forall i :: 0 <= i < |program| ==> ProfileAdmits(program[i], c.input.Profile())
  }

  /** A block that returns or fails. */
  lemma DoneLeadsOn(fetch: Fetch, limit: nat, program: seq<Instruction>, at: Layout, c: Call, pc: nat, f: Flow, v: U32,
                    known: set<nat>)
    requires HasTail(fetch, limit, at) && InOrder(program, limit, at) && ValidStack(c) && pc < |program|
    requires Carries(c, f, pc, Done(v), known)
    ensures LeadsOn(fetch, limit, program, at, c, pc, f, v)
  {
    if f.target == ToFailure {
      FailureEnds(fetch, limit, at, c, f.state);
    } else {
      EpilogueEnds(fetch, limit, at, c, f.state, v);
    }
  }

  /** The outcome of one instruction, and what is left to show about the run from its block. */
  lemma Advance(fetch: Fetch, limit: nat, program: seq<Instruction>, at: Layout, c: Call, p: seq<nat>, s: State, vm: Vm)
    returns (f: Flow, o: Outcome)
    requires Runnable(fetch, limit, program, at, c) && IsPath(program, p)
    requires ValidVm(vm) && Body(c, s, vm, StoredOn(program, p))
    ensures Carries(c, f, Last(p), o, StoredOn(program, p) + StoredBy(program[Last(p)]))
    ensures o.Done? ==> o.value == Evaluate(program, Last(p), vm, c.input)
    ensures o.Next? ==> o.pc in Successors(program[Last(p)], Last(p)) && Last(p) < o.pc < |program| && ValidVm(o.vm)
                        && Evaluate(program, o.pc, o.vm, c.input) == Evaluate(program, Last(p), vm, c.input)
    ensures forall v :: LeadsOn(fetch, limit, program, at, c, Last(p), f, v) ==>
                          Ends(Exec, fetch, limit, at(ToSource(Last(p))), s, Post(c, v))
  {
    var pc, profile := Last(p), c.input.Profile();
    f, o := Perform(Exec, Lower(program[pc], pc, profile), s), Step(program[pc], pc, vm, c.input);
    PerformCarries(c, s, program[pc], pc, vm, StoredOn(program, p));
    StepStays(program[pc], pc, vm, c.input);
    forall v | LeadsOn(fetch, limit, program, at, c, pc, f, v)
      ensures Ends(Exec, fetch, limit, at(ToSource(pc)), s, Post(c, v))
    {
      assert Position(pc);
      BlockEnds(fetch, limit, program, profile, at, pc, s, Post(c, v));
    }
  }

  /** From the block of the last instruction of a path to the interpreter's value. */
  lemma {:induction false} RunFrom(fetch: Fetch, limit: nat, program: seq<Instruction>, at: Layout, c: Call,
                                   p: seq<nat>, s: State, vm: Vm)
    requires Runnable(fetch, limit, program, at, c) && IsPath(program, p)
    requires ValidVm(vm) && Body(c, s, vm, StoredOn(program, p))
    ensures Ends(Exec, fetch, limit, at(ToSource(Last(p))), s, Post(c, Evaluate(program, Last(p), vm, c.input)))
    decreases |program| - Last(p)
  {
    var f, o := Advance(fetch, limit, program, at, c, p, s, vm);
    var v := Evaluate(program, Last(p), vm, c.input);
    if o.Next? {
      ExtendPath(program, p, o.pc);
      RunFrom(fetch, limit, program, at, c, p + [o.pc], f.state, o.vm);
      assert LeadsOn(fetch, limit, program, at, c, Last(p), f, v);
    } else {
      DoneLeadsOn(fetch, limit, program, at, c, Last(p), f, v, StoredOn(program, p) + StoredBy(program[Last(p)]));
    }
  }

  lemma PerformCarries(c: Call, s: State, i: Instruction, pc: nat, vm: Vm, known: set<nat>)
    requires ValidCall(c) && Body(c, s, vm, known) && ValidVm(vm)
    requires Executable(i) && ProfileAdmits(i, c.input.Profile()) && (Reads(i) ==> i.k in known)
    ensures Carries(c, Perform(Exec, Lower(i, pc, c.input.Profile()), s), pc, Step(i, pc, vm, c.input),
                    known + StoredBy(i))
  {
    var perform: Performer := (ps: seq<Pattern>, t: State) => Perform(Exec, ps, t);
    MachinePerforms();
    InstructionCarries(perform, c, s, i, pc, vm, known);
  }

  /** The run ends with the interpreter's value. */
  lemma LaidOutCodeReturns(fetch: Fetch, limit: nat, program: seq<Instruction>, at: Layout, c: Call, fuel: nat)
    requires LaidOut(fetch, limit, program, c.input.Profile(), at) && ValidCall(c)
    requires Closed(program) && ScratchSafe(program)
    requires forall i :: 0 <= i < |program| ==> ProfileAdmits(program[i], c.input.Profile())
    requires fuel >= limit
    ensures ReturnsTo(c, Evaluate(program, 0, INITIAL, c.input), Run(Exec, fetch, 0, c.entry, fuel))
  {
    var v := Evaluate(program, 0, INITIAL, c.input);
    var prologue := Prologue(c.input.Profile());
    CodeInOrder(fetch, limit, program, c.input.Profile(), at);
    PrologueReaches(c);
    var f := Perform(Exec, prologue, c.entry);
    StartPath(program);
    RunFrom(fetch, limit, program, at, c, [0], f.state, INITIAL);
    PrologueConfined(c.input.Profile());
    RunBlock(Exec, fetch, limit, 0, prologue, at(ToSource(0)), at, c.entry, Post(c, v));
    assert Post(c, v)(Run(Exec, fetch, 0, c.entry, fuel));
  }

  /**
   Code laid out as the lowering asks implements its program: on every valid call,
   whatever the registers and the stack hold, it returns the interpreter's value
   within one step per code byte, gives back the stack pointer and the callee-saved
   registers, and changes no memory outside its 104 bytes of stack. It accesses only
   the input, the context record and the stack: with every other address unmapped
   the run is the same.
   */
  lemma LaidOutCodeIsSound(fetch: Fetch, limit: nat, program: seq<Instruction>, at: Layout, c: Call, fuel: nat)
    requires LaidOut(fetch, limit, program, c.input.Profile(), at) && ValidCall(c)
    requires Closed(program) && ScratchSafe(program)
    requires forall i :: 0 <= i < |program| ==> ProfileAdmits(program[i], c.input.Profile())
    requires fuel >= limit
    ensures ReturnsTo(c, Evaluate(program, 0, INITIAL, c.input), Run(Exec, fetch, 0, c.entry, fuel))
    ensures TouchesOwn(fetch, c, fuel)
  {
    LaidOutCodeReturns(fetch, limit, program, at, c, fuel);
    AloneIsValid(c);
    LaidOutCodeReturns(fetch, limit, program, at, Alone(c), fuel);
    RunCut(fetch, 0, c.entry, fuel, Own(c));
  }

  lemma PrologueReaches(c: Call)
    requires ValidCall(c)
    ensures var f := Perform(Exec, Prologue(c.input.Profile()), c.entry); f.Fall? && Body(c, f.state, INITIAL, {})
  {
    var perform: Performer := (ps: seq<Pattern>, t: State) => Perform(Exec, ps, t);
    MachinePerforms();
    PrologueFlow(perform, c);
  }

  lemma PrologueConfined(profile: InputProfile)
    ensures forall k :: 0 <= k < |Prologue(profile)| ==> Prologue(profile)[k].Exact? && !Prologue(profile)[k].op.Return?
  {
  }
}
