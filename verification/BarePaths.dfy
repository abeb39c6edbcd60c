/**
 What the processor does with an image that the validator accepts, block by block
 and path by path. A block whose load lost its REX prefix loads through rsi; the
 image computes the interpreter's value unless the interpreter's own path gets
 past the bounds check of such a block, and where rsi is not mapped it faults
 exactly then.
 */
module BarePaths {
  import opened Words
  import opened Bpf
  import opened Paths
  import opened Native
  import opened Lowering
  import opened Frame
  import opened Scratch
  import opened Soundness
  import opened Verifier
  import opened Decoder
  import opened Architecture
  import opened Validator
  import opened Checking
  import opened Linking
  import opened Faithful

  // ----- marked code -----

  /** One of the next `n` instructions from `p` on is marked. */
  predicate MarkWithin(table: Fetch, bare: nat -> bool, p: nat, n: nat)
    decreases n
  {
    n > 0 && (bare(p) || (table(p).Some? && MarkWithin(table, bare, table(p).value.1, n - 1)))
  }

  /** Code without a mark reads the same to the processor. */
  lemma {:induction false} UnmarkedCode(table: Fetch, read: Fetch, bare: nat -> bool, p: nat, ps: seq<Pattern>,
                                        end: nat, at: Layout)
    requires Parts(table, read, bare) && TameAll(ps) && Placed(table, p, ps, end, at)
    requires !MarkWithin(table, bare, p, |ps|)
    ensures Placed(read, p, ps, end, at)
    decreases |ps|
  {
    if ps != [] {
      UnmarkedCode(table, read, bare, table(p).value.1, ps[1..], end, at);
    }
  }

  predicate NoWordLoad(ps: seq<Pattern>) { forall k :: 0 <= k < |ps| ==> ps[k] != WordLoad() }

  /** Only the word load can be marked. */
  lemma {:induction false} MarkBeyond(table: Fetch, read: Fetch, bare: nat -> bool, p: nat, ps: seq<Pattern>, end: nat,
                                      at: Layout, n: nat)
    requires Parts(table, read, bare) && TameAll(ps) && Placed(table, p, ps, end, at) && NoWordLoad(ps)
    ensures MarkWithin(table, bare, p, |ps| + n) <==> MarkWithin(table, bare, end, n)
    decreases |ps|
  {
    if ps != [] {
      assert ps[0] != WordLoad();
      MarkBeyond(table, read, bare, table(p).value.1, ps[1..], end, at, n);
    }
  }

  lemma OtherCode(table: Fetch, read: Fetch, bare: nat -> bool, p: nat, ps: seq<Pattern>, end: nat, at: Layout)
    requires Parts(table, read, bare) && TameAll(ps) && Placed(table, p, ps, end, at) && NoWordLoad(ps)
    ensures Placed(read, p, ps, end, at)
  {
    MarkBeyond(table, read, bare, p, ps, end, at, 0);
    UnmarkedCode(table, read, bare, p, ps, end, at);
  }

  // ----- the blocks that load a word of input -----

  predicate LoadsWord(i: Instruction) {
    (i.op == LdAbs(Word) && AncillaryFromOffset(i.k).None?) || i.op == LdInd(Word)
  }

  function Barrier(): seq<Pattern> { AddressAdd() + [Exact(SpeculationBarrier)] }

  /** The block up to its load: offset, bounds, alignment and address. */
  function BeforeWord(i: Instruction, profile: InputProfile): seq<Pattern> {
    if i.op == LdInd(Word) then IndirectOffset(i.k) + (Bounds(Word) + (AlignmentCheck(Word, profile) + Barrier()))
    else [Move32(R14d, Imm(i.k))] + (Bounds(Word) + Barrier())
  }

  lemma WordShape(i: Instruction, pc: nat, profile: InputProfile)
    requires LoadsWord(i)
    ensures Lower(i, pc, profile) == BeforeWord(i, profile) + ([WordLoad()] + EndianTransform(Word, profile))
  {
    var tail := [WordLoad()] + EndianTransform(Word, profile);
    assert AddressAdd() + (FetchInto(Word, Eax) + EndianTransform(Word, profile)) == Barrier() + tail;
    if i.op == LdInd(Word) {
      assert AlignmentCheck(Word, profile) + (Barrier() + tail) == (AlignmentCheck(Word, profile) + Barrier()) + tail;
      assert Bounds(Word) + ((AlignmentCheck(Word, profile) + Barrier()) + tail) ==
             (Bounds(Word) + (AlignmentCheck(Word, profile) + Barrier())) + tail;
    } else {
      assert Bounds(Word) + (Barrier() + tail) == (Bounds(Word) + Barrier()) + tail;
    }
  }

  lemma BarrierPlain()
    ensures Confined(Barrier(), {ToFailure}) && NoWordLoad(Barrier())
  {
  }

  lemma NoWordLoadSum(ps: seq<Pattern>, qs: seq<Pattern>)
    requires NoWordLoad(ps) && NoWordLoad(qs)
    ensures NoWordLoad(ps + qs)
  {
  }

  lemma BeforePlain(i: Instruction, profile: InputProfile)
    ensures Confined(BeforeWord(i, profile), {ToFailure}) && NoWordLoad(BeforeWord(i, profile))
  {
    var a, b, d := Bounds(Word), Barrier(), AlignmentCheck(Word, profile);
    BarrierPlain();
    if i.op == LdInd(Word) {
      ConfinedSum(d, b, {ToFailure});
      NoWordLoadSum(d, b);
      ConfinedSum(a, d + b, {ToFailure});
      NoWordLoadSum(a, d + b);
      ConfinedSum(IndirectOffset(i.k), a + (d + b), {ToFailure});
      NoWordLoadSum(IndirectOffset(i.k), a + (d + b));
    } else {
      ConfinedSum(a, b, {ToFailure});
      NoWordLoadSum(a, b);
      ConfinedSum([Move32(R14d, Imm(i.k))], a + b, {ToFailure});
      NoWordLoadSum([Move32(R14d, Imm(i.k))], a + b);
    }
  }

  lemma AluOther(kind: AluKind, src: Source, k: U32)
    ensures NoWordLoad(LowerAlu(kind, src, k))
  {
  }

  lemma NarrowOther(width: LoadWidth, profile: InputProfile, d: Register, rest: seq<Pattern>)
    requires (width != Word || d != Eax) && NoWordLoad(rest)
    ensures NoWordLoad(Bounds(width) + (AddressAdd() + (FetchInto(width, d) + rest)))
    ensures NoWordLoad(AlignmentCheck(width, profile) + (AddressAdd() + (FetchInto(width, d) + rest)))
  {
    var a := AddressAdd() + (FetchInto(width, d) + rest);
    NoWordLoadSum(FetchInto(width, d), rest);
    NoWordLoadSum(AddressAdd(), FetchInto(width, d) + rest);
    NoWordLoadSum(Bounds(width), a);
    NoWordLoadSum(AlignmentCheck(width, profile), a);
  }

  /** No other block holds the word load. */
  lemma OtherBlocks(i: Instruction, pc: nat, profile: InputProfile)
    requires !LoadsWord(i)
    ensures NoWordLoad(Lower(i, pc, profile))
  {
    match i.op
    case LdAbs(width) =>
      if AncillaryFromOffset(i.k).None? {
        var e := EndianTransform(width, profile);
        NarrowOther(width, profile, Eax, e);
        NoWordLoadSum([Move32(R14d, Imm(i.k))], Bounds(width) + (AddressAdd() + (FetchInto(width, Eax) + e)));
      }
    case LdInd(width) =>
      var e := EndianTransform(width, profile);
      NarrowOther(width, profile, Eax, e);
      var a := AlignmentCheck(width, profile) + (AddressAdd() + (FetchInto(width, Eax) + e));
      NoWordLoadSum(Bounds(width), a);
      NoWordLoadSum(IndirectOffset(i.k), Bounds(width) + a);
    case LdxMsh =>
      var e := [Op32(XAnd, Ecx, Imm(0x0f)), Exact(ShiftImmediate(Left, W32, Ecx, 2))];
      NarrowOther(Byte, profile, Ecx, e);
      NoWordLoadSum([Move32(R14d, Imm(i.k))], Bounds(Byte) + (AddressAdd() + (FetchInto(Byte, Ecx) + e)));
    case Alu(kind, src) => AluOther(kind, src, i.k);
    case _ =>
  }

  // ----- what blocks leave alone -----

  /** Tame operations change neither rsi nor what is mapped. */
  predicate Keeps(s: State, t: State) { t.regs[RSI] == s.regs[RSI] && t.mem.Keys == s.mem.Keys }

  lemma ExecKeeps(op: NativeOp, s: State)
    requires SparesRsi(op) && Exec(op, s).Some?
    ensures Keeps(s, Exec(op, s).value)
  {
  }

  lemma {:induction false} PerformKeeps(ps: seq<Pattern>, s: State)
    requires TameAll(ps) && !Perform(Exec, ps, s).Stuck?
    ensures Keeps(s, Perform(Exec, ps, s).state)
    decreases |ps|
  {
    if ps != [] {
      if ps[0].Exact? {
        ExecKeeps(ps[0].op, s);
      }
      if Do(Exec, ps[0], s).Fall? {
        PerformKeeps(ps[1..], Do(Exec, ps[0], s).state);
      }
    }
  }

  lemma {:induction false} LeavesTo(ps: seq<Pattern>, targets: set<Target>, s: State)
    requires Confined(ps, targets) && Perform(Exec, ps, s).Leave?
    ensures Perform(Exec, ps, s).target in targets
    decreases |ps|
  {
    if ps != [] && Do(Exec, ps[0], s).Fall? {
      LeavesTo(ps[1..], targets, Do(Exec, ps[0], s).state);
    }
  }

  // ----- a block that loads a word -----

  /** Code that may fail, followed by code that cannot branch. */
  lemma SplitFlow(before: seq<Pattern>, tail: seq<Pattern>, s: State)
    requires Confined(before, {ToFailure}) && Confined(tail, {}) && !Perform(Exec, before + tail, s).Stuck?
    ensures var f, g := Perform(Exec, before, s), Perform(Exec, before + tail, s);
            if f.Fall? then g.Fall? else g == f && f.Leave? && f.target == ToFailure
  {
    PerformSeq(Exec, before, tail, s);
    var f := Perform(Exec, before, s);
    if f.Leave? {
      LeavesTo(before, {ToFailure}, s);
    } else if Perform(Exec, tail, f.state).Leave? {
      LeavesTo(tail, {}, f.state);
    }
  }

  lemma WordTail(profile: InputProfile)
    ensures Confined([WordLoad()] + EndianTransform(Word, profile), {})
    ensures Confined(EndianTransform(Word, profile), {}) && NoWordLoad(EndianTransform(Word, profile))
  {
  }

  /** A flow that carries the interpreter's outcome falls through or fails as the interpreter goes on or ends. */
  lemma CarriedFlow(c: Call, f: Flow, pc: nat, o: Outcome, known: set<nat>)
    requires Carries(c, f, pc, o, known) && (f.Leave? ==> f.target == ToFailure)
    ensures f.Fall? <==> o.Next?
  {
  }

  /** The block gets to its load exactly when the interpreter's load succeeds; otherwise the load plays no part. */
  lemma WordBlock(c: Call, s: State, i: Instruction, pc: nat, vm: Vm, known: set<nat>)
    requires ValidCall(c) && Body(c, s, vm, known) && ValidVm(vm)
    requires Executable(i) && ProfileAdmits(i, c.input.Profile()) && LoadsWord(i)
    ensures var f := Perform(Exec, BeforeWord(i, c.input.Profile()), s);
            && (f.Fall? <==> Step(i, pc, vm, c.input).Next?)
            && (!f.Fall? ==>
                  && f == Perform(Exec, Lower(i, pc, c.input.Profile()), s)
                  && f.Leave? && f.target == ToFailure)
  {
    var profile := c.input.Profile();
    var ps := Lower(i, pc, profile);
    PerformCarries(c, s, i, pc, vm, known);
    assert !Perform(Exec, ps, s).Stuck?;
    WordShape(i, pc, profile);
    BeforePlain(i, profile);
    WordTail(profile);
    SplitFlow(BeforeWord(i, profile), [WordLoad()] + EndianTransform(Word, profile), s);
    CarriedFlow(c, Perform(Exec, ps, s), pc, Step(i, pc, vm, c.input), known + StoredBy(i));
  }

  lemma RsiStuck(before: seq<Pattern>, s: State)
    requires TameAll(before) && Perform(Exec, before, s).Fall? && !Mapped(s.mem, s.regs[RSI], 4)
    ensures Perform(Exec, before + [RsiLoad()], s) == Stuck
  {
    PerformSeq(Exec, before, [RsiLoad()], s);
    PerformKeeps(before, s);
    var t := Perform(Exec, before, s).state;
    PerformOne(Exec, RsiLoad(), t);
    assert !Mapped(t.mem, t.regs[RSI], 4);
  }

  /** Code whose block gets stuck faults. */
  lemma {:induction false} RunStuck(exec: Executor, fetch: Fetch, p: nat, ps: seq<Pattern>, end: nat, at: Layout,
                                    s: State, fuel: nat)
    requires Placed(fetch, p, ps, end, at) && Perform(exec, ps, s).Stuck? && fuel >= |ps|
    requires forall k :: 0 <= k < |ps| ==> ps[k] != Exact(Return)
    ensures Run(exec, fetch, p, s, fuel) == Faulted
    decreases |ps|
  {
    if ps != [] {
      assert ps[0] != Exact(Return);
      if Do(exec, ps[0], s).Fall? {
        RunStuck(exec, fetch, fetch(p).value.1, ps[1..], end, at, Do(exec, ps[0], s).state, fuel - 1);
      }
    }
  }

  // ----- a marked block -----

  /** The block of the instruction at `pc` has a marked load. */
  predicate MarkedBlock(table: Fetch, bare: nat -> bool, program: seq<Instruction>, profile: InputProfile, at: Layout,
                        pc: nat) {
    pc < |program| && MarkWithin(table, bare, at(ToSource(pc)), |Lower(program[pc], pc, profile)|)
  }

  function Marked(table: Fetch, bare: nat -> bool, program: seq<Instruction>, profile: InputProfile,
                  at: Layout): nat -> bool {
    (pc: nat) => MarkedBlock(table, bare, program, profile, at, pc)
  }

  /** Code that starts with the word load and is marked nowhere else. */
  lemma MarkHere(table: Fetch, read: Fetch, bare: nat -> bool, mid: nat, rest: seq<Pattern>, end: nat, at: Layout)
    requires Parts(table, read, bare) && TameAll(rest) && NoWordLoad(rest)
    requires Placed(table, mid, [WordLoad()] + rest, end, at) && MarkWithin(table, bare, mid, 1 + |rest|)
    ensures table(mid).Some? && mid < table(mid).value.1 <= end
    ensures Placed(read, mid, [RsiLoad()], table(mid).value.1, at)
    ensures Placed(read, mid, [RsiLoad()] + rest, end, at)
  {
    var next := table(mid).value.1;
    assert ([WordLoad()] + rest)[1..] == rest;
    MarkBeyond(table, read, bare, next, rest, end, at, 0);
    OtherCode(table, read, bare, next, rest, end, at);
    PlacedOrder(table, next, rest, end, at);
    assert [RsiLoad()][1..] == [];
    PlacedJoin(read, mid, [RsiLoad()], next, rest, end, at);
  }

  /** The mark in code with one word load is on that load. */
  lemma MarkOnLoad(table: Fetch, read: Fetch, bare: nat -> bool, p: nat, before: seq<Pattern>, rest: seq<Pattern>,
                   end: nat, at: Layout)
    returns (mid: nat, next: nat)
    requires Parts(table, read, bare) && TameAll(before) && TameAll(rest) && NoWordLoad(before) && NoWordLoad(rest)
    requires Placed(table, p, before + ([WordLoad()] + rest), end, at)
    requires MarkWithin(table, bare, p, |before + ([WordLoad()] + rest)|)
    ensures mid < next <= end && Placed(read, p, before, mid, at)
    ensures Placed(read, p, before + [RsiLoad()], next, at)
    ensures Placed(read, p, before + ([RsiLoad()] + rest), end, at)
  {
    mid := PlacedSplit(table, p, before, [WordLoad()] + rest, end, at);
    MarkBeyond(table, read, bare, p, before, mid, at, 1 + |rest|);
    OtherCode(table, read, bare, p, before, mid, at);
    MarkHere(table, read, bare, mid, rest, end, at);
    next := table(mid).value.1;
    PlacedJoin(read, p, before, mid, [RsiLoad()], next, at);
    PlacedJoin(read, p, before, mid, [RsiLoad()] + rest, end, at);
  }

  lemma MarkedLoads(table: Fetch, read: Fetch, bare: nat -> bool, program: seq<Instruction>, profile: InputProfile,
                    at: Layout, pc: nat)
    requires Parts(table, read, bare) && MarkedBlock(table, bare, program, profile, at, pc)
    requires Placed(table, at(ToSource(pc)), Lower(program[pc], pc, profile), BlockEnd(program, pc, at), at)
    ensures LoadsWord(program[pc])
  {
    if !LoadsWord(program[pc]) {
      LowerTame(program[pc], pc, profile);
      OtherBlocks(program[pc], pc, profile);
      MarkBeyond(table, read, bare, at(ToSource(pc)), Lower(program[pc], pc, profile), BlockEnd(program, pc, at), at,
                 0);
    }
  }

  /** The block of a word load, as the processor reads it when the load is bare. */
  function ThroughRsi(i: Instruction, profile: InputProfile): seq<Pattern> {
    BeforeWord(i, profile) + ([RsiLoad()] + EndianTransform(Word, profile))
  }

  /** A marked block loads a word, and to the processor it loads it through rsi. */
  lemma MarkedRead(table: Fetch, read: Fetch, bare: nat -> bool, program: seq<Instruction>, profile: InputProfile,
                   at: Layout, pc: nat)
    returns (mid: nat, next: nat)
    requires Parts(table, read, bare) && MarkedBlock(table, bare, program, profile, at, pc)
    requires Placed(table, at(ToSource(pc)), Lower(program[pc], pc, profile), BlockEnd(program, pc, at), at)
    ensures LoadsWord(program[pc]) && mid < next <= BlockEnd(program, pc, at)
    ensures Placed(read, at(ToSource(pc)), BeforeWord(program[pc], profile), mid, at)
    ensures Placed(read, at(ToSource(pc)), BeforeWord(program[pc], profile) + [RsiLoad()], next, at)
    ensures Placed(read, at(ToSource(pc)), ThroughRsi(program[pc], profile), BlockEnd(program, pc, at), at)
  {
    MarkedLoads(table, read, bare, program, profile, at, pc);
    WordShape(program[pc], pc, profile);
    BeforePlain(program[pc], profile);
    WordTail(profile);
    mid, next :=
      MarkOnLoad(table, read, bare, at(ToSource(pc)), BeforeWord(program[pc], profile), EndianTransform(Word, profile),
                 BlockEnd(program, pc, at), at);
  }

  function Fault(): Halt -> bool { (h: Halt) => h == Faulted }

  /** A marked block that gets to its load faults where rsi is not mapped. */
  lemma MarkedFaults(fetch: Fetch, limit: nat, p: nat, before: seq<Pattern>, end: nat, at: Layout, s: State)
    requires Placed(fetch, p, before + [RsiLoad()], end, at) && Confined(before, {ToFailure}) && end <= limit
    requires Perform(Exec, before, s).Fall? && !Mapped(s.mem, s.regs[RSI], 4)
    ensures Ends(Exec, fetch, limit, p, s, Fault())
  {
    var ps := before + [RsiLoad()];
    PlacedOrder(fetch, p, ps, end, at);
    RsiStuck(before, s);
    forall fuel: nat | fuel >= limit - p && fuel > 0
      ensures Fault()(Run(Exec, fetch, p, s, fuel))
    {
      RunStuck(Exec, fetch, p, ps, end, at, s, fuel);
    }
  }

  /** A marked block that fails before its load fails as it should. */
  lemma MarkedFails(fetch: Fetch, limit: nat, program: seq<Instruction>, at: Layout, pc: nat, before: seq<Pattern>,
                    mid: nat, s: State, post: Halt -> bool)
    requires InOrder(program, limit, at) && pc < |program| && mid <= BlockEnd(program, pc, at)
    requires Placed(fetch, at(ToSource(pc)), before, mid, at) && Confined(before, {ToFailure})
    requires Arrives(Exec, fetch, limit, Perform(Exec, before, s), BlockEnd(program, pc, at), at, post)
    requires Perform(Exec, before, s).Leave?
    ensures Ends(Exec, fetch, limit, at(ToSource(pc)), s, post)
  {
    ForwardTo(before, {ToFailure}, mid, at);
    RunBlock(Exec, fetch, limit, at(ToSource(pc)), before, mid, at, s, post);
  }

  // ----- paths -----

  /** From `pc` on, the interpreter gets past the load of a marked instruction. */
  predicate PassesMark(program: seq<Instruction>, marked: nat -> bool, pc: nat, vm: Vm, input: Input)
    requires Closed(program) && pc < |program| && ValidVm(vm)
    decreases |program| - pc
  {
    StepStays(program[pc], pc, vm, input);
    var o := Step(program[pc], pc, vm, input);
    o.Next? && (marked(pc) || PassesMark(program, marked, o.pc, o.vm, input))
  }

  /** How a run ends that does or does not pass a mark. */
  function Judged(c: Call, v: U32, passes: bool): Halt -> bool { if passes then Fault() else Post(c, v) }

  /** The two readings of code laid out for a program. */
  ghost predicate Twice(table: Fetch, read: Fetch, bare: nat -> bool, limit: nat, program: seq<Instruction>, at: Layout,
                        c: Call) {
    Parts(table, read, bare) && Runnable(table, limit, program, at, c) && HasTail(read, limit, at)
  }

  function MarksOf(table: Fetch, bare: nat -> bool, program: seq<Instruction>, at: Layout, c: Call): nat -> bool {
    Marked(table, bare, program, c.input.Profile(), at)
  }

  lemma BlockThere(table: Fetch, program: seq<Instruction>, profile: InputProfile, at: Layout, pc: nat)
    requires HasBlocks(table, program, profile, at) && pc < |program|
    ensures Placed(table, at(ToSource(pc)), Lower(program[pc], pc, profile), BlockEnd(program, pc, at), at)
  {
    assert Position(pc);
  }

  /** The run from a block, if the run from wherever the lowered block leads is known. */
  lemma AnyBlock(table: Fetch, read: Fetch, bare: nat -> bool, limit: nat, program: seq<Instruction>, at: Layout,
                 c: Call, pc: nat, s: State, vm: Vm, known: set<nat>, post: Halt -> bool)
    requires Twice(table, read, bare, limit, program, at, c) && pc < |program| && ValidVm(vm) && Body(c, s, vm, known)
    requires Reads(program[pc]) ==> program[pc].k in known
    requires var f := Perform(Exec, Lower(program[pc], pc, c.input.Profile()), s);
             Arrives(Exec, read, limit, f, BlockEnd(program, pc, at), at, post)
    requires !(MarksOf(table, bare, program, at, c)(pc) && Step(program[pc], pc, vm, c.input).Next?)
    ensures Ends(Exec, read, limit, at(ToSource(pc)), s, post)
  {
    var profile := c.input.Profile();
    BlockThere(table, program, profile, at, pc);
    if MarkedBlock(table, bare, program, profile, at, pc) {
      var mid, next := MarkedRead(table, read, bare, program, profile, at, pc);
      WordBlock(c, s, program[pc], pc, vm, known);
      BeforePlain(program[pc], profile);
      MarkedFails(read, limit, program, at, pc, BeforeWord(program[pc], profile), mid, s, post);
    } else {
      LowerTame(program[pc], pc, profile);
      UnmarkedCode(table, read, bare, at(ToSource(pc)), Lower(program[pc], pc, profile), BlockEnd(program, pc, at), at);
      BlockEnds(read, limit, program, profile, at, pc, s, post);
    }
  }

  /** The run from a marked block whose load is reached. */
  lemma MarkedBlockFaults(table: Fetch, read: Fetch, bare: nat -> bool, limit: nat, program: seq<Instruction>,
                          at: Layout, c: Call, pc: nat, s: State, vm: Vm, known: set<nat>)
    requires Twice(table, read, bare, limit, program, at, c) && pc < |program| && ValidVm(vm) && Body(c, s, vm, known)
    requires MarksOf(table, bare, program, at, c)(pc) && Step(program[pc], pc, vm, c.input).Next?
    requires !Mapped(s.mem, s.regs[RSI], 4)
    ensures Ends(Exec, read, limit, at(ToSource(pc)), s, Fault())
  {
    var profile := c.input.Profile();
    BlockThere(table, program, profile, at, pc);
    var mid, next := MarkedRead(table, read, bare, program, profile, at, pc);
    WordBlock(c, s, program[pc], pc, vm, known);
    BeforePlain(program[pc], profile);
    MarkedFaults(read, limit, at(ToSource(pc)), BeforeWord(program[pc], profile), next, at, s);
  }

  /** One instruction of the interpreter and of the machine. */
  lemma BothStep(limit: nat, table: Fetch, program: seq<Instruction>, at: Layout, c: Call, p: seq<nat>, s: State,
                 vm: Vm)
    requires Runnable(table, limit, program, at, c) && IsPath(program, p)
    requires ValidVm(vm) && Body(c, s, vm, StoredOn(program, p))
    ensures var pc := Last(p);
            var f, o := Perform(Exec, Lower(program[pc], pc, c.input.Profile()), s), Step(program[pc], pc, vm, c.input);
            && Carries(c, f, pc, o, StoredOn(program, p) + StoredBy(program[pc])) && Keeps(s, f.state)
            && (Reads(program[pc]) ==> program[pc].k in StoredOn(program, p))
            && (o.Next? ==> o.pc in Successors(program[pc], pc) && pc < o.pc < |program| && ValidVm(o.vm))
  {
    var pc, profile := Last(p), c.input.Profile();
    PerformCarries(c, s, program[pc], pc, vm, StoredOn(program, p));
    StepStays(program[pc], pc, vm, c.input);
    LowerTame(program[pc], pc, profile);
    PerformKeeps(Lower(program[pc], pc, profile), s);
  }

  /** A block whose outcome the interpreter goes on from leads to the block the interpreter goes on with. */
  lemma NextArrives(read: Fetch, limit: nat, program: seq<Instruction>, at: Layout, c: Call, pc: nat, f: Flow,
                    o: Outcome, known: set<nat>, post: Halt -> bool)
    requires InOrder(program, limit, at) && pc < |program| && o.Next? && pc < o.pc < |program|
    requires Carries(c, f, pc, o, known) && Ends(Exec, read, limit, at(ToSource(o.pc)), f.state, post)
    ensures Arrives(Exec, read, limit, f, BlockEnd(program, pc, at), at, post)
  {
  }

  /** From the block of the last instruction of a path to the end of the run. */
  lemma {:induction false} RunPath(table: Fetch, read: Fetch, bare: nat -> bool, limit: nat, program: seq<Instruction>,
                                   at: Layout, c: Call, p: seq<nat>, s: State, vm: Vm, marks: nat -> bool)
    requires Twice(table, read, bare, limit, program, at, c) && IsPath(program, p)
             && marks == MarksOf(table, bare, program, at, c)
    requires ValidVm(vm) && Body(c, s, vm, StoredOn(program, p)) && s.regs[RSI] == c.entry.regs[RSI]
    requires PassesMark(program, marks, Last(p), vm, c.input) ==> !Mapped(c.entry.mem, c.entry.regs[RSI], 4)
    ensures Ends(Exec, read, limit, at(ToSource(Last(p))), s,
                 Judged(c, Evaluate(program, Last(p), vm, c.input), PassesMark(program, marks, Last(p), vm, c.input)))
    decreases |program| - Last(p)
  {
    var pc, known := Last(p), StoredOn(program, p);
    BothStep(limit, table, program, at, c, p, s, vm);
    var f, o := Perform(Exec, Lower(program[pc], pc, c.input.Profile()), s), Step(program[pc], pc, vm, c.input);
    var v, passes := Evaluate(program, pc, vm, c.input), PassesMark(program, marks, pc, vm, c.input);
    if o.Next? && marks(pc) {
      MarkedBlockFaults(table, read, bare, limit, program, at, c, pc, s, vm, known);
    } else {
      if o.Next? {
        ExtendPath(program, p, o.pc);
        RunPath(table, read, bare, limit, program, at, c, p + [o.pc], f.state, o.vm, marks);
        NextArrives(read, limit, program, at, c, pc, f, o, known + StoredBy(program[pc]), Judged(c, v, passes));
      } else {
        DoneLeadsOn(read, limit, program, at, c, pc, f, v, known + StoredBy(program[pc]));
      }
      AnyBlock(table, read, bare, limit, program, at, c, pc, s, vm, known, Judged(c, v, passes));
    }
  }

  // ----- whole images -----

  lemma EndsOther(profile: InputProfile)
    ensures NoWordLoad(Prologue(profile)) && NoWordLoad(FailureBlock()) && NoWordLoad(Epilogue())
  {
  }

  lemma BothReadings(table: Fetch, read: Fetch, bare: nat -> bool, limit: nat, program: seq<Instruction>, at: Layout,
                     c: Call)
    requires Parts(table, read, bare) && LaidOut(table, limit, program, c.input.Profile(), at) && ValidCall(c)
    requires Closed(program) && ScratchSafe(program)
    requires forall i :: 0 <= i < |program| ==> ProfileAdmits(program[i], c.input.Profile())
    ensures Twice(table, read, bare, limit, program, at, c)
    ensures Placed(read, 0, Prologue(c.input.Profile()), at(ToSource(0)), at)
  {
    var profile := c.input.Profile();
    EndsTame(profile);
    EndsOther(profile);
    TailThere(table, limit, at);
    OtherCode(table, read, bare, 0, Prologue(profile), at(ToSource(0)), at);
    OtherCode(table, read, bare, at(ToFailure), FailureBlock(), at(ToEpilogue), at);
    OtherCode(table, read, bare, at(ToEpilogue), Epilogue(), limit, at);
    CodeInOrder(table, limit, program, profile, at);
  }

  lemma PrologueKeeps(c: Call)
    requires ValidCall(c)
    ensures var f := Perform(Exec, Prologue(c.input.Profile()), c.entry);
            f.Fall? && Body(c, f.state, INITIAL, {}) && f.state.regs[RSI] == c.entry.regs[RSI]
  {
    PrologueReaches(c);
    EndsTame(c.input.Profile());
    PerformKeeps(Prologue(c.input.Profile()), c.entry);
  }

  /** The blocks of an image whose load is bare. */
  function BareBlocks(b: seq<U8>, source: seq<Instruction>, at: Layout, c: Call): nat -> bool {
    MarksOf(Reader(b), Bare(b), source, at, c)
  }

  lemma TwiceRuns(table: Fetch, read: Fetch, bare: nat -> bool, limit: nat, program: seq<Instruction>, at: Layout,
                  c: Call, marks: nat -> bool, fuel: nat)
    requires Twice(table, read, bare, limit, program, at, c) && marks == MarksOf(table, bare, program, at, c)
             && fuel >= limit
    requires Placed(read, 0, Prologue(c.input.Profile()), at(ToSource(0)), at)
    requires PassesMark(program, marks, 0, INITIAL, c.input) ==> !Mapped(c.entry.mem, c.entry.regs[RSI], 4)
    ensures if PassesMark(program, marks, 0, INITIAL, c.input) then Run(Exec, read, 0, c.entry, fuel) == Faulted
            else ReturnsTo(c, Evaluate(program, 0, INITIAL, c.input), Run(Exec, read, 0, c.entry, fuel))
  {
    var post := Judged(c, Evaluate(program, 0, INITIAL, c.input), PassesMark(program, marks, 0, INITIAL, c.input));
    var prologue := Prologue(c.input.Profile());
    PrologueKeeps(c);
    var f := Perform(Exec, prologue, c.entry);
    StartPath(program);
    RunPath(table, read, bare, limit, program, at, c, [0], f.state, INITIAL, marks);
    PrologueConfined(c.input.Profile());
    RunBlock(Exec, read, limit, 0, prologue, at(ToSource(0)), at, c.entry, post);
    assert post(Run(Exec, read, 0, c.entry, fuel));
  }

  /**
   The processor on any image that the validator accepts for an acceptable source: a call on which
   the interpreter gets past the bounds check of no instruction whose native load is bare returns the
   interpreter's value, and any other call faults if rsi is not mapped. So where rsi is not mapped,
   the image computes the interpreter's value exactly on the calls that take no bare load.
   */
  lemma AcceptedRunsExactly(b: seq<U8>, source: seq<Instruction>, at: Layout, c: Call, fuel: nat)
    requires Acceptable(source) && Admitted(source, c.input.Profile())
    requires LaidOut(Reader(b), |b|, source, c.input.Profile(), at) && ValidCall(c) && fuel >= |b|
    ensures Closed(source)
    ensures var h, v := Run(Exec, Processor(b), 0, c.entry, fuel), Evaluate(source, 0, INITIAL, c.input);
            var takes := PassesMark(source, BareBlocks(b, source, at, c), 0, INITIAL, c.input);
            && (!takes ==> ReturnsTo(c, v, h))
            && (!Mapped(c.entry.mem, c.entry.regs[RSI], 4) ==> (ReturnsTo(c, v, h) <==> !takes))
            && (!Mapped(c.entry.mem, c.entry.regs[RSI], 4) && takes ==> h == Faulted)
  {
    WellFormedClosed(source);
    TableAndProcessor(b);
    var marks := BareBlocks(b, source, at, c);
    BothReadings(Reader(b), Processor(b), Bare(b), |b|, source, at, c);
    if !PassesMark(source, marks, 0, INITIAL, c.input) || !Mapped(c.entry.mem, c.entry.regs[RSI], 4) {
      TwiceRuns(Reader(b), Processor(b), Bare(b), |b|, source, at, c, marks, fuel);
    }
  }
}
