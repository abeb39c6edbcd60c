/**
 What an accepted image with bare loads computes where rsi is mapped: the value of
 an interpreter whose marked loads, once past their bounds check, yield the word
 that rsi points to.
 */
module BareValues {
  import opened Words
  import opened Bpf
  import opened Paths
  import opened Native
  import opened Lowering
  import opened Frame
  import opened Blocks
  import opened Scratch
  import opened Soundness
  import opened Verifier
  import opened Validator
  import opened Checking
  import opened Faithful
  import opened BarePaths

  // ----- the interpreter with marked loads -----

  /** A marked load that succeeds yields `w`. */
  function MarkedStep(i: Instruction, pc: nat, vm: Vm, input: Input, marked: bool, w: U32): Outcome
    requires Executable(i) && ValidVm(vm)
  {
    var o := Step(i, pc, vm, input);
    if marked && o.Next? then Next(o.pc, vm.(a := w)) else o
  }

  function EvaluateMarked(program: seq<Instruction>, marks: nat -> bool, pc: nat, vm: Vm, input: Input, w: U32): U32
    requires Closed(program) && pc < |program| && ValidVm(vm)
    decreases |program| - pc
  {
    StepStays(program[pc], pc, vm, input);
    match MarkedStep(program[pc], pc, vm, input, marks(pc), w)
    case Done(v) => v
    case Next(q, next) => EvaluateMarked(program, marks, q, next, input, w)
  }

  /** On a path that passes no marked load it is the ordinary interpreter. */
  lemma {:induction false} UnmarkedPath(program: seq<Instruction>, marks: nat -> bool, pc: nat, vm: Vm, input: Input,
                                        w: U32)
    requires Closed(program) && pc < |program| && ValidVm(vm) && !PassesMark(program, marks, pc, vm, input)
    ensures EvaluateMarked(program, marks, pc, vm, input, w) == Evaluate(program, pc, vm, input)
    decreases |program| - pc
  {
    StepStays(program[pc], pc, vm, input);
    var o := Step(program[pc], pc, vm, input);
    if o.Next? {
      UnmarkedPath(program, marks, o.pc, o.vm, input, w);
    }
  }

  // ----- the word that rsi points to -----

  function InOrderOf(profile: InputProfile, v: U32): U32 { if profile.NativeAlignedWords? then v else Swap32(v) }

  /** The bytes at rsi, in the byte order of the profile. */
  function RsiWord(c: Call): U32
    requires Mapped(c.entry.mem, c.entry.regs[RSI], 4)
  {
    ReadBound(c.entry.mem, c.entry.regs[RSI], W32);
    InOrderOf(c.input.Profile(), Read(c.entry.mem, c.entry.regs[RSI], 4))
  }

  /** Rsi points to four mapped bytes outside the frame. */
  predicate RsiReadable(c: Call) { Mapped(c.entry.mem, c.entry.regs[RSI], 4) && Apart(c.entry.regs[RSI], 4, c) }

  /** A word load through any register, with its byte swap, changes nothing but eax. */
  lemma TailFlow(perform: Performer, profile: InputProfile, base: Register, t: State)
    requires IsMachine(perform) && Mapped(t.mem, t.regs[Number(base)], 4)
    ensures Read(t.mem, t.regs[Number(base)], 4) < B32
    ensures perform([Exact(Load(W32, Eax, base, 0))] + EndianTransform(Word, profile), t) ==
            Fall(Set(t, Eax, InOrderOf(profile, Read(t.mem, t.regs[Number(base)], 4))))
  {
    var load, rest := [Exact(Load(W32, Eax, base, 0))], EndianTransform(Word, profile);
    DoLoad(perform, t, W32, Eax, base, 0, t.regs[Number(base)]);
    var u := Set(t, Eax, Read(t.mem, t.regs[Number(base)], 4));
    Sequence(perform, load, rest, t);
    if profile.NativeAlignedWords? {
      Nothing(perform, u);
    } else {
      DoSwap32(perform, u);
    }
  }

  lemma TailStuck(perform: Performer, profile: InputProfile, base: Register, t: State)
    requires IsMachine(perform) && !Mapped(t.mem, t.regs[Number(base)], 4)
    ensures perform([Exact(Load(W32, Eax, base, 0))] + EndianTransform(Word, profile), t) == Stuck
  {
    Sequence(perform, [Exact(Load(W32, Eax, base, 0))], EndianTransform(Word, profile), t);
    Single(perform, Exact(Load(W32, Eax, base, 0)), t);
    assert LoadInto(t, W32, Eax, base, 0).None?;
  }

  lemma OnlyAccumulator(c: Call, s: State, vm: Vm, known: set<nat>, w: U32)
    requires Body(c, s, vm, known)
    ensures Body(c, Set(s, Eax, w), vm.(a := w), known)
  {
  }

  /** The bytes at rsi are as the caller left them. */
  lemma RsiKept(c: Call, mem: Memory)
    requires RsiReadable(c) && OutsideKept(c, mem)
    ensures Mapped(mem, c.entry.regs[RSI], 4)
    ensures Read(mem, c.entry.regs[RSI], 4) == Read(c.entry.mem, c.entry.regs[RSI], 4)
  {
    var a: int := c.entry.regs[RSI];
    forall i | a <= i < a + 4
      ensures i in mem && mem[i] == c.entry.mem[i]
    {
      assert i in c.entry.mem;
    }
    ReadFrame(mem, c.entry.mem, a, 4);
  }

  /** From the state in which both loads stand: the load that should be there against the one that is. */
  lemma LoadsDiffer(perform: Performer, c: Call, t: State, vm: Vm, known: set<nat>)
    requires IsMachine(perform) && RsiReadable(c) && t.regs[RSI] == c.entry.regs[RSI]
    requires var g := perform([WordLoad()] + EndianTransform(Word, c.input.Profile()), t);
             g.Fall? && Body(c, g.state, vm, known)
    ensures var f := perform([RsiLoad()] + EndianTransform(Word, c.input.Profile()), t);
            f.Fall? && Body(c, f.state, vm.(a := RsiWord(c)), known) && Keeps(t, f.state)
  {
    var profile := c.input.Profile();
    if !Mapped(t.mem, t.regs[14], 4) {
      TailStuck(perform, profile, R14, t);
    }
    TailFlow(perform, profile, R14, t);
    var g := perform([WordLoad()] + EndianTransform(Word, profile), t).state;
    RsiKept(c, t.mem);
    TailFlow(perform, profile, Rsi, t);
    OnlyAccumulator(c, g, vm, known, RsiWord(c));
    assert Set(g, Eax, RsiWord(c)).regs == Set(t, Eax, RsiWord(c)).regs;
  }

  lemma LoadsDifferHere(c: Call, t: State, vm: Vm, known: set<nat>)
    requires RsiReadable(c) && t.regs[RSI] == c.entry.regs[RSI]
    requires var g := Perform(Exec, [WordLoad()] + EndianTransform(Word, c.input.Profile()), t);
             g.Fall? && Body(c, g.state, vm, known)
    ensures var f := Perform(Exec, [RsiLoad()] + EndianTransform(Word, c.input.Profile()), t);
            f.Fall? && Body(c, f.state, vm.(a := RsiWord(c)), known) && Keeps(t, f.state)
  {
    var perform: Performer := (ps: seq<Pattern>, u: State) => Perform(Exec, ps, u);
    MachinePerforms();
    LoadsDiffer(perform, c, t, vm, known);
  }

  /** Both readings of a word load share everything up to the load. */
  lemma SharedStart(before: seq<Pattern>, one: seq<Pattern>, two: seq<Pattern>, s: State) returns (t: State)
    requires Confined(before, {ToFailure}) && Perform(Exec, before, s).Fall?
    ensures Perform(Exec, before + one, s) == Perform(Exec, one, t)
    ensures Perform(Exec, before + two, s) == Perform(Exec, two, t)
    ensures Keeps(s, t)
  {
    t := Perform(Exec, before, s).state;
    PerformSeq(Exec, before, one, s);
    PerformSeq(Exec, before, two, s);
    PerformKeeps(before, s);
  }

  /** A marked block whose load is reached carries the interpreter with marked loads along. */
  lemma MarkedCarries(c: Call, s: State, i: Instruction, pc: nat, vm: Vm, known: set<nat>)
    requires ValidCall(c) && Body(c, s, vm, known) && ValidVm(vm) && RsiReadable(c)
    requires s.regs[RSI] == c.entry.regs[RSI] && Executable(i) && ProfileAdmits(i, c.input.Profile()) && LoadsWord(i)
    requires Step(i, pc, vm, c.input).Next?
    ensures var f := Perform(Exec, ThroughRsi(i, c.input.Profile()), s);
            && Carries(c, f, pc, MarkedStep(i, pc, vm, c.input, true, RsiWord(c)), known) && Keeps(s, f.state)
  {
    var profile := c.input.Profile();
    var rest := EndianTransform(Word, profile);
    WordBlock(c, s, i, pc, vm, known);
    PerformCarries(c, s, i, pc, vm, known);
    WordShape(i, pc, profile);
    BeforePlain(i, profile);
    var t := SharedStart(BeforeWord(i, profile), [WordLoad()] + rest, [RsiLoad()] + rest, s);
    WordStep(i, pc, vm, c.input);
    var g := Perform(Exec, [WordLoad()] + rest, t);
    if g.Leave? {
      WordTail(profile);
      LeavesTo([WordLoad()] + rest, {}, t);
    }
    assert known + StoredBy(i) == known;
    LoadsDifferHere(c, t, Step(i, pc, vm, c.input).vm, known);
  }

  lemma WordStep(i: Instruction, pc: nat, vm: Vm, input: Input)
    requires Executable(i) && ValidVm(vm) && LoadsWord(i) && Step(i, pc, vm, input).Next?
    ensures var o := Step(i, pc, vm, input); o.pc == pc + 1 && forall w: U32 :: o.vm.(a := w) == vm.(a := w)
  {
  }

  // ----- runs -----

  lemma ThroughRsiPlain(i: Instruction, profile: InputProfile)
    ensures forall k :: 0 <= k < |ThroughRsi(i, profile)| && !ThroughRsi(i, profile)[k].Exact? ==>
              ThroughRsi(i, profile)[k].target == ToFailure
    ensures forall k :: 0 <= k < |ThroughRsi(i, profile)| ==> ThroughRsi(i, profile)[k] != Exact(Return)
  {
    BeforePlain(i, profile);
    WordTail(profile);
  }

  /** The run from a marked block, if the run from wherever its code leads is known. */
  lemma MarkedBlockEnds(table: Fetch, read: Fetch, bare: nat -> bool, limit: nat, program: seq<Instruction>,
                        at: Layout, c: Call, pc: nat, s: State, post: Halt -> bool)
    requires Twice(table, read, bare, limit, program, at, c) && pc < |program|
    requires MarksOf(table, bare, program, at, c)(pc)
    requires var f := Perform(Exec, ThroughRsi(program[pc], c.input.Profile()), s);
             Arrives(Exec, read, limit, f, BlockEnd(program, pc, at), at, post)
    ensures Ends(Exec, read, limit, at(ToSource(pc)), s, post)
  {
    var profile := c.input.Profile();
    BlockThere(table, program, profile, at, pc);
    var mid, next := MarkedRead(table, read, bare, program, profile, at, pc);
    ThroughRsiPlain(program[pc], profile);
    RunBlock(Exec, read, limit, at(ToSource(pc)), ThroughRsi(program[pc], profile), BlockEnd(program, pc, at), at, s,
             post);
  }

  lemma MarkedIsWord(table: Fetch, read: Fetch, bare: nat -> bool, limit: nat, program: seq<Instruction>, at: Layout,
                     c: Call, pc: nat)
    requires Twice(table, read, bare, limit, program, at, c) && pc < |program|
    requires MarksOf(table, bare, program, at, c)(pc)
    ensures LoadsWord(program[pc])
  {
    BlockThere(table, program, c.input.Profile(), at, pc);
    MarkedLoads(table, read, bare, program, c.input.Profile(), at, pc);
  }

  /** Where a path goes on: the next instruction, and the machine in step with the interpreter there. */
  ghost predicate GoesOn(program: seq<Instruction>, c: Call, p: seq<nat>, o: Outcome, g: State) {
    && IsPath(program, p) && o.Next? && Last(p) < o.pc < |program| && ValidVm(o.vm)
    && IsPath(program, p + [o.pc]) && Last(p + [o.pc]) == o.pc
    && Body(c, g, o.vm, StoredOn(program, p + [o.pc])) && g.regs[RSI] == c.entry.regs[RSI]
  }

  /** One step of a path whose block is marked and reached. */
  lemma AdvanceThrough(table: Fetch, read: Fetch, bare: nat -> bool, limit: nat, program: seq<Instruction>, at: Layout,
                       c: Call, p: seq<nat>, s: State, vm: Vm, post: Halt -> bool)
    returns (o: Outcome, g: State)
    requires Twice(table, read, bare, limit, program, at, c) && IsPath(program, p) && RsiReadable(c)
    requires ValidVm(vm) && Body(c, s, vm, StoredOn(program, p)) && s.regs[RSI] == c.entry.regs[RSI]
    requires MarksOf(table, bare, program, at, c)(Last(p)) && Step(program[Last(p)], Last(p), vm, c.input).Next?
    ensures o == MarkedStep(program[Last(p)], Last(p), vm, c.input, true, RsiWord(c)) && GoesOn(program, c, p, o, g)
    ensures Ends(Exec, read, limit, at(ToSource(o.pc)), g, post) ==>
              Ends(Exec, read, limit, at(ToSource(Last(p))), s, post)
  {
    var pc, known := Last(p), StoredOn(program, p);
    MarkedIsWord(table, read, bare, limit, program, at, c, pc);
    MarkedCarries(c, s, program[pc], pc, vm, known);
    StepStays(program[pc], pc, vm, c.input);
    var f := Perform(Exec, ThroughRsi(program[pc], c.input.Profile()), s);
    o, g := MarkedStep(program[pc], pc, vm, c.input, true, RsiWord(c)), f.state;
    ExtendPath(program, p, o.pc);
    assert known + StoredBy(program[pc]) == known;
    if Ends(Exec, read, limit, at(ToSource(o.pc)), g, post) {
      NextArrives(read, limit, program, at, c, pc, f, o, known, post);
      MarkedBlockEnds(table, read, bare, limit, program, at, c, pc, s, post);
    }
  }

  /** One step of a path whose block is not marked, or fails before its load. */
  lemma AdvancePast(table: Fetch, read: Fetch, bare: nat -> bool, limit: nat, program: seq<Instruction>, at: Layout,
                    c: Call, p: seq<nat>, s: State, vm: Vm, post: Halt -> bool)
    returns (o: Outcome, g: State)
    requires Twice(table, read, bare, limit, program, at, c) && IsPath(program, p)
    requires ValidVm(vm) && Body(c, s, vm, StoredOn(program, p)) && s.regs[RSI] == c.entry.regs[RSI]
    requires !(MarksOf(table, bare, program, at, c)(Last(p)) && Step(program[Last(p)], Last(p), vm, c.input).Next?)
    ensures o == Step(program[Last(p)], Last(p), vm, c.input) && (o.Next? ==> GoesOn(program, c, p, o, g))
    ensures o.Next? && Ends(Exec, read, limit, at(ToSource(o.pc)), g, post) ==>
              Ends(Exec, read, limit, at(ToSource(Last(p))), s, post)
    ensures o.Done? && post == Post(c, o.value) ==> Ends(Exec, read, limit, at(ToSource(Last(p))), s, post)
  {
    var pc, known := Last(p), StoredOn(program, p);
    BothStep(limit, table, program, at, c, p, s, vm);
    var f := Perform(Exec, Lower(program[pc], pc, c.input.Profile()), s);
    o, g := Step(program[pc], pc, vm, c.input), f.state;
    var out := known + StoredBy(program[pc]);
    if o.Next? {
      ExtendPath(program, p, o.pc);
      if Ends(Exec, read, limit, at(ToSource(o.pc)), g, post) {
        NextArrives(read, limit, program, at, c, pc, f, o, out, post);
        AnyBlock(table, read, bare, limit, program, at, c, pc, s, vm, known, post);
      }
    } else if post == Post(c, o.value) {
      DoneLeadsOn(read, limit, program, at, c, pc, f, o.value, out);
      AnyBlock(table, read, bare, limit, program, at, c, pc, s, vm, known, post);
    }
  }

  /** From the block of the last instruction of a path to the value of the interpreter with marked loads. */
  lemma {:induction false} RunMarked(table: Fetch, read: Fetch, bare: nat -> bool, limit: nat,
                                     program: seq<Instruction>, at: Layout, c: Call, p: seq<nat>, s: State, vm: Vm,
                                     marks: nat -> bool)
    requires Twice(table, read, bare, limit, program, at, c) && IsPath(program, p)
             && marks == MarksOf(table, bare, program, at, c)
    requires ValidVm(vm) && Body(c, s, vm, StoredOn(program, p)) && s.regs[RSI] == c.entry.regs[RSI] && RsiReadable(c)
    ensures Ends(Exec, read, limit, at(ToSource(Last(p))), s,
                 Post(c, EvaluateMarked(program, marks, Last(p), vm, c.input, RsiWord(c))))
    decreases |program| - Last(p)
  {
    var pc := Last(p);
    var post := Post(c, EvaluateMarked(program, marks, pc, vm, c.input, RsiWord(c)));
    var o: Outcome, g: State;
    if marks(pc) && Step(program[pc], pc, vm, c.input).Next? {
      o, g := AdvanceThrough(table, read, bare, limit, program, at, c, p, s, vm, post);
    } else {
      o, g := AdvancePast(table, read, bare, limit, program, at, c, p, s, vm, post);
    }
    if o.Next? {
      RunMarked(table, read, bare, limit, program, at, c, p + [o.pc], g, o.vm, marks);
    }
  }

  lemma MarkedRuns(table: Fetch, read: Fetch, bare: nat -> bool, limit: nat, program: seq<Instruction>, at: Layout,
                   c: Call, marks: nat -> bool, fuel: nat)
    requires Twice(table, read, bare, limit, program, at, c) && marks == MarksOf(table, bare, program, at, c)
             && fuel >= limit && RsiReadable(c)
    requires Placed(read, 0, Prologue(c.input.Profile()), at(ToSource(0)), at)
    ensures ReturnsTo(c, EvaluateMarked(program, marks, 0, INITIAL, c.input, RsiWord(c)),
                      Run(Exec, read, 0, c.entry, fuel))
  {
    var post := Post(c, EvaluateMarked(program, marks, 0, INITIAL, c.input, RsiWord(c)));
    var prologue := Prologue(c.input.Profile());
    PrologueKeeps(c);
    var f := Perform(Exec, prologue, c.entry);
    StartPath(program);
    RunMarked(table, read, bare, limit, program, at, c, [0], f.state, INITIAL, marks);
    PrologueConfined(c.input.Profile());
    RunBlock(Exec, read, limit, 0, prologue, at(ToSource(0)), at, c.entry, post);
    assert post(Run(Exec, read, 0, c.entry, fuel));
  }

  /**
   Where rsi points to mapped memory outside the frame, every accepted image returns, on every valid call, the value
   of the interpreter whose bare loads yield the word at rsi. That is the ordinary interpreter's value on every call
   that takes no bare load.
   */
  lemma AcceptedComputes(b: seq<U8>, source: seq<Instruction>, at: Layout, c: Call, fuel: nat)
    requires Acceptable(source) && Admitted(source, c.input.Profile())
    requires LaidOut(Reader(b), |b|, source, c.input.Profile(), at) && ValidCall(c) && fuel >= |b| && RsiReadable(c)
    ensures Closed(source)
    ensures var marks := BareBlocks(b, source, at, c);
            var v := EvaluateMarked(source, marks, 0, INITIAL, c.input, RsiWord(c));
            && ReturnsTo(c, v, Run(Exec, Processor(b), 0, c.entry, fuel))
            && (!PassesMark(source, marks, 0, INITIAL, c.input) ==> v == Evaluate(source, 0, INITIAL, c.input))
  {
    WellFormedClosed(source);
    TableAndProcessor(b);
    var marks := BareBlocks(b, source, at, c);
    BothReadings(Reader(b), Processor(b), Bare(b), |b|, source, at, c);
    MarkedRuns(Reader(b), Processor(b), Bare(b), |b|, source, at, c, marks, fuel);
    if !PassesMark(source, marks, 0, INITIAL, c.input) {
      UnmarkedPath(source, marks, 0, INITIAL, c.input, RsiWord(c));
    }
  }
}
