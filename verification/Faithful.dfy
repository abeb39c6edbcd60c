/**
 The validator's table against the processor, over whole images: an accepted
 image is a correct translation for the processor exactly when none of its
 instructions is the one ambiguous pair of bytes, and then it computes what the
 interpreter computes.
 */
module Faithful {
  import opened Words
  import opened Bpf
  import opened Paths
  import opened Native
  import opened Lowering
  import opened Frame
  import opened Footprint
  import opened Soundness
  import opened Verifier
  import opened Decoder
  import opened Architecture
  import opened Validator
  import opened Checking
  import opened Linking

  /** The processor's reading of an image. */
  function Processor(b: seq<U8>): Fetch { (p: nat) => ReadInstruction(b, p) }

  // ----- one instruction -----

  lemma TameMisread(b: seq<U8>, p: nat)
    requires Decode(b, p).Some? && Tame(Decode(b, p).value.0) && Misread(b, p)
    ensures BareLoad(b, p)
  {
  }

  lemma BareLoadRead(b: seq<U8>, p: nat)
    requires BareLoad(b, p)
    ensures ReadInstruction(b, p) == Some((Load(W32, Eax, Rsi, 0), p + 2))
  {
  }

  function WordLoad(): Pattern { Exact(Load(W32, Eax, R14, 0)) }

  function RsiLoad(): Pattern { Exact(Load(W32, Eax, Rsi, 0)) }

  /**
   Two readings of the same code that part only at marked places, where the table sees the word load and
   the processor a load through rsi.
   */
  ghost predicate Parts(table: Fetch, read: Fetch, bare: nat -> bool) {
    forall p: nat {:trigger table(p)} :: table(p).Some? && Tame(table(p).value.0) ==>
      if bare(p) then table(p).value.0 == WordLoad().op && read(p) == Some((RsiLoad().op, table(p).value.1))
      else read(p) == table(p)
  }

  function Bare(b: seq<U8>): nat -> bool { (p: nat) => BareLoad(b, p) }

  lemma BareDecoded(b: seq<U8>, p: nat)
    requires BareLoad(b, p) && Decode(b, p).Some?
    ensures Decode(b, p) == Some((WordLoad().op, p + 2))
  {
  }

  lemma TableAndProcessor(b: seq<U8>)
    ensures Parts(Reader(b), Processor(b), Bare(b))
  {
    forall p: nat | Decode(b, p).Some? && Tame(Decode(b, p).value.0)
      ensures if BareLoad(b, p)
              then Decode(b, p).value.0 == WordLoad().op
                && ReadInstruction(b, p) == Some((RsiLoad().op, Decode(b, p).value.1))
              else ReadInstruction(b, p) == Decode(b, p)
    {
      SameReading(b, p);
      if BareLoad(b, p) {
        BareDecoded(b, p);
      }
    }
  }

  lemma SameReading(b: seq<U8>, p: nat)
    requires Decode(b, p).Some? && Tame(Decode(b, p).value.0)
    ensures if BareLoad(b, p) then ReadInstruction(b, p) == Some((Load(W32, Eax, Rsi, 0), p + 2))
            else ReadInstruction(b, p) == Decode(b, p)
  {
    TableAgreesExactly(b, p);
    if BareLoad(b, p) {
      BareLoadRead(b, p);
    } else if Misread(b, p) {
      TameMisread(b, p);
    }
  }

  // ----- one block -----

  /** `clean(p)`: no instruction from `p` on is marked. */
  ghost predicate Sweeps(table: Fetch, bare: nat -> bool, clean: nat -> bool) {
    forall p: nat {:trigger table(p)} :: table(p).Some? ==> (clean(p) <==> !bare(p) && clean(table(p).value.1))
  }

  predicate TameAll(ps: seq<Pattern>) { forall k :: 0 <= k < |ps| && ps[k].Exact? ==> Tame(ps[k].op) }

  /** A clean block means the same to both readings. */
  lemma {:induction false} CleanBlock(table: Fetch, read: Fetch, bare: nat -> bool, clean: nat -> bool, p: nat,
                                      ps: seq<Pattern>, end: nat, at: Layout)
    requires Parts(table, read, bare) && Sweeps(table, bare, clean) && TameAll(ps)
    requires Placed(table, p, ps, end, at) && clean(p)
    ensures Placed(read, p, ps, end, at) && clean(end)
    decreases |ps|
  {
    if ps != [] {
      CleanBlock(table, read, bare, clean, table(p).value.1, ps[1..], end, at);
    }
  }

  /** A block both readings agree on is clean. */
  lemma {:induction false} AgreedBlock(table: Fetch, read: Fetch, bare: nat -> bool, clean: nat -> bool, p: nat,
                                       ps: seq<Pattern>, end: nat, at: Layout, end': nat, at': Layout)
    requires Parts(table, read, bare) && Sweeps(table, bare, clean) && TameAll(ps)
    requires Placed(table, p, ps, end, at) && Placed(read, p, ps, end', at')
    ensures end == end' && (clean(end) ==> clean(p))
    decreases |ps|
  {
    if ps != [] {
      AgreedBlock(table, read, bare, clean, table(p).value.1, ps[1..], end, at, end', at');
    }
  }

  // ----- whole images -----

  lemma LowerTame(i: Instruction, pc: nat, profile: InputProfile)
    ensures TameAll(Lower(i, pc, profile))
  {
    LowerConfined(i, pc, profile);
    assert Confined(Lower(i, pc, profile), TargetsOf(i, pc));
  }

  lemma EndsTame(profile: InputProfile)
    ensures TameAll(Prologue(profile)) && TameAll(FailureBlock()) && TameAll(Epilogue())
  {
  }

  lemma {:induction false} CleanAt(table: Fetch, read: Fetch, bare: nat -> bool, clean: nat -> bool,
                                   source: seq<Instruction>, profile: InputProfile, at: Layout, pc: nat)
    requires Parts(table, read, bare) && Sweeps(table, bare, clean)
    requires HasBlocks(table, source, profile, at) && clean(at(ToSource(0))) && pc < |source|
    ensures clean(at(ToSource(pc)))
    ensures Placed(read, at(ToSource(pc)), Lower(source[pc], pc, profile), BlockEnd(source, pc, at), at)
    ensures clean(BlockEnd(source, pc, at))
    decreases pc
  {
    if pc > 0 {
      CleanAt(table, read, bare, clean, source, profile, at, pc - 1);
    }
    assert Position(pc);
    LowerTame(source[pc], pc, profile);
    CleanBlock(table, read, bare, clean, at(ToSource(pc)), Lower(source[pc], pc, profile), BlockEnd(source, pc, at),
               at);
  }

  lemma CleanImage(table: Fetch, read: Fetch, bare: nat -> bool, clean: nat -> bool, limit: nat,
                   source: seq<Instruction>, profile: InputProfile, at: Layout)
    requires Parts(table, read, bare) && Sweeps(table, bare, clean) && |source| > 0
    requires LaidOut(table, limit, source, profile, at) && clean(0)
    ensures LaidOut(read, limit, source, profile, at)
  {
    EndsTame(profile);
    CleanBlock(table, read, bare, clean, 0, Prologue(profile), at(ToSource(0)), at);
    forall pc: nat {:trigger Position(pc)} | Position(pc) && pc < |source|
      ensures Placed(read, at(ToSource(pc)), Lower(source[pc], pc, profile), BlockEnd(source, pc, at), at)
    {
      CleanAt(table, read, bare, clean, source, profile, at, pc);
    }
    CleanAt(table, read, bare, clean, source, profile, at, |source| - 1);
    TailThere(table, limit, at);
    CleanBlock(table, read, bare, clean, at(ToFailure), FailureBlock(), at(ToEpilogue), at);
    CleanBlock(table, read, bare, clean, at(ToEpilogue), Epilogue(), limit, at);
  }

  /** Both readings find the blocks at the same places. */
  lemma {:induction false} AgreedAt(table: Fetch, read: Fetch, bare: nat -> bool, clean: nat -> bool,
                                    source: seq<Instruction>, profile: InputProfile, at: Layout, at': Layout, pc: nat)
    requires Parts(table, read, bare) && Sweeps(table, bare, clean)
    requires HasBlocks(table, source, profile, at) && HasBlocks(read, source, profile, at')
    requires at(ToSource(0)) == at'(ToSource(0)) && pc < |source|
    ensures at(ToSource(pc)) == at'(ToSource(pc)) && BlockEnd(source, pc, at) == BlockEnd(source, pc, at')
    ensures clean(BlockEnd(source, pc, at)) ==> clean(at(ToSource(0)))
    decreases pc
  {
    if pc > 0 {
      AgreedAt(table, read, bare, clean, source, profile, at, at', pc - 1);
    }
    assert Position(pc);
    LowerTame(source[pc], pc, profile);
    AgreedBlock(table, read, bare, clean, at(ToSource(pc)), Lower(source[pc], pc, profile),
                BlockEnd(source, pc, at), at, BlockEnd(source, pc, at'), at');
  }

  lemma AgreedImage(table: Fetch, read: Fetch, bare: nat -> bool, clean: nat -> bool, limit: nat,
                    source: seq<Instruction>, profile: InputProfile, at: Layout, at': Layout)
    requires Parts(table, read, bare) && Sweeps(table, bare, clean) && |source| > 0
    requires LaidOut(table, limit, source, profile, at) && LaidOut(read, limit, source, profile, at')
    requires clean(limit)
    ensures clean(0)
  {
    EndsTame(profile);
    AgreedBlock(table, read, bare, clean, 0, Prologue(profile), at(ToSource(0)), at, at'(ToSource(0)), at');
    AgreedAt(table, read, bare, clean, source, profile, at, at', |source| - 1);
    TailThere(table, limit, at);
    TailThere(read, limit, at');
    AgreedBlock(table, read, bare, clean, at(ToFailure), FailureBlock(), at(ToEpilogue), at, at'(ToEpilogue), at');
    AgreedBlock(table, read, bare, clean, at(ToEpilogue), Epilogue(), limit, at, limit, at');
  }

  lemma CleanSweeps(b: seq<U8>)
    ensures Sweeps(Reader(b), Bare(b), (p: nat) => Clean(b, p))
  {
  }

  lemma CleanAtEnd(b: seq<U8>)
    ensures Clean(b, |b|)
  {
    DecodeAdvances(b, |b|);
  }

  /** For the processor, too, the image is the source's lowering. */
  ghost predicate TranslatesForProcessor(b: seq<U8>, source: seq<Instruction>, profile: InputProfile) {
    exists at: Layout :: LaidOut(Processor(b), |b|, source, profile, at)
  }

  /** An accepted image is a correct translation for the processor exactly when it is clean. */
  lemma AcceptedMeansTheSameExactly(b: seq<U8>, source: seq<Instruction>, profile: InputProfile)
    requires |source| > 0 && Translates(b, source, profile)
    ensures Clean(b, 0) <==> TranslatesForProcessor(b, source, profile)
  {
    var table, read := Reader(b), Processor(b);
    var bare, clean := Bare(b), (p: nat) => Clean(b, p);
    TableAndProcessor(b);
    CleanSweeps(b);
    CleanAtEnd(b);
    var at: Layout :| LaidOut(Reader(b), |b|, source, profile, at);
    if Clean(b, 0) {
      CleanImage(table, read, bare, clean, |b|, source, profile, at);
      assert LaidOut(Processor(b), |b|, source, profile, at);
    }
    if TranslatesForProcessor(b, source, profile) {
      var at': Layout :| LaidOut(Processor(b), |b|, source, profile, at');
      AgreedImage(table, read, bare, clean, |b|, source, profile, at, at');
    }
  }

  /**
   Validator soundness on the processor: a clean image that the validator accepts
   for a source computes, on every valid call, exactly the interpreter's value and
   accesses only input, context record and stack.
   */
  lemma AcceptedImageIsSound(b: seq<U8>, source: seq<Instruction>, c: Call, fuel: nat)
    requires Acceptable(source) && Admitted(source, c.input.Profile()) && Translates(b, source, c.input.Profile())
    requires Clean(b, 0) && ValidCall(c) && fuel >= |b|
    ensures Closed(source)
    ensures ReturnsTo(c, Evaluate(source, 0, INITIAL, c.input), Run(Exec, Processor(b), 0, c.entry, fuel))
    ensures TouchesOwn(Processor(b), c, fuel)
  {
    WellFormedClosed(source);
    AcceptedMeansTheSameExactly(b, source, c.input.Profile());
    var at: Layout :| LaidOut(Processor(b), |b|, source, c.input.Profile(), at);
    LaidOutCodeIsSound(Processor(b), |b|, source, at, c, fuel);
  }
}
