/**
 The one ambiguous pair of bytes is real: an image that the validator accepts
 although the processor loads through another register, and a call on which it
 faults where the interpreter returns a value.
 */
module Ambiguity {
  import opened Words
  import opened Bpf
  import opened Native
  import opened Lowering
  import opened Frame
  import opened Blocks
  import opened Scratch
  import opened Soundness
  import opened Verifier
  import opened Validator
  import opened Checking
  import opened Decoder
  import opened Architecture
  import opened Emitter
  import opened Encoding
  import opened Linking
  import opened Translation
  import opened Sizes
  import opened Faithful
  import opened BarePaths

  // ----- an ambiguous image -----

  /** Return the first word of the input. */
  const FIRST_WORD: seq<Instruction> := [Instruction(LdAbs(Word), 0, 0, 0), Instruction(RetA, 0, 0, 0)]

  const PROFILE: InputProfile := NativeAlignedWords

  /** Everything of the first block up to the load. */
  function BeforeCode(): seq<Piece> {
    [With32([0x41, 0xbe], 0)] + (EmitBounds(Word) + (EmitAddress() + [EmitBarrier()]))
  }

  function BeforeLoad(): seq<Pattern> {
    [Move32(R14d, Imm(0))] + (Bounds(Word) + (AddressAdd() + [Exact(SpeculationBarrier)]))
  }

  /** The translator's code for the program, with the load's REX prefix left out. */
  function AmbiguousUnit(): Unit {
    Unit(EmitPrologue(PROFILE),
         (pc: nat) => if pc == 0 then BeforeCode() + [Code([0x8b, 0x06])] else if pc == 1 then [Jmp(ToEpilogue)]
           else [], 2, EmitZeroReturn(), EmitEpilogue())
  }

  lemma FirstBlock()
    ensures Lower(FIRST_WORD[0], 0, PROFILE) == BeforeLoad() + [WordLoad()]
    ensures Lower(FIRST_WORD[1], 1, PROFILE) == [Goto(ToEpilogue)]
  {
    var a, b, c := Bounds(Word), AddressAdd(), [Exact(SpeculationBarrier)];
    assert FetchInto(Word, Eax) + [] == c + [WordLoad()];
    assert b + (c + [WordLoad()]) == (b + c) + [WordLoad()];
    assert a + ((b + c) + [WordLoad()]) == (a + (b + c)) + [WordLoad()];
    assert AncillaryFromOffset(0).None?;
  }

  lemma BeforeEncoded()
    ensures EncodesAll(BeforeCode(), BeforeLoad())
  {
    OffsetEncoded(0);
    BoundsEncoded(Word);
    AddressEncoded(Word, PROFILE);
    assert IsCodeOf([0x0f, 0xae, 0xe8], SpeculationBarrier);
    EncodesSum(EmitAddress(), [EmitBarrier()], AddressAdd(), [Exact(SpeculationBarrier)]);
    EncodesSum(EmitBounds(Word), EmitAddress() + [EmitBarrier()], Bounds(Word),
               AddressAdd() + [Exact(SpeculationBarrier)]);
    EncodesSum([With32([0x41, 0xbe], 0)], EmitBounds(Word) + (EmitAddress() + [EmitBarrier()]),
               [Move32(R14d, Imm(0))], Bounds(Word) + (AddressAdd() + [Exact(SpeculationBarrier)]));
  }

  lemma ReadsAsSum(a: seq<Piece>, b: seq<Piece>, ps: seq<Pattern>, qs: seq<Pattern>)
    requires ReadsAsAll(a, ps) && ReadsAsAll(b, qs)
    ensures ReadsAsAll(a + b, ps + qs)
  {
  }

  lemma BareReads()
    ensures ReadsAsAll([Code([0x8b, 0x06])], [WordLoad()])
  {
    assert IsRead([0x8b, 0x06], Load(W32, Eax, R14, 0));
  }

  lemma FirstBlockReads()
    ensures ReadsAsAll(AmbiguousUnit().emit(0), Lower(FIRST_WORD[0], 0, PROFILE))
  {
    BeforeEncoded();
    EncodesReads(BeforeCode(), BeforeLoad());
    BareReads();
    ReadsAsSum(BeforeCode(), [Code([0x8b, 0x06])], BeforeLoad(), [WordLoad()]);
    FirstBlock();
  }

  /** The ambiguous code reads as expected to the validator's table. */
  lemma AmbiguousReads(u: Unit)
    requires u == AmbiguousUnit()
    ensures ReadsAsAll(u.head, Prologue(PROFILE)) && ReadsAsAll(u.zero, FailureBlock())
            && ReadsAsAll(u.tail, Epilogue())
    ensures ReadsAsAll(u.emit(0), Lower(FIRST_WORD[0], 0, PROFILE))
            && ReadsAsAll(u.emit(1), Lower(FIRST_WORD[1], 1, PROFILE))
  {
    PrologueEncoded(PROFILE);
    EncodesReads(u.head, Prologue(PROFILE));
    FailureEncoded();
    EncodesReads(u.zero, FailureBlock());
    EpilogueEncoded();
    EncodesReads(u.tail, Epilogue());
    FirstBlockReads();
    FirstBlock();
  }

  ghost predicate Covers(loose: Encoder) { forall pieces, ps :: ReadsAsAll(pieces, ps) ==> loose(pieces, ps) }

  lemma AmbiguousExpected(u: Unit, loose: Encoder)
    requires u == AmbiguousUnit() && Covers(loose)
    ensures Expected(u, FIRST_WORD, PROFILE, loose)
  {
    AmbiguousReads(u);
    forall pc: nat {:trigger u.emit(pc)} | pc < |FIRST_WORD|
      ensures loose(u.emit(pc), Lower(FIRST_WORD[pc], pc, PROFILE)) {
      assert pc == 0 || pc == 1;
    }
  }

  lemma StepsBackAnyway(b: seq<U8>, link: Linker, decode: Fetch, clean: nat -> bool, any: nat -> bool,
                        means: (Piece, Pattern) -> bool, at: Layout, limit: nat)
    requires StepsBack(b, link, decode, clean, means, at, limit) && forall p :: any(p)
    ensures StepsBack(b, link, decode, any, means, at, limit)
  {
  }

  lemma LooseReadsBack(u: Unit, b: seq<U8>, loose: Encoder)
    requires u.Size() < 0x8000_0000 && loose == Encodings(ReadsAs, false)
    ensures ReadsBack(u, b, loose, Reader(b), (p: nat) => true)
  {
    LayoutNear(u);
    LinkedSteps(b, u.Layout(), u.Size());
    StepsBackAnyway(b, Links(u.Layout()), Reader(b), (p: nat) => Clean(b, p), (p: nat) => true, ReadsAs, u.Layout(),
                    u.Size());
    PartsReadBack(u, b, ReadsAs, false, Reader(b), (p: nat) => true);
  }

  lemma BeforeSize()
    ensures Length(BeforeCode()) == 44
  {
    BoundsSize(Word);
    AccessSizes(Word, PROFILE);
    One(With32([0x41, 0xbe], 0));
    One(EmitBarrier());
    LengthSum(EmitAddress(), [EmitBarrier()]);
    LengthSum(EmitBounds(Word), EmitAddress() + [EmitBarrier()]);
    LengthSum([With32([0x41, 0xbe], 0)], EmitBounds(Word) + (EmitAddress() + [EmitBarrier()]));
  }

  lemma TwoBlocks(u: Unit, before: seq<Piece>, load: Piece)
    requires u.count == 2 && u.emit(0) == before + [load] && u.emit(1) == [Jmp(ToEpilogue)]
    ensures u.Start(0) == Length(u.head) && u.Start(2) == Length(u.head) + Length(before) + Size(load) + 5
  {
    One(load);
    One(Jmp(ToEpilogue));
    LengthSum(before, [load]);
    assert u.Start(1) == u.Start(0) + Length(u.emit(0));
    assert u.Start(2) == u.Start(1) + Length(u.emit(1));
  }

  predicate Look(k: nat) { true }

  /** What is used of the ambiguous unit; how its code reads is unfolded on demand. */
  ghost predicate IsAmbiguous(u: Unit, before: seq<Piece>, loose: Encoder) {
    && u.count == 2 && u.emit(0) == before + [Code([0x8b, 0x06])]
    && u.Start(0) == 26 && Length(before) == 44 && u.Size() == 98
    && forall k: nat {:trigger Look(k)} :: Look(k) ==>
         Expected(u, FIRST_WORD, PROFILE, loose) && ReadsAsAll(before, BeforeLoad())
  }

  lemma LooseHolds(loose: Encoder)
    requires loose == Encodings(ReadsAs, false)
    ensures Covers(loose)
  {
  }

  lemma AmbiguousSizes(u: Unit)
    requires u == AmbiguousUnit()
    ensures u.count == 2 && u.emit(0) == BeforeCode() + [Code([0x8b, 0x06])]
    ensures u.Start(0) == 26 && Length(BeforeCode()) == 44 && u.Size() == 98
  {
    PrologueSize(PROFILE);
    TailSize();
    BeforeSize();
    TwoBlocks(u, BeforeCode(), Code([0x8b, 0x06]));
  }

  lemma AmbiguousForm(u: Unit, loose: Encoder)
    requires u == AmbiguousUnit() && Covers(loose)
    ensures IsAmbiguous(u, BeforeCode(), loose)
  {
    AmbiguousSizes(u);
    AmbiguousExpected(u, loose);
    BeforeEncoded();
    EncodesReads(BeforeCode(), BeforeLoad());
  }

  lemma {:induction false} ZeroAnd(b: nat, n: nat)
    ensures Bits(BitAnd, 0, b, n) == 0
    decreases n
  {
    if n > 0 {
      ZeroAnd(b / 2, n - 1);
    }
  }

  lemma FirstWordAccepted()
    ensures Acceptable(FIRST_WORD) && Admitted(FIRST_WORD, PROFILE) && Closed(FIRST_WORD)
  {
    ZeroAnd(0x8000_0000, 32);
    assert !Negative(0);
    assert InstructionOk(FIRST_WORD[0], 0, 2) && InstructionOk(FIRST_WORD[1], 1, 2);
    WellFormedClosed(FIRST_WORD);
  }

  lemma AmbiguousLaidOut(u: Unit, before: seq<Piece>, loose: Encoder, decode: Fetch)
    requires IsAmbiguous(u, before, loose) && ReadsBack(u, u.Image(), loose, decode, (p: nat) => true)
    ensures LaidOut(decode, 98, FIRST_WORD, PROFILE, u.Layout())
  {
    assert Look(0);
    ExpectedLaidOut(u, FIRST_WORD, PROFILE, loose, decode, (p: nat) => true);
  }

  // ----- how the processor reads it -----

  /** The ambiguous bytes follow the code that the validator read before them. */
  lemma BytesOfLoad(u: Unit, before: seq<Piece>, loose: Encoder, b: seq<U8>)
    requires IsAmbiguous(u, before, loose) && b == u.Image()
    ensures Contains(b, 26, Render(Links(u.Layout()), before, 26)) && Contains(b, 70, [0x8b, 0x06])
  {
    var link := Links(u.Layout());
    LinksSized(u.Layout());
    assert Contains(b, 0, b);
    ImageParts(u, link, b);
    BlockContained(b, link, u.emit, Length(u.head), 0, u.count, 0);
    RenderedParts(b, link, before, [Code([0x8b, 0x06])], 26);
    assert [Code([0x8b, 0x06])][1..] == [];
    assert link(Code([0x8b, 0x06]), 70) + [] == [0x8b, 0x06];
  }

  lemma BeforePlaced(u: Unit, before: seq<Piece>, loose: Encoder, b: seq<U8>, decode: Fetch, clean: nat -> bool,
                     means: (Piece, Pattern) -> bool, ps: seq<Pattern>)
    requires IsAmbiguous(u, before, loose) && b == u.Image()
    requires |before| == |ps| && forall k :: 0 <= k < |ps| ==> means(before[k], ps[k])
    requires StepsBack(b, Links(u.Layout()), decode, clean, means, u.Layout(), 98)
    ensures Placed(decode, 26, ps, 70, u.Layout())
  {
    BytesOfLoad(u, before, loose, b);
    LinksSized(u.Layout());
    BlockPlaced(b, Links(u.Layout()), decode, clean, means, 26, before, ps, u.Layout(), 98);
  }

  lemma BareThere(b: seq<U8>)
    requires Contains(b, 70, [0x8b, 0x06])
    ensures BareLoad(b, 70)
  {
    var code := [0x8b, 0x06];
    assert b[70 + 0] == code[0] && b[70 + 1] == code[1];
  }

  // ----- the call that faults -----

  /** A call on which the length argument, taken as an address, is not mapped. */
  predicate BadCall(c: Call) {
    ValidCall(c) && c.input.NativeWordInput? && c.Size() >= 4 && !Mapped(c.entry.mem, c.entry.regs[RSI], 4)
  }

  lemma AmbiguousBefore(u: Unit, before: seq<Piece>, loose: Encoder, b: seq<U8>)
    requires IsAmbiguous(u, before, loose) && b == u.Image()
    ensures Placed(Reader(b), 26, BeforeLoad(), 70, u.Layout()) && BareLoad(b, 70)
  {
    assert Look(0);
    LayoutNear(u);
    LinkedSteps(b, u.Layout(), 98);
    BeforePlaced(u, before, loose, b, Reader(b), (p: nat) => Clean(b, p), ReadsAs, BeforeLoad());
    BytesOfLoad(u, before, loose, b);
    BareThere(b);
  }

  lemma BeforeOther()
    ensures TameAll(BeforeLoad()) && NoWordLoad(BeforeLoad())
  {
  }

  lemma MarkMet(table: Fetch, read: Fetch, bare: nat -> bool, p: nat, before: seq<Pattern>, mid: nat, at: Layout)
    requires Parts(table, read, bare) && TameAll(before) && NoWordLoad(before)
    requires Placed(table, p, before, mid, at) && bare(mid)
    ensures MarkWithin(table, bare, p, |before| + 1)
  {
    MarkBeyond(table, read, bare, p, before, mid, at, 1);
  }

  lemma FirstLength()
    ensures |Lower(FIRST_WORD[0], 0, PROFILE)| == |BeforeLoad()| + 1
  {
    FirstBlock();
  }

  /** The image's first block has a bare load. */
  lemma FirstMarked(b: seq<U8>, at: Layout, c: Call)
    requires Placed(Reader(b), 26, BeforeLoad(), 70, at) && BareLoad(b, 70) && at(ToSource(0)) == 26
    requires c.input.Profile() == PROFILE
    ensures BareBlocks(b, FIRST_WORD, at, c)(0)
  {
    assert MarkWithin(Reader(b), Bare(b), 26, |BeforeLoad()| + 1) by {
      TableAndProcessor(b);
      BeforeOther();
      MarkMet(Reader(b), Processor(b), Bare(b), 26, BeforeLoad(), 70, at);
    }
    FirstLength();
    assert MarkedBlock(Reader(b), Bare(b), FIRST_WORD, PROFILE, at, 0);
  }

  /** On a bad call the interpreter gets past the bounds check of the first load. */
  lemma FirstPasses(marks: nat -> bool, c: Call)
    requires BadCall(c) && marks(0) && Closed(FIRST_WORD)
    ensures PassesMark(FIRST_WORD, marks, 0, INITIAL, c.input)
  {
    assert c.input.Load(0, Word).Some?;
  }

  function Zero(a: int): U8 { 0 }

  /** Zeroed memory from 0x1000 to just above the stack at 0x2000; four bytes of input, and the length argument 4. */
  function ExampleCall(): Call {
    var regs: Registers :=
      seq(16, i => if i == RSP then 0x2000 else if i == RDI then 0x1000 else if i == RSI then 4 else 0);
    Call(State(regs, Flags(false, false), map a: int | 0x1000 <= a < 0x2008 :: Zero(a)),
         NativeWordInput([0, 0, 0, 0]))
  }

  lemma ExampleIsBad()
    ensures BadCall(ExampleCall())
  {
    var c := ExampleCall();
    assert 4 !in c.entry.mem;
  }

  /** The ambiguous image, accepted by the validator, with its bare load where the processor finds it. */
  lemma AmbiguousImage(u: Unit, loose: Encoder, b: seq<U8>)
    requires IsAmbiguous(u, BeforeCode(), loose) && ReadsBack(u, b, loose, Reader(b), (p: nat) => true)
             && b == u.Image()
    ensures |b| == 98 && LaidOut(Reader(b), |b|, FIRST_WORD, PROFILE, u.Layout()) && u.Layout()(ToSource(0)) == 26
    ensures Placed(Reader(b), 26, BeforeLoad(), 70, u.Layout()) && BareLoad(b, 70)
  {
    ImageLength(u);
    AmbiguousLaidOut(u, BeforeCode(), loose, Reader(b));
    AmbiguousBefore(u, BeforeCode(), loose, b);
  }

  ghost predicate Candidate(u: Unit, loose: Encoder) {
    IsAmbiguous(u, BeforeCode(), loose) && ReadsBack(u, u.Image(), loose, Reader(u.Image()), (p: nat) => true)
  }

  ghost predicate IsLoose(loose: Encoder) {
    forall k: nat {:trigger Look(k)} :: Look(k) ==> loose == Encodings(ReadsAs, false)
  }

  lemma LooseExists()
    ensures exists loose: Encoder :: IsLoose(loose)
  {
    assert IsLoose(Encodings(ReadsAs, false));
  }

  lemma LooseFacts(loose: Encoder)
    requires IsLoose(loose)
    ensures Covers(loose)
    ensures forall u: Unit, b :: u.Size() < 0x8000_0000 ==> ReadsBack(u, b, loose, Reader(b), (p: nat) => true)
  {
    assert Look(0);
    LooseHolds(loose);
    forall u: Unit, b | u.Size() < 0x8000_0000 ensures ReadsBack(u, b, loose, Reader(b), (p: nat) => true) {
      LooseReadsBack(u, b, loose);
    }
  }

  lemma AmbiguousExists(loose: Encoder)
    requires Covers(loose)
    ensures exists u: Unit :: IsAmbiguous(u, BeforeCode(), loose)
  {
    AmbiguousForm(AmbiguousUnit(), loose);
  }

  lemma CandidateExists()
    ensures exists u: Unit, loose: Encoder :: Candidate(u, loose)
  {
    LooseExists();
    var loose: Encoder :| IsLoose(loose);
    LooseFacts(loose);
    AmbiguousExists(loose);
    var u: Unit :| IsAmbiguous(u, BeforeCode(), loose);
    assert Candidate(u, loose);
  }

  lemma AmbiguousImageThere() returns (b: seq<U8>, at: Layout)
    ensures |b| == 98 && LaidOut(Reader(b), |b|, FIRST_WORD, PROFILE, at) && at(ToSource(0)) == 26
    ensures Placed(Reader(b), 26, BeforeLoad(), 70, at) && BareLoad(b, 70)
  {
    CandidateExists();
    var u: Unit, loose: Encoder :| Candidate(u, loose);
    b, at := u.Image(), u.Layout();
    AmbiguousImage(u, loose, b);
  }

  lemma FaultsOn(b: seq<U8>, at: Layout, c: Call, fuel: nat)
    requires |b| == 98 && LaidOut(Reader(b), |b|, FIRST_WORD, PROFILE, at) && BadCall(c) && fuel >= |b|
    requires Placed(Reader(b), 26, BeforeLoad(), 70, at) && BareLoad(b, 70) && at(ToSource(0)) == 26
    ensures Run(Exec, Processor(b), 0, c.entry, fuel) == Faulted
  {
    FirstWordAccepted();
    FirstMarked(b, at, c);
    FirstPasses(BareBlocks(b, FIRST_WORD, at, c), c);
    AcceptedRunsExactly(b, FIRST_WORD, at, c, fuel);
  }

  lemma FaultyNotClean(b: seq<U8>, c: Call)
    requires Translates(b, FIRST_WORD, PROFILE) && BadCall(c) && Run(Exec, Processor(b), 0, c.entry, |b|) == Faulted
    ensures !Clean(b, 0)
  {
    if Clean(b, 0) {
      FirstWordAccepted();
      AcceptedImageIsSound(b, FIRST_WORD, c, |b|);
    }
  }

  /**
   An image that the validator accepts for an acceptable, admitted source, and a
   valid call on which the processor faults instead of returning a value.
   */
  lemma AcceptedImageCanFault() returns (b: seq<U8>, c: Call)
    ensures Acceptable(FIRST_WORD) && Admitted(FIRST_WORD, PROFILE)
    ensures |b| <= MAX_CODE_IMAGE_BYTES && Translates(b, FIRST_WORD, PROFILE)
    ensures ValidCall(c) && c.input.Profile() == PROFILE
    ensures forall fuel: nat :: fuel >= |b| ==> Run(Exec, Processor(b), 0, c.entry, fuel) == Faulted
    ensures !Clean(b, 0)
  {
    var at: Layout;
    b, at := AmbiguousImageThere();
    c := ExampleCall();
    FirstWordAccepted();
    ExampleIsBad();
    assert Translates(b, FIRST_WORD, PROFILE);
    forall fuel: nat | fuel >= |b|
      ensures Run(Exec, Processor(b), 0, c.entry, fuel) == Faulted
    {
      FaultsOn(b, at, c, fuel);
    }
    FaultyNotClean(b, c);
  }
}
