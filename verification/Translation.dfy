/**
 The translator's image of a program as a value: every block at its offset,
 every branch resolved. The validator accepts it, and the processor reads it
 the way the validator does.
 */
module Translation {
  import opened Words
  import opened Bpf
  import opened Native
  import opened Lowering
  import opened Soundness
  import opened Emitter
  import opened Encoding
  import opened Linking
  import opened Checking

  /** The emitted blocks of a program as a value. */
  function EmitsOf(source: seq<Instruction>, profile: InputProfile): nat -> seq<Piece> {
    (pc: nat) => if pc < |source| then Emit(source[pc], pc, profile) else []
  }

  function Flatten(emit: nat -> seq<Piece>, pc: nat, count: nat): seq<Piece>
    requires pc <= count
    decreases count - pc
  {
    if pc == count then [] else emit(pc) + Flatten(emit, pc + 1, count)
  }

  /** Where block `pc` starts when the first one starts at `base`. */
  function OffsetOf(emit: nat -> seq<Piece>, base: nat, pc: nat): nat {
    if pc == 0 then base else OffsetOf(emit, base, pc - 1) + Length(emit(pc - 1))
  }

  lemma {:induction false} FlattenLength(emit: nat -> seq<Piece>, base: nat, pc: nat, count: nat)
    requires pc <= count
    ensures OffsetOf(emit, base, pc) + Length(Flatten(emit, pc, count)) == OffsetOf(emit, base, count)
    decreases count - pc
  {
    if pc < count {
      LengthSum(emit(pc), Flatten(emit, pc + 1, count));
      FlattenLength(emit, base, pc + 1, count);
    }
  }

  /** The rendered blocks lie at their offsets. */
  lemma {:induction false} BlockContained(b: seq<U8>, link: Linker, emit: nat -> seq<Piece>, base: nat, pc: nat,
                                          count: nat, q: nat)
    requires Sized(link) && pc <= q < count
    requires Contains(b, OffsetOf(emit, base, pc), Render(link, Flatten(emit, pc, count), OffsetOf(emit, base, pc)))
    ensures Contains(b, OffsetOf(emit, base, q), Render(link, emit(q), OffsetOf(emit, base, q)))
    decreases count - pc
  {
    var p := OffsetOf(emit, base, pc);
    RenderedParts(b, link, emit(pc), Flatten(emit, pc + 1, count), p);
    if pc < q {
      BlockContained(b, link, emit, base, pc + 1, count, q);
    }
  }

  /** Everything emitted for one program. */
  datatype Unit = Unit(head: seq<Piece>, emit: nat -> seq<Piece>, count: nat, zero: seq<Piece>, tail: seq<Piece>) {
    function Start(pc: nat): nat { OffsetOf(emit, Length(head), pc) }

    /** Where everything ends up. */
    function Layout(): Layout {
      (t: Target) =>
        match t
        case ToSource(pc) => if pc < count then Start(pc) else 0
        case ToFailure => Start(count)
        case ToEpilogue => Start(count) + Length(zero)
    }

    function Size(): nat { Start(count) + Length(zero) + Length(tail) }

    function Blocks(): seq<Piece> { Flatten(emit, 0, count) }

    function Pieces(): seq<Piece> { head + (Blocks() + (zero + tail)) }

    /** The finished bytes. */
    function Image(): seq<U8> { Render(Links(Layout()), Pieces(), 0) }
  }

  function UnitOf(source: seq<Instruction>, profile: InputProfile): Unit {
    Unit(EmitPrologue(profile), EmitsOf(source, profile), |source|, EmitZeroReturn(), EmitEpilogue())
  }

  lemma PiecesLength(u: Unit)
    ensures Length(u.Pieces()) == u.Size()
  {
    FlattenLength(u.emit, Length(u.head), 0, u.count);
    LengthSum(u.zero, u.tail);
    LengthSum(u.Blocks(), u.zero + u.tail);
    LengthSum(u.head, u.Blocks() + (u.zero + u.tail));
  }

  lemma ImageLength(u: Unit)
    ensures |u.Image()| == u.Size()
  {
    LinksSized(u.Layout());
    RenderLength(Links(u.Layout()), u.Pieces(), 0);
    PiecesLength(u);
  }

  /** The parts of an image lie one after the other. */
  lemma ImageParts(u: Unit, link: Linker, b: seq<U8>)
    requires Sized(link) && Contains(b, 0, Render(link, u.Pieces(), 0))
    ensures Contains(b, 0, Render(link, u.head, 0)) && Contains(b, u.Start(0), Render(link, u.Blocks(), u.Start(0)))
    ensures Contains(b, u.Start(u.count), Render(link, u.zero, u.Start(u.count)))
    ensures var e := u.Start(u.count) + Length(u.zero); Contains(b, e, Render(link, u.tail, e))
  {
    FlattenLength(u.emit, Length(u.head), 0, u.count);
    RenderedParts(b, link, u.head, u.Blocks() + (u.zero + u.tail), 0);
    RenderedParts(b, link, u.Blocks(), u.zero + u.tail, u.Start(0));
    RenderedParts(b, link, u.zero, u.tail, u.Start(u.count));
  }

  lemma {:induction false} StartsOrdered(u: Unit, pc: nat, q: nat)
    requires pc <= q
    ensures u.Start(pc) <= u.Start(q)
    decreases q - pc
  {
    if pc < q {
      StartsOrdered(u, pc, q - 1);
    }
  }

  lemma LayoutNear(u: Unit)
    requires u.Size() < 0x8000_0000
    ensures Near(u.Layout(), u.Size())
  {
    forall t ensures u.Layout()(t) <= u.Size() {
      if t.ToSource? && t.pc < u.count {
        StartsOrdered(u, t.pc, u.count);
      }
    }
  }

  /** How emitted instructions are known to encode patterns, passed around as a value. */
  type Encoder = (seq<Piece>, seq<Pattern>) -> bool

  /** Every emitted part encodes what the validator expects there. */
  ghost predicate Expected(u: Unit, source: seq<Instruction>, profile: InputProfile, encodes: Encoder) {
    && u.count == |source|
    && encodes(u.head, Prologue(profile)) && encodes(u.zero, FailureBlock()) && encodes(u.tail, Epilogue())
    && forall pc: nat {:trigger u.emit(pc)} :: pc < |source| ==> encodes(u.emit(pc), Lower(source[pc], pc, profile))
  }

  /** Instruction by instruction, and without ambiguous bytes where that is asked for. */
  ghost function Encodings(means: (Piece, Pattern) -> bool, strict: bool): Encoder {
    (pieces: seq<Piece>, ps: seq<Pattern>) =>
      && |pieces| == |ps| && (forall k :: 0 <= k < |ps| ==> means(pieces[k], ps[k]))
      && (strict ==> NoneBare(pieces))
  }

  lemma EncodingsHold(pieces: seq<Piece>, ps: seq<Pattern>)
    requires EncodesAll(pieces, ps)
    ensures Encodings(ReadsAs, true)(pieces, ps)
  {
    EncodesReads(pieces, ps);
  }

  lemma EmittedExpected(source: seq<Instruction>, profile: InputProfile)
    ensures Expected(UnitOf(source, profile), source, profile, EncodesAll)
  {
    PrologueEncoded(profile);
    FailureEncoded();
    EpilogueEncoded();
    forall pc: nat | pc < |source|
      ensures EncodesAll(UnitOf(source, profile).emit(pc), Lower(source[pc], pc, profile)) {
      EmittedIsExpected(source[pc], pc, profile);
    }
  }

  /** The bytes of the unit, from the start of the image. */
  ghost predicate IsImage(b: seq<U8>, u: Unit) { Contains(b, 0, Render(Links(u.Layout()), u.Pieces(), 0)) }

  /** A part at `p` reads back as expected, and is clean if what follows is. */
  ghost predicate Stands(decode: Fetch, clean: nat -> bool, p: nat, ps: seq<Pattern>, end: nat, at: Layout) {
    Placed(decode, p, ps, end, at) && (clean(end) ==> clean(p))
  }

  predicate Part(p: nat, pieces: seq<Piece>, ps: seq<Pattern>) { true }

  /** Parts of the image read back. */
  ghost predicate ReadsBack(u: Unit, b: seq<U8>, encodes: Encoder, decode: Fetch, clean: nat -> bool) {
    forall p: nat, pieces, ps {:trigger Part(p, pieces, ps)} ::
      && Part(p, pieces, ps) && p + Length(pieces) <= u.Size()
      && encodes(pieces, ps) && Contains(b, p, Render(Links(u.Layout()), pieces, p))
      ==> Stands(decode, clean, p, ps, p + Length(pieces), u.Layout())
  }

  lemma BlockStands(u: Unit, b: seq<U8>, encodes: Encoder, decode: Fetch, clean: nat -> bool, pc: nat, ps: seq<Pattern>)
    requires encodes(u.emit(pc), ps) && IsImage(b, u) && ReadsBack(u, b, encodes, decode, clean) && pc < u.count
    ensures Stands(decode, clean, u.Start(pc), ps, u.Start(pc + 1), u.Layout())
  {
    LinksSized(u.Layout());
    ImageParts(u, Links(u.Layout()), b);
    BlockContained(b, Links(u.Layout()), u.emit, Length(u.head), 0, u.count, pc);
    StartsOrdered(u, pc + 1, u.count);
    assert Part(u.Start(pc), u.emit(pc), ps);
  }

  lemma EndsStand(u: Unit, b: seq<U8>, encodes: Encoder, decode: Fetch, clean: nat -> bool,
                  first: seq<Pattern>, failure: seq<Pattern>, last: seq<Pattern>)
    requires encodes(u.head, first) && encodes(u.zero, failure) && encodes(u.tail, last)
    requires IsImage(b, u) && ReadsBack(u, b, encodes, decode, clean)
    ensures Stands(decode, clean, 0, first, u.Start(0), u.Layout())
    ensures Stands(decode, clean, u.Layout()(ToFailure), failure, u.Layout()(ToEpilogue), u.Layout())
    ensures Stands(decode, clean, u.Layout()(ToEpilogue), last, u.Size(), u.Layout())
  {
    LinksSized(u.Layout());
    ImageParts(u, Links(u.Layout()), b);
    StartsOrdered(u, 0, u.count);
    assert Part(0, u.head, first);
    assert Part(u.Layout()(ToFailure), u.zero, failure);
    assert Part(u.Layout()(ToEpilogue), u.tail, last);
  }

  lemma BlocksLaidOut(u: Unit, source: seq<Instruction>, profile: InputProfile, b: seq<U8>, encodes: Encoder,
                      decode: Fetch, clean: nat -> bool)
    requires Expected(u, source, profile, encodes) && IsImage(b, u) && ReadsBack(u, b, encodes, decode, clean)
    ensures HasBlocks(decode, source, profile, u.Layout())
  {
    var at := u.Layout();
    forall pc: nat {:trigger Position(pc)} | Position(pc) && pc < |source|
      ensures Placed(decode, at(ToSource(pc)), Lower(source[pc], pc, profile), BlockEnd(source, pc, at), at)
    {
      BlockStands(u, b, encodes, decode, clean, pc, Lower(source[pc], pc, profile));
    }
  }

  lemma {:induction false} BlocksClean(u: Unit, source: seq<Instruction>, profile: InputProfile, b: seq<U8>,
                                       encodes: Encoder, decode: Fetch, clean: nat -> bool, pc: nat)
    requires Expected(u, source, profile, encodes) && IsImage(b, u) && ReadsBack(u, b, encodes, decode, clean)
    requires pc <= u.count && clean(u.Start(u.count))
    ensures clean(u.Start(pc))
    decreases u.count - pc
  {
    if pc < u.count {
      BlocksClean(u, source, profile, b, encodes, decode, clean, pc + 1);
      BlockStands(u, b, encodes, decode, clean, pc, Lower(source[pc], pc, profile));
    }
  }

  lemma PartsReadBack(u: Unit, b: seq<U8>, means: (Piece, Pattern) -> bool, strict: bool, decode: Fetch,
                      clean: nat -> bool)
    requires StepsBack(b, Links(u.Layout()), decode, clean, means, u.Layout(), u.Size())
             && (strict || forall p :: clean(p))
    ensures ReadsBack(u, b, Encodings(means, strict), decode, clean)
  {
    LinksSized(u.Layout());
    forall p: nat, pieces, ps {:trigger Part(p, pieces, ps)} |
      && p + Length(pieces) <= u.Size() && Encodings(means, strict)(pieces, ps)
      && Contains(b, p, Render(Links(u.Layout()), pieces, p))
      ensures Stands(decode, clean, p, ps, p + Length(pieces), u.Layout())
    {
      BlockPlaced(b, Links(u.Layout()), decode, clean, means, p, pieces, ps, u.Layout(), u.Size());
    }
  }

  lemma StrongerReadsBack(u: Unit, b: seq<U8>, strong: Encoder, weak: Encoder, decode: Fetch, clean: nat -> bool)
    requires ReadsBack(u, b, weak, decode, clean) && forall pieces, ps :: strong(pieces, ps) ==> weak(pieces, ps)
    ensures ReadsBack(u, b, strong, decode, clean)
  {
  }

  lemma ImageReadsBack(u: Unit, b: seq<U8>)
    requires u.Size() < 0x8000_0000
    ensures ReadsBack(u, b, EncodesAll, Reader(b), (p: nat) => Clean(b, p))
  {
    LayoutNear(u);
    LinkedSteps(b, u.Layout(), u.Size());
    PartsReadBack(u, b, ReadsAs, true, Reader(b), (p: nat) => Clean(b, p));
    forall pieces, ps | EncodesAll(pieces, ps) ensures Encodings(ReadsAs, true)(pieces, ps) {
      EncodingsHold(pieces, ps);
    }
    StrongerReadsBack(u, b, EncodesAll, Encodings(ReadsAs, true), Reader(b), (p: nat) => Clean(b, p));
  }

  lemma UnitLaidOut(u: Unit, source: seq<Instruction>, profile: InputProfile, b: seq<U8>, encodes: Encoder,
                    decode: Fetch, clean: nat -> bool)
    requires Expected(u, source, profile, encodes) && IsImage(b, u) && ReadsBack(u, b, encodes, decode, clean)
    requires clean(u.Size()) && |source| > 0
    ensures LaidOut(decode, u.Size(), source, profile, u.Layout()) && clean(0)
  {
    EndsStand(u, b, encodes, decode, clean, Prologue(profile), FailureBlock(), Epilogue());
    BlocksLaidOut(u, source, profile, b, encodes, decode, clean);
    BlocksClean(u, source, profile, b, encodes, decode, clean, 0);
  }

  lemma ExpectedLaidOut(u: Unit, source: seq<Instruction>, profile: InputProfile, encodes: Encoder, decode: Fetch,
                        clean: nat -> bool)
    requires Expected(u, source, profile, encodes) && |source| > 0 && ReadsBack(u, u.Image(), encodes, decode, clean)
             && clean(u.Size())
    ensures LaidOut(decode, u.Size(), source, profile, u.Layout()) && clean(0)
  {
    assert Contains(u.Image(), 0, u.Image());
    UnitLaidOut(u, source, profile, u.Image(), encodes, decode, clean);
  }

  /** The image of a program is a correct layout of it, without ambiguous bytes. */
  lemma ImageLaidOut(source: seq<Instruction>, profile: InputProfile)
    requires |source| > 0 && UnitOf(source, profile).Size() < 0x8000_0000
    ensures var u := UnitOf(source, profile);
            LaidOut(Reader(u.Image()), u.Size(), source, profile, u.Layout()) && Clean(u.Image(), 0)
  {
    var u := UnitOf(source, profile);
    EmittedExpected(source, profile);
    CleanImageLaidOut(u, source, profile);
  }

  lemma CleanImageLaidOut(u: Unit, source: seq<Instruction>, profile: InputProfile)
    requires Expected(u, source, profile, EncodesAll) && |source| > 0 && u.Size() < 0x8000_0000
    ensures LaidOut(Reader(u.Image()), u.Size(), source, profile, u.Layout()) && Clean(u.Image(), 0)
  {
    ImageReadsBack(u, u.Image());
    ImageLength(u);
    ExpectedLaidOut(u, source, profile, EncodesAll, Reader(u.Image()), (p: nat) => Clean(u.Image(), p));
  }
}
