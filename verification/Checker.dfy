/**
 The raw-byte checker as the validator runs it: a cursor over the image that is
 advanced in place, one pass over the source, and a final pass over the branches.
 */
module Checking {
  import opened Words
  import opened Bpf
  import opened Native
  import opened Lowering
  import opened Soundness
  import opened Verifier
  import SourceContract
  import opened Validator
  import Decoder

  /** The validator's decoder on one image. */
  function Reader(b: seq<U8>): Fetch { (p: nat) => Decoder.Decode(b, p) }

  lemma ReaderAdvances(b: seq<U8>)
    ensures Advances(Reader(b))
  {
    forall p: nat | Reader(b)(p).Some? ensures p < Reader(b)(p).value.1 {
      Decoder.DecodeAdvances(b, p);
    }
  }

  /** The image is the source's lowering, laid out in order with every branch resolved. */
  ghost predicate Translates(b: seq<U8>, source: seq<Instruction>, profile: InputProfile) {
    exists at: Layout :: LaidOut(Reader(b), |b|, source, profile, at)
  }

  /** What a block's scan gives once the first checks are known. */
  function After(checks: seq<TargetCheck>, r: Result<Block, ValidationError>): Result<Block, ValidationError> {
    if r.Err? then r else Ok(Block(r.value.end, checks + r.value.checks))
  }

  lemma AfterNothing(r: Result<Block, ValidationError>)
    ensures After([], r) == r
  {
    if r.Ok? {
      assert [] + r.value.checks == r.value.checks;
    }
  }

  lemma AfterAll(decode: Fetch, p: nat, pc: nat, checks: seq<TargetCheck>)
    ensures After(checks, Scan(decode, p, pc, [])) == Ok(Block(p, checks))
  {
    assert checks + [] == checks;
  }

  lemma ScanStep(decode: Fetch, p: nat, pc: nat, ps: seq<Pattern>, k: nat, checks: seq<TargetCheck>)
    requires k < |ps| && decode(p).Some?
    requires MatchPattern(ps[k], decode(p).value.0, pc, p).Ok?
    ensures After(checks, Scan(decode, p, pc, ps[k..]))
         == After(checks + MatchPattern(ps[k], decode(p).value.0, pc, p).value,
                  Scan(decode, decode(p).value.1, pc, ps[k + 1..]))
  {
    assert ps[k..][1..] == ps[k + 1..];
    var more := MatchPattern(ps[k], decode(p).value.0, pc, p).value;
    var rest := Scan(decode, decode(p).value.1, pc, ps[k + 1..]);
    if rest.Ok? {
      assert checks + (more + rest.value.checks) == checks + more + rest.value.checks;
    }
  }

  class Checker {
    const bytes: seq<U8>
    var position: nat

    constructor (bytes: seq<U8>)
      ensures this.bytes == bytes && position == 0
    {
      this.bytes := bytes;
      position := 0;
    }

    /** Decodes at the cursor and moves past the operation. */
    method Next() returns (r: Result<NativeOp, ValidationError>)
      modifies this
      ensures var d := Reader(bytes)(old(position));
              if d.Some? then r == Ok(d.value.0) && position == d.value.1 else r == Err(NativeDecode(old(position)))
    {
      var d := Decoder.Decode(bytes, position);
      if d.None? {
        return Err(NativeDecode(position));
      }
      position := d.value.1;
      return Ok(d.value.0);
    }

    /** Expects a block at the cursor; the result is the block's scan. */
    method Expect(pc: nat, ps: seq<Pattern>) returns (r: Result<seq<TargetCheck>, ValidationError>)
      modifies this
      ensures var b := Scan(Reader(bytes), old(position), pc, ps);
              if b.Ok? then r == Ok(b.value.checks) && position == b.value.end else r == Err(b.error)
    {
      var checks := [];
      ghost var start := position;
      ghost var decode := Reader(bytes);
      assert ps[0..] == ps;
      AfterNothing(Scan(decode, start, pc, ps));
      for k := 0 to |ps|
        invariant Scan(decode, start, pc, ps) == After(checks, Scan(decode, position, pc, ps[k..]))
      {
        var offset := position;
        var op := Next();
        if op.Err? {
          return Err(op.error);
        }
        var c := MatchPattern(ps[k], op.value, pc, offset);
        if c.Err? {
          return Err(c.error);
        }
        ScanStep(decode, offset, pc, ps, k, checks);
        checks := checks + c.value;
      }
      assert ps[|ps|..] == [];
      AfterAll(decode, position, pc, checks);
      return Ok(checks);
    }
  }

  /** What scanning the blocks gives once the first are known. */
  function Continue(offsets: seq<nat>, checks: seq<TargetCheck>, r: Result<Scanned,
                    ValidationError>): Result<Scanned, ValidationError> {
    if r.Err? then r else Ok(Scanned(offsets + r.value.offsets, r.value.end, checks + r.value.checks))
  }

  lemma ContinueEnds(r: Result<Scanned, ValidationError>, offsets: seq<nat>, checks: seq<TargetCheck>, p: nat)
    ensures Continue([], [], r) == r
    ensures Continue(offsets, checks, Ok(Scanned([], p, []))) == Ok(Scanned(offsets, p, checks))
  {
    if r.Ok? {
      assert [] + r.value.offsets == r.value.offsets && [] + r.value.checks == r.value.checks;
    }
    assert offsets + [] == offsets && checks + [] == checks;
  }

  lemma BlocksStep(decode: Fetch, p: nat, block: nat -> seq<Pattern>, pc: nat, count: nat, offsets: seq<nat>,
                   checks: seq<TargetCheck>)
    requires pc < count && Scan(decode, p, pc, block(pc)).Ok?
    ensures var b := Scan(decode, p, pc, block(pc)).value;
            Continue(offsets, checks, ScanBlocks(decode, p, block, pc, count))
            == Continue(offsets + [p], checks + b.checks, ScanBlocks(decode, b.end, block, pc + 1, count))
  {
    var b := Scan(decode, p, pc, block(pc)).value;
    var rest := ScanBlocks(decode, b.end, block, pc + 1, count);
    if rest.Ok? {
      assert offsets + ([p] + rest.value.offsets) == offsets + [p] + rest.value.offsets;
      assert checks + (b.checks + rest.value.checks) == checks + b.checks + rest.value.checks;
    }
  }

  /** The pass over the source: where each block starts and which branches remain to be checked. */
  method CheckSource(checker: Checker, source: seq<Instruction>, profile: InputProfile)
    returns (r: Result<Scanned, ValidationError>)
    modifies checker
    ensures r == ScanBlocks(Reader(checker.bytes), old(checker.position), BlocksOf(source, profile), 0, |source|)
    ensures r.Ok? ==> checker.position == r.value.end
  {
    var offsets: seq<nat>, checks := [], [];
    ghost var decode, block, start := Reader(checker.bytes), BlocksOf(source, profile), checker.position;
    ContinueEnds(ScanBlocks(decode, start, block, 0, |source|), [], [], 0);
    for pc := 0 to |source|
      invariant |offsets| == pc
      invariant ScanBlocks(decode, start, block, 0, |source|)
             == Continue(offsets, checks, ScanBlocks(decode, checker.position, block, pc, |source|))
    {
      var offset := checker.position;
      var more := checker.Expect(pc, Lower(source[pc], pc, profile));
      if more.Err? {
        return Err(more.error);
      }
      BlocksStep(decode, offset, block, pc, |source|, offsets, checks);
      offsets, checks := offsets + [offset], checks + more.value;
    }
    ContinueEnds(ScanBlocks(decode, start, block, 0, |source|), offsets, checks, checker.position);
    return Ok(Scanned(offsets, checker.position, checks));
  }

  /** The pass over the recorded branches. */
  method CheckTargets(checks: seq<TargetCheck>, offsets: seq<nat>, failure: nat, epilogue: nat)
    returns (r: Option<ValidationError>)
    ensures r == FirstMismatch(checks, |offsets|, LayoutOf(offsets, failure, epilogue))
  {
    ghost var at := LayoutOf(offsets, failure, epilogue);
    for k := 0 to |checks|
      invariant FirstMismatch(checks, |offsets|, at) == FirstMismatch(checks[k..], |offsets|, at)
    {
      var c := checks[k];
      assert checks[k..][0] == c && checks[k..][1..] == checks[k + 1..];
      var expected: nat;
      match c.expected {
        case ToSource(pc) =>
          if pc >= |offsets| {
            return Some(NativeTargetMismatch(c.pc));
          }
          expected := offsets[pc];
        case ToFailure => expected := failure;
        case ToEpilogue => expected := epilogue;
      }
      if c.actual != expected {
        return Some(NativeTargetMismatch(c.pc));
      }
    }
    return None;
  }

  /** The passes after the source contract compute the validator's verdict on the bytes. */
  method CheckBytes(bytes: seq<U8>, source: seq<Instruction>, profile: InputProfile)
    returns (r: Result<seq<nat>, ValidationError>)
    requires |source| > 0
    ensures r == ValidateBytes(Reader(bytes), |bytes|, source, profile)
  {
    var checker := new Checker(bytes);
    var prologue := checker.Expect(0, Prologue(profile));
    if prologue.Err? {
      return Err(prologue.error);
    }
    var scanned := CheckSource(checker, source, profile);
    if scanned.Err? {
      return Err(scanned.error);
    }
    var failure := checker.Expect(0, FailureBlock());
    if failure.Err? {
      return Err(failure.error);
    }
    var epilogueOffset := checker.position;
    var epilogue := checker.Expect(0, Epilogue());
    if epilogue.Err? {
      return Err(epilogue.error);
    }
    if checker.position != |bytes| {
      return Err(NativeTrailingBytes(checker.position));
    }
    var s := scanned.value;
    var wrong := CheckTargets(s.checks + Relabelled(failure.value, |source| - 1), s.offsets, s.end, epilogueOffset);
    if wrong.Some? {
      return Err(wrong.value);
    }
    return Ok(s.offsets);
  }

  lemma AcceptsExactlyTranslations(b: seq<U8>, source: seq<Instruction>, profile: InputProfile)
    requires Closed(source)
    ensures ValidateBytes(Reader(b), |b|, source, profile).Ok? <==> Translates(b, source, profile)
  {
    if ValidateBytes(Reader(b), |b|, source, profile).Ok? {
      ReaderAdvances(b);
      var at := AcceptedIsLaidOut(Reader(b), |b|, source, profile);
      assert LaidOut(Reader(b), |b|, source, profile, at);
    }
    if Translates(b, source, profile) {
      var at: Layout :| LaidOut(Reader(b), |b|, source, profile, at);
      LaidOutIsAccepted(Reader(b), |b|, source, profile, at);
    }
  }

  /** The translation validator: it accepts exactly the bounded translations of acceptable sources. */
  method ValidateTranslationLayout(bytes: seq<U8>, source: seq<Instruction>, profile: InputProfile)
    returns (r: Result<seq<nat>, ValidationError>)
    ensures r.Ok? <==> && |bytes| <= MAX_CODE_IMAGE_BYTES && Acceptable(source) && Admitted(source, profile)
                       && Translates(bytes, source, profile)
    ensures r.Ok? ==> |r.value| == |source| && exists at: Layout ::
                        LaidOut(Reader(bytes), |bytes|, source, profile, at) && OffsetsAt(r.value, 0, at)
    ensures r.Ok? ==> forall at: Layout :: LaidOut(Reader(bytes), |bytes|, source, profile, at) ==>
              OffsetsAt(r.value, 0, at)
    ensures |bytes| > MAX_CODE_IMAGE_BYTES ==> r == Err(ImageTooLarge(|bytes|))
    ensures |bytes| <= MAX_CODE_IMAGE_BYTES && !(Acceptable(source) && Admitted(source, profile)) ==>
              r.Err? && r.error.SourceRejected?
  {
    if |bytes| > MAX_CODE_IMAGE_BYTES {
      return Err(ImageTooLarge(|bytes|));
    }
    var rejected := SourceContract.ValidateSourceContract(source, profile);
    if rejected.Some? {
      return Err(SourceRejected(rejected.value));
    }
    WellFormedClosed(source);
    r := CheckBytes(bytes, source, profile);
    AcceptsExactlyTranslations(bytes, source, profile);
    if r.Ok? {
      ReaderAdvances(bytes);
      var at := AcceptedIsLaidOut(Reader(bytes), |bytes|, source, profile);
      assert LaidOut(Reader(bytes), |bytes|, source, profile, at) && OffsetsAt(r.value, 0, at);
      forall at: Layout | LaidOut(Reader(bytes), |bytes|, source, profile, at) ensures OffsetsAt(r.value, 0, at) {
        LaidOutIsAccepted(Reader(bytes), |bytes|, source, profile, at);
      }
    }
  }
}
