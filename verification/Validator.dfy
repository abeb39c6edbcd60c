/**
 The translation validator: it decodes raw bytes with its own table, compares
 them operation by operation with the lowering of the source, and checks every
 branch against the blocks it found. It trusts no metadata of the emitter.
 */
module Validator {
  import opened Words
  import opened Bpf
  import opened Native
  import opened Lowering
  import opened Soundness
  import opened Verifier
  import Decoder

  const MAX_CODE_IMAGE_BYTES: nat := 262144

  datatype ValidationError =
    | SourceRejected(error: VerifyError)
    | ImageTooLarge(size: nat)
    | NativeDecode(offset: nat)
    | NativeSemanticMismatch(pc: nat, offset: nat)
    | NativeTargetMismatch(pc: nat)
    | NativeTrailingBytes(offset: nat)

  /** A branch met while decoding: where it goes and where it should go. */
  datatype TargetCheck = TargetCheck(pc: nat, actual: nat, expected: Target)

  // ----- scanning a block -----

  /** The decoded operation against one pattern: nothing, a target to check, or a mismatch. */
  function MatchPattern(p: Pattern, op: NativeOp, pc: nat, offset: nat): Result<seq<TargetCheck>, ValidationError> {
    match p
    case Exact(o) => if op == o then Ok([]) else Err(NativeSemanticMismatch(pc, offset))
    case Branch(c, t) =>
      if op.ConditionalJump? && op.condition == c then Ok([TargetCheck(pc, op.target, t)])
      else Err(NativeSemanticMismatch(pc, offset))
    case Goto(t) =>
      if op.DirectJump? then Ok([TargetCheck(pc, op.target, t)]) else Err(NativeSemanticMismatch(pc, offset))
  }

  datatype Block = Block(end: nat, checks: seq<TargetCheck>)

  /** Decodes and compares a whole block from `p`. */
  function Scan(decode: Fetch, p: nat, pc: nat, ps: seq<Pattern>): Result<Block, ValidationError>
    decreases |ps|
  {
    if ps == [] then Ok(Block(p, []))
    else
      match decode(p)
      case None => Err(NativeDecode(p))
      case Some((op, q)) =>
        match MatchPattern(ps[0], op, pc, p)
        case Err(e) => Err(e)
        case Ok(cs) =>
          match Scan(decode, q, pc, ps[1..])
          case Err(e) => Err(e)
          case Ok(b) => Ok(Block(b.end, cs + b.checks))
  }

  predicate Resolved(checks: seq<TargetCheck>, at: Layout) {
    forall k :: 0 <= k < |checks| ==> checks[k].actual == at(checks[k].expected)
  }

  /** Decoding moves forward. */
  ghost predicate Advances(decode: Fetch) {
    forall p: nat :: decode(p).Some? ==> p < decode(p).value.1
  }

  predicate Straight(ps: seq<Pattern>) {
    forall k :: 0 <= k < |ps| && ps[k].Exact? ==> !ps[k].op.ConditionalJump? && !ps[k].op.DirectJump?
  }

  /** A block that scans with its targets resolved is placed. */
  lemma {:induction false} ScannedIsPlaced(decode: Fetch, p: nat, pc: nat, ps: seq<Pattern>, at: Layout)
    requires Advances(decode) && Straight(ps) && Scan(decode, p, pc, ps).Ok?
    requires Resolved(Scan(decode, p, pc, ps).value.checks, at)
    ensures Placed(decode, p, ps, Scan(decode, p, pc, ps).value.end, at)
    decreases |ps|
  {
    if ps != [] {
      var op, q := decode(p).value.0, decode(p).value.1;
      var cs := MatchPattern(ps[0], op, pc, p).value;
      var b := Scan(decode, q, pc, ps[1..]).value;
      assert Resolved(cs, at) && Resolved(b.checks, at) by {
        assert forall k :: 0 <= k < |cs| ==> (cs + b.checks)[k] == cs[k];
        assert forall k :: 0 <= k < |b.checks| ==> (cs + b.checks)[|cs| + k] == b.checks[k];
      }
      assert forall k :: 0 <= k < |ps[1..]| ==> ps[1..][k] == ps[k + 1];
      ScannedIsPlaced(decode, q, pc, ps[1..], at);
      assert Realises(ps[0], op, at) by {
        if !ps[0].Exact? {
          assert cs[0].actual == at(cs[0].expected);
        }
      }
    }
  }

  /** A placed block scans, and its targets are where the layout says. */
  lemma {:induction false} PlacedScans(decode: Fetch, p: nat, pc: nat, ps: seq<Pattern>, end: nat, at: Layout)
    requires Placed(decode, p, ps, end, at)
    ensures Scan(decode, p, pc, ps).Ok? && Scan(decode, p, pc, ps).value.end == end
    ensures Resolved(Scan(decode, p, pc, ps).value.checks, at)
    decreases |ps|
  {
    if ps != [] {
      PlacedScans(decode, decode(p).value.1, pc, ps[1..], end, at);
    }
  }

  // ----- scanning an image -----

  datatype Scanned = Scanned(offsets: seq<nat>, end: nat, checks: seq<TargetCheck>)

  /** The blocks of a program as a value. */
  function BlocksOf(source: seq<Instruction>, profile: InputProfile): nat -> seq<Pattern> {
    (pc: nat) => if pc < |source| then Lower(source[pc], pc, profile) else []
  }

  /** Scans the blocks from `pc` up to `count`. */
  function ScanBlocks(decode: Fetch, p: nat, block: nat -> seq<Pattern>, pc: nat,
                      count: nat): (r: Result<Scanned, ValidationError>)
    requires pc <= count
    ensures r.Ok? ==> |r.value.offsets| == count - pc
    decreases count - pc
  {
    if pc == count then Ok(Scanned([], p, []))
    else
      match Scan(decode, p, pc, block(pc))
      case Err(e) => Err(e)
      case Ok(b) => Prepend([p], b.checks, ScanBlocks(decode, b.end, block, pc + 1, count))
  }

  function Prepend(offsets: seq<nat>, checks: seq<TargetCheck>, r: Result<Scanned,
                   ValidationError>): Result<Scanned, ValidationError> {
    match r
    case Err(e) => Err(e)
    case Ok(s) => Ok(Scanned(offsets + s.offsets, s.end, checks + s.checks))
  }

  /** The layout found while scanning. */
  function LayoutOf(offsets: seq<nat>, failure: nat, epilogue: nat): Layout {
    (t: Target) =>
      match t
      case ToSource(pc) => if pc < |offsets| then offsets[pc] else 0
      case ToFailure => failure
      case ToEpilogue => epilogue
  }

  /** The first branch that does not go where it should. */
  function FirstMismatch(checks: seq<TargetCheck>, count: nat, at: Layout): Option<ValidationError> {
    if checks == [] then None
    else
      var c := checks[0];
      if (c.expected.ToSource? && c.expected.pc >= count) || c.actual != at(c.expected)
      then Some(NativeTargetMismatch(c.pc))
      else FirstMismatch(checks[1..], count, at)
  }

  /** The failure block's branch is reported against the last instruction. */
  function Relabelled(checks: seq<TargetCheck>, pc: nat): seq<TargetCheck> {
    seq(|checks|, k requires 0 <= k < |checks| => checks[k].(pc := pc))
  }

  /** Everything after the source contract. */
  function ValidateBytes(decode: Fetch, size: nat, source: seq<Instruction>,
                         profile: InputProfile): (r: Result<seq<nat>, ValidationError>)
    requires |source| > 0
    ensures r.Ok? ==> |r.value| == |source|
  {
    match Scan(decode, 0, 0, Prologue(profile))
    case Err(e) => Err(e)
    case Ok(prologue) =>
      match ScanBlocks(decode, prologue.end, BlocksOf(source, profile), 0, |source|)
      case Err(e) => Err(e)
      case Ok(s) =>
        match Scan(decode, s.end, 0, FailureBlock())
        case Err(e) => Err(e)
        case Ok(failure) =>
          match Scan(decode, failure.end, 0, Epilogue())
          case Err(e) => Err(e)
          case Ok(epilogue) =>
            if epilogue.end != size then Err(NativeTrailingBytes(epilogue.end))
            else
              match FirstMismatch(s.checks + Relabelled(failure.checks, |source| - 1), |source|,
                                  LayoutOf(s.offsets, s.end, failure.end))
              case Some(e) => Err(e)
              case None => Ok(s.offsets)
  }

  // ----- acceptance means a correct layout, and a correct layout is accepted -----

  /** Branches to instructions stay inside the program. */
  predicate InProgram(checks: seq<TargetCheck>, count: nat) {
    forall k :: 0 <= k < |checks| && checks[k].expected.ToSource? ==> checks[k].expected.pc < count
  }

  /** The target loop passes exactly when every branch goes to the place its target has. */
  lemma {:induction false} NoMismatch(checks: seq<TargetCheck>, count: nat, at: Layout)
    ensures FirstMismatch(checks, count, at).None? <==> InProgram(checks, count) && Resolved(checks, at)
    decreases |checks|
  {
    if checks != [] {
      assert checks == [checks[0]] + checks[1..];
      assert forall k :: 0 <= k < |checks[1..]| ==> checks[1..][k] == checks[k + 1];
      NoMismatch(checks[1..], count, at);
    }
  }

  lemma ResolvedParts(a: seq<TargetCheck>, b: seq<TargetCheck>, at: Layout)
    ensures Resolved(a + b, at) <==> Resolved(a, at) && Resolved(b, at)
  {
    assert forall k :: 0 <= k < |a| ==> (a + b)[k] == a[k];
    assert forall k :: 0 <= k < |b| ==> (a + b)[|a| + k] == b[k];
  }

  function EndOf(pc: nat, count: nat, at: Layout): nat {
    if pc + 1 < count then at(ToSource(pc + 1)) else at(ToFailure)
  }

  predicate OffsetsAt(offsets: seq<nat>, pc: nat, at: Layout) {
    forall j :: 0 <= j < |offsets| ==> offsets[j] == at(ToSource(pc + j))
  }

  /** What scanning from `pc` gives when the blocks lie as `at` says. */
  predicate ScansTo(r: Result<Scanned, ValidationError>, pc: nat, at: Layout) {
    r.Ok? && r.value.end == at(ToFailure) && Resolved(r.value.checks, at) && OffsetsAt(r.value.offsets, pc, at)
  }

  lemma PrependScans(p: nat, checks: seq<TargetCheck>, r: Result<Scanned, ValidationError>, pc: nat, at: Layout)
    requires ScansTo(r, pc + 1, at) && p == at(ToSource(pc)) && Resolved(checks, at)
    ensures ScansTo(Prepend([p], checks, r), pc, at)
  {
    ResolvedParts(checks, r.value.checks, at);
  }

  lemma PrependParts(p: nat, checks: seq<TargetCheck>, r: Result<Scanned, ValidationError>, pc: nat, at: Layout)
    requires ScansTo(Prepend([p], checks, r), pc, at)
    ensures ScansTo(r, pc + 1, at) && p == at(ToSource(pc)) && Resolved(checks, at)
  {
    ResolvedParts(checks, r.value.checks, at);
    var offsets := [p] + r.value.offsets;
    assert offsets[0] == p;
    assert forall j :: 0 <= j < |r.value.offsets| ==> r.value.offsets[j] == offsets[j + 1];
  }

  /** Scanned blocks with resolved targets are placed one after the other. */
  lemma {:induction false} BlocksPlaced(decode: Fetch, p: nat, block: nat -> seq<Pattern>, pc: nat, count: nat,
                                        at: Layout, q: nat)
    requires Advances(decode) && pc <= q < count
    requires forall k: nat :: k < count ==> Straight(block(k))
    requires ScansTo(ScanBlocks(decode, p, block, pc, count), pc, at)
    ensures p == at(ToSource(pc))
    ensures Placed(decode, at(ToSource(q)), block(q), EndOf(q, count, at), at)
    decreases count - pc
  {
    var b := Scan(decode, p, pc, block(pc)).value;
    PrependParts(p, b.checks, ScanBlocks(decode, b.end, block, pc + 1, count), pc, at);
    if pc + 1 < count {
      BlocksPlaced(decode, b.end, block, pc + 1, count, at, if q == pc then pc + 1 else q);
    }
    if q == pc {
      ScannedIsPlaced(decode, p, pc, block(pc), at);
    }
  }

  /** Placed blocks scan to their offsets. */
  lemma {:induction false} BlocksScan(decode: Fetch, block: nat -> seq<Pattern>, pc: nat, count: nat, at: Layout)
    requires pc < count
    requires forall q :: pc <= q < count ==> Placed(decode, at(ToSource(q)), block(q), EndOf(q, count, at), at)
    ensures ScansTo(ScanBlocks(decode, at(ToSource(pc)), block, pc, count), pc, at)
    decreases count - pc
  {
    PlacedScans(decode, at(ToSource(pc)), pc, block(pc), EndOf(pc, count, at), at);
    var b := Scan(decode, at(ToSource(pc)), pc, block(pc)).value;
    if pc + 1 < count {
      BlocksScan(decode, block, pc + 1, count, at);
    }
    PrependScans(at(ToSource(pc)), b.checks, ScanBlocks(decode, b.end, block, pc + 1, count), pc, at);
  }

  predicate TargetsInside(ps: seq<Pattern>, count: nat) {
    forall k :: 0 <= k < |ps| && !ps[k].Exact? && ps[k].target.ToSource? ==> ps[k].target.pc < count
  }

  lemma {:induction false} ScanInProgram(decode: Fetch, p: nat, pc: nat, ps: seq<Pattern>, count: nat)
    requires TargetsInside(ps, count) && Scan(decode, p, pc, ps).Ok?
    ensures InProgram(Scan(decode, p, pc, ps).value.checks, count)
    decreases |ps|
  {
    if ps != [] {
      ScanInProgram(decode, decode(p).value.1, pc, ps[1..], count);
    }
  }

  lemma {:induction false} BlocksInProgram(decode: Fetch, p: nat, block: nat -> seq<Pattern>, pc: nat, count: nat)
    requires pc <= count && ScanBlocks(decode, p, block, pc, count).Ok?
    requires forall k: nat :: k < count ==> TargetsInside(block(k), count)
    ensures InProgram(ScanBlocks(decode, p, block, pc, count).value.checks, count)
    decreases count - pc
  {
    if pc < count {
      ScanInProgram(decode, p, pc, block(pc), count);
      BlocksInProgram(decode, Scan(decode, p, pc, block(pc)).value.end, block, pc + 1, count);
    }
  }

  lemma LowerInside(source: seq<Instruction>, profile: InputProfile, pc: nat)
    requires Closed(source) && pc < |source|
    ensures TargetsInside(Lower(source[pc], pc, profile), |source|)
  {
    var ps := Lower(source[pc], pc, profile);
    LowerConfined(source[pc], pc, profile);
    forall k | 0 <= k < |ps| && !ps[k].Exact? && ps[k].target.ToSource?
      ensures ps[k].target.pc < |source|
    {
      assert ps[k].target in TargetsOf(source[pc], pc);
    }
  }

  lemma ConfinedIsStraight(ps: seq<Pattern>, targets: set<Target>)
    requires Confined(ps, targets)
    ensures Straight(ps)
  {
  }

  lemma BlocksStraight(source: seq<Instruction>, profile: InputProfile, pc: nat)
    requires pc < |source|
    ensures Straight(BlocksOf(source, profile)(pc))
  {
    LowerConfined(source[pc], pc, profile);
    ConfinedIsStraight(Lower(source[pc], pc, profile), TargetsOf(source[pc], pc));
  }

  lemma TailStraight()
    ensures Straight(FailureBlock()) && Straight(Epilogue())
  {
  }

  /** A layout that reports the scanned offsets places the tail as well. */
  lemma TailPlaced(decode: Fetch, p: nat, q: nat, limit: nat, pc: nat, at: Layout)
    requires Advances(decode) && at(ToFailure) == p && at(ToEpilogue) == q
    requires Scan(decode, p, 0, FailureBlock()).Ok? && Scan(decode, p, 0, FailureBlock()).value.end == q
    requires Scan(decode, q, 0, Epilogue()).Ok? && Scan(decode, q, 0, Epilogue()).value.end == limit
    requires Resolved(Scan(decode, p, 0, FailureBlock()).value.checks, at)
    ensures HasTail(decode, limit, at)
  {
    TailStraight();
    ScannedIsPlaced(decode, p, 0, FailureBlock(), at);
    EpilogueUnchecked(decode, q);
    ScannedIsPlaced(decode, q, 0, Epilogue(), at);
  }

  /** Blocks without branches leave nothing to check. */
  lemma {:induction false} ScanUnchecked(decode: Fetch, p: nat, pc: nat, ps: seq<Pattern>)
    requires forall k :: 0 <= k < |ps| ==> ps[k].Exact?
    requires Scan(decode, p, pc, ps).Ok?
    ensures Scan(decode, p, pc, ps).value.checks == []
    decreases |ps|
  {
    if ps != [] {
      ScanUnchecked(decode, decode(p).value.1, pc, ps[1..]);
    }
  }

  lemma EpilogueUnchecked(decode: Fetch, p: nat)
    requires Scan(decode, p, 0, Epilogue()).Ok?
    ensures Scan(decode, p, 0, Epilogue()).value.checks == []
  {
    ScanUnchecked(decode, p, 0, Epilogue());
  }

  lemma PrologueUnchecked(decode: Fetch, profile: InputProfile)
    requires Scan(decode, 0, 0, Prologue(profile)).Ok?
    ensures Scan(decode, 0, 0, Prologue(profile)).value.checks == []
  {
    ScanUnchecked(decode, 0, 0, Prologue(profile));
  }

  lemma RelabelledResolved(checks: seq<TargetCheck>, pc: nat, count: nat, at: Layout)
    ensures Resolved(Relabelled(checks, pc), at) <==> Resolved(checks, at)
    ensures InProgram(Relabelled(checks, pc), count) <==> InProgram(checks, count)
  {
    var r := Relabelled(checks, pc);
    assert forall k :: 0 <= k < |checks| ==> r[k].actual == checks[k].actual && r[k].expected == checks[k].expected;
  }

  lemma PrologueStraight(profile: InputProfile)
    ensures Straight(Prologue(profile))
  {
    PrologueConfined(profile);
  }

  /** The blocks of an accepted image are where the validator found them. */
  lemma BlocksFound(decode: Fetch, p: nat, source: seq<Instruction>, profile: InputProfile, at: Layout)
    requires Advances(decode) && |source| > 0
    requires ScansTo(ScanBlocks(decode, p, BlocksOf(source, profile), 0, |source|), 0, at)
    ensures HasBlocks(decode, source, profile, at) && p == at(ToSource(0))
  {
    var block := BlocksOf(source, profile);
    forall k: nat | k < |source| ensures Straight(block(k)) {
      BlocksStraight(source, profile, k);
    }
    forall pc: nat {:trigger Position(pc)} | Position(pc) && pc < |source|
      ensures Placed(decode, at(ToSource(pc)), Lower(source[pc], pc, profile), BlockEnd(source, pc, at), at)
    {
      BlocksPlaced(decode, p, block, 0, |source|, at, pc);
    }
    BlocksPlaced(decode, p, block, 0, |source|, at, 0);
  }

  /** What the validator accepts is a correct layout of the source. */
  lemma AcceptedIsLaidOut(decode: Fetch, size: nat, source: seq<Instruction>, profile: InputProfile)
    returns (at: Layout)
    requires Advances(decode) && |source| > 0 && ValidateBytes(decode, size, source, profile).Ok?
    ensures LaidOut(decode, size, source, profile, at)
    ensures OffsetsAt(ValidateBytes(decode, size, source, profile).value, 0, at)
  {
    var prologue := Scan(decode, 0, 0, Prologue(profile)).value;
    var s := ScanBlocks(decode, prologue.end, BlocksOf(source, profile), 0, |source|).value;
    var failure := Scan(decode, s.end, 0, FailureBlock()).value;
    at := LayoutOf(s.offsets, s.end, failure.end);
    var checks := s.checks + Relabelled(failure.checks, |source| - 1);
    NoMismatch(checks, |source|, at);
    ResolvedParts(s.checks, Relabelled(failure.checks, |source| - 1), at);
    RelabelledResolved(failure.checks, |source| - 1, |source|, at);
    TailPlaced(decode, s.end, failure.end, size, 0, at);
    BlocksFound(decode, prologue.end, source, profile, at);
    PrologueStraight(profile);
    PrologueUnchecked(decode, profile);
    ScannedIsPlaced(decode, 0, 0, Prologue(profile), at);
  }

  /** Two layouts that agree inside the program resolve the same branches. */
  lemma SameResolved(checks: seq<TargetCheck>, count: nat, a: Layout, b: Layout)
    requires InProgram(checks, count) && Resolved(checks, a)
    requires forall pc :: 0 <= pc < count ==> a(ToSource(pc)) == b(ToSource(pc))
    requires a(ToFailure) == b(ToFailure) && a(ToEpilogue) == b(ToEpilogue)
    ensures Resolved(checks, b)
  {
    forall k | 0 <= k < |checks| ensures checks[k].actual == b(checks[k].expected) {
      var t := checks[k].expected;
      assert t.ToSource? ==> t == ToSource(t.pc);
    }
  }

  lemma BlocksFoundAgain(decode: Fetch, source: seq<Instruction>, profile: InputProfile, at: Layout)
    requires HasBlocks(decode, source, profile, at) && Closed(source)
    ensures ScansTo(ScanBlocks(decode, at(ToSource(0)), BlocksOf(source, profile), 0, |source|), 0, at)
    ensures InProgram(ScanBlocks(decode, at(ToSource(0)), BlocksOf(source, profile), 0, |source|).value.checks,
                      |source|)
  {
    var block := BlocksOf(source, profile);
    forall q: nat | q < |source|
      ensures Placed(decode, at(ToSource(q)), block(q), EndOf(q, |source|, at), at)
    {
      assert Position(q);
    }
    BlocksScan(decode, block, 0, |source|, at);
    forall k: nat | k < |source| ensures TargetsInside(block(k), |source|) {
      LowerInside(source, profile, k);
    }
    BlocksInProgram(decode, at(ToSource(0)), block, 0, |source|);
  }

  /** The target loop passes on a scan that followed `at`. */
  lemma TargetsPass(s: Scanned, failure: Block, count: nat, at: Layout)
    requires count > 0 && |s.offsets| == count && OffsetsAt(s.offsets, 0, at)
    requires s.end == at(ToFailure) && failure.end == at(ToEpilogue)
    requires InProgram(s.checks, count) && Resolved(s.checks, at)
    requires InProgram(failure.checks, count) && Resolved(failure.checks, at)
    ensures FirstMismatch(s.checks + Relabelled(failure.checks, count - 1), count,
                          LayoutOf(s.offsets, s.end, failure.end)).None?
  {
    var tail := Relabelled(failure.checks, count - 1);
    RelabelledResolved(failure.checks, count - 1, count, at);
    ResolvedParts(s.checks, tail, at);
    assert InProgram(s.checks + tail, count);
    var found := LayoutOf(s.offsets, s.end, failure.end);
    assert forall pc :: 0 <= pc < count ==> found(ToSource(pc)) == s.offsets[pc];
    SameResolved(s.checks + tail, count, at, found);
    NoMismatch(s.checks + tail, count, found);
  }

  lemma FailureFound(decode: Fetch, p: nat, end: nat, at: Layout, count: nat)
    requires Placed(decode, p, FailureBlock(), end, at)
    ensures var failure := Scan(decode, p, 0, FailureBlock());
            failure.Ok? && failure.value.end == end && Resolved(failure.value.checks, at)
              && InProgram(failure.value.checks, count)
  {
    PlacedScans(decode, p, 0, FailureBlock(), end, at);
    ScanInProgram(decode, p, 0, FailureBlock(), count);
  }

  lemma TailThere(decode: Fetch, size: nat, at: Layout)
    requires HasTail(decode, size, at)
    ensures Placed(decode, at(ToFailure), FailureBlock(), at(ToEpilogue), at)
    ensures Placed(decode, at(ToEpilogue), Epilogue(), size, at)
  {
    assert Position(0);
  }

  /** A correct layout of a closed program is accepted, and its offsets are reported. */
  lemma LaidOutIsAccepted(decode: Fetch, size: nat, source: seq<Instruction>, profile: InputProfile, at: Layout)
    requires Closed(source) && LaidOut(decode, size, source, profile, at)
    ensures ValidateBytes(decode, size, source, profile).Ok?
    ensures OffsetsAt(ValidateBytes(decode, size, source, profile).value, 0, at)
  {
    PlacedScans(decode, 0, 0, Prologue(profile), at(ToSource(0)), at);
    BlocksFoundAgain(decode, source, profile, at);
    TailThere(decode, size, at);
    FailureFound(decode, at(ToFailure), at(ToEpilogue), at, |source|);
    PlacedScans(decode, at(ToEpilogue), 0, Epilogue(), size, at);
    var s := ScanBlocks(decode, at(ToSource(0)), BlocksOf(source, profile), 0, |source|).value;
    TargetsPass(s, Scan(decode, s.end, 0, FailureBlock()).value, |source|, at);
  }
}
