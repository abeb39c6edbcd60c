/**
 The translator: source checks, emission, patching, the size limit, and the
 final validation of its own image with all of its metadata.
 */
module Translator {
  import opened Words
  import opened Bpf
  import opened Lowering
  import opened Emitter
  import opened Linking
  import opened Translation
  import opened Assembly
  import opened Validator
  import opened Encoding
  import opened Soundness

  datatype InstructionMap = InstructionMap(pc: nat, offset: nat, len: nat)

  function EntryOf(u: Unit, pc: nat): InstructionMap { InstructionMap(pc, u.Start(pc), Length(u.emit(pc))) }

  function MapOf(u: Unit, count: nat): seq<InstructionMap> {
    seq(count, pc requires 0 <= pc < count => EntryOf(u, pc))
  }

  function OffsetsOf(u: Unit, count: nat): seq<nat> { seq(count, pc requires 0 <= pc < count => u.Start(pc)) }

  /** Block boundaries: every block start, the end of the last block, the end of the image. */
  function BoundariesOf(u: Unit): seq<nat> { OffsetsOf(u, u.count + 1) + [u.Size()] }

  /** The branch sites of a program's blocks as a value. */
  function SitesIn(source: seq<Instruction>): (nat, nat) -> seq<BranchSite> {
    (pc: nat, start: nat) => if pc < |source| then SiteOf(source[pc], pc, start) else []
  }

  /** The branch sites of the first `pc` instructions. */
  function SitesOf(u: Unit, site: (nat, nat) -> seq<BranchSite>, pc: nat): seq<BranchSite> {
    if pc == 0 then [] else SitesOf(u, site, pc - 1) + site(pc - 1, u.Start(pc - 1))
  }

  lemma {:induction false} FlattenMore(emit: nat -> seq<Piece>, from: nat, pc: nat)
    requires from <= pc
    ensures Flatten(emit, from, pc + 1) == Flatten(emit, from, pc) + emit(pc)
    decreases pc - from
  {
    if from < pc {
      FlattenMore(emit, from + 1, pc);
      Associative(emit(from), Flatten(emit, from + 1, pc), emit(pc));
    } else {
      assert Flatten(emit, pc, pc + 1) == emit(pc) + [] == emit(pc) == [] + emit(pc);
    }
  }

  /** Emitting one more part after what was emitted so far. */
  lemma EmittedMore(ps: seq<Piece>, qs: seq<Piece>)
    ensures Render(Unlinked(), ps + qs, 0) == Render(Unlinked(), ps, 0) +
            Render(Unlinked(), qs, |Render(Unlinked(), ps, 0)|)
    ensures PatchesOf(ps + qs, 0) == PatchesOf(ps, 0) + PatchesOf(qs, |Render(Unlinked(), ps, 0)|)
    ensures |Render(Unlinked(), ps, 0)| == Length(ps)
  {
    UnlinkedSized();
    RenderLength(Unlinked(), ps, 0);
    RenderSum(Unlinked(), ps, qs, 0);
    PatchesSum(ps, qs, 0);
  }

  /** What the assembler holds after emitting `ps` and the branch sites. */
  ghost predicate HasEmitted(a: Assembler, ps: seq<Piece>)
    reads a
  {
    a.bytes == Render(Unlinked(), ps, 0) && a.patches == PatchesOf(ps, 0) && |a.bytes| == Length(ps)
  }

  /** The unit and the sites are those of the program; unfolded one block at a time. */
  ghost predicate IsProgram(u: Unit, site: (nat, nat) -> seq<BranchSite>, source: seq<Instruction>,
                            profile: InputProfile) {
    && u.count == |source|
    && forall pc: nat {:trigger Unhide(pc)} :: Unhide(pc) ==>
         u.emit == EmitsOf(source, profile) && site == SitesIn(source)
  }

  lemma MapMore(u: Unit, pc: nat)
    ensures MapOf(u, pc + 1) == MapOf(u, pc) + [InstructionMap(pc, u.Start(pc), u.Start(pc + 1) - u.Start(pc))]
    ensures OffsetsOf(u, pc + 2) == OffsetsOf(u, pc + 1) + [u.Start(pc + 1)]
  {
    assert u.Start(pc + 1) - u.Start(pc) == Length(u.emit(pc));
  }

  /** Appends a part after what was emitted so far. */
  method AppendPart(a: Assembler, ps: seq<Piece>, ghost done: seq<Piece>)
    requires HasEmitted(a, done)
    modifies a`bytes, a`patches
    ensures HasEmitted(a, done + ps)
  {
    EmittedMore(done, ps);
    EmittedMore(done + ps, []);
    a.AppendAll(ps);
  }

  /** Emits the block of one instruction after those before it. */
  method EmitBlock(a: Assembler, source: seq<Instruction>, pc: nat, profile: InputProfile,
                   ghost u: Unit, ghost site: (nat, nat) -> seq<BranchSite>)
    requires IsProgram(u, site, source, profile) && pc < |source|
    requires HasEmitted(a, u.head + Flatten(u.emit, 0, pc)) && |a.bytes| == u.Start(pc)
    modifies a
    ensures HasEmitted(a, u.head + Flatten(u.emit, 0, pc + 1)) && |a.bytes| == u.Start(pc + 1)
    ensures a.branches == old(a.branches) + site(pc, u.Start(pc))
  {
    BlockMore(u, pc);
    assert Unhide(pc);
    a.EmitInstruction(pc, source[pc], profile);
  }

  method EmitBlocks(a: Assembler, source: seq<Instruction>, profile: InputProfile, ghost u: Unit,
                    ghost site: (nat, nat) -> seq<BranchSite>)
    returns (table: seq<InstructionMap>, boundaries: seq<nat>)
    requires IsProgram(u, site, source, profile)
    requires HasEmitted(a, u.head) && a.branches == []
    modifies a
    ensures HasEmitted(a, u.head + u.Blocks()) && a.branches == SitesOf(u, site, u.count)
    ensures table == MapOf(u, u.count) && boundaries == OffsetsOf(u, u.count + 1)
  {
    table, boundaries := [], [|a.bytes|];
    assert u.head + Flatten(u.emit, 0, 0) == u.head;
    for pc := 0 to |source|
      invariant HasEmitted(a, u.head + Flatten(u.emit, 0, pc)) && |a.bytes| == u.Start(pc)
      invariant a.branches == SitesOf(u, site, pc)
      invariant table == MapOf(u, pc) && boundaries == OffsetsOf(u, pc + 1)
    {
      MapMore(u, pc);
      var start := |a.bytes|;
      EmitBlock(a, source, pc, profile, u, site);
      var end := |a.bytes|;
      boundaries := boundaries + [end];
      table := table + [InstructionMap(pc, start, end - start)];
    }
  }

  lemma BlockMore(u: Unit, pc: nat)
    ensures var done := u.head + Flatten(u.emit, 0, pc);
            && u.head + Flatten(u.emit, 0, pc + 1) == done + u.emit(pc)
            && Render(Unlinked(), done + u.emit(pc), 0) == Render(Unlinked(), done, 0) +
               Render(Unlinked(), u.emit(pc), Length(done))
            && PatchesOf(done + u.emit(pc), 0) == PatchesOf(done, 0) + PatchesOf(u.emit(pc), Length(done))
            && |Render(Unlinked(), done + u.emit(pc), 0)| == Length(done + u.emit(pc)) == Length(done) +
               Length(u.emit(pc))
  {
    var done := u.head + Flatten(u.emit, 0, pc);
    FlattenMore(u.emit, 0, pc);
    Associative(u.head, Flatten(u.emit, 0, pc), u.emit(pc));
    EmittedMore(done, u.emit(pc));
    EmittedMore(done + u.emit(pc), []);
    LengthSum(done, u.emit(pc));
  }

  // ----- patches of a whole program -----

  /** Patches lie inside the code they belong to. */
  lemma {:induction false} PatchesInside(ps: seq<Piece>, start: nat)
    ensures forall k :: 0 <= k < |PatchesOf(ps, start)| ==>
              start <= PatchesOf(ps, start)[k].disp && PatchesOf(ps, start)[k].disp + 4 <= start + Length(ps)
    decreases |ps|
  {
    if ps != [] {
      PatchesInside(ps[1..], start + Size(ps[0]));
    }
  }

  predicate PatchesTo(patches: seq<Patch>, count: nat) {
    forall k :: 0 <= k < |patches| && patches[k].target.ToSource? ==> patches[k].target.pc < count
  }

  /** Patches of encoded patterns go where the patterns go. */
  lemma {:induction false} PatchTargets(pieces: seq<Piece>, ps: seq<Pattern>, start: nat, count: nat)
    requires EncodesAll(pieces, ps) && TargetsInside(ps, count)
    ensures PatchesTo(PatchesOf(pieces, start), count)
    decreases |pieces|
  {
    if pieces != [] {
      PatchTargets(pieces[1..], ps[1..], start + Size(pieces[0]), count);
      assert Encodes(pieces[0], ps[0]);
    }
  }

  lemma PatchesToSum(a: seq<Patch>, b: seq<Patch>, count: nat)
    requires PatchesTo(a, count) && PatchesTo(b, count)
    ensures PatchesTo(a + b, count)
  {
  }

  /** What is known of every part: its branches stay inside the program. */
  ghost predicate StaysInside(u: Unit, count: nat) {
    && (forall start :: PatchesTo(PatchesOf(u.head, start), count))
    && (forall start :: PatchesTo(PatchesOf(u.zero, start), count))
    && (forall start :: PatchesTo(PatchesOf(u.tail, start), count))
    && (forall pc: nat, start: nat {:trigger PatchesOf(u.emit(pc), start)} ::
          PatchesTo(PatchesOf(u.emit(pc), start), count))
  }

  lemma {:induction false} BlocksStayInside(u: Unit, pc: nat, start: nat, count: nat)
    requires StaysInside(u, count) && pc <= u.count
    ensures PatchesTo(PatchesOf(Flatten(u.emit, pc, u.count), start), count)
    decreases u.count - pc
  {
    if pc < u.count {
      BlocksStayInside(u, pc + 1, start + Length(u.emit(pc)), count);
      PartsStayInside(u.emit(pc), Flatten(u.emit, pc + 1, u.count), start, count);
    }
  }

  lemma PartsStayInside(ps: seq<Piece>, qs: seq<Piece>, start: nat, count: nat)
    requires PatchesTo(PatchesOf(ps, start), count) && PatchesTo(PatchesOf(qs, start + Length(ps)), count)
    ensures PatchesTo(PatchesOf(ps + qs, start), count)
  {
    PatchesSum(ps, qs, start);
    PatchesToSum(PatchesOf(ps, start), PatchesOf(qs, start + Length(ps)), count);
  }

  lemma UnitStaysInside(u: Unit, count: nat)
    requires StaysInside(u, count)
    ensures PatchesTo(PatchesOf(u.Pieces(), 0), count)
  {
    var base := Length(u.head);
    var end := base + Length(u.Blocks());
    BlocksStayInside(u, 0, base, count);
    PartsStayInside(u.zero, u.tail, end, count);
    PartsStayInside(u.Blocks(), u.zero + u.tail, base, count);
    PartsStayInside(u.head, u.Blocks() + (u.zero + u.tail), 0, count);
  }

  lemma EmittedStaysInside(source: seq<Instruction>, profile: InputProfile)
    requires Closed(source)
    ensures StaysInside(UnitOf(source, profile), |source|)
  {
    var u := UnitOf(source, profile);
    forall start ensures PatchesTo(PatchesOf(u.head, start), |source|) {
      PrologueEncoded(profile);
      PatchTargets(u.head, Prologue(profile), start, |source|);
    }
    forall start ensures PatchesTo(PatchesOf(u.zero, start), |source|) {
      FailureEncoded();
      PatchTargets(u.zero, FailureBlock(), start, |source|);
    }
    forall start ensures PatchesTo(PatchesOf(u.tail, start), |source|) {
      EpilogueEncoded();
      PatchTargets(u.tail, Epilogue(), start, |source|);
    }
    forall pc: nat, start: nat ensures PatchesTo(PatchesOf(u.emit(pc), start), |source|) {
      if pc < |source| {
        EmittedIsExpected(source[pc], pc, profile);
        LowerInside(source, profile, pc);
        PatchTargets(u.emit(pc), Lower(source[pc], pc, profile), start, |source|);
      }
    }
  }

  /** Patching depends only on where the patched targets lie. */
  lemma {:induction false} PatchedSame(b: seq<U8>, patches: seq<Patch>, a: Layout, c: Layout)
    requires forall k :: 0 <= k < |patches| ==> a(patches[k].target) == c(patches[k].target)
    ensures Patched(b, patches, a) == Patched(b, patches, c)
    decreases |patches|
  {
    if patches != [] {
      var p := patches[0];
      var next := if p.disp + 4 <= |b| then Overwrite(b, p.disp, Bytes32(Displacement(a(p.target), p.disp + 4))) else b;
      PatchedSame(next, patches[1..], a, c);
    }
  }
}
