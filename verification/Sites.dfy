/** Branch sites in the finished image: the recorded displacements lead where the source jumps go. */
module Sites {
  import opened Words
  import opened Bpf
  import opened Lowering
  import opened Emitter
  import opened Encoding
  import opened Decoder
  import opened Linking
  import opened Translation
  import opened Assembly
  import opened Translator
  import opened Sizes

  /** A linked conditional branch: its opcode and its target. */
  lemma JccReads(b: seq<U8>, p: nat, c: U8, t: Target, at: Layout, limit: nat)
    requires Near(at, limit) && p + 6 <= limit && Contains(b, p, Links(at)(Jcc(c, t), p))
    ensures p + 6 <= |b| && b[p] == 0x0f && b[p + 1] == c && PatchMatches(b, p + 2, at(t))
  {
    var head := [0x0f, c];
    ContainsParts(b, p, head, Bytes32(Displacement(at(t), p + 6)));
    assert b[p + 0] == head[0] && b[p + 1] == head[1];
    DisplacementReads(b, p + 2, at(t), limit);
  }

  lemma JmpReads(b: seq<U8>, p: nat, t: Target, at: Layout, limit: nat)
    requires Near(at, limit) && p + 5 <= limit && Contains(b, p, Links(at)(Jmp(t), p))
    ensures p + 5 <= |b| && b[p] == 0xe9 && PatchMatches(b, p + 1, at(t))
  {
    var head := [0xe9];
    ContainsParts(b, p, head, Bytes32(Displacement(at(t), p + 5)));
    assert b[p + 0] == head[0];
    DisplacementReads(b, p + 1, at(t), limit);
  }

  lemma ThreeParts(b: seq<U8>, link: Linker, p: nat, x: Piece, y: Piece, z: Piece)
    requires Sized(link) && Contains(b, p, Render(link, [x, y, z], p))
    ensures Contains(b, p + Size(x), link(y, p + Size(x)))
    ensures Contains(b, p + Size(x) + Size(y), link(z, p + Size(x) + Size(y)))
  {
    assert [x, y, z] == [x] + [y, z] && [y, z] == [y] + [z];
    OnePart(link, x, p);
    RenderedParts(b, link, [x], [y, z], p);
    OnePart(link, y, p + Size(x));
    RenderedParts(b, link, [y], [z], p + Size(x));
    OnePart(link, z, p + Size(x) + Size(y));
  }

  lemma OnePart(link: Linker, x: Piece, p: nat)
    ensures Render(link, [x], p) == link(x, p) && Length([x]) == Size(x)
  {
    assert [x][1..] == [];
    assert link(x, p) + [] == link(x, p);
  }

  /** The opcode bytes around a recorded displacement are those of the source's jump. */
  predicate DirectBranch(b: seq<U8>, i: Instruction, site: BranchSite) {
    if i.op.Ja? then site.trueDisp >= 1 && ByteAt(b, site.trueDisp - 1) == 0xe9
    else
      && site.trueDisp >= 2 && ByteAt(b, site.trueDisp - 2) == 0x0f
      && ByteAt(b, site.trueDisp - 1) == (if i.op.Jump? then ConditionByte(i.op.jump) else 0)
      && site.falseDisp >= 1 && ByteAt(b, site.falseDisp - 1) == 0xe9
  }

  /** What the validator asks of a recorded branch site. */
  predicate SiteOk(b: seq<U8>, source: seq<Instruction>, offsets: seq<nat>, site: BranchSite) {
    && site.pc < |source| && site.pc < |offsets| && CodeOf(source[site.pc].op) >= 0x05
    && offsets[site.pc] <= site.trueDisp && DirectBranch(b, source[site.pc], site)
    && SiteMatches(b, site, offsets)
  }

  lemma ConditionalOk(b: seq<U8>, source: seq<Instruction>, offsets: seq<nat>, pc: nat, t: nat, f: nat, q: nat)
    requires pc < |source| == |offsets| && source[pc].op.Jump? && offsets[pc] <= q && t < |source| && f < |source|
    requires q + 11 <= |b| && b[q] == 0x0f && b[q + 1] == ConditionByte(source[pc].op.jump) && b[q + 6] == 0xe9
    requires PatchMatches(b, q + 2, offsets[t]) && PatchMatches(b, q + 7, offsets[f])
    ensures SiteOk(b, source, offsets, BranchSite(pc, t, f, q + 2, q + 7))
  {
  }

  lemma UnconditionalOk(b: seq<U8>, source: seq<Instruction>, offsets: seq<nat>, pc: nat, t: nat, q: nat)
    requires pc < |source| == |offsets| && source[pc].op.Ja? && offsets[pc] <= q && t < |source|
    requires q + 5 <= |b| && b[q] == 0xe9 && PatchMatches(b, q + 1, offsets[t])
    ensures SiteOk(b, source, offsets, BranchSite(pc, t, t, q + 1, q + 1))
  {
  }

  /** Reading the three instructions of a conditional jump. */
  lemma ConditionalReads(b: seq<U8>, p: nat, x: Piece, c: U8, t: Target, f: Target, at: Layout, limit: nat)
    requires Near(at, limit) && p + Size(x) + 11 <= limit
             && Contains(b, p, Render(Links(at), [x, Jcc(c, t), Jmp(f)], p))
    ensures var q := p + Size(x);
            && q + 11 <= |b| && b[q] == 0x0f && b[q + 1] == c && b[q + 6] == 0xe9
            && PatchMatches(b, q + 2, at(t)) && PatchMatches(b, q + 7, at(f))
  {
    LinksSized(at);
    ThreeParts(b, Links(at), p, x, Jcc(c, t), Jmp(f));
    JccReads(b, p + Size(x), c, t, at, limit);
    JmpReads(b, p + Size(x) + 6, f, at, limit);
  }

  // ----- all sites of a program -----

  predicate SitesOk(b: seq<U8>, source: seq<Instruction>, offsets: seq<nat>, sites: seq<BranchSite>) {
    forall k :: 0 <= k < |sites| ==> SiteOk(b, source, offsets, sites[k])
  }

  /** The block of an instruction lies where it should in any image of the unit. */
  lemma BlockThere(b: seq<U8>, u: Unit, pc: nat)
    requires IsImage(b, u) && pc < u.count
    ensures Contains(b, u.Start(pc), Render(Links(u.Layout()), u.emit(pc), u.Start(pc)))
    ensures u.Start(pc) + Length(u.emit(pc)) <= u.Size()
  {
    LinksSized(u.Layout());
    ImageParts(u, Links(u.Layout()), b);
    BlockContained(b, Links(u.Layout()), u.emit, Length(u.head), 0, u.count, pc);
    StartsOrdered(u, pc + 1, u.count);
  }

  lemma ConditionalSite(b: seq<U8>, source: seq<Instruction>, u: Unit, pc: nat, x: Piece, t: nat, f: nat)
    requires IsImage(b, u) && u.Size() < 0x8000_0000 && u.count == |source| && pc < |source| && t < |source|
             && f < |source|
    requires source[pc].op.Jump?
             && u.emit(pc) == [x, Jcc(ConditionByte(source[pc].op.jump), ToSource(t)), Jmp(ToSource(f))]
    ensures var q := u.Start(pc) + Size(x); SiteOk(b, source, OffsetsOf(u, u.count), BranchSite(pc, t, f, q + 2, q + 7))
  {
    var c := ConditionByte(source[pc].op.jump);
    BlockThere(b, u, pc);
    LayoutNear(u);
    Three(x, Jcc(c, ToSource(t)), Jmp(ToSource(f)));
    ConditionalReads(b, u.Start(pc), x, c, ToSource(t), ToSource(f), u.Layout(), u.Size());
    ConditionalOk(b, source, OffsetsOf(u, u.count), pc, t, f, u.Start(pc) + Size(x));
  }

  lemma UnconditionalSite(b: seq<U8>, source: seq<Instruction>, u: Unit, pc: nat, t: nat)
    requires IsImage(b, u) && u.Size() < 0x8000_0000 && u.count == |source| && pc < |source| && t < |source|
    requires source[pc].op.Ja? && u.emit(pc) == [Jmp(ToSource(t))]
    ensures SiteOk(b, source, OffsetsOf(u, u.count), BranchSite(pc, t, t, u.Start(pc) + 1, u.Start(pc) + 1))
  {
    BlockThere(b, u, pc);
    LayoutNear(u);
    OnePart(Links(u.Layout()), Jmp(ToSource(t)), u.Start(pc));
    JmpReads(b, u.Start(pc), ToSource(t), u.Layout(), u.Size());
    UnconditionalOk(b, source, OffsetsOf(u, u.count), pc, t, u.Start(pc));
  }

  /** The block and the branch site of an instruction. */
  lemma BlockForm(u: Unit, site: (nat, nat) -> seq<BranchSite>, source: seq<Instruction>, profile: InputProfile,
                  pc: nat, start: nat)
    requires IsProgram(u, site, source, profile) && pc < |source|
    ensures u.emit(pc) == Emit(source[pc], pc, profile) && site(pc, start) == SiteOf(source[pc], pc, start)
  {
    assert Unhide(pc);
  }

  lemma JumpForm(u: Unit, site: (nat, nat) -> seq<BranchSite>, source: seq<Instruction>, profile: InputProfile, pc: nat,
                 start: nat)
    requires IsProgram(u, site, source, profile) && pc < |source|
    ensures var i := source[pc];
            if i.op.Jump? then
              var x, q := EmitTest(i.op.jump, i.op.src, i.k), start + Size(EmitTest(i.op.jump, i.op.src, i.k));
              && u.emit(pc) == [x, Jcc(ConditionByte(i.op.jump), ToSource(pc + 1 + i.jt)), Jmp(ToSource(pc + 1 + i.jf))]
              && site(pc, start) == [BranchSite(pc, pc + 1 + i.jt, pc + 1 + i.jf, q + 2, q + 7)]
            else if i.op.Ja? then
              && u.emit(pc) == [Jmp(ToSource(pc + 1 + i.k))]
              && site(pc, start) == [BranchSite(pc, pc + 1 + i.k, pc + 1 + i.k, start + 1, start + 1)]
            else site(pc, start) == []
  {
    BlockForm(u, site, source, profile, pc, start);
  }

  lemma BlockSites(b: seq<U8>, source: seq<Instruction>, profile: InputProfile, u: Unit,
                   site: (nat, nat) -> seq<BranchSite>, pc: nat)
    requires IsProgram(u, site, source, profile) && IsImage(b, u) && u.Size() < 0x8000_0000 && Closed(source)
             && pc < |source|
    ensures SitesOk(b, source, OffsetsOf(u, u.count), site(pc, u.Start(pc)))
  {
    JumpForm(u, site, source, profile, pc, u.Start(pc));
    var i := source[pc];
    if i.op.Jump? {
      var t, f := pc + 1 + i.jt, pc + 1 + i.jf;
      assert t in Successors(i, pc) && f in Successors(i, pc);
      ConditionalSite(b, source, u, pc, EmitTest(i.op.jump, i.op.src, i.k), t, f);
    } else if i.op.Ja? {
      assert pc + 1 + i.k in Successors(i, pc);
      UnconditionalSite(b, source, u, pc, pc + 1 + i.k);
    }
  }

  lemma {:induction false} AllSites(b: seq<U8>, source: seq<Instruction>, profile: InputProfile, u: Unit,
                                    site: (nat, nat) -> seq<BranchSite>, pc: nat)
    requires IsProgram(u, site, source, profile) && IsImage(b, u) && u.Size() < 0x8000_0000 && Closed(source)
             && pc <= |source|
    ensures SitesOk(b, source, OffsetsOf(u, u.count), SitesOf(u, site, pc))
    decreases pc
  {
    if pc > 0 {
      AllSites(b, source, profile, u, site, pc - 1);
      BlockSites(b, source, profile, u, site, pc - 1);
    }
  }

  /** The jumps among the first instructions, in order. */
  function JumpsOf(source: seq<Instruction>, pc: nat): seq<nat>
    requires pc <= |source|
  {
    if pc == 0 then []
    else JumpsOf(source, pc - 1) + if source[pc - 1].op.Ja? || source[pc - 1].op.Jump? then [pc - 1] else []
  }

  /** Every jump has its branch site, in order, and nothing else has. */
  lemma {:induction false} SitesOfJumps(source: seq<Instruction>, profile: InputProfile, u: Unit,
                                        site: (nat, nat) -> seq<BranchSite>, pc: nat)
    requires IsProgram(u, site, source, profile) && pc <= |source|
    ensures |SitesOf(u, site, pc)| == |JumpsOf(source, pc)|
    ensures forall k :: 0 <= k < |JumpsOf(source, pc)| ==> SitesOf(u, site, pc)[k].pc == JumpsOf(source, pc)[k]
    decreases pc
  {
    if pc > 0 {
      SitesOfJumps(source, profile, u, site, pc - 1);
      JumpForm(u, site, source, profile, pc - 1, u.Start(pc - 1));
    }
  }
}
