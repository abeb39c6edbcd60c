/**
 The assembler as the translator drives it: bytes, patches and branch sites are
 appended in place, and `Resolve` overwrites every displacement once all offsets
 are known.
 */
module Assembly {
  import opened Words
  import opened Bpf
  import opened Lowering
  import opened Emitter
  import opened Decoder
  import opened Linking
  import opened Translation
  import opened Validator

  datatype Patch = Patch(disp: nat, target: Target)

  /** Where a source jump left its displacements, and the instructions it goes to. */
  datatype BranchSite = BranchSite(pc: nat, truePc: nat, falsePc: nat, trueDisp: nat, falseDisp: nat)

  /** An instruction as first emitted, with a zero displacement. */
  function Unlinked(): Linker {
    (p: Piece, start: nat) =>
      match p
      case Code(bytes) => bytes
      case Jcc(c, _) => [0x0f, c] + [0, 0, 0, 0]
      case Jmp(_) => [0xe9] + [0, 0, 0, 0]
  }

  function PatchOf(p: Piece, start: nat): seq<Patch> {
    match p
    case Code(_) => []
    case Jcc(_, t) => [Patch(start + 2, t)]
    case Jmp(t) => [Patch(start + 1, t)]
  }

  function PatchesOf(ps: seq<Piece>, start: nat): seq<Patch> {
    if ps == [] then [] else PatchOf(ps[0], start) + PatchesOf(ps[1..], start + Size(ps[0]))
  }

  lemma {:induction false} PatchesSum(ps: seq<Piece>, qs: seq<Piece>, start: nat)
    ensures PatchesOf(ps + qs, start) == PatchesOf(ps, start) + PatchesOf(qs, start + Length(ps))
    decreases |ps|
  {
    if ps == [] {
      assert ps + qs == qs;
    } else {
      assert (ps + qs)[1..] == ps[1..] + qs;
      PatchesSum(ps[1..], qs, start + Size(ps[0]));
      assert PatchOf(ps[0], start) + (PatchesOf(ps[1..], start + Size(ps[0])) + PatchesOf(qs, start + Length(ps)))
          == (PatchOf(ps[0], start) + PatchesOf(ps[1..], start + Size(ps[0]))) + PatchesOf(qs, start + Length(ps));
    }
  }

  // ----- patching -----

  /** Four bytes overwritten at `disp`. */
  function Overwrite(b: seq<U8>, disp: nat, word: seq<U8>): (r: seq<U8>)
    requires |word| == 4 && disp + 4 <= |b|
    ensures |r| == |b|
  {
    b[..disp] + word + b[disp + 4..]
  }

  /** Every patch applied, in order; patches outside the buffer are ignored. */
  function Patched(b: seq<U8>, patches: seq<Patch>, at: Layout): (r: seq<U8>)
    ensures |r| == |b|
    decreases |patches|
  {
    if patches == [] then b
    else
      var p := patches[0];
      if p.disp + 4 <= |b| then
        Patched(Overwrite(b, p.disp, Bytes32(Displacement(at(p.target), p.disp + 4))), patches[1..], at)
      else Patched(b, patches[1..], at)
  }

  lemma UnlinkedSized()
    ensures Sized(Unlinked())
  {
  }

  lemma OverwriteInside(before: seq<U8>, old4: seq<U8>, new4: seq<U8>, after: seq<U8>)
    requires |old4| == 4 && |new4| == 4
    ensures Overwrite(before + old4 + after, |before|, new4) == before + new4 + after
  {
  }

  lemma PatchStep(b: seq<U8>, patch: Patch, more: seq<Patch>, at: Layout)
    requires patch.disp + 4 <= |b|
    ensures Patched(b, [patch] + more, at)
         == Patched(Overwrite(b, patch.disp, Bytes32(Displacement(at(patch.target), patch.disp + 4))), more, at)
  {
    assert ([patch] + more)[0] == patch && ([patch] + more)[1..] == more;
  }

  lemma FillZeros(prefix: seq<U8>, opcode: seq<U8>, word: seq<U8>, rest: seq<U8>)
    requires |word| == 4
    ensures Overwrite((prefix + (opcode + [0, 0, 0, 0])) + rest, |prefix| + |opcode|, word) ==
            (prefix + (opcode + word)) + rest
  {
    assert (prefix + (opcode + [0, 0, 0, 0])) + rest == (prefix + opcode) + [0, 0, 0, 0] + rest;
    OverwriteInside(prefix + opcode, [0, 0, 0, 0], word, rest);
    assert (prefix + opcode) + word + rest == (prefix + (opcode + word)) + rest;
  }

  /** Patching one instruction links it. */
  lemma PatchLinks(prefix: seq<U8>, p: Piece, rest: seq<U8>, more: seq<Patch>, at: Layout)
    ensures Patched((prefix + Unlinked()(p, |prefix|)) + rest, PatchOf(p, |prefix|) + more, at)
         == Patched((prefix + Linked(p, |prefix|, at)) + rest, more, at)
  {
    var b := (prefix + Unlinked()(p, |prefix|)) + rest;
    match p
    case Code(_) => assert [] + more == more;
    case Jcc(c, t) =>
      FillZeros(prefix, [0x0f, c], Bytes32(Displacement(at(t), |prefix| + 6)), rest);
      PatchStep(b, Patch(|prefix| + 2, t), more, at);
    case Jmp(t) =>
      FillZeros(prefix, [0xe9], Bytes32(Displacement(at(t), |prefix| + 5)), rest);
      PatchStep(b, Patch(|prefix| + 1, t), more, at);
  }

  predicate Here(prefix: seq<U8>, p: Piece, rest: seq<U8>, more: seq<Patch>) { true }

  /** `patched` turns instructions rendered by `raw` into instructions rendered by `link`, one at a time. */
  ghost predicate LinksOneByOne(raw: Linker, link: Linker, patched: (seq<U8>, seq<Patch>) -> seq<U8>) {
    && Sized(raw) && Sized(link)
    && (forall b :: patched(b, []) == b)
    && forall prefix: seq<U8>, p, rest, more {:trigger Here(prefix, p, rest, more)} :: Here(prefix, p, rest, more) ==>
         patched((prefix + raw(p, |prefix|)) + rest, PatchOf(p, |prefix|) + more)
         == patched((prefix + link(p, |prefix|)) + rest, more)
  }

  lemma {:induction false} LinksAll(raw: Linker, link: Linker, patched: (seq<U8>, seq<Patch>) -> seq<U8>,
                                    prefix: seq<U8>, ps: seq<Piece>)
    requires LinksOneByOne(raw, link, patched)
    ensures patched(prefix + Render(raw, ps, |prefix|), PatchesOf(ps, |prefix|)) == prefix + Render(link, ps, |prefix|)
    decreases |ps|
  {
    var start := |prefix|;
    if ps == [] {
      assert prefix + [] == prefix;
    } else {
      var p, next := ps[0], start + Size(ps[0]);
      var rest := Render(raw, ps[1..], next);
      Associative(prefix, raw(p, start), rest);
      assert Here(prefix, p, rest, PatchesOf(ps[1..], next));
      LinksAll(raw, link, patched, prefix + link(p, start), ps[1..]);
      Associative(prefix, link(p, start), Render(link, ps[1..], next));
    }
  }

  /** Patching what was emitted gives the linked bytes. */
  lemma PatchedIsLinked(prefix: seq<U8>, ps: seq<Piece>, at: Layout)
    ensures Patched(prefix + Render(Unlinked(), ps, |prefix|), PatchesOf(ps, |prefix|), at)
         == prefix + Render(Links(at), ps, |prefix|)
  {
    var patched := (b: seq<U8>, patches: seq<Patch>) => Patched(b, patches, at);
    UnlinkedSized();
    LinksSized(at);
    forall prefix: seq<U8>, p, rest, more {:trigger Here(prefix, p, rest, more)}
      ensures patched((prefix + Unlinked()(p, |prefix|)) + rest, PatchOf(p, |prefix|) + more)
           == patched((prefix + Links(at)(p, |prefix|)) + rest, more)
    {
      PatchLinks(prefix, p, rest, more, at);
    }
    LinksAll(Unlinked(), Links(at), patched, prefix, ps);
  }

  /** The displacement stored at `disp` leads to `target`. */
  predicate PatchMatches(b: seq<U8>, disp: nat, target: nat) {
    var word := Imm32At(b, disp);
    word.Some? && disp + 4 + Signed32(word.value) == target
  }

  predicate SiteMatches(b: seq<U8>, site: BranchSite, offsets: seq<nat>) {
    && site.truePc < |offsets| && site.falsePc < |offsets|
    && PatchMatches(b, site.trueDisp, offsets[site.truePc]) && PatchMatches(b, site.falseDisp, offsets[site.falsePc])
  }

  /** A patch the assembler can apply: its target exists and is near enough. */
  predicate Resolvable(p: Patch, count: nat, at: Layout) {
    && (p.target.ToSource? ==> p.target.pc < count)
    && -0x8000_0000 <= at(p.target) - (p.disp + 4) < 0x8000_0000
  }

  /** The branch site of a jump whose code starts at `start`. */
  function SiteOf(i: Instruction, pc: nat, start: nat): seq<BranchSite> {
    match i.op
    case Ja => [BranchSite(pc, pc + 1 + i.k, pc + 1 + i.k, start + 1, start + 1)]
    case Jump(kind, src) =>
      var disp := start + Size(EmitTest(kind, src, i.k)) + 2;
      [BranchSite(pc, pc + 1 + i.jt, pc + 1 + i.jf, disp, disp + 5)]
    case _ => []
  }

  predicate Unhide(pc: nat) { true }

  /** The code and the branch sites of an instruction at `start`; unfolded on demand. */
  ghost predicate IsEmission(i: Instruction, pc: nat, profile: InputProfile, start: nat, ps: seq<Piece>,
                             sites: seq<BranchSite>) {
    forall k: nat {:trigger Unhide(k)} :: Unhide(k) ==> ps == Emit(i, pc, profile) && sites == SiteOf(i, pc, start)
  }

  lemma EmissionForm(i: Instruction, pc: nat, profile: InputProfile, start: nat, ps: seq<Piece>, sites: seq<BranchSite>)
    requires IsEmission(i, pc, profile, start, ps, sites)
    ensures if i.op.Ja? then
              && ps == [Jmp(ToSource(pc + 1 + i.k))]
              && sites == [BranchSite(pc, pc + 1 + i.k, pc + 1 + i.k, start + 1, start + 1)]
            else if i.op.Jump? then
              var x := EmitTest(i.op.jump, i.op.src, i.k);
              && ps == [x, Jcc(ConditionByte(i.op.jump), ToSource(pc + 1 + i.jt)), Jmp(ToSource(pc + 1 + i.jf))]
              && sites == [BranchSite(pc, pc + 1 + i.jt, pc + 1 + i.jf, start + Size(x) + 2, start + Size(x) + 7)]
            else sites == []
  {
    assert Unhide(pc);
  }

  class Assembler {
    var bytes: seq<U8>
    var patches: seq<Patch>
    var branches: seq<BranchSite>

    constructor ()
      ensures bytes == [] && patches == [] && branches == []
    {
      bytes, patches, branches := [], [], [];
    }

    /** Appends one instruction; a branch leaves a patch. */
    method Append(p: Piece) returns (disp: nat)
      modifies this`bytes, this`patches
      ensures bytes == old(bytes) + Unlinked()(p, |old(bytes)|)
      ensures patches == old(patches) + PatchOf(p, |old(bytes)|)
      ensures !p.Code? ==> disp + 4 == |bytes|
    {
      disp := |bytes|;
      match p {
        case Code(code) =>
          bytes := bytes + code;
          assert patches + [] == patches;
        case Jcc(c, t) =>
          bytes := bytes + [0x0f, c];
          disp := |bytes|;
          bytes := bytes + [0, 0, 0, 0];
          patches := patches + [Patch(disp, t)];
          assert bytes == old(bytes) + ([0x0f, c] + [0, 0, 0, 0]);
        case Jmp(t) =>
          bytes := bytes + [0xe9];
          disp := |bytes|;
          bytes := bytes + [0, 0, 0, 0];
          patches := patches + [Patch(disp, t)];
          assert bytes == old(bytes) + ([0xe9] + [0, 0, 0, 0]);
      }
    }

    /** Appends a block. */
    method AppendAll(ps: seq<Piece>)
      modifies this`bytes, this`patches
      ensures bytes == old(bytes) + Render(Unlinked(), ps, |old(bytes)|)
      ensures patches == old(patches) + PatchesOf(ps, |old(bytes)|)
    {
      ghost var start := |bytes|;
      assert ps[..0] == [];
      for k := 0 to |ps|
        invariant bytes == old(bytes) + Render(Unlinked(), ps[..k], start)
        invariant |bytes| == start + Length(ps[..k])
        invariant patches == old(patches) + PatchesOf(ps[..k], start)
      {
        RenderOneMore(ps, k, start);
        Associative(old(bytes), Render(Unlinked(), ps[..k], start), Unlinked()(ps[k], |bytes|));
        Associative(old(patches), PatchesOf(ps[..k], start), PatchOf(ps[k], |bytes|));
        var _ := Append(ps[k]);
      }
      assert ps[..|ps|] == ps;
    }

    /** Emits a test and the two branches of a conditional jump. */
    method EmitConditional(test: Piece, condition: U8, pc: nat, t: nat, f: nat)
      modifies this
      ensures var ps := [test, Jcc(condition, ToSource(t)), Jmp(ToSource(f))];
              && bytes == old(bytes) + Render(Unlinked(), ps, |old(bytes)|)
              && patches == old(patches) + PatchesOf(ps, |old(bytes)|)
      ensures var disp := |old(bytes)| + Size(test) + 2;
              branches == old(branches) + [BranchSite(pc, t, f, disp, disp + 5)]
    {
      ghost var start, q, r := |bytes|, Jcc(condition, ToSource(t)), Jmp(ToSource(f));
      ThreePieces(old(bytes), old(patches), test, q, r, start);
      UnlinkedSized();
      var _ := Append(test);
      var trueDisp := Append(Jcc(condition, ToSource(t)));
      var falseDisp := Append(Jmp(ToSource(f)));
      branches := branches + [BranchSite(pc, t, f, trueDisp, falseDisp)];
    }

    method EmitUnconditional(pc: nat, target: nat)
      modifies this
      ensures var ps := [Jmp(ToSource(target))];
              && bytes == old(bytes) + Render(Unlinked(), ps, |old(bytes)|)
              && patches == old(patches) + PatchesOf(ps, |old(bytes)|)
      ensures branches == old(branches) + [BranchSite(pc, target, target, |old(bytes)| + 1, |old(bytes)| + 1)]
    {
      SinglePiece(Jmp(ToSource(target)), |bytes|);
      var disp := Append(Jmp(ToSource(target)));
      branches := branches + [BranchSite(pc, target, target, disp, disp)];
    }

    /** Emits a source instruction; a jump also leaves a branch site. */
    method EmitInstruction(pc: nat, i: Instruction, profile: InputProfile)
      modifies this
      ensures bytes == old(bytes) + Render(Unlinked(), Emit(i, pc, profile), |old(bytes)|)
      ensures patches == old(patches) + PatchesOf(Emit(i, pc, profile), |old(bytes)|)
      ensures branches == old(branches) + SiteOf(i, pc, |old(bytes)|)
    {
      EmitKind(pc, i, profile, Emit(i, pc, profile), SiteOf(i, pc, |bytes|));
    }

    method EmitKind(pc: nat, i: Instruction, profile: InputProfile, ghost ps: seq<Piece>, ghost sites: seq<BranchSite>)
      requires IsEmission(i, pc, profile, |bytes|, ps, sites)
      modifies this
      ensures bytes == old(bytes) + Render(Unlinked(), ps, |old(bytes)|)
      ensures patches == old(patches) + PatchesOf(ps, |old(bytes)|)
      ensures branches == old(branches) + sites
    {
      EmissionForm(i, pc, profile, |bytes|, ps, sites);
      if i.op.Ja? {
        EmitUnconditional(pc, pc + 1 + i.k);
      } else if i.op.Jump? {
        EmitConditional(EmitTest(i.op.jump, i.op.src, i.k), ConditionByte(i.op.jump), pc, pc + 1 + i.jt, pc + 1 + i.jf);
      } else {
        EmitStraight(pc, i, profile, ps, sites);
        assert branches + [] == branches;
      }
    }

    method EmitStraight(pc: nat, i: Instruction, profile: InputProfile, ghost ps: seq<Piece>,
                        ghost sites: seq<BranchSite>)
      requires IsEmission(i, pc, profile, |bytes|, ps, sites)
      modifies this`bytes, this`patches
      ensures bytes == old(bytes) + Render(Unlinked(), ps, |old(bytes)|)
      ensures patches == old(patches) + PatchesOf(ps, |old(bytes)|)
    {
      assert Unhide(pc);
      AppendAll(Emit(i, pc, profile));
    }

    /** Overwrites every displacement in place; fails on a target that is missing or too far. */
    method ApplyPatches(offsets: seq<nat>, failure: nat, epilogue: nat) returns (ok: bool)
      requires forall k :: 0 <= k < |patches| ==> patches[k].disp + 4 <= |bytes|
      modifies this`bytes
      ensures ok <==> forall k :: 0 <= k < |patches| ==>
                Resolvable(patches[k], |offsets|, LayoutOf(offsets, failure, epilogue))
      ensures ok ==> bytes == Patched(old(bytes), patches, LayoutOf(offsets, failure, epilogue))
    {
      ghost var at := LayoutOf(offsets, failure, epilogue);
      assert patches[0..] == patches;
      for k := 0 to |patches|
        invariant |bytes| == |old(bytes)|
        invariant forall j :: 0 <= j < k ==> Resolvable(patches[j], |offsets|, at)
        invariant Patched(old(bytes), patches, at) == Patched(bytes, patches[k..], at)
      {
        var patch := patches[k];
        var target: nat;
        match patch.target {
          case ToSource(pc) =>
            if pc >= |offsets| {
              assert !Resolvable(patch, |offsets|, at);
              return false;
            }
            target := offsets[pc];
          case ToFailure => target := failure;
          case ToEpilogue => target := epilogue;
        }
        assert target == at(patch.target);
        var next := patch.disp + 4;
        if !(-0x8000_0000 <= target - next < 0x8000_0000) {
          assert !Resolvable(patch, |offsets|, at);
          return false;
        }
        assert patches[k..][0] == patch && patches[k..][1..] == patches[k + 1..];
        bytes := Overwrite(bytes, patch.disp, Bytes32(Displacement(target, next)));
      }
      return true;
    }

    /** Checks that every recorded branch site ended up where its instruction goes. */
    method CheckSites(offsets: seq<nat>) returns (ok: bool)
      ensures ok <==> forall k :: 0 <= k < |branches| ==> SiteMatches(bytes, branches[k], offsets)
    {
      for k := 0 to |branches|
        invariant forall j :: 0 <= j < k ==> SiteMatches(bytes, branches[j], offsets)
      {
        if !SiteMatches(bytes, branches[k], offsets) {
          return false;
        }
      }
      return true;
    }
  }

  lemma RenderOneMore(ps: seq<Piece>, k: nat, start: nat)
    requires k < |ps|
    ensures Render(Unlinked(), ps[..k + 1], start) == Render(Unlinked(), ps[..k], start) +
            Unlinked()(ps[k], start + Length(ps[..k]))
    ensures PatchesOf(ps[..k + 1], start) == PatchesOf(ps[..k], start) + PatchOf(ps[k], start + Length(ps[..k]))
    ensures Length(ps[..k + 1]) == Length(ps[..k]) + |Unlinked()(ps[k], start + Length(ps[..k]))|
  {
    assert ps[..k + 1] == ps[..k] + [ps[k]];
    RenderSum(Unlinked(), ps[..k], [ps[k]], start);
    PatchesSum(ps[..k], [ps[k]], start);
    LengthSum(ps[..k], [ps[k]]);
    SinglePiece(ps[k], start + Length(ps[..k]));
    UnlinkedSized();
  }

  lemma AppendThree<T>(a: seq<T>, x: seq<T>, y: seq<T>, z: seq<T>)
    ensures ((a + x) + y) + z == a + ((x + y) + z)
  {
  }

  lemma ThreePieces(b: seq<U8>, patches: seq<Patch>, p: Piece, q: Piece, r: Piece, start: nat)
    ensures b + Render(Unlinked(), [p, q, r], start)
         == ((b + Unlinked()(p, start)) + Unlinked()(q, start + Size(p))) + Unlinked()(r, start + Size(p) + Size(q))
    ensures patches + PatchesOf([p, q, r], start)
         == ((patches + PatchOf(p, start)) + PatchOf(q, start + Size(p))) + PatchOf(r, start + Size(p) + Size(q))
  {
    var ps := [p, q, r];
    assert ps[..1] == [p] && ps[..2] == [p, q] && ps[..3] == ps;
    RenderOneMore(ps, 1, start);
    RenderOneMore(ps, 2, start);
    SinglePiece(p, start);
    LengthSum([p], [q]);
    SinglePiece(q, start);
    assert [p] + [q] == [p, q];
    AppendThree(b, Unlinked()(p, start), Unlinked()(q, start + Size(p)), Unlinked()(r, start + Size(p) + Size(q)));
    AppendThree(patches, PatchOf(p, start), PatchOf(q, start + Size(p)), PatchOf(r, start + Size(p) + Size(q)));
  }

  lemma SinglePiece(p: Piece, start: nat)
    ensures Render(Unlinked(), [p], start) == Unlinked()(p, start)
    ensures PatchesOf([p], start) == PatchOf(p, start) && Length([p]) == Size(p)
  {
    assert [p][1..] == [];
    assert Unlinked()(p, start) + [] == Unlinked()(p, start);
    assert PatchOf(p, start) + [] == PatchOf(p, start);
  }
}
