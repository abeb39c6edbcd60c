/**
 The whole translator: it accepts exactly the acceptable programs its profile
 admits and whose code fits, and the image it returns passes its own validation,
 raw bytes and metadata alike.
 */
module Compiler {
  import opened Words
  import opened Bpf
  import opened Lowering
  import opened Emitter
  import opened Linking
  import opened Translation
  import opened Assembly
  import opened Translator
  import opened Sites
  import opened Sizes
  import opened Verifier
  import SourceValidation
  import opened Validator
  import opened Checking
  import opened Soundness

  datatype CodeImage = CodeImage(
    bytes: seq<U8>, relocations: seq<nat>, entry: nat, boundaries: seq<nat>,
    table: seq<InstructionMap>, source: seq<Instruction>, branches: seq<BranchSite>, profile: InputProfile)

  datatype ImageError =
    | RawImage(raw: ValidationError)
    | BadSource(error: VerifyError)
    | InvalidEntry(entry: nat)
    | TooLarge(size: nat)
    | RelocationOutOfBounds(index: nat)
    | UnexpectedRelocation(index: nat)
    | SourceMapMismatch(index: nat)
    | BoundaryOutOfBounds(index: nat)
    | InvalidBoundary(index: nat)
    | MissingBranchSite(pc: nat)
    | BranchOutOfBounds(pc: nat)
    | BranchSiteMismatch(pc: nat)

  // ----- validating the metadata of an image -----

  function TableOffsets(table: seq<InstructionMap>): seq<nat> {
    seq(|table|, k requires 0 <= k < |table| => table[k].offset)
  }

  predicate Increasing(s: seq<nat>) { forall k :: 0 < k < |s| ==> s[k - 1] < s[k] }

  predicate EntryOk(image: CodeImage, offsets: seq<nat>, pc: nat)
    requires pc < |image.table| && pc + 1 < |image.boundaries| && pc < |offsets|
  {
    var entry, start, end := image.table[pc], image.boundaries[pc], image.boundaries[pc + 1];
    entry.pc == pc && entry.offset == start == offsets[pc] && entry.len == end - start && entry.len != 0
      && end <= |image.bytes|
  }

  /** Boundaries partition the code after the prologue, and the source map names the blocks the decoder found. */
  predicate MapOk(image: CodeImage, offsets: seq<nat>) {
    && |image.table| == |image.source| == |offsets| && |image.boundaries| == |image.source| + 2
    && 0 < image.boundaries[0] <= |image.bytes| && image.boundaries[|image.boundaries| - 1] == |image.bytes|
    && Increasing(image.boundaries)
    && forall pc :: 0 <= pc < |image.source| ==> EntryOk(image, offsets, pc)
  }

  /** Every jump of the source has its branch site, in order, resolved. */
  predicate BranchesOk(image: CodeImage) {
    && SitesOk(image.bytes, image.source, TableOffsets(image.table), image.branches)
    && |image.branches| == |JumpsOf(image.source, |image.source|)|
    && forall k :: 0 <= k < |image.branches| ==> image.branches[k].pc == JumpsOf(image.source, |image.source|)[k]
  }

  ghost predicate MetadataOk(image: CodeImage, offsets: seq<nat>) {
    && Acceptable(image.source) && Admitted(image.source, image.profile)
    && image.entry == 0 && image.relocations == [] && |image.bytes| <= MAX_CODE_IMAGE_BYTES
    && MapOk(image, offsets) && BranchesOk(image)
  }

  method CheckMap(image: CodeImage, offsets: seq<nat>) returns (r: Option<ImageError>)
    requires |offsets| == |image.source| > 0
    ensures r.None? <==> MapOk(image, offsets)
  {
    var count, bounds := |image.source|, image.boundaries;
    if |image.table| != count || |bounds| != count + 2 {
      return Some(SourceMapMismatch(|image.table|));
    }
    if !(0 < bounds[0] <= |image.bytes|) || bounds[|bounds| - 1] != |image.bytes| {
      return Some(BoundaryOutOfBounds(0));
    }
    for k := 1 to |bounds|
      invariant forall j :: 0 < j < k ==> bounds[j - 1] < bounds[j]
    {
      if bounds[k - 1] >= bounds[k] {
        return Some(InvalidBoundary(0));
      }
    }
    for pc := 0 to count
      invariant forall q :: 0 <= q < pc ==> EntryOk(image, offsets, q)
    {
      if !EntryOk(image, offsets, pc) {
        return Some(SourceMapMismatch(pc));
      }
    }
    return None;
  }

  method CheckBranches(image: CodeImage) returns (r: Option<ImageError>)
    requires |image.table| == |image.source|
    ensures r.None? <==> BranchesOk(image)
  {
    var offsets := TableOffsets(image.table);
    for k := 0 to |image.branches|
      invariant forall j :: 0 <= j < k ==> SiteOk(image.bytes, image.source, offsets, image.branches[j])
    {
      var site := image.branches[k];
      if site.pc >= |image.source| {
        return Some(MissingBranchSite(site.pc));
      }
      if site.truePc >= |image.table| || site.falsePc >= |image.table| {
        return Some(BranchOutOfBounds(site.pc));
      }
      if !SiteOk(image.bytes, image.source, offsets, site) {
        return Some(BranchSiteMismatch(site.pc));
      }
    }
    var jumps := JumpsOf(image.source, |image.source|);
    if |image.branches| != |jumps| {
      return Some(MissingBranchSite(0));
    }
    for k := 0 to |jumps|
      invariant forall j :: 0 <= j < k ==> image.branches[j].pc == jumps[j]
    {
      if image.branches[k].pc != jumps[k] {
        return Some(MissingBranchSite(0));
      }
    }
    return None;
  }

  /** The metadata check accepts exactly consistent metadata. */
  method ValidateImage(image: CodeImage, offsets: seq<nat>) returns (r: Option<ImageError>)
    requires |offsets| == |image.source|
    ensures r.None? <==> MetadataOk(image, offsets)
  {
    if |image.source| == 0 {
      return Some(BadSource(Empty));
    }
    if |image.source| > MAX_INSTRUCTIONS {
      return Some(BadSource(TooLong(|image.source|)));
    }
    if image.entry != 0 {
      return Some(InvalidEntry(image.entry));
    }
    if |image.bytes| > MAX_CODE_IMAGE_BYTES {
      return Some(TooLarge(|image.bytes|));
    }
    var profile := ValidateProfile(image.source, image.profile);
    if profile.Some? {
      return Some(BadSource(profile.value));
    }
    if image.relocations != [] {
      return Some(if image.relocations[0] + 4 > |image.bytes| then RelocationOutOfBounds(0)
                  else UnexpectedRelocation(0));
    }
    r := CheckMap(image, offsets);
    if r.Some? {
      return;
    }
    var source := SourceValidation.ValidateSource(image.source);
    if source.Some? {
      return Some(BadSource(source.value));
    }
    r := CheckBranches(image);
  }

  function SourceOffsets(at: Layout, count: nat): seq<nat> {
    seq(count, pc requires 0 <= pc < count => at(ToSource(pc)))
  }

  /** What full validation accepts: a bounded translation whose metadata describes it. */
  ghost predicate ImageOk(image: CodeImage) {
    exists at: Layout ::
      && LaidOut(Reader(image.bytes), |image.bytes|, image.source, image.profile, at)
      && MetadataOk(image, SourceOffsets(at, |image.source|))
  }

  /** Full validation of an image: raw bytes first, then metadata against the layout found. */
  method Validate(image: CodeImage) returns (r: Option<ImageError>)
    ensures r.None? <==> ImageOk(image)
  {
    var layout := ValidateTranslationLayout(image.bytes, image.source, image.profile);
    if layout.Err? {
      return Some(RawImage(layout.error));
    }
    forall at: Layout | LaidOut(Reader(image.bytes), |image.bytes|, image.source, image.profile, at)
      ensures SourceOffsets(at, |image.source|) == layout.value
    {
      assert OffsetsAt(layout.value, 0, at);
    }
    r := ValidateImage(image, layout.value);
  }

  // ----- the translator's own image -----

  /** The image the translator builds for a unit. */
  function BuiltImage(u: Unit, site: (nat, nat) -> seq<BranchSite>, source: seq<Instruction>,
                      profile: InputProfile): CodeImage {
    CodeImage(u.Image(), [], 0, BoundariesOf(u), MapOf(u, u.count), source, SitesOf(u, site, u.count), profile)
  }

  /** Every block and both ends of the unit take space. */
  ghost predicate Substantial(u: Unit) {
    && Length(u.head) > 0 && Length(u.zero) > 0
    && forall pc: nat {:trigger u.emit(pc)} :: pc < u.count ==> Length(u.emit(pc)) > 0
  }

  lemma EmittedSubstantial(source: seq<Instruction>, profile: InputProfile)
    requires Closed(source)
    ensures Substantial(UnitOf(source, profile))
  {
    var u := UnitOf(source, profile);
    PrologueSize(profile);
    TailSize();
    forall pc: nat {:trigger u.emit(pc)} | pc < u.count ensures Length(u.emit(pc)) > 0 {
      BlockSize(source[pc], pc, profile);
    }
  }

  lemma BoundariesIncrease(u: Unit)
    requires Substantial(u)
    ensures Increasing(BoundariesOf(u))
  {
    var s := BoundariesOf(u);
    forall k | 0 < k < |s| ensures s[k - 1] < s[k] {
      if k <= u.count {
        assert Length(u.emit(k - 1)) > 0;
        assert u.Start(k) == u.Start(k - 1) + Length(u.emit(k - 1));
      }
    }
  }

  lemma BuiltMapOk(u: Unit, site: (nat, nat) -> seq<BranchSite>, source: seq<Instruction>, profile: InputProfile)
    requires Substantial(u) && u.count == |source| > 0
    ensures MapOk(BuiltImage(u, site, source, profile), OffsetsOf(u, u.count))
  {
    var image, offsets := BuiltImage(u, site, source, profile), OffsetsOf(u, u.count);
    BoundariesIncrease(u);
    ImageLength(u);
    StartsOrdered(u, 0, u.count);
    forall pc | 0 <= pc < u.count ensures EntryOk(image, offsets, pc) {
      assert image.table[pc] == EntryOf(u, pc);
      StartsOrdered(u, pc + 1, u.count);
      assert Length(u.emit(pc)) > 0;
    }
  }

  lemma BuiltBranchesOk(u: Unit, site: (nat, nat) -> seq<BranchSite>, source: seq<Instruction>, profile: InputProfile)
    requires IsProgram(u, site, source, profile) && Closed(source) && u.Size() < 0x8000_0000
    ensures BranchesOk(BuiltImage(u, site, source, profile))
  {
    var b := u.Image();
    assert TableOffsets(MapOf(u, u.count)) == OffsetsOf(u, u.count);
    AllSites(b, source, profile, u, site, u.count);
    SitesOfJumps(source, profile, u, site, u.count);
  }

  lemma LayoutOffsets(u: Unit)
    ensures SourceOffsets(u.Layout(), u.count) == OffsetsOf(u, u.count)
  {
  }

  lemma BuiltImageOk(u: Unit, site: (nat, nat) -> seq<BranchSite>, source: seq<Instruction>, profile: InputProfile)
    requires Acceptable(source) && Admitted(source, profile) && IsProgram(u, site, source, profile) && Substantial(u)
    requires u.Size() <= MAX_CODE_IMAGE_BYTES && LaidOut(Reader(u.Image()), u.Size(), source, profile, u.Layout())
    ensures ImageOk(BuiltImage(u, site, source, profile))
  {
    var image := BuiltImage(u, site, source, profile);
    WellFormedClosed(source);
    ImageLength(u);
    LayoutOffsets(u);
    BuiltMapOk(u, site, source, profile);
    BuiltBranchesOk(u, site, source, profile);
    assert MetadataOk(image, SourceOffsets(u.Layout(), |image.source|));
    assert LaidOut(Reader(image.bytes), |image.bytes|, image.source, image.profile, u.Layout());
  }

  // ----- the run of the translator -----

  /** The failure block and the epilogue, after everything else. */
  method EmitTail(a: Assembler, zero: seq<Piece>, tail: seq<Piece>, ghost done: seq<Piece>)
    returns (failure: nat, epilogue: nat)
    requires HasEmitted(a, done)
    modifies a`bytes, a`patches
    ensures HasEmitted(a, done + (zero + tail))
    ensures failure == Length(done) && epilogue == Length(done) + Length(zero)
  {
    LengthSum(done, zero);
    failure := |a.bytes|;
    AppendPart(a, zero, done);
    epilogue := |a.bytes|;
    AppendPart(a, tail, done + zero);
    Associative(done, zero, tail);
  }

  lemma PiecesInOrder(u: Unit)
    ensures (u.head + u.Blocks()) + (u.zero + u.tail) == u.Pieces() && Length(u.head + u.Blocks()) == u.Start(u.count)
  {
    Associative(u.head, u.Blocks(), u.zero + u.tail);
    FlattenLength(u.emit, Length(u.head), 0, u.count);
    LengthSum(u.head, u.Blocks());
  }

  /** Everything is emitted; no displacement is filled in yet. */
  method EmitAll(source: seq<Instruction>, profile: InputProfile, head: seq<Piece>, zero: seq<Piece>, tail: seq<Piece>,
                 ghost u: Unit, ghost site: (nat, nat) -> seq<BranchSite>)
    returns (a: Assembler, table: seq<InstructionMap>, boundaries: seq<nat>, failure: nat, epilogue: nat)
    requires IsProgram(u, site, source, profile) && u.head == head && u.zero == zero && u.tail == tail
    ensures fresh(a) && HasEmitted(a, u.Pieces()) && a.branches == SitesOf(u, site, u.count)
    ensures table == MapOf(u, u.count) && boundaries == OffsetsOf(u, u.count + 1)
    ensures failure == u.Start(u.count) && epilogue == failure + Length(u.zero)
  {
    a := new Assembler();
    AppendPart(a, head, []);
    assert [] + head == head;
    table, boundaries := EmitBlocks(a, source, profile, u, site);
    PiecesInOrder(u);
    failure, epilogue := EmitTail(a, zero, tail, u.head + u.Blocks());
  }

  lemma LayoutsAgree(u: Unit, t: Target)
    requires t.ToSource? ==> t.pc < u.count
    ensures FoundLayout(u)(t) == u.Layout()(t)
  {
  }

  /** The layout found while emitting. */
  function FoundLayout(u: Unit): Layout {
    LayoutOf(OffsetsOf(u, u.count), u.Start(u.count), u.Start(u.count) + Length(u.zero))
  }

  predicate PatchFits(u: Unit, p: Patch, at: Layout) {
    p.disp + 4 <= u.Size() && Resolvable(p, u.count, at) && at(p.target) == u.Layout()(p.target)
  }

  /** Every patch can be applied. */
  lemma PatchesFit(u: Unit)
    requires StaysInside(u, u.count) && u.Size() < 0x8000_0000
    ensures forall k :: 0 <= k < |PatchesOf(u.Pieces(), 0)| ==>
              PatchFits(u, PatchesOf(u.Pieces(), 0)[k], FoundLayout(u))
  {
    var patches := PatchesOf(u.Pieces(), 0);
    UnitStaysInside(u, u.count);
    PatchesInside(u.Pieces(), 0);
    PiecesLength(u);
    LayoutNear(u);
    forall k | 0 <= k < |patches| ensures PatchFits(u, patches[k], FoundLayout(u)) {
      LayoutsAgree(u, patches[k].target);
    }
  }

  lemma PatchedImage(u: Unit, b: seq<U8>, patches: seq<Patch>, at: Layout)
    requires b == Render(Unlinked(), u.Pieces(), 0) && patches == PatchesOf(u.Pieces(), 0)
    requires forall k :: 0 <= k < |patches| ==> at(patches[k].target) == u.Layout()(patches[k].target)
    ensures Patched(b, patches, at) == u.Image()
  {
    PatchedSame(b, patches, at, u.Layout());
    PatchedIsLinked([], u.Pieces(), u.Layout());
    assert [] + b == b && [] + u.Image() == u.Image();
  }

  /** All patches apply, and applying them gives `image`. */
  ghost predicate Links(b: seq<U8>, patches: seq<Patch>, count: nat, at: Layout, image: seq<U8>) {
    && (forall k :: 0 <= k < |patches| ==> patches[k].disp + 4 <= |b| && Resolvable(patches[k], count, at))
    && Patched(b, patches, at) == image
  }

  lemma LinksFrom(u: Unit, b: seq<U8>, patches: seq<Patch>, at: Layout)
    requires b == Render(Unlinked(), u.Pieces(), 0) && |b| == u.Size() && patches == PatchesOf(u.Pieces(), 0)
    requires forall k :: 0 <= k < |patches| ==> PatchFits(u, patches[k], at)
    ensures Links(b, patches, u.count, at, u.Image())
  {
    PatchedImage(u, b, patches, at);
  }

  lemma UnitLinks(u: Unit, b: seq<U8>, patches: seq<Patch>)
    requires b == Render(Unlinked(), u.Pieces(), 0) && patches == PatchesOf(u.Pieces(), 0)
    requires StaysInside(u, u.count) && u.Size() < 0x8000_0000
    ensures Links(b, patches, u.count, FoundLayout(u), u.Image())
  {
    PatchesFit(u);
    PiecesLength(u);
    UnlinkedSized();
    RenderLength(Unlinked(), u.Pieces(), 0);
    LinksFrom(u, b, patches, FoundLayout(u));
  }

  /** Patches every displacement, then checks the branch sites. */
  method Resolve(a: Assembler, offsets: seq<nat>, failure: nat, epilogue: nat, ghost image: seq<U8>) returns (ok: bool)
    requires Links(a.bytes, a.patches, |offsets|, LayoutOf(offsets, failure, epilogue), image)
    modifies a`bytes
    ensures ok <==> forall k :: 0 <= k < |a.branches| ==> SiteMatches(image, a.branches[k], offsets)
    ensures a.bytes == image
  {
    ok := a.ApplyPatches(offsets, failure, epilogue);
    if ok {
      ok := a.CheckSites(offsets);
    }
  }

  datatype TranslationError =
    | ProfileRejected(error: VerifyError)
    | InvalidSource(error: VerifyError)
    | CodeTooLarge
    | InvalidImage(image: ImageError)

  /** What is known of a program once its source is accepted. */
  lemma AcceptedUnit(source: seq<Instruction>, profile: InputProfile)
    requires Acceptable(source)
    ensures Closed(source) && UnitOf(source, profile).Size() < 0x8000_0000
    ensures IsProgram(UnitOf(source, profile), SitesIn(source), source, profile)
    ensures StaysInside(UnitOf(source, profile), |source|) && Substantial(UnitOf(source, profile))
  {
    WellFormedClosed(source);
    ImageBound(source, profile);
    EmittedStaysInside(source, profile);
    EmittedSubstantial(source, profile);
  }

  /** The recorded sites pass the assembler's own check. */
  lemma SitesPass(u: Unit, site: (nat, nat) -> seq<BranchSite>, source: seq<Instruction>, profile: InputProfile)
    requires IsProgram(u, site, source, profile) && Closed(source) && u.Size() < 0x8000_0000
    ensures forall k :: 0 <= k < |SitesOf(u, site, u.count)| ==>
              SiteMatches(u.Image(), SitesOf(u, site, u.count)[k], OffsetsOf(u, u.count))
  {
    BuiltBranchesOk(u, site, source, profile);
    assert TableOffsets(MapOf(u, u.count)) == OffsetsOf(u, u.count);
    var sites := SitesOf(u, site, u.count);
    forall k | 0 <= k < |sites| ensures SiteMatches(u.Image(), sites[k], OffsetsOf(u, u.count)) {
      assert SiteOk(u.Image(), source, OffsetsOf(u, u.count), sites[k]);
    }
  }

  /** Patching what was emitted for a unit gives its image. */
  method ResolveUnit(a: Assembler, table: seq<InstructionMap>, failure: nat, epilogue: nat, ghost u: Unit)
    returns (ok: bool)
    requires HasEmitted(a, u.Pieces()) && StaysInside(u, u.count) && u.Size() < 0x8000_0000
    requires table == MapOf(u, u.count) && failure == u.Start(u.count) && epilogue == failure + Length(u.zero)
    modifies a`bytes
    ensures ok <==> forall k :: 0 <= k < |a.branches| ==> SiteMatches(u.Image(), a.branches[k], OffsetsOf(u, u.count))
    ensures a.bytes == u.Image()
  {
    UnitLinks(u, a.bytes, a.patches);
    var offsets := TableOffsets(table);
    assert offsets == OffsetsOf(u, u.count);
    ok := Resolve(a, offsets, failure, epilogue, u.Image());
  }

  /** Emission and patching of an accepted program. */
  method Assemble(source: seq<Instruction>, profile: InputProfile, head: seq<Piece>, zero: seq<Piece>, tail: seq<Piece>,
                  ghost u: Unit, ghost site: (nat, nat) -> seq<BranchSite>)
    returns (ok: bool, bytes: seq<U8>, table: seq<InstructionMap>, boundaries: seq<nat>, branches: seq<BranchSite>)
    requires IsProgram(u, site, source, profile) && u.head == head && u.zero == zero && u.tail == tail
    requires Closed(source) && StaysInside(u, |source|) && u.Size() < 0x8000_0000
    ensures ok && bytes == u.Image() && table == MapOf(u, u.count) && boundaries == OffsetsOf(u, u.count + 1)
    ensures branches == SitesOf(u, site, u.count)
  {
    var a, failure, epilogue;
    a, table, boundaries, failure, epilogue := EmitAll(source, profile, head, zero, tail, u, site);
    SitesPass(u, site, source, profile);
    ok := ResolveUnit(a, table, failure, epilogue, u);
    bytes, branches := a.bytes, a.branches;
  }

  lemma SourceImageOk(source: seq<Instruction>, profile: InputProfile)
    requires Acceptable(source) && Admitted(source, profile) && UnitOf(source, profile).Size() <= MAX_CODE_IMAGE_BYTES
    ensures ImageOk(BuiltImage(UnitOf(source, profile), SitesIn(source), source, profile))
    ensures Clean(UnitOf(source, profile).Image(), 0)
  {
    AcceptedUnit(source, profile);
    ImageLaidOut(source, profile);
    BuiltImageOk(UnitOf(source, profile), SitesIn(source), source, profile);
  }

  method BuildUnit(source: seq<Instruction>, profile: InputProfile, head: seq<Piece>, zero: seq<Piece>,
                   tail: seq<Piece>, ghost u: Unit, ghost site: (nat, nat) -> seq<BranchSite>)
    returns (r: Result<CodeImage, TranslationError>)
    requires IsProgram(u, site, source, profile) && u.head == head && u.zero == zero && u.tail == tail
    requires Closed(source) && StaysInside(u, |source|) && u.Size() < 0x8000_0000
    ensures if u.Size() <= MAX_CODE_IMAGE_BYTES then r == Ok(BuiltImage(u, site, source, profile))
            else r == Err(CodeTooLarge)
  {
    var ok, bytes, table, boundaries, branches := Assemble(source, profile, head, zero, tail, u, site);
    ImageLength(u);
    if !ok || |bytes| > MAX_CODE_IMAGE_BYTES {
      return Err(CodeTooLarge);
    }
    return Ok(CodeImage(bytes, [], 0, boundaries + [|bytes|], table, source, branches, profile));
  }

  /** The assembled image of an accepted source, or the size that does not fit. */
  method Build(source: seq<Instruction>, profile: InputProfile) returns (r: Result<CodeImage, TranslationError>)
    requires Acceptable(source) && Admitted(source, profile)
    ensures var u := UnitOf(source, profile);
            if u.Size() <= MAX_CODE_IMAGE_BYTES then r == Ok(BuiltImage(u, SitesIn(source), source, profile))
            else r == Err(CodeTooLarge)
  {
    AcceptedUnit(source, profile);
    r := BuildUnit(source, profile, EmitPrologue(profile), EmitZeroReturn(), EmitEpilogue(), UnitOf(source, profile),
                   SitesIn(source));
  }

  /** The translator validates what it built. */
  method Checked(image: CodeImage) returns (r: Result<CodeImage, TranslationError>)
    ensures if ImageOk(image) then r == Ok(image) else r.Err? && r.error.InvalidImage?
  {
    var bad := Validate(image);
    if bad.Some? {
      return Err(InvalidImage(bad.value));
    }
    return Ok(image);
  }

  /**
   The translator succeeds exactly on acceptable, admitted programs whose code
   fits the limit; its image passes full validation, so `InvalidImage` cannot
   happen, and is free of ambiguous bytes.
   */
  method TranslateProgram(source: seq<Instruction>, profile: InputProfile)
    returns (r: Result<CodeImage, TranslationError>)
    ensures r.Ok? <==> Acceptable(source) && Admitted(source, profile)
                       && UnitOf(source, profile).Size() <= MAX_CODE_IMAGE_BYTES
    ensures r == Err(CodeTooLarge) <==>
              Acceptable(source) && Admitted(source, profile) && UnitOf(source, profile).Size() > MAX_CODE_IMAGE_BYTES
    ensures r.Err? ==> !r.error.InvalidImage?
    ensures r.Err? && r.error.ProfileRejected? <==> !Admitted(source, profile)
    ensures r.Ok? ==> && ImageOk(r.value) && r.value.source == source && r.value.profile == profile
                      && r.value.bytes == UnitOf(source, profile).Image()
                      && Clean(r.value.bytes, 0)
  {
    var profileError := ValidateProfile(source, profile);
    if profileError.Some? {
      return Err(ProfileRejected(profileError.value));
    }
    var sourceError := SourceValidation.ValidateSource(source);
    if sourceError.Some? {
      return Err(InvalidSource(sourceError.value));
    }
    r := Build(source, profile);
    if r.Ok? {
      SourceImageOk(source, profile);
      r := Checked(r.value);
    }
  }
}
