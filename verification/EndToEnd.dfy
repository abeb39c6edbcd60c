/** The translator and the processor together: what comes out of translation computes what the interpreter computes. */
module EndToEnd {
  import opened Bpf
  import opened Native
  import opened Lowering
  import opened Frame
  import opened Footprint
  import opened Soundness
  import opened Verifier
  import opened Validator
  import opened Checking
  import opened Linking
  import opened Translation
  import opened Translator
  import opened Compiler
  import opened Faithful

  /** A validated image without ambiguous bytes computes its source on every valid call. */
  lemma ImageIsSound(image: CodeImage, c: Call, fuel: nat)
    requires ImageOk(image) && Clean(image.bytes, 0)
    requires ValidCall(c) && c.input.Profile() == image.profile && fuel >= |image.bytes|
    ensures Closed(image.source)
    ensures ReturnsTo(c, Evaluate(image.source, 0, INITIAL, c.input),
                      Run(Exec, Processor(image.bytes), 0, c.entry, fuel))
    ensures TouchesOwn(Processor(image.bytes), c, fuel)
  {
    var at: Layout :| LaidOut(Reader(image.bytes), |image.bytes|, image.source, image.profile, at)
                      && MetadataOk(image, SourceOffsets(at, |image.source|));
    assert Translates(image.bytes, image.source, image.profile);
    AcceptedImageIsSound(image.bytes, image.source, c, fuel);
  }

  /** The translator's code computes its source on every valid call. */
  lemma TranslatedProgramIsSound(source: seq<Instruction>, c: Call, fuel: nat)
    requires Acceptable(source) && Admitted(source, c.input.Profile()) && ValidCall(c)
    requires UnitOf(source, c.input.Profile()).Size() <= MAX_CODE_IMAGE_BYTES <= fuel
    ensures Closed(source)
    ensures var image := Processor(UnitOf(source, c.input.Profile()).Image());
            && ReturnsTo(c, Evaluate(source, 0, INITIAL, c.input), Run(Exec, image, 0, c.entry, fuel))
            && TouchesOwn(image, c, fuel)
  {
    var u := UnitOf(source, c.input.Profile());
    SourceImageOk(source, c.input.Profile());
    ImageLength(u);
    ImageIsSound(BuiltImage(u, SitesIn(source), source, c.input.Profile()), c, fuel);
  }
}
