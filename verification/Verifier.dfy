/**
 The program verifier, a loop over the instructions followed by the scratch pass,
 and the declarative acceptance that it and the two other acceptors are measured
 against.
 */
module Verifier {
  import opened Words
  import opened Bpf
  import opened Paths
  import opened ScratchAnalysis

  datatype VerifyError =
    | Empty
    | TooLong(length: nat)
    | UnsupportedOpcode(pc: nat, code: U16)
    | UnsupportedAncillaryLoad(pc: nat, offset: U32)
    | ImmediateDivisionByZero(pc: nat)
    | ImmediateShiftOutOfRange(pc: nat, shift: U32)
    | ScratchOutOfRange(pc: nat, index: U32)
    | ScratchUninitialized(pc: nat, index: U32)
    | JumpOutOfRange(pc: nat)
    | MissingFinalReturn
    | ProfileUnsupported(pc: nat, code: U16)

  // ----- declarative acceptance -----

  predicate Negative(k: U32) { And32(k, 0x8000_0000) != 0 }

  /** A load offset with the sign bit set must name a supported metadata field. */
  predicate OffsetOk(i: Instruction) {
    && (i.op.LdAbs? && Negative(i.k) ==> AncillaryFromOffset(i.k).Some?)
    && (i.op.LdxMsh? ==> !Negative(i.k))
  }

  predicate JumpsInside(i: Instruction, pc: nat, length: nat) {
    i.op.Ja? || i.op.Jump? ==> forall q :: q in Successors(i, pc) ==> q < length
  }

  predicate InstructionOk(i: Instruction, pc: nat, length: nat) {
    Executable(i) && OffsetOk(i) && JumpsInside(i, pc, length)
  }

  predicate WellFormed(program: seq<Instruction>) {
    && 0 < |program| <= MAX_INSTRUCTIONS
    && (forall pc :: 0 <= pc < |program| ==> InstructionOk(program[pc], pc, |program|))
    && IsReturn(program[|program| - 1].op)
  }

  /** What every acceptor must accept: well-formed programs with no unsafe scratch read. */
  ghost predicate Acceptable(program: seq<Instruction>) { WellFormed(program) && ScratchSafe(program) }

  /** Well-formed programs keep control inside. */
  lemma WellFormedClosed(program: seq<Instruction>)
    requires WellFormed(program)
    ensures Closed(program)
  {
    forall pc, q | 0 <= pc < |program| && q in Successors(program[pc], pc)
      ensures q < |program|
    {
      assert InstructionOk(program[pc], pc, |program|);
    }
  }

  // ----- the check of one instruction -----

  /** The complaint about one instruction, if any. */
  function InstructionError(i: Instruction, pc: nat, length: nat): Option<VerifyError> {
    match i.op
    case Unsupported(code) => Some(UnsupportedOpcode(pc, code))
    case Alu(Div, FromK) => if i.k == 0 then Some(ImmediateDivisionByZero(pc)) else None
    case Alu(Mod, FromK) => if i.k == 0 then Some(ImmediateDivisionByZero(pc)) else None
    case Alu(Lsh, FromK) => if i.k >= 32 then Some(ImmediateShiftOutOfRange(pc, i.k)) else None
    case Alu(Rsh, FromK) => if i.k >= 32 then Some(ImmediateShiftOutOfRange(pc, i.k)) else None
    case LdMem => ScratchError(i, pc)
    case LdxMem => ScratchError(i, pc)
    case St => ScratchError(i, pc)
    case Stx => ScratchError(i, pc)
    case Ja => if pc + 1 + i.k >= length then Some(JumpOutOfRange(pc)) else None
    case Jump(_, _) => if pc + 1 + i.jt >= length || pc + 1 + i.jf >= length then Some(JumpOutOfRange(pc)) else None
    case LdAbs(_) =>
      if Negative(i.k) && AncillaryFromOffset(i.k).None? then Some(UnsupportedAncillaryLoad(pc, i.k)) else None
    case LdxMsh => if Negative(i.k) then Some(UnsupportedAncillaryLoad(pc, i.k)) else None
    case _ => None
  }

  function ScratchError(i: Instruction, pc: nat): Option<VerifyError> {
    if i.k >= SCRATCH_WORDS then Some(ScratchOutOfRange(pc, i.k)) else None
  }

  /** An instruction is blamed exactly when it is not acceptable. */
  lemma BlameExact(i: Instruction, pc: nat, length: nat)
    ensures InstructionError(i, pc, length).None? <==> InstructionOk(i, pc, length)
  {
    if i.op.Jump? {
      assert pc + 1 + i.jt in Successors(i, pc) && pc + 1 + i.jf in Successors(i, pc);
    } else if i.op.Ja? {
      assert pc + 1 + i.k in Successors(i, pc);
    }
  }

  /** The verdict that acceptance determines: the first fault in checking order, or none. */
  ghost predicate Verdict(program: seq<Instruction>, r: Option<VerifyError>) {
    if |program| == 0 then r == Some(Empty)
    else if |program| > MAX_INSTRUCTIONS then r == Some(TooLong(|program|))
    else if exists pc :: 0 <= pc < |program| && !InstructionOk(program[pc], pc, |program|) then
      exists pc :: FirstBad(program, pc) && r == InstructionError(program[pc], pc, |program|)
    else if !IsReturn(program[|program| - 1].op) then r == Some(MissingFinalReturn)
    else if !ScratchSafe(program) then
      exists pc: nat :: FirstUnsafe(program, pc) && r == Some(ScratchUninitialized(pc, program[pc].k))
    else r == None
  }

  predicate FirstBad(program: seq<Instruction>, pc: int) {
    && 0 <= pc < |program| && !InstructionOk(program[pc], pc, |program|)
    && forall q :: 0 <= q < pc ==> InstructionOk(program[q], q, |program|)
  }

  ghost predicate FirstUnsafe(program: seq<Instruction>, pc: nat) {
    UnsafeAt(program, pc) && forall q: nat :: q < pc ==> !UnsafeAt(program, q)
  }

  /** The verdict is unique, so two acceptors that reach it return the same error or both accept. */
  lemma VerdictUnique(program: seq<Instruction>, r: Option<VerifyError>, t: Option<VerifyError>)
    requires Verdict(program, r) && Verdict(program, t)
    ensures r == t
    ensures r.None? <==> Acceptable(program)
  {
    if 0 < |program| <= MAX_INSTRUCTIONS {
      if exists pc :: 0 <= pc < |program| && !InstructionOk(program[pc], pc, |program|) {
        var a :| FirstBad(program, a) && r == InstructionError(program[a], a, |program|);
        var b :| FirstBad(program, b) && t == InstructionError(program[b], b, |program|);
        assert a == b;
        BlameExact(program[a], a, |program|);
      } else if IsReturn(program[|program| - 1].op) && !ScratchSafe(program) {
        var a: nat :| FirstUnsafe(program, a) && r == Some(ScratchUninitialized(a, program[a].k));
        var b: nat :| FirstUnsafe(program, b) && t == Some(ScratchUninitialized(b, program[b].k));
        assert a == b;
      }
    }
  }

  // ----- the program verifier -----

  method VerifyStructure(program: seq<Instruction>) returns (r: Option<VerifyError>)
    ensures r.None? <==> WellFormed(program)
    ensures r.Some? ==> Verdict(program, r)
  {
    if |program| == 0 {
      return Some(Empty);
    }
    if |program| > MAX_INSTRUCTIONS {
      return Some(TooLong(|program|));
    }
    for pc := 0 to |program|
      invariant forall q :: 0 <= q < pc ==> InstructionOk(program[q], q, |program|)
    {
      BlameExact(program[pc], pc, |program|);
      var error := InstructionError(program[pc], pc, |program|);
      if error.Some? {
        assert FirstBad(program, pc);
        return error;
      }
    }
    if !IsReturn(program[|program| - 1].op) {
      return Some(MissingFinalReturn);
    }
    return None;
  }

  /** Structure first, then the scratch pass. */
  method VerifyProgram(program: seq<Instruction>) returns (r: Option<VerifyError>)
    ensures Verdict(program, r)
    ensures r.None? <==> Acceptable(program)
  {
    r := VerifyStructure(program);
    if r.None? {
      WellFormedClosed(program);
      var bad := CheckScratch(program);
      if bad.Some? {
        assert FirstUnsafe(program, bad.value);
        r := Some(ScratchUninitialized(bad.value, program[bad.value].k));
      }
    }
  }

  // ----- input profiles -----

  /** The translator's profile check of one instruction. */
  function ProfileError(i: Instruction, pc: nat, profile: InputProfile): Option<VerifyError> {
    if i.op.LdAbs? && IsAncillaryOffset(i.k) && AncillaryFromOffset(i.k).Some? && !profile.PacketContextBigEndian? then
      Some(ProfileUnsupported(pc, CodeOf(i.op)))
    else if !profile.NativeAlignedWords? then None
    else
      match i.op
      case LdAbs(Word) => if i.k % 4 != 0 then Some(ProfileUnsupported(pc, CodeOf(i.op))) else None
      case LdAbs(_) => Some(ProfileUnsupported(pc, CodeOf(i.op)))
      case LdInd(Half) => Some(ProfileUnsupported(pc, CodeOf(i.op)))
      case LdInd(Byte) => Some(ProfileUnsupported(pc, CodeOf(i.op)))
      case LdxMsh => Some(ProfileUnsupported(pc, CodeOf(i.op)))
      case _ => None
  }

  lemma MaskThree(k: U32)
    ensures And32(k, 3) == k % 4
  {
    AndThree(k, 32);
  }

  lemma SupportedInWindow(k: U32)
    requires AncillaryFromOffset(k).Some?
    ensures IsAncillaryOffset(k)
  {
  }

  /** The profile check decides exactly which instructions the profile serves. */
  lemma ProfileExact(i: Instruction, pc: nat, profile: InputProfile)
    ensures ProfileError(i, pc, profile).None? <==> ProfileAdmits(i, profile)
  {
    if AncillaryFromOffset(i.k).Some? {
      SupportedInWindow(i.k);
    }
  }

  ghost predicate Admitted(program: seq<Instruction>, profile: InputProfile) {
    forall pc :: 0 <= pc < |program| ==> ProfileAdmits(program[pc], profile)
  }

  method ValidateProfile(program: seq<Instruction>, profile: InputProfile) returns (r: Option<VerifyError>)
    ensures r.None? <==> Admitted(program, profile)
    ensures r.Some? ==> exists pc :: 0 <= pc < |program| && r == ProfileError(program[pc], pc, profile)
                                     && forall q :: 0 <= q < pc ==> ProfileAdmits(program[q], profile)
  {
    for pc := 0 to |program|
      invariant forall q :: 0 <= q < pc ==> ProfileAdmits(program[q], profile)
    {
      ProfileExact(program[pc], pc, profile);
      var error := ProfileError(program[pc], pc, profile);
      if error.Some? {
        return error;
      }
    }
    return None;
  }
}
