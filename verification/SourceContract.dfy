/**
 The raw-byte validator's closed copy of the acceptance boundary, written against
 raw opcode words: instruction and profile checks in one loop, jump targets
 computed by one checked function, and a scratch pass that checks its targets
 again. It accepts exactly the acceptable programs that the profile admits.
 */
module SourceContract {
  import opened Words
  import opened Bpf
  import opened Paths
  import opened Masks
  import opened ScratchAnalysis
  import opened Verifier
  import opened SourceValidation

  /** The opcode words that the validator knows. */
  predicate SourceOpcodeSupported(code: U16) {
    match code
    case 0x00 | 0x20 | 0x28 | 0x30 | 0x40 | 0x48 | 0x50 | 0x60 | 0x80 => true
    case 0x01 | 0x61 | 0x81 | 0xb1 | 0x02 | 0x03 => true
    case 0x04 | 0x0c | 0x14 | 0x1c | 0x24 | 0x2c | 0x34 | 0x3c | 0x44 | 0x4c | 0x54 | 0x5c => true
    case 0x64 | 0x6c | 0x74 | 0x7c | 0x84 | 0x94 | 0x9c | 0xa4 | 0xac => true
    case 0x05 | 0x15 | 0x1d | 0x25 | 0x2d | 0x35 | 0x3d | 0x45 | 0x4d => true
    case 0x06 | 0x16 | 0x07 | 0x87 => true
    case _ => false
  }

  lemma SameOpcodes(code: U16)
    ensures SourceOpcodeSupported(code) <==> Supported(code)
  {
  }

  /** A forward target, if it lies inside the program. */
  function SourceTarget(pc: nat, offset: nat, length: nat): (target: Option<nat>)
    ensures target.Some? <==> pc + 1 + offset < length
  {
    var target := pc + 1 + offset;
    if target < length then Some(target) else None
  }

  /** The checks of one instruction apart from its jumps. */
  method CheckOperation(i: Instruction, pc: nat, ghost length: nat) returns (error: Option<VerifyError>)
    ensures error == if i.op.Ja? || i.op.Jump? then None else InstructionError(i, pc, length)
  {
    SameOpcodes(i.Code());
    UnknownIsUnsupported(i.op);
    if !SourceOpcodeSupported(i.Code()) {
      return Some(UnsupportedOpcode(pc, i.Code()));
    }
    error := CheckImmediate(i, pc, length);
  }

  method CheckImmediate(i: Instruction, pc: nat, ghost length: nat) returns (error: Option<VerifyError>)
    requires !i.op.Unsupported?
    ensures error == if i.op.Ja? || i.op.Jump? then None else InstructionError(i, pc, length)
  {
    var code := i.Code();
    match code {
      case 0x34 | 0x94 =>
        if i.k == 0 {
          return Some(ImmediateDivisionByZero(pc));
        }
      case 0x64 | 0x74 =>
        if i.k >= 32 {
          return Some(ImmediateShiftOutOfRange(pc, i.k));
        }
      case 0x60 | 0x61 | 0x02 | 0x03 =>
        if i.k >= SCRATCH_WORDS {
          return Some(ScratchOutOfRange(pc, i.k));
        }
      case 0x20 | 0x28 | 0x30 =>
        if And32(i.k, 0x8000_0000) != 0 && AncillaryFromOffset(i.k).None? {
          return Some(UnsupportedAncillaryLoad(pc, i.k));
        }
      case 0xb1 =>
        if And32(i.k, 0x8000_0000) != 0 {
          return Some(UnsupportedAncillaryLoad(pc, i.k));
        }
      case _ =>
    }
    return None;
  }

  /** The profile check of one instruction, with a mask where the translator takes a remainder. */
  method CheckProfile(i: Instruction, pc: nat, profile: InputProfile) returns (error: Option<VerifyError>)
    ensures error == ProfileError(i, pc, profile)
  {
    var code := i.Code();
    MaskThree(i.k);
    var absolute := code == 0x20 || code == 0x28 || code == 0x30;
    assert absolute <==> i.op.LdAbs?;
    if absolute && IsAncillaryOffset(i.k) && AncillaryFromOffset(i.k).Some? && !profile.PacketContextBigEndian? {
      return Some(ProfileUnsupported(pc, code));
    }
    if !profile.NativeAlignedWords? {
      return None;
    }
    match code {
      case 0x20 =>
        if And32(i.k, 3) != 0 {
          return Some(ProfileUnsupported(pc, code));
        }
      case 0x28 | 0x30 | 0x48 | 0x50 | 0xb1 =>
        return Some(ProfileUnsupported(pc, code));
      case _ =>
    }
    return None;
  }

  /** The jump checks of one instruction. */
  method CheckJumps(i: Instruction, pc: nat, length: nat) returns (error: Option<VerifyError>)
    ensures error == if i.op.Ja? || i.op.Jump? then InstructionError(i, pc, length) else None
  {
    match i.Code() {
      case 0x05 =>
        if SourceTarget(pc, i.k, length).None? {
          return Some(JumpOutOfRange(pc));
        }
      case 0x15 | 0x1d | 0x25 | 0x2d | 0x35 | 0x3d | 0x45 | 0x4d =>
        if SourceTarget(pc, i.jt, length).None? || SourceTarget(pc, i.jf, length).None? {
          return Some(JumpOutOfRange(pc));
        }
      case _ =>
    }
    return None;
  }

  /**
   Merges a mask into the successors of `pc` that lie inside the program; a jump whose
   target does not is an error, a fall-through past the end is ignored.
   */
  method MergeChecked(incoming: array<Option<U16>>, program: seq<Instruction>, pc: nat, code: U16, initialized: U16)
    returns (inside: bool)
    requires pc < |program| && Describes(code, program[pc], pc) && Meets(program, pc, incoming)
    requires IsOutgoing(program, pc, SetOf(initialized)) && exists p :: PathTo(program, pc, pc, p)
    modifies incoming
    ensures inside <==> JumpsInside(program[pc], pc, |program|)
    ensures inside ==> Meets(program, pc + 1, incoming)
  {
    var i := program[pc];
    ghost var done: set<nat> := {};
    if code == 0x06 || code == 0x16 {
    } else if code == 0x05 {
      var target := SourceTarget(pc, i.k, |program|);
      if target.None? {
        return false;
      }
      MergeInitialized(incoming, target.value, initialized, program, pc, done);
      done := done + {target.value};
    } else if IsConditional(code) {
      var yes := SourceTarget(pc, i.jt, |program|);
      if yes.None? {
        return false;
      }
      var no := SourceTarget(pc, i.jf, |program|);
      if no.None? {
        return false;
      }
      MergeInitialized(incoming, yes.value, initialized, program, pc, done);
      done := done + {yes.value};
      MergeInitialized(incoming, no.value, initialized, program, pc, done);
      done := done + {no.value};
    } else {
      if pc + 1 < |program| {
        MergeInitialized(incoming, pc + 1, initialized, program, pc, done);
        done := done + {pc + 1};
      }
    }
    MergedAll(program, pc, incoming, done);
    return true;
  }

  /**
   The scratch pass on any program of executable instructions, closed or not: no complaint means
   that no path reads an unstored word; a scratch complaint is about the first such read; a jump
   complaint is about a jump that does leave the program.
   */
  method CheckInitialization(program: seq<Instruction>) returns (error: Option<VerifyError>)
    requires |program| > 0 && forall pc :: 0 <= pc < |program| ==> Executable(program[pc])
    ensures error.None? ==> ScratchSafe(program)
    ensures error.Some? ==> exists pc: nat ::
      || (FirstUnsafe(program, pc) && error == Some(ScratchUninitialized(pc, program[pc].k)))
      || (pc < |program| && !JumpsInside(program[pc], pc, |program|) && error == Some(JumpOutOfRange(pc)))
  {
    var incoming := new Option<U16>[|program|](q => if q == 0 then Some(0) else None);
    StartMeets(program, incoming);
    SafeMeansNowhereUnsafe(program);
    for pc := 0 to |program|
      invariant Meets(program, pc, incoming)
      invariant forall q: nat :: q < pc ==> !UnsafeAt(program, q)
    {
      var i := program[pc];
      if incoming[pc].None? {
        SkipMeets(program, pc, incoming);
        continue;
      }
      var initialized := incoming[pc].value;
      ghost var mask := SetOf(initialized);
      var code := OpcodeAt(program, pc);
      match code {
        case 0x60 | 0x61 =>
          ReadDecided(program, pc, mask);
          TestIsMember(initialized, i.k);
          if And16(initialized, Bit16(i.k)) == 0 {
            assert FirstUnsafe(program, pc);
            return Some(ScratchUninitialized(pc, i.k));
          }
        case 0x02 | 0x03 =>
          OrAdds(initialized, i.k);
          initialized := Or16(initialized, Bit16(i.k));
        case _ =>
      }
      OutgoingMask(program, pc, mask, SetOf(initialized));
      var inside := MergeChecked(incoming, program, pc, code, initialized);
      if !inside {
        return Some(JumpOutOfRange(pc));
      }
    }
    return None;
  }

  /**
   It accepts exactly the acceptable programs that the profile admits, and on programs
   the profile admits it reaches the program verifier's verdict.
   */
  method ValidateSourceContract(program: seq<Instruction>, profile: InputProfile) returns (r: Option<VerifyError>)
    ensures r.None? <==> Acceptable(program) && Admitted(program, profile)
    ensures Admitted(program, profile) ==> Verdict(program, r)
  {
    if |program| == 0 {
      return Some(Empty);
    }
    if |program| > MAX_INSTRUCTIONS {
      return Some(TooLong(|program|));
    }
    for pc := 0 to |program|
      invariant forall q :: 0 <= q < pc ==> InstructionOk(program[q], q, |program|)
                                            && ProfileAdmits(program[q], profile)
    {
      BlameExact(program[pc], pc, |program|);
      ProfileExact(program[pc], pc, profile);
      var error := CheckOperation(program[pc], pc, |program|);
      if error.Some? {
        assert FirstBad(program, pc);
        return error;
      }
      error := CheckProfile(program[pc], pc, profile);
      if error.Some? {
        return error;
      }
      error := CheckJumps(program[pc], pc, |program|);
      if error.Some? {
        assert FirstBad(program, pc);
        return error;
      }
    }
    ReturnCodes(program[|program| - 1]);
    if program[|program| - 1].Code() !in {0x06, 0x16} {
      return Some(MissingFinalReturn);
    }
    assert WellFormed(program);
    r := CheckInitialization(program);
    UnsafeRefutes(program);
  }

  lemma UnsafeRefutes(program: seq<Instruction>)
    ensures ScratchSafe(program) ==> forall pc: nat :: !FirstUnsafe(program, pc)
  {
    SafeMeansNowhereUnsafe(program);
  }
}
