/**
 The translator's own source acceptor, written against raw opcode words: its own
 opcode list, its own checks and its own scratch pass with unchecked targets.
 It is proved to reach the verdict of the program verifier.
 */
module SourceValidation {
  import opened Words
  import opened Bpf
  import opened Paths
  import opened Masks
  import opened ScratchAnalysis
  import opened Verifier

  /** The opcode words that the translator lowers. */
  predicate IsSupported(code: U16) {
    match code
    case 0x00 | 0x20 | 0x28 | 0x30 | 0x40 | 0x48 | 0x50 | 0x60 | 0x80 => true
    case 0x01 | 0x61 | 0x81 | 0xb1 | 0x02 | 0x03 => true
    case 0x04 | 0x0c | 0x14 | 0x1c | 0x24 | 0x2c | 0x34 | 0x3c | 0x44 | 0x4c | 0x54 | 0x5c => true
    case 0x64 | 0x6c | 0x74 | 0x7c | 0x84 | 0x94 | 0x9c | 0xa4 | 0xac => true
    case 0x05 | 0x15 | 0x1d | 0x25 | 0x2d | 0x35 | 0x3d | 0x45 | 0x4d => true
    case 0x06 | 0x16 | 0x07 | 0x87 => true
    case _ => false
  }

  lemma SupportedIsKnown(code: U16)
    ensures IsSupported(code) <==> Supported(code)
  {
  }

  lemma UnknownIsUnsupported(op: Op)
    ensures Supported(CodeOf(op)) <==> !op.Unsupported?
  {
  }

  /** The arms of the first loop. */
  method CheckInstruction(i: Instruction, pc: nat, length: nat) returns (error: Option<VerifyError>)
    ensures error == InstructionError(i, pc, length)
  {
    var code := i.Code();
    SupportedIsKnown(code);
    UnknownIsUnsupported(i.op);
    if !IsSupported(code) {
      return Some(UnsupportedOpcode(pc, code));
    }
    match code {
      case 0x34 | 0x94 =>
        if i.k == 0 {
          return Some(ImmediateDivisionByZero(pc));
        }
      case 0x64 | 0x74 =>
        if i.k >= 32 {
          return Some(ImmediateShiftOutOfRange(pc, i.k));
        }
      case 0x60 | 0x61 | 0x02 | 0x03 =>
        if i.k >= SCRATCH_WORDS {
          return Some(ScratchOutOfRange(pc, i.k));
        }
      case 0x05 =>
        if pc + 1 + i.k >= length {
          return Some(JumpOutOfRange(pc));
        }
      case 0x15 | 0x1d | 0x25 | 0x2d | 0x35 | 0x3d | 0x45 | 0x4d =>
        if pc + 1 + i.jt >= length || pc + 1 + i.jf >= length {
          return Some(JumpOutOfRange(pc));
        }
      case 0x20 | 0x28 | 0x30 =>
        if And32(i.k, 0x8000_0000) != 0 && AncillaryFromOffset(i.k).None? {
          return Some(UnsupportedAncillaryLoad(pc, i.k));
        }
      case 0xb1 =>
        if And32(i.k, 0x8000_0000) != 0 {
          return Some(UnsupportedAncillaryLoad(pc, i.k));
        }
      case _ =>
    }
    return None;
  }

  /** Where an opcode word sends control. */
  function Targets(code: U16, i: Instruction, pc: nat): set<nat> {
    if code == 0x06 || code == 0x16 then {}
    else if code == 0x05 then {pc + 1 + i.k}
    else if IsConditional(code) then {pc + 1 + i.jt, pc + 1 + i.jf}
    else {pc + 1}
  }

  predicate IsConditional(code: U16) {
    match code
    case 0x15 | 0x1d | 0x25 | 0x2d | 0x35 | 0x3d | 0x45 | 0x4d => true
    case _ => false
  }

  /** What the scratch passes read off an opcode word is right for the instruction. */
  predicate Describes(code: U16, i: Instruction, pc: nat) {
    && Successors(i, pc) == Targets(code, i, pc)
    && (code == 0x60 || code == 0x61 <==> Reads(i))
    && (code == 0x02 || code == 0x03 <==> i.op.St? || i.op.Stx?)
    && (code == 0x05 || IsConditional(code) <==> i.op.Ja? || i.op.Jump?)
  }

  method OpcodeAt(program: seq<Instruction>, pc: nat) returns (code: U16)
    requires pc < |program| && !program[pc].op.Unsupported?
    ensures Describes(code, program[pc], pc)
  {
    code := program[pc].Code();
  }

  /** The last arms of the second loop: every target is indexed without a check. */
  method MergeTargets(incoming: array<Option<U16>>, program: seq<Instruction>, pc: nat, code: U16, initialized: U16)
    requires pc < |program| && Meets(program, pc, incoming)
    requires Describes(code, program[pc], pc) && forall q :: q in Targets(code, program[pc], pc) ==> q < |program|
    requires IsOutgoing(program, pc, SetOf(initialized)) && exists p :: PathTo(program, pc, pc, p)
    modifies incoming
    ensures Meets(program, pc + 1, incoming)
  {
    var i := program[pc];
    ghost var done: set<nat> := {};
    if code == 0x06 || code == 0x16 {
    } else if code == 0x05 {
      MergeInitialized(incoming, pc + 1 + i.k, initialized, program, pc, done);
      done := done + {pc + 1 + i.k};
    } else if IsConditional(code) {
      MergeInitialized(incoming, pc + 1 + i.jt, initialized, program, pc, done);
      done := done + {pc + 1 + i.jt};
      MergeInitialized(incoming, pc + 1 + i.jf, initialized, program, pc, done);
      done := done + {pc + 1 + i.jf};
    } else {
      MergeInitialized(incoming, pc + 1, initialized, program, pc, done);
      done := done + {pc + 1};
    }
    MergedAll(program, pc, incoming, done);
  }

  /** The second loop: scratch words stored on every path. */
  method CheckInitialized(program: seq<Instruction>) returns (error: Option<VerifyError>)
    requires Closed(program)
    ensures error.None? <==> ScratchSafe(program)
    ensures error.Some? ==> exists pc: nat :: FirstUnsafe(program, pc)
                                              && error == Some(ScratchUninitialized(pc, program[pc].k))
  {
    var incoming := new Option<U16>[|program|](q => if q == 0 then Some(0) else None);
    StartMeets(program, incoming);
    SafeMeansNowhereUnsafe(program);
    for pc := 0 to |program|
      invariant Meets(program, pc, incoming)
      invariant forall q: nat :: q < pc ==> !UnsafeAt(program, q)
    {
      var i := program[pc];
      if incoming[pc].None? {
        SkipMeets(program, pc, incoming);
        continue;
      }
      var initialized := incoming[pc].value;
      ghost var mask := SetOf(initialized);
      var code := OpcodeAt(program, pc);
      match code {
        case 0x60 | 0x61 =>
          ReadDecided(program, pc, mask);
          TestIsMember(initialized, i.k);
          if And16(initialized, Bit16(i.k)) == 0 {
            assert FirstUnsafe(program, pc);
            return Some(ScratchUninitialized(pc, i.k));
          }
        case 0x02 | 0x03 =>
          OrAdds(initialized, i.k);
          initialized := Or16(initialized, Bit16(i.k));
        case _ =>
      }
      OutgoingMask(program, pc, mask, SetOf(initialized));
      MergeTargets(incoming, program, pc, code, initialized);
    }
    return None;
  }

  /** The translator's acceptor reaches the verdict that acceptance determines. */
  method ValidateSource(program: seq<Instruction>) returns (r: Option<VerifyError>)
    ensures Verdict(program, r)
    ensures r.None? <==> Acceptable(program)
  {
    if |program| == 0 {
      return Some(Empty);
    }
    if |program| > MAX_INSTRUCTIONS {
      return Some(TooLong(|program|));
    }
    for pc := 0 to |program|
      invariant forall q :: 0 <= q < pc ==> InstructionOk(program[q], q, |program|)
    {
      BlameExact(program[pc], pc, |program|);
      var error := CheckInstruction(program[pc], pc, |program|);
      if error.Some? {
        assert FirstBad(program, pc);
        return error;
      }
    }
    ReturnCodes(program[|program| - 1]);
    if program[|program| - 1].Code() !in {0x06, 0x16} {
      return Some(MissingFinalReturn);
    }
    WellFormedClosed(program);
    r := CheckInitialized(program);
  }

  lemma ReturnCodes(i: Instruction)
    ensures i.Code() in {0x06, 0x16} <==> IsReturn(i.op)
  {
  }
}
