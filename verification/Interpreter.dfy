/**
 The two interpreters: loops over A, X, sixteen scratch words updated in place
 and a program counter. Both compute the reference value of an accepted program.
 */
module Interpreter {
  import opened Words
  import opened Bpf
  import opened Paths
  import opened Verifier
  import opened SourceValidation

  /** Executes one instruction, storing into the scratch array in place. */
  method ExecuteOne(i: Instruction, pc: nat, a: U32, x: U32, scratch: array<U32>, input: Input)
    returns (o: Option<U32>, q: nat, a': U32, x': U32)
    requires Executable(i) && scratch.Length == SCRATCH_WORDS
    modifies scratch
    ensures var s := Step(i, pc, Vm(a, x, old(scratch[..])), input);
            if s.Done? then o == Some(s.value) else o.None? && s == Next(q, Vm(a', x', scratch[..]))
  {
    var k := i.k;
    o, q, a', x' := None, pc + 1, a, x;
    match i.op
    case LdImm => a' := k;
    case LdAbs(width) =>
      var field := AncillaryFromOffset(k);
      if field.Some? {
        var v := input.AncillaryValue(field.value);
        a' := if v.Some? then v.value else 0;
      } else {
        var v := input.Load(k, width);
        if v.None? {
          o := Some(0);
        } else {
          a' := v.value;
        }
      }
    case LdInd(width) =>
      if x + k >= B32 {
        o := Some(0);
      } else {
        var v := input.Load(x + k, width);
        if v.None? {
          o := Some(0);
        } else {
          a' := v.value;
        }
      }
    case LdMem => a' := scratch[k];
    case LdLen => a' := input.Len();
    case LdxImm => x' := k;
    case LdxMem => x' := scratch[k];
    case LdxLen => x' := input.Len();
    case LdxMsh =>
      var v := input.Load(k, Byte);
      if v.None? {
        o := Some(0);
      } else {
        x' := Shl32(And32(v.value, 0x0f), 2);
      }
    case St => scratch[k] := a;
    case Stx => scratch[k] := x;
    case Alu(kind, FromK) => a' := AluResult(kind, a, k);
    case Alu(kind, FromX) =>
      if kind in {Div, Mod} && x == 0 {
        o := Some(0);
      } else {
        a' := AluResult(kind, a, if kind in {Lsh, Rsh} then And32(x, 31) else x);
      }
    case Neg => a' := Neg32(a);
    case Ja => q := pc + 1 + k;
    case Jump(kind, src) =>
      var operand := if src.FromX? then x else k;
      q := pc + 1 + if JumpTaken(kind, a, operand) then i.jt else i.jf;
    case RetK => o := Some(k);
    case RetA => o := Some(a);
    case Tax => x' := a;
    case Txa => a' := x;
  }

  /**
   Evaluates a verified program: no index leaves bounds, no divisor is zero, the program
   counter only grows, and the value comes after at most as many steps as instructions.
   */
  method EvaluateCounted(program: seq<Instruction>, input: Input) returns (value: U32, steps: nat)
    requires Closed(program)
    ensures value == Evaluate(program, 0, INITIAL, input)
    ensures 1 <= steps <= |program|
  {
    var a, x: U32, pc := 0, 0, 0;
    var scratch := new U32[SCRATCH_WORDS](_ => 0);
    value, steps := 0, 0;
    assert scratch[..] == INITIAL.m;
    while steps < |program|
      invariant steps <= pc < |program| && 0 <= a < B32
      invariant Evaluate(program, pc, Vm(a, x, scratch[..]), input) == Evaluate(program, 0, INITIAL, input)
    {
      ghost var vm := Vm(a, x, scratch[..]);
      StepStays(program[pc], pc, vm, input);
      steps := steps + 1;
      var o, q, a', x' := ExecuteOne(program[pc], pc, a, x, scratch, input);
      if o.Some? {
        return o.value, steps;
      }
      a, x, pc := a', x', q;
    }
    assert false;
  }

  // ----- the image's second reference model, on raw opcode words -----

  /** One round of the second interpreter: an executable instruction does its step, an unknown one returns zero. */
  ghost predicate Follows(i: Instruction, pc: nat, vm: Vm, input: Input, o: Option<U32>, q: nat, next: Vm)
    requires ValidVm(vm)
  {
    && (i.op.Unsupported? ==> o == Some(0))
    && (Executable(i) ==> if o.Some? then Step(i, pc, vm, input) == Done(o.value)
        else Step(i, pc, vm, input) == Next(q, next))
  }

  /** The width a load opcode names, as the interpreter's tests order it. */
  function WidthOf(code: U16, word: U16, half: U16): LoadWidth {
    if code == word then Word else if code == half then Half else Byte
  }

  method ReadSource(i: Instruction, pc: nat, a: U32, x: U32, scratch: array<U32>, input: Input)
    returns (o: Option<U32>, a': U32, x': U32)
    requires Executable(i) && scratch.Length == SCRATCH_WORDS
    requires i.op.LdImm? || i.op.LdAbs? || i.op.LdInd? || i.op.LdMem? || i.op.LdLen?
             || i.op.LdxImm? || i.op.LdxMem? || i.op.LdxLen? || i.op.LdxMsh?
    ensures Follows(i, pc, Vm(a, x, scratch[..]), input, o, pc + 1, Vm(a', x', scratch[..]))
  {
    var code, k := i.Code(), i.k;
    o, a', x' := None, a, x;
    if code == 0x00 {
      a' := k;
    } else if code == 0x20 || code == 0x28 || code == 0x30 {
      var field := AncillaryFromOffset(k);
      if field.Some? {
        var v := input.AncillaryValue(field.value);
        a' := if v.Some? then v.value else 0;
      } else {
        var v := input.Load(k, WidthOf(code, 0x20, 0x28));
        if v.None? {
          return Some(0), a, x;
        }
        a' := v.value;
      }
    } else if code == 0x40 || code == 0x48 || code == 0x50 {
      if x + k >= B32 {
        return Some(0), a, x;
      }
      var v := input.Load(x + k, WidthOf(code, 0x40, 0x48));
      if v.None? {
        return Some(0), a, x;
      }
      a' := v.value;
    } else if code == 0x60 {
      a' := scratch[k];
    } else if code == 0x80 {
      a' := input.Len();
    } else if code == 0x01 {
      x' := k;
    } else if code == 0x61 {
      x' := scratch[k];
    } else if code == 0x81 {
      x' := input.Len();
    } else {
      assert code == 0xb1;
      var v := input.Load(k, Byte);
      if v.None? {
        return Some(0), a, x;
      }
      x' := Shl32(And32(v.value, 0x0f), 2);
    }
  }

  method ComputeSource(i: Instruction, pc: nat, a: U32, x: U32, ghost m: seq<U32>, ghost input: Input)
    returns (o: Option<U32>, a': U32)
    requires Executable(i) && |m| == SCRATCH_WORDS && (i.op.Alu? || i.op.Neg?)
    ensures Follows(i, pc, Vm(a, x, m), input, o, pc + 1, Vm(a', x, m))
  {
    var k := i.k;
    o, a' := None, a;
    match i.Code() {
      case 0x04 => a' := Add32(a, k);
      case 0x0c => a' := Add32(a, x);
      case 0x14 => a' := Sub32(a, k);
      case 0x1c => a' := Sub32(a, x);
      case 0x24 => a' := Mul32(a, k);
      case 0x2c => a' := Mul32(a, x);
      case 0x34 => a' := Quotient32(a, k);
      case 0x3c =>
        if x == 0 {
          return Some(0), a;
        }
        a' := Quotient32(a, x);
      case 0x44 => a' := Or32(a, k);
      case 0x4c => a' := Or32(a, x);
      case 0x54 => a' := And32(a, k);
      case 0x5c => a' := And32(a, x);
      case 0x64 => a' := Shl32(a, k);
      case 0x6c => a' := Shl32(a, And32(x, 31));
      case 0x74 => a' := Shr32(a, k);
      case 0x7c => a' := Shr32(a, And32(x, 31));
      case 0x84 => a' := Neg32(a);
      case 0x94 => a' := Remainder32(a, k);
      case 0x9c =>
        if x == 0 {
          return Some(0), a;
        }
        a' := Remainder32(a, x);
      case 0xa4 => a' := Xor32(a, k);
      case 0xac => a' := Xor32(a, x);
      case _ => assert false;
    }
  }

  /** The comparison of a conditional jump. */
  predicate Compares(code: U16, a: U32, operand: U32) {
    if code == 0x15 || code == 0x1d then a == operand
    else if code == 0x25 || code == 0x2d then a > operand
    else if code == 0x35 || code == 0x3d then a >= operand
    else And32(a, operand) != 0
  }

  method MoveSource(i: Instruction, pc: nat, a: U32, x: U32, scratch: array<U32>, ghost input: Input)
    returns (o: Option<U32>, q: nat, a': U32, x': U32)
    requires Executable(i) || i.op.Unsupported?
    requires scratch.Length == SCRATCH_WORDS
    requires i.op.St? || i.op.Stx? || i.op.Ja? || i.op.Jump? || IsReturn(i.op) || i.op.Tax? || i.op.Txa?
             || i.op.Unsupported?
    modifies scratch
    ensures Follows(i, pc, Vm(a, x, old(scratch[..])), input, o, q, Vm(a', x', scratch[..]))
  {
    var code, k := i.Code(), i.k;
    UnknownIsUnsupported(i.op);
    o, q, a', x' := None, pc + 1, a, x;
    if code == 0x02 {
      scratch[k] := a;
    } else if code == 0x03 {
      scratch[k] := x;
    } else if code == 0x05 {
      q := pc + 1 + k;
    } else if IsConditional(code) {
      var operand := if code == 0x1d || code == 0x2d || code == 0x3d || code == 0x4d then x else k;
      q := pc + 1 + if Compares(code, a, operand) then i.jt else i.jf;
    } else if code == 0x06 {
      o := Some(k);
    } else if code == 0x16 {
      o := Some(a);
    } else if code == 0x07 {
      x' := a;
    } else if code == 0x87 {
      a' := x;
    } else {
      o := Some(0);
    }
  }

  predicate IsRead(code: U16) {
    match code
    case 0x00 | 0x20 | 0x28 | 0x30 | 0x40 | 0x48 | 0x50 | 0x60 | 0x80 | 0x01 | 0x61 | 0x81 | 0xb1 => true
    case _ => false
  }

  predicate IsComputation(code: U16) {
    match code
    case 0x04 | 0x0c | 0x14 | 0x1c | 0x24 | 0x2c | 0x34 | 0x3c | 0x44 | 0x4c | 0x54 | 0x5c => true
    case 0x64 | 0x6c | 0x74 | 0x7c | 0x84 | 0x94 | 0x9c | 0xa4 | 0xac => true
    case _ => false
  }

  lemma ReadCodes(op: Op)
    ensures IsRead(CodeOf(op)) <==>
            op.LdImm? || op.LdAbs? || op.LdInd? || op.LdMem? || op.LdLen?
            || op.LdxImm? || op.LdxMem? || op.LdxLen? || op.LdxMsh?
  {
  }

  lemma ComputationCodes(op: Op)
    ensures IsComputation(CodeOf(op)) <==> op.Alu? || op.Neg?
  {
  }

  /** One round of the loop, split by what the opcode word asks for. */
  method ExecuteSource(i: Instruction, pc: nat, a: U32, x: U32, scratch: array<U32>, input: Input)
    returns (o: Option<U32>, q: nat, a': U32, x': U32)
    requires Executable(i) || i.op.Unsupported?
    requires scratch.Length == SCRATCH_WORDS
    modifies scratch
    ensures Follows(i, pc, Vm(a, x, old(scratch[..])), input, o, q, Vm(a', x', scratch[..]))
  {
    ReadCodes(i.op);
    ComputationCodes(i.op);
    q, x' := pc + 1, x;
    if IsComputation(i.Code()) {
      o, a' := ComputeSource(i, pc, a, x, scratch[..], input);
    } else if IsRead(i.Code()) {
      o, a', x' := ReadSource(i, pc, a, x, scratch, input);
    } else {
      o, q, a', x' := MoveSource(i, pc, a, x, scratch, input);
    }
  }

  /** On accepted sources neither the arm for unknown opcodes nor the zero after the loop is reached. */
  method EvaluateSource(program: seq<Instruction>, input: Input) returns (value: U32)
    requires Closed(program)
    ensures value == Evaluate(program, 0, INITIAL, input)
  {
    var a, x: U32, pc := 0, 0, 0;
    var scratch := new U32[SCRATCH_WORDS](_ => 0);
    var steps := 0;
    value := 0;
    assert scratch[..] == INITIAL.m;
    while steps < |program|
      invariant steps <= pc < |program| && 0 <= a < B32
      invariant Evaluate(program, pc, Vm(a, x, scratch[..]), input) == Evaluate(program, 0, INITIAL, input)
    {
      StepStays(program[pc], pc, Vm(a, x, scratch[..]), input);
      steps := steps + 1;
      var o, q, a', x' := ExecuteSource(program[pc], pc, a, x, scratch, input);
      if o.Some? {
        return o.value;
      }
      a, x, pc := a', x', q;
    }
    assert false;
  }
}
