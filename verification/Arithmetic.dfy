/**
 The arithmetic, scratch-memory and control blocks simulate their instructions.
 */
module Arithmetic {
  import opened Words
  import opened Bpf
  import opened Native
  import opened Lowering
  import opened Frame
  import opened Blocks
  import opened Simulation

  /** The block leaves the value in eax and disturbs only temporaries. */
  predicate Computes(f: Flow, s: State, v: U32) {
    f.Fall? && Touches(s, f.state) && f.state.regs[RAX] == v && f.state.regs[RCX] == s.regs[RCX]
  }

  lemma ComputesSimulates(c: Call, f: Flow, s: State, pc: nat, vm: Vm, v: U32)
    requires Matches(c, s, vm) && Computes(f, s, v)
    ensures Simulates(c, s, f, pc, Next(pc + 1, vm.(a := v)))
  {
    Continues(c, s, f, pc, vm.(a := v));
  }

  // ----- one-operation arithmetic -----

  lemma BinaryComputes(perform: Performer, s: State, kind: AluKind, src: Operand, b: U32)
    requires IsMachine(perform) && kind in {Add, Sub, Or, And, Xor} && s.regs[RAX] < B32
    requires !src.Mem? && Value32(s, src) == b
    ensures Computes(perform([Op32(BinaryKindOf(kind), Eax, src)], s), s, AluResult(kind, s.regs[RAX], b))
  {
    var a := s.regs[RAX];
    match kind
    case Add => DoAdd(perform, Eax, src, s, a, b);
    case Sub => DoSub(perform, Eax, src, s, a, b);
    case Or => DoOr(perform, Eax, src, s, a, b);
    case And => DoAnd(perform, Eax, src, s, a, b);
    case Xor => DoXor(perform, Eax, src, s, a, b);
  }

  lemma MultiplyComputes(perform: Performer, s: State, k: U32)
    requires IsMachine(perform) && s.regs[RAX] < B32 && s.regs[RCX] < B32
    ensures Computes(perform([Exact(ImmediateMultiply(Eax, Eax, k))], s), s, Mul32(s.regs[RAX], k))
    ensures Computes(perform([Op32(XMul, Eax, Reg(Ecx))], s), s, Mul32(s.regs[RAX], s.regs[RCX]))
  {
    Single(perform, Exact(ImmediateMultiply(Eax, Eax, k)), s);
    DoMul(perform, Eax, Reg(Ecx), s, s.regs[RAX], s.regs[RCX]);
  }

  lemma NegateComputes(perform: Performer, s: State)
    requires IsMachine(perform) && s.regs[RAX] < B32
    ensures Computes(perform([Exact(Unary(Negate, W32, Eax, 0))], s), s, Neg32(s.regs[RAX]))
  {
    assert Reg32(s, Eax) == s.regs[RAX];
    Single(perform, Exact(Unary(Negate, W32, Eax, 0)), s);
  }

  lemma ShiftComputes(perform: Performer, s: State, shift: ShiftKind, k: U32)
    requires IsMachine(perform) && s.regs[RAX] < B32 && k < 32
    ensures Computes(perform([Exact(ShiftImmediate(shift, W32, Eax, k % 0x100))], s), s,
                     Shifted(shift, s.regs[RAX], k))
  {
    DoShift(perform, shift, Eax, k, s);
  }

  // ----- division -----

  lemma ClearEdx(perform: Performer, s: State)
    requires IsMachine(perform)
    ensures var f := perform([Op32(XXor, Edx, Reg(Edx))], s);
            f.Fall? && f.state.mem == s.mem && f.state.regs == s.regs[RDX := 0]
  {
    DoXor(perform, Edx, Reg(Edx), s, Reg32(s, Edx), Reg32(s, Edx));
    XorSelf(Reg32(s, Edx), 32);
  }

  lemma Divided(s: State, d: U32)
    requires d != 0 && s.regs[RDX] == 0 && s.regs[RAX] < B32
    ensures DivideBy(s, d) ==
            Some(Set(Set(s, Eax, Quotient32(s.regs[RAX], d)), Edx, Remainder32(s.regs[RAX], d)).(flags := Undefined))
  {
    assert Reg32(s, Eax) == s.regs[RAX] && Reg32(s, Edx) == 0;
  }

  lemma DoDivide(perform: Performer, s: State, r: Register)
    requires IsMachine(perform) && 0 < s.regs[Number(r)] < B32 && s.regs[RDX] == 0 && s.regs[RAX] < B32
    ensures var d := s.regs[Number(r)];
            perform([Exact(Divide(W32, Reg(r)))], s) ==
            Fall(Set(Set(s, Eax, Quotient32(s.regs[RAX], d)), Edx, Remainder32(s.regs[RAX], d)).(flags := Undefined))
  {
    assert Reg32(s, r) == s.regs[Number(r)];
    Divided(s, s.regs[Number(r)]);
    Single(perform, Exact(Divide(W32, Reg(r))), s);
  }

  lemma TakesRemainder(perform: Performer, s: State, kind: AluKind, q: U32, m: U32)
    requires IsMachine(perform) && kind in {Div, Mod} && s.regs[RAX] == q && s.regs[RDX] == m
    ensures Computes(perform(TakeRemainder(kind), s), s, if kind.Div? then q else m)
  {
    if kind.Mod? {
      DoMove(perform, Eax, Edx, s);
    } else {
      Nothing(perform, s);
    }
  }

  /** Clear edx, divide, and pick quotient or remainder. */
  lemma DivisionTail(perform: Performer, s: State, kind: AluKind, r: Register, d: U32)
    requires IsMachine(perform) && kind in {Div, Mod} && r in {R14d, Ecx}
    requires s.regs[RAX] < B32 && s.regs[Number(r)] == d && d != 0
    ensures Computes(perform([Op32(XXor, Edx, Reg(Edx))] + ([Exact(Divide(W32, Reg(r)))] + TakeRemainder(kind)), s), s,
                     AluResult(kind, s.regs[RAX], d))
  {
    var a, b, e := [Op32(XXor, Edx, Reg(Edx))], [Exact(Divide(W32, Reg(r)))], TakeRemainder(kind);
    Sequence(perform, a, b + e, s);
    ClearEdx(perform, s);
    var t := perform(a, s).state;
    Sequence(perform, b, e, t);
    DoDivide(perform, t, r);
    var u := perform(b, t).state;
    TakesRemainder(perform, u, kind, Quotient32(s.regs[RAX], d), Remainder32(s.regs[RAX], d));
  }

  lemma DivideImmediateComputes(perform: Performer, s: State, kind: AluKind, k: U32)
    requires IsMachine(perform) && kind in {Div, Mod} && s.regs[RAX] < B32 && k != 0
    ensures Computes(perform(DivideImmediate(kind, k), s), s, AluResult(kind, s.regs[RAX], k))
  {
    var a := [Move32(R14d, Imm(k))];
    var b := [Op32(XXor, Edx, Reg(Edx))] + ([Exact(Divide(W32, Reg(R14d)))] + TakeRemainder(kind));
    assert DivideImmediate(kind, k) == a + b;
    Sequence(perform, a, b, s);
    DoImmediate(perform, R14d, k, s);
    DivisionTail(perform, Set(s, R14d, k), kind, R14d, k);
  }

  lemma DoTest(perform: Performer, left: Operand, right: Operand, s: State, a: U32, b: U32)
    requires IsMachine(perform) && !left.Mem? && !right.Mem? && Value32(s, left) == a && Value32(s, right) == b
    ensures perform([Exact(Test(W32, left, right))], s) == Fall(s.(flags := Flags(false, And32(a, b) == 0)))
  {
    assert Tested(s, W32, left, right) == Some(s.(flags := Flags(false, And32(a, b) == 0)));
    Single(perform, Exact(Test(W32, left, right)), s);
  }

  lemma DoTestIndex(perform: Performer, s: State)
    requires IsMachine(perform) && s.regs[RCX] < B32
    ensures perform([Exact(Test(W32, Reg(Ecx), Reg(Ecx)))], s) == Fall(s.(flags := Flags(false, s.regs[RCX] == 0)))
  {
    DoTest(perform, Reg(Ecx), Reg(Ecx), s, s.regs[RCX], s.regs[RCX]);
    AndSelf32(s.regs[RCX]);
  }

  lemma DivideIndexFlow(perform: Performer, s: State, kind: AluKind)
    requires IsMachine(perform) && kind in {Div, Mod} && s.regs[RAX] < B32 && s.regs[RCX] < B32
    ensures var f := perform(DivideIndex(kind), s);
            if s.regs[RCX] == 0 then Fails(f, s) else Computes(f, s, AluResult(kind, s.regs[RAX], s.regs[RCX]))
  {
    var a := [Exact(Test(W32, Reg(Ecx), Reg(Ecx))), Branch(Equal, ToFailure)];
    var b := [Op32(XXor, Edx, Reg(Edx))] + ([Exact(Divide(W32, Reg(Ecx)))] + TakeRemainder(kind));
    assert DivideIndex(kind) == a + b;
    Sequence(perform, a, b, s);
    Pair(perform, a[0], a[1], s);
    DoTestIndex(perform, s);
    var t := s.(flags := Flags(false, s.regs[RCX] == 0));
    DoBranch(perform, Equal, ToFailure, t);
    if s.regs[RCX] == 0 {
      SameScratch(s, t);
    } else {
      DivisionTail(perform, t, kind, Ecx, s.regs[RCX]);
    }
  }

  // ----- shifts by the index register -----

  lemma MaskCount(perform: Performer, s: State, x: U32)
    requires IsMachine(perform) && s.regs[RCX] == x
    ensures var f := perform([Move32(R14d, Reg(Ecx)), Op32(XAnd, R14d, Imm(0x1f))], s);
            f.Fall? && f.state.mem == s.mem && f.state.regs == s.regs[14 := And32(x, 31)]
  {
    Pair(perform, Move32(R14d, Reg(Ecx)), Op32(XAnd, R14d, Imm(0x1f)), s);
    DoMove(perform, R14d, Ecx, s);
    DoAnd(perform, R14d, Imm(0x1f), Set(s, R14d, x), x, 0x1f);
    assert s.regs[14 := x][14 := And32(x, 31)] == s.regs[14 := And32(x, 31)];
  }

  lemma SwapCount(perform: Performer, s: State, x: U32, n: U32)
    requires IsMachine(perform) && s.regs[RCX] == x && s.regs[14] == n
    ensures perform([Move32(R15d, Reg(Ecx)), Move32(Ecx, Reg(R14d))], s) ==
            Fall(s.(regs := s.regs[15 := x][RCX := n]))
  {
    Pair(perform, Move32(R15d, Reg(Ecx)), Move32(Ecx, Reg(R14d)), s);
    DoMove(perform, R15d, Ecx, s);
    DoMove(perform, Ecx, R14d, Set(s, R15d, x));
  }

  lemma DoShiftByCl(perform: Performer, s: State, shift: ShiftKind)
    requires IsMachine(perform) && s.regs[RAX] < B32 && s.regs[RCX] < B32
    ensures perform([Exact(ShiftRegister(shift, W32, Eax))], s) ==
            Fall(Set(s, Eax, Shifted(shift, s.regs[RAX], s.regs[RCX] % 0x100)).(flags := Undefined))
  {
    assert Reg32(s, Eax) == s.regs[RAX];
    Single(perform, Exact(ShiftRegister(shift, W32, Eax)), s);
  }

  lemma ShiftAndRestore(perform: Performer, s: State, shift: ShiftKind, x: U32)
    requires IsMachine(perform) && s.regs[RAX] < B32 && s.regs[RCX] < B32 && s.regs[15] == x
    ensures perform([Exact(ShiftRegister(shift, W32, Eax)), Move32(Ecx, Reg(R15d))], s) ==
            Fall(s.(regs := s.regs[RAX := Shifted(shift, s.regs[RAX], s.regs[RCX] % 0x100)][RCX := x],
                    flags := Undefined))
  {
    Pair(perform, Exact(ShiftRegister(shift, W32, Eax)), Move32(Ecx, Reg(R15d)), s);
    DoShiftByCl(perform, s, shift);
    DoMove(perform, Ecx, R15d, perform([Exact(ShiftRegister(shift, W32, Eax))], s).state);
  }

  /** The processor's own masking of the count does not matter to a masked count. */
  lemma CountMasked(shift: ShiftKind, a: U32, n: U32)
    ensures Shifted(shift, a, n % 0x100) == if shift.Left? then Shl32(a, n) else Shr32(a, n)
  {
    assert n % 0x100 % 32 == n % 32;
  }

  lemma ShiftIndexComputes(perform: Performer, s: State, shift: ShiftKind, x: U32)
    requires IsMachine(perform) && s.regs[RAX] < B32 && s.regs[RCX] == x
    ensures Computes(perform(ShiftIndex(shift), s), s,
                     if shift.Left? then Shl32(s.regs[RAX], And32(x, 31)) else Shr32(s.regs[RAX], And32(x, 31)))
  {
    var a := [Move32(R14d, Reg(Ecx)), Op32(XAnd, R14d, Imm(0x1f))];
    var b := [Move32(R15d, Reg(Ecx)), Move32(Ecx, Reg(R14d))];
    var e := [Exact(ShiftRegister(shift, W32, Eax)), Move32(Ecx, Reg(R15d))];
    assert ShiftIndex(shift) == a + (b + e);
    Sequence(perform, a, b + e, s);
    MaskCount(perform, s, x);
    var t, n := perform(a, s).state, And32(x, 31);
    Sequence(perform, b, e, t);
    SwapCount(perform, t, x, n);
    ShiftAndRestore(perform, t.(regs := t.regs[15 := x][RCX := n]), shift, x);
    CountMasked(shift, s.regs[RAX], n);
  }

  // ----- control -----

  /** The comparison before a conditional jump. */
  function JumpTest(kind: JumpKind, right: Operand): NativeOp {
    if kind.Jset? then Test(W32, Reg(Eax), right) else Compare(W32, Reg(Eax), right)
  }

  function JumpFlags(kind: JumpKind, a: U32, b: U32): Flags {
    if kind.Jset? then Flags(false, And32(a, b) == 0) else Flags(a < b, a == b)
  }

  lemma JumpTestFlow(perform: Performer, s: State, kind: JumpKind, right: Operand, a: U32, b: U32)
    requires IsMachine(perform) && !right.Mem? && Value32(s, Reg(Eax)) == a && Value32(s, right) == b
    ensures perform([Exact(JumpTest(kind, right))], s) == Fall(s.(flags := JumpFlags(kind, a, b)))
  {
    if kind.Jset? {
      DoTest(perform, Reg(Eax), right, s, a, b);
    } else {
      DoCompare(perform, Reg(Eax), right, s);
    }
  }

  lemma JumpBranches(perform: Performer, t: State, condition: Condition, yes: Target, no: Target)
    requires IsMachine(perform) && t.flags.Flags?
    ensures perform([Branch(condition, yes), Goto(no)], t) == Leave(if Holds(condition, t.flags) then yes else no, t)
  {
    Pair(perform, Branch(condition, yes), Goto(no), t);
    DoBranch(perform, condition, yes, t);
    DoGoto(perform, no, t);
  }

  lemma JumpFlow(perform: Performer, s: State, i: Instruction, kind: JumpKind, src: Source, pc: nat)
    requires IsMachine(perform) && s.regs[RAX] < B32 && s.regs[RCX] < B32
    ensures var operand := if src.FromX? then s.regs[RCX] else i.k;
            var f := perform(LowerJump(i, kind, src, pc), s);
            && f.Leave? && f.state.mem == s.mem && f.state.regs == s.regs
            && f.target == ToSource(pc + 1 + if JumpTaken(kind, s.regs[RAX], operand) then i.jt else i.jf)
  {
    var right := if src.FromK? then Imm(i.k) else Reg(Ecx);
    var a, b := s.regs[RAX], if src.FromX? then s.regs[RCX] else i.k;
    JumpTestFlow(perform, s, kind, right, a, b);
    var yes, no := ToSource(pc + 1 + i.jt), ToSource(pc + 1 + i.jf);
    assert LowerJump(i, kind, src, pc) == [Exact(JumpTest(kind, right))] + [Branch(JumpCondition(kind), yes), Goto(no)];
    Sequence(perform, [Exact(JumpTest(kind, right))], [Branch(JumpCondition(kind), yes), Goto(no)], s);
    JumpBranches(perform, s.(flags := JumpFlags(kind, a, b)), JumpCondition(kind), yes, no);
  }

  lemma ReturnFlow(perform: Performer, s: State, k: U32)
    requires IsMachine(perform)
    ensures perform([Move32(Eax, Imm(k)), Goto(ToEpilogue)], s) == Leave(ToEpilogue, Set(s, Eax, k))
  {
    Pair(perform, Move32(Eax, Imm(k)), Goto(ToEpilogue), s);
    DoImmediate(perform, Eax, k, s);
    DoGoto(perform, ToEpilogue, Set(s, Eax, k));
  }

  // ----- the arithmetic and control instructions -----

  lemma AluSimulates(perform: Performer, c: Call, s: State, kind: AluKind, src: Source, k: U32, pc: nat, vm: Vm)
    requires IsMachine(perform) && Matches(c, s, vm) && kind !in {Div, Mod, Lsh, Rsh}
    ensures Simulates(c, s, perform(LowerAlu(kind, src, k), s), pc,
                      Next(pc + 1, vm.(a := AluResult(kind, vm.a, if src.FromK? then k else vm.x))))
  {
    if kind.Mul? {
      MultiplyComputes(perform, s, k);
    } else {
      BinaryComputes(perform, s, kind, if src.FromK? then Imm(k) else Reg(Ecx), if src.FromK? then k else vm.x);
    }
    ComputesSimulates(c, perform(LowerAlu(kind, src, k), s), s, pc, vm,
                      AluResult(kind, vm.a, if src.FromK? then k else vm.x));
  }

  lemma DivisionSimulates(perform: Performer, c: Call, s: State, kind: AluKind, src: Source, k: U32, pc: nat, vm: Vm)
    requires IsMachine(perform) && Matches(c, s, vm) && kind in {Div, Mod} && (src.FromK? ==> k != 0)
    ensures var d := if src.FromK? then k else vm.x;
            Simulates(c, s, perform(LowerAlu(kind, src, k), s), pc,
                      if d == 0 then Done(0) else Next(pc + 1, vm.(a := AluResult(kind, vm.a, d))))
  {
    var d := if src.FromK? then k else vm.x;
    var f := perform(LowerAlu(kind, src, k), s);
    if src.FromK? {
      DivideImmediateComputes(perform, s, kind, k);
    } else {
      DivideIndexFlow(perform, s, kind);
    }
    if d == 0 {
      FailsTo(c, f, s, pc);
    } else {
      ComputesSimulates(c, f, s, pc, vm, AluResult(kind, vm.a, d));
    }
  }

  lemma ShiftSimulates(perform: Performer, c: Call, s: State, kind: AluKind, src: Source, k: U32, pc: nat, vm: Vm)
    requires IsMachine(perform) && Matches(c, s, vm) && kind in {Lsh, Rsh} && (src.FromK? ==> k < 32)
    ensures Simulates(c, s, perform(LowerAlu(kind, src, k), s), pc,
                      Next(pc + 1, vm.(a := AluResult(kind, vm.a, if src.FromK? then k else And32(vm.x, 31)))))
  {
    var shift := if kind.Lsh? then Left else Right;
    if src.FromK? {
      ShiftComputes(perform, s, shift, k);
    } else {
      ShiftIndexComputes(perform, s, shift, vm.x);
    }
    ComputesSimulates(c, perform(LowerAlu(kind, src, k), s), s, pc, vm,
                      AluResult(kind, vm.a, if src.FromK? then k else And32(vm.x, 31)));
  }

  /** Transfers between A, X, immediates and the length, and negation. */
  lemma TransferSimulates(perform: Performer, c: Call, s: State, i: Instruction, pc: nat, vm: Vm)
    requires IsMachine(perform) && Matches(c, s, vm) && c.Size() < B32 && ValidVm(vm)
    requires i.op in {LdImm, LdLen, LdxImm, LdxLen, Tax, Txa, Op.Neg}
    ensures Simulates(c, s, perform(Lower(i, pc, c.input.Profile()), s), pc, Step(i, pc, vm, c.input))
  {
    match i.op
    case LdImm => DoImmediate(perform, Eax, i.k, s);
    case LdLen => DoMove(perform, Eax, R13d, s);
    case LdxImm => DoImmediate(perform, Ecx, i.k, s);
    case LdxLen => DoMove(perform, Ecx, R13d, s);
    case Tax => DoMove(perform, Ecx, Eax, s);
    case Txa => DoMove(perform, Eax, Ecx, s);
    case Neg => NegateComputes(perform, s);
  }

  lemma ControlSimulates(perform: Performer, c: Call, s: State, i: Instruction, pc: nat, vm: Vm)
    requires IsMachine(perform) && Matches(c, s, vm) && ValidVm(vm)
    requires i.op.Ja? || i.op.Jump? || IsReturn(i.op)
    ensures Simulates(c, s, perform(Lower(i, pc, c.input.Profile()), s), pc, Step(i, pc, vm, c.input))
  {
    match i.op
    case Ja => DoGoto(perform, ToSource(pc + 1 + i.k), s);
    case Jump(kind, src) => JumpFlow(perform, s, i, kind, src, pc);
    case RetK => ReturnFlow(perform, s, i.k);
    case RetA => DoGoto(perform, ToEpilogue, s);
  }
}
