/**
 The prologue builds the frame from any machine state the caller leaves, and the
 epilogue gives back the caller's stack pointer and callee-saved registers
 (System V AMD64 ABI, section 3.2.1).
 */
module Linkage {
  import opened Words
  import opened Bpf
  import opened Native
  import opened Lowering
  import opened Frame
  import opened Blocks
  import opened Simulation
  import opened Scratch

  // ----- prologue -----

  /** After `j` pushes. */
  predicate Saving(c: Call, s: State, j: nat)
    requires j <= 5
  {
    && s.regs == c.entry.regs[RSP := (c.StackTop() - 8 * j) % B64]
    && OutsideKept(c, s.mem)
    && forall i :: 0 <= i < j ==> SavedAt(c, s.mem, i)
  }

  function SavedName(j: nat): Register
    requires j < 5
  {
    if j == 0 then Rbp else if j == 1 then R12 else if j == 2 then R13 else if j == 3 then R14 else R15
  }

  lemma DoPush(perform: Performer, s: State, r: Register, sp: int)
    requires IsMachine(perform) && s.regs[RSP] == sp + 8 && 0 <= sp && Mapped(s.mem, sp, 8)
    ensures perform([Exact(Push(r))], s) ==
            Fall(s.(regs := s.regs[RSP := sp], mem := Write(s.mem, sp, 8, s.regs[Number(r)])))
  {
    assert Pushed(s, s.regs[Number(r)]) ==
           Some(s.(regs := s.regs[RSP := sp], mem := Write(s.mem, sp, 8, s.regs[Number(r)])));
    Single(perform, Exact(Push(r)), s);
  }

  lemma SavedStill(c: Call, mem: Memory, j: nat, i: nat, v: U64)
    requires i < j < 5 && SavedAt(c, mem, i) && Mapped(mem, SavedAddress(c, j), 8)
    ensures SavedAt(c, Write(mem, SavedAddress(c, j), 8, v), i)
  {
    ReadFrame(Write(mem, SavedAddress(c, j), 8, v), mem, SavedAddress(c, i), 8);
  }

  lemma SavedNow(c: Call, mem: Memory, j: nat)
    requires j < 5 && Mapped(mem, SavedAddress(c, j), 8)
    ensures SavedAt(c, Write(mem, SavedAddress(c, j), 8, c.entry.regs[SAVED[j]]), j)
  {
    assert Pow256(8) == B64;
    ReadWrite(mem, SavedAddress(c, j), 8, c.entry.regs[SAVED[j]]);
  }

  lemma SavedMapped(c: Call, mem: Memory, j: nat)
    requires ValidStack(c) && OutsideKept(c, mem) && j < 5
    ensures Mapped(mem, SavedAddress(c, j), 8)
  {
    MappedPart(c.entry.mem, c.StackTop() - 104, 112, SavedAddress(c, j), 8);
  }

  lemma PushStep(perform: Performer, c: Call, s: State, j: nat)
    requires IsMachine(perform) && ValidStack(c) && j < 5 && Saving(c, s, j)
    ensures var f := perform([Exact(Push(SavedName(j)))], s); f.Fall? && Saving(c, f.state, j + 1)
  {
    var sp, v := SavedAddress(c, j), c.entry.regs[SAVED[j]];
    SavedMapped(c, s.mem, j);
    assert s.regs[Number(SavedName(j))] == v;
    DoPush(perform, s, SavedName(j), sp);
    var w := Write(s.mem, sp, 8, v);
    forall i | 0 <= i < j + 1
      ensures SavedAt(c, w, i)
    {
      if i == j {
        SavedNow(c, s.mem, j);
      } else {
        SavedStill(c, s.mem, j, i, v);
      }
    }
    assert s.regs[RSP := sp] == c.entry.regs[RSP := sp];
  }

  /** The pushes from the `j`-th on. */
  function Pushes(j: nat): seq<Pattern>
    requires j <= 5
    decreases 5 - j
  {
    if j == 5 then [] else [Exact(Push(SavedName(j)))] + Pushes(j + 1)
  }

  lemma {:induction false} PushesFlow(perform: Performer, c: Call, s: State, j: nat)
    requires IsMachine(perform) && ValidStack(c) && j <= 5 && Saving(c, s, j)
    ensures var f := perform(Pushes(j), s); f.Fall? && Saving(c, f.state, 5)
    decreases 5 - j
  {
    if j == 5 {
      Nothing(perform, s);
    } else {
      Sequence(perform, [Exact(Push(SavedName(j)))], Pushes(j + 1), s);
      PushStep(perform, c, s, j);
      PushesFlow(perform, c, perform([Exact(Push(SavedName(j)))], s).state, j + 1);
    }
  }

  lemma SaveFlow(perform: Performer, c: Call)
    requires IsMachine(perform) && ValidStack(c)
    ensures var f := perform(SaveRegisters(), c.entry); f.Fall? && Saving(c, f.state, 5)
  {
    assert Pushes(4) == [Exact(Push(R15))];
    assert Pushes(3) == [Exact(Push(R14)), Exact(Push(R15))];
    assert Pushes(2) == [Exact(Push(R13)), Exact(Push(R14)), Exact(Push(R15))];
    assert SaveRegisters() == Pushes(0);
    assert c.entry.regs == c.entry.regs[RSP := c.StackTop()];
    PushesFlow(perform, c, c.entry, 0);
  }

  lemma EnterFlow(perform: Performer, c: Call, s: State)
    requires IsMachine(perform) && ValidStack(c) && s.regs[RSP] == c.StackTop() - 40
    ensures var f := perform(EnterFrame(), s);
            && f.Fall? && f.state.mem == s.mem
            && f.state.regs == s.regs[RBP := c.StackTop() - 40][RSP := c.StackTop() - 104]
  {
    var p, q := Exact(Mov(W64, Reg(Rbp), Reg(Rsp))), Exact(Binary(XSub, W64, Reg(Rsp), Imm(0x40)));
    Pair(perform, p, q, s);
    DoMove64(perform, Rbp, Rsp, s);
    DoFrame(perform, Set(s, Rbp, s.regs[RSP]));
  }

  lemma DoMove64(perform: Performer, d: Register, r: Register, s: State)
    requires IsMachine(perform)
    ensures perform([Exact(Mov(W64, Reg(d), Reg(r)))], s) == Fall(Set(s, d, s.regs[Number(r)]))
  {
    Single(perform, Exact(Mov(W64, Reg(d), Reg(r))), s);
  }

  lemma DoFrame(perform: Performer, s: State)
    requires IsMachine(perform) && s.regs[RSP] >= 0x40
    ensures perform([Exact(Binary(XSub, W64, Reg(Rsp), Imm(0x40)))], s) ==
            Fall(Set(s, Rsp, s.regs[RSP] - 0x40).(flags := Flags(false, s.regs[RSP] == 0x40)))
  {
    Single(perform, Exact(Binary(XSub, W64, Reg(Rsp), Imm(0x40))), s);
  }

  lemma DoUnframe(perform: Performer, s: State)
    requires IsMachine(perform) && s.regs[RSP] + 0x40 < B64
    ensures perform([Exact(Binary(XAdd, W64, Reg(Rsp), Imm(0x40)))], s) ==
            Fall(Set(s, Rsp, s.regs[RSP] + 0x40).(flags := Flags(false, s.regs[RSP] + 0x40 == 0)))
  {
    Single(perform, Exact(Binary(XAdd, W64, Reg(Rsp), Imm(0x40))), s);
  }

  /** The context record lies outside the frame. */
  lemma HeaderRead(c: Call, mem: Memory)
    requires ValidArguments(c) && c.input.PacketInput? && OutsideKept(c, mem)
    ensures Mapped(mem, c.Context(), 8) && Read(mem, c.Context(), 8) == c.Data()
    ensures Mapped(mem, c.Context() + LEN_OFFSET, 4) && Read(mem, c.Context() + LEN_OFFSET, 4) == c.Size()
  {
    var a, old0 := c.Context(), c.entry.mem;
    MappedPart(old0, a, 48, a, 8);
    MappedPart(old0, a, 48, a + LEN_OFFSET, 4);
    forall i | a <= i < a + 48
      ensures i in mem && mem[i] == old0[i]
    {
      assert i in old0;
    }
    ReadFrame(mem, old0, a, 8);
    ReadFrame(mem, old0, a + LEN_OFFSET, 4);
  }

  lemma ContextArguments(perform: Performer, c: Call, s: State)
    requires IsMachine(perform) && ValidArguments(c) && c.input.PacketInput? && OutsideKept(c, s.mem)
    requires s.regs[RDI] == c.Context() && c.Data() < B64
    ensures var f := perform(Arguments(c.input.Profile()), s);
            f.Fall? && f.state.mem == s.mem && f.state.regs == s.regs[12 := c.Data()][13 := c.Size()]
  {
    HeaderRead(c, s.mem);
    Pair(perform, Exact(Load(W64, R12, Rdi, 0)), Exact(Load(W32, R13d, Rdi, LEN_OFFSET)), s);
    DoLoad(perform, s, W64, R12, Rdi, 0, c.Context());
    DoLoad(perform, Set(s, R12, c.Data()), W32, R13d, Rdi, LEN_OFFSET, c.Context() + LEN_OFFSET);
  }

  lemma DirectArguments(perform: Performer, c: Call, s: State)
    requires IsMachine(perform) && ValidArguments(c) && !c.input.PacketInput?
    requires s.regs[RDI] == c.Context() && s.regs[RSI] == c.entry.regs[RSI]
    ensures var f := perform(Arguments(c.input.Profile()), s);
            f.Fall? && f.state.mem == s.mem && f.state.regs == s.regs[12 := c.Data()][13 := c.Size()]
  {
    Pair(perform, Exact(Mov(W64, Reg(R12), Reg(Rdi))), Move32(R13d, Reg(Esi)), s);
    DoMove64(perform, R12, Rdi, s);
    DoMove(perform, R13d, Esi, Set(s, R12, c.Data()));
  }

  lemma ClearFlow(perform: Performer, s: State)
    requires IsMachine(perform)
    ensures var f := perform(ClearRegisters(), s);
            f.Fall? && f.state.mem == s.mem && f.state.regs == s.regs[RAX := 0][RCX := 0]
  {
    Pair(perform, Op32(XXor, Eax, Reg(Eax)), Op32(XXor, Ecx, Reg(Ecx)), s);
    DoClear(perform, Eax, s);
    DoClear(perform, Ecx, perform([Op32(XXor, Eax, Reg(Eax))], s).state);
  }

  lemma DoClear(perform: Performer, r: Register, s: State)
    requires IsMachine(perform)
    ensures perform([Op32(XXor, r, Reg(r))], s) == Fall(Set(s, r, 0).(flags := Flags(false, true)))
  {
    DoXor(perform, r, Reg(r), s, Reg32(s, r), Reg32(s, r));
    XorSelf(Reg32(s, r), 32);
  }

  /** The prologue establishes the frame with A and X zero and no scratch word known. */
  lemma PrologueFlow(perform: Performer, c: Call)
    requires IsMachine(perform) && ValidCall(c)
    ensures var f := perform(Prologue(c.input.Profile()), c.entry);
            f.Fall? && Body(c, f.state, INITIAL, {})
  {
    var save, enter, args, clear := SaveRegisters(), EnterFrame(), Arguments(c.input.Profile()), ClearRegisters();
    assert Prologue(c.input.Profile()) == save + (enter + (args + clear));
    Sequence(perform, save, enter + (args + clear), c.entry);
    SaveFlow(perform, c);
    var s1 := perform(save, c.entry).state;
    Sequence(perform, enter, args + clear, s1);
    EnterFlow(perform, c, s1);
    var s2 := perform(enter, s1).state;
    Sequence(perform, args, clear, s2);
    if c.input.PacketInput? {
      ContextArguments(perform, c, s2);
    } else {
      DirectArguments(perform, c, s2);
    }
    var s3 := perform(args, s2).state;
    ClearFlow(perform, s3);
    MappedPart(c.entry.mem, c.StackTop() - 104, 112, c.StackTop() - 104, 64);
  }

  // ----- epilogue -----

  /** The registers from the `j`-th saved one on are the caller's again. */
  predicate Unwinding(c: Call, s: State, j: nat, v: U32)
    requires j <= 5
  {
    && s.regs[RSP] == c.StackTop() - 8 * j && s.regs[RAX] == v && s.regs[3] == c.entry.regs[3]
    && FrameMemory(c, s.mem)
    && forall i :: j <= i < 5 ==> s.regs[SAVED[i]] == c.entry.regs[SAVED[i]]
  }

  lemma DoPop(perform: Performer, s: State, r: Register, sp: int)
    requires IsMachine(perform) && s.regs[RSP] == sp && sp + 8 < B64 && Mapped(s.mem, sp, 8) && r != Rsp
    ensures Read(s.mem, sp, 8) < B64
    ensures perform([Exact(Pop(r))], s) ==
            Fall(s.(regs := s.regs[RSP := sp + 8][Number(r) := Read(s.mem, sp, 8)]))
  {
    ReadBound(s.mem, sp, W64);
    assert Popped(s, r) == Some(s.(regs := s.regs[RSP := sp + 8][Number(r) := Read(s.mem, sp, 8)]));
    Single(perform, Exact(Pop(r)), s);
  }

  lemma PopStep(perform: Performer, c: Call, s: State, j: nat, v: U32)
    requires IsMachine(perform) && ValidStack(c) && 0 < j <= 5 && Unwinding(c, s, j, v)
    ensures var f := perform([Exact(Pop(SavedName(j - 1)))], s); f.Fall? && Unwinding(c, f.state, j - 1, v)
  {
    assert SavedAt(c, s.mem, j - 1);
    DoPop(perform, s, SavedName(j - 1), SavedAddress(c, j - 1));
  }

  /** The pops that restore the first `j` saved registers, last saved first. */
  function Pops(j: nat): seq<Pattern>
    requires j <= 5
  {
    if j == 0 then [] else [Exact(Pop(SavedName(j - 1)))] + Pops(j - 1)
  }

  lemma {:induction false} PopsFlow(perform: Performer, c: Call, s: State, j: nat, v: U32)
    requires IsMachine(perform) && ValidStack(c) && j <= 5 && Unwinding(c, s, j, v)
    ensures var f := perform(Pops(j), s); f.Fall? && Unwinding(c, f.state, 0, v)
    decreases j
  {
    if j == 0 {
      Nothing(perform, s);
    } else {
      Sequence(perform, [Exact(Pop(SavedName(j - 1)))], Pops(j - 1), s);
      PopStep(perform, c, s, j, v);
      PopsFlow(perform, c, perform([Exact(Pop(SavedName(j - 1)))], s).state, j - 1, v);
    }
  }

  /** The epilogue without its final return. */
  function Unwind(): seq<Pattern> { [Exact(Binary(XAdd, W64, Reg(Rsp), Imm(0x40)))] + Pops(5) }

  lemma EpilogueShape()
    ensures Epilogue() == Unwind() + [Exact(Return)]
  {
    assert Pops(1) == [Exact(Pop(Rbp))];
    assert Pops(2) == [Exact(Pop(R12)), Exact(Pop(Rbp))];
    assert Pops(3) == [Exact(Pop(R13)), Exact(Pop(R12)), Exact(Pop(Rbp))];
    assert Pops(4) == [Exact(Pop(R14)), Exact(Pop(R13)), Exact(Pop(R12)), Exact(Pop(Rbp))];
  }

  lemma UnwindFlow(perform: Performer, c: Call, s: State, v: U32)
    requires IsMachine(perform) && ValidStack(c) && FrameRegisters(c, s.regs) && FrameMemory(c, s.mem)
             && s.regs[RAX] == v
    ensures var f := perform(Unwind(), s); f.Fall? && Unwinding(c, f.state, 0, v)
  {
    var a := [Exact(Binary(XAdd, W64, Reg(Rsp), Imm(0x40)))];
    Sequence(perform, a, Pops(5), s);
    DoUnframe(perform, s);
    PopsFlow(perform, c, perform(a, s).state, 5, v);
  }
}
