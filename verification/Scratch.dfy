/**
 The scratch words in the native frame: loads find what was stored, and a store
 disturbs neither the other words nor the caller's saved registers.
 */
module Scratch {
  import opened Words
  import opened Bpf
  import opened Native
  import opened Lowering
  import opened Frame
  import opened Blocks
  import opened Simulation

  /** The machine is inside the frame with the interpreter's registers and known scratch words. */
  predicate Body(c: Call, s: State, vm: Vm, known: set<nat>) {
    Matches(c, s, vm) && FrameMemory(c, s.mem) && Remembers(c, s.mem, vm.m, known)
  }

  /** Caller memory untouched outside the frame and its registers saved inside. */
  predicate FrameMemory(c: Call, mem: Memory) { OutsideKept(c, mem) && SavedRegisters(c, mem) }

  lemma SlotInFrame(c: Call, k: nat)
    requires k < SCRATCH_WORDS
    ensures c.StackTop() - 104 <= SlotAddress(c, k) && SlotAddress(c, k) + 4 <= c.StackTop() - 40
  {
  }

  lemma DoSlotLoad(perform: Performer, c: Call, s: State, d: Register, k: nat)
    requires IsMachine(perform) && k < SCRATCH_WORDS && s.regs[RBP] == c.StackTop() - 40 && 104 <= c.StackTop()
    requires Mapped(s.mem, SlotAddress(c, k), 4)
    ensures Read(s.mem, SlotAddress(c, k), 4) < B32
    ensures perform([Exact(Load(W32, d, Rbp, SlotOffset(k)))], s) == Fall(Set(s, d, Read(s.mem, SlotAddress(c, k), 4)))
  {
    DoLoad(perform, s, W32, d, Rbp, SlotOffset(k), SlotAddress(c, k));
  }

  lemma DoSlotStore(perform: Performer, c: Call, s: State, r: Register, k: nat)
    requires IsMachine(perform) && k < SCRATCH_WORDS && s.regs[RBP] == c.StackTop() - 40 && 104 <= c.StackTop()
    requires Mapped(s.mem, SlotAddress(c, k), 4) && s.regs[Number(r)] < B32
    ensures perform([Exact(Mov(W32, Mem(Rbp, SlotOffset(k)), Reg(r)))], s) ==
            Fall(s.(mem := Write(s.mem, SlotAddress(c, k), 4, s.regs[Number(r)])))
  {
    assert Address(s, Rbp, SlotOffset(k)) == SlotAddress(c, k);
    assert Reg32(s, r) == s.regs[Number(r)];
    assert Stored(s, Rbp, SlotOffset(k), Reg32(s, r)) ==
           Some(s.(mem := Write(s.mem, SlotAddress(c, k), 4, s.regs[Number(r)])));
    Single(perform, Exact(Mov(W32, Mem(Rbp, SlotOffset(k)), Reg(r))), s);
  }

  /** Reading eight bytes that a frame store cannot have touched. */
  lemma SavedKept(c: Call, mem: Memory, k: nat, v: U32, a: int)
    requires k < SCRATCH_WORDS && Mapped(mem, SlotAddress(c, k), 4)
    requires Mapped(mem, a, 8) && c.StackTop() - 40 <= a
    ensures Mapped(Write(mem, SlotAddress(c, k), 4, v), a, 8)
    ensures Read(Write(mem, SlotAddress(c, k), 4, v), a, 8) == Read(mem, a, 8)
  {
    SlotInFrame(c, k);
    ReadFrame(Write(mem, SlotAddress(c, k), 4, v), mem, a, 8);
  }

  lemma MappedPart(mem: Memory, a: int, n: nat, b: int, m: nat)
    requires Mapped(mem, a, n) && a <= b && b + m <= a + n
    ensures Mapped(mem, b, m)
  {
  }

  lemma StoreKeepsSaved(c: Call, mem: Memory, k: nat, v: U32)
    requires SavedRegisters(c, mem) && k < SCRATCH_WORDS && Mapped(mem, SlotAddress(c, k), 4)
    ensures SavedRegisters(c, Write(mem, SlotAddress(c, k), 4, v))
  {
    forall j | 0 <= j < 5
      ensures SavedAt(c, Write(mem, SlotAddress(c, k), 4, v), j)
    {
      assert SavedAt(c, mem, j);
      SavedKept(c, mem, k, v, SavedAddress(c, j));
    }
  }

  lemma StoreKeepsOutside(c: Call, mem: Memory, k: nat, v: U32)
    requires OutsideKept(c, mem) && k < SCRATCH_WORDS && Mapped(mem, SlotAddress(c, k), 4)
    ensures OutsideKept(c, Write(mem, SlotAddress(c, k), 4, v))
  {
    SlotInFrame(c, k);
  }

  lemma SlotKept(c: Call, mem: Memory, k: nat, v: U32, j: nat)
    requires k < SCRATCH_WORDS && j < SCRATCH_WORDS && Mapped(mem, SlotAddress(c, k), 4)
             && Mapped(mem, SlotAddress(c, j), 4)
    ensures var w := Write(mem, SlotAddress(c, k), 4, v);
            Mapped(w, SlotAddress(c, j), 4) &&
            Read(w, SlotAddress(c, j), 4) == if j == k then v else Read(mem, SlotAddress(c, j), 4)
  {
    var w := Write(mem, SlotAddress(c, k), 4, v);
    if j == k {
      assert Pow256(4) == B32;
      ReadWrite(mem, SlotAddress(c, k), 4, v);
    } else {
      ReadFrame(w, mem, SlotAddress(c, j), 4);
    }
  }

  lemma StoreRemembers(c: Call, mem: Memory, m: seq<U32>, known: set<nat>, k: nat, v: U32)
    requires Remembers(c, mem, m, known) && k < SCRATCH_WORDS && |m| == SCRATCH_WORDS
    requires Mapped(mem, SlotAddress(c, k), 4)
    ensures Remembers(c, Write(mem, SlotAddress(c, k), 4, v), m[k := v], known + {k})
  {
    var w := Write(mem, SlotAddress(c, k), 4, v);
    assert Mapped(w, c.StackTop() - 104, 64);
    forall j | j in known + {k}
      ensures j < SCRATCH_WORDS && Read(w, SlotAddress(c, j), 4) == m[k := v][j]
    {
      SlotInFrame(c, j);
      MappedPart(mem, c.StackTop() - 104, 64, SlotAddress(c, j), 4);
      SlotKept(c, mem, k, v, j);
    }
  }

  lemma SlotMapped(c: Call, mem: Memory, m: seq<U32>, known: set<nat>, k: nat)
    requires Remembers(c, mem, m, known) && k < SCRATCH_WORDS
    ensures Mapped(mem, SlotAddress(c, k), 4)
  {
    SlotInFrame(c, k);
  }

  // ----- the scratch instructions -----

  /** The block's outcome is the interpreter's outcome, with the frame intact. */
  predicate Carries(c: Call, f: Flow, pc: nat, o: Outcome, known: set<nat>) {
    match o
    case Done(v) =>
      && f.Leave? && FrameMemory(c, f.state.mem) && FrameRegisters(c, f.state.regs)
      && ((f.target == ToEpilogue && f.state.regs[RAX] == v) || (f.target == ToFailure && v == 0))
    case Next(q, vm) =>
      && ((f.Fall? && q == pc + 1) || (f.Leave? && f.target == ToSource(q)))
      && Body(c, f.state, vm, known)
  }

  lemma RecallCarries(perform: Performer, c: Call, s: State, i: Instruction, pc: nat, vm: Vm, known: set<nat>)
    requires IsMachine(perform) && ValidStack(c) && Body(c, s, vm, known) && ValidVm(vm)
    requires (i.op.LdMem? || i.op.LdxMem?) && i.k in known
    ensures Carries(c, perform(Lower(i, pc, c.input.Profile()), s), pc, Step(i, pc, vm, c.input), known)
  {
    SlotMapped(c, s.mem, vm.m, known, i.k);
    DoSlotLoad(perform, c, s, if i.op.LdMem? then Eax else Ecx, i.k);
  }

  lemma StoreCarries(perform: Performer, c: Call, s: State, i: Instruction, pc: nat, vm: Vm, known: set<nat>)
    requires IsMachine(perform) && ValidStack(c) && Body(c, s, vm, known) && ValidVm(vm)
    requires (i.op.St? || i.op.Stx?) && i.k < SCRATCH_WORDS
    ensures Carries(c, perform(Lower(i, pc, c.input.Profile()), s), pc, Step(i, pc, vm, c.input), known + {i.k})
  {
    var v := if i.op.St? then vm.a else vm.x;
    SlotMapped(c, s.mem, vm.m, known, i.k);
    DoSlotStore(perform, c, s, if i.op.St? then Eax else Ecx, i.k);
    StoreKeepsSaved(c, s.mem, i.k, v);
    StoreKeepsOutside(c, s.mem, i.k, v);
    StoreRemembers(c, s.mem, vm.m, known, i.k, v);
  }
}
