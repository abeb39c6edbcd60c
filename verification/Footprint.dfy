/**
 Runs that touch only part of memory: a run that does not fault when every other
 address is unmapped is the same run with those addresses mapped. Every access to
 an unmapped byte faults, so such a run accesses that part of memory only.
 */
module Footprint {
  import opened Words
  import opened Bpf
  import opened Native
  import opened Lowering
  import opened Frame

  // ----- part of a memory -----

  function Cut(mem: Memory, keep: int -> bool): Memory { map a | a in mem && keep(a) :: mem[a] }

  function CutState(s: State, keep: int -> bool): State { s.(mem := Cut(s.mem, keep)) }

  function CutHalt(h: Halt, keep: int -> bool): Halt {
    if h.Returned? then h.(state := CutState(h.state, keep)) else h
  }

  lemma ReadCut(mem: Memory, keep: int -> bool, a: int, n: nat)
    requires Mapped(Cut(mem, keep), a, n)
    ensures Mapped(mem, a, n) && Read(Cut(mem, keep), a, n) == Read(mem, a, n)
  {
    forall i | a <= i < a + n
      ensures i in mem && Cut(mem, keep)[i] == mem[i]
    {
      assert i in Cut(mem, keep);
    }
    ReadFrame(Cut(mem, keep), mem, a, n);
  }

  lemma {:induction false} WriteCut(mem: Memory, keep: int -> bool, a: int, n: nat, v: nat)
    requires Mapped(Cut(mem, keep), a, n) && Mapped(mem, a, n)
    ensures Write(Cut(mem, keep), a, n, v) == Cut(Write(mem, a, n, v), keep)
    decreases n
  {
    if n > 0 {
      assert a in Cut(mem, keep);
      var next := mem[a := v % 0x100];
      assert Cut(mem, keep)[a := v % 0x100] == Cut(next, keep);
      WriteCut(next, keep, a + 1, n - 1, v / 0x100);
    }
  }

  // ----- part of a run -----

  /** `t` is what the operation makes of the whole machine, if it makes `t'` of the part. */
  predicate Extends(t: Option<State>, t': Option<State>, keep: int -> bool) {
    t'.Some? ==> t.Some? && t'.value == CutState(t.value, keep)
  }

  lemma PushCut(s: State, keep: int -> bool, v: U64)
    ensures Extends(Pushed(s, v), Pushed(CutState(s, keep), v), keep)
  {
    var sp := (s.regs[RSP] - 8) % B64;
    if Mapped(Cut(s.mem, keep), sp, 8) {
      ReadCut(s.mem, keep, sp, 8);
      WriteCut(s.mem, keep, sp, 8, v);
    }
  }

  lemma PopCut(s: State, keep: int -> bool, r: Register)
    ensures Extends(Popped(s, r), Popped(CutState(s, keep), r), keep)
  {
    if Mapped(Cut(s.mem, keep), s.regs[RSP], 8) {
      ReadCut(s.mem, keep, s.regs[RSP], 8);
    }
  }

  lemma StoreCut(s: State, keep: int -> bool, base: Register, disp: int, v: U32)
    ensures Extends(Stored(s, base, disp, v), Stored(CutState(s, keep), base, disp, v), keep)
  {
    var a := Address(s, base, disp);
    if Mapped(Cut(s.mem, keep), a, 4) {
      ReadCut(s.mem, keep, a, 4);
      WriteCut(s.mem, keep, a, 4, v);
    }
  }

  lemma LoadCut(s: State, keep: int -> bool, width: Width, reg: Register, base: Register, disp: int)
    ensures Extends(LoadInto(s, width, reg, base, disp), LoadInto(CutState(s, keep), width, reg, base, disp), keep)
  {
    var a := Address(s, base, disp);
    if Mapped(Cut(s.mem, keep), a, width.Bytes()) {
      ReadCut(s.mem, keep, a, width.Bytes());
    }
  }

  /** Operations on registers and flags do not look at memory. */
  lemma RegistersCut(op: NativeOp, s: State, keep: int -> bool)
    requires !op.Push? && !op.Pop? && !op.Mov? && !op.Load?
    ensures Extends(Exec(op, s), Exec(op, CutState(s, keep)), keep)
  {
  }

  lemma ExecCut(op: NativeOp, s: State, keep: int -> bool)
    ensures Extends(Exec(op, s), Exec(op, CutState(s, keep)), keep)
  {
    match op
    case Push(r) => PushCut(s, keep, s.regs[Number(r)]);
    case Pop(r) => PopCut(s, keep, r);
    case Mov(width, dst, src) =>
      if dst.Mem? && src.Reg? {
        StoreCut(s, keep, dst.base, dst.disp, Reg32(s, src.r));
      }
    case Load(width, reg, base, disp) => LoadCut(s, keep, width, reg, base, disp);
    case _ => RegistersCut(op, s, keep);
  }

  /** A run that does not fault on part of memory is the same run on the whole. */
  lemma {:induction false} RunCut(fetch: Fetch, rip: nat, s: State, fuel: nat, keep: int -> bool)
    requires !Run(Exec, fetch, rip, CutState(s, keep), fuel).Faulted?
    ensures Run(Exec, fetch, rip, CutState(s, keep), fuel) == CutHalt(Run(Exec, fetch, rip, s, fuel), keep)
    decreases fuel
  {
    if fuel > 0 && fetch(rip).Some? {
      var (op, next) := fetch(rip).value;
      if op.DirectJump? {
        RunCut(fetch, op.target, s, fuel - 1, keep);
      } else if op.ConditionalJump? {
        RunCut(fetch, if Holds(op.condition, s.flags) then op.target else next, s, fuel - 1, keep);
      } else if op.Return? {
        ReadCut(s.mem, keep, s.regs[RSP], 8);
      } else {
        ExecCut(op, s, keep);
        RunCut(fetch, next, Exec(op, s).value, fuel - 1, keep);
      }
    }
  }

  // ----- what a call may touch -----

  predicate InRange(i: int, a: int, n: nat) { a <= i < a + n }

  /** The stack from its lowest frame byte to the return address, the input, and the context record if there is one. */
  predicate Inside(c: Call, i: int) {
    || InRange(i, c.StackTop() - 104, 112)
    || InRange(i, c.Data(), c.Size())
    || (c.input.PacketInput? && InRange(i, c.Context(), 48))
  }

  function Own(c: Call): int -> bool { (i: int) => Inside(c, i) }

  /** The same call on a machine that maps nothing else. */
  function Alone(c: Call): Call { c.(entry := CutState(c.entry, Own(c))) }

  /** The run touches nothing else: it is the same when nothing else is mapped. */
  ghost predicate TouchesOwn(fetch: Fetch, c: Call, fuel: nat) {
    Run(Exec, fetch, 0, Alone(c).entry, fuel) == CutHalt(Run(Exec, fetch, 0, c.entry, fuel), Own(c))
  }

  lemma KeptRange(mem: Memory, keep: int -> bool, a: int, n: nat)
    requires Mapped(mem, a, n) && forall i :: InRange(i, a, n) ==> keep(i)
    ensures Mapped(Cut(mem, keep), a, n) && Read(Cut(mem, keep), a, n) == Read(mem, a, n)
  {
    forall i | a <= i < a + n
      ensures i in Cut(mem, keep)
    {
      assert InRange(i, a, n);
    }
    ReadCut(mem, keep, a, n);
  }

  lemma AloneInput(c: Call)
    requires ValidInput(c)
    ensures HoldsData(Alone(c).entry.mem, c.Data(), c.input.data)
  {
    forall i | c.Data() <= i < c.Data() + c.Size()
      ensures i in Alone(c).entry.mem
    {
      assert Inside(c, i);
    }
  }

  lemma AloneContext(c: Call, i: int, n: nat)
    requires ValidArguments(c) && c.input.PacketInput? && c.Context() <= i && i + n <= c.Context() + 48
    ensures Mapped(c.entry.mem, i, n) && Mapped(Alone(c).entry.mem, i, n)
    ensures Read(Alone(c).entry.mem, i, n) == Read(c.entry.mem, i, n)
  {
    assert Mapped(c.entry.mem, c.Context(), 48);
    KeptRange(c.entry.mem, Own(c), i, n);
  }

  /** A context record that reads the same in two memories. */
  lemma SameContext(m1: Memory, m2: Memory, a: int, size: int, metadata: Metadata)
    requires HoldsContext(m1, a, size, metadata) && Mapped(m2, a, 48)
    requires forall i :: InRange(i, a, 48) ==> i in m1 && i in m2 && m1[i] == m2[i]
    ensures HoldsContext(m2, a, size, metadata)
  {
    ReadFrame(m1, m2, a + LEN_OFFSET, 4);
    forall field: Ancillary
      ensures Read(m2, a + METADATA_OFFSET + MetadataOffset(field), 4) == ReadField(field, metadata)
    {
      ReadFrame(m1, m2, a + METADATA_OFFSET + MetadataOffset(field), 4);
    }
  }

  lemma AloneArguments(c: Call)
    requires ValidArguments(c)
    ensures Alone(c).Data() == c.Data() && ValidArguments(Alone(c))
  {
    if c.input.PacketInput? {
      AloneContext(c, c.Context(), 48);
      AloneContext(c, c.Context(), 8);
      SameContext(c.entry.mem, Alone(c).entry.mem, c.Context(), c.Size(), c.input.metadata);
    }
  }

  /** What the caller provides is all inside. */
  lemma AloneIsValid(c: Call)
    requires ValidCall(c)
    ensures ValidCall(Alone(c))
  {
    KeptRange(c.entry.mem, Own(c), c.StackTop() - 104, 112);
    AloneArguments(c);
    AloneInput(c);
  }
}
