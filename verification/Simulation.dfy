/**
 Every lowered block simulates the reference semantics of its instruction: the
 accumulator lives in eax, the index in ecx, the input length in r13d, the data
 pointer in r12, and each scratch word that was stored on the way lies in the
 64-byte frame below rbp. The frame is never cleared, so nothing is known about
 the other scratch words.
 */
module Simulation {
  import opened Words
  import opened Bpf
  import opened Native
  import opened Lowering
  import opened Frame
  import opened Blocks

  /** The machine state keeps its frame when only eax, ecx and the temporaries change. */
  predicate Touches(s: State, t: State) {
    t.mem == s.mem && forall n :: 0 <= n < 16 && n !in {0, 1, 2, 14, 15} ==> t.regs[n] == s.regs[n]
  }

  /** The block's outcome is the interpreter's outcome, and memory is as it was. */
  predicate Simulates(c: Call, s: State, f: Flow, pc: nat, o: Outcome) {
    match o
    case Done(v) =>
      && f.Leave? && f.state.mem == s.mem && FrameRegisters(c, f.state.regs)
      && ((f.target == ToEpilogue && f.state.regs[RAX] == v) || (f.target == ToFailure && v == 0))
    case Next(q, vm) =>
      && ((f.Fall? && q == pc + 1) || (f.Leave? && f.target == ToSource(q)))
      && f.state.mem == s.mem && Matches(c, f.state, vm)
  }

  lemma ScratchTouches(s: State, t: State)
    requires Scratch(s, t)
    ensures Touches(s, t) && t.regs[RAX] == s.regs[RAX] && t.regs[RCX] == s.regs[RCX]
  {
  }

  lemma FailsTo(c: Call, f: Flow, s: State, pc: nat)
    requires FrameRegisters(c, s.regs) && Fails(f, s)
    ensures Simulates(c, s, f, pc, Done(0))
  {
    ScratchTouches(s, f.state);
  }

  /** A block that falls through with the interpreter's next registers simulates the step. */
  lemma Continues(c: Call, s: State, f: Flow, pc: nat, next: Vm)
    requires FrameRegisters(c, s.regs) && f.Fall? && Touches(s, f.state)
    requires f.state.regs[RAX] == next.a && f.state.regs[RCX] == next.x
    ensures Simulates(c, s, f, pc, Next(pc + 1, next))
  {
  }

  // ----- loads of the accumulator from the input -----

  lemma LoadSimulates(c: Call, f: Flow, s: State, pc: nat, vm: Vm, v: Option<U32>)
    requires Matches(c, s, vm) && LoadsValue(f, s, v)
    ensures Simulates(c, s, f, pc, AfterLoad(v, pc, vm))
  {
    if v.None? {
      FailsTo(c, f, s, pc);
    } else {
      ScratchTouches(Set(s, Eax, v.value), f.state);
      Continues(c, s, f, pc, vm.(a := v.value));
    }
  }

  lemma AbsoluteSimulates(perform: Performer, c: Call, s: State, k: U32, width: LoadWidth, pc: nat, vm: Vm)
    requires IsMachine(perform) && ValidInput(c) && OutsideKept(c, s.mem) && Matches(c, s, vm)
    requires AncillaryFromOffset(k).None?
    requires c.input.NativeWordInput? && width == Word ==> k % 4 == 0
    ensures Simulates(c, s, perform(AbsoluteLoad(k, width, c.input.Profile()), s), pc,
                      AfterLoad(c.input.Load(k, width), pc, vm))
  {
    var e := Bounds(width) + (AddressAdd() + (FetchInto(width, Eax) + EndianTransform(width, c.input.Profile())));
    Sequence(perform, [Move32(R14d, Imm(k))], e, s);
    DoImmediate(perform, R14d, k, s);
    var t := Set(s, R14d, k);
    BoundedLoad(perform, c, t, width);
    LoadSimulates(c, perform(e, t), t, pc, vm, c.input.Load(k, width));
  }

  lemma IndirectOffsetFlow(perform: Performer, s: State, x: U32, k: U32)
    requires IsMachine(perform) && s.regs[RCX] == x
    ensures var f := perform(IndirectOffset(k), s);
            if x + k >= B32 then Fails(f, s) else f.Fall? && Scratch(s, f.state) && f.state.regs[14] == x + k
  {
    var a, b := [Move32(R14d, Reg(Ecx))], [Op32(XAdd, R14d, Imm(k)), Branch(Below, ToFailure)];
    assert IndirectOffset(k) == a + b;
    Sequence(perform, a, b, s);
    DoMove(perform, R14d, Ecx, s);
    var t := Set(s, R14d, x);
    Pair(perform, b[0], b[1], t);
    DoAdd(perform, R14d, Imm(k), t, x, k);
    var u := Set(t, R14d, Add32(x, k)).(flags := Flags(x + k >= B32, Add32(x, k) == 0));
    DoBranch(perform, Below, ToFailure, u);
    assert u.regs == s.regs[RDX := s.regs[RDX]][14 := Add32(x, k)][15 := s.regs[15]];
  }

  lemma IndirectSimulates(perform: Performer, c: Call, s: State, k: U32, width: LoadWidth, pc: nat, vm: Vm)
    requires IsMachine(perform) && ValidInput(c) && OutsideKept(c, s.mem) && Matches(c, s, vm)
    ensures Simulates(c, s, perform(IndirectLoad(k, width, c.input.Profile()), s), pc,
                      if vm.x + k >= B32 then Done(0) else AfterLoad(c.input.Load(vm.x + k, width), pc, vm))
  {
    var e := Bounds(width) + (AlignmentCheck(width, c.input.Profile()) +
             (AddressAdd() + (FetchInto(width, Eax) + EndianTransform(width, c.input.Profile()))));
    Sequence(perform, IndirectOffset(k), e, s);
    IndirectOffsetFlow(perform, s, vm.x, k);
    var f := perform(IndirectOffset(k), s);
    if vm.x + k >= B32 {
      FailsTo(c, f, s, pc);
    } else {
      ScratchTouches(s, f.state);
      CheckedLoad(perform, c, f.state, width);
      LoadSimulates(c, perform(e, f.state), f.state, pc, vm, c.input.Load(vm.x + k, width));
    }
  }

  /** Metadata words lie in the caller's context record, outside the frame. */
  lemma ContextRead(c: Call, mem: Memory, field: Ancillary)
    requires ValidArguments(c) && c.input.PacketInput? && OutsideKept(c, mem)
    ensures var a := c.Context() + METADATA_OFFSET + MetadataOffset(field);
            && a + 4 <= c.Context() + 48 && Mapped(mem, a, 4)
            && Read(mem, a, 4) == ReadField(field, c.input.metadata)
  {
    var a := c.Context() + METADATA_OFFSET + MetadataOffset(field);
    assert Mapped(c.entry.mem, c.Context(), 48);
    forall i | a <= i < a + 4
      ensures i in mem && mem[i] == c.entry.mem[i]
    {
      assert i in c.entry.mem;
    }
    ReadFrame(mem, c.entry.mem, a, 4);
  }

  lemma MetadataFlow(perform: Performer, c: Call, s: State, field: Ancillary)
    requires IsMachine(perform) && ValidArguments(c) && c.input.PacketInput? && OutsideKept(c, s.mem)
    requires s.regs[RDI] == c.Context()
    ensures perform([Exact(Load(W32, Eax, Rdi, METADATA_OFFSET + MetadataOffset(field)))], s) ==
            Fall(Set(s, Eax, ReadField(field, c.input.metadata)))
  {
    ContextRead(c, s.mem, field);
    DoLoad(perform, s, W32, Eax, Rdi, METADATA_OFFSET + MetadataOffset(field),
           c.Context() + METADATA_OFFSET + MetadataOffset(field));
  }

  lemma AncillarySimulates(perform: Performer, c: Call, s: State, field: Ancillary, pc: nat, vm: Vm)
    requires IsMachine(perform) && ValidArguments(c) && OutsideKept(c, s.mem) && Matches(c, s, vm)
             && c.input.PacketInput?
    ensures Simulates(c, s, perform([Exact(Load(W32, Eax, Rdi, METADATA_OFFSET + MetadataOffset(field)))], s), pc,
                      Next(pc + 1, vm.(a := ReadField(field, c.input.metadata))))
  {
    MetadataFlow(perform, c, s, field);
  }

  /** Loading the header length: four times the low nibble, into the index register. */
  lemma NibbleFlow(perform: Performer, s: State, v: U8)
    requires IsMachine(perform) && s.regs[RCX] == v
    ensures var f := perform([Op32(XAnd, Ecx, Imm(0x0f)), Exact(ShiftImmediate(Left, W32, Ecx, 2))], s);
            && f.Fall? && f.state.mem == s.mem
            && f.state.regs == s.regs[RCX := Shl32(And32(v, 0x0f), 2)]
  {
    var p, q := Op32(XAnd, Ecx, Imm(0x0f)), Exact(ShiftImmediate(Left, W32, Ecx, 2));
    Pair(perform, p, q, s);
    MaskIndex(perform, s, v);
    ShiftIndexTwice(perform, perform([p], s).state, s, And32(v, 0x0f));
  }

  lemma MaskIndex(perform: Performer, s: State, v: U8)
    requires IsMachine(perform) && s.regs[RCX] == v
    ensures var f := perform([Op32(XAnd, Ecx, Imm(0x0f))], s);
            f.Fall? && f.state.mem == s.mem && f.state.regs == s.regs[RCX := And32(v, 0x0f)]
  {
    DoAnd(perform, Ecx, Imm(0x0f), s, v, 0x0f);
  }

  lemma ShiftIndexTwice(perform: Performer, t: State, s: State, n: U32)
    requires IsMachine(perform) && t.mem == s.mem && t.regs == s.regs[RCX := n]
    ensures var f := perform([Exact(ShiftImmediate(Left, W32, Ecx, 2))], t);
            f.Fall? && f.state.mem == s.mem && f.state.regs == s.regs[RCX := Shl32(n, 2)]
  {
    DoShift(perform, Left, Ecx, 2, t);
    assert s.regs[RCX := n][RCX := Shl32(n, 2)] == s.regs[RCX := Shl32(n, 2)];
  }

  lemma DoShift(perform: Performer, shift: ShiftKind, r: Register, count: U8, s: State)
    requires IsMachine(perform) && s.regs[Number(r)] < B32
    ensures perform([Exact(ShiftImmediate(shift, W32, r, count))], s) ==
            Fall(Set(s, r, Shifted(shift, s.regs[Number(r)], count)).(flags := Undefined))
  {
    Single(perform, Exact(ShiftImmediate(shift, W32, r, count)), s);
  }

  /** Bounds, address and a byte fetched into ecx. */
  lemma ByteToIndex(perform: Performer, c: Call, s: State, rest: seq<Pattern>)
    requires IsMachine(perform) && ValidInput(c) && OutsideKept(c, s.mem)
    requires s.regs[12] == c.Data() && s.regs[13] == c.Size() && s.regs[14] < B32
    ensures var ps := Bounds(Byte) + (AddressAdd() + (FetchInto(Byte, Ecx) + rest));
            if s.regs[14] >= c.Size() then Fails(perform(ps, s), s)
            else exists t :: Touches(s, t) && t.regs[RAX] == s.regs[RAX]
                             && t.regs[RCX] == c.input.data[s.regs[14]] && perform(ps, s) == perform(rest, t)
  {
    var a, b := Bounds(Byte), AddressAdd() + (FetchInto(Byte, Ecx) + rest);
    Sequence(perform, a, b, s);
    BoundsFlow(perform, s, Byte);
    if s.regs[14] < c.Size() {
      var t := perform(a, s).state;
      ScratchTouches(s, t);
      FetchAt(perform, c, t, Byte, Ecx);
      assert b == (AddressAdd() + FetchInto(Byte, Ecx)) + rest;
      Sequence(perform, AddressAdd() + FetchInto(Byte, Ecx), rest, t);
      var u := perform(AddressAdd() + FetchInto(Byte, Ecx), t).state;
      assert Touches(s, u);
    }
  }

  lemma HeaderSimulates(perform: Performer, c: Call, s: State, k: U32, pc: nat, vm: Vm)
    requires IsMachine(perform) && ValidInput(c) && OutsideKept(c, s.mem) && Matches(c, s, vm)
    ensures var v := c.input.Load(k, Byte);
            Simulates(c, s, perform(AbsoluteLoadToX(k), s), pc,
                      if v.None? then Done(0) else Next(pc + 1, vm.(x := Shl32(And32(v.value, 0x0f), 2))))
  {
    var nibble := [Op32(XAnd, Ecx, Imm(0x0f)), Exact(ShiftImmediate(Left, W32, Ecx, 2))];
    var e := Bounds(Byte) + (AddressAdd() + (FetchInto(Byte, Ecx) + nibble));
    Sequence(perform, [Move32(R14d, Imm(k))], e, s);
    DoImmediate(perform, R14d, k, s);
    var t := Set(s, R14d, k);
    ByteToIndex(perform, c, t, nibble);
    if k >= c.Size() {
      FailsTo(c, perform(e, t), t, pc);
    } else {
      var v := c.input.data[k];
      var u :| Touches(t, u) && u.regs[RAX] == t.regs[RAX] && u.regs[RCX] == v && perform(e, t) == perform(nibble, u);
      NibbleFlow(perform, u, v);
      Continues(c, t, perform(e, t), pc, vm.(x := Shl32(And32(v, 0x0f), 2)));
    }
  }
}
