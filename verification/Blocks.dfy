/**
 The effect of the native operations the lowering uses, and of the blocks that
 check bounds, form addresses, fetch input bytes and fix their byte order.
 */
module Blocks {
  import opened Words
  import opened Bpf
  import opened Native
  import opened Lowering
  import opened Frame

  /** Only the temporaries edx, r14 and r15 and the flags may differ. */
  predicate Scratch(s: State, t: State) {
    t.mem == s.mem && t.regs == s.regs[RDX := t.regs[RDX]][14 := t.regs[14]][15 := t.regs[15]]
  }

  predicate Fails(f: Flow, s: State) { f.Leave? && f.target == ToFailure && Scratch(s, f.state) }

  // ----- single operations -----

  lemma DoMove(perform: Performer, d: Register, r: Register, s: State)
    requires IsMachine(perform)
    ensures perform([Move32(d, Reg(r))], s) == Fall(Set(s, d, Reg32(s, r)))
  {
    Single(perform, Exact(Mov(W32, Reg(d), Reg(r))), s);
  }

  lemma DoImmediate(perform: Performer, d: Register, v: U32, s: State)
    requires IsMachine(perform)
    ensures perform([Move32(d, Imm(v))], s) == Fall(Set(s, d, v))
  {
    Single(perform, Exact(Mov(W32, Reg(d), Imm(v))), s);
  }

  lemma DoBinary(perform: Performer, kind: BinaryKind, d: Register, src: Operand, s: State)
    requires IsMachine(perform) && !src.Mem?
    ensures perform([Op32(kind, d, src)], s) == Fall(BinaryOn32(s, kind, d, Value32(s, src)))
  {
    Single(perform, Exact(Binary(kind, W32, Reg(d), src)), s);
  }

  lemma DoAdd(perform: Performer, d: Register, src: Operand, s: State, a: U32, b: U32)
    requires IsMachine(perform) && !src.Mem? && Reg32(s, d) == a && Value32(s, src) == b
    ensures perform([Op32(XAdd, d, src)], s) ==
            Fall(Set(s, d, Add32(a, b)).(flags := Flags(a + b >= B32, Add32(a, b) == 0)))
  {
    DoBinary(perform, XAdd, d, src, s);
  }

  lemma DoSub(perform: Performer, d: Register, src: Operand, s: State, a: U32, b: U32)
    requires IsMachine(perform) && !src.Mem? && Reg32(s, d) == a && Value32(s, src) == b
    ensures perform([Op32(XSub, d, src)], s) == Fall(Set(s, d, Sub32(a, b)).(flags := Flags(a < b, a == b)))
  {
    DoBinary(perform, XSub, d, src, s);
  }

  lemma DoMul(perform: Performer, d: Register, src: Operand, s: State, a: U32, b: U32)
    requires IsMachine(perform) && !src.Mem? && Reg32(s, d) == a && Value32(s, src) == b
    ensures perform([Op32(XMul, d, src)], s) == Fall(Set(s, d, Mul32(a, b)).(flags := Undefined))
  {
    DoBinary(perform, XMul, d, src, s);
  }

  lemma DoAnd(perform: Performer, d: Register, src: Operand, s: State, a: U32, b: U32)
    requires IsMachine(perform) && !src.Mem? && Reg32(s, d) == a && Value32(s, src) == b
    ensures perform([Op32(XAnd, d, src)], s) == Fall(Set(s, d, And32(a, b)).(flags := Flags(false, And32(a, b) == 0)))
  {
    DoBinary(perform, XAnd, d, src, s);
  }

  lemma DoOr(perform: Performer, d: Register, src: Operand, s: State, a: U32, b: U32)
    requires IsMachine(perform) && !src.Mem? && Reg32(s, d) == a && Value32(s, src) == b
    ensures perform([Op32(XOr, d, src)], s) == Fall(Set(s, d, Or32(a, b)).(flags := Flags(false, Or32(a, b) == 0)))
  {
    DoBinary(perform, XOr, d, src, s);
  }

  lemma DoXor(perform: Performer, d: Register, src: Operand, s: State, a: U32, b: U32)
    requires IsMachine(perform) && !src.Mem? && Reg32(s, d) == a && Value32(s, src) == b
    ensures perform([Op32(XXor, d, src)], s) == Fall(Set(s, d, Xor32(a, b)).(flags := Flags(false, Xor32(a, b) == 0)))
  {
    DoBinary(perform, XXor, d, src, s);
  }

  lemma DoCompare(perform: Performer, left: Operand, right: Operand, s: State)
    requires IsMachine(perform) && !left.Mem? && !right.Mem?
    ensures var a, b := Value32(s, left), Value32(s, right);
            perform([Exact(Compare(W32, left, right))], s) == Fall(s.(flags := Flags(a < b, a == b)))
  {
    Single(perform, Exact(Compare(W32, left, right)), s);
  }

  lemma DoAdd64(perform: Performer, s: State)
    requires IsMachine(perform) && s.regs[14] + s.regs[12] < B64
    ensures perform([Exact(Binary(XAdd, W64, Reg(R14), Reg(R12)))], s) ==
            Fall(s.(regs := s.regs[14 := s.regs[14] + s.regs[12]], flags := Flags(false, s.regs[14] + s.regs[12] == 0)))
  {
    Single(perform, Exact(Binary(XAdd, W64, Reg(R14), Reg(R12))), s);
  }

  lemma LoadedInto(s: State, width: Width, d: Register, base: Register, disp: int, a: int)
    requires a == s.regs[Number(base)] + disp && 0 <= a < B64 && Mapped(s.mem, a, width.Bytes())
    ensures Read(s.mem, a, width.Bytes()) < B64
    ensures width != W64 ==> Read(s.mem, a, width.Bytes()) < B32
    ensures LoadInto(s, width, d, base, disp) == Some(Set(s, d, Read(s.mem, a, width.Bytes())))
  {
    assert Address(s, base, disp) == a;
    ReadBound(s.mem, a, width);
  }

  lemma DoLoad(perform: Performer, s: State, width: Width, d: Register, base: Register, disp: int, a: int)
    requires IsMachine(perform)
    requires a == s.regs[Number(base)] + disp && 0 <= a < B64 && Mapped(s.mem, a, width.Bytes())
    ensures Read(s.mem, a, width.Bytes()) < B64
    ensures width != W64 ==> Read(s.mem, a, width.Bytes()) < B32
    ensures perform([Exact(Load(width, d, base, disp))], s) == Fall(Set(s, d, Read(s.mem, a, width.Bytes())))
  {
    LoadedInto(s, width, d, base, disp, a);
    Single(perform, Exact(Load(width, d, base, disp)), s);
  }

  lemma DoSwap32(perform: Performer, s: State)
    requires IsMachine(perform) && s.regs[RAX] < B32
    ensures perform([Exact(Unary(ByteSwap, W32, Eax, 0))], s) == Fall(Set(s, Eax, Swap32(s.regs[RAX])))
  {
    assert Reg32(s, Eax) == s.regs[RAX];
    var t := Set(s, Eax, Swap32(Reg32(s, Eax)));
    assert Transformed(s, ByteSwap, W32, Eax, 0) == Some(t);
    Single(perform, Exact(Unary(ByteSwap, W32, Eax, 0)), s);
  }

  lemma RotatedHalf(v: U16)
    ensures HalfRotated(v) == Swap16(v)
  {
    assert v % 0x1_0000 == v;
  }

  lemma DoSwap16(perform: Performer, s: State)
    requires IsMachine(perform) && s.regs[RAX] < 0x1_0000
    ensures perform([Exact(Unary(RotateLeft, W16, Eax, 8))], s) ==
            Fall(Set(s, Eax, Swap16(s.regs[RAX])).(flags := Undefined))
  {
    RotatedHalf(s.regs[RAX]);
    assert Transformed(s, RotateLeft, W16, Eax, 8) == Some(Set(s, Eax, Swap16(s.regs[RAX])).(flags := Undefined));
    Single(perform, Exact(Unary(RotateLeft, W16, Eax, 8)), s);
  }

  lemma DoBarrier(perform: Performer, s: State)
    requires IsMachine(perform)
    ensures perform([Exact(SpeculationBarrier)], s) == Fall(s)
  {
    Single(perform, Exact(SpeculationBarrier), s);
  }

  lemma DoBranch(perform: Performer, c: Condition, t: Target, s: State)
    requires IsMachine(perform) && s.flags.Flags?
    ensures perform([Branch(c, t)], s) == if Holds(c, s.flags) then Leave(t, s) else Fall(s)
  {
    Single(perform, Branch(c, t), s);
  }

  lemma DoGoto(perform: Performer, t: Target, s: State)
    requires IsMachine(perform)
    ensures perform([Goto(t)], s) == Leave(t, s)
  {
    Single(perform, Goto(t), s);
  }

  /** A comparison followed by a conditional branch. */
  lemma CompareBranch(perform: Performer, left: Operand, right: Operand, c: Condition, t: Target, s: State)
    requires IsMachine(perform) && !left.Mem? && !right.Mem?
    ensures var a, b := Value32(s, left), Value32(s, right);
            var s1 := s.(flags := Flags(a < b, a == b));
            perform([Exact(Compare(W32, left, right)), Branch(c, t)], s) ==
            if Holds(c, s1.flags) then Leave(t, s1) else Fall(s1)
  {
    Pair(perform, Exact(Compare(W32, left, right)), Branch(c, t), s);
    DoCompare(perform, left, right, s);
    DoBranch(perform, c, t,
             s.(flags := Flags(Value32(s, left) < Value32(s, right), Value32(s, left) == Value32(s, right))));
  }

  lemma RoomLeft(perform: Performer, s: State, n: nat)
    requires IsMachine(perform) && n <= s.regs[13] < B32
    ensures perform([Move32(R15d, Reg(R13d)), Op32(XSub, R15d, Imm(n))], s) ==
            Fall(s.(regs := s.regs[15 := s.regs[13] - n], flags := Flags(false, s.regs[13] == n)))
  {
    var p, q := Move32(R15d, Reg(R13d)), Op32(XSub, R15d, Imm(n));
    Pair(perform, p, q, s);
    DoMove(perform, R15d, R13d, s);
    DoSub(perform, R15d, Imm(n), Set(s, R15d, s.regs[13]), s.regs[13], n);
    assert s.regs[15 := s.regs[13]][15 := s.regs[13] - n] == s.regs[15 := s.regs[13] - n];
  }

  /** The second half of the bounds check: the offset against the room left. */
  lemma OffsetFits(perform: Performer, s: State, n: nat)
    requires IsMachine(perform) && n <= s.regs[13] < B32 && s.regs[14] < B32
    ensures var f := perform([Move32(R15d, Reg(R13d)), Op32(XSub, R15d, Imm(n))] +
                                   [Exact(Compare(W32, Reg(R15d), Reg(R14d))), Branch(Below, ToFailure)], s);
            if s.regs[14] + n <= s.regs[13]
            then f.Fall? && Scratch(s, f.state) && f.state.regs[14] == s.regs[14]
            else Fails(f, s)
  {
    var b := [Move32(R15d, Reg(R13d)), Op32(XSub, R15d, Imm(n))];
    var c := [Exact(Compare(W32, Reg(R15d), Reg(R14d))), Branch(Below, ToFailure)];
    var t := s.(regs := s.regs[15 := s.regs[13] - n], flags := Flags(false, s.regs[13] == n));
    assert perform(b, s) == Fall(t) by { RoomLeft(perform, s, n); }
    Sequence(perform, b, c, s);
    CompareBranch(perform, Reg(R15d), Reg(R14d), Below, ToFailure, t);
  }

  lemma BoundsFlow(perform: Performer, s: State, width: LoadWidth)
    requires IsMachine(perform) && s.regs[13] < B32 && s.regs[14] < B32
    ensures var f := perform(Bounds(width), s);
            if s.regs[14] + width.Bytes() <= s.regs[13]
            then f.Fall? && Scratch(s, f.state) && f.state.regs[14] == s.regs[14]
            else Fails(f, s)
  {
    var n := width.Bytes();
    var a := [Exact(Compare(W32, Reg(R13d), Imm(n))), Branch(Below, ToFailure)];
    var bc := [Move32(R15d, Reg(R13d)), Op32(XSub, R15d, Imm(n))] +
              [Exact(Compare(W32, Reg(R15d), Reg(R14d))), Branch(Below, ToFailure)];
    assert Bounds(width) == a + bc;
    var t := s.(flags := Flags(s.regs[13] < n, s.regs[13] == n));
    CompareBranch(perform, Reg(R13d), Imm(n), Below, ToFailure, s);
    if s.regs[13] < n {
      assert perform(a, s) == Leave(ToFailure, t);
      Sequence(perform, a, bc, s);
    } else {
      assert perform(a, s) == Fall(t);
      Sequence(perform, a, bc, s);
      OffsetFits(perform, t, n);
    }
  }

  lemma AddressFlow(perform: Performer, s: State)
    requires IsMachine(perform) && s.regs[14] + s.regs[12] < B64
    ensures perform(AddressAdd(), s) ==
            Fall(s.(regs := s.regs[14 := s.regs[14] + s.regs[12]], flags := Flags(false, s.regs[14] + s.regs[12] == 0)))
  {
    Pair(perform, Exact(Binary(XAdd, W64, Reg(R14), Reg(R12))), Branch(Below, ToFailure), s);
    DoAdd64(perform, s);
    DoBranch(perform, Below, ToFailure,
             s.(regs := s.regs[14 := s.regs[14] + s.regs[12]], flags := Flags(false, s.regs[14] + s.regs[12] == 0)));
  }

  lemma FetchFlow(perform: Performer, s: State, width: LoadWidth, d: Register)
    requires IsMachine(perform) && Mapped(s.mem, s.regs[14], width.Bytes())
    ensures Read(s.mem, s.regs[14], width.Bytes()) < B32
    ensures perform(FetchInto(width, d), s) == Fall(Set(s, d, Read(s.mem, s.regs[14], width.Bytes())))
  {
    Pair(perform, Exact(SpeculationBarrier), Exact(Load(NativeWidth(width), d, R14, 0)), s);
    DoBarrier(perform, s);
    DoLoad(perform, s, NativeWidth(width), d, R14, 0, s.regs[14]);
  }

  lemma SwappedHalf(input: Input, offset: U32)
    requires !input.NativeWordInput? && input.Load(offset, Half).Some?
    ensures Swap16(LittleAt(input.data, offset, Half)) == input.Load(offset, Half).value
  {
    SwapLittle16(input.data[offset], input.data[offset + 1]);
  }

  lemma SwappedWord(input: Input, offset: U32)
    requires !input.NativeWordInput? && input.Load(offset, Word).Some?
    ensures Swap32(LittleAt(input.data, offset, Word)) == input.Load(offset, Word).value
  {
    SwapLittle32(input.data[offset], input.data[offset + 1], input.data[offset + 2], input.data[offset + 3]);
  }

  /** Byte order: what was loaded little-endian becomes the value the input adapter gives. */
  lemma EndianFlow(perform: Performer, s: State, input: Input, offset: U32, width: LoadWidth)
    requires IsMachine(perform) && input.Load(offset, width).Some?
    requires s.regs[RAX] == LittleAt(input.data, offset, width)
    ensures var f := perform(EndianTransform(width, input.Profile()), s);
            f.Fall? && f.state.mem == s.mem && f.state.regs == s.regs[RAX := input.Load(offset, width).value]
  {
    if input.Profile().NativeAlignedWords? || width == Byte {
      Nothing(perform, s);
      assert s.regs[RAX := s.regs[RAX]] == s.regs;
    } else if width == Half {
      DoSwap16(perform, s);
      SwappedHalf(input, offset);
    } else {
      DoSwap32(perform, s);
      SwappedWord(input, offset);
    }
  }

  /** Address, fetch: the bytes at an offset that is in bounds. */
  lemma FetchAt(perform: Performer, c: Call, s: State, width: LoadWidth, d: Register)
    requires IsMachine(perform) && ValidInput(c) && OutsideKept(c, s.mem)
    requires s.regs[12] == c.Data() && s.regs[14] + width.Bytes() <= c.Size()
    ensures var f := perform(AddressAdd() + FetchInto(width, d), s);
            && f.Fall? && f.state.mem == s.mem
            && f.state.regs ==
               s.regs[14 := s.regs[14] + c.Data()][Number(d) := LittleAt(c.input.data, s.regs[14], width)]
  {
    var t := s.(regs := s.regs[14 := s.regs[14] + s.regs[12]], flags := Flags(false, s.regs[14] + s.regs[12] == 0));
    assert perform(AddressAdd(), s) == Fall(t) by { AddressFlow(perform, s); }
    Sequence(perform, AddressAdd(), FetchInto(width, d), s);
    assert Mapped(t.mem, t.regs[14], width.Bytes()) &&
           Read(t.mem, t.regs[14], width.Bytes()) == LittleAt(c.input.data, s.regs[14], width) by {
      DataRead(c, s.mem, s.regs[14], width);
    }
    FetchFlow(perform, t, width, d);
  }

  /** The low two bits decide the alignment of an indirect native word. */
  lemma AlignedBits(v: U32)
    ensures Bits(BitAnd, v % 0x100, 3, 8) == v % 4
  {
    AndThree(v % 0x100, 8);
    assert v % 0x100 % 4 == v % 4;
  }

  lemma DoTestByte(perform: Performer, s: State)
    requires IsMachine(perform) && s.regs[14] < B32
    ensures perform([Exact(Test(W8, Reg(R14d), Imm(3)))], s) == Fall(s.(flags := Flags(false, s.regs[14] % 4 == 0)))
  {
    AlignedBits(s.regs[14]);
    assert Tested(s, W8, Reg(R14d), Imm(3)) == Some(s.(flags := Flags(false, s.regs[14] % 4 == 0)));
    Single(perform, Exact(Test(W8, Reg(R14d), Imm(3))), s);
  }

  lemma AlignmentFlow(perform: Performer, s: State, input: Input, width: LoadWidth)
    requires IsMachine(perform) && s.regs[14] < B32
    ensures var f := perform(AlignmentCheck(width, input.Profile()), s);
            if input.NativeWordInput? && width == Word && s.regs[14] % 4 != 0
            then Fails(f, s)
            else f.Fall? && f.state.mem == s.mem && f.state.regs == s.regs
  {
    if input.NativeWordInput? && width == Word {
      Pair(perform, Exact(Test(W8, Reg(R14d), Imm(3))), Branch(NotEqual, ToFailure), s);
      DoTestByte(perform, s);
      DoBranch(perform, NotEqual, ToFailure, s.(flags := Flags(false, s.regs[14] % 4 == 0)));
    } else {
      Nothing(perform, s);
    }
  }

  /** The outcome of a load into the accumulator: failure, or the adapter's value. */
  predicate LoadsValue(f: Flow, s: State, v: Option<U32>) {
    if v.None? then Fails(f, s) else f.Fall? && Scratch(Set(s, Eax, v.value), f.state)
  }

  lemma FetchedScratch(s: State, u: State, a: U64, l: U64, v: U64)
    requires u.mem == s.mem && u.regs == s.regs[14 := a][RAX := l][RAX := v]
    ensures Scratch(Set(s, Eax, v), u)
  {
    var w: Registers := s.regs[RAX := v];
    assert u.regs == w[RDX := u.regs[RDX]][14 := u.regs[14]][15 := u.regs[15]];
  }

  /** From an offset known to be in bounds to the value in eax. */
  lemma FetchValue(perform: Performer, c: Call, s: State, width: LoadWidth)
    requires IsMachine(perform) && ValidInput(c) && OutsideKept(c, s.mem)
    requires s.regs[12] == c.Data() && s.regs[14] < B32 && c.input.Load(s.regs[14], width).Some?
    ensures LoadsValue(perform(AddressAdd() + (FetchInto(width, Eax) + EndianTransform(width, c.input.Profile())), s),
                       s, c.input.Load(s.regs[14], width))
  {
    var a, b, e := AddressAdd(), FetchInto(width, Eax), EndianTransform(width, c.input.Profile());
    assert a + (b + e) == (a + b) + e;
    FetchAt(perform, c, s, width, Eax);
    var t := perform(a + b, s).state;
    Sequence(perform, a + b, e, s);
    EndianFlow(perform, t, c.input, s.regs[14], width);
    FetchedScratch(s, perform(e, t).state, s.regs[14] + c.Data(),
                   LittleAt(c.input.data, s.regs[14], width), c.input.Load(s.regs[14], width).value);
  }

  /** Temporaries changed before a load do not matter to its outcome. */
  lemma LoadsAfter(f: Flow, s: State, t: State, v: Option<U32>)
    requires Scratch(s, t) && LoadsValue(f, t, v)
    ensures LoadsValue(f, s, v)
  {
    if v.Some? {
      var u := f.state;
      var w := Set(s, Eax, v.value);
      forall n | 0 <= n < 16 && n != 2 && n != 14 && n != 15
        ensures u.regs[n] == w.regs[n]
      {
      }
      assert u.regs == w.regs[RDX := u.regs[RDX]][14 := u.regs[14]][15 := u.regs[15]];
    }
  }

  /** A load without an alignment check, for offsets that need none. */
  lemma BoundedLoad(perform: Performer, c: Call, s: State, width: LoadWidth)
    requires IsMachine(perform) && ValidInput(c) && OutsideKept(c, s.mem)
    requires s.regs[12] == c.Data() && s.regs[13] == c.Size() && s.regs[14] < B32
    requires c.input.NativeWordInput? && width == Word ==> s.regs[14] % 4 == 0
    ensures LoadsValue(perform(Bounds(width) +
                         (AddressAdd() + (FetchInto(width, Eax) + EndianTransform(width, c.input.Profile()))), s),
                       s, c.input.Load(s.regs[14], width))
  {
    var a := Bounds(width);
    var e := AddressAdd() + (FetchInto(width, Eax) + EndianTransform(width, c.input.Profile()));
    BoundsFlow(perform, s, width);
    Sequence(perform, a, e, s);
    if s.regs[14] + width.Bytes() <= s.regs[13] {
      var t := perform(a, s).state;
      FetchValue(perform, c, t, width);
      LoadsAfter(perform(e, t), s, t, c.input.Load(s.regs[14], width));
    }
  }

  lemma AlignedLoad(perform: Performer, c: Call, s: State, width: LoadWidth)
    requires IsMachine(perform) && ValidInput(c) && OutsideKept(c, s.mem)
    requires s.regs[12] == c.Data() && s.regs[14] + width.Bytes() <= c.Size()
    ensures LoadsValue(perform(AlignmentCheck(width, c.input.Profile()) +
                         (AddressAdd() + (FetchInto(width, Eax) + EndianTransform(width, c.input.Profile()))), s),
                       s, c.input.Load(s.regs[14], width))
  {
    var b := AlignmentCheck(width, c.input.Profile());
    var e := AddressAdd() + (FetchInto(width, Eax) + EndianTransform(width, c.input.Profile()));
    AlignmentFlow(perform, s, c.input, width);
    if perform(b, s).Leave? {
      Sequence(perform, b, e, s);
    } else {
      var u := perform(b, s).state;
      Sequence(perform, b, e, s);
      FetchValue(perform, c, u, width);
      SameScratch(s, u);
      LoadsAfter(perform(e, u), s, u, c.input.Load(s.regs[14], width));
    }
  }

  lemma SameScratch(s: State, t: State)
    requires t.mem == s.mem && t.regs == s.regs
    ensures Scratch(s, t)
  {
    assert s.regs == s.regs[RDX := s.regs[RDX]][14 := s.regs[14]][15 := s.regs[15]];
  }

  /** Bounds, alignment, address, fetch and byte order together are the adapter's load. */
  lemma CheckedLoad(perform: Performer, c: Call, s: State, width: LoadWidth)
    requires IsMachine(perform) && ValidInput(c) && OutsideKept(c, s.mem)
    requires s.regs[12] == c.Data() && s.regs[13] == c.Size() && s.regs[14] < B32
    ensures LoadsValue(perform(Bounds(width) + (AlignmentCheck(width, c.input.Profile()) +
                         (AddressAdd() + (FetchInto(width, Eax) + EndianTransform(width, c.input.Profile())))), s),
                       s, c.input.Load(s.regs[14], width))
  {
    var a := Bounds(width);
    var e := AlignmentCheck(width, c.input.Profile()) +
             (AddressAdd() + (FetchInto(width, Eax) + EndianTransform(width, c.input.Profile())));
    BoundsFlow(perform, s, width);
    if s.regs[14] + width.Bytes() > s.regs[13] {
      Sequence(perform, a, e, s);
    } else {
      var t := perform(a, s).state;
      Sequence(perform, a, e, s);
      AlignedLoad(perform, c, t, width);
      LoadsAfter(perform(e, t), s, t, c.input.Load(s.regs[14], width));
    }
  }
}
