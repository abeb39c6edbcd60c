/** How long the emitted code is, and when it fits the image limit. */
module Sizes {
  import opened Words
  import opened Bpf
  import opened Lowering
  import opened Emitter
  import opened Linking
  import opened Translation
  import opened Verifier
  import opened Validator

  lemma One(x: Piece)
    ensures Length([x]) == Size(x)
  {
    assert [x][1..] == [];
  }

  lemma Two(x: Piece, y: Piece)
    ensures Length([x, y]) == Size(x) + Size(y)
  {
    assert [x, y] == [x] + [y];
    LengthSum([x], [y]);
    One(x);
    One(y);
  }

  lemma Three(x: Piece, y: Piece, z: Piece)
    ensures Length([x, y, z]) == Size(x) + Size(y) + Size(z)
  {
    assert [x, y, z] == [x, y] + [z];
    LengthSum([x, y], [z]);
    Two(x, y);
    One(z);
  }

  lemma Six(a: Piece, b: Piece, c: Piece, x: Piece, y: Piece, z: Piece)
    ensures Length([a, b, c, x, y, z]) == Size(a) + Size(b) + Size(c) + Size(x) + Size(y) + Size(z)
  {
    assert [a, b, c, x, y, z] == [a, b, c] + [x, y, z];
    LengthSum([a, b, c], [x, y, z]);
    Three(a, b, c);
    Three(x, y, z);
  }

  lemma BoundsSize(width: LoadWidth)
    ensures Length(EmitBounds(width)) == 26
  {
    var ps := EmitBounds(width);
    Six(ps[0], ps[1], ps[2], ps[3], ps[4], ps[5]);
    assert ps == [ps[0], ps[1], ps[2], ps[3], ps[4], ps[5]];
  }

  function FetchSize(width: LoadWidth): nat { if width.Word? then 6 else 7 }

  function SwapSize(width: LoadWidth, profile: InputProfile): nat {
    if profile.NativeAlignedWords? then 0 else match width case Byte => 0 case Half => 4 case Word => 2
  }

  function AlignmentSize(width: LoadWidth, profile: InputProfile): nat {
    if profile.NativeAlignedWords? && width.Word? then 10 else 0
  }

  lemma AccessSizes(width: LoadWidth, profile: InputProfile)
    ensures Length(EmitAddress()) == 9 && Length(EmitFetch(width)) == FetchSize(width)
    ensures Length(EmitSwap(width, profile)) == SwapSize(width, profile)
    ensures Length(EmitAlignment(width, profile)) == AlignmentSize(width, profile)
  {
    Two(Code([0x4d, 0x01, 0xe6]), Jcc(0x82, ToFailure));
    var f := EmitFetch(width);
    Two(f[0], f[1]);
    assert f == [f[0], f[1]];
    Two(Code([0x41, 0xf6, 0xc6, 0x03]), Jcc(0x85, ToFailure));
    One(Code([0x66, 0xc1, 0xc0, 0x08]));
    One(Code([0x0f, 0xc8]));
  }

  lemma AccessSize(width: LoadWidth, profile: InputProfile)
    ensures Length(EmitAddress() + (EmitFetch(width) + EmitSwap(width, profile))) == 9 + FetchSize(width) +
            SwapSize(width, profile)
  {
    AccessSizes(width, profile);
    LengthSum(EmitFetch(width), EmitSwap(width, profile));
    LengthSum(EmitAddress(), EmitFetch(width) + EmitSwap(width, profile));
  }

  lemma AbsoluteSize(k: U32, width: LoadWidth, profile: InputProfile)
    ensures Length(EmitAbsolute(k, width, profile))
         == if AncillaryFromOffset(k).Some? then 3 else 41 + FetchSize(width) + SwapSize(width, profile)
  {
    var field := AncillaryFromOffset(k);
    if field.Some? {
      One(Code([0x8b, 0x47, METADATA_OFFSET + MetadataOffset(field.value)]));
    } else {
      var a := EmitAddress() + (EmitFetch(width) + EmitSwap(width, profile));
      AccessSize(width, profile);
      BoundsSize(width);
      One(With32([0x41, 0xbe], k));
      LengthSum(EmitBounds(width), a);
      LengthSum([With32([0x41, 0xbe], k)], EmitBounds(width) + a);
    }
  }

  lemma IndirectSize(k: U32, width: LoadWidth, profile: InputProfile)
    ensures Length(EmitIndirect(k, width, profile)) == 51 + AlignmentSize(width, profile) + FetchSize(width) +
            SwapSize(width, profile)
  {
    var a := EmitAddress() + (EmitFetch(width) + EmitSwap(width, profile));
    var c := EmitAlignment(width, profile);
    var h := [Code([0x41, 0x89, 0xce]), With32([0x41, 0x81, 0xc6], k), Jcc(0x82, ToFailure)];
    AccessSize(width, profile);
    AccessSizes(width, profile);
    BoundsSize(width);
    Three(h[0], h[1], h[2]);
    LengthSum(c, a);
    LengthSum(EmitBounds(width), c + a);
    LengthSum(h, EmitBounds(width) + (c + a));
  }

  lemma HeaderSize(k: U32)
    ensures Length(EmitHeaderLength(k)) == 54
  {
    var a := [EmitBarrier(), Code([0x41, 0x0f, 0xb6, 0x0e])];
    var c := [Code([0x83, 0xe1, 0x0f]), Code([0xc1, 0xe1, 0x02])];
    Two(a[0], a[1]);
    Two(c[0], c[1]);
    AccessSizes(Byte, PacketBytesBigEndian);
    BoundsSize(Byte);
    One(With32([0x41, 0xbe], k));
    LengthSum(a, c);
    LengthSum(EmitAddress(), a + c);
    LengthSum(EmitBounds(Byte), EmitAddress() + (a + c));
    LengthSum([With32([0x41, 0xbe], k)], EmitBounds(Byte) + (EmitAddress() + (a + c)));
  }

  lemma AluKSize(kind: AluKind, k: U32)
    ensures 0 < Length(EmitAluK(kind, k)) <= 13
  {
    if kind in {Div, Mod} {
      var h := [With32([0x41, 0xbe], k), Code([0x31, 0xd2]), Code([0x41, 0xf7, 0xf6])];
      Three(h[0], h[1], h[2]);
      One(Code([0x89, 0xd0]));
      LengthSum(h, EmitRemainder(kind));
    } else {
      One(EmitAluK(kind, k)[0]);
    }
  }

  lemma AluXSize(kind: AluKind)
    ensures 0 < Length(EmitAluX(kind)) <= 18
  {
    if kind in {Div, Mod} {
      var h := [Code([0x85, 0xc9]), Jcc(0x84, ToFailure)];
      var g := [Code([0x31, 0xd2]), Code([0xf7, 0xf1])];
      Two(h[0], h[1]);
      Two(g[0], g[1]);
      One(Code([0x89, 0xd0]));
      assert EmitAluX(kind) == (h + g) + EmitRemainder(kind);
      LengthSum(h, g);
      LengthSum(h + g, EmitRemainder(kind));
    } else if kind in {Lsh, Rsh} {
      var s := EmitAluX(kind);
      Six(s[0], s[1], s[2], s[3], s[4], s[5]);
      assert s == [s[0], s[1], s[2], s[3], s[4], s[5]];
    } else {
      One(EmitAluX(kind)[0]);
    }
  }

  function MaxBlock(profile: InputProfile): nat { if profile.NativeAlignedWords? then 67 else 62 }

  lemma SimpleSize(i: Instruction, pc: nat, profile: InputProfile)
    requires !i.op.LdAbs? && !i.op.LdInd? && !i.op.LdxMsh? && !i.op.Alu? && !i.op.Unsupported?
    ensures 0 < Length(Emit(i, pc, profile)) <= 17
  {
    var ps := Emit(i, pc, profile);
    if |ps| == 1 { One(ps[0]); assert ps == [ps[0]]; }
    else if |ps| == 2 { Two(ps[0], ps[1]); assert ps == [ps[0], ps[1]]; }
    else { Three(ps[0], ps[1], ps[2]); assert ps == [ps[0], ps[1], ps[2]]; }
  }

  /** Every supported instruction takes at least one byte, and at most 62 under the packet profiles. */
  lemma BlockSize(i: Instruction, pc: nat, profile: InputProfile)
    requires !i.op.Unsupported?
    ensures 0 < Length(Emit(i, pc, profile)) <= MaxBlock(profile)
  {
    match i.op
    case LdAbs(width) => AbsoluteSize(i.k, width, profile);
    case LdInd(width) => IndirectSize(i.k, width, profile);
    case LdxMsh => HeaderSize(i.k);
    case Alu(kind, src) => if src.FromK? { AluKSize(kind, i.k); } else { AluXSize(kind); }
    case _ => SimpleSize(i, pc, profile);
  }

  // ----- whole images -----

  lemma PrologueSize(profile: InputProfile)
    ensures Length(EmitPrologue(profile)) == if profile.PacketContextBigEndian? then 27 else 26
  {
    var a, b, c, d := EmitSave(), EmitFrame(), EmitArguments(profile), [Code([0x31, 0xc0]), Code([0x31, 0xc9])];
    assert a == [a[0], a[1], a[2]] + [a[3], a[4]];
    Three(a[0], a[1], a[2]);
    Two(a[3], a[4]);
    LengthSum([a[0], a[1], a[2]], [a[3], a[4]]);
    Two(b[0], b[1]);
    assert b == [b[0], b[1]];
    Two(c[0], c[1]);
    assert c == [c[0], c[1]];
    Two(d[0], d[1]);
    LengthSum(a, b);
    LengthSum(a + b, c);
    LengthSum(a + b + c, d);
  }

  lemma TailSize()
    ensures Length(EmitZeroReturn()) == 7 && Length(EmitEpilogue()) == 14
  {
    Two(Code([0x31, 0xc0]), Jmp(ToEpilogue));
    var e := EmitEpilogue();
    assert e == [e[0], e[1], e[2], e[3], e[4], e[5]] + [e[6]];
    Six(e[0], e[1], e[2], e[3], e[4], e[5]);
    One(e[6]);
    LengthSum([e[0], e[1], e[2], e[3], e[4], e[5]], [e[6]]);
  }

  lemma {:induction false} StartBound(emit: nat -> seq<Piece>, base: nat, pc: nat, most: nat)
    requires forall q: nat {:trigger emit(q)} :: q < pc ==> Length(emit(q)) <= most
    ensures OffsetOf(emit, base, pc) <= base + pc * most
    decreases pc
  {
    if pc > 0 {
      StartBound(emit, base, pc - 1, most);
      assert emit(pc - 1) == emit(pc - 1);
    }
  }

  /** An image is at most its fixed parts plus the largest block for every instruction. */
  lemma ImageBound(source: seq<Instruction>, profile: InputProfile)
    requires Closed(source)
    ensures UnitOf(source, profile).Size() <= 48 + |source| * MaxBlock(profile)
  {
    var u := UnitOf(source, profile);
    forall q: nat {:trigger u.emit(q)} | q < |source| ensures Length(u.emit(q)) <= MaxBlock(profile) {
      BlockSize(source[q], q, profile);
    }
    StartBound(u.emit, Length(u.head), |source|, MaxBlock(profile));
    PrologueSize(profile);
    TailSize();
  }

  /** Under the packet profiles the largest program fits the image limit. */
  lemma PacketImagesFit(source: seq<Instruction>, profile: InputProfile)
    requires WellFormed(source) && !profile.NativeAlignedWords?
    ensures UnitOf(source, profile).Size() <= MAX_CODE_IMAGE_BYTES
  {
    WellFormedClosed(source);
    ImageBound(source, profile);
  }

  // ----- the limit can be reached under NativeAlignedWords -----

  /** 4095 indirect word loads and a return: the longest code a program can have. */
  function LongestProgram(): seq<Instruction> {
    seq(MAX_INSTRUCTIONS, pc requires 0 <= pc < MAX_INSTRUCTIONS =>
      if pc + 1 < MAX_INSTRUCTIONS then Instruction(LdInd(Word), 0, 0, 0) else Instruction(RetA, 0, 0, 0))
  }

  lemma {:induction false} StartExact(emit: nat -> seq<Piece>, base: nat, pc: nat, each: nat)
    requires forall q: nat {:trigger emit(q)} :: q < pc ==> Length(emit(q)) == each
    ensures OffsetOf(emit, base, pc) == base + pc * each
    decreases pc
  {
    if pc > 0 {
      StartExact(emit, base, pc - 1, each);
      assert emit(pc - 1) == emit(pc - 1);
    }
  }

  lemma LongestAccepted()
    ensures Acceptable(LongestProgram()) && Admitted(LongestProgram(), NativeAlignedWords)
  {
    var p := LongestProgram();
    assert forall pc :: 0 <= pc < |p| ==> InstructionOk(p[pc], pc, |p|) && ProfileAdmits(p[pc], NativeAlignedWords);
    assert forall pc :: 0 <= pc < |p| ==> !p[pc].op.LdMem? && !p[pc].op.LdxMem?;
  }

  /** An acceptable program whose code exceeds the limit. */
  lemma LongestIsTooLarge()
    ensures Acceptable(LongestProgram()) && Admitted(LongestProgram(), NativeAlignedWords)
    ensures UnitOf(LongestProgram(), NativeAlignedWords).Size() > MAX_CODE_IMAGE_BYTES
  {
    var p, last := LongestProgram(), MAX_INSTRUCTIONS - 1;
    var u := UnitOf(p, NativeAlignedWords);
    LongestAccepted();
    forall q: nat {:trigger u.emit(q)} | q < last ensures Length(u.emit(q)) == 67 {
      IndirectSize(0, Word, NativeAlignedWords);
    }
    StartExact(u.emit, Length(u.head), last, 67);
    assert u.Start(u.count) >= u.Start(last);
  }
}
