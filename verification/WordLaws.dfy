/**
 What the word operations compute, said without them: shifts as products and
 quotients by powers of two, bitwise operations bit by bit, the arithmetic of the
 interpreter as integer arithmetic, and the ancillary tables as the Linux offsets
 and the record in declaration order.
 */
module WordLaws {
  import opened Words
  import opened Remainders
  import opened Masks
  import opened Bpf
  import opened Native
  import opened Lowering
  import opened Frame

  // ----- shifts -----

  lemma ModProduct(x: nat, y: nat, period: nat)
    requires period > 0
    ensures (x % period) * y % period == x * y % period
  {
    var q, r := x / period, x % period;
    DivMod(x, period);
    assert x * y == r * y + (q * y) * period;
    ModPeriods(r * y, q * y, period);
  }

  lemma {:induction false} ShiftLeftMeans(a: U32, count: nat)
    ensures ShiftLeft(a, count) == a * Pow2(count) % B32
    decreases count
  {
    if count == 0 {
      SmallMod(a, B32);
    } else {
      ShiftLeftMeans(2 * a % B32, count - 1);
      ModProduct(2 * a, Pow2(count - 1), B32);
      assert 2 * a * Pow2(count - 1) == a * Pow2(count);
    }
  }

  lemma HalfFirst(a: nat, d: nat)
    requires d > 0
    ensures a / 2 / d == a / (2 * d)
  {
    var h, q, r := a / 2, a / 2 / d, a / 2 % d;
    DivMod(h, d);
    assert a == (2 * r + a % 2) + q * (2 * d);
    DivUnique(a, q, 2 * r + a % 2, 2 * d);
  }

  lemma {:induction false} ShiftRightMeans(a: U32, count: nat)
    ensures ShiftRight(a, count) == a / Pow2(count)
    decreases count
  {
    if count > 0 {
      ShiftRightMeans(a / 2, count - 1);
      HalfFirst(a, Pow2(count - 1));
    }
  }

  /** A shift takes its count modulo 32 and multiplies or divides by that power of two. */
  lemma ShiftsMean(a: U32, count: U32)
    ensures Shl32(a, count) == a * Pow2(count % 32) % B32
    ensures Shr32(a, count) == a / Pow2(count % 32)
  {
    ShiftLeftMeans(a, count % 32);
    ShiftRightMeans(a, count % 32);
  }

  // ----- bits -----

  /** A bit is a binary digit. */
  lemma {:induction false} BitIsDigit(a: nat, k: nat)
    ensures HasBit(a, k) <==> a / Pow2(k) % 2 == 1
  {
    if k > 0 {
      BitIsDigit(a / 2, k - 1);
      HalfFirst(a, Pow2(k - 1));
    }
  }

  // ----- the arithmetic instructions -----

  /** `r` is the 32-bit result of an operation on `a` and `b`, in integer arithmetic. */
  ghost predicate Means(kind: AluKind, a: U32, b: U32, r: U32) {
    match kind
    case Add => a + b == r || a + b == r + B32
    case Sub => r + b == a || r + b == a + B32
    case Mul => r == a * b % B32
    case Div => r * b <= a < (r + 1) * b
    case Mod => exists q: nat :: a == q * b + r && r < b
    case Or => forall k: nat :: k < 32 ==> (HasBit(r, k) <==> HasBit(a, k) || HasBit(b, k))
    case And => forall k: nat :: k < 32 ==> (HasBit(r, k) <==> HasBit(a, k) && HasBit(b, k))
    case Xor => forall k: nat :: k < 32 ==> (HasBit(r, k) <==> HasBit(a, k) != HasBit(b, k))
    case Lsh => r == a * Pow2(b) % B32
    case Rsh => r == a / Pow2(b)
  }

  lemma BitwiseMeans(kind: AluKind, a: U32, b: U32)
    requires kind in {Or, And, Xor}
    ensures Means(kind, a, b, AluResult(kind, a, b))
  {
    var bit := if kind.Or? then BitOr else if kind.And? then BitAnd else BitXor;
    forall k: nat | k < 32
      ensures HasBit(Bits(bit, a, b, 32), k) <==> BitLaw(bit, HasBit(a, k), HasBit(b, k))
    {
      BitOfBits(bit, a, b, 32, k);
    }
  }

  lemma DivisionMeans(a: U32, b: U32)
    requires b != 0
    ensures Means(Div, a, b, Quotient32(a, b)) && Means(Mod, a, b, Remainder32(a, b))
  {
    DivMod(a, b);
    Distribute(a / b, 1, b);
  }

  lemma ResultMeans(kind: AluKind, a: U32, b: U32)
    requires (kind in {Div, Mod} ==> b != 0) && (kind in {Lsh, Rsh} ==> b < 32)
    ensures Means(kind, a, b, AluResult(kind, a, b))
  {
    if kind in {Or, And, Xor} {
      BitwiseMeans(kind, a, b);
    } else if kind in {Div, Mod} {
      DivisionMeans(a, b);
    } else if kind in {Lsh, Rsh} {
      ShiftsMean(a, b);
    }
  }

  /** The operand of an arithmetic instruction; a shift by the index uses its low five bits. */
  function OperandOf(i: Instruction, vm: Vm): U32
    requires i.op.Alu?
  {
    if i.op.src.FromK? then i.k else if i.op.alu in {Lsh, Rsh} then vm.x % 32 else vm.x
  }

  /** Every arithmetic instruction does integer arithmetic, or returns zero for a zero divisor. */
  lemma AluMeans(i: Instruction, pc: nat, vm: Vm, input: Input)
    requires Executable(i) && ValidVm(vm) && i.op.Alu?
    ensures var b, o := OperandOf(i, vm), Step(i, pc, vm, input);
            if i.op.alu in {Div, Mod} && b == 0 then o == Done(0)
            else o.Next? && o == Next(pc + 1, vm.(a := o.vm.a)) && Means(i.op.alu, vm.a, b, o.vm.a)
  {
    var b := OperandOf(i, vm);
    assert Pow2(5) == 32;
    AndMask(vm.x, 5, 32);
    if !(i.op.alu in {Div, Mod} && b == 0) {
      ResultMeans(i.op.alu, vm.a, b);
    }
  }

  /** Negation gives the other summand of 2^32. */
  lemma NegMeans(i: Instruction, pc: nat, vm: Vm, input: Input)
    requires Executable(i) && ValidVm(vm) && i.op.Neg?
    ensures var o := Step(i, pc, vm, input);
            o.Next? && o == Next(pc + 1, vm.(a := o.vm.a)) && Add32(vm.a, o.vm.a) == 0
            && (vm.a + o.vm.a == B32 || (vm.a == 0 && o.vm.a == 0))
  {
  }

  lemma NibbleMeans(v: U8)
    ensures Shl32(And32(v, 0x0f), 2) == 4 * (v % 16)
  {
    assert Pow2(4) == 16;
    AndMask(v, 4, 32);
    ShiftsMean(v % 16, 2);
    assert Pow2(2) == 4;
    SmallMod(v % 16 * 4, B32);
  }

  /** The header load: four times the low nibble of the byte, or zero returned outside the input. */
  lemma HeaderMeans(i: Instruction, pc: nat, vm: Vm, input: Input)
    requires Executable(i) && ValidVm(vm) && i.op.LdxMsh?
    ensures Step(i, pc, vm, input) ==
            if i.k < |input.data| then Next(pc + 1, vm.(x := 4 * (input.data[i.k] % 16))) else Done(0)
  {
    if i.k < |input.data| {
      NibbleMeans(input.data[i.k]);
    }
  }

  // ----- input loads -----

  /** The value of bytes, most significant first. */
  function BigValue(bytes: seq<U8>): nat {
    if bytes == [] then 0 else BigValue(bytes[..|bytes| - 1]) * 0x100 + bytes[|bytes| - 1]
  }

  /** The value of bytes, least significant first. */
  function LittleValue(bytes: seq<U8>): nat {
    if bytes == [] then 0 else bytes[0] + 0x100 * LittleValue(bytes[1..])
  }

  lemma OneByte(bytes: seq<U8>)
    requires |bytes| == 1
    ensures BigValue(bytes) == bytes[0] && LittleValue(bytes) == bytes[0]
  {
    assert BigValue(bytes[..0]) == 0 && LittleValue(bytes[1..]) == 0;
  }

  lemma TwoBytes(bytes: seq<U8>)
    requires |bytes| == 2
    ensures BigValue(bytes) == Big16(bytes[0], bytes[1]) && LittleValue(bytes) == Little16(bytes[0], bytes[1])
  {
    OneByte(bytes[..1]);
    OneByte(bytes[1..]);
  }

  lemma FourBytes(bytes: seq<U8>)
    requires |bytes| == 4
    ensures BigValue(bytes) == Big32(bytes[0], bytes[1], bytes[2], bytes[3])
    ensures LittleValue(bytes) == Little32(bytes[0], bytes[1], bytes[2], bytes[3])
  {
    TwoBytes(bytes[..2]);
    TwoBytes(bytes[2..]);
    assert bytes[..3][..2] == bytes[..2] && bytes[1..][1..] == bytes[2..];
    assert BigValue(bytes[..3]) == BigValue(bytes[..2]) * 0x100 + bytes[2];
    assert LittleValue(bytes[1..]) == bytes[1] + 0x100 * LittleValue(bytes[2..]);
  }

  /** A load reads its bytes in the byte order of its input, or fails outside it and for an unaligned native word. */
  lemma LoadMeans(input: Input, offset: U32, width: LoadWidth)
    ensures input.Load(offset, width) ==
            if offset + width.Bytes() > |input.data|
               || (input.NativeWordInput? && width == Word && offset % 4 != 0) then None
            else
              var bytes := input.data[offset..offset + width.Bytes()];
              Some(if input.NativeWordInput? then LittleValue(bytes) else BigValue(bytes))
  {
    if offset + width.Bytes() <= |input.data| {
      var bytes := input.data[offset..offset + width.Bytes()];
      match width
      case Byte => OneByte(bytes);
      case Half => TwoBytes(bytes);
      case Word => FourBytes(bytes);
    }
  }

  // ----- conditional jumps -----

  /** A conditional jump goes to its true target exactly when its comparison holds, a bit test when a bit is shared. */
  lemma JumpMeans(i: Instruction, pc: nat, vm: Vm, input: Input)
    requires Executable(i) && ValidVm(vm) && i.op.Jump?
    ensures var b := if i.op.src.FromK? then i.k else vm.x;
            Step(i, pc, vm, input) == Next(pc + 1 + (if Compared(i.op.jump, vm.a, b) then i.jt else i.jf), vm)
  {
    var b := if i.op.src.FromK? then i.k else vm.x;
    SharedBit(vm.a, b);
  }

  ghost predicate Compared(kind: JumpKind, a: U32, b: U32) {
    match kind
    case Jeq => a == b
    case Jgt => b < a
    case Jge => b <= a
    case Jset => exists k: nat :: k < 32 && HasBit(a, k) && HasBit(b, k)
  }

  lemma SharedBit(a: U32, b: U32)
    ensures And32(a, b) != 0 <==> Compared(Jset, a, b)
  {
    if And32(a, b) != 0 {
      Pow2Of32();
      var k := SomeBit(And32(a, b), 32);
      BitOfBits(BitAnd, a, b, 32, k);
    }
    if Compared(Jset, a, b) {
      var k: nat :| k < 32 && HasBit(a, k) && HasBit(b, k);
      BitOfBits(BitAnd, a, b, 32, k);
      if And32(a, b) == 0 {
        NoBits(k);
      }
    }
  }

  /** The sign-bit test of the acceptors. */
  lemma SignBitMeans(k: U32)
    ensures And32(k, 0x8000_0000) != 0 <==> k >= 0x8000_0000
  {
    Pow2Of32();
    assert Pow2(32) == 2 * Pow2(31);
    SharedBit(k, 0x8000_0000);
    BitIsDigit(k, 31);
    BitOfPow2(31, 31);
    if Compared(Jset, k, 0x8000_0000) {
      var j: nat :| j < 32 && HasBit(k, j) && HasBit(0x8000_0000, j);
      BitOfPow2(31, j);
    }
  }

  // ----- ancillary metadata -----

  /** A field's offset within the Linux ancillary window. */
  function Offset(field: Ancillary): U32 {
    match field
    case Protocol => 0
    case Pkttype => 4
    case Ifindex => 8
    case Mark => 20
    case Queue => 24
    case VlanTag => 44
    case VlanTagPresent => 48
    case VlanTpid => 60
  }

  /** An encoded offset names a field exactly when it is the start of the window plus the field's own offset. */
  lemma AncillaryEncoded(k: U32, field: Ancillary)
    ensures AncillaryFromOffset(k) == Some(field) <==> k == Add32(SKF_AD_OFF, Offset(field))
    ensures AncillaryFromOffset(k).Some? ==> IsAncillaryOffset(k)
  {
  }

  /** The metadata record in declaration order. */
  function Packed(m: Metadata): seq<U32> {
    [m.protocol, m.ifindex, m.pkttype, m.mark, m.queue, m.vlanTag, m.vlanTagPresent, m.vlanTpid]
  }

  /** Every field lies at its place of the record. */
  lemma MetadataPlaces(field: Ancillary, m: Metadata)
    ensures MetadataOffset(field) % 4 == 0 && MetadataOffset(field) < 32
    ensures Packed(m)[MetadataOffset(field) / 4] == ReadField(field, m)
  {
  }

  /** The eight places are those of the eight fields. */
  function FieldAt(i: nat): Ancillary
    requires i < 8
  {
    [Protocol, Ifindex, Pkttype, Mark, Queue, VlanTag, VlanTagPresent, VlanTpid][i]
  }

  /** The context record in memory: pointer, length, a reserved word and the metadata words in declaration order. */
  lemma ContextPlaces(mem: Memory, a: int, size: int, m: Metadata, i: nat)
    requires HoldsContext(mem, a, size, m) && i < 8
    ensures Mapped(mem, a + 8, 4) && Read(mem, a + 8, 4) == size
    ensures Mapped(mem, a + 16 + 4 * i, 4) && Read(mem, a + 16 + 4 * i, 4) == Packed(m)[i]
  {
    MetadataPlaces(FieldAt(i), m);
    assert MetadataOffset(FieldAt(i)) == 4 * i;
  }

  /** An ancillary load gives the field whose Linux offset it encodes, from any input that has metadata, else zero. */
  lemma AncillaryMeans(i: Instruction, pc: nat, vm: Vm, input: Input, field: Ancillary)
    requires Executable(i) && ValidVm(vm) && i.op.LdAbs? && i.k == SKF_AD_OFF + Offset(field)
    ensures Step(i, pc, vm, input) ==
            Next(pc + 1, vm.(a := if input.PacketInput? then Packed(input.metadata)[MetadataOffset(field) / 4] else 0))
  {
    AncillaryEncoded(i.k, field);
    if input.PacketInput? {
      MetadataPlaces(field, input.metadata);
    }
  }
}
