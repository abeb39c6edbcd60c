/**
 Fixed-width machine words as subset types of the integers, with the wrapping,
 bitwise and byte-order operations that the classic-BPF interpreter and the
 x86_64 code it is compiled to both rely on.
 */
module Words {
  import opened Remainders

  datatype Option<+T> = None | Some(value: T)

  datatype Result<+T, +E> = Ok(value: T) | Err(error: E)

  type U8 = x: int | 0 <= x < 0x100
  type U16 = x: int | 0 <= x < 0x1_0000
  type U32 = x: int | 0 <= x < 0x1_0000_0000
  type U64 = x: int | 0 <= x < 0x1_0000_0000_0000_0000

  const B32: int := 0x1_0000_0000
  const B64: int := 0x1_0000_0000_0000_0000

  function Add32(a: U32, b: U32): U32 { (a + b) % B32 }

  function Sub32(a: U32, b: U32): U32 { (a - b) % B32 }

  function Mul32(a: U32, b: U32): U32 { (a * b) % B32 }

  function Neg32(a: U32): U32 { (B32 - a) % B32 }

  function Quotient32(a: U32, d: U32): (r: U32)
    requires d != 0
  {
    QuotientBound(a, d);
    a / d
  }

  function Remainder32(a: U32, d: U32): U32
    requires d != 0
  {
    a % d
  }

  lemma {:induction false} QuotientBound(a: int, d: int)
    requires a >= 0 && d > 0
    ensures 0 <= a / d <= a
  {
    ProductAtLeast(a / d, d);
  }

  lemma {:induction false} ProductAtLeast(q: int, d: int)
    requires q >= 0 && d >= 1
    ensures q * d >= q
  {
  }

  function Pow2(n: nat): (r: nat)
    ensures r > 0
  {
    if n == 0 then 1 else 2 * Pow2(n - 1)
  }

  datatype BitKind = BitAnd | BitOr | BitXor

  function BitOf(kind: BitKind, a: nat, b: nat): nat {
    match kind
    case BitAnd => if a % 2 == 1 && b % 2 == 1 then 1 else 0
    case BitOr => if a % 2 == 1 || b % 2 == 1 then 1 else 0
    case BitXor => if a % 2 != b % 2 then 1 else 0
  }

  /** Bitwise combination of the low `n` bits of two words. */
  function Bits(kind: BitKind, a: nat, b: nat, n: nat): nat {
    if n == 0 then 0 else BitOf(kind, a, b) + 2 * Bits(kind, a / 2, b / 2, n - 1)
  }

  lemma BitsBelow(kind: BitKind, a: nat, b: nat, n: nat)
    ensures Bits(kind, a, b, n) < Pow2(n)
  {
  }

  lemma Pow2Of32()
    ensures Pow2(32) == B32
    ensures Pow2(16) == 0x1_0000
    ensures Pow2(8) == 0x100
  {
    assert Pow2(8) == 0x100;
    assert Pow2(16) == 0x1_0000;
    assert Pow2(24) == 0x100_0000;
  }

  function Bits32(kind: BitKind, a: U32, b: U32): U32 {
    Pow2Of32();
    BitsBelow(kind, a, b, 32);
    Bits(kind, a, b, 32)
  }

  function And32(a: U32, b: U32): U32 { Bits32(BitAnd, a, b) }

  function Or32(a: U32, b: U32): U32 { Bits32(BitOr, a, b) }

  function Xor32(a: U32, b: U32): U32 { Bits32(BitXor, a, b) }

  function ShiftLeft(a: U32, count: nat): U32
    decreases count
  {
    if count == 0 then a else ShiftLeft(2 * a % B32, count - 1)
  }

  function ShiftRight(a: U32, count: nat): U32 {
    if count == 0 then a else ShiftRight(a / 2, count - 1)
  }

  /** `wrapping_shl`: the count is taken modulo 32. */
  function Shl32(a: U32, count: U32): U32 { ShiftLeft(a, count % 32) }

  /** `wrapping_shr`: the count is taken modulo 32. */
  function Shr32(a: U32, count: U32): U32 { ShiftRight(a, count % 32) }

  lemma AndZero(a: nat, n: nat)
    ensures Bits(BitAnd, a, 0, n) == 0
  {
  }

  /** Masking with the low `k` bits takes the remainder by that power of two. */
  lemma {:induction false} AndMask(a: nat, k: nat, n: nat)
    requires k <= n
    ensures Bits(BitAnd, a, Pow2(k) - 1, n) == a % Pow2(k)
    decreases k
  {
    if k == 0 {
      AndZero(a, n);
    } else {
      var half := Pow2(k - 1);
      AndMask(a / 2, k - 1, n - 1);
      HalfRemainder(a, half);
      assert (2 * half - 1) / 2 == half - 1 && (2 * half - 1) % 2 == 1;
    }
  }

  lemma HalfRemainder(a: nat, d: nat)
    requires d > 0
    ensures a % (2 * d) == a % 2 + 2 * (a / 2 % d)
  {
    var q, r := a / 2 / d, a / 2 % d;
    DivMod(a / 2, d);
    assert a == (a % 2 + 2 * r) + q * (2 * d);
    ModUnique(a, q, a % 2 + 2 * r, 2 * d);
  }

  /** Masking with three takes the remainder modulo four, at any width of at least two bits. */
  lemma AndThree(a: nat, n: nat)
    requires n >= 2
    ensures Bits(BitAnd, a, 3, n) == a % 4
  {
    assert Pow2(2) == 4;
    AndMask(a, 2, n);
  }

  /** A word xored with itself is zero: the idiom that clears a register. */
  lemma XorSelf(a: nat, n: nat)
    ensures Bits(BitXor, a, a, n) == 0
  {
  }

  /** A word tested against itself is zero exactly when it is zero. */
  lemma AndSelf(a: nat, n: nat)
    requires a < Pow2(n)
    ensures Bits(BitAnd, a, a, n) == a
  {
  }

  lemma AndSelf32(a: U32)
    ensures Bits(BitAnd, a, a, 32) == a
  {
    Pow2Of32();
    AndSelf(a, 32);
  }

  function Little16(b0: U8, b1: U8): U16 { b0 + 0x100 * b1 }

  function Big16(b0: U8, b1: U8): U16 { 0x100 * b0 + b1 }

  function Little32(b0: U8, b1: U8, b2: U8, b3: U8): U32 {
    b0 + 0x100 * b1 + 0x1_0000 * b2 + 0x100_0000 * b3
  }

  function Big32(b0: U8, b1: U8, b2: U8, b3: U8): U32 {
    0x100_0000 * b0 + 0x1_0000 * b1 + 0x100 * b2 + b3
  }

  /** `bswap`: the four bytes of a word in reverse order. */
  function Swap32(v: U32): U32 {
    Big32(v % 0x100, v / 0x100 % 0x100, v / 0x1_0000 % 0x100, v / 0x100_0000)
  }

  /** `rol ax, 8`: the two bytes of a halfword exchanged. */
  function Swap16(v: U16): U16 { (v % 0x100) * 0x100 + v / 0x100 }

  lemma SwapLittle32(b0: U8, b1: U8, b2: U8, b3: U8)
    ensures Swap32(Little32(b0, b1, b2, b3)) == Big32(b0, b1, b2, b3)
  {
    var v := Little32(b0, b1, b2, b3);
    var y := b2 + 0x100 * b3;
    var x := b1 + 0x100 * y;
    Peel(b0, x);
    Peel(b1, y);
    Peel(b2, b3);
    assert v == b0 + 0x100 * x;
    DivTwice(v);
  }

  lemma Peel(b: U8, x: nat)
    ensures (b + 0x100 * x) / 0x100 == x && (b + 0x100 * x) % 0x100 == b
  {
  }

  lemma DivTwice(v: nat)
    ensures v / 0x1_0000 == v / 0x100 / 0x100 && v / 0x100_0000 == v / 0x1_0000 / 0x100
  {
  }

  lemma SwapLittle16(b0: U8, b1: U8)
    ensures Swap16(Little16(b0, b1)) == Big16(b0, b1)
  {
    assert Little16(b0, b1) / 0x100 == b1;
  }
}
