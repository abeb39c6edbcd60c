/**
 The sixteen-bit masks of the scratch passes, read as the sets of their bits:
 setting a bit adds a word, the bitwise and intersects, a bit test is membership.
 */
module Masks {
  import opened Words

  predicate HasBit(m: nat, k: nat) {
    if k == 0 then m % 2 == 1 else HasBit(m / 2, k - 1)
  }

  function SetOf(m: U16): set<nat> { set k: nat | k < 16 && HasBit(m, k) }

  function Bits16(kind: BitKind, a: U16, b: U16): U16 {
    Pow2Of32();
    BitsBelow(kind, a, b, 16);
    Bits(kind, a, b, 16)
  }

  function And16(a: U16, b: U16): U16 { Bits16(BitAnd, a, b) }

  function Or16(a: U16, b: U16): U16 { Bits16(BitOr, a, b) }

  /** `1 << k`. */
  function Bit16(k: nat): U16
    requires k < 16
  {
    assert Pow2(15) == 0x8000;
    Pow2Grows(k, 15);
    Pow2(k)
  }

  lemma {:induction false} Pow2Grows(k: nat, n: nat)
    requires k <= n
    ensures Pow2(k) <= Pow2(n)
  {
    if k < n {
      Pow2Grows(k, n - 1);
    }
  }

  predicate BitLaw(kind: BitKind, a: bool, b: bool) {
    match kind
    case BitAnd => a && b
    case BitOr => a || b
    case BitXor => a != b
  }

  lemma {:induction false} BitOfBits(kind: BitKind, a: nat, b: nat, n: nat, k: nat)
    requires k < n
    ensures HasBit(Bits(kind, a, b, n), k) <==> BitLaw(kind, HasBit(a, k), HasBit(b, k))
  {
    if k > 0 {
      BitOfBits(kind, a / 2, b / 2, n - 1, k - 1);
    }
  }

  lemma {:induction false} BitOfPow2(j: nat, k: nat)
    ensures HasBit(Pow2(j), k) <==> j == k
  {
    if j > 0 && k > 0 {
      BitOfPow2(j - 1, k - 1);
    } else if j == 0 && k > 0 {
      NoBits(k - 1);
    }
  }

  lemma {:induction false} NoBits(k: nat)
    ensures !HasBit(0, k)
  {
    if k > 0 {
      NoBits(k - 1);
    }
  }

  lemma {:induction false} SomeBit(m: nat, n: nat) returns (k: nat)
    requires 0 < m < Pow2(n)
    ensures k < n && HasBit(m, k)
  {
    if m % 2 == 1 {
      k := 0;
    } else {
      var j := SomeBit(m / 2, n - 1);
      k := j + 1;
    }
  }

  lemma EmptyMask()
    ensures SetOf(0) == {}
  {
    forall k: nat | k < 16
      ensures !HasBit(0, k)
    {
      NoBits(k);
    }
  }

  lemma AndIntersects(a: U16, b: U16)
    ensures SetOf(And16(a, b)) == SetOf(a) * SetOf(b)
  {
    forall k: nat | k < 16
      ensures k in SetOf(And16(a, b)) <==> k in SetOf(a) * SetOf(b)
    {
      BitOfBits(BitAnd, a, b, 16, k);
    }
  }

  lemma OrAdds(m: U16, j: nat)
    requires j < 16
    ensures SetOf(Or16(m, Bit16(j))) == SetOf(m) + {j}
  {
    forall k: nat | k < 16
      ensures k in SetOf(Or16(m, Bit16(j))) <==> k in SetOf(m) + {j}
    {
      BitOfBits(BitOr, m, Bit16(j), 16, k);
      BitOfPow2(j, k);
    }
  }

  lemma TestIsMember(m: U16, j: nat)
    requires j < 16
    ensures And16(m, Bit16(j)) == 0 <==> j !in SetOf(m)
  {
    BitOfBits(BitAnd, m, Bit16(j), 16, j);
    BitOfPow2(j, j);
    if And16(m, Bit16(j)) == 0 {
      NoBits(j);
    } else {
      Pow2Of32();
      var k := SomeBit(And16(m, Bit16(j)), 16);
      BitOfBits(BitAnd, m, Bit16(j), 16, k);
      BitOfPow2(j, k);
    }
  }
}
