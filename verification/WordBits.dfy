/** Machine words as sets of bits: the masks of qemu/block.c:652-660, for words of 32 and of 64 bits. */
module WordBits {

  const BITS: nat := 32

  function Mask(bit: nat): bv32 { if bit == 0 then 1 else Mask(bit - 1) << 1 }

  function Or32(v: bv32, m: bv32): bv32 { v | m }
  function AndNot32(v: bv32, m: bv32): bv32 { v & !m }
  function And32(v: bv32, m: bv32): bv32 { v & m }
  predicate Test32(v: bv32, m: bv32) { And32(v, m) != 0 }

  lemma ShiftedApart(a: bv32, b: bv32)
    ensures a & b == 0 ==> (a << 1) & (b << 1) == 0
    ensures 1 & (b << 1) == 0
  {}

  lemma {:induction false} MasksApart(i: nat, j: nat)
    requires i < j
    ensures Mask(i) & Mask(j) == 0
  {
    if i == 0 {
      ShiftedApart(1, Mask(j - 1));
    } else {
      MasksApart(i - 1, j - 1);
      ShiftedApart(Mask(i - 1), Mask(j - 1));
    }
  }

  lemma TopMask()
    ensures Mask(31) == 0x8000_0000
  {
    assert Mask(8) == 0x100;
    assert Mask(16) == 0x1_0000;
    assert Mask(24) == 0x100_0000;
  }

  lemma ZeroShift(a: bv32)
    ensures a == 0 ==> a << 1 == 0
  {}

  lemma {:induction false} MaskNotZero(i: nat)
    requires i < BITS
    ensures Mask(i) != 0
    decreases BITS - i
  {
    if i == 31 {
      TopMask();
    } else {
      MaskNotZero(i + 1);
      ZeroShift(Mask(i));
    }
  }

  lemma OrTerms(v: bv32, a: bv32, b: bv32)
    ensures (v | a) & b == (v & b) | (a & b)
  {}

  lemma OrZero(x: bv32, y: bv32)
    ensures x | y != 0 <==> x != 0 || y != 0
  {}

  lemma AndNotTerms(v: bv32, a: bv32, b: bv32)
    ensures a & b == 0 ==> (v & !a) & b == v & b
    ensures (v & !a) & a == 0
  {}

  lemma TestOr(v: bv32, a: bv32, b: bv32)
    ensures Test32(Or32(v, a), b) <==> (v | a) & b != 0
  {}

  lemma TestAndNot(v: bv32, a: bv32, b: bv32)
    ensures Test32(AndNot32(v, a), b) <==> (v & !a) & b != 0
  {}

  lemma TestIs(v: bv32, b: bv32)
    ensures Test32(v, b) <==> v & b != 0
  {}

  lemma BitLaws(v: bv32, a: bv32, b: bv32)
    ensures Test32(Or32(v, a), b) <==> Test32(a, b) || Test32(v, b)
    ensures !Test32(AndNot32(v, a), a)
    ensures !Test32(a, b) ==> (Test32(AndNot32(v, a), b) <==> Test32(v, b))
  {
    hide And32, Or32, AndNot32, Test32;
    TestOr(v, a, b);
    TestAndNot(v, a, b);
    TestAndNot(v, a, a);
    TestIs(v, b);
    TestIs(a, b);
    OrTerms(v, a, b);
    OrZero(v & b, a & b);
    AndNotTerms(v, a, b);
  }

  lemma MaskTest(i: nat, j: nat)
    requires i < BITS && j < BITS
    ensures Test32(Mask(i), Mask(j)) <==> i == j
  {
    if i < j {
      MasksApart(i, j);
    } else if j < i {
      MasksApart(j, i);
      AndComm(Mask(i), Mask(j));
    } else {
      MaskNotZero(i);
      AndSame(Mask(i));
    }
  }

  lemma AndComm(a: bv32, b: bv32)
    ensures a & b == b & a
  {}

  lemma AndSame(a: bv32)
    ensures a & a == a
  {}

  // What the code shifts is the int 1, which a 64-bit word extends with its sign.

  function Mask64(bit: nat): bv64 { if bit == 0 then 1 else Mask64(bit - 1) << 1 }

  /** `1 << bit` for a bit of an int, as a 64-bit unsigned long. */
  function IntMask(bit: nat): bv64
    requires bit < 32
  {
    if bit == 31 then 0xFFFF_FFFF_8000_0000 else Mask64(bit)
  }

  lemma Shifted64(a: bv64, b: bv64)
    ensures a & b == 0 ==> (a << 1) & (b << 1) == 0
    ensures 1 & (b << 1) == 0
    ensures a == 0 ==> a << 1 == 0
    ensures a & b == b & a && a & a == a
  {}

  lemma {:induction false} Masks64Apart(i: nat, j: nat)
    requires i < j
    ensures Mask64(i) & Mask64(j) == 0
  {
    if i == 0 {
      Shifted64(1, Mask64(j - 1));
    } else {
      Masks64Apart(i - 1, j - 1);
      Shifted64(Mask64(i - 1), Mask64(j - 1));
    }
  }

  lemma Top64()
    ensures Mask64(32) == 0x1_0000_0000
  {
    assert Mask64(8) == 0x100;
    assert Mask64(16) == 0x1_0000;
    assert Mask64(24) == 0x100_0000;
  }

  lemma {:induction false} Mask64NotZero(i: nat)
    requires i <= 32
    ensures Mask64(i) != 0
    decreases 32 - i
  {
    if i == 32 {
      Top64();
    } else {
      Mask64NotZero(i + 1);
      Shifted64(Mask64(i), 0);
    }
  }

  function And64(v: bv64, m: bv64): bv64 { v & m }
  function Or64(v: bv64, m: bv64): bv64 { v | m }
  function AndNot64(v: bv64, m: bv64): bv64 { v & !m }
  predicate Test64(v: bv64, m: bv64) { And64(v, m) != 0 }

  ghost predicate OnlyBit(i: nat, j: nat)
    requires i < 32
  {
    Test64(IntMask(i), Mask64(j)) <==> i == j
  }

  lemma MaskTest64(i: nat, j: nat)
    requires i <= 32
    ensures Test64(Mask64(i), Mask64(j)) <==> i == j
  {
    hide Mask64, Test64;
    if i < j {
      Masks64Apart(i, j);
      TestApart64(Mask64(i), Mask64(j));
    } else if j < i {
      Masks64Apart(j, i);
      TestApart64(Mask64(j), Mask64(i));
    } else {
      Mask64NotZero(i);
      TestSame64(Mask64(i));
    }
  }

  lemma TestApart64(a: bv64, b: bv64)
    requires a & b == 0
    ensures !Test64(a, b) && !Test64(b, a)
  {}

  lemma TestSame64(a: bv64)
    requires a != 0
    ensures Test64(a, a)
  {}

  /** With 64-bit words the shifted int is the mask of its bit, and of no other, just below bit 31. */
  lemma WideWords(i: nat)
    requires i < 32
    ensures (forall j: nat :: j < 64 ==> OnlyBit(i, j)) <==> i < 31
  {
    hide Mask64, Test64, IntMask;
    if i == 31 {
      SignTest();
      assert !OnlyBit(31, 32);
    } else {
      MaskOfInt(i);
      forall j: nat | j < 64
        ensures OnlyBit(i, j)
      {
        MaskTest64(i, j);
      }
    }
  }

  /** With the shifted int, setting and clearing bit i of a 64-bit word do what they should to bit j. */
  ghost predicate SetsOnly(v: bv64, i: nat, j: nat)
    requires i < 32
  {
    && (Test64(Or64(v, IntMask(i)), Mask64(j)) <==> i == j || Test64(v, Mask64(j)))
    && (Test64(AndNot64(v, IntMask(i)), Mask64(j)) <==> i != j && Test64(v, Mask64(j)))
  }

  lemma OrTerms64(v: bv64, a: bv64, b: bv64)
    ensures (v | a) & b == (v & b) | (a & b)
  {}

  lemma OrZero64(x: bv64, y: bv64)
    ensures x | y != 0 <==> x != 0 || y != 0
  {}

  lemma AndNotTerms64(v: bv64, a: bv64, b: bv64)
    ensures a & b == 0 ==> (v & !a) & b == v & b
    ensures (v & !a) & a == 0
  {}

  lemma TestOr64(v: bv64, a: bv64, b: bv64)
    ensures Test64(Or64(v, a), b) <==> (v | a) & b != 0
  {}

  lemma TestAndNot64(v: bv64, a: bv64, b: bv64)
    ensures Test64(AndNot64(v, a), b) <==> (v & !a) & b != 0
  {}

  lemma TestIs64(v: bv64, b: bv64)
    ensures Test64(v, b) <==> v & b != 0
  {}

  lemma BitLaws64(v: bv64, a: bv64, b: bv64)
    ensures Test64(Or64(v, a), b) <==> Test64(a, b) || Test64(v, b)
    ensures !Test64(AndNot64(v, a), a)
    ensures !Test64(a, b) ==> (Test64(AndNot64(v, a), b) <==> Test64(v, b))
  {
    hide And64, Or64, AndNot64, Test64;
    TestOr64(v, a, b);
    TestAndNot64(v, a, b);
    TestAndNot64(v, a, a);
    TestIs64(v, b);
    TestIs64(a, b);
    OrTerms64(v, a, b);
    OrZero64(v & b, a & b);
    AndNotTerms64(v, a, b);
  }

  lemma ZeroTest64(b: bv64)
    ensures !Test64(0, b)
  {}

  lemma MaskOfInt(i: nat)
    requires i < 31
    ensures IntMask(i) == Mask64(i)
  {}

  lemma BitsOfWord(v: bv64, i: nat, j: nat)
    requires i < 31 && OnlyBit(i, j)
    ensures SetsOnly(v, i, j)
  {
    hide Mask64, IntMask, Test64, Or64, AndNot64;
    MaskOfInt(i);
    BitLaws64(v, IntMask(i), Mask64(j));
  }

  /** For 64-bit words used as sets of bits below n, the shifted int is right exactly up to n = 31. */
  lemma WideWordsAsSets(n: nat)
    ensures (forall v: bv64, i: nat, j: nat :: i < n && i < 32 && j < 64 ==> SetsOnly(v, i, j)) <==> n <= 31
  {
    hide Mask64, Test64, OnlyBit, Or64, AndNot64;
    if n <= 31 {
      forall v: bv64, i: nat, j: nat | i < n && i < 32 && j < 64
        ensures SetsOnly(v, i, j)
      {
        WideWords(i);
        BitsOfWord(v, i, j);
      }
    } else {
      SignTest();
      BitLaws64(0, IntMask(31), Mask64(32));
      ZeroTest64(Mask64(32));
      assert !SetsOnly(0, 31, 32);
    }
  }

  lemma SignTest()
    ensures Test64(IntMask(31), Mask64(32))
  {
    Top64();
    SignBits();
    TestIs64(IntMask(31), Mask64(32));
  }

  lemma SignBits()
    ensures (0xFFFF_FFFF_8000_0000 as bv64) & 0x1_0000_0000 != 0
  {}
}
