/** Bitwise operations on unsigned numbers, and the bit count of qemu/cris-dis.c:1364-1375. */
module Bits {

  function And(a: nat, b: nat): (r: nat)
    ensures r <= a && r <= b
    decreases a
  {
    if a == 0 || b == 0 then 0 else (if a % 2 == 1 && b % 2 == 1 then 1 else 0) + 2 * And(a / 2, b / 2)
  }

  function Or(a: nat, b: nat): nat
    decreases a + b
  {
    if a == 0 && b == 0 then 0 else (if a % 2 + b % 2 > 0 then 1 else 0) + 2 * Or(a / 2, b / 2)
  }

  /** The number of one bits. */
  function Ones(v: nat): nat { if v == 0 then 0 else v % 2 + Ones(v / 2) }

  lemma {:induction false} AndSame(v: nat)
    ensures And(v, v) == v
  {
    if v > 0 {
      AndSame(v / 2);
    }
  }

  lemma AndDigits(a: nat, b: nat, x: nat, y: nat)
    requires x < 2 && y < 2
    ensures And(2 * a + x, 2 * b + y) == (if x == 1 && y == 1 then 1 else 0) + 2 * And(a, b)
  {
    assert (2 * a + x) / 2 == a && (2 * b + y) / 2 == b;
  }

  lemma AndBelow(v: nat)
    requires v > 0
    ensures v % 2 == 1 ==> And(v, v - 1) == 2 * (v / 2)
    ensures v % 2 == 0 ==> And(v, v - 1) == 2 * And(v / 2, v / 2 - 1)
  {
    hide And;
    var h := v / 2;
    if v % 2 == 1 {
      AndSame(h);
      AndDigits(h, h, 1, 0);
    } else {
      AndDigits(h, h - 1, 0, 1);
    }
  }

  /** v & (v - 1) has one bit less. */
  lemma {:induction false} DropBit(v: nat)
    requires v > 0
    ensures Ones(And(v, v - 1)) == Ones(v) - 1
  {
    hide And;
    AndBelow(v);
    if v % 2 == 1 {
      Doubled(v / 2);
    } else {
      DropBit(v / 2);
      Doubled(And(v / 2, v / 2 - 1));
    }
  }

  lemma Doubled(v: nat)
    ensures Ones(2 * v) == Ones(v)
  {
    assert 2 * v / 2 == v;
  }

  /** number_of_bits. */
  method NumberOfBits(v: nat) returns (bits: nat)
    ensures bits == Ones(v)
  {
    var val := v;
    bits := 0;
    while val != 0
      invariant bits + Ones(val) == Ones(v)
    {
      DropBit(val);
      val := And(val, val - 1);
      bits := bits + 1;
    }
  }
}
