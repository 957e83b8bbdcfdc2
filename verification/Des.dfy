/**
 * DES (qemu/d3des.c): the key schedule, the block function over two words, and the law that
 * the decryption schedule undoes the encryption schedule for arbitrary SP tables.
 */
module Des {
  import opened Feistel

  // The permutations at either end (d3des.c:331-349 and 373-390), exchange by exchange.

  /** Exchanges bits of a, n places up, with the bits of b under a mask. */
  function Swap4(a: bv32, b: bv32): Halves<bv32> { var work := ((a >> 4) ^ b) & 0x0f0f0f0f;
      Halves(a ^ (work << 4), b ^ work) }
  function Swap16(a: bv32, b: bv32): Halves<bv32> { var work := ((a >> 16) ^ b) & 0x0000ffff;
      Halves(a ^ (work << 16), b ^ work) }
  function Swap2(a: bv32, b: bv32): Halves<bv32> { var work := ((a >> 2) ^ b) & 0x33333333;
      Halves(a ^ (work << 2), b ^ work) }
  function Swap8(a: bv32, b: bv32): Halves<bv32> { var work := ((a >> 8) ^ b) & 0x00ff00ff;
      Halves(a ^ (work << 8), b ^ work) }
  function SwapOdd(a: bv32, b: bv32): Halves<bv32> { var work := (a ^ b) & 0xaaaaaaaa; Halves(a ^ work, b ^ work) }

  function RotateLeft(a: bv32): bv32 { ((a << 1) | ((a >> 31) & 1)) & 0xffffffff }
  function RotateRight(a: bv32): bv32 { (a << 31) | (a >> 1) }

  lemma Swap4Twice(a: bv32, b: bv32)
    ensures var s := Swap4(a, b); Swap4(s.left, s.right) == Halves(a, b)
  {}

  lemma Swap16Twice(a: bv32, b: bv32)
    ensures var s := Swap16(a, b); Swap16(s.left, s.right) == Halves(a, b)
  {}

  lemma Swap2Twice(a: bv32, b: bv32)
    ensures var s := Swap2(a, b); Swap2(s.left, s.right) == Halves(a, b)
  {}

  lemma Swap8Twice(a: bv32, b: bv32)
    ensures var s := Swap8(a, b); Swap8(s.left, s.right) == Halves(a, b)
  {}

  lemma SwapOddTwice(a: bv32, b: bv32)
    ensures var s := SwapOdd(a, b); SwapOdd(s.left, s.right) == Halves(a, b)
    ensures SwapOdd(a, b) == SwapOdd(b, a).Swap()
  {}

  lemma RotateBack(a: bv32)
    ensures RotateRight(RotateLeft(a)) == a && RotateLeft(RotateRight(a)) == a
  {}

  function InitialPermutation(b: Halves<bv32>): Halves<bv32> {
    var s1 := Swap4(b.left, b.right);
    var s2 := Swap16(s1.left, s1.right);
    var s3 := Swap2(s2.right, s2.left).Swap();
    var s4 := Swap8(s3.right, s3.left).Swap();
    var s5 := SwapOdd(s4.left, RotateLeft(s4.right));
    Halves(RotateLeft(s5.left), s5.right)
  }

  function FinalPermutation(s: Halves<bv32>): Halves<bv32> {
    var s5 := SwapOdd(s.left, RotateRight(s.right));
    var s4 := Swap8(RotateRight(s5.left), s5.right);
    var s3 := Swap2(s4.left, s4.right);
    var s2 := Swap16(s3.right, s3.left).Swap();
    var s1 := Swap4(s2.right, s2.left).Swap();
    Halves(s1.right, s1.left)
  }

  /** The final permutation of the swapped halves undoes the initial one. */
  lemma FinalAfterInitial(b: Halves<bv32>)
    ensures FinalPermutation(InitialPermutation(b).Swap()) == b
  {
    hide Swap4, Swap16, Swap2, Swap8, SwapOdd, RotateLeft, RotateRight;
    var s1 := Swap4(b.left, b.right);
    var s2 := Swap16(s1.left, s1.right);
    var s3 := Swap2(s2.right, s2.left).Swap();
    var s4 := Swap8(s3.right, s3.left).Swap();
    var s5 := SwapOdd(s4.left, RotateLeft(s4.right));
    Swap4Twice(b.left, b.right);
    Swap16Twice(s1.left, s1.right);
    Swap2Twice(s2.right, s2.left);
    Swap8Twice(s3.right, s3.left);
    SwapOddTwice(s4.left, RotateLeft(s4.right));
    SwapOddTwice(s5.right, s5.left);
    RotateBack(s4.right);
    RotateBack(s5.left);
  }

  /** The initial permutation of what the final one wrote is its argument with the halves swapped. */
  lemma InitialAfterFinal(s: Halves<bv32>)
    ensures InitialPermutation(FinalPermutation(s)) == s.Swap()
  {
    hide Swap4, Swap16, Swap2, Swap8, SwapOdd, RotateLeft, RotateRight;
    var s5 := SwapOdd(s.left, RotateRight(s.right));
    var s4 := Swap8(RotateRight(s5.left), s5.right);
    var s3 := Swap2(s4.left, s4.right);
    var s2 := Swap16(s3.right, s3.left).Swap();
    SwapOddTwice(s.left, RotateRight(s.right));
    SwapOddTwice(s5.right, s5.left);
    Swap8Twice(RotateRight(s5.left), s5.right);
    Swap2Twice(s4.left, s4.right);
    Swap16Twice(s3.right, s3.left);
    Swap4Twice(s2.right, s2.left);
    RotateBack(s.right);
    RotateBack(s5.left);
  }

  // The rounds.

  /** The eight SP tables, each indexed by six bits. */
  datatype SpTables = SpTables(sp1: bv32 -> bv32, sp2: bv32 -> bv32, sp3: bv32 -> bv32, sp4: bv32 -> bv32,
    sp5: bv32 -> bv32, sp6: bv32 -> bv32, sp7: bv32 -> bv32, sp8: bv32 -> bv32)

  /** One subkey as the code stores it: two words of six-bit groups. */
  datatype Subkey = Subkey(k0: bv32, k1: bv32)

  function RoundWord(t: SpTables, right: bv32, k: Subkey): bv32 {
    var work := ((right << 28) | (right >> 4)) ^ k.k0;
    var fval := t.sp7(work & 0x3f) | t.sp5((work >> 8) & 0x3f) | t.sp3((work >> 16) & 0x3f) |
      t.sp1((work >> 24) & 0x3f);
    var work' := right ^ k.k1;
    fval | t.sp8(work' & 0x3f) | t.sp6((work' >> 8) & 0x3f) | t.sp4((work' >> 16) & 0x3f) | t.sp2((work' >> 24) & 0x3f)
  }

  function Xor(a: bv32, b: bv32): bv32 { a ^ b }

  lemma XorTwice(a: bv32, b: bv32)
    ensures Xor(Xor(a, b), b) == a
  {}

  function DesNetwork(t: SpTables): Network<bv32, Subkey> { Network(Xor, (w, k) => RoundWord(t, w, k)) }

  /** What desfunc writes. */
  function DesBlock(t: SpTables, keys: seq<Subkey>, b: Halves<bv32>): Halves<bv32> {
    FinalPermutation(Rounds(DesNetwork(t), InitialPermutation(b), keys, |keys|))
  }

  /** The same block function under the reversed subkeys takes the block back, for arbitrary tables. */
  lemma ReversedScheduleUndoes(t: SpTables, keys: seq<Subkey>, b: Halves<bv32>)
    ensures DesBlock(t, Reverse(keys), DesBlock(t, keys, b)) == b
  {
    hide InitialPermutation, FinalPermutation;
    var n := DesNetwork(t);
    forall x, y ensures n.Cancels(x, y) {
      XorTwice(x, y);
    }
    InitialAfterFinal(Rounds(n, InitialPermutation(b), keys, |keys|));
    ReversedKeysUndo(n, InitialPermutation(b), keys);
    FinalAfterInitial(b);
  }

  /** Subkey i of a key register. */
  function SubkeyAt(knl: seq<bv32>, i: nat): Subkey
    requires 2 * i + 1 < |knl|
  {
    Subkey(knl[2 * i], knl[2 * i + 1])
  }

  function Subkeys(knl: seq<bv32>): (r: seq<Subkey>)
    requires |knl| == 32
    ensures |r| == 16
  {
    seq(16, i requires 0 <= i < 16 => SubkeyAt(knl, i))
  }

  lemma SubkeysAre(knl: seq<bv32>)
    requires |knl| == 32
    ensures forall i :: 0 <= i < 16 ==> Subkeys(knl)[i] == Subkey(knl[2 * i], knl[2 * i + 1])
  {}

  /** The loop of desfunc: eight times two rounds, without moving the halves. */
  method EightDoubleRounds(t: SpTables, keys: array<bv32>, s: Halves<bv32>) returns (r: Halves<bv32>)
    requires keys.Length == 32
    ensures r == Rounds(DesNetwork(t), s, Subkeys(keys[..]), 16)
  {
    hide RoundWord, Xor, Subkeys;
    SubkeysAre(keys[..]);
    ghost var (n, subkeys) := (DesNetwork(t), Subkeys(keys[..]));
    var leftt, right := s.left, s.right;
    var round, k := 0, 0;
    while round < 8
      invariant 0 <= round <= 8 && k == 4 * round
      invariant Halves(leftt, right) == Rounds(n, s, subkeys, 2 * round)
    {
      leftt := Xor(leftt, RoundWord(t, right, Subkey(keys[k], keys[k + 1])));
      right := Xor(right, RoundWord(t, leftt, Subkey(keys[k + 2], keys[k + 3])));
      assert subkeys[2 * round] == Subkey(keys[k], keys[k + 1]) &&
        subkeys[2 * round + 1] == Subkey(keys[k + 2], keys[k + 3]);
      k := k + 4;
      round := round + 1;
    }
    r := Halves(leftt, right);
  }

  /** desfunc. */
  method DesFunc(t: SpTables, block: Halves<bv32>, keys: array<bv32>) returns (r: Halves<bv32>)
    requires keys.Length == 32
    ensures r == DesBlock(t, Subkeys(keys[..]), block)
  {
    hide InitialPermutation, FinalPermutation;
    var s := EightDoubleRounds(t, keys, InitialPermutation(block));
    r := FinalPermutation(s);
  }
}
