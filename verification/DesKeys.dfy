/**
 * The DES key schedule (qemu/d3des.c:67-176) and the block interface (187-235), with the law
 * that `des` under a DE1 key register undoes `des` under an EN0 key register.
 */
module DesKeys {
  import opened Feistel
  import opened Des

  type KeyBitNumber = l: nat | l < 64
  type RegisterBit = l: nat | l < 56
  type Shift = l: nat | l <= 28

  const BYTEBIT: seq<bv8> := [0x01, 0x02, 0x04, 0x08, 0x10, 0x20, 0x40, 0x80]

  const BIGBYTE: seq<bv32> := [
    0x800000, 0x400000, 0x200000, 0x100000, 0x80000, 0x40000, 0x20000, 0x10000,
    0x8000, 0x4000, 0x2000, 0x1000, 0x800, 0x400, 0x200, 0x100,
    0x80, 0x40, 0x20, 0x10, 0x8, 0x4, 0x2, 0x1]

  const PC1: seq<KeyBitNumber> := [
    56, 48, 40, 32, 24, 16, 8, 0, 57, 49, 41, 33, 25, 17,
    9, 1, 58, 50, 42, 34, 26, 18, 10, 2, 59, 51, 43, 35,
    62, 54, 46, 38, 30, 22, 14, 6, 61, 53, 45, 37, 29, 21,
    13, 5, 60, 52, 44, 36, 28, 20, 12, 4, 27, 19, 11, 3]

  const TOTROT: seq<Shift> := [1, 2, 4, 6, 8, 10, 12, 14, 15, 17, 19, 21, 23, 25, 27, 28]

  const PC2: seq<RegisterBit> := [
    13, 16, 10, 23, 0, 4, 2, 27, 14, 5, 20, 9,
    22, 18, 11, 3, 25, 7, 15, 6, 26, 19, 12, 1,
    40, 51, 30, 36, 46, 54, 29, 39, 50, 44, 32, 47,
    43, 48, 38, 55, 33, 52, 45, 41, 49, 35, 28, 31]

  const EN0: int := 0
  const DE1: int := 1

  lemma TableSizes()
    ensures |BYTEBIT| == 8 && |BIGBYTE| == 24 && |PC1| == 56 && |TOTROT| == 16 && |PC2| == 48
  {}

  /** Bit l of the key, for l from 0 to 63. */
  predicate KeyBit(key: seq<bv8>, l: KeyBitNumber)
    requires |key| == 8
  {
    TableSizes();
    key[l / 8] & BYTEBIT[l % 8] != 0
  }

  /** The 56 key bits after permuted choice 1. */
  function Pc1(key: seq<bv8>): (r: seq<bool>)
    requires |key| == 8
    ensures |r| == 56
  {
    TableSizes();
    seq(56, j requires 0 <= j < 56 => KeyBit(key, PC1[j]))
  }

  /** Where bit j of the register comes from when both halves are rotated by t. */
  function RotatedFrom(j: nat, t: Shift): (l: nat)
    requires j < 56
    ensures l < 56
  {
    if j < 28 then (if j + t < 28 then j + t else j + t - 28)
    else (if j + t < 56 then j + t else j + t - 28)
  }

  function Rotated(bits: seq<bool>, t: Shift): (r: seq<bool>)
    requires |bits| == 56
    ensures |r| == 56
  {
    seq(56, j requires 0 <= j < 56 => bits[RotatedFrom(j, t)])
  }

  /** Both halves of the register turn left by t, as the key schedule of FIPS 46-3 has it. */
  lemma RotatedHalves(bits: seq<bool>, t: Shift)
    requires |bits| == 56
    ensures Rotated(bits, t) == bits[t..28] + bits[..t] + bits[28 + t..] + bits[28..28 + t]
  {}

  function Or(a: bv32, b: bv32): bv32 { a | b }

  /** The first n bits that permuted choice 2 takes for one word of a raw subkey. */
  function RawWord(pcr: seq<bool>, from: nat, n: nat): bv32
    requires |pcr| == 56 && n <= 24 && from + n <= 48
  {
    if n == 0 then 0
    else
      TableSizes();
      var w := RawWord(pcr, from, n - 1);
      if pcr[PC2[from + n - 1]] then Or(w, BIGBYTE[n - 1]) else w
  }

  /** Subkey number i of a key before cookey. */
  function RawSubkey(key: seq<bv8>, i: nat): Subkey
    requires |key| == 8 && i < 16
  {
    TableSizes();
    var pcr := Rotated(Pc1(key), TOTROT[i]);
    Subkey(RawWord(pcr, 0, 24), RawWord(pcr, 24, 24))
  }

  /** cookey on one pair of words. */
  function Cook(raw: Subkey): Subkey {
    Subkey(
      ((raw.k0 & 0x00fc0000) << 6) | ((raw.k0 & 0x00000fc0) << 10) | ((raw.k1 & 0x00fc0000) >> 10) |
        ((raw.k1 & 0x00000fc0) >> 6),
      ((raw.k0 & 0x0003f000) << 12) | ((raw.k0 & 0x0000003f) << 16) | ((raw.k1 & 0x0003f000) >> 4) |
        (raw.k1 & 0x0000003f))
  }

  /** The encryption schedule of a key. */
  function Schedule(key: seq<bv8>): (r: seq<Subkey>)
    requires |key| == 8
    ensures |r| == 16
  {
    seq(16, i requires 0 <= i < 16 => Cook(RawSubkey(key, i)))
  }

  // The code.

  method ChooseBits(key: array<bv8>) returns (pc1m: array<bool>)
    requires key.Length == 8
    ensures fresh(pc1m) && pc1m[..] == Pc1(key[..])
  {
    hide *;
    TableSizes();
    ghost var bits := Pc1(key[..]);
    Pc1At(key[..]);
    pc1m := new bool[56];
    var j := 0;
    while j < 56
      invariant 0 <= j <= 56 && pc1m[..j] == bits[..j]
    {
      var l := PC1[j];
      var m := l % 8;
      KeyBitIs(key[..], l);
      pc1m[j] := key[l / 8] & BYTEBIT[m] != 0;
      j := j + 1;
    }
  }

  lemma KeyBitIs(key: seq<bv8>, l: KeyBitNumber)
    requires |key| == 8
    ensures |BYTEBIT| == 8 && (KeyBit(key, l) <==> key[l / 8] & BYTEBIT[l % 8] != 0)
  {
    TableSizes();
  }

  lemma Pc1At(key: seq<bv8>)
    requires |key| == 8
    ensures |PC1| == 56 && forall j :: 0 <= j < 56 ==> (Pc1(key)[j] <==> KeyBit(key, PC1[j]))
  {
    TableSizes();
  }

  method RotateBits(pc1m: array<bool>, pcr: array<bool>, t: Shift)
    requires pc1m.Length == pcr.Length == 56 && pc1m != pcr
    modifies pcr
    ensures pcr[..] == Rotated(pc1m[..], t)
  {
    var j := 0;
    while j < 28
      invariant 0 <= j <= 28 && forall k :: 0 <= k < j ==> pcr[k] == pc1m[RotatedFrom(k, t)]
    {
      var l := j + t;
      pcr[j] := if l < 28 then pc1m[l] else pc1m[l - 28];
      j := j + 1;
    }
    while j < 56
      invariant 28 <= j <= 56 && forall k :: 0 <= k < j ==> pcr[k] == pc1m[RotatedFrom(k, t)]
    {
      var l := j + t;
      pcr[j] := if l < 56 then pc1m[l] else pc1m[l - 28];
      j := j + 1;
    }
  }

  method GatherWords(pcr: array<bool>) returns (raw: Subkey)
    requires pcr.Length == 56
    ensures raw == Subkey(RawWord(pcr[..], 0, 24), RawWord(pcr[..], 24, 24))
  {
    hide Or, BIGBYTE, PC2;
    TableSizes();
    var j := 0;
    var (k0, k1) := (0 as bv32, 0 as bv32);
    while j < 24
      invariant 0 <= j <= 24 && k0 == RawWord(pcr[..], 0, j) && k1 == RawWord(pcr[..], 24, j)
    {
      if pcr[PC2[j]] {
        k0 := Or(k0, BIGBYTE[j]);
      }
      if pcr[PC2[j + 24]] {
        k1 := Or(k1, BIGBYTE[j]);
      }
      j := j + 1;
    }
    raw := Subkey(k0, k1);
  }

  /** The key register of the module. */
  class KeyRegister {
    var knl: array<bv32>

    ghost predicate Valid()
      reads this
    {
      knl.Length == 32
    }

    ghost function Keys(): (r: seq<Subkey>)
      requires Valid()
      reads this, knl
    {
      Subkeys(knl[..])
    }

    constructor ()
      ensures Valid() && fresh(knl)
    {
      knl := new bv32[32];
    }

    /** usekey. */
    method UseKey(from: array<bv32>)
      requires Valid() && from.Length == 32 && from != knl
      modifies knl
      ensures knl[..] == from[..]
    {
      var k := 0;
      while k < 32
        invariant 0 <= k <= 32 && knl[..k] == from[..k]
      {
        knl[k] := from[k];
        k := k + 1;
      }
      assert knl[..] == knl[..32] && from[..] == from[..32];
    }

    /** cpkey. */
    method CopyKey(into: array<bv32>)
      requires Valid() && into.Length == 32 && into != knl
      modifies into
      ensures into[..] == knl[..]
    {
      var k := 0;
      while k < 32
        invariant 0 <= k <= 32 && into[..k] == knl[..k]
      {
        into[k] := knl[k];
        k := k + 1;
      }
      assert knl[..] == knl[..32] && into[..] == into[..32];
    }

    /** cookey. */
    method CooKey(raw: array<bv32>)
      requires Valid() && raw.Length == 32 && raw != knl
      modifies knl
      ensures forall i :: 0 <= i < 16 ==> Keys()[i] == Cook(SubkeyAt(raw[..], i))
    {
      hide Cook;
      var dough := new bv32[32];
      var i := 0;
      while i < 16
        invariant 0 <= i <= 16 && raw[..] == old(raw[..])
        invariant forall k :: 0 <= k < i ==> SubkeyAt(dough[..], k) == Cook(SubkeyAt(raw[..], k))
      {
        var cooked := Cook(Subkey(raw[2 * i], raw[2 * i + 1]));
        StorePair(dough, i, cooked);
        i := i + 1;
      }
      UseKey(dough);
    }

    /** deskey. */
    method DesKey(key: array<bv8>, edf: int)
      requires Valid() && key.Length == 8
      modifies knl
      ensures Keys() == if edf == DE1 then Reverse(Schedule(key[..])) else Schedule(key[..])
    {
      hide Cook, RawWord, Pc1, Rotated;
      TableSizes();
      ghost var bits := key[..];
      var pc1m := ChooseBits(key);
      var pcr := new bool[56];
      var kn := new bv32[32];
      var i := 0;
      while i < 16
        invariant 0 <= i <= 16 && pc1m[..] == Pc1(bits) && key[..] == bits && knl[..] == old(knl[..])
        invariant forall k :: 0 <= k < i ==> SubkeyAt(kn[..], Slot(edf, k)) == RawSubkey(bits, k)
      {
        RotateBits(pc1m, pcr, TOTROT[i]);
        var raw := GatherWords(pcr);
        RawSubkeyIs(bits, i, pcr[..], raw);
        StorePair(kn, Slot(edf, i), raw);
        i := i + 1;
      }
      CooKey(kn);
      CookedSchedule(bits, edf, kn[..], Keys());
    }
  }

  /** The pair of kn that subkey i goes to. */
  function Slot(edf: int, i: nat): nat
    requires i < 16
  {
    if edf == DE1 then 15 - i else i
  }

  lemma RawSubkeyIs(key: seq<bv8>, i: nat, pcr: seq<bool>, raw: Subkey)
    requires |key| == 8 && i < 16 && |TOTROT| == 16 && |pcr| == 56 && pcr == Rotated(Pc1(key), TOTROT[i])
    requires raw == Subkey(RawWord(pcr, 0, 24), RawWord(pcr, 24, 24))
    ensures raw == RawSubkey(key, i)
  {
    hide RawWord, Pc1, Rotated, TOTROT;
  }

  method StorePair(a: array<bv32>, i: nat, k: Subkey)
    requires a.Length == 32 && i < 16
    modifies a
    ensures forall j :: 0 <= j < 16 ==> SubkeyAt(a[..], j) == if j == i then k else old(SubkeyAt(a[..], j))
  {
    a[2 * i] := k.k0;
    a[2 * i + 1] := k.k1;
  }

  lemma CookedSchedule(key: seq<bv8>, edf: int, kn: seq<bv32>, keys: seq<Subkey>)
    requires |key| == 8 && |kn| == 32 && |keys| == 16
    requires forall k :: 0 <= k < 16 ==> SubkeyAt(kn, Slot(edf, k)) == RawSubkey(key, k)
    requires forall i :: 0 <= i < 16 ==> keys[i] == Cook(SubkeyAt(kn, i))
    ensures keys == if edf == DE1 then Reverse(Schedule(key)) else Schedule(key)
  {
    hide Cook, RawSubkey;
    forall i | 0 <= i < 16
      ensures keys[i] == Cook(RawSubkey(key, Slot(edf, i)))
    {
      assert Slot(edf, Slot(edf, i)) == i;
    }
  }

  // Blocks of eight bytes.

  function GetWord(s: seq<bv8>, i: nat): bv32
    requires i + 4 <= |s|
  {
    ((s[i] as bv32) << 24) | ((s[i + 1] as bv32) << 16) | ((s[i + 2] as bv32) << 8) | (s[i + 3] as bv32)
  }

  function WordBytes(w: bv32): (r: seq<bv8>)
    ensures |r| == 4
  {
    [((w >> 24) & 0xff) as bv8, ((w >> 16) & 0xff) as bv8, ((w >> 8) & 0xff) as bv8, (w & 0xff) as bv8]
  }

  /** scrunch. */
  function Scrunch(s: seq<bv8>): Halves<bv32>
    requires |s| == 8
  {
    Halves(GetWord(s, 0), GetWord(s, 4))
  }

  /** unscrun. */
  function Unscrun(b: Halves<bv32>): (r: seq<bv8>)
    ensures |r| == 8
  {
    WordBytes(b.left) + WordBytes(b.right)
  }

  lemma WordBytesRoundTrip(w: bv32)
    ensures GetWord(WordBytes(w), 0) == w
  {}

  lemma BytesWord(s: seq<bv8>, i: nat)
    requires i + 4 <= |s|
    ensures WordBytes(GetWord(s, i)) == s[i..i + 4]
  {
    var r := WordBytes(GetWord(s, i));
    BytesOf(s[i], s[i + 1], s[i + 2], s[i + 3]);
    assert r[0] == s[i] && r[1] == s[i + 1] && r[2] == s[i + 2] && r[3] == s[i + 3];
  }

  lemma BytesOf(a: bv8, b: bv8, c: bv8, d: bv8)
    ensures var w := ((a as bv32) << 24) | ((b as bv32) << 16) | ((c as bv32) << 8) | (d as bv32);
      ((w >> 24) & 0xff) as bv8 == a && ((w >> 16) & 0xff) as bv8 == b && ((w >> 8) & 0xff) as bv8 == c &&
        (w & 0xff) as bv8 == d
  {}

  lemma BlockRoundTrip(s: seq<bv8>, b: Halves<bv32>)
    requires |s| == 8
    ensures Unscrun(Scrunch(s)) == s && Scrunch(Unscrun(b)) == b
  {
    hide WordBytes, GetWord;
    BytesWord(s, 0);
    BytesWord(s, 4);
    WordBytesRoundTrip(b.left);
    WordBytesRoundTrip(b.right);
    GetWordAt(WordBytes(b.left), WordBytes(b.right));
  }

  lemma GetWordAt(s: seq<bv8>, t: seq<bv8>)
    requires |s| == 4 == |t|
    ensures GetWord(s + t, 0) == GetWord(s, 0) && GetWord(s + t, 4) == GetWord(t, 0)
  {}

  /** What `des` writes under a key register. */
  function DesBytes(t: SpTables, keys: seq<Subkey>, s: seq<bv8>): (r: seq<bv8>)
    requires |s| == 8
    ensures |r| == 8
  {
    Unscrun(DesBlock(t, keys, Scrunch(s)))
  }

  /** For every key and block, and arbitrary SP tables, DE1 undoes EN0 and EN0 undoes DE1. */
  lemma DesInverse(t: SpTables, key: seq<bv8>, s: seq<bv8>)
    requires |key| == 8 == |s|
    ensures DesBytes(t, Reverse(Schedule(key)), DesBytes(t, Schedule(key), s)) == s
    ensures DesBytes(t, Schedule(key), DesBytes(t, Reverse(Schedule(key)), s)) == s
  {
    hide Scrunch, Unscrun, DesBlock, Schedule;
    var (keys, b) := (Schedule(key), Scrunch(s));
    BlockRoundTrip(s, DesBlock(t, keys, b));
    BlockRoundTrip(s, DesBlock(t, Reverse(keys), b));
    ReversedScheduleUndoes(t, keys, b);
    ReversedScheduleUndoes(t, Reverse(keys), b);
    ReverseTwice(keys);
  }

  lemma ReverseTwice<K>(keys: seq<K>)
    ensures Reverse(Reverse(keys)) == keys
  {}

  /** des: the two blocks may be the same array. */
  method DesCrypt(t: SpTables, reg: KeyRegister, inblock: array<bv8>, outblock: array<bv8>)
    requires reg.Valid() && inblock.Length == 8 == outblock.Length
    modifies outblock
    ensures outblock[..] == DesBytes(t, reg.Keys(), old(inblock[..]))
  {
    hide DesBlock, GetWord, WordBytes;
    var work := Halves(GetWord(inblock[..], 0), GetWord(inblock[..], 4));
    var r := DesFunc(t, work, reg.knl);
    PutWord(outblock, 0, r.left);
    PutWord(outblock, 4, r.right);
    assert outblock[..] == outblock[..4] + outblock[4..8];
  }

  method PutWord(out: array<bv8>, i: nat, w: bv32)
    requires i + 4 <= out.Length
    modifies out
    ensures out[i..i + 4] == WordBytes(w)
    ensures forall k :: 0 <= k < out.Length && !(i <= k < i + 4) ==> out[k] == old(out[k])
  {
    hide WordBytes;
    var bytes := WordBytes(w);
    out[i] := bytes[0];
    out[i + 1] := bytes[1];
    out[i + 2] := bytes[2];
    out[i + 3] := bytes[3];
  }

  /** A block taken through the code both ways. */
  method ThereAndBack(t: SpTables, key: array<bv8>, block: array<bv8>)
    requires key.Length == 8 == block.Length && key != block
    modifies block
    ensures block[..] == old(block[..])
  {
    hide DesBytes, Schedule;
    var reg := new KeyRegister();
    reg.DesKey(key, EN0);
    DesInverse(t, key[..], block[..]);
    DesCrypt(t, reg, block, block);
    reg.DesKey(key, DE1);
    DesCrypt(t, reg, block, block);
  }
}
