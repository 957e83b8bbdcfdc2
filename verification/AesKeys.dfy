/**
 * The key schedules of qemu/aes.c: AES_set_encrypt_key writes the key expansion of
 * FIPS 197, AES_set_decrypt_key turns it in place into the decryption schedule.
 */
module AesKeys {
  import opened IteratedCipher
  import opened Rijndael
  import opened WordCipher
  import opened AesTables
  import opened Aes

  // The key expansion of section 5.2 of FIPS 197.

  function SubWord(b: SBox, w: bv32): bv32 { FromColumn(OnBytes(b.s, ToColumn(w))) }

  function RotWord(w: bv32): bv32 { Word(Byte1(w), Byte2(w), Byte3(w), Byte0(w)) }

  /** 02 to the power i. */
  function Power(i: nat): bv8 { if i == 0 then 1 else Xtime(Power(i - 1)) }

  function Rcon(i: nat): bv32
    requires i >= 1
  {
    Word(Power(i - 1), 0, 0, 0)
  }

  /** Word r of group m, from the word Nk places back and the one just before. */
  function Next(b: SBox, nk: nat, m: nat, r: nat, base: bv32, temp: bv32): bv32
    requires m >= 1
  {
    if r == 0 then XorWord(XorWord(base, SubWord(b, RotWord(temp))), Rcon(m))
    else if nk > 6 && r == 4 then XorWord(base, SubWord(b, temp))
    else XorWord(base, temp)
  }

  /** The word that follows w in the key expansion for Nk = nk. */
  function NextWord(b: SBox, nk: nat, w: seq<bv32>): bv32
    requires 0 < nk <= |w|
  {
    var i := |w|;
    Next(b, nk, i / nk, i % nk, w[i - nk], w[i - 1])
  }

  /** The first n words of the expansion of the key words kw. */
  function Expansion(b: SBox, kw: seq<bv32>, n: nat): (w: seq<bv32>)
    requires |kw| > 0
    ensures |w| == n
  {
    if n <= |kw| then kw[..n]
    else
      var w := Expansion(b, kw, n - 1);
      w + [NextWord(b, |kw|, w)]
  }

  const RCON: seq<bv32> := [
    0x01000000, 0x02000000, 0x04000000, 0x08000000, 0x10000000,
    0x20000000, 0x40000000, 0x80000000, 0x1B000000, 0x36000000]

  lemma RconTable(i: nat)
    requires i < 10
    ensures RCON[i] == Rcon(i + 1)
  {
    Powers();
  }

  lemma Powers()
    ensures Power(0) == 1 && Power(1) == 2 && Power(2) == 4 && Power(3) == 8 && Power(4) == 0x10
    ensures Power(5) == 0x20 && Power(6) == 0x40 && Power(7) == 0x80 && Power(8) == 0x1B && Power(9) == 0x36
  {}

  /** Four masked lookups. */
  function MaskedLookups(t: Tables, x0: bv8, x1: bv8, x2: bv8, x3: bv8): bv32 {
    XorWord(XorWord(XorWord(t.te4(x0) & 0xff000000, t.te4(x1) & 0x00ff0000), t.te4(x2) & 0x0000ff00),
      t.te4(x3) & 0x000000ff)
  }

  /** The lookups on the rotated word that every group starts with. */
  function RotSubLine(t: Tables, temp: bv32): bv32 {
    MaskedLookups(t, Byte1(temp), Byte2(temp), Byte3(temp), Byte0(temp))
  }

  /** The same without the rotation, in the middle of a group of eight. */
  function SubLine(t: Tables, temp: bv32): bv32 {
    MaskedLookups(t, Byte0(temp), Byte1(temp), Byte2(temp), Byte3(temp))
  }

  lemma SparseWord(c: Column<bv8>)
    ensures XorWord(XorWord(XorWord(Word(c.b0, 0, 0, 0), Word(0, c.b1, 0, 0)), Word(0, 0, c.b2, 0)),
      Word(0, 0, 0, c.b3)) == FromColumn(c)
  {}

  lemma MaskedLookupsWord(t: Tables, b: SBox, x0: bv8, x1: bv8, x2: bv8, x3: bv8)
    requires t.Built(b)
    ensures MaskedLookups(t, x0, x1, x2, x3) == Word(b.s(x0), b.s(x1), b.s(x2), b.s(x3))
  {
    Te4Masked(t, b, x0, 0);
    Te4Masked(t, b, x1, 1);
    Te4Masked(t, b, x2, 2);
    Te4Masked(t, b, x3, 3);
    SparseWord(Column(b.s(x0), b.s(x1), b.s(x2), b.s(x3)));
  }

  lemma LinesSub(t: Tables, b: SBox, w: bv32)
    requires t.Built(b)
    ensures SubLine(t, w) == SubWord(b, w)
  {
    MaskedLookupsWord(t, b, Byte0(w), Byte1(w), Byte2(w), Byte3(w));
  }

  lemma LinesRotSub(t: Tables, b: SBox, w: bv32)
    requires t.Built(b)
    ensures RotSubLine(t, w) == SubWord(b, RotWord(w))
  {
    MaskedLookupsWord(t, b, Byte1(w), Byte2(w), Byte3(w), Byte0(w));
    WordBytes(Column(Byte1(w), Byte2(w), Byte3(w), Byte0(w)), 0);
  }

  lemma GroupPosition(nk: nat, i: nat, r: nat)
    requires (nk == 4 || nk == 6 || nk == 8) && r < nk
    ensures (nk * i + nk + r) % nk == r && (nk * i + nk + r) / nk == i + 1
  {
    if nk == 4 {
      assert (4 * i + 4 + r) / 4 == i + 1;
    } else if nk == 6 {
      assert (6 * i + 6 + r) / 6 == i + 1;
    } else {
      assert (8 * i + 8 + r) / 8 == i + 1;
    }
  }

  method ComputeNext(t: Tables, ghost b: SBox, nk: nat, i: nat, r: nat, base: bv32, temp: bv32) returns (w: bv32)
    requires t.Built(b) && i < 10
    ensures w == Next(b, nk, i + 1, r, base, temp)
  {
    if r == 0 {
      LinesRotSub(t, b, temp);
      RconTable(i);
      w := XorWord(XorWord(base, RotSubLine(t, temp)), RCON[i]);
    } else if nk > 6 && r == 4 {
      LinesSub(t, b, temp);
      w := XorWord(base, SubLine(t, temp));
    } else {
      w := XorWord(base, temp);
    }
  }

  /** The array starts with the first n words of the expansion of kw. */
  ghost predicate Expanded(b: SBox, kw: seq<bv32>, rk: seq<bv32>, n: nat) {
    |kw| > 0 && n <= |rk| && rk[..n] == Expansion(b, kw, n)
  }

  lemma OneMore(b: SBox, kw: seq<bv32>, rk: seq<bv32>, n: nat, w: bv32)
    requires Expanded(b, kw, rk, n) && |kw| <= n < |rk|
    requires w == NextWord(b, |kw|, rk[..n])
    ensures Expanded(b, kw, rk[n := w], n + 1)
  {
    assert rk[n := w][..n + 1] == rk[..n] + [w];
  }

  lemma NextAt(b: SBox, nk: nat, rk: seq<bv32>, p: nat, i: nat, r: nat)
    requires (nk == 4 || nk == 6 || nk == 8) && r < nk && p == nk * i && p + nk + r <= |rk|
    ensures NextWord(b, nk, rk[..p + nk + r]) == Next(b, nk, i + 1, r, rk[p + r], rk[p + nk + r - 1])
  {
    GroupPosition(nk, i, r);
  }

  /** Writes word r of the group after the one that starts at p = nk * i. */
  method Step(t: Tables, ghost b: SBox, ghost kw: seq<bv32>, nk: nat, rk: array<bv32>, p: nat, i: nat, r: nat)
    requires t.Built(b) && |kw| == nk && (nk == 4 || nk == 6 || nk == 8) && r < nk && i < 10
    requires p == nk * i && p + nk + r < rk.Length
    requires Expanded(b, kw, rk[..], p + nk + r)
    modifies rk
    ensures Expanded(b, kw, rk[..], p + nk + r + 1)
  {
    var w := ComputeNext(t, b, nk, i, r, rk[p + r], rk[p + nk + r - 1]);
    hide NextWord, Next, Expansion, RotWord, SubWord;
    NextAt(b, nk, rk[..], p, i, r);
    OneMore(b, kw, rk[..], p + nk + r, w);
    rk[p + nk + r] := w;
    assert rk[..] == old(rk[..])[p + nk + r := w];
  }

  /** The first four words of a group. */
  method FourSteps(t: Tables, ghost b: SBox, ghost kw: seq<bv32>, nk: nat, rk: array<bv32>, p: nat, i: nat)
    requires t.Built(b) && |kw| == nk && (nk == 4 || nk == 6 || nk == 8) && i < 10
    requires p == nk * i && p + nk + 4 <= rk.Length
    requires Expanded(b, kw, rk[..], p + nk)
    modifies rk
    ensures Expanded(b, kw, rk[..], p + nk + 4)
  {
    hide *;
    Step(t, b, kw, nk, rk, p, i, 0);
    Step(t, b, kw, nk, rk, p, i, 1);
    Step(t, b, kw, nk, rk, p, i, 2);
    Step(t, b, kw, nk, rk, p, i, 3);
  }

  /** The words after the fourth of a group, for the longer keys. */
  method MoreSteps(t: Tables, ghost b: SBox, ghost kw: seq<bv32>, nk: nat, rk: array<bv32>, p: nat, i: nat)
    requires t.Built(b) && |kw| == nk && (nk == 4 || nk == 6 || nk == 8) && i < 10
    requires p == nk * i && p + nk + nk <= rk.Length
    requires Expanded(b, kw, rk[..], p + nk + 4)
    modifies rk
    ensures Expanded(b, kw, rk[..], p + nk + nk)
  {
    hide *;
    if nk >= 6 {
      Step(t, b, kw, nk, rk, p, i, 4);
      Step(t, b, kw, nk, rk, p, i, 5);
    }
    if nk == 8 {
      Step(t, b, kw, nk, rk, p, i, 6);
      Step(t, b, kw, nk, rk, p, i, 7);
    }
  }

  /** The three loops of AES_set_encrypt_key, which differ in nk; the last group stays short. */
  method Expand(t: Tables, ghost b: SBox, ghost kw: seq<bv32>, nk: nat, rk: array<bv32>)
    requires t.Built(b) && rk.Length == 60 && |kw| == nk && (nk == 4 || nk == 6 || nk == 8)
    requires Expanded(b, kw, rk[..], nk)
    modifies rk
    ensures Expanded(b, kw, rk[..], 4 * nk + 28)
  {
    var last := if nk == 4 then 10 else if nk == 6 then 8 else 7;
    var i, p := 0, 0;
    while true
      invariant i < last && p == nk * i
      invariant Expanded(b, kw, rk[..], p + nk)
      decreases last - i
    {
      FourSteps(t, b, kw, nk, rk, p, i);
      i := i + 1;
      if i == last {
        return;
      }
      MoreSteps(t, b, kw, nk, rk, p, i - 1);
      p := p + nk;
    }
  }

  // Whole schedules.

  /** The number of rounds for a key of nk words. */
  function RoundsFor(nk: nat): nat { nk + 6 }

  function KeyWords(key: seq<bv8>, nk: nat): (kw: seq<bv32>)
    requires 4 * nk <= |key|
    ensures |kw| == nk
  {
    seq(nk, j requires 0 <= j < nk => Get(key, 4 * j))
  }

  /** The encryption schedule of FIPS 197 for a key. */
  function EncryptionKeys(b: SBox, key: seq<bv8>, nk: nat): Schedule<State<bv8>>
    requires 0 < nk && 4 * nk <= |key|
  {
    ViewKeys(View(ToColumn), WordKeys(Expansion(b, KeyWords(key, nk), 4 * RoundsFor(nk) + 4), RoundsFor(nk)))
  }

  ghost predicate KeyBits(bits: int) { bits == 128 || bits == 192 || bits == 256 }

  lemma KeysOfExpansion(b: SBox, key: seq<bv8>, nk: nat, kw: seq<bv32>, rk: seq<bv32>)
    requires 0 < nk && 4 * nk <= |key| && kw == KeyWords(key, nk) && 4 * RoundsFor(nk) + 4 <= |rk|
    requires Expanded(b, kw, rk, 4 * nk + 28)
    ensures ViewKeys(View(ToColumn), WordKeys(rk, RoundsFor(nk))) == EncryptionKeys(b, key, nk)
  {
    WordKeysPrefix(rk, RoundsFor(nk));
  }

  lemma WordKeysPrefix<W>(rk: seq<W>, rounds: nat)
    requires rounds >= 1 && 4 * rounds + 4 <= |rk|
    ensures WordKeys(rk, rounds) == WordKeys(rk[..4 * rounds + 4], rounds)
  {}

  /** The GETU32 lines at the start of AES_set_encrypt_key. */
  method LoadKey(rk: array<bv32>, userKey: array<bv8>, nk: nat)
    requires nk <= rk.Length && 4 * nk <= userKey.Length
    modifies rk
    ensures rk[..nk] == KeyWords(userKey[..], nk)
  {
    ghost var kw := KeyWords(userKey[..], nk);
    var j := 0;
    while j < nk
      invariant 0 <= j <= nk
      invariant rk[..j] == kw[..j]
    {
      rk[j] := Word(userKey[4 * j], userKey[4 * j + 1], userKey[4 * j + 2], userKey[4 * j + 3]);
      j := j + 1;
    }
  }

  /** Everything AES_set_encrypt_key does to a sound request. */
  method FillKey(t: Tables, ghost b: SBox, userKey: array<bv8>, nk: nat, key: AesKey)
    requires t.Built(b) && (nk == 4 || nk == 6 || nk == 8) && 4 * nk <= userKey.Length
    requires key.Valid()
    modifies key, key.rdKey
    ensures key.Valid() && key.rdKey == old(key.rdKey) && key.rounds == RoundsFor(nk)
    ensures key.Keys() == EncryptionKeys(b, userKey[..], nk)
  {
    key.rounds := if nk == 4 then 10 else if nk == 6 then 12 else 14;
    LoadKey(key.rdKey, userKey, nk);
    ghost var kw := key.rdKey[..nk];
    assert Expanded(b, kw, key.rdKey[..], nk);
    Expand(t, b, kw, nk, key.rdKey);
    KeysOfExpansion(b, userKey[..], nk, kw, key.rdKey[..]);
  }

  /** AES_set_encrypt_key. */
  method SetEncryptKey(t: Tables, ghost b: SBox, userKey: array?<bv8>, bits: int, key: AesKey?) returns (status: int)
    requires t.Built(b)
    requires userKey != null && KeyBits(bits) ==> userKey.Length * 8 >= bits
    requires key != null ==> key.Valid()
    modifies key, if key != null then {key.rdKey} else {}
    ensures status == (if userKey == null || key == null then -1 else if !KeyBits(bits) then -2 else 0)
    ensures key != null ==> key.rdKey == old(key.rdKey)
    ensures status != 0 && key != null ==> key.rounds == old(key.rounds) && key.rdKey[..] == old(key.rdKey[..])
    ensures status == 0 ==> key.Valid() && key.rounds == RoundsFor(bits / 32)
    ensures status == 0 ==> key.Keys() == EncryptionKeys(b, userKey[..], bits / 32)
  {
    if userKey == null || key == null {
      return -1;
    }
    if bits != 128 && bits != 192 && bits != 256 {
      return -2;
    }
    FillKey(t, b, userKey, bits / 32, key);
    return 0;
  }

  // The decryption schedule.

  function MapWords<W>(line: W -> W, k: Words<W>): Words<W> {
    Words(line(k.w0), line(k.w1), line(k.w2), line(k.w3))
  }

  function InvMixOn(t: Tables): bv32 -> bv32 { w => t.InvMixLine(w) }

  lemma InvMixWordsView(t: Tables, b: SBox, k: Words<bv32>)
    requires t.Built(b)
    ensures View(ToColumn)(MapWords(InvMixOn(t), k)) == KeyTransform(Gf(b))(View(ToColumn)(k))
  {
    InvMixLineColumn(t, b, k.w0);
    InvMixLineColumn(t, b, k.w1);
    InvMixLineColumn(t, b, k.w2);
    InvMixLineColumn(t, b, k.w3);
  }

  /** t is s with the four words at i and the four words at j changing places. */
  ghost predicate Swapped<W>(s: seq<W>, t: seq<W>, i: nat, j: nat) {
    && i + 4 <= j && j + 4 <= |s| == |t|
    && (forall k :: 0 <= k < |t| && !(i <= k < i + 4) && !(j <= k < j + 4) ==> t[k] == s[k])
    && (forall k :: i <= k < i + 4 ==> t[k] == s[k - i + j])
    && (forall k :: j <= k < j + 4 ==> t[k] == s[k - j + i])
  }

  /** Where round key r comes from when the keys x and y change places. */
  function Exchanged(x: nat, y: nat, r: nat): nat { if r == x then y else if r == y then x else r }

  lemma SwappedKey<W>(s: seq<W>, t: seq<W>, x: nat, y: nat, r: nat)
    requires x < y && Swapped(s, t, 4 * x, 4 * y) && 4 * r + 4 <= |s|
    ensures RoundKey(t, r) == RoundKey(s, Exchanged(x, y, r))
  {
    if r == x {
    } else if r == y {
    } else {
      assert forall k :: 4 * r <= k < 4 * r + 4 ==> t[k] == s[k];
    }
  }

  /** Swaps the words at i and at j, one by one. */
  method SwapKeys<W>(rk: array<W>, i: nat, j: nat)
    requires i + 4 <= j && j + 4 <= rk.Length
    modifies rk
    ensures Swapped(old(rk[..]), rk[..], i, j)
  {
    rk[i], rk[j] := rk[j], rk[i];
    rk[i + 1], rk[j + 1] := rk[j + 1], rk[i + 1];
    rk[i + 2], rk[j + 2] := rk[j + 2], rk[i + 2];
    rk[i + 3], rk[j + 3] := rk[j + 3], rk[i + 3];
  }

  /** The outer x round keys on either side have changed places. */
  ghost predicate Mirrored<W>(s: seq<W>, t: seq<W>, rounds: nat, x: nat) {
    && 4 * rounds + 4 <= |s| == |t|
    && (forall r :: 0 <= r <= rounds ==>
      RoundKey(t, r) == RoundKey(s, if r < x || rounds - x < r then rounds - r else r))
  }

  lemma MirrorStep<W>(s: seq<W>, t: seq<W>, u: seq<W>, rounds: nat, x: nat)
    requires 2 * x < rounds && Mirrored(s, t, rounds, x) && Swapped(t, u, 4 * x, 4 * (rounds - x))
    ensures Mirrored(s, u, rounds, x + 1)
  {
    forall r | 0 <= r <= rounds
      ensures RoundKey(u, r) == RoundKey(s, if r < x + 1 || rounds - x - 1 < r then rounds - r else r)
    {
      SwappedKey(t, u, x, rounds - x, r);
    }
  }

  ghost predicate Reversed<W>(s: seq<W>, t: seq<W>, rounds: nat) {
    && 4 * rounds + 4 <= |s| == |t|
    && (forall r :: 0 <= r <= rounds ==> RoundKey(t, r) == RoundKey(s, rounds - r))
  }

  lemma MirrorDone<W>(s: seq<W>, t: seq<W>, rounds: nat, x: nat)
    requires Mirrored(s, t, rounds, x) && rounds <= 2 * x <= rounds + 1
    ensures Reversed(s, t, rounds)
  {}

  /** The first loop of AES_set_decrypt_key: round keys in reverse order. */
  method ReverseKeys<W>(rk: array<W>, rounds: nat)
    requires 4 * rounds + 4 <= rk.Length
    modifies rk
    ensures Reversed(old(rk[..]), rk[..], rounds)
  {
    ghost var was := rk[..];
    var i, j := 0, 4 * rounds;
    ghost var x := 0;
    while i < j
      invariant i == 4 * x && j == 4 * (rounds - x) && 2 * x <= rounds + 1
      invariant Mirrored(was, rk[..], rounds, x)
    {
      ghost var before := rk[..];
      SwapKeys(rk, i, j);
      MirrorStep(was, before, rk[..], rounds, x);
      i := i + 4;
      j := j - 4;
      x := x + 1;
    }
    MirrorDone(was, rk[..], rounds, x);
  }

  /** Applies a line to every word of round key i. */
  method TransformKey<W>(line: W -> W, rk: array<W>, i: nat)
    requires 4 * i + 4 <= rk.Length
    modifies rk
    ensures forall r :: 0 <= r && 4 * r + 4 <= rk.Length ==>
      RoundKey(rk[..], r) == if r == i then MapWords(line, RoundKey(old(rk[..]), r)) else RoundKey(old(rk[..]), r)
  {
    var p := 4 * i;
    rk[p] := line(rk[p]);
    rk[p + 1] := line(rk[p + 1]);
    rk[p + 2] := line(rk[p + 2]);
    rk[p + 3] := line(rk[p + 3]);
  }

  /** The second loop of AES_set_decrypt_key: all round keys but the first and the last. */
  method TransformKeys<W>(line: W -> W, rk: array<W>, rounds: nat)
    requires 4 * rounds + 4 <= rk.Length
    modifies rk
    ensures forall r :: 0 <= r <= rounds ==>
      RoundKey(rk[..], r) == if 0 < r < rounds then MapWords(line, RoundKey(old(rk[..]), r))
        else RoundKey(old(rk[..]), r)
  {
    ghost var was := rk[..];
    var i := 1;
    while i < rounds
      invariant 1 <= i && (i <= rounds || i == 1)
      invariant forall r :: 0 <= r <= rounds ==>
        RoundKey(rk[..], r) == if 0 < r < i then MapWords(line, RoundKey(was, r)) else RoundKey(was, r)
    {
      TransformKey(line, rk, i);
      i := i + 1;
    }
  }

  /** AES_set_decrypt_key. */
  method SetDecryptKey(t: Tables, ghost b: SBox, userKey: array?<bv8>, bits: int, key: AesKey?) returns (status: int)
    requires t.Built(b)
    requires userKey != null && KeyBits(bits) ==> userKey.Length * 8 >= bits
    requires key != null ==> key.Valid()
    modifies key, if key != null then {key.rdKey} else {}
    ensures status == (if userKey == null || key == null then -1 else if !KeyBits(bits) then -2 else 0)
    ensures key != null ==> key.rdKey == old(key.rdKey)
    ensures status != 0 && key != null ==> key.rounds == old(key.rounds) && key.rdKey[..] == old(key.rdKey[..])
    ensures status == 0 ==> key.Valid() && key.rounds == RoundsFor(bits / 32)
    ensures status == 0 ==> key.Keys() == DecryptionKeys(KeyTransform(Gf(b)), EncryptionKeys(b, userKey[..], bits / 32))
  {
    status := SetEncryptKey(t, b, userKey, bits, key);
    if status < 0 {
      return;
    }
    ghost var enc := key.rdKey[..];
    ReverseKeys(key.rdKey, key.rounds);
    TransformKeys(InvMixOn(t), key.rdKey, key.rounds);
    InvertedKeys(t, b, enc, key.rdKey[..], key.rounds);
  }

  /** dec holds the round keys of enc in reverse, the inner ones sent through a line. */
  ghost predicate Turned<W>(line: W -> W, enc: seq<W>, dec: seq<W>, rounds: nat) {
    && 4 * rounds + 4 <= |enc| == |dec|
    && (forall r :: 0 <= r <= rounds ==>
      RoundKey(dec, r) == if 0 < r < rounds then MapWords(line, RoundKey(enc, rounds - r))
        else RoundKey(enc, rounds - r))
  }

  lemma InvertedKeys(t: Tables, b: SBox, enc: seq<bv32>, dec: seq<bv32>, rounds: nat)
    requires t.Built(b) && rounds >= 1 && 4 * rounds + 4 <= |enc| == |dec|
    requires Turned(InvMixOn(t), enc, dec, rounds)
    ensures ViewKeys(View(ToColumn), WordKeys(dec, rounds)) ==
      DecryptionKeys(KeyTransform(Gf(b)), ViewKeys(View(ToColumn), WordKeys(enc, rounds)))
  {
    forall k ensures Transforms(InvMixOn(t), View(ToColumn), KeyTransform(Gf(b)), k) {
      InvMixWordsView(t, b, k);
    }
    InvertedView(InvMixOn(t), View(ToColumn), KeyTransform(Gf(b)), enc, dec, rounds);
  }

  ghost predicate Transforms<W, K>(line: W -> W, view: Words<W> -> K, inv: K -> K, k: Words<W>) {
    view(MapWords(line, k)) == inv(view(k))
  }

  lemma InvertedView<W(!new), K>(line: W -> W, view: Words<W> -> K, inv: K -> K, enc: seq<W>, dec: seq<W>, rounds: nat)
    requires rounds >= 1 && 4 * rounds + 4 <= |enc| == |dec|
    requires forall k :: Transforms(line, view, inv, k)
    requires Turned(line, enc, dec, rounds)
    ensures ViewKeys(view, WordKeys(dec, rounds)) == DecryptionKeys(inv, ViewKeys(view, WordKeys(enc, rounds)))
  {
    var (d, e) := (ViewKeys(view, WordKeys(dec, rounds)), DecryptionKeys(inv, ViewKeys(view, WordKeys(enc, rounds))));
    forall i | 0 <= i < rounds - 1
      ensures d.inner[i] == e.inner[i]
    {
      assert Transforms(line, view, inv, RoundKey(enc, rounds - (i + 1)));
      assert RoundKey(dec, i + 1) == MapWords(line, RoundKey(enc, rounds - (i + 1)));
    }
  }
}
