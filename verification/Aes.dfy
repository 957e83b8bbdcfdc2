/**
 * The block functions of qemu/aes.c, as table-driven code over arrays, proved to write
 * what FIPS 197 says.
 */
module Aes {
  import opened IteratedCipher
  import opened Rijndael
  import opened WordCipher
  import opened AesTables
  import opened Splices

  // Blocks of 16 bytes (GETU32 and PUTU32 at the ends of the block functions).

  function Get(s: seq<bv8>, i: nat): bv32
    requires i + 4 <= |s|
  {
    Word(s[i], s[i + 1], s[i + 2], s[i + 3])
  }

  function WordsAt(s: seq<bv8>, i: nat): Words<bv32>
    requires i + 16 <= |s|
  {
    Words(Get(s, i), Get(s, i + 4), Get(s, i + 8), Get(s, i + 12))
  }

  function ColumnAt(s: seq<bv8>, i: nat): Column<bv8>
    requires i + 4 <= |s|
  {
    Column(s[i], s[i + 1], s[i + 2], s[i + 3])
  }

  function FromBlock(s: seq<bv8>): State<bv8>
    requires |s| == 16
  {
    State(ColumnAt(s, 0), ColumnAt(s, 4), ColumnAt(s, 8), ColumnAt(s, 12))
  }

  function ColumnBytes(c: Column<bv8>): (s: seq<bv8>)
    ensures |s| == 4
  {
    [c.b0, c.b1, c.b2, c.b3]
  }

  function ToBlock(s: State<bv8>): (r: seq<bv8>)
    ensures |r| == 16
  {
    ColumnBytes(s.c0) + ColumnBytes(s.c1) + ColumnBytes(s.c2) + ColumnBytes(s.c3)
  }

  lemma BlockState(s: seq<bv8>, t: State<bv8>)
    requires |s| == 16
    ensures ToBlock(FromBlock(s)) == s
    ensures FromBlock(ToBlock(t)) == t
  {}

  lemma ViewWordsAt(s: seq<bv8>, i: nat)
    requires i + 16 <= |s|
    ensures View(ToColumn)(WordsAt(s, i)) == FromBlock(s[i..i + 16])
  {
    WordBytes(ColumnAt(s, i), 0);
    WordBytes(ColumnAt(s, i + 4), 0);
    WordBytes(ColumnAt(s, i + 8), 0);
    WordBytes(ColumnAt(s, i + 12), 0);
  }

  /** What AES_encrypt writes, by FIPS 197. */
  function EncryptBlock(b: SBox, block: seq<bv8>, keys: Schedule<State<bv8>>): (r: seq<bv8>)
    requires |block| == 16
    ensures |r| == 16
  {
    ToBlock(Encrypt(AesRounds(Gf(b)), FromBlock(block), keys))
  }

  /** What AES_decrypt writes, by section 5.3.5 of FIPS 197. */
  function DecryptBlock(b: SBox, block: seq<bv8>, keys: Schedule<State<bv8>>): (r: seq<bv8>)
    requires |block| == 16
    ensures |r| == 16
  {
    ToBlock(Decrypt(AesRounds(Gf(b)), FromBlock(block), keys))
  }

  /** Round key i of a word array. */
  function RoundKey<W>(rk: seq<W>, i: nat): Words<W>
    requires 4 * i + 4 <= |rk|
  {
    Words(rk[4 * i], rk[4 * i + 1], rk[4 * i + 2], rk[4 * i + 3])
  }

  function WordKeys<W>(rk: seq<W>, rounds: nat): Schedule<Words<W>>
    requires rounds >= 1 && 4 * rounds + 4 <= |rk|
  {
    Schedule(RoundKey(rk, 0), seq(rounds - 1, i requires 0 <= i < rounds - 1 => RoundKey(rk, i + 1)),
      RoundKey(rk, rounds))
  }

  /** struct aes_key_st (qemu/aes.h:7-11). */
  class AesKey {
    var rdKey: array<bv32>
    var rounds: nat

    ghost predicate Valid()
      reads this
    {
      rdKey.Length == 60 && (rounds == 10 || rounds == 12 || rounds == 14)
    }

    ghost function Keys(): Schedule<State<bv8>>
      requires Valid()
      reads this, rdKey
    {
      ViewKeys(View(ToColumn), WordKeys(rdKey[..], rounds))
    }

    constructor ()
      ensures Valid() && fresh(rdKey)
    {
      rdKey := new bv32[60];
      rounds := 10;
    }
  }

  // The rounds as the code's lines compute them; loops are proved for any such cipher.

  ghost predicate LinesAt(t: Tables, c: Rounds<Words<bv32>, Words<bv32>>, s: Words<bv32>, k: Words<bv32>) {
    && c.add(s, k) == XorWords(XorWord, s, k)
    && c.enc(s, k) == Forward(CodeLines(t).enc, s, k)
    && c.dec(s, k) == Backward(CodeLines(t).dec, s, k)
    && c.encLast(s, k) == Forward(CodeLines(t).encLast, s, k)
    && c.decLast(s, k) == Backward(CodeLines(t).decLast, s, k)
  }

  ghost predicate Runs(t: Tables, c: Rounds<Words<bv32>, Words<bv32>>) {
    forall s, k :: LinesAt(t, c, s, k)
  }

  lemma RunsExist(t: Tables, b: SBox) returns (c: Rounds<Words<bv32>, Words<bv32>>)
    requires t.Built(b)
    ensures Runs(t, c)
    ensures forall s, k :: Commutes(c, AesRounds(Gf(b)), View(ToColumn), s, k)
  {
    c := WordRounds(CodeLines(t));
    CodeFits(t, b);
    RoundsCommute(CodeLines(t), Gf(b), ToColumn);
  }

  lemma WordsRefine(b: SBox, c: Rounds<Words<bv32>, Words<bv32>>, s: seq<bv8>, i: nat, keys: Schedule<Words<bv32>>)
    requires forall s, k :: Commutes(c, AesRounds(Gf(b)), View(ToColumn), s, k)
    requires i + 16 <= |s|
    ensures ToBlock(View(ToColumn)(Encrypt(c, WordsAt(s, i), keys))) ==
      EncryptBlock(b, s[i..i + 16], ViewKeys(View(ToColumn), keys))
    ensures ToBlock(View(ToColumn)(Decrypt(c, WordsAt(s, i), keys))) ==
      DecryptBlock(b, s[i..i + 16], ViewKeys(View(ToColumn), keys))
  {
    ViewCipher(c, AesRounds(Gf(b)), View(ToColumn), WordsAt(s, i), keys);
    ViewWordsAt(s, i);
  }

  /** The four lines of one inner round of AES_encrypt. */
  method EncryptStep(t: Tables, ghost c: Rounds<Words<bv32>, Words<bv32>>, s: Words<bv32>, k: Words<bv32>)
      returns (r: Words<bv32>)
    requires Runs(t, c)
    ensures r == c.enc(s, k)
  {
    var t0 := t.EncryptLine(s.w0, s.w1, s.w2, s.w3, k.w0);
    var t1 := t.EncryptLine(s.w1, s.w2, s.w3, s.w0, k.w1);
    var t2 := t.EncryptLine(s.w2, s.w3, s.w0, s.w1, k.w2);
    var t3 := t.EncryptLine(s.w3, s.w0, s.w1, s.w2, k.w3);
    r := Words(t0, t1, t2, t3);
    assert LinesAt(t, c, s, k);
  }

  /** The four lines of one inner round of AES_decrypt. */
  method DecryptStep(t: Tables, ghost c: Rounds<Words<bv32>, Words<bv32>>, s: Words<bv32>, k: Words<bv32>)
      returns (r: Words<bv32>)
    requires Runs(t, c)
    ensures r == c.dec(s, k)
  {
    var t0 := t.DecryptLine(s.w0, s.w3, s.w2, s.w1, k.w0);
    var t1 := t.DecryptLine(s.w1, s.w0, s.w3, s.w2, k.w1);
    var t2 := t.DecryptLine(s.w2, s.w1, s.w0, s.w3, k.w2);
    var t3 := t.DecryptLine(s.w3, s.w2, s.w1, s.w0, k.w3);
    r := Words(t0, t1, t2, t3);
    assert LinesAt(t, c, s, k);
  }

  /** The loop of AES_encrypt: two rounds per iteration, leaving in the middle of the last one. */
  method EncryptLoop(t: Tables, ghost c: Rounds<Words<bv32>, Words<bv32>>, first: Words<bv32>, key: AesKey)
      returns (u: Words<bv32>, p: nat)
    requires Runs(t, c) && key.Valid()
    ensures p == 4 * key.rounds
    ensures u == Iterate(c.enc, first, WordKeys(key.rdKey[..], key.rounds).inner, key.rounds - 1)
  {
    ghost var inner := WordKeys(key.rdKey[..], key.rounds).inner;
    var rk := key.rdKey;
    var s := first;
    var r := key.rounds / 2;
    p := 0;
    while true
      invariant 1 <= r && p + 8 * r == 4 * key.rounds
      invariant s == Iterate(c.enc, first, inner, key.rounds - 2 * r)
      decreases r
    {
      u := EncryptStep(t, c, s, Words(rk[p + 4], rk[p + 5], rk[p + 6], rk[p + 7]));
      assert inner[key.rounds - 2 * r] == Words(rk[p + 4], rk[p + 5], rk[p + 6], rk[p + 7]);
      p := p + 8;
      r := r - 1;
      if r == 0 {
        break;
      }
      s := EncryptStep(t, c, u, Words(rk[p], rk[p + 1], rk[p + 2], rk[p + 3]));
      assert inner[key.rounds - 2 * r - 1] == Words(rk[p], rk[p + 1], rk[p + 2], rk[p + 3]);
    }
  }

  /** The loop of AES_decrypt. */
  method DecryptLoop(t: Tables, ghost c: Rounds<Words<bv32>, Words<bv32>>, first: Words<bv32>, key: AesKey)
      returns (u: Words<bv32>, p: nat)
    requires Runs(t, c) && key.Valid()
    ensures p == 4 * key.rounds
    ensures u == Iterate(c.dec, first, WordKeys(key.rdKey[..], key.rounds).inner, key.rounds - 1)
  {
    ghost var inner := WordKeys(key.rdKey[..], key.rounds).inner;
    var rk := key.rdKey;
    var s := first;
    var r := key.rounds / 2;
    p := 0;
    while true
      invariant 1 <= r && p + 8 * r == 4 * key.rounds
      invariant s == Iterate(c.dec, first, inner, key.rounds - 2 * r)
      decreases r
    {
      u := DecryptStep(t, c, s, Words(rk[p + 4], rk[p + 5], rk[p + 6], rk[p + 7]));
      assert inner[key.rounds - 2 * r] == Words(rk[p + 4], rk[p + 5], rk[p + 6], rk[p + 7]);
      p := p + 8;
      r := r - 1;
      if r == 0 {
        break;
      }
      s := DecryptStep(t, c, u, Words(rk[p], rk[p + 1], rk[p + 2], rk[p + 3]));
      assert inner[key.rounds - 2 * r - 1] == Words(rk[p], rk[p + 1], rk[p + 2], rk[p + 3]);
    }
  }

  /** PUTU32. */
  method Put(out: array<bv8>, i: nat, w: bv32)
    requires i + 4 <= out.Length
    modifies out
    ensures out[..] == Splice(old(out[..]), i, ColumnBytes(ToColumn(w)))
  {
    out[i] := Byte0(w);
    out[i + 1] := Byte1(w);
    out[i + 2] := Byte2(w);
    out[i + 3] := Byte3(w);
  }

  method PutWords(out: array<bv8>, i: nat, w: Words<bv32>)
    requires i + 16 <= out.Length
    modifies out
    ensures out[..] == Splice(old(out[..]), i, ToBlock(View(ToColumn)(w)))
  {
    ghost var was := out[..];
    Put(out, i, w.w0);
    Put(out, i + 4, w.w1);
    Put(out, i + 8, w.w2);
    Put(out, i + 12, w.w3);
    FourSplices(was, i, View(ToColumn)(w));
  }

  lemma FourSplices(s: seq<bv8>, i: nat, t: State<bv8>)
    requires i + 16 <= |s|
    ensures Splice(Splice(Splice(Splice(s, i, ColumnBytes(t.c0)), i + 4, ColumnBytes(t.c1)), i + 8, ColumnBytes(t.c2)),
      i + 12, ColumnBytes(t.c3))
         == Splice(s, i, ToBlock(t))
  {
    SpliceTwice(s, i, ColumnBytes(t.c0), ColumnBytes(t.c1));
    SpliceTwice(s, i, ColumnBytes(t.c0) + ColumnBytes(t.c1), ColumnBytes(t.c2));
    SpliceTwice(s, i, ColumnBytes(t.c0) + ColumnBytes(t.c1) + ColumnBytes(t.c2), ColumnBytes(t.c3));
  }

  /** The last four lines of AES_encrypt. */
  method LastEncryptStep(t: Tables, ghost c: Rounds<Words<bv32>, Words<bv32>>, u: Words<bv32>, k: Words<bv32>)
      returns (r: Words<bv32>)
    requires Runs(t, c)
    ensures r == c.encLast(u, k)
  {
    var s0 := t.LastEncryptLine(u.w0, u.w1, u.w2, u.w3, k.w0);
    var s1 := t.LastEncryptLine(u.w1, u.w2, u.w3, u.w0, k.w1);
    var s2 := t.LastEncryptLine(u.w2, u.w3, u.w0, u.w1, k.w2);
    var s3 := t.LastEncryptLine(u.w3, u.w0, u.w1, u.w2, k.w3);
    r := Words(s0, s1, s2, s3);
    assert LinesAt(t, c, u, k);
  }

  /** The last four lines of AES_decrypt. */
  method LastDecryptStep(t: Tables, ghost c: Rounds<Words<bv32>, Words<bv32>>, u: Words<bv32>, k: Words<bv32>)
      returns (r: Words<bv32>)
    requires Runs(t, c)
    ensures r == c.decLast(u, k)
  {
    var s0 := t.LastDecryptLine(u.w0, u.w3, u.w2, u.w1, k.w0);
    var s1 := t.LastDecryptLine(u.w1, u.w0, u.w3, u.w2, k.w1);
    var s2 := t.LastDecryptLine(u.w2, u.w1, u.w0, u.w3, k.w2);
    var s3 := t.LastDecryptLine(u.w3, u.w2, u.w1, u.w0, k.w3);
    r := Words(s0, s1, s2, s3);
    assert LinesAt(t, c, u, k);
  }

  /** The first four lines of both block functions. */
  method FirstStep(t: Tables, ghost c: Rounds<Words<bv32>, Words<bv32>>, s: Words<bv32>, k: Words<bv32>)
      returns (r: Words<bv32>)
    requires Runs(t, c)
    ensures r == c.add(s, k)
  {
    r := Words(XorWord(s.w0, k.w0), XorWord(s.w1, k.w1), XorWord(s.w2, k.w2), XorWord(s.w3, k.w3));
    assert LinesAt(t, c, s, k);
  }

  /** AES_encrypt between GETU32 and PUTU32. */
  method EncryptWords(t: Tables, ghost c: Rounds<Words<bv32>, Words<bv32>>, w: Words<bv32>, key: AesKey)
      returns (r: Words<bv32>)
    requires Runs(t, c) && key.Valid()
    ensures r == Encrypt(c, w, WordKeys(key.rdKey[..], key.rounds))
  {
    var rk := key.rdKey;
    var s := FirstStep(t, c, w, Words(rk[0], rk[1], rk[2], rk[3]));
    var u, p := EncryptLoop(t, c, s, key);
    r := LastEncryptStep(t, c, u, Words(rk[p], rk[p + 1], rk[p + 2], rk[p + 3]));
  }

  /** AES_decrypt between GETU32 and PUTU32. */
  method DecryptWords(t: Tables, ghost c: Rounds<Words<bv32>, Words<bv32>>, w: Words<bv32>, key: AesKey)
      returns (r: Words<bv32>)
    requires Runs(t, c) && key.Valid()
    ensures r == Decrypt(c, w, WordKeys(key.rdKey[..], key.rounds))
  {
    var rk := key.rdKey;
    var s := FirstStep(t, c, w, Words(rk[0], rk[1], rk[2], rk[3]));
    var u, p := DecryptLoop(t, c, s, key);
    r := LastDecryptStep(t, c, u, Words(rk[p], rk[p + 1], rk[p + 2], rk[p + 3]));
  }

  /** AES_encrypt: `input` and `out` may be one array, at any two offsets. */
  method EncryptAt(t: Tables, ghost b: SBox, input: array<bv8>, ip: nat, out: array<bv8>, op: nat, key: AesKey)
    requires t.Built(b) && key.Valid() && ip + 16 <= input.Length && op + 16 <= out.Length
    modifies out
    ensures out[..] == Splice(old(out[..]), op, EncryptBlock(b, old(input[..])[ip..ip + 16], old(key.Keys())))
  {
    ghost var c := RunsExist(t, b);
    var r := EncryptWords(t, c, WordsAt(input[..], ip), key);
    WordsRefine(b, c, input[..], ip, WordKeys(key.rdKey[..], key.rounds));
    PutWords(out, op, r);
  }

  /** AES_decrypt: `input` and `out` may be one array, at any two offsets. */
  method DecryptAt(t: Tables, ghost b: SBox, input: array<bv8>, ip: nat, out: array<bv8>, op: nat, key: AesKey)
    requires t.Built(b) && key.Valid() && ip + 16 <= input.Length && op + 16 <= out.Length
    modifies out
    ensures out[..] == Splice(old(out[..]), op, DecryptBlock(b, old(input[..])[ip..ip + 16], old(key.Keys())))
  {
    ghost var c := RunsExist(t, b);
    var r := DecryptWords(t, c, WordsAt(input[..], ip), key);
    WordsRefine(b, c, input[..], ip, WordKeys(key.rdKey[..], key.rounds));
    PutWords(out, op, r);
  }
}
