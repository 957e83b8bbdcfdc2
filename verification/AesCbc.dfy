/**
 * AES_cbc_encrypt (qemu/aes.c:1265-1314) over byte arrays, and the inverse law of the
 * whole cipher: key expansion, rounds and chaining together.
 */
module AesCbc {
  import opened IteratedCipher
  import opened Rijndael
  import opened AesTables
  import opened Splices
  import opened Aes
  import opened AesKeys
  import opened Cbc

  /** AES under an encryption and a decryption schedule. */
  function AesCipher(b: SBox, ek: Schedule<State<bv8>>, dk: Schedule<State<bv8>>): Cipher<bv8> {
    Cipher(
      0,
      XorByte,
      s => if |s| == BLOCK_SIZE then EncryptBlock(b, s, ek) else s,
      s => if |s| == BLOCK_SIZE then DecryptBlock(b, s, dk) else s)
  }

  lemma AesSized(b: SBox, ek: Schedule<State<bv8>>, dk: Schedule<State<bv8>>)
    ensures Sized(AesCipher(b, ek, dk))
  {}

  /** AES_decrypt under a schedule derived from that of AES_encrypt undoes it, for any round keys. */
  lemma DecryptBlockUndoes(b: SBox, keys: Schedule<State<bv8>>, block: seq<bv8>)
    requires Inverts(b) && |block| == 16
    ensures DecryptBlock(b, EncryptBlock(b, block, keys), DecryptionKeys(KeyTransform(Gf(b)), keys)) == block
  {
    var f := Gf(b);
    GfLaws(b);
    AesRetraces(f);
    DecryptUndoesEncrypt(AesRounds(f), Shifted(f), KeyTransform(f), FromBlock(block), keys);
    BlockState(block, Encrypt(AesRounds(f), FromBlock(block), keys));
  }

  /** The cipher of one user key: what the two key set-up functions make of it. */
  function KeyedCipher(b: SBox, key: seq<bv8>, nk: nat): Cipher<bv8>
    requires 0 < nk && 4 * nk <= |key|
  {
    AesCipher(b, EncryptionKeys(b, key, nk), DecryptionKeys(KeyTransform(Gf(b)), EncryptionKeys(b, key, nk)))
  }

  lemma XorCancels(x: bv8, y: bv8)
    ensures XorByte(XorByte(x, y), y) == x
  {}

  /** Every key gives a cipher that its own decryption undoes. */
  lemma KeyedCipherSound(b: SBox, key: seq<bv8>, nk: nat)
    requires Inverts(b) && 0 < nk && 4 * nk <= |key|
    ensures Sound(KeyedCipher(b, key, nk))
  {
    var c := KeyedCipher(b, key, nk);
    var keys := EncryptionKeys(b, key, nk);
    AesSized(b, keys, DecryptionKeys(KeyTransform(Gf(b)), keys));
    forall s ensures c.Undoes(s) {
      if |s| == BLOCK_SIZE {
        DecryptBlockUndoes(b, keys, s);
      }
    }
    forall x, y ensures c.Cancels(x, y) {
      XorCancels(x, y);
    }
  }

  /** CBC under any key returns the plaintext, for every length. */
  lemma AesCbcRoundTrip(b: SBox, key: seq<bv8>, nk: nat, iv: seq<bv8>, p: seq<bv8>)
    requires Inverts(b) && 0 < nk && 4 * nk <= |key| && |iv| == BLOCK_SIZE
    ensures Sized(KeyedCipher(b, key, nk))
    ensures var c := KeyedCipher(b, key, nk); Decrypted(c, iv, Encrypted(c, iv, p), |p|) == p
  {
    KeyedCipherSound(b, key, nk);
    CbcRoundTrip(KeyedCipher(b, key, nk), iv, p);
  }

  // The code.

  /** The first loop of each branch: n bytes of `input` from `ip`, added to the vector. */
  method XorInto<T>(ghost c: Cipher<T>, xor: (T, T) -> T, input: array<T>, ip: nat, ivec: array<T>, n: nat,
      out: array<T>, op: nat)
    requires xor == c.xor && ip + n <= input.Length && n <= ivec.Length && op + n <= out.Length
    requires ivec != out && (input == out ==> ip == op)
    modifies out
    ensures out[..] == Splice(old(out[..]), op, XorAll(c, old(input[..])[ip..ip + n], ivec[..n]))
  {
    ghost var was, src := out[..], input[..];
    var i := 0;
    while i < n
      invariant 0 <= i <= n
      invariant forall k :: 0 <= k < i ==> out[op + k] == xor(src[ip + k], ivec[k])
      invariant forall k :: 0 <= k < out.Length && !(op <= k < op + i) ==> out[k] == was[k]
      invariant forall k :: ip + i <= k < input.Length ==> input[k] == src[k]
    {
      out[op + i] := xor(input[ip + i], ivec[i]);
      i := i + 1;
    }
    XoredSplice(c, was, out[..], op, src[ip..ip + n], ivec[..n]);
  }

  lemma XoredSplice<T>(c: Cipher<T>, was: seq<T>, out: seq<T>, op: nat, s: seq<T>, t: seq<T>)
    requires |s| == |t| && op + |s| <= |was| == |out|
    requires forall k :: 0 <= k < |s| ==> out[op + k] == c.xor(s[k], t[k])
    requires forall k :: 0 <= k < |out| && !(op <= k < op + |s|) ==> out[k] == was[k]
    ensures out == Splice(was, op, XorAll(c, s, t))
  {
    forall k | 0 <= k < |out|
      ensures out[k] == Splice(was, op, XorAll(c, s, t))[k]
    {
      if op <= k < op + |s| {
        assert out[op + (k - op)] == c.xor(s[k - op], t[k - op]);
      }
    }
  }

  /** memcpy of one block between two arrays. */
  method CopyBlock<T>(dst: array<T>, dp: nat, src: array<T>, sp: nat)
    requires dp + BLOCK_SIZE <= dst.Length && sp + BLOCK_SIZE <= src.Length && dst != src
    modifies dst
    ensures dst[..] == Splice(old(dst[..]), dp, src[sp..sp + BLOCK_SIZE])
  {
    forall k | 0 <= k < BLOCK_SIZE {
      dst[dp + k] := src[sp + k];
    }
  }

  lemma XorZeros(y: bv8)
    ensures XorByte(0, y) == y
  {}

  /** tmp after the loops that add the vector to n bytes and copy it behind them. */
  lemma PaddedSum(c: Cipher<bv8>, p: seq<bv8>, iv: seq<bv8>, sum: seq<bv8>)
    requires c.xor == XorByte && c.zero == 0 && |iv| == BLOCK_SIZE == |sum| && |p| <= BLOCK_SIZE
    requires sum[..|p|] == XorAll(c, p, iv[..|p|])
    requires sum[|p|..] == iv[|p|..]
    ensures sum == XorAll(c, Padded(c, p), iv)
  {
    forall k | 0 <= k < BLOCK_SIZE
      ensures sum[k] == XorAll(c, Padded(c, p), iv)[k]
    {
      if k < |p| {
        assert sum[k] == sum[..|p|][k];
      } else {
        assert sum[k] == sum[|p|..][k - |p|] && iv[k] == iv[|p|..][k - |p|];
        XorZeros(iv[k]);
      }
    }
  }

  /** tmp := input ^ ivec for n bytes from pos, then the rest of ivec. */
  method SumBlock(ghost c: Cipher<bv8>, input: array<bv8>, pos: nat, n: nat, ivec: array<bv8>, tmp: array<bv8>)
    requires c.xor == XorByte && c.zero == 0
    requires tmp.Length == ivec.Length == BLOCK_SIZE && n <= BLOCK_SIZE && pos + n <= input.Length
    requires tmp != input && tmp != ivec
    modifies tmp
    ensures tmp[..] == XorAll(c, Padded(c, input[pos..pos + n]), ivec[..])
  {
    XorInto(c, XorByte, input, pos, ivec, n, tmp, 0);
    var i := n;
    while i < BLOCK_SIZE
      invariant n <= i <= BLOCK_SIZE
      invariant tmp[..n] == XorAll(c, input[pos..pos + n], ivec[..n])
      invariant forall k :: n <= k < i ==> tmp[k] == ivec[k]
    {
      tmp[i] := ivec[i];
      i := i + 1;
    }
    PaddedSum(c, input[pos..pos + n], ivec[..], tmp[..]);
  }

  lemma BlockSize()
    ensures BLOCK_SIZE == 16
  {}

  /** A whole block is encrypted straight into `out`, a padded one in place and then copied. */
  method EncryptSum(t: Tables, ghost b: SBox, tmp: array<bv8>, whole: bool, out: array<bv8>, pos: nat, key: AesKey)
    requires t.Built(b) && key.Valid() && tmp.Length == BLOCK_SIZE == 16 && pos + BLOCK_SIZE <= out.Length && tmp != out
    modifies tmp, out
    ensures out[..] == Splice(old(out[..]), pos, EncryptBlock(b, old(tmp[..]), key.Keys()))
  {
    hide *;
    assert tmp[..] == tmp[..][0..16];
    if whole {
      EncryptAt(t, b, tmp, 0, out, pos, key);
    } else {
      SpliceRead(tmp[..], 0, EncryptBlock(b, tmp[..], key.Keys()));
      EncryptAt(t, b, tmp, 0, tmp, 0, key);
      assert tmp[0..16] == tmp[..];
      CopyBlock(out, pos, tmp, 0);
    }
  }

  lemma SumIsOne(b: SBox, ek: Schedule<State<bv8>>, dk: Schedule<State<bv8>>, iv: seq<bv8>, p: seq<bv8>)
    requires |iv| == BLOCK_SIZE && |p| <= BLOCK_SIZE
    ensures AesCipher(b, ek, dk).xor == XorByte && AesCipher(b, ek, dk).zero == 0
    ensures var c := AesCipher(b, ek, dk);
      Sized(c) && EncryptBlock(b, XorAll(c, Padded(c, p), iv), ek) == EncryptOne(c, iv, p)
  {
    AesSized(b, ek, dk);
  }

  /** One encrypted block: the body of the loop, and, for n < 16, of the branch after it. */
  method EncryptStep(t: Tables, ghost b: SBox, ghost c: Cipher<bv8>, ghost dk: Schedule<State<bv8>>,
      input: array<bv8>, out: array<bv8>, pos: nat, n: nat, key: AesKey, ivec: array<bv8>, tmp: array<bv8>)
        returns (ghost e: seq<bv8>)
    requires t.Built(b) && key.Valid() && c == AesCipher(b, key.Keys(), dk) && Sized(c)
    requires tmp.Length == ivec.Length == BLOCK_SIZE && n <= BLOCK_SIZE
    requires pos + n <= input.Length && pos + BLOCK_SIZE <= out.Length
    requires tmp != input && tmp != ivec && tmp != out && ivec != out
    modifies tmp, out, ivec
    ensures e == EncryptOne(c, old(ivec[..]), old(input[pos..pos + n]))
    ensures out[..] == Splice(old(out[..]), pos, e)
    ensures ivec[..] == e
  {
    hide *;
    e := EncryptOne(c, ivec[..], input[pos..pos + n]);
    SumIsOne(b, key.Keys(), dk, ivec[..], input[pos..pos + n]);
    SumBlock(c, input, pos, n, ivec, tmp);
    BlockSize();
    EncryptSum(t, b, tmp, n == BLOCK_SIZE, out, pos, key);
    SpliceRead(old(out[..]), pos, e);
    SpliceRead(ivec[..], 0, e);
    CopyBlock(ivec, 0, out, pos);
  }

  /**
   * Part of the way through an encryption of `inp` over the buffer `was`: `out` holds the first
   * pos bytes of the ciphertext, `iv` is the vector now, and the rest of the input is still there.
   */
  ghost predicate Encrypting(c: Cipher<bv8>, iv0: seq<bv8>, inp: seq<bv8>, was: seq<bv8>,
      pos: nat, iv: seq<bv8>, input: seq<bv8>, out: seq<bv8>) {
    && Sized(c) && |iv0| == BLOCK_SIZE == |iv|
    && pos <= |inp| <= |input| && |out| == |was| && pos + PaddedLength(|inp| - pos) <= |was|
    && out[..pos] + Encrypted(c, iv, inp[pos..]) == Encrypted(c, iv0, inp)
    && iv == Carried(iv0, out[..pos])
    && out[pos..] == was[pos..]
    && input[pos..|inp|] == inp[pos..]
  }

  lemma CarriedBlock<T>(iv: seq<T>, e: seq<T>, rest: seq<T>)
    requires |iv| == BLOCK_SIZE == |rest|
    ensures Carried(iv, e + rest) == rest
  {}

  lemma SplicePrefix<T>(s: seq<T>, i: nat, t: seq<T>)
    requires i + |t| <= |s|
    ensures Splice(s, i, t)[..i + |t|] == s[..i] + t
    ensures Splice(s, i, t)[i + |t|..] == s[i + |t|..]
  {}

  lemma SpliceBehind<T>(s: seq<T>, i: nat, t: seq<T>, n: nat)
    requires i + |t| <= n <= |s|
    ensures Splice(s, i, t)[i + |t|..n] == s[i + |t|..n]
  {}

  lemma SpliceNothing<T>(s: seq<T>, i: nat)
    requires i <= |s|
    ensures Splice(s, i, []) == s
  {}

  lemma SpliceAll<T>(s: seq<T>, t: seq<T>, e: seq<T>)
    requires |s| == |t| && |e| <= |s| && s[..|e|] == e && s[|e|..] == t[|e|..]
    ensures s == Splice(t, 0, e)
  {}

  lemma DropMore<T>(s: seq<T>, t: seq<T>, i: nat, n: nat)
    requires i + n <= |s| == |t| && s[i..] == t[i..]
    ensures s[i + n..] == t[i + n..]
  {
    assert s[i..][n..] == s[i + n..] && t[i..][n..] == t[i + n..];
  }

  lemma EncryptOnward(c: Cipher<bv8>, iv0: seq<bv8>, inp: seq<bv8>, was: seq<bv8>,
      pos: nat, iv: seq<bv8>, input: seq<bv8>, out: seq<bv8>, input': seq<bv8>, e: seq<bv8>)
    requires Encrypting(c, iv0, inp, was, pos, iv, input, out) && pos + BLOCK_SIZE <= |inp| <= |input'|
    requires e == EncryptOne(c, iv, input[pos..pos + BLOCK_SIZE])
    requires input'[pos + BLOCK_SIZE..|inp|] == input[pos + BLOCK_SIZE..|inp|]
    ensures Encrypting(c, iv0, inp, was, pos + BLOCK_SIZE, e, input', Splice(out, pos, e))
  {
    assert inp[pos..][..BLOCK_SIZE] == input[pos..|inp|][..BLOCK_SIZE] == input[pos..pos + BLOCK_SIZE];
    assert inp[pos..][BLOCK_SIZE..] == inp[pos + BLOCK_SIZE..];
    assert input[pos..|inp|][BLOCK_SIZE..] == input[pos + BLOCK_SIZE..|inp|];
    Associates(out[..pos], e, Encrypted(c, e, inp[pos + BLOCK_SIZE..]));
    SplicePrefix(out, pos, e);
    DropMore(out, was, pos, BLOCK_SIZE);
    CarriedBlock(iv0, out[..pos], e);
  }

  lemma EncryptDone(c: Cipher<bv8>, iv0: seq<bv8>, inp: seq<bv8>, was: seq<bv8>,
      pos: nat, iv: seq<bv8>, input: seq<bv8>, out: seq<bv8>, e: seq<bv8>)
    requires Encrypting(c, iv0, inp, was, pos, iv, input, out) && |inp| < pos + BLOCK_SIZE
    requires e == if pos < |inp| then EncryptOne(c, iv, input[pos..|inp|]) else []
    ensures pos + |e| <= |out| && |Encrypted(c, iv0, inp)| <= |was|
    ensures Splice(out, pos, e) == Splice(was, 0, Encrypted(c, iv0, inp))
    ensures (if pos < |inp| then e else iv) == Carried(iv0, Encrypted(c, iv0, inp))
  {
    var all := Encrypted(c, iv0, inp);
    SplicePrefix(out, pos, e);
    DropMore(out, was, pos, |e|);
    assert all == out[..pos] + e;
    SpliceAll(Splice(out, pos, e), was, all);
    if pos < |inp| {
      CarriedBlock(iv0, out[..pos], e);
    }
  }

  lemma EncryptStart(c: Cipher<bv8>, iv0: seq<bv8>, inp: seq<bv8>, input: seq<bv8>, was: seq<bv8>)
    requires Sized(c) && |iv0| == BLOCK_SIZE && PaddedLength(|inp|) <= |was| && inp <= input
    ensures Encrypting(c, iv0, inp, was, 0, iv0, input, was)
  {}

  /** The encrypting branch of AES_cbc_encrypt. */
  method EncryptBranch(t: Tables, ghost b: SBox, ghost c: Cipher<bv8>, ghost dk: Schedule<State<bv8>>,
      input: array<bv8>, out: array<bv8>, length: nat, key: AesKey, ivec: array<bv8>)
    requires t.Built(b) && key.Valid() && c == AesCipher(b, key.Keys(), dk) && Sized(c)
    requires ivec.Length == BLOCK_SIZE && length <= input.Length && PaddedLength(length) <= out.Length
    requires ivec != input && ivec != out
    modifies out, ivec
    ensures |Encrypted(c, old(ivec[..]), old(input[..length]))| <= out.Length
    ensures out[..] == Splice(old(out[..]), 0, Encrypted(c, old(ivec[..]), old(input[..length])))
    ensures ivec[..] == Carried(old(ivec[..]), Encrypted(c, old(ivec[..]), old(input[..length])))
  {
    hide *;
    ghost var (iv0, inp, was) := (ivec[..], input[..length], out[..]);
    ghost var e: seq<bv8> := [];
    var tmp := new bv8[16];
    BlockSize();
    EncryptStart(c, iv0, inp, input[..], was);
    var pos, len := 0, length;
    while len >= 16
      invariant pos + len == length
      invariant Encrypting(c, iv0, inp, was, pos, ivec[..], input[..], out[..])
    {
      ghost var (iv1, input1, out1) := (ivec[..], input[..], out[..]);
      e := EncryptStep(t, b, c, dk, input, out, pos, 16, key, ivec, tmp);
      SpliceBehind(out1, pos, e, if |inp| <= |out1| then |inp| else |out1|);
      EncryptOnward(c, iv0, inp, was, pos, iv1, input1, out1, input[..], e);
      pos := pos + 16;
      len := len - 16;
    }
    if len > 0 {
      EncryptDone(c, iv0, inp, was, pos, ivec[..], input[..], out[..], EncryptOne(c, ivec[..], input[pos..length]));
      e := EncryptStep(t, b, c, dk, input, out, pos, len, key, ivec, tmp);
    } else {
      EncryptDone(c, iv0, inp, was, pos, ivec[..], input[..], out[..], []);
      SpliceNothing(out[..], pos);
    }
  }

  // Decryption.

  /** One block of the decrypting loop; `tmp` saves the ciphertext, so input and output may coincide. */
  method DecryptStep(t: Tables, ghost b: SBox, ghost c: Cipher<bv8>, ghost ek: Schedule<State<bv8>>,
      input: array<bv8>, out: array<bv8>, pos: nat, key: AesKey, ivec: array<bv8>, tmp: array<bv8>)
        returns (ghost p: seq<bv8>)
    requires t.Built(b) && key.Valid() && c == AesCipher(b, ek, key.Keys()) && Sized(c)
    requires tmp.Length == ivec.Length == BLOCK_SIZE
    requires pos + BLOCK_SIZE <= input.Length && pos + BLOCK_SIZE <= out.Length
    requires tmp != input && tmp != ivec && tmp != out && ivec != out && ivec != input
    modifies tmp, out, ivec
    ensures p == DecryptOne(c, old(ivec[..]), old(input[pos..pos + BLOCK_SIZE]))
    ensures out[..] == Splice(old(out[..]), pos, p)
    ensures ivec[..] == old(input[pos..pos + BLOCK_SIZE])
  {
    hide *;
    BlockSize();
    ghost var e := input[pos..pos + BLOCK_SIZE];
    p := DecryptOne(c, ivec[..], e);
    DecryptOneIs(b, ek, key.Keys(), ivec[..], e);
    CopyBlock(tmp, 0, input, pos);
    SpliceRead(old(tmp[..]), 0, e);
    SpliceRead(old(out[..]), pos, DecryptBlock(b, e, key.Keys()));
    SpliceOver(old(out[..]), pos, DecryptBlock(b, e, key.Keys()), p);
    assert input[..][pos..pos + 16] == e;
    DecryptAt(t, b, input, pos, out, pos, key);
    assert ivec[..BLOCK_SIZE] == ivec[..];
    XorInto(c, XorByte, out, pos, ivec, BLOCK_SIZE, out, pos);
    SpliceRead(ivec[..], 0, e);
    assert tmp[0..BLOCK_SIZE] == e;
    CopyBlock(ivec, 0, tmp, 0);
  }

  lemma SpliceOver<T>(s: seq<T>, i: nat, t: seq<T>, u: seq<T>)
    requires |t| == |u| && i + |t| <= |s|
    ensures Splice(Splice(s, i, t), i, u) == Splice(s, i, u)
  {}

  lemma DecryptOneIs(b: SBox, ek: Schedule<State<bv8>>, dk: Schedule<State<bv8>>, iv: seq<bv8>, e: seq<bv8>)
    requires |iv| == BLOCK_SIZE == |e|
    ensures AesCipher(b, ek, dk).xor == XorByte && Sized(AesCipher(b, ek, dk))
    ensures DecryptOne(AesCipher(b, ek, dk), iv, e) == XorAll(AesCipher(b, ek, dk), DecryptBlock(b, e, dk), iv)
    ensures AesCipher(b, ek, dk).dec(e) == DecryptBlock(b, e, dk)
  {
    AesSized(b, ek, dk);
  }

  /** The short block at the end of a decryption: `tmp` and not the ciphertext becomes the vector. */
  method DecryptTail(t: Tables, ghost b: SBox, ghost c: Cipher<bv8>, ghost ek: Schedule<State<bv8>>,
      input: array<bv8>, out: array<bv8>, pos: nat, n: nat, key: AesKey, ivec: array<bv8>, tmp: array<bv8>)
    requires t.Built(b) && key.Valid() && c == AesCipher(b, ek, key.Keys()) && Sized(c)
    requires tmp.Length == ivec.Length == BLOCK_SIZE && n <= BLOCK_SIZE
    requires pos + BLOCK_SIZE <= input.Length && pos + n <= out.Length
    requires tmp != input && tmp != ivec && tmp != out && ivec != out && ivec != input
    modifies tmp, out, ivec
    ensures out[..] == Splice(old(out[..]), pos, DecryptOne(c, old(ivec[..]), old(input[pos..pos + BLOCK_SIZE]))[..n])
    ensures ivec[..] == c.dec(old(input[pos..pos + BLOCK_SIZE]))
  {
    hide *;
    BlockSize();
    ghost var e := input[pos..pos + BLOCK_SIZE];
    ghost var d := DecryptBlock(b, e, key.Keys());
    DecryptOneIs(b, ek, key.Keys(), ivec[..], e);
    CopyBlock(tmp, 0, input, pos);
    SpliceRead(old(tmp[..]), 0, e);
    SpliceRead(e, 0, d);
    assert tmp[..][0..16] == e;
    DecryptAt(t, b, tmp, 0, tmp, 0, key);
    assert tmp[..] == d && tmp[..][0..n] == d[..n];
    XorPrefix(c, d, ivec[..], n);
    XorInto(c, XorByte, tmp, 0, ivec, n, out, pos);
    SpliceRead(ivec[..], 0, d);
    assert tmp[0..BLOCK_SIZE] == d;
    CopyBlock(ivec, 0, tmp, 0);
  }

  lemma XorPrefix<T>(c: Cipher<T>, s: seq<T>, t: seq<T>, n: nat)
    requires |s| == |t| && n <= |s|
    ensures XorAll(c, s, t)[..n] == XorAll(c, s[..n], t[..n])
  {}

  ghost predicate WholeCount(pos: nat) { pos % BLOCK_SIZE == 0 }

  /** Part of the way through a decryption of `inp` to n bytes over the buffer `was`. */
  ghost predicate Decrypting(c: Cipher<bv8>, iv0: seq<bv8>, inp: seq<bv8>, n: nat, was: seq<bv8>,
      pos: nat, iv: seq<bv8>, input: seq<bv8>, out: seq<bv8>) {
    && Sized(c) && |iv0| == BLOCK_SIZE == |iv|
    && WholeCount(pos) && pos <= n <= |was| == |out| &&
      pos + PaddedLength(n - pos) == PaddedLength(n) == |inp| <= |input|
    && out[..pos] + Decrypted(c, iv, inp[pos..], n - pos) == Decrypted(c, iv0, inp, n)
    && iv == Carried(iv0, inp[..pos])
    && out[pos..] == was[pos..]
    && input[pos..|inp|] == inp[pos..]
  }

  lemma DecryptOnward(c: Cipher<bv8>, iv0: seq<bv8>, inp: seq<bv8>, n: nat, was: seq<bv8>,
      pos: nat, iv: seq<bv8>, input: seq<bv8>, out: seq<bv8>, input': seq<bv8>, p: seq<bv8>)
    requires Decrypting(c, iv0, inp, n, was, pos, iv, input, out) && pos + BLOCK_SIZE <= n && |inp| <= |input'|
    requires p == DecryptOne(c, iv, input[pos..pos + BLOCK_SIZE])
    requires input'[pos + BLOCK_SIZE..|inp|] == input[pos + BLOCK_SIZE..|inp|]
    ensures Decrypting(c, iv0, inp, n, was, pos + BLOCK_SIZE, input[pos..pos + BLOCK_SIZE], input', Splice(out, pos, p))
  {
    var e := input[pos..pos + BLOCK_SIZE];
    assert inp[pos..][..BLOCK_SIZE] == input[pos..|inp|][..BLOCK_SIZE] == e;
    assert inp[pos..][BLOCK_SIZE..] == inp[pos + BLOCK_SIZE..];
    assert input[pos..|inp|][BLOCK_SIZE..] == input[pos + BLOCK_SIZE..|inp|];
    Associates(out[..pos], p, Decrypted(c, e, inp[pos + BLOCK_SIZE..], n - pos - BLOCK_SIZE));
    SplicePrefix(out, pos, p);
    DropMore(out, was, pos, BLOCK_SIZE);
    assert inp[..pos + BLOCK_SIZE] == inp[..pos] + e;
    CarriedBlock(iv0, inp[..pos], e);
  }

  lemma DecryptDone(c: Cipher<bv8>, iv0: seq<bv8>, inp: seq<bv8>, n: nat, was: seq<bv8>,
      pos: nat, iv: seq<bv8>, input: seq<bv8>, out: seq<bv8>)
    requires Decrypting(c, iv0, inp, n, was, pos, iv, input, out)
    ensures Splice(out, pos, Decrypted(c, iv, inp[pos..], n - pos)) == Splice(was, 0, Decrypted(c, iv0, inp, n))
  {
    var p := Decrypted(c, iv, inp[pos..], n - pos);
    SplicePrefix(out, pos, p);
    DropMore(out, was, pos, |p|);
    SpliceAll(Splice(out, pos, p), was, Decrypted(c, iv0, inp, n));
  }

  lemma DecryptRest(c: Cipher<bv8>, iv0: seq<bv8>, inp: seq<bv8>, n: nat, was: seq<bv8>,
      pos: nat, iv: seq<bv8>, input: seq<bv8>, out: seq<bv8>)
    requires Decrypting(c, iv0, inp, n, was, pos, iv, input, out) && n < pos + BLOCK_SIZE
    ensures pos == n ==> Decrypted(c, iv, inp[pos..], 0) == []
    ensures pos < n ==>
      pos + BLOCK_SIZE == |inp| &&
      Decrypted(c, iv, inp[pos..], n - pos) == DecryptOne(c, iv, input[pos..|inp|])[..n - pos]
  {
    if pos < n {
      assert inp[pos..][..BLOCK_SIZE] == input[pos..|inp|];
    }
  }

  lemma DecryptStart(c: Cipher<bv8>, iv0: seq<bv8>, inp: seq<bv8>, n: nat, input: seq<bv8>, was: seq<bv8>)
    requires Sized(c) && |iv0| == BLOCK_SIZE && n <= |was| && PaddedLength(n) == |inp| && inp <= input
    ensures Decrypting(c, iv0, inp, n, was, 0, iv0, input, was)
  {}

  /** The vector after decryption: the last ciphertext block, unless the last block was short. */
  function CarriedBack(c: Cipher<bv8>, iv: seq<bv8>, e: seq<bv8>, n: nat): seq<bv8>
    requires |iv| == BLOCK_SIZE
  {
    if n % BLOCK_SIZE == 0 then Carried(iv, e) else c.dec(Carried(iv, e))
  }

  lemma LastBlock(c: Cipher<bv8>, iv0: seq<bv8>, inp: seq<bv8>, n: nat, was: seq<bv8>,
      pos: nat, iv: seq<bv8>, input: seq<bv8>, out: seq<bv8>)
    requires Decrypting(c, iv0, inp, n, was, pos, iv, input, out) && n < pos + BLOCK_SIZE
    ensures pos == n ==> iv == CarriedBack(c, iv0, inp, n)
    ensures pos < n ==> pos + BLOCK_SIZE == |inp| && c.dec(input[pos..|inp|]) == CarriedBack(c, iv0, inp, n)
  {
    hide Decrypted, DecryptOne, Splice;
    if pos == n {
      assert inp == inp[..pos];
    } else {
      assert inp[|inp| - BLOCK_SIZE..] == inp[pos..];
    }
  }

  /** The decrypting branch of AES_cbc_encrypt. */
  method DecryptBranch(t: Tables, ghost b: SBox, ghost c: Cipher<bv8>, ghost ek: Schedule<State<bv8>>,
      input: array<bv8>, out: array<bv8>, length: nat, key: AesKey, ivec: array<bv8>)
    requires t.Built(b) && key.Valid() && c == AesCipher(b, ek, key.Keys()) && Sized(c)
    requires ivec.Length == BLOCK_SIZE && PaddedLength(length) <= input.Length && length <= out.Length
    requires ivec != input && ivec != out
    modifies out, ivec
    ensures out[..] == Splice(old(out[..]), 0, Decrypted(c, old(ivec[..]), old(input[..PaddedLength(length)]), length))
    ensures ivec[..] == CarriedBack(c, old(ivec[..]), old(input[..PaddedLength(length)]), length)
  {
    hide *;
    ghost var (iv0, inp, was) := (ivec[..], input[..PaddedLength(length)], out[..]);
    var tmp := new bv8[16];
    BlockSize();
    DecryptStart(c, iv0, inp, length, input[..], was);
    var pos, len := 0, length;
    while len >= 16
      invariant pos + len == length
      invariant Decrypting(c, iv0, inp, length, was, pos, ivec[..], input[..], out[..])
    {
      ghost var (iv1, input1, out1) := (ivec[..], input[..], out[..]);
      ghost var p := DecryptStep(t, b, c, ek, input, out, pos, key, ivec, tmp);
      SpliceBehind(out1, pos, p, if |inp| <= |out1| then |inp| else |out1|);
      DecryptOnward(c, iv0, inp, length, was, pos, iv1, input1, out1, input[..], p);
      pos := pos + 16;
      len := len - 16;
    }
    LastBlock(c, iv0, inp, length, was, pos, ivec[..], input[..], out[..]);
    DecryptRest(c, iv0, inp, length, was, pos, ivec[..], input[..], out[..]);
    DecryptDone(c, iv0, inp, length, was, pos, ivec[..], input[..], out[..]);
    if len > 0 {
      DecryptTail(t, b, c, ek, input, out, pos, len, key, ivec, tmp);
    } else {
      SpliceNothing(out[..], pos);
    }
  }

  /** AES_cbc_encrypt; `input` and `out` may be one array. */
  method CbcCrypt(t: Tables, ghost b: SBox, ghost c: Cipher<bv8>, ghost other: Schedule<State<bv8>>,
      input: array<bv8>, out: array<bv8>, length: nat, key: AesKey, ivec: array<bv8>, enc: bool)
    requires t.Built(b) && key.Valid() && Sized(c)
    requires c == if enc then AesCipher(b, key.Keys(), other) else AesCipher(b, other, key.Keys())
    requires ivec.Length == BLOCK_SIZE
    requires if enc then length <= input.Length && PaddedLength(length) <= out.Length
             else PaddedLength(length) <= input.Length && length <= out.Length
    requires ivec != input && ivec != out
    modifies out, ivec
    ensures enc ==> out[..] == Splice(old(out[..]), 0, Encrypted(c, old(ivec[..]), old(input[..length])))
    ensures enc ==> ivec[..] == Carried(old(ivec[..]), Encrypted(c, old(ivec[..]), old(input[..length])))
    ensures !enc ==> out[..] == Splice(old(out[..]), 0,
      Decrypted(c, old(ivec[..]), old(input[..PaddedLength(length)]), length))
    ensures !enc ==> ivec[..] == CarriedBack(c, old(ivec[..]), old(input[..PaddedLength(length)]), length)
  {
    hide *;
    if enc {
      EncryptBranch(t, b, c, other, input, out, length, key, ivec);
    } else {
      DecryptBranch(t, b, c, other, input, out, length, key, ivec);
    }
  }

  method Fill<T>(a: array<T>, s: seq<T>)
    requires |s| == a.Length
    modifies a
    ensures a[..] == s
  {
    forall i | 0 <= i < |s| {
      a[i] := s[i];
    }
  }

  lemma KeyedCipherOf(b: SBox, key: seq<bv8>, nk: nat)
    requires 0 < nk && 4 * nk <= |key|
    ensures KeyedCipher(b, key, nk) == AesCipher(b, EncryptionKeys(b, key, nk),
      DecryptionKeys(KeyTransform(Gf(b)), EncryptionKeys(b, key, nk)))
  {}

  lemma KeySize(bits: int)
    requires KeyBits(bits)
    ensures 0 < bits / 32 && bits / 32 * 32 == bits
  {}

  lemma TablesInvert(t: Tables, b: SBox)
    requires t.Built(b)
    ensures Inverts(b)
  {}

  lemma SplicedHead<T>(s: seq<T>, t: seq<T>)
    requires |t| <= |s|
    ensures Splice(s, 0, t)[..|t|] == t
  {}

  /**
   * A message taken through the code both ways: keys set up from one user key, encrypted in
   * place, decrypted in place with the same vector.
   */
  method ThereAndBack(t: Tables, ghost b: SBox, userKey: array<bv8>, bits: int, message: array<bv8>, length: nat,
      iv: seq<bv8>)
    requires t.Built(b) && KeyBits(bits) && userKey.Length * 8 >= bits
    requires PaddedLength(length) <= message.Length && |iv| == BLOCK_SIZE && userKey != message
    modifies message
    ensures message[..length] == old(message[..length])
  {
    hide *;
    BlockSize();
    KeySize(bits);
    ghost var c := KeyedCipher(b, userKey[..], bits / 32);
    KeyedCipherOf(b, userKey[..], bits / 32);
    TablesInvert(t, b);
    AesCbcRoundTrip(b, userKey[..], bits / 32, iv, message[..length]);
    var ek := new AesKey();
    var status := SetEncryptKey(t, b, userKey, bits, ek);
    var dk := new AesKey();
    status := SetDecryptKey(t, b, userKey, bits, dk);
    var ivec := new bv8[16];
    Fill(ivec, iv);
    ghost var e := Encrypted(c, iv, message[..length]);
    SplicedHead(message[..], e);
    CbcCrypt(t, b, c, dk.Keys(), message, message, length, ek, ivec, true);
    assert message[..PaddedLength(length)] == e;
    Fill(ivec, iv);
    SplicedHead(message[..], old(message[..length]));
    CbcCrypt(t, b, c, ek.Keys(), message, message, length, dk, ivec, false);
  }
}
