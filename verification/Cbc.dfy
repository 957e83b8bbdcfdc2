/**
 * Cipher block chaining (section 6.2 of NIST SP 800-38A) as AES_cbc_encrypt does it
 * (qemu/aes.c:1265-1314): any length, a short last block padded with zeros, and an
 * initialisation vector that is carried from one call to the next.
 */
module Cbc {
  import opened Splices

  const BLOCK_SIZE: nat := 16

  datatype Cipher<!T> = Cipher(zero: T, xor: (T, T) -> T, enc: seq<T> -> seq<T>, dec: seq<T> -> seq<T>) {
    ghost predicate SizedAt(s: seq<T>) { |s| == BLOCK_SIZE ==> |enc(s)| == BLOCK_SIZE && |dec(s)| == BLOCK_SIZE }
    ghost predicate Undoes(s: seq<T>) { |s| == BLOCK_SIZE ==> dec(enc(s)) == s }
    ghost predicate Cancels(x: T, y: T) { xor(xor(x, y), y) == x }
  }

  ghost predicate Sized<T(!new)>(c: Cipher<T>) { forall s :: c.SizedAt(s) }

  ghost predicate Sound<T(!new)>(c: Cipher<T>) {
    Sized(c) && (forall s :: c.Undoes(s)) && (forall x, y :: c.Cancels(x, y))
  }

  function XorAll<T>(c: Cipher<T>, s: seq<T>, t: seq<T>): (r: seq<T>)
    requires |s| == |t|
    ensures |r| == |s|
  {
    seq(|s|, i requires 0 <= i < |s| => c.xor(s[i], t[i]))
  }

  function Padded<T>(c: Cipher<T>, s: seq<T>): (r: seq<T>)
    requires |s| <= BLOCK_SIZE
    ensures |r| == BLOCK_SIZE
  {
    s + seq(BLOCK_SIZE - |s|, _ => c.zero)
  }

  /** The length of the ciphertext of n bytes. */
  function PaddedLength(n: nat): (r: nat)
    ensures n <= r < n + BLOCK_SIZE
    ensures r == 0 || r >= BLOCK_SIZE
  {
    if n == 0 then 0 else if n < BLOCK_SIZE then BLOCK_SIZE else BLOCK_SIZE + PaddedLength(n - BLOCK_SIZE)
  }

  ghost function EncryptOne<T(!new)>(c: Cipher<T>, iv: seq<T>, p: seq<T>): (r: seq<T>)
    requires Sized(c) && |iv| == BLOCK_SIZE && |p| <= BLOCK_SIZE
    ensures |r| == BLOCK_SIZE
  {
    assert c.SizedAt(XorAll(c, Padded(c, p), iv));
    c.enc(XorAll(c, Padded(c, p), iv))
  }

  ghost function DecryptOne<T(!new)>(c: Cipher<T>, iv: seq<T>, e: seq<T>): (r: seq<T>)
    requires Sized(c) && |iv| == BLOCK_SIZE == |e|
    ensures |r| == BLOCK_SIZE
  {
    assert c.SizedAt(e);
    XorAll(c, c.dec(e), iv)
  }

  /** What encrypting p writes. */
  ghost function Encrypted<T(!new)>(c: Cipher<T>, iv: seq<T>, p: seq<T>): (r: seq<T>)
    requires Sized(c) && |iv| == BLOCK_SIZE
    ensures |r| == PaddedLength(|p|)
    decreases |p|
  {
    if |p| == 0 then []
    else if |p| < BLOCK_SIZE then EncryptOne(c, iv, p)
    else
      var e := EncryptOne(c, iv, p[..BLOCK_SIZE]);
      e + Encrypted(c, e, p[BLOCK_SIZE..])
  }

  /** What decrypting e to n bytes writes. */
  ghost function Decrypted<T(!new)>(c: Cipher<T>, iv: seq<T>, e: seq<T>, n: nat): (r: seq<T>)
    requires Sized(c) && |iv| == BLOCK_SIZE && |e| >= PaddedLength(n)
    ensures |r| == n
    decreases n
  {
    if n == 0 then []
    else if n < BLOCK_SIZE then DecryptOne(c, iv, e[..BLOCK_SIZE])[..n]
    else DecryptOne(c, iv, e[..BLOCK_SIZE]) + Decrypted(c, e[..BLOCK_SIZE], e[BLOCK_SIZE..], n - BLOCK_SIZE)
  }

  /** The vector left behind by encryption: the last ciphertext block. */
  function Carried<T>(iv: seq<T>, e: seq<T>): (r: seq<T>)
    requires |iv| == BLOCK_SIZE
    ensures |r| == BLOCK_SIZE
  {
    if |e| < BLOCK_SIZE then iv else e[|e| - BLOCK_SIZE..]
  }

  lemma CarriedOn<T>(iv: seq<T>, e: seq<T>, rest: seq<T>)
    requires |iv| == BLOCK_SIZE == |e| && (|rest| == 0 || |rest| >= BLOCK_SIZE)
    ensures Carried(iv, e + rest) == Carried(e, rest)
  {}

  lemma OneBack<T(!new)>(c: Cipher<T>, iv: seq<T>, p: seq<T>)
    requires Sound(c) && |iv| == BLOCK_SIZE && |p| <= BLOCK_SIZE
    ensures DecryptOne(c, iv, EncryptOne(c, iv, p))[..|p|] == p
  {
    var q := Padded(c, p);
    var x := XorAll(c, q, iv);
    assert c.SizedAt(x) && c.Undoes(x);
    forall i | 0 <= i < BLOCK_SIZE
      ensures XorAll(c, x, iv)[i] == q[i]
    {
      assert c.Cancels(q[i], iv[i]);
    }
  }

  /** Decryption under the same vector returns the plaintext, whatever its length. */
  lemma {:induction false} CbcRoundTrip<T(!new)>(c: Cipher<T>, iv: seq<T>, p: seq<T>)
    requires Sound(c) && |iv| == BLOCK_SIZE
    ensures Decrypted(c, iv, Encrypted(c, iv, p), |p|) == p
    decreases |p|
  {
    if |p| == 0 {
    } else if |p| < BLOCK_SIZE {
      OneBack(c, iv, p);
      var e := EncryptOne(c, iv, p);
      assert e[..BLOCK_SIZE] == e;
    } else {
      var e := EncryptOne(c, iv, p[..BLOCK_SIZE]);
      var rest := Encrypted(c, e, p[BLOCK_SIZE..]);
      OneBack(c, iv, p[..BLOCK_SIZE]);
      CbcRoundTrip(c, e, p[BLOCK_SIZE..]);
      assert (e + rest)[..BLOCK_SIZE] == e && (e + rest)[BLOCK_SIZE..] == rest;
    }
  }

  ghost predicate WholeBlocks<T>(p: seq<T>) { |p| % BLOCK_SIZE == 0 }

  lemma FewerBlocks<T>(p: seq<T>)
    requires WholeBlocks(p) && |p| > 0
    ensures |p| >= BLOCK_SIZE && WholeBlocks(p[BLOCK_SIZE..])
  {}

  lemma SplitFirst<T>(p: seq<T>, q: seq<T>)
    requires |p| >= BLOCK_SIZE
    ensures (p + q)[..BLOCK_SIZE] == p[..BLOCK_SIZE]
    ensures (p + q)[BLOCK_SIZE..] == p[BLOCK_SIZE..] + q
    ensures p == p[..BLOCK_SIZE] + p[BLOCK_SIZE..]
  {}

  /** Two calls that carry the vector encrypt like one, when the first covers whole blocks. */
  lemma {:induction false} EncryptionChains<T(!new)>(c: Cipher<T>, iv: seq<T>, p: seq<T>, q: seq<T>)
    requires Sized(c) && |iv| == BLOCK_SIZE && WholeBlocks(p)
    ensures Encrypted(c, iv, p + q) == Encrypted(c, iv, p) + Encrypted(c, Carried(iv, Encrypted(c, iv, p)), q)
    decreases |p|
  {
    if |p| == 0 {
      assert p + q == q;
    } else {
      FewerBlocks(p);
      SplitFirst(p, q);
      var e := EncryptOne(c, iv, p[..BLOCK_SIZE]);
      EncryptionChains(c, e, p[BLOCK_SIZE..], q);
      var rest := Encrypted(c, e, p[BLOCK_SIZE..]);
      CarriedOn(iv, e, rest);
      Associates(e, rest, Encrypted(c, Carried(e, rest), q));
    }
  }

  /** The same for decryption. */
  lemma {:induction false} DecryptionChains<T(!new)>(c: Cipher<T>, iv: seq<T>, e: seq<T>, f: seq<T>, n: nat)
    requires Sized(c) && |iv| == BLOCK_SIZE && WholeBlocks(e) && |f| >= PaddedLength(n)
    ensures PaddedLength(|e|) == |e| && PaddedLength(|e| + n) == |e| + PaddedLength(n)
    ensures Decrypted(c, iv, e + f, |e| + n) == Decrypted(c, iv, e, |e|) + Decrypted(c, Carried(iv, e), f, n)
    decreases |e|
  {
    hide Splice, DecryptOne;
    if |e| == 0 {
      assert e + f == f;
    } else {
      FewerBlocks(e);
      SplitFirst(e, f);
      var first := e[..BLOCK_SIZE];
      DecryptionChains(c, first, e[BLOCK_SIZE..], f, n);
      CarriedOn(iv, first, e[BLOCK_SIZE..]);
      Associates(DecryptOne(c, iv, first), Decrypted(c, first, e[BLOCK_SIZE..], |e| - BLOCK_SIZE),
        Decrypted(c, Carried(iv, e), f, n));
    }
  }
}
