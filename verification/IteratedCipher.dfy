/**
 * A block cipher seen from far away: keyed rounds on an abstract state, a key addition
 * in front and a special last round, and steps back that retrace the steps forth.
 */
module IteratedCipher {

  datatype Rounds<!S, !K> = Rounds(
    add: (S, K) -> S,      // the key addition in front, both ways
    enc: (S, K) -> S,      // an inner round
    dec: (S, K) -> S,      // an inner round of decryption, on a transformed key
    encLast: (S, K) -> S,
    decLast: (S, K) -> S)
  {
    // `mid` is what the last round does before its key addition, `inv` transforms inner keys.
    ghost predicate FirstBack(mid: S -> S, s: S, k: K) { add(encLast(s, k), k) == mid(s) }
    ghost predicate StepBack(mid: S -> S, inv: K -> K, s: S, k: K) { dec(mid(enc(s, k)), inv(k)) == mid(s) }
    ghost predicate LastBack(mid: S -> S, s: S, k: K) { decLast(mid(add(s, k)), k) == s }
  }

  ghost predicate Retraces<S(!new), K(!new)>(c: Rounds<S, K>, mid: S -> S, inv: K -> K) {
    && (forall s, k :: c.FirstBack(mid, s, k))
    && (forall s, k :: c.StepBack(mid, inv, s, k))
    && (forall s, k :: c.LastBack(mid, s, k))
  }

  /** r keyed steps in a row. */
  function Iterate<S, K>(step: (S, K) -> S, s: S, keys: seq<K>, r: nat): S
    requires r <= |keys|
  {
    if r == 0 then s else step(Iterate(step, s, keys, r - 1), keys[r - 1])
  }

  /** A key schedule; the number of rounds is |inner| + 1. */
  datatype Schedule<K> = Schedule(first: K, inner: seq<K>, last: K)

  function Encrypt<S, K>(c: Rounds<S, K>, block: S, keys: Schedule<K>): S {
    c.encLast(Iterate(c.enc, c.add(block, keys.first), keys.inner, |keys.inner|), keys.last)
  }

  function Decrypt<S, K>(c: Rounds<S, K>, block: S, keys: Schedule<K>): S {
    c.decLast(Iterate(c.dec, c.add(block, keys.first), keys.inner, |keys.inner|), keys.last)
  }

  /** The decryption schedule: the round keys reversed, the inner ones transformed. */
  function DecryptionKeys<K>(inv: K -> K, keys: Schedule<K>): Schedule<K> {
    var n := |keys.inner|;
    Schedule(keys.last, seq(n, i requires 0 <= i < n => inv(keys.inner[n - 1 - i])), keys.first)
  }

  /**
   * The heart of the argument: r steps back from the image of the last state lead to the
   * image of the state r steps earlier.
   */
  lemma {:induction false} Retrace<S(!new), K(!new)>(
      c: Rounds<S, K>, mid: S -> S, inv: K -> K, s: S, keys: Schedule<K>, r: nat)
    requires Retraces(c, mid, inv) && r <= |keys.inner|
    ensures var n := |keys.inner|;
      Iterate(c.dec, mid(Iterate(c.enc, s, keys.inner, n)), DecryptionKeys(inv, keys).inner, r)
        == mid(Iterate(c.enc, s, keys.inner, n - r))
  {
    if r > 0 {
      Retrace(c, mid, inv, s, keys, r - 1);
      var n := |keys.inner|;
      assert c.StepBack(mid, inv, Iterate(c.enc, s, keys.inner, n - r), keys.inner[n - r]);
    }
  }

  /** Decryption under the derived schedule undoes encryption, for any number of rounds. */
  lemma DecryptUndoesEncrypt<S(!new), K(!new)>(c: Rounds<S, K>, mid: S -> S, inv: K -> K, block: S, keys: Schedule<K>)
    requires Retraces(c, mid, inv)
    ensures Decrypt(c, Encrypt(c, block, keys), DecryptionKeys(inv, keys)) == block
  {
    var n := |keys.inner|;
    var first := c.add(block, keys.first);
    Retrace(c, mid, inv, first, keys, n);
    assert c.FirstBack(mid, Iterate(c.enc, first, keys.inner, n), keys.last);
    assert c.LastBack(mid, block, keys.first);
  }

  // One cipher seen through another: `view` carries the rounds of c to those of d.

  ghost predicate Commutes<S, S'>(c: Rounds<S, S>, d: Rounds<S', S'>, view: S -> S', s: S, k: S) {
    && view(c.add(s, k)) == d.add(view(s), view(k))
    && view(c.enc(s, k)) == d.enc(view(s), view(k))
    && view(c.dec(s, k)) == d.dec(view(s), view(k))
    && view(c.encLast(s, k)) == d.encLast(view(s), view(k))
    && view(c.decLast(s, k)) == d.decLast(view(s), view(k))
  }

  function ViewKeys<K, K'>(view: K -> K', keys: Schedule<K>): Schedule<K'> {
    Schedule(view(keys.first), seq(|keys.inner|, i requires 0 <= i < |keys.inner| => view(keys.inner[i])),
      view(keys.last))
  }

  lemma {:induction false} ViewIterate<S(!new), S'>(
      c: Rounds<S, S>, d: Rounds<S', S'>, view: S -> S', s: S, keys: Schedule<S>, r: nat)
    requires forall s, k :: Commutes(c, d, view, s, k)
    requires r <= |keys.inner|
    ensures view(Iterate(c.enc, s, keys.inner, r)) == Iterate(d.enc, view(s), ViewKeys(view, keys).inner, r)
    ensures view(Iterate(c.dec, s, keys.inner, r)) == Iterate(d.dec, view(s), ViewKeys(view, keys).inner, r)
  {
    if r > 0 {
      ViewIterate(c, d, view, s, keys, r - 1);
      assert Commutes(c, d, view, Iterate(c.enc, s, keys.inner, r - 1), keys.inner[r - 1]);
      assert Commutes(c, d, view, Iterate(c.dec, s, keys.inner, r - 1), keys.inner[r - 1]);
    }
  }

  /** Whole runs of the two ciphers agree through the view. */
  lemma ViewCipher<S(!new), S'>(c: Rounds<S, S>, d: Rounds<S', S'>, view: S -> S', s: S, keys: Schedule<S>)
    requires forall s, k :: Commutes(c, d, view, s, k)
    ensures view(Encrypt(c, s, keys)) == Encrypt(d, view(s), ViewKeys(view, keys))
    ensures view(Decrypt(c, s, keys)) == Decrypt(d, view(s), ViewKeys(view, keys))
  {
    var n := |keys.inner|;
    assert Commutes(c, d, view, s, keys.first);
    ViewIterate(c, d, view, c.add(s, keys.first), keys, n);
    assert Commutes(c, d, view, Iterate(c.enc, c.add(s, keys.first), keys.inner, n), keys.last);
    assert Commutes(c, d, view, Iterate(c.dec, c.add(s, keys.first), keys.inner, n), keys.last);
  }
}
