/**
 * Feistel networks over an arbitrary word type: running the rounds again with the subkeys
 * reversed undoes them, whatever the round function is.
 */
module Feistel {

  datatype Halves<W> = Halves(left: W, right: W) {
    function Swap(): Halves<W> { Halves(right, left) }
  }

  datatype Network<!W, !K> = Network(xor: (W, W) -> W, f: (W, K) -> W) {
    ghost predicate Cancels(x: W, y: W) { xor(xor(x, y), y) == x }

    /** One round, with the halves changing places. */
    function Round(s: Halves<W>, k: K): Halves<W> { Halves(s.right, xor(s.left, f(s.right, k))) }
  }

  function Rounds<W, K>(n: Network<W, K>, s: Halves<W>, keys: seq<K>, r: nat): Halves<W>
    requires r <= |keys|
  {
    if r == 0 then s else n.Round(Rounds(n, s, keys, r - 1), keys[r - 1])
  }

  function Reverse<K>(keys: seq<K>): (r: seq<K>)
    ensures |r| == |keys|
  {
    seq(|keys|, i requires 0 <= i < |keys| => keys[|keys| - 1 - i])
  }

  lemma {:induction false} RoundsBack<W(!new), K>(n: Network<W, K>, s: Halves<W>, keys: seq<K>, r: nat)
    requires (forall x, y :: n.Cancels(x, y)) && r <= |keys|
    ensures Rounds(n, Rounds(n, s, keys, |keys|).Swap(), Reverse(keys), r) == Rounds(n, s, keys, |keys| - r).Swap()
  {
    if r > 0 {
      RoundsBack(n, s, keys, r - 1);
      var before := Rounds(n, s, keys, |keys| - r);
      assert n.Cancels(before.left, n.f(before.right, keys[|keys| - r]));
    }
  }

  /** The rounds under reversed keys, from the swapped state, lead to the swapped start. */
  lemma ReversedKeysUndo<W(!new), K>(n: Network<W, K>, s: Halves<W>, keys: seq<K>)
    requires forall x, y :: n.Cancels(x, y)
    ensures Rounds(n, Rounds(n, s, keys, |keys|).Swap(), Reverse(keys), |keys|) == s.Swap()
  {
    RoundsBack(n, s, keys, |keys|);
  }
}
