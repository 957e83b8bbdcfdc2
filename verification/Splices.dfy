/** Overwriting part of a sequence: what memcpy does to its destination. */
module Splices {

  function Splice<T>(s: seq<T>, i: nat, t: seq<T>): (r: seq<T>)
    requires i + |t| <= |s|
    ensures |r| == |s|
  {
    s[..i] + t + s[i + |t|..]
  }

  /** Two adjacent overwrites are one. */
  lemma SpliceTwice<T>(s: seq<T>, i: nat, t: seq<T>, u: seq<T>)
    requires i + |t| + |u| <= |s|
    ensures Splice(Splice(s, i, t), i + |t|, u) == Splice(s, i, t + u)
  {}

  lemma SpliceRead<T>(s: seq<T>, i: nat, t: seq<T>)
    requires i + |t| <= |s|
    ensures Splice(s, i, t)[i..i + |t|] == t
    ensures |s| == |t| ==> Splice(s, i, t) == t
  {}

  lemma Associates<T>(a: seq<T>, b: seq<T>, c: seq<T>)
    ensures (a + b) + c == a + (b + c)
  {}
}
