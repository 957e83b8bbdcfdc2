/** I/O vectors (qemu/cutils.c:136-235): lists of buffers that stand for one run of bytes. */
module IoVectors {

  function Flatten<T>(iov: seq<seq<T>>): seq<T> {
    if |iov| == 0 then [] else Flatten(iov[..|iov| - 1]) + iov[|iov| - 1]
  }

  lemma FlattenMore<T>(iov: seq<seq<T>>, buf: seq<T>)
    ensures Flatten(iov + [buf]) == Flatten(iov) + buf
  {
    assert (iov + [buf])[..|iov|] == iov;
  }

  lemma {:induction false} FlattenAppend<T>(a: seq<seq<T>>, b: seq<seq<T>>)
    ensures Flatten(a + b) == Flatten(a) + Flatten(b)
    decreases |b|
  {
    if |b| == 0 {
      assert a + b == a;
    } else {
      var front := b[..|b| - 1];
      FlattenAppend(a, front);
      assert a + b == (a + front) + [b[|b| - 1]];
      FlattenMore(a + front, b[|b| - 1]);
    }
  }

  function Take<T>(s: seq<T>, n: nat): seq<T> { if |s| < n then s else s[..n] }

  /** The buffers of src up to `limit` bytes, the last one cut to fit. */
  function Cut<T>(src: seq<seq<T>>, limit: nat): (r: seq<seq<T>>)
    ensures |r| <= |src|
  {
    if |src| == 0 || limit == 0 then []
    else if |src[0]| > limit then [src[0][..limit]]
    else [src[0]] + Cut(src[1..], limit - |src[0]|)
  }

  lemma FlattenOne<T>(buf: seq<T>)
    ensures Flatten([buf]) == buf
  {
    FlattenMore([], buf);
    assert [] + [buf] == [buf];
  }

  lemma FlattenFirst<T>(src: seq<seq<T>>)
    requires |src| > 0
    ensures Flatten(src) == src[0] + Flatten(src[1..])
  {
    FlattenOne(src[0]);
    FlattenAppend([src[0]], src[1..]);
    assert [src[0]] + src[1..] == src;
  }

  lemma TakePast<T>(a: seq<T>, b: seq<T>, n: nat)
    ensures |a| <= n ==> Take(a + b, n) == a + Take(b, n - |a|)
    ensures n <= |a| ==> Take(a + b, n) == a[..n]
  {}

  /** Cutting a vector takes a prefix of its bytes. */
  lemma {:induction false} FlattenCut<T>(src: seq<seq<T>>, limit: nat)
    ensures Flatten(Cut(src, limit)) == Take(Flatten(src), limit)
    decreases |src|
  {
    hide Flatten, Take;
    if |src| == 0 || limit == 0 {
      TakeNothing(Flatten(src), limit);
      NoBuffers<T>();
    } else {
      FlattenFirst(src);
      TakePast(src[0], Flatten(src[1..]), limit);
      if |src[0]| > limit {
        FlattenOne(src[0][..limit]);
      } else {
        FlattenCut(src[1..], limit - |src[0]|);
        FlattenFirst(Cut(src, limit));
        assert Cut(src, limit)[1..] == Cut(src[1..], limit - |src[0]|);
      }
    }
  }

  lemma NoBuffers<T>()
    ensures Flatten<T>([]) == []
  {}

  lemma TakeNothing<T>(s: seq<T>, n: nat)
    ensures s == [] || n == 0 ==> Take(s, n) == []
  {}

  class IoVector<T> {
    var iov: seq<seq<T>>
    var size: nat

    ghost predicate Valid()
      reads this
    {
      size == |Flatten(iov)|
    }

    /** qemu_iovec_init. */
    constructor ()
      ensures Valid() && iov == []
    {
      iov, size := [], 0;
    }

    /** qemu_iovec_add. */
    method Add(base: seq<T>)
      requires Valid()
      modifies this
      ensures Valid() && iov == old(iov) + [base]
    {
      FlattenMore(iov, base);
      iov := iov + [base];
      size := size + |base|;
    }

    /** qemu_iovec_concat. */
    method Concat(src: seq<seq<T>>, limit: nat)
      requires Valid()
      modifies this
      ensures Valid() && iov == old(iov) + Cut(src, limit)
    {
      hide Flatten;
      var i, done := 0, 0;
      assert src[0..] == src;
      while i < |src| && done != limit
        invariant Valid() && i <= |src| && done <= limit
        invariant iov + Cut(src[i..], limit - done) == old(iov) + Cut(src, limit)
      {
        ghost var rest := src[i..];
        assert rest[0] == src[i] && rest[1..] == src[i + 1..];
        if done + |src[i]| > limit {
          Add(src[i][..limit - done]);
          return;
        }
        assert iov + Cut(rest, limit - done) == (iov + [src[i]]) + Cut(rest[1..], limit - done - |src[i]|);
        Add(src[i]);
        done := done + |src[i]|;
        i := i + 1;
      }
      assert Cut(src[i..], limit - done) == [];
    }
  }
}
