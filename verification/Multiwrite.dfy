/** Merging of write requests (qemu/block.c:1646-1715) and why it leaves the disk as it would be. */
module Multiwrite {
  import opened BlockDefs
  import opened Splices
  import opened IoVectors

  const IOV_MAX: nat := 1024

  /** The parts of a BlockRequest that merging looks at; the vector is given by its buffers. */
  datatype Request<T> = Request(sector: nat, nbSectors: nat, qiov: seq<seq<T>>) {
    function End(): nat { sector + nbSectors }
    function Data(): seq<T> { Flatten(qiov) }

    /** The vector holds exactly the sectors of the request. */
    ghost predicate Sound() { |Data()| == nbSectors * SECTOR_SIZE && nbSectors > 0 }
  }

  predicate ShouldMerge<T>(hook: (Request<T>, Request<T>) -> bool, a: Request<T>, r: Request<T>) {
    (r.sector <= a.End() || hook(a, r)) && |a.qiov| + |r.qiov| + 1 <= IOV_MAX
  }

  /** The zeros between two requests. */
  function Gap<T>(zero: T, a: Request<T>, r: Request<T>): seq<T> {
    if r.sector > a.End() then seq((r.sector - a.End()) * SECTOR_SIZE, _ => zero) else []
  }

  const TWO_TO_64: nat := 0x1_0000_0000_0000_0000

  /** The bytes kept of the first request: a difference of sectors as a size_t, huge if it is negative. */
  function Limit<T>(a: Request<T>, r: Request<T>): nat {
    if a.sector <= r.sector then (r.sector - a.sector) * SECTOR_SIZE
      else (r.sector - a.sector) * SECTOR_SIZE % TWO_TO_64
  }

  /** Two requests merged, as the code does it. */
  function Join<T>(zero: T, a: Request<T>, r: Request<T>): Request<T> {
    Request(
      a.sector,
      a.nbSectors + r.nbSectors,
      Cut(a.qiov, Limit(a, r)) + (if r.sector > a.End() then [Gap(zero, a, r)] else []) + Cut(r.qiov, |r.Data()|))
  }

  /** The first request up to the start of the second, zeros for any gap, and the second. */
  lemma JoinData<T>(zero: T, a: Request<T>, r: Request<T>)
    ensures Join(zero, a, r).Data() == Take(a.Data(), Limit(a, r)) + Gap(zero, a, r) + r.Data()
    ensures a.sector <= r.sector ==> Limit(a, r) == (r.sector - a.sector) * SECTOR_SIZE
    ensures |Join(zero, a, r).qiov| <= |a.qiov| + |r.qiov| + 1
  {
    hide Flatten, Cut, Take;
    var limit := Limit(a, r);
    var gap: seq<seq<T>> := if r.sector > a.End() then [Gap(zero, a, r)] else [];
    FlattenCut(a.qiov, limit);
    FlattenCut(r.qiov, |r.Data()|);
    TakeAll(r.Data());
    FlattenAppend(Cut(a.qiov, limit) + gap, Cut(r.qiov, |r.Data()|));
    FlattenAppend(Cut(a.qiov, limit), gap);
    FlattenOne(Gap(zero, a, r));
    NoBuffers<T>();
  }

  lemma TakeAll<T>(s: seq<T>)
    ensures Take(s, |s|) == s
  {}

  // The order that qsort leaves.

  ghost predicate Sorted<T>(s: seq<Request<T>>) {
    forall i, j :: 0 <= i < j < |s| ==> s[i].sector <= s[j].sector
  }

  /** What is left of a number in a 32-bit int. */
  function Int32(x: int): int { (x + 0x8000_0000) % 0x1_0000_0000 - 0x8000_0000 }

  /** multiwrite_req_compare: a difference of 64-bit sectors, returned as an int. */
  function Compare<T>(a: Request<T>, b: Request<T>): int { Int32(a.sector - b.sector) }

  /** What sorting leaves: by the comparison, no request is behind its successor. */
  ghost predicate Ordered<T>(s: seq<Request<T>>) {
    forall i :: 0 < i < |s| ==> Compare(s[i - 1], s[i]) <= 0
  }

  /** The distance of two sectors survives the int. */
  predicate Near<T>(a: Request<T>, b: Request<T>) { 0 < (b.sector - a.sector) % 0x1_0000_0000 < 0x8000_0000 }

  /** The comparison tells a request from a later one exactly if the distance survives the int. */
  lemma CompareIffNear<T>(a: Request<T>, b: Request<T>)
    requires a.sector < b.sector
    ensures Compare(b, a) > 0 <==> Near(a, b)
    ensures Compare(a, b) < 0 && Compare(b, a) > 0 <==> Near(a, b)
  {}

  /** No two requests of a batch start at sectors whose distance the int loses. */
  ghost predicate AllNear<T>(s: seq<Request<T>>) {
    forall i, j :: 0 <= i < |s| && 0 <= j < |s| && s[i].sector < s[j].sector ==> Near(s[i], s[j])
  }

  /** Of two requests at different sectors, sorting is sure to leave the first in front exactly if they are near. */
  lemma PairSortedIffNear<T>(a: Request<T>, b: Request<T>)
    requires a.sector < b.sector
    ensures !Ordered([b, a]) <==> AllNear([a, b])
    ensures AllNear([a, b]) ==> Ordered([a, b])
  {
    CompareIffNear(a, b);
    if Near(a, b) {
      assert Compare([b, a][0], [b, a][1]) > 0;
    } else {
      assert !Near([a, b][0], [a, b][1]);
    }
  }

  /** Of a batch of near requests, what sorting leaves is in order of sectors. */
  lemma {:induction false} OrderedIsSorted<T>(s: seq<Request<T>>)
    requires AllNear(s) && Ordered(s)
    ensures Sorted(s)
    decreases |s|
  {
    if |s| > 1 {
      var front := s[..|s| - 1];
      forall i | 0 < i < |front|
        ensures Compare(front[i - 1], front[i]) <= 0
      {
        assert Compare(s[i - 1], s[i]) <= 0;
      }
      OrderedIsSorted(front);
      var (a, b) := (s[|s| - 2], s[|s| - 1]);
      assert Compare(a, b) <= 0;
      if b.sector < a.sector {
        CompareIffNear(b, a);
      }
      assert forall i :: 0 <= i < |front| ==> s[i] == front[i] && front[i].sector <= a.sector;
    }
  }

  /** The requests that merging leaves of a batch. */
  function Merged<T>(zero: T, hook: (Request<T>, Request<T>) -> bool, s: seq<Request<T>>): (m: seq<Request<T>>)
    requires |s| > 0
    ensures 0 < |m| <= |s|
  {
    if |s| == 1 then s
    else
      var m := Merged(zero, hook, s[..|s| - 1]);
      var (a, r) := (m[|m| - 1], s[|s| - 1]);
      if ShouldMerge(hook, a, r) then m[..|m| - 1] + [Join(zero, a, r)] else m + [r]
  }

  // The code.

  /** The branch of multiwrite_merge that merges. */
  method JoinRequests<T>(zero: T, a: Request<T>, r: Request<T>) returns (j: Request<T>)
    ensures j == Join(zero, a, r)
  {
    hide Flatten, Cut, Gap, Limit;
    var qiov := new IoVector<T>();
    qiov.Concat(a.qiov, Limit(a, r));
    if r.sector > a.End() {
      qiov.Add(Gap(zero, a, r));
    }
    qiov.Concat(r.qiov, |r.Data()|);
    j := Request(a.sector, a.nbSectors + r.nbSectors, qiov.iov);
    assert [] + Cut(a.qiov, Limit(a, r)) == Cut(a.qiov, Limit(a, r));
  }

  /** The last two of a batch: what one turn of the loop does. */
  lemma MergedStep<T>(zero: T, hook: (Request<T>, Request<T>) -> bool, s: seq<Request<T>>, i: nat)
    requires 0 < i < |s|
    ensures var (m, r) := (Merged(zero, hook, s[..i]), s[i]);
      Merged(zero, hook, s[..i + 1]) == (if ShouldMerge(hook, m[|m| - 1], r) then
        m[..|m| - 1] + [Join(zero, m[|m| - 1], r)] else m + [r])
  {
    hide Join, ShouldMerge;
    assert s[..i + 1][..i] == s[..i];
  }

  /** multiwrite_merge after its qsort, whatever that has left: the array is compacted in place. */
  method MergeRequests<T>(zero: T, hook: (Request<T>, Request<T>) -> bool, reqs: array<Request<T>>) returns (n: nat)
    requires reqs.Length > 0
    modifies reqs
    ensures n <= reqs.Length && reqs[..n] == Merged(zero, hook, old(reqs[..]))
  {
    hide Join, ShouldMerge, Merged;
    ghost var was := reqs[..];
    MergedOne(zero, hook, was);
    var i, outidx := 1, 0;
    while i < reqs.Length
      invariant 0 <= outidx < i <= reqs.Length
      invariant reqs[..outidx + 1] == Merged(zero, hook, was[..i])
      invariant forall k :: i <= k < reqs.Length ==> reqs[k] == was[k]
    {
      ghost var m := reqs[..outidx + 1];
      MergedStep(zero, hook, was, i);
      assert reqs[i] == was[i] && m[outidx] == reqs[outidx];
      if ShouldMerge(hook, reqs[outidx], reqs[i]) {
        reqs[outidx] := JoinRequests(zero, reqs[outidx], reqs[i]);
        assert reqs[..outidx + 1] == m[..outidx] + [reqs[outidx]];
      } else {
        outidx := outidx + 1;
        reqs[outidx] := reqs[i];
        assert reqs[..outidx + 1] == m + [was[i]];
      }
      i := i + 1;
    }
    assert was[..reqs.Length] == was;
    n := outidx + 1;
  }

  lemma MergedOne<T>(zero: T, hook: (Request<T>, Request<T>) -> bool, s: seq<Request<T>>)
    requires |s| > 0
    ensures Merged(zero, hook, s[..1]) == s[..1]
  {}

  // Writes to a disk of bytes.

  function Issue<T>(disk: seq<T>, r: Request<T>): (d: seq<T>)
    ensures |d| == |disk|
  {
    if r.sector * SECTOR_SIZE + |r.Data()| <= |disk| then Splice(disk, r.sector * SECTOR_SIZE, r.Data()) else disk
  }

  function IssueAll<T>(disk: seq<T>, s: seq<Request<T>>): (d: seq<T>)
    ensures |d| == |disk|
  {
    if |s| == 0 then disk else Issue(IssueAll(disk, s[..|s| - 1]), s[|s| - 1])
  }

  ghost predicate Batch<T>(s: seq<Request<T>>, n: nat) {
    forall i :: 0 <= i < |s| ==> s[i].Sound() && s[i].End() * SECTOR_SIZE <= n
  }

  ghost predicate Apart<T>(a: Request<T>, b: Request<T>) { a.End() <= b.sector || b.End() <= a.sector }

  ghost predicate Disjoint<T>(s: seq<Request<T>>) {
    forall i, j :: 0 <= i < j < |s| ==> Apart(s[i], s[j])
  }

  predicate NoHook<T>(a: Request<T>, r: Request<T>) { false }

  /** Of two disjoint requests, the merged one has the right length and writes the same bytes. */
  lemma JoinAbutting<T>(zero: T, disk: seq<T>, a: Request<T>, r: Request<T>)
    requires a.Sound() && r.Sound() && r.sector == a.End() && r.End() * SECTOR_SIZE <= |disk|
    ensures Join(zero, a, r).Sound() && Join(zero, a, r).End() == r.End()
    ensures Issue(disk, Join(zero, a, r)) == Issue(Issue(disk, a), r)
  {
    hide Flatten, Join, Limit;
    JoinShape(zero, a, r);
    JoinData(zero, a, r);
    TakeAll(a.Data());
    assert a.Data() + [] + r.Data() == a.Data() + r.Data();
    SpliceTwice(disk, a.sector * SECTOR_SIZE, a.Data(), r.Data());
  }

  lemma JoinShape<T>(zero: T, a: Request<T>, r: Request<T>)
    ensures Join(zero, a, r).sector == a.sector && Join(zero, a, r).nbSectors == a.nbSectors + r.nbSectors
  {}

  /** In general nb_sectors is a plain sum, which fits the merged vector exactly when the two abut. */
  lemma SizeIffAbutting<T>(zero: T, a: Request<T>, r: Request<T>)
    requires a.Sound() && r.Sound() && a.sector <= r.sector
    ensures Join(zero, a, r).Sound() <==> r.sector == a.End()
  {
    hide Flatten, Join, Limit;
    JoinShape(zero, a, r);
    JoinData(zero, a, r);
  }

  ghost predicate SortedApart<T>(s: seq<Request<T>>) {
    forall i, j :: 0 <= i < j < |s| ==> s[i].End() <= s[j].sector
  }

  /** What merging a sorted disjoint batch keeps: sizes, order, the last sector, and the disk. */
  ghost predicate SameWrites<T>(disk: seq<T>, s: seq<Request<T>>, m: seq<Request<T>>) {
    && |m| > 0 && |s| > 0
    && Batch(m, |disk|) && SortedApart(m) && m[|m| - 1].End() == s[|s| - 1].End()
    && IssueAll(disk, m) == IssueAll(disk, s)
  }

  lemma IssueMore<T>(disk: seq<T>, s: seq<Request<T>>, r: Request<T>)
    ensures IssueAll(disk, s + [r]) == Issue(IssueAll(disk, s), r)
  {
    assert (s + [r])[..|s|] == s;
  }

  lemma KeepApart<T>(disk: seq<T>, s: seq<Request<T>>, m: seq<Request<T>>, r: Request<T>)
    requires SameWrites(disk, s, m) && r.Sound() && r.End() * SECTOR_SIZE <= |disk| && s[|s| - 1].End() <= r.sector
    ensures SameWrites(disk, s + [r], m + [r])
  {
    hide Issue, IssueAll;
    IssueMore(disk, s, r);
    IssueMore(disk, m, r);
    forall i | 0 <= i < |m|
      ensures m[i].End() <= r.sector
    {
      assert m[i].End() <= m[|m| - 1].End();
    }
  }

  lemma MergeLast<T>(zero: T, disk: seq<T>, s: seq<Request<T>>, m: seq<Request<T>>, r: Request<T>)
    requires SameWrites(disk, s, m) && r.Sound() && r.End() * SECTOR_SIZE <= |disk| && m[|m| - 1].End() == r.sector
    ensures SameWrites(disk, s + [r], m[..|m| - 1] + [Join(zero, m[|m| - 1], r)])
  {
    hide Issue, IssueAll, Join;
    var (before, a) := (m[..|m| - 1], m[|m| - 1]);
    var j := Join(zero, a, r);
    assert a.Sound();
    JoinAbutting(zero, IssueAll(disk, before), a, r);
    JoinShape(zero, a, r);
    IssueMore(disk, s, r);
    IssueMore(disk, before, a);
    IssueMore(disk, before, j);
    assert before + [a] == m;
  }

  lemma MergeOne<T>(disk: seq<T>, s: seq<Request<T>>)
    requires |s| == 1 && Batch(s, |disk|) && SortedApart(s)
    ensures SameWrites(disk, s, s)
  {}

  lemma BatchFront<T>(disk: seq<T>, s: seq<Request<T>>)
    requires |s| > 1 && Batch(s, |disk|) && SortedApart(s)
    ensures Batch(s[..|s| - 1], |disk|) && SortedApart(s[..|s| - 1])
    ensures var r := s[|s| - 1]; r.Sound() && r.End() * SECTOR_SIZE <= |disk| && s[|s| - 2].End() <= r.sector
  {}

  lemma LastEnd<T>(disk: seq<T>, s: seq<Request<T>>, m: seq<Request<T>>)
    requires SameWrites(disk, s, m)
    ensures |m| > 0 && |s| > 0 && m[|m| - 1].End() == s[|s| - 1].End()
  {}

  lemma {:induction false} MergePreserves<T>(zero: T, disk: seq<T>, s: seq<Request<T>>)
    requires |s| > 0 && Batch(s, |disk|) && SortedApart(s)
    ensures SameWrites(disk, s, Merged(zero, NoHook, s))
  {
    hide Join, Issue, IssueAll, Batch, SortedApart, SameWrites;
    if |s| == 1 {
      MergeOne(disk, s);
    } else {
      var (front, r) := (s[..|s| - 1], s[|s| - 1]);
      BatchFront(disk, s);
      MergePreserves(zero, disk, front);
      var m := Merged(zero, NoHook, front);
      LastEnd(disk, front, m);
      assert front + [r] == s && front[|front| - 1] == s[|s| - 2];
      var a := m[|m| - 1];
      if ShouldMerge(NoHook, a, r) {
        MergeLast(zero, disk, front, m, r);
      } else {
        KeepApart(disk, front, m, r);
      }
    }
  }

  // The order in which disjoint requests are issued does not matter, so sorting is harmless.

  ghost predicate Covers<T>(r: Request<T>, k: nat) { r.sector * SECTOR_SIZE <= k < r.sector * SECTOR_SIZE + |r.Data()| }

  lemma IssueAt<T>(disk: seq<T>, r: Request<T>, k: nat)
    requires r.Sound() && r.End() * SECTOR_SIZE <= |disk| && k < |disk|
    ensures Issue(disk, r)[k] == if Covers(r, k) then r.Data()[k - r.sector * SECTOR_SIZE] else disk[k]
  {}

  lemma OneCover<T>(a: Request<T>, b: Request<T>, k: nat)
    requires a.Sound() && b.Sound() && Apart(a, b) && Covers(a, k)
    ensures !Covers(b, k)
  {}

  lemma {:induction false} CoveredByte<T>(disk: seq<T>, s: seq<Request<T>>, i: nat, k: nat)
    requires Batch(s, |disk|) && Disjoint(s) && i < |s| && k < |disk| && Covers(s[i], k)
    ensures IssueAll(disk, s)[k] == s[i].Data()[k - s[i].sector * SECTOR_SIZE]
    decreases |s|
  {
    hide Issue;
    var (front, r) := (s[..|s| - 1], s[|s| - 1]);
    IssueAt(IssueAll(disk, front), r, k);
    if i < |front| {
      assert Apart(s[i], r);
      OneCover(s[i], r, k);
      CoveredByte(disk, front, i, k);
    }
  }

  lemma {:induction false} UncoveredByte<T>(disk: seq<T>, s: seq<Request<T>>, k: nat)
    requires Batch(s, |disk|) && k < |disk| && forall i :: 0 <= i < |s| ==> !Covers(s[i], k)
    ensures IssueAll(disk, s)[k] == disk[k]
    decreases |s|
  {
    hide Issue;
    if |s| > 0 {
      IssueAt(IssueAll(disk, s[..|s| - 1]), s[|s| - 1], k);
      UncoveredByte(disk, s[..|s| - 1], k);
    }
  }

  lemma OrderDoesNotMatter<T>(disk: seq<T>, s: seq<Request<T>>, t: seq<Request<T>>)
    requires multiset(s) == multiset(t) && Batch(s, |disk|) && Disjoint(s) && Disjoint(t)
    ensures IssueAll(disk, s) == IssueAll(disk, t)
  {
    hide IssueAll;
    SameMembers(s, t);
    assert Batch(t, |disk|);
    forall k: nat | k < |disk|
      ensures IssueAll(disk, s)[k] == IssueAll(disk, t)[k]
    {
      if i :| 0 <= i < |s| && Covers(s[i], k) {
        var j :| 0 <= j < |t| && t[j] == s[i];
        CoveredByte(disk, s, i, k);
        CoveredByte(disk, t, j, k);
      } else {
        UncoveredByte(disk, s, k);
        UncoveredByte(disk, t, k);
      }
    }
  }

  lemma SameMembers<T>(s: seq<Request<T>>, t: seq<Request<T>>)
    requires multiset(s) == multiset(t)
    ensures forall r :: r in s <==> r in t
    ensures forall i :: 0 <= i < |s| ==> s[i] in t
    ensures forall i :: 0 <= i < |t| ==> t[i] in s
  {
    forall r ensures r in s <==> r in t {
      assert r in multiset(s) <==> r in multiset(t);
    }
  }

  lemma SortedDisjointIsApart<T>(s: seq<Request<T>>)
    requires Sorted(s) && Disjoint(s) && forall i :: 0 <= i < |s| ==> s[i].Sound()
    ensures SortedApart(s)
  {
    forall i, j | 0 <= i < j < |s|
      ensures s[i].End() <= s[j].sector
    {
      assert Apart(s[i], s[j]) && s[j].Sound();
    }
  }

  lemma TwiceInside<T>(s: seq<Request<T>>, i: nat, j: nat)
    requires i < j < |s| && s[i] == s[j]
    ensures multiset(s)[s[i]] >= 2
  {
    assert s == s[..j] + [s[j]] + s[j + 1..];
    assert s[i] in s[..j];
    assert multiset(s) == multiset(s[..j]) + multiset{s[j]} + multiset(s[j + 1..]);
  }

  lemma InsideTwice<T>(s: seq<Request<T>>, x: Request<T>) returns (i: nat, j: nat)
    requires multiset(s)[x] >= 2
    ensures i < j < |s| && s[i] == x == s[j]
  {
    assert x in multiset(s);
    j :| 0 <= j < |s| && s[j] == x;
    assert s == s[..j] + [s[j]] + s[j + 1..];
    assert multiset(s) == multiset(s[..j]) + multiset{s[j]} + multiset(s[j + 1..]);
    if x in s[..j] {
      i :| 0 <= i < j && s[..j][i] == x;
    } else {
      assert x in multiset(s[j + 1..]);
      var k :| 0 <= k < |s| - j - 1 && s[j + 1..][k] == x;
      i, j := j, j + 1 + k;
    }
  }

  /** Disjointness does not depend on the order. */
  lemma DisjointInAnyOrder<T>(s: seq<Request<T>>, t: seq<Request<T>>)
    requires multiset(s) == multiset(t) && Disjoint(s) && forall i :: 0 <= i < |s| ==> s[i].Sound()
    ensures Disjoint(t)
  {
    SameMembers(s, t);
    forall i, j | 0 <= i < j < |t|
      ensures Apart(t[i], t[j])
    {
      var k :| 0 <= k < |s| && s[k] == t[i];
      var l :| 0 <= l < |s| && s[l] == t[j];
      if k == l {
        TwiceInside(t, i, j);
        var m, n := InsideTwice(s, t[i]);
        assert Apart(s[m], s[n]) && s[m].Sound();
      } else {
        assert if k < l then Apart(s[k], s[l]) else Apart(s[l], s[k]);
      }
    }
  }

  /**
   * Merging preserves meaning: for any disjoint batch whose distances survive the comparison, given in
   * whatever order, the merged requests leave the same disk, and each of them has as many bytes as
   * its sectors.
   */
  lemma MergingPreservesMeaning<T>(zero: T, disk: seq<T>, given: seq<Request<T>>, sorted: seq<Request<T>>)
    requires |given| > 0 && multiset(given) == multiset(sorted) && Ordered(sorted) && AllNear(given)
    requires Batch(given, |disk|) && Disjoint(given)
    ensures var m := Merged(zero, NoHook, sorted);
      IssueAll(disk, m) == IssueAll(disk, given) && forall i :: 0 <= i < |m| ==> m[i].Sound()
  {
    hide Merged, IssueAll;
    SameMembers(given, sorted);
    assert |multiset(given)| == |given| && |multiset(sorted)| == |sorted|;
    NearInAnyOrder(given, sorted);
    OrderedIsSorted(sorted);
    DisjointInAnyOrder(given, sorted);
    SortedDisjointIsApart(sorted);
    MergePreserves(zero, disk, sorted);
    OrderDoesNotMatter(disk, given, sorted);
  }

  lemma NearInAnyOrder<T>(s: seq<Request<T>>, t: seq<Request<T>>)
    requires multiset(s) == multiset(t) && AllNear(s)
    ensures AllNear(t)
  {
    SameMembers(s, t);
    forall i, j | 0 <= i < |t| && 0 <= j < |t| && t[i].sector < t[j].sector
      ensures Near(t[i], t[j])
    {
      var k :| 0 <= k < |s| && s[k] == t[i];
      var l :| 0 <= l < |s| && s[l] == t[j];
      assert Near(s[k], s[l]);
    }
  }

  // Requests that are too far apart.

  /**
   * If the distance of two requests does not survive the comparison, sorting may leave the later one in
   * front; they are then merged into one that starts there, and the earlier sectors are not written.
   */
  lemma FarRequestsAreLost<T>(zero: T, disk: seq<T>, r: Request<T>, a: Request<T>)
    requires r.Sound() && a.Sound() && r.End() <= a.sector && !Near(r, a)
    requires a.End() * SECTOR_SIZE <= |disk| && |a.qiov| + |r.qiov| + 1 <= IOV_MAX
    requires disk[r.sector * SECTOR_SIZE..r.End() * SECTOR_SIZE] != r.Data()
    ensures Ordered([a, r]) && Merged(zero, NoHook, [a, r]) == [Join(zero, a, r)]
    ensures IssueAll(disk, Merged(zero, NoHook, [a, r])) != IssueAll(disk, [r, a])
  {
    hide Flatten, Join, Issue, IssueAll, Merged;
    CompareIffNear(r, a);
    JoinShape(zero, a, r);
    MergedPair(zero, a, r);
    var j := Join(zero, a, r);
    OneIssue(disk, j);
    TwoIssues(disk, r, a);
    IssueElsewhere(disk, j, r);
    IssueElsewhere(Issue(disk, r), a, r);
    IssueHere(disk, r);
  }

  lemma MergedPair<T>(zero: T, a: Request<T>, r: Request<T>)
    requires ShouldMerge(NoHook, a, r)
    ensures Merged(zero, NoHook, [a, r]) == [Join(zero, a, r)]
  {
    hide Join, ShouldMerge;
    assert [a, r][..1] == [a] && [a, r][1] == r;
    MergedOne(zero, NoHook, [a]);
    assert [a][..1] == [a] && [a][..0] == [];
    assert [] + [Join(zero, a, r)] == [Join(zero, a, r)];
  }

  /** A request that starts behind r leaves the sectors of r alone. */
  lemma IssueElsewhere<T>(disk: seq<T>, j: Request<T>, r: Request<T>)
    requires r.End() <= j.sector && r.End() * SECTOR_SIZE <= |disk|
    ensures Issue(disk, j)[r.sector * SECTOR_SIZE..r.End() * SECTOR_SIZE] ==
      disk[r.sector * SECTOR_SIZE..r.End() * SECTOR_SIZE]
  {
    hide Flatten;
  }

  lemma IssueHere<T>(disk: seq<T>, r: Request<T>)
    requires r.Sound() && r.End() * SECTOR_SIZE <= |disk|
    ensures Issue(disk, r)[r.sector * SECTOR_SIZE..r.End() * SECTOR_SIZE] == r.Data()
  {
    hide Flatten;
  }

  lemma OneIssue<T>(disk: seq<T>, r: Request<T>)
    ensures IssueAll(disk, [r]) == Issue(disk, r)
  {
    assert [r][..0] == [];
    assert IssueAll(disk, []) == disk;
  }

  lemma TwoIssues<T>(disk: seq<T>, r: Request<T>, a: Request<T>)
    ensures IssueAll(disk, [r, a]) == Issue(Issue(disk, r), a)
  {
    hide Issue;
    OneIssue(disk, r);
    assert [r, a][..1] == [r];
  }

  // Overlapping requests.

  /** Writes bytes at a sector, whatever the sector count says. */
  function Put<T>(disk: seq<T>, sector: nat, data: seq<T>): seq<T>
    requires sector * SECTOR_SIZE + |data| <= |disk|
  {
    Splice(disk, sector * SECTOR_SIZE, data)
  }

  /**
   * For a second request that starts inside the first, the merged bytes stand for both writes
   * exactly when the second reaches at least as far, or the lost end of the first was on the disk.
   */
  lemma OverlapExact<T>(zero: T, disk: seq<T>, a: Request<T>, r: Request<T>)
    requires a.Sound() && r.Sound() && a.sector <= r.sector <= a.End()
    requires a.End() * SECTOR_SIZE <= |disk| && r.End() * SECTOR_SIZE <= |disk|
    ensures a.sector * SECTOR_SIZE + |Join(zero, a, r).Data()| <= |disk|
    ensures Put(disk, a.sector, Join(zero, a, r).Data()) == Put(Put(disk, a.sector, a.Data()), r.sector, r.Data()) <==>
      r.End() >= a.End() ||
      disk[r.End() * SECTOR_SIZE..a.End() * SECTOR_SIZE] == a.Data()[(r.End() - a.sector) * SECTOR_SIZE..]
  {
    hide Flatten, Join;
    var (x, y, u, v) := (a.sector * SECTOR_SIZE, r.sector * SECTOR_SIZE, a.Data(), r.Data());
    JoinInside(zero, a, r);
    OverlapBytes(disk, x, u, y, v);
  }

  lemma JoinInside<T>(zero: T, a: Request<T>, r: Request<T>)
    requires a.Sound() && a.sector <= r.sector <= a.End()
    ensures (r.sector - a.sector) * SECTOR_SIZE <= |a.Data()|
    ensures Join(zero, a, r).Data() == a.Data()[..(r.sector - a.sector) * SECTOR_SIZE] + r.Data()
  {
    hide Flatten, Join;
    JoinData(zero, a, r);
  }

  lemma OverlapBytes<T>(disk: seq<T>, x: nat, u: seq<T>, y: nat, v: seq<T>)
    requires x <= y <= x + |u| <= |disk| && y + |v| <= |disk|
    ensures Splice(disk, x, u[..y - x] + v) == Splice(Splice(disk, x, u), y, v) <==>
      y + |v| >= x + |u| || disk[y + |v|..x + |u|] == u[y + |v| - x..]
  {
    var (l, r) := (Splice(disk, x, u[..y - x] + v), Splice(Splice(disk, x, u), y, v));
    forall k | 0 <= k < y + |v|
      ensures l[k] == r[k]
    {}
    forall k | y + |v| <= k < |disk|
      ensures l[k] == disk[k] && r[k] == if k < x + |u| then u[k - x] else disk[k]
    {}
    if y + |v| < x + |u| {
      forall k | y + |v| <= k < x + |u|
        ensures disk[y + |v|..x + |u|][k - y - |v|] == l[k] && u[y + |v| - x..][k - y - |v|] == r[k]
      {}
      if disk[y + |v|..x + |u|] == u[y + |v| - x..] {
        assert l == r;
      }
    } else {
      assert l == r;
    }
  }

  ghost predicate Bounded<T>(s: seq<Request<T>>) { forall i :: 0 <= i < |s| ==> |s[i].qiov| <= IOV_MAX }

  lemma BoundedMore<T>(s: seq<Request<T>>, n: nat, r: Request<T>)
    requires Bounded(s) && |r.qiov| <= IOV_MAX && n <= |s|
    ensures Bounded(s[..n] + [r])
  {}

  /** No merged vector exceeds the limit on its buffers. */
  lemma {:induction false} WithinIovMax<T>(zero: T, hook: (Request<T>, Request<T>) -> bool, s: seq<Request<T>>)
    requires |s| > 0 && Bounded(s)
    ensures Bounded(Merged(zero, hook, s))
  {
    hide Join, Bounded;
    if |s| > 1 {
      var r := s[|s| - 1];
      BoundedFront(s);
      WithinIovMax(zero, hook, s[..|s| - 1]);
      var m := Merged(zero, hook, s[..|s| - 1]);
      var a := m[|m| - 1];
      if ShouldMerge(hook, a, r) {
        JoinData(zero, a, r);
        BoundedMore(m, |m| - 1, Join(zero, a, r));
      } else {
        BoundedMore(m, |m|, r);
        assert m[..|m|] == m;
      }
    }
  }

  lemma BoundedFront<T>(s: seq<Request<T>>)
    requires Bounded(s) && |s| > 0
    ensures Bounded(s[..|s| - 1]) && |s[|s| - 1].qiov| <= IOV_MAX
  {}
}
