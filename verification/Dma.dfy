/**
 * Scatter-gather DMA to a block device (qemu/dma-helpers.c:39-131, 147-169): a request that is
 * resumed after every batch until the whole list has been moved.  What can be mapped at a time,
 * and what the block layer answers, is left open.
 */
module Dma {
  import opened BlockDefs
  import opened IoVectors

  /** A run of guest memory: an entry of the scatter-gather list, or one mapping. */
  datatype Range = Range(base: nat, len: nat) {
    function Bytes(): (r: seq<nat>)
      ensures |r| == len
    {
      seq(len, i requires i >= 0 => base + i)
    }
  }

  /** The guest addresses of some runs, in order. */
  function Flat(sg: seq<Range>): seq<nat> { Flatten(Parts(sg)) }

  function Parts(sg: seq<Range>): seq<seq<nat>> { seq(|sg|, i requires 0 <= i < |sg| => sg[i].Bytes()) }

  lemma FlatMore(sg: seq<Range>, r: Range)
    ensures Flat(sg + [r]) == Flat(sg) + r.Bytes()
  {
    assert Parts(sg + [r]) == Parts(sg) + [r.Bytes()];
    FlattenMore(Parts(sg), r.Bytes());
  }

  /** The addresses before byte `byte` of entry `index`. */
  function Upto(sg: seq<Range>, index: nat, byte: nat): seq<nat>
    requires (index < |sg| && byte <= sg[index].len) || (index == |sg| && byte == 0)
  {
    Flat(sg[..index]) + (if index < |sg| then Range(sg[index].base, byte).Bytes() else [])
  }

  /** Moving n bytes on within an entry, to the next entry if this one is finished. */
  lemma Advance(sg: seq<Range>, index: nat, byte: nat, n: nat)
    requires index < |sg| && byte + n <= sg[index].len
    ensures Upto(sg, index, byte) + Range(sg[index].base + byte, n).Bytes() == Upto(sg, index, byte + n)
    ensures byte + n == sg[index].len ==> Upto(sg, index, byte + n) == Upto(sg, index + 1, 0)
  {
    var b := sg[index].base;
    assert Range(b, byte).Bytes() + Range(b + byte, n).Bytes() == Range(b, byte + n).Bytes();
    if byte + n == sg[index].len {
      assert sg[..index + 1] == sg[..index] + [sg[index]];
      FlatMore(sg[..index], sg[index]);
      assert Range(b, byte + n) == sg[index];
    }
  }

  /** Every position of the list stands for a prefix of it. */
  lemma {:induction false} UptoIsPrefix(sg: seq<Range>, index: nat, byte: nat)
    requires (index < |sg| && byte <= sg[index].len) || (index == |sg| && byte == 0)
    ensures Upto(sg, index, byte) <= Flat(sg)
    ensures index == |sg| ==> Upto(sg, index, byte) == Flat(sg)
    decreases |sg| - index, 1
  {
    if index == |sg| {
      assert sg[..index] == sg;
    } else {
      Advance(sg, index, byte, sg[index].len - byte);
      UptoIsPrefix(sg, index + 1, 0);
    }
  }

  /** A request handed to the block layer: it is to move nbSectors sectors with the memory of iov. */
  datatype Batch = Batch(sector: nat, iov: seq<Range>, nbSectors: nat) {
    function Bytes(): seq<nat> { Flat(iov) }

    /** The memory that the sectors asked for take up. */
    function Moved(): (m: seq<nat>)
      ensures m <= Bytes()
    {
      if nbSectors * SECTOR_SIZE <= |Bytes()| then Bytes()[..nbSectors * SECTOR_SIZE] else Bytes()
    }
  }

  function AllBytes(batches: seq<Batch>): seq<nat> {
    if |batches| == 0 then [] else AllBytes(batches[..|batches| - 1]) + batches[|batches| - 1].Bytes()
  }

  function AllMoved(batches: seq<Batch>): seq<nat> {
    if |batches| == 0 then [] else AllMoved(batches[..|batches| - 1]) + batches[|batches| - 1].Moved()
  }

  lemma AllBytesMore(batches: seq<Batch>, b: Batch)
    ensures AllBytes(batches + [b]) == AllBytes(batches) + b.Bytes()
  {
    assert (batches + [b])[..|batches|] == batches;
  }

  /** Every batch has whole sectors. */
  ghost predicate WholeSectors(batches: seq<Batch>) {
    forall i :: 0 <= i < |batches| ==> |batches[i].Bytes()| % SECTOR_SIZE == 0
  }

  /** Batch i starts where the bytes before it end. */
  ghost predicate InPlace(first: nat, batches: seq<Batch>) {
    forall i :: 0 <= i < |batches| ==> batches[i].sector * SECTOR_SIZE == first * SECTOR_SIZE + |AllBytes(batches[..i])|
  }

  /** As long as batches have whole sectors, each is in place, and so is one at sector `next`. */
  ghost predicate Placed(first: nat, batches: seq<Batch>, next: nat) {
    WholeSectors(batches) ==> InPlace(first, batches) && next * SECTOR_SIZE == first * SECTOR_SIZE + |AllBytes(batches)|
  }

  // What can be issued for a list, whatever the lengths of the mappings.

  /** A position in a list: an entry, and a byte of it. */
  datatype Pos = Pos(index: nat, byte: nat) {
    ghost predicate In(sg: seq<Range>) { (index < |sg| && byte < sg[index].len) || (index == |sg| && byte == 0) }
  }

  ghost predicate Entries(sg: seq<Range>) { forall i :: 0 <= i < |sg| ==> sg[i].len > 0 }

  /** r is a mapping of what is left of the entry at p, or of a first part of it. */
  ghost predicate Mappable(sg: seq<Range>, p: Pos, r: Range) {
    p.index < |sg| && r.base == sg[p.index].base + p.byte && 0 < r.len && p.byte + r.len <= sg[p.index].len
  }

  function After(sg: seq<Range>, p: Pos, len: nat): Pos
    requires p.index < |sg|
  {
    if p.byte + len == sg[p.index].len then Pos(p.index + 1, 0) else Pos(p.index, p.byte + len)
  }

  function Last<T>(s: seq<T>): T
    requires |s| > 0
  {
    s[|s| - 1]
  }

  function DropLast<T>(s: seq<T>): seq<T>
    requires |s| > 0
  {
    s[..|s| - 1]
  }

  ghost predicate Step(sg: seq<Range>, p: Pos, r: Range, q: Pos) { Mappable(sg, p, r) && q == After(sg, p, r.len) }

  /** The mappings of iov, one after the other, lead from p to q. */
  ghost predicate Maps(sg: seq<Range>, p: Pos, iov: seq<Range>, q: Pos) {
    if |iov| == 0 then p == q
    else
      exists o: Pos :: Maps(sg, p, DropLast(iov), o) && Step(sg, o, Last(iov), q)
  }

  /** The batches, one after the other, lead from the start of the list to p, and to sector `next`. */
  ghost predicate Issued(sg: seq<Range>, first: nat, batches: seq<Batch>, p: Pos, next: nat) {
    if |batches| == 0 then p == Pos(0, 0) && next == first
    else
      var (b, front) := (Last(batches), DropLast(batches));
      && (exists q: Pos :: Issued(sg, first, front, q, b.sector) && Maps(sg, q, b.iov, p))
      && |b.iov| > 0 && b.nbSectors == |b.Bytes()| / SECTOR_SIZE && next == b.sector + b.nbSectors
  }

  lemma MapsMore(sg: seq<Range>, p: Pos, iov: seq<Range>, q: Pos, r: Range)
    requires Maps(sg, p, iov, q) && Mappable(sg, q, r)
    ensures Maps(sg, p, iov + [r], After(sg, q, r.len))
  {
    var all := iov + [r];
    assert DropLast(all) == iov && Last(all) == r;
    assert Step(sg, q, r, After(sg, q, r.len));
  }

  lemma IssuedMore(sg: seq<Range>, first: nat, batches: seq<Batch>, p: Pos, b: Batch, q: Pos)
    requires Issued(sg, first, batches, p, b.sector) && Maps(sg, p, b.iov, q) && |b.iov| > 0 &&
      b.nbSectors == |b.Bytes()| / SECTOR_SIZE
    ensures Issued(sg, first, batches + [b], q, b.sector + b.nbSectors)
  {
    hide Maps;
    assert DropLast(batches + [b]) == batches;
  }

  /** What was mapped continues the list. */
  lemma {:induction false} MapsContinue(sg: seq<Range>, p: Pos, iov: seq<Range>, q: Pos)
    requires Entries(sg) && p.In(sg) && Maps(sg, p, iov, q)
    ensures q.In(sg) && Upto(sg, q.index, q.byte) == Upto(sg, p.index, p.byte) + Flat(iov) && |Flat(iov)| >= |iov|
    decreases |iov|
  {
    hide Upto, Flat, After;
    NothingMapped(sg, p);
    if |iov| > 0 {
      var (r, m) := (Last(iov), DropLast(iov));
      var o: Pos :| Maps(sg, p, m, o) && Step(sg, o, r, q);
      MapsContinue(sg, p, m, o);
      MapContinues(sg, o, r);
      FlatMore(m, r);
      assert iov == m + [r];
    }
  }

  lemma MapContinues(sg: seq<Range>, p: Pos, r: Range)
    requires Entries(sg) && p.In(sg) && Mappable(sg, p, r)
    ensures var q := After(sg, p, r.len);
      q.In(sg) && Upto(sg, q.index, q.byte) == Upto(sg, p.index, p.byte) + r.Bytes() && |r.Bytes()| > 0
  {
    hide Upto;
    Advance(sg, p.index, p.byte, r.len);
    assert r == Range(sg[p.index].base + p.byte, r.len);
  }

  /** What was issued is the list up to the position reached, and in place. */
  lemma {:induction false} IssuedIs(sg: seq<Range>, first: nat, batches: seq<Batch>, p: Pos, next: nat)
    requires Entries(sg) && Issued(sg, first, batches, p, next)
    ensures p.In(sg) && AllBytes(batches) == Upto(sg, p.index, p.byte) && Placed(first, batches, next)
    decreases |batches|
  {
    hide Upto, Maps, Flat, Placed;
    if |batches| == 0 {
      StartOfList(sg, first);
    } else {
      var (b, front) := (Last(batches), DropLast(batches));
      var q: Pos :| Issued(sg, first, front, q, b.sector) && Maps(sg, q, b.iov, p);
      IssuedIs(sg, first, front, q, b.sector);
      MapsContinue(sg, q, b.iov, p);
      OneMoreBatch(first, front, b);
      assert batches == front + [b];
    }
  }

  lemma StartOfList(sg: seq<Range>, first: nat)
    requires Entries(sg)
    ensures Pos(0, 0).In(sg) && Upto(sg, 0, 0) == [] && Placed(first, [], first)
  {
    assert sg[..0] == [];
  }

  ghost predicate Counted(batches: seq<Batch>) {
    forall i :: 0 <= i < |batches| ==> batches[i].nbSectors == |batches[i].Bytes()| / SECTOR_SIZE
  }

  lemma {:induction false} IssuedCounted(sg: seq<Range>, first: nat, batches: seq<Batch>, p: Pos, next: nat)
    requires Issued(sg, first, batches, p, next)
    ensures Counted(batches)
    decreases |batches|
  {
    hide Maps, Flat;
    if |batches| > 0 {
      var (b, front) := (Last(batches), DropLast(batches));
      var q: Pos :| Issued(sg, first, front, q, b.sector) && Maps(sg, q, b.iov, p);
      IssuedCounted(sg, first, front, q, b.sector);
    }
  }

  /** A count rounded down to sectors loses bytes exactly if some batch has a part of a sector. */
  lemma {:induction false} MovedIffWhole(batches: seq<Batch>)
    requires Counted(batches)
    ensures |AllMoved(batches)| <= |AllBytes(batches)|
    ensures |AllMoved(batches)| == |AllBytes(batches)| <==> WholeSectors(batches)
    ensures WholeSectors(batches) ==> AllMoved(batches) == AllBytes(batches)
    decreases |batches|
  {
    hide Flat;
    if |batches| > 0 {
      var (b, front) := (batches[|batches| - 1], batches[..|batches| - 1]);
      MovedIffWhole(front);
      Rounded(|b.Bytes()|);
      assert batches == front + [b];
    }
  }

  lemma Rounded(n: nat)
    ensures n / SECTOR_SIZE * SECTOR_SIZE <= n && (n / SECTOR_SIZE * SECTOR_SIZE == n <==> n % SECTOR_SIZE == 0)
  {}

  /** When all of the list has been issued, all of it was moved exactly if every batch had whole sectors. */
  lemma AllMovedIffWhole(sg: seq<Range>, first: nat, batches: seq<Batch>, next: nat)
    requires Entries(sg) && Issued(sg, first, batches, Pos(|sg|, 0), next)
    ensures AllBytes(batches) == Flat(sg)
    ensures AllMoved(batches) == Flat(sg) <==> WholeSectors(batches)
  {
    hide AllMoved, AllBytes, Issued;
    IssuedIs(sg, first, batches, Pos(|sg|, 0), next);
    UptoIsPrefix(sg, |sg|, 0);
    IssuedCounted(sg, first, batches, Pos(|sg|, 0), next);
    MovedIffWhole(batches);
  }

  /**
   * A list of one sector of which 100 bytes can be mapped at first: it is issued in two batches of
   * no sector each, and ends without an error although nothing was moved.
   */
  lemma NothingMoved()
    ensures var (sg, batches) := ([Range(0, 512)], [Batch(0, [Range(0, 100)], 0), Batch(0, [Range(100, 412)], 0)]);
      && Entries(sg) && Issued(sg, 0, batches, Pos(1, 0), 0)
      && AllBytes(batches) == Flat(sg) && AllMoved(batches) == []
  {
    var sg := [Range(0, 512)];
    var (b, c) := (Batch(0, [Range(0, 100)], 0), Batch(0, [Range(100, 412)], 0));
    StartMap(sg, Pos(0, 0), Range(0, 100));
    StartMap(sg, Pos(0, 100), Range(100, 412));
    IssuedMore(sg, 0, [], Pos(0, 0), b, Pos(0, 100));
    IssuedMore(sg, 0, [b], Pos(0, 100), c, Pos(1, 0));
    assert [] + [b] == [b] && [b] + [c] == [b, c];
    AllMovedIffWhole(sg, 0, [b, c], 0);
    assert [b, c][..1] == [b] && [b][..0] == [];
    assert AllMoved([b]) == [] + b.Moved();
  }

  lemma StartMap(sg: seq<Range>, p: Pos, r: Range)
    requires Mappable(sg, p, r)
    ensures Maps(sg, p, [r], After(sg, p, r.len)) && Flat([r]) == r.Bytes()
  {
    hide Flat;
    MapsMore(sg, p, [], p, r);
    assert [] + [r] == [r];
    FlatOne(r);
  }

  lemma FlatOne(r: Range)
    ensures Flat([r]) == r.Bytes()
  {
    hide Flatten;
    assert Parts([r]) == [r.Bytes()];
    FlattenOne(r.Bytes());
  }

  class DmaAiocb {
    const sg: seq<Range>
    const first: nat
    var sectorNum: nat
    var curIndex: nat
    var curByte: nat
    var iov: seq<Range>
    var iovSize: nat
    var pending: bool              // a batch is with the block layer
    var waiting: bool              // registered as a map client
    var failures: nat              // how often mapping will still fail
    ghost var batches: seq<Batch>  // what was handed to the block layer
    ghost var results: seq<int>    // what the user callback was run with

    ghost function At(): Pos
      reads this
    {
      Pos(curIndex, curByte)
    }

    /** Where the next batch will start on the disk. */
    function Next(): nat
      reads this
    {
      sectorNum + iovSize / SECTOR_SIZE
    }

    /** While the request is under way. */
    ghost predicate Valid()
      reads this
    {
      && Entries(sg) && iovSize == |Flat(iov)| && results == [] && !(pending && waiting)
      && Issued(sg, first, batches, At(), Next())
      && (if pending then |batches| > 0 &&
        batches[|batches| - 1] == Batch(sectorNum, iov, iovSize / SECTOR_SIZE) else iov == [])
    }

    /** The request is over: its callback has been run once. */
    ghost predicate Done()
      reads this
    {
      |results| == 1 && !pending && !waiting && Entries(sg) && Issued(sg, first, batches, At(), Next())
    }

    /** Bytes still to be issued. */
    ghost function Left(): int
      reads this
    {
      |Flat(sg)| - |AllBytes(batches)|
    }

    constructor (sg: seq<Range>, sectorNum: nat, failures: nat)
      requires Entries(sg)
      ensures Valid() && this.sg == sg && first == sectorNum && !pending && !waiting && batches == []
    {
      this.sg, this.first, this.sectorNum := sg, sectorNum, sectorNum;
      curIndex, curByte, iov, iovSize, pending, waiting := 0, 0, [], 0, false, false;
      this.failures := failures;
      batches, results := [], [];
    }

    /** One mapping of the loop of dma_bdrv_cb, of at most what is left of the current entry. */
    method MapOne(ghost from: Pos)
      requires Entries(sg) && At().In(sg) && iovSize == |Flat(iov)| && curIndex < |sg| && Maps(sg, from, iov, At())
      modifies `curIndex, `curByte, `iov, `iovSize
      ensures At().In(sg) && iovSize == |Flat(iov)| && Maps(sg, from, iov, At()) && |iov| > 0
      ensures old(curIndex) <= curIndex && (curIndex == old(curIndex) ==> old(curByte) < curByte)
    {
      hide Maps;
      var curAddr := sg[curIndex].base + curByte;
      var curLen := sg[curIndex].len - curByte;
      var mapped: nat := *;
      if 0 < mapped < curLen {
        curLen := mapped;
      }
      FlatMore(iov, Range(curAddr, curLen));
      MapsMore(sg, from, iov, At(), Range(curAddr, curLen));
      iov := iov + [Range(curAddr, curLen)];
      iovSize := iovSize + curLen;
      curByte := curByte + curLen;
      if curByte == sg[curIndex].len {
        curByte := 0;
        curIndex := curIndex + 1;
      }
    }

    /** The loop of dma_bdrv_cb: maps as much as it can get. */
    method MapAll()
      requires Entries(sg) && At().In(sg) && iov == [] && iovSize == 0
      modifies `curIndex, `curByte, `iov, `iovSize, `failures
      ensures At().In(sg) && iovSize == |Flat(iov)| && Maps(sg, old(At()), iov, At())
      ensures failures <= old(failures) && (iov == [] && old(curIndex) < |sg| ==> failures < old(failures))
      ensures curIndex == |sg| || failures < old(failures)
    {
      hide Maps, Flat;
      NothingMapped(sg, At());
      while curIndex < |sg|
        invariant At().In(sg) && iovSize == |Flat(iov)| && failures == old(failures) && Maps(sg, old(At()), iov, At())
        invariant iov == [] ==> curIndex == old(curIndex)
        decreases |sg| - curIndex, if curIndex < |sg| then sg[curIndex].len - curByte else 0
      {
        if failures > 0 {
          var failed: bool := *;
          if failed {
            failures := failures - 1;
            break;
          }
        }
        MapOne(old(At()));
      }
    }

    /** dma_bdrv_cb, at the start and after every batch. */
    method BdrvCb(ret: int)
      requires Valid() && !waiting && (ret < 0 ==> pending)
      modifies this
      ensures if old(curIndex) == |sg| || ret < 0 then Done() && results == [ret] && batches == old(batches) &&
        curIndex == old(curIndex)
              else Valid() && pending != waiting
      ensures old(batches) <= batches && (waiting ==> batches == old(batches))
      ensures Left() >= 0 && failures <= old(failures) && (waiting ==> failures < old(failures)) &&
        (pending ==> Left() < old(Left()))
    {
      hide Upto, Flat, AllBytes, Maps, Issued;
      ghost var (p, next) := (At(), Next());
      IssuedIs(sg, first, batches, p, next);
      UptoIsPrefix(sg, curIndex, curByte);
      NothingMapped(sg, p);
      sectorNum := sectorNum + iovSize / SECTOR_SIZE;
      iov, iovSize, pending := [], 0, false;
      if curIndex == |sg| || ret < 0 {
        results := results + [ret];
        return;
      }
      MapAll();
      MapsContinue(sg, p, iov, At());
      if iovSize == 0 {
        NothingMore(sg, p, iov, At());
        waiting := true;
        return;
      }
      ghost var b := Batch(sectorNum, iov, iovSize / SECTOR_SIZE);
      IssuedMore(sg, first, batches, p, b, At());
      AllBytesMore(batches, b);
      batches := batches + [b];
      IssuedIs(sg, first, batches, At(), Next());
      UptoIsPrefix(sg, curIndex, curByte);
      pending := true;
    }

    /** reschedule_dma, which the map client's bottom half runs. */
    method Reschedule()
      requires Valid() && waiting
      modifies this
      ensures if old(curIndex) == |sg| then Done() && results == [0] && batches == old(batches) &&
        curIndex == old(curIndex)
              else Valid() && pending != waiting
      ensures old(batches) <= batches && (waiting ==> batches == old(batches))
      ensures Left() >= 0 && failures <= old(failures) && (waiting ==> failures < old(failures)) &&
        (pending ==> Left() < old(Left()))
    {
      waiting := false;
      BdrvCb(0);
    }

    /**
     * The rest of a request whose first batch is under way, whatever the block layer answers and
     * however often mapping fails: the callback is run exactly once, and with no error all of the
     * list has been issued, in order.  It has all been moved exactly if every batch had whole sectors.
     */
    method Run() returns (ret: int)
      requires Valid() && pending
      modifies this
      ensures Done() && results == [ret] && old(batches) <= batches
      ensures ret >= 0 ==> Issued(sg, first, batches, Pos(|sg|, 0), Next()) && AllBytes(batches) == Flat(sg)
      ensures ret >= 0 ==> (AllMoved(batches) == Flat(sg) <==> WholeSectors(batches))
      ensures AllBytes(batches) <= Flat(sg)
      ensures WholeSectors(batches) ==> InPlace(first, batches)
    {
      hide Upto, Flat, AllBytes, Placed, Maps, Issued;
      IssuedIs(sg, first, batches, At(), Next());
      UptoIsPrefix(sg, curIndex, curByte);
      ret := 0;
      while pending || waiting
        invariant Left() >= 0 && old(batches) <= batches
        invariant if pending || waiting then Valid() else Done() && results == [ret]
        invariant !pending && !waiting && ret >= 0 ==> curIndex == |sg|
        decreases pending || waiting, Left(), failures
      {
        if pending {
          ret := *;
          BdrvCb(ret);
        } else {
          ret := 0;
          Reschedule();
        }
      }
      IssuedIs(sg, first, batches, At(), Next());
      UptoIsPrefix(sg, curIndex, curByte);
      PlacedMeans(first, batches, Next());
      if ret >= 0 {
        AllMovedIffWhole(sg, first, batches, Next());
      }
    }
  }

  lemma PlacedMeans(first: nat, batches: seq<Batch>, next: nat)
    requires Placed(first, batches, next)
    ensures WholeSectors(batches) ==> InPlace(first, batches)
  {}

  lemma NothingMapped(sg: seq<Range>, p: Pos)
    ensures Flat([]) == [] && Maps(sg, p, [], p)
  {}

  lemma NothingMore(sg: seq<Range>, p: Pos, iov: seq<Range>, q: Pos)
    requires Maps(sg, p, iov, q) && |iov| == 0
    ensures p == q
  {}

  lemma OneMoreBatch(first: nat, batches: seq<Batch>, b: Batch)
    requires Placed(first, batches, b.sector)
    ensures Placed(first, batches + [b], b.sector + |b.Bytes()| / SECTOR_SIZE)
  {
    var all := batches + [b];
    if WholeSectors(all) {
      forall i | 0 <= i < |batches|
        ensures |batches[i].Bytes()| % SECTOR_SIZE == 0 && all[..i] == batches[..i]
      {
        assert all[i] == batches[i];
      }
      assert all[..|batches|] == batches && all[|batches|] == b;
      AllBytesMore(batches, b);
    }
  }
}
