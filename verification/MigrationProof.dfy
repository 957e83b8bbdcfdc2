/**
 * Why live block migration converges: every step outside the final pass keeps the invariant.
 * Disks may have any size; only their whole chunks can be moved.
 */
module MigrationProof {
  import opened Splices
  import opened MigrationModel

  // Chunks and sectors.

  /** A write leaves the chunks it does not overlap alone. */
  lemma WriteElsewhere<T>(disk: seq<T>, sector: nat, data: seq<T>, c: nat)
    requires sector + |data| <= |disk| && c * CHUNK + CHUNK <= |disk| && !Touches(sector, |data|, c)
    ensures Chunk(Splice(disk, sector, data), c) == Chunk(disk, c)
  {}

  lemma WriteChunk<T>(disk: seq<T>, c: nat, buf: seq<T>)
    requires |buf| == CHUNK && c * CHUNK + CHUNK <= |disk|
    ensures Chunk(Write(disk, c * CHUNK, buf), c) == buf
    ensures forall e: nat :: e != c && e * CHUNK + CHUNK <= |disk| ==>
      Chunk(Write(disk, c * CHUNK, buf), e) == Chunk(disk, e)
    ensures forall k: nat :: c * CHUNK + CHUNK <= k < |disk| ==> Write(disk, c * CHUNK, buf)[k] == disk[k]
  {
    forall e: nat | e != c && e * CHUNK + CHUNK <= |disk|
      ensures Chunk(Write(disk, c * CHUNK, buf), e) == Chunk(disk, e)
    {
      WriteElsewhere(disk, c * CHUNK, buf, e);
    }
  }

  /** The chunks of a write are those from its first to its last sector, as set_dirty_bitmap counts them. */
  lemma TouchedRange(sector: nat, n: nat, c: nat)
    requires n > 0
    ensures c in Touched(sector, n) <==> sector / CHUNK <= c <= (sector + n - 1) / CHUNK
  {}

  // A guest write.

  /**
   * Data arrive at sector `at` of device d, and marks may be added: every whole chunk below cur that
   * is left unmarked stays what it was.
   */
  ghost predicate Changes<T>(s: State<T>, s': State<T>, d: nat, at: nat, data: seq<T>) {
    && d < |s.devs| && at + |data| <= |s.devs[d].disk|
    && s'.inflight == s.inflight && s'.queue == s.queue && |s'.devs| == |s.devs| && s.devs[d].dirty <= s'.devs[d].dirty
    && s'.devs == s.devs[d := s.devs[d].(
      disk := Splice(s.devs[d].disk, at, data), alloc := s.devs[d].alloc + SectorSet(at, |data|),
        dirty := s'.devs[d].dirty)]
    && (forall c: nat ::
          c * CHUNK + CHUNK <= s.devs[d].cur && c * CHUNK + CHUNK <= |s.devs[d].disk| && c !in s'.devs[d].dirty ==>
          Chunk(s'.devs[d].disk, c) == Chunk(s.devs[d].disk, c))
  }

  lemma ChangeBlocks<T>(s: State<T>, s': State<T>, d: nat, at: nat, data: seq<T>, bs: seq<Block<T>>)
    requires Changes(s, s', d, at, data) && BlocksInv(s.devs, bs) && Shape(s.devs[d])
    ensures BlocksInv(s'.devs, bs)
  {
    forall i | 0 <= i < |bs|
      ensures BlockInv(s'.devs, bs[i])
    {
      assert BlockInv(s.devs, bs[i]);
    }
  }

  lemma ChangeDev<T>(s: State<T>, s': State<T>, d: nat, at: nat, data: seq<T>, dest: seq<T>)
    requires Changes(s, s', d, at, data) && DevInv(s, d, dest)
    ensures DevInv(s', d, dest)
  {
    var (dev, dev') := (s.devs[d], s'.devs[d]);
    forall c: nat | c * CHUNK + CHUNK <= dev.cur
      ensures Settled(s', d, dest, c)
    {
      assert Settled(s, d, dest, c);
    }
    forall k | dev.cur <= k < |dev.disk| && k !in dev'.alloc && dev.sharedBase
      ensures dest[k] == dev'.disk[k]
    {
      assert k !in SectorSet(at, |data|) && !Within(at, |data|, k);
    }
  }

  lemma ChangeKeeps<T>(s: State<T>, s': State<T>, d: nat, at: nat, data: seq<T>, disks: seq<seq<T>>)
    requires Changes(s, s', d, at, data) && Inv(s, disks)
    ensures Inv(s', disks)
  {
    assert DevInv(s, d, disks[d]);
    ChangeBlocks(s, s', d, at, data, s.inflight);
    ChangeBlocks(s, s', d, at, data, s.queue);
    forall e | 0 <= e < |s.devs|
      ensures DevInv(s', e, disks[e])
    {
      assert DevInv(s, e, disks[e]);
      if e == d {
        ChangeDev(s, s', d, at, data, disks[d]);
      } else {
        OtherDev(s, s', e, disks[e]);
      }
    }
  }

  /** A write that marks all it touches leaves the unmarked chunks alone. */
  lemma TouchedChanges<T>(disk: seq<T>, at: nat, data: seq<T>, c: nat)
    requires at + |data| <= |disk| && c * CHUNK + CHUNK <= |disk| && c !in Touched(at, |data|)
    ensures Chunk(Splice(disk, at, data), c) == Chunk(disk, c)
  {
    WriteElsewhere(disk, at, data, c);
  }

  // Bulk reads.

  lemma BulkPosition<T>(dev: Dev<T>, p: nat)
    requires Shape(dev) && dev.cur <= p < |dev.disk|
    ensures var q := AlignDown(p);
      dev.cur <= q && q == q / CHUNK * CHUNK &&
        (if q + CHUNK <= |dev.disk| then Covered(|dev.disk|, q) == CHUNK else q + Covered(|dev.disk|, q) == |dev.disk|)
  {}

  /** Everything skipped over is at the receiver already. */
  lemma SkippedIsShared<T>(dev: Dev<T>, p: nat, dest: seq<T>, c: nat)
    requires BaseShared(dev, dest) && Skips(dev, p)
    requires dev.cur <= c * CHUNK && c * CHUNK + CHUNK <= |dev.disk| && (c * CHUNK + CHUNK <= p || p >= |dev.disk|)
    ensures Chunk(dest, c) == Chunk(dev.disk, c)
  {
    forall k: nat | c * CHUNK <= k < c * CHUNK + CHUNK
      ensures dest[k] == dev.disk[k]
    {
      assert dev.cur <= k < p && k < |dev.disk|;
      assert k !in dev.alloc;
      assert dev.sharedBase;
    }
  }

  lemma ReadBlocks<T>(s: State<T>, d: nat, p: nat, pad: seq<T>, bs: seq<Block<T>>, devs': seq<Dev<T>>)
    requires BulkReady(s, d, p, pad) && BlocksInv(s.devs, bs) && Shape(s.devs[d])
    requires devs' == s.devs[d := Read(s.devs[d], p)]
    ensures BlocksInv(devs', bs)
  {
    BulkPosition(s.devs[d], p);
    forall i | 0 <= i < |bs|
      ensures BlockInv(devs', bs[i])
    {
      assert BlockInv(s.devs, bs[i]);
    }
  }

  /** The device part of both kinds of bulk read: only the chunk that was read is left to account for. */
  lemma ReadDev<T>(s: State<T>, d: nat, p: nat, pad: seq<T>, dest: seq<T>, s': State<T>, dest': seq<T>)
    requires BulkReady(s, d, p, pad) && DevInv(s, d, dest)
    requires |s'.devs| == |s.devs| && s'.devs[d] == Read(s.devs[d], p) && |dest'| == |dest|
    requires s.inflight <= s'.inflight && s'.queue == s.queue
    requires var c := AlignDown(p) / CHUNK;
      && (forall e: nat :: e != c && e * CHUNK + CHUNK <= |dest| ==> Chunk(dest', e) == Chunk(dest, e))
      && (forall k: nat :: c * CHUNK + CHUNK <= k < |dest| ==> dest'[k] == dest[k])
      && (Awaits(s'.inflight, d, c) || (|dest| == |s.devs[d].disk| &&
        (c * CHUNK + CHUNK <= |dest| ==> Chunk(dest', c) == Chunk(s.devs[d].disk, c))))
    ensures DevInv(s', d, dest')
  {
    var (dev, dev') := (s.devs[d], s'.devs[d]);
    BulkPosition(dev, p);
    forall c: nat | c * CHUNK + CHUNK <= dev'.cur
      ensures Settled(s', d, dest', c)
    {
      if c * CHUNK + CHUNK <= dev.cur {
        assert Settled(s, d, dest, c);
        AwaitsMore(s.inflight, s'.inflight, d, c);
      } else if c != AlignDown(p) / CHUNK {
        SkippedIsShared(dev, p, dest, c);
      }
    }
  }

  lemma AwaitsMore<T>(bs: seq<Block<T>>, bs': seq<Block<T>>, d: nat, c: nat)
    requires bs <= bs'
    ensures Awaits(bs, d, c) ==> Awaits(bs', d, c)
  {
    if Awaits(bs, d, c) {
      var i :| 0 <= i < |bs| && bs[i].dev == d && bs[i].sector == c * CHUNK;
      assert bs'[i] == bs[i];
    }
  }

  ghost predicate OthersKept<T>(s: State<T>, s': State<T>, d: nat) {
    && |s'.devs| == |s.devs|
    && (forall e :: 0 <= e < |s.devs| && e != d ==> s'.devs[e] == s.devs[e])
  }

  /** A device that a step leaves alone keeps its part of the invariant. */
  lemma OtherDev<T>(s: State<T>, s': State<T>, e: nat, dest: seq<T>)
    requires e < |s.devs| == |s'.devs| && s'.devs[e] == s.devs[e] && DevInv(s, e, dest)
    requires forall c: nat :: Awaits(s.inflight, e, c) || Awaits(s.queue, e, c) ==>
      Awaits(s'.inflight, e, c) || Awaits(s'.queue, e, c)
    ensures DevInv(s', e, dest)
  {
    forall c: nat | c * CHUNK + CHUNK <= s.devs[e].cur
      ensures Settled(s', e, dest, c)
    {
      assert Settled(s, e, dest, c);
    }
  }

  lemma GuestWriteKeeps<T>(s: State<T>, d: nat, sector: nat, data: seq<T>, disks: seq<seq<T>>)
    requires Inv(s, disks) && Enabled(s, GuestWrite(d, sector, data))
    ensures Inv(Apply(s, GuestWrite(d, sector, data)), disks)
  {
    var s' := Apply(s, GuestWrite(d, sector, data));
    forall c: nat | c * CHUNK + CHUNK <= |s.devs[d].disk| && c !in s'.devs[d].dirty
      ensures Chunk(s'.devs[d].disk, c) == Chunk(s.devs[d].disk, c)
    {
      TouchedChanges(s.devs[d].disk, sector, data, c);
    }
    ChangeKeeps(s, s', d, sector, data, disks);
  }

  /** Submitting an asynchronous write only marks. */
  lemma MarkKeeps<T>(s: State<T>, w: AioWrite<T>, disks: seq<seq<T>>)
    requires Inv(s, disks) && Enabled(s, Mark(w))
    ensures Inv(Apply(s, Mark(w)), disks)
  {
    var s' := Apply(s, Mark(w));
    NothingChanges(s.devs[w.dev]);
    assert s'.devs[w.dev].disk == s.devs[w.dev].disk;
    ChangeKeeps(s, s', w.dev, 0, [], disks);
  }

  lemma NothingChanges<T>(dev: Dev<T>)
    ensures Splice(dev.disk, 0, []) == dev.disk && dev.alloc + SectorSet(0, 0) == dev.alloc
  {
    forall k: nat ensures k !in SectorSet(0, 0) {
      assert !Within(0, 0, k);
    }
  }

  /** Data of an asynchronous write may land at any moment, as long as what they change is still marked. */
  lemma LandKeeps<T>(s: State<T>, w: nat, from: nat, n: nat, disks: seq<seq<T>>)
    requires Inv(s, disks) && Enabled(s, Land(w, from, n)) && InTime(s, s.pending[w], from, n)
    ensures Inv(Apply(s, Land(w, from, n)), disks)
  {
    var p := s.pending[w];
    ChangeKeeps(s, Apply(s, Land(w, from, n)), p.dev, p.sector + from, p.data[from..from + n], disks);
  }

  lemma SubmitKeeps<T>(s: State<T>, d: nat, p: nat, pad: seq<T>, disks: seq<seq<T>>)
    requires Inv(s, disks) && Enabled(s, Submit(d, p, pad))
    ensures Inv(Apply(s, Submit(d, p, pad)), disks)
  {
    var s' := Apply(s, Submit(d, p, pad));
    assert DevInv(s, d, disks[d]);
    BulkPosition(s.devs[d], p);
    ReadBlocks(s, d, p, pad, s.inflight, s'.devs);
    ReadBlocks(s, d, p, pad, s.queue, s'.devs);
    var blk := s'.inflight[|s.inflight|];
    assert AlignDown(p) + CHUNK <= |s.devs[d].disk| ==>
      BulkBuffer(s.devs[d].disk, AlignDown(p), pad) == Chunk(s.devs[d].disk, AlignDown(p) / CHUNK);
    assert BlockInv(s'.devs, blk);
    assert Awaits(s'.inflight, d, AlignDown(p) / CHUNK);
    forall e | 0 <= e < |s.devs|
      ensures DevInv(s', e, disks[e])
    {
      assert DevInv(s, e, disks[e]);
      if e == d {
        ReadDev(s, d, p, pad, disks[d], s', disks[d]);
      } else {
        AwaitsMoreAll(s.inflight, s'.inflight, e);
        OtherDev(s, s', e, disks[e]);
      }
    }
  }

  lemma AwaitsMoreAll<T>(bs: seq<Block<T>>, bs': seq<Block<T>>, d: nat)
    requires bs <= bs'
    ensures forall c: nat :: Awaits(bs, d, c) ==> Awaits(bs', d, c)
  {
    forall c: nat ensures Awaits(bs, d, c) ==> Awaits(bs', d, c) {
      AwaitsMore(bs, bs', d, c);
    }
  }

  lemma SyncBulkKeeps<T>(s: State<T>, d: nat, p: nat, pad: seq<T>, disks: seq<seq<T>>)
    requires Inv(s, disks) && Enabled(s, SyncBulk(d, p, pad))
    ensures Inv(Apply(s, SyncBulk(d, p, pad)),
      Receive(disks, Data(d, AlignDown(p), BulkBuffer(s.devs[d].disk, AlignDown(p), pad))))
  {
    var s' := Apply(s, SyncBulk(d, p, pad));
    var q := AlignDown(p);
    var buf := BulkBuffer(s.devs[d].disk, q, pad);
    var disks' := Receive(disks, Data(d, q, buf));
    assert DevInv(s, d, disks[d]);
    BulkPosition(s.devs[d], p);
    ReadBlocks(s, d, p, pad, s.inflight, s'.devs);
    ReadBlocks(s, d, p, pad, s.queue, s'.devs);
    if q + CHUNK <= |disks[d]| {
      assert buf == Chunk(s.devs[d].disk, q / CHUNK);
      WriteChunk(disks[d], q / CHUNK, buf);
    }
    forall e | 0 <= e < |s.devs|
      ensures DevInv(s', e, disks'[e])
    {
      assert DevInv(s, e, disks[e]);
      if e == d {
        ReadDev(s, d, p, pad, disks[d], s', disks'[d]);
      } else {
        OtherDev(s, s', e, disks[e]);
      }
    }
  }

  lemma SkipToEndKeeps<T>(s: State<T>, d: nat, disks: seq<seq<T>>)
    requires Inv(s, disks) && Enabled(s, SkipToEnd(d))
    ensures Inv(Apply(s, SkipToEnd(d)), disks)
  {
    var s' := Apply(s, SkipToEnd(d));
    var dev := s.devs[d];
    var p: nat :| Skips(dev, p) && p >= |dev.disk|;
    assert DevInv(s, d, disks[d]);
    BlocksStay(s.devs, s'.devs, d, s.inflight);
    BlocksStay(s.devs, s'.devs, d, s.queue);
    forall c: nat | c * CHUNK + CHUNK <= |dev.disk|
      ensures Settled(s', d, disks[d], c)
    {
      if c * CHUNK + CHUNK <= dev.cur {
        assert Settled(s, d, disks[d], c);
      } else {
        SkippedIsShared(dev, p, disks[d], c);
      }
    }
    forall e | 0 <= e < |s.devs| && e != d
      ensures DevInv(s', e, disks[e])
    {
      assert DevInv(s, e, disks[e]);
      OtherDev(s, s', e, disks[e]);
    }
  }

  /** Moving cur up and setting flags does not concern the chunks on their way. */
  lemma BlocksStay<T>(devs: seq<Dev<T>>, devs': seq<Dev<T>>, d: nat, bs: seq<Block<T>>)
    requires BlocksInv(devs, bs) && d < |devs| == |devs'|
    requires forall e :: 0 <= e < |devs| && e != d ==> devs'[e] == devs[e]
    requires devs'[d].disk == devs[d].disk && devs'[d].dirty == devs[d].dirty
    requires devs[d].cur <= devs'[d].cur <= |devs[d].disk|
    ensures BlocksInv(devs', bs)
  {
    forall i | 0 <= i < |bs|
      ensures BlockInv(devs', bs[i])
    {
      assert BlockInv(devs, bs[i]);
    }
  }

  /** Steps that change flags and counters of one device. */
  lemma FlagsKeep<T>(s: State<T>, s': State<T>, d: nat, disks: seq<seq<T>>)
    requires Inv(s, disks) && d < |s.devs|
    requires s'.inflight == s.inflight && s'.queue == s.queue && OthersKept(s, s', d)
    requires s'.devs[d] == s.devs[d].(completed := s'.devs[d].completed, bulkDone := s'.devs[d].bulkDone) &&
      Shape(s'.devs[d])
    ensures Inv(s', disks)
  {
    assert DevInv(s, d, disks[d]);
    BlocksStay(s.devs, s'.devs, d, s.inflight);
    BlocksStay(s.devs, s'.devs, d, s.queue);
    forall e | 0 <= e < |s.devs|
      ensures DevInv(s', e, disks[e])
    {
      assert DevInv(s, e, disks[e]);
      if e == d {
        forall c: nat | c * CHUNK + CHUNK <= s'.devs[d].cur
          ensures Settled(s', d, disks[d], c)
        {
          assert Settled(s, d, disks[d], c);
        }
      } else {
        OtherDev(s, s', e, disks[e]);
      }
    }
  }

  lemma RefusedKeeps<T>(s: State<T>, d: nat, p: nat, disks: seq<seq<T>>)
    requires Inv(s, disks) && Enabled(s, Refused(d, p))
    ensures Inv(Apply(s, Refused(d, p)), disks)
  {
    assert DevInv(s, d, disks[d]);
    FlagsKeep(s, Apply(s, Refused(d, p)), d, disks);
  }

  lemma BulkDoneKeeps<T>(s: State<T>, d: nat, disks: seq<seq<T>>)
    requires Inv(s, disks) && Enabled(s, BulkDone(d))
    ensures Inv(Apply(s, BulkDone(d)), disks)
  {
    assert DevInv(s, d, disks[d]);
    FlagsKeep(s, Apply(s, BulkDone(d)), d, disks);
  }

  /** A sector of a buffer may be read at any moment before the read completes. */
  lemma SampleKeeps<T>(s: State<T>, i: nat, k: nat, disks: seq<seq<T>>)
    requires Inv(s, disks) && Enabled(s, Sample(i, k))
    ensures Inv(Apply(s, Sample(i, k)), disks)
  {
    var s' := Apply(s, Sample(i, k));
    forall j | 0 <= j < |s.inflight|
      ensures BlockInv(s'.devs, s'.inflight[j])
    {
      assert BlockInv(s.devs, s.inflight[j]);
    }
    forall e, c: nat | 0 <= e && Awaits(s.inflight, e, c)
      ensures Awaits(s'.inflight, e, c)
    {
      var j :| 0 <= j < |s.inflight| && s.inflight[j].dev == e && s.inflight[j].sector == c * CHUNK;
      assert s'.inflight[j].dev == e;
    }
    forall e | 0 <= e < |s.devs|
      ensures DevInv(s', e, disks[e])
    {
      assert DevInv(s, e, disks[e]);
      OtherDev(s, s', e, disks[e]);
    }
  }

  lemma CompleteKeeps<T>(s: State<T>, i: nat, ret: int, disks: seq<seq<T>>)
    requires Inv(s, disks) && Enabled(s, Complete(i, ret))
    ensures Inv(Apply(s, Complete(i, ret)), disks)
  {
    var s' := Apply(s, Complete(i, ret));
    var b := s.inflight[i];
    assert BlockInv(s.devs, b);
    forall j | 0 <= j < |s'.inflight|
      ensures BlockInv(s'.devs, s'.inflight[j])
    {
      assert BlockInv(s.devs, s.inflight[if j < i then j else j + 1]);
    }
    forall j | 0 <= j < |s'.queue|
      ensures BlockInv(s'.devs, s'.queue[j])
    {
      if j < |s.queue| {
        assert BlockInv(s.devs, s.queue[j]);
      }
    }
    forall e | 0 <= e < |s.devs|
      ensures DevInv(s', e, disks[e])
    {
      assert DevInv(s, e, disks[e]);
      CompleteAwaits(s, i, ret, e);
      OtherDev(s, s', e, disks[e]);
    }
  }

  lemma CompleteAwaits<T>(s: State<T>, i: nat, ret: int, e: nat)
    requires Enabled(s, Complete(i, ret))
    ensures var s' := Apply(s, Complete(i, ret));
      forall c: nat :: Awaits(s.inflight, e, c) || Awaits(s.queue, e, c) ==>
        Awaits(s'.inflight, e, c) || Awaits(s'.queue, e, c)
  {
    var s' := Apply(s, Complete(i, ret));
    forall c: nat | Awaits(s.inflight, e, c) || Awaits(s.queue, e, c)
      ensures Awaits(s'.inflight, e, c) || Awaits(s'.queue, e, c)
    {
      if Awaits(s.queue, e, c) {
        AwaitsMore(s.queue, s'.queue, e, c);
      } else {
        var j :| 0 <= j < |s.inflight| && s.inflight[j].dev == e && s.inflight[j].sector == c * CHUNK;
        if j == i {
          assert s'.queue[|s.queue|].dev == e;
        } else {
          assert s'.inflight[if j < i then j else j - 1] == s.inflight[j];
        }
      }
    }
  }

  lemma FlushAwaits<T>(s: State<T>, e: nat, c: nat)
    requires |s.queue| > 0 && Awaits(s.queue, e, c)
    ensures Awaits(s.queue[1..], e, c) || (s.queue[0].dev == e && s.queue[0].sector == c * CHUNK)
  {
    var j :| 0 <= j < |s.queue| && s.queue[j].dev == e && s.queue[j].sector == c * CHUNK;
    if j > 0 {
      assert s.queue[1..][j - 1] == s.queue[j];
    }
  }

  lemma FlushHeadKeeps<T>(s: State<T>, disks: seq<seq<T>>)
    requires Inv(s, disks) && Enabled(s, FlushHead)
    ensures Inv(Apply(s, FlushHead), Receive(disks, Data(s.queue[0].dev, s.queue[0].sector, s.queue[0].buf)))
  {
    var s' := Apply(s, FlushHead);
    var b := s.queue[0];
    var disks' := Receive(disks, Data(b.dev, b.sector, b.buf));
    assert BlockInv(s.devs, b);
    assert DevInv(s, b.dev, disks[b.dev]);
    if b.sector + CHUNK <= |disks[b.dev]| {
      WriteChunk(disks[b.dev], b.sector / CHUNK, b.buf);
    }
    forall j | 0 <= j < |s'.queue|
      ensures BlockInv(s'.devs, s'.queue[j])
    {
      assert BlockInv(s.devs, s.queue[j + 1]);
    }
    forall e | 0 <= e < |s.devs|
      ensures DevInv(s', e, disks'[e])
    {
      assert DevInv(s, e, disks[e]);
      forall c: nat | c * CHUNK + CHUNK <= s.devs[e].cur
        ensures Settled(s', e, disks'[e], c)
      {
        assert Settled(s, e, disks[e], c);
        if Awaits(s.queue, e, c) {
          FlushAwaits(s, e, c);
        }
      }
    }
  }

  /** The steps that carry no data. */
  lemma EmitKeeps<T>(s: State<T>, s': State<T>, disks: seq<seq<T>>)
    requires Inv(s, disks) && s' == s.(pending := s'.pending, out := s'.out, error := s'.error)
    ensures Inv(s', disks)
  {
    forall e | 0 <= e < |s.devs|
      ensures DevInv(s', e, disks[e])
    {
      assert DevInv(s, e, disks[e]);
      OtherDev(s, s', e, disks[e]);
    }
  }

  /** Every step outside the final pass keeps the invariant, landings if they are in time. */
  lemma StepKeeps<T>(s: State<T>, a: Action<T>, disks0: seq<seq<T>>)
    requires Inv(s, Replay(disks0, s.out)) && Enabled(s, a) && !a.DirtyChunk? && TimelyStep(s, a)
    ensures Inv(Apply(s, a), Replay(disks0, Apply(s, a).out))
  {
    var disks := Replay(disks0, s.out);
    match a
    case GuestWrite(d, sector, data) => GuestWriteKeeps(s, d, sector, data, disks);
    case Mark(w) => MarkKeeps(s, w, disks);
    case Land(w, from, n) => LandKeeps(s, w, from, n, disks);
    case Finish(w) => EmitKeeps(s, Apply(s, a), disks);
    case Submit(d, p, pad) => SubmitKeeps(s, d, p, pad, disks);
    case SyncBulk(d, p, pad) =>
      SyncBulkKeeps(s, d, p, pad, disks);
      ReplayMore(disks0, s.out, Data(d, AlignDown(p), BulkBuffer(s.devs[d].disk, AlignDown(p), pad)));
    case SkipToEnd(d) => SkipToEndKeeps(s, d, disks);
    case BulkDone(d) => BulkDoneKeeps(s, d, disks);
    case Sample(i, k) => SampleKeeps(s, i, k, disks);
    case Complete(i, ret) => CompleteKeeps(s, i, ret, disks);
    case FlushHead =>
      FlushHeadKeeps(s, disks);
      ReplayMore(disks0, s.out, Data(s.queue[0].dev, s.queue[0].sector, s.queue[0].buf));
    case Emit(r) =>
      EmitKeeps(s, Apply(s, a), disks);
      ReplayMore(disks0, s.out, r);
    case Refused(d, p) => RefusedKeeps(s, d, p, disks);
    case Fail => EmitKeeps(s, Apply(s, a), disks);
  }

  ghost predicate Live<T>(acts: seq<Action<T>>) { forall i :: 0 <= i < |acts| ==> !acts[i].DirtyChunk? }

  ghost predicate Pass<T>(acts: seq<Action<T>>) { forall i :: 0 <= i < |acts| ==> acts[i].DirtyChunk? }

  lemma {:induction false} LiveRunKeeps<T>(s: State<T>, acts: seq<Action<T>>, disks0: seq<seq<T>>)
    requires Inv(s, Replay(disks0, s.out)) && Runs(s, acts) && Live(acts) && Timely(s, acts)
    ensures Inv(Run(s, acts), Replay(disks0, Run(s, acts).out))
    decreases |acts|
  {
    if |acts| > 0 {
      StepKeeps(s, acts[0], disks0);
      LiveRunKeeps(Apply(s, acts[0]), acts[1..], disks0);
    }
  }

  /**
   * Stage 1: nothing read, and with a shared base equal unallocated sectors.  Marks may be left from
   * before, and writes may be pending that were submitted before there were marks.
   */
  ghost predicate Initial<T>(s: State<T>, disks: seq<seq<T>>) {
    && |disks| == |s.devs| && s.inflight == [] && s.queue == [] && s.out == []
    && (forall d :: 0 <= d < |s.devs| ==> InitialDev(s.devs[d], disks[d]))
  }

  ghost predicate InitialDev<T>(dev: Dev<T>, dest: seq<T>) {
    && dev.cur == 0 && dev.completed == 0 && |dev.disk| > 0 && !dev.bulkDone
    && BaseShared(dev, dest)
  }

  lemma InitialInv<T>(s: State<T>, disks: seq<seq<T>>)
    requires Initial(s, disks)
    ensures Inv(s, Replay(disks, s.out))
  {
    forall d | 0 <= d < |s.devs|
      ensures DevInv(s, d, disks[d])
    {
      assert InitialDev(s.devs[d], disks[d]);
    }
  }
}
