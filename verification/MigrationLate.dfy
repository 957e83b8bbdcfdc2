/**
 * Asynchronous guest writes in live block migration: bdrv_aio_writev marks when a write is
 * submitted (qemu/block.c:1576-1581), a bulk read may reset the mark before the data have landed
 * (qemu/block-migration.c:200), and then nothing is left that would send them.
 */
module MigrationLate {
  import opened Splices
  import opened MigrationModel
  import opened MigrationProof
  import opened MigrationPass
  import opened MigrationSure

  // One landing.

  ghost predicate NoneFailed<T>(s: State<T>) { forall i :: 0 <= i < |s.queue| ==> s.queue[i].ret >= 0 }

  /** A landing changes chunk c, which has been read and is not marked any more. */
  ghost predicate Late<T>(s: State<T>, w: AioWrite<T>, from: nat, n: nat, c: nat)
    requires CanLand(s, w, from, n)
  {
    var dev := s.devs[w.dev];
    && c * CHUNK + CHUNK <= dev.cur && c * CHUNK + CHUNK <= |dev.disk| && c !in dev.dirty
    && Chunk(Landed(s, w, from, n).disk, c) != Chunk(dev.disk, c)
  }

  lemma LateOrInTime<T>(s: State<T>, w: AioWrite<T>, from: nat, n: nat)
    requires CanLand(s, w, from, n)
    ensures InTime(s, w, from, n) <==> !exists c: nat :: Late(s, w, from, n, c)
  {
    if InTime(s, w, from, n) {
      forall c: nat ensures !Late(s, w, from, n, c) {}
    }
    if !exists c: nat :: Late(s, w, from, n, c) {
      forall c: nat | c * CHUNK + CHUNK <= s.devs[w.dev].cur && c * CHUNK + CHUNK <= |s.devs[w.dev].disk| &&
        c !in s.devs[w.dev].dirty
        ensures Chunk(Landed(s, w, from, n).disk, c) == Chunk(s.devs[w.dev].disk, c)
      {
        assert !Late(s, w, from, n, c);
      }
    }
  }

  /** A landing keeps the invariant exactly if it is in time, as long as no read has failed. */
  lemma LandExact<T>(s: State<T>, w: nat, from: nat, n: nat, disks: seq<seq<T>>)
    requires Inv(s, disks) && NoneFailed(s) && Enabled(s, Land(w, from, n))
    ensures Inv(Apply(s, Land(w, from, n)), disks) <==> InTime(s, s.pending[w], from, n)
  {
    var s' := Apply(s, Land(w, from, n));
    if InTime(s, s.pending[w], from, n) {
      LandKeeps(s, w, from, n, disks);
    } else {
      LateOrInTime(s, s.pending[w], from, n);
      var c: nat :| Late(s, s.pending[w], from, n, c);
      LateIsMissing(s, w, from, n, c, disks);
      MissingBreaks(s', s.pending[w].dev, c, disks, Chunk(s.devs[s.pending[w].dev].disk, c));
    }
  }

  /** When all disks are read and what the pass needs is there, a landing leaves it so exactly if it is in time. */
  lemma LandCaughtExact<T>(s: State<T>, w: nat, from: nat, n: nat, disks: seq<seq<T>>)
    requires AllCaught(s, disks) && AllRead(s) && Enabled(s, Land(w, from, n))
    ensures AllCaught(Apply(s, Land(w, from, n)), disks) <==> InTime(s, s.pending[w], from, n)
  {
    var (s', p) := (Apply(s, Land(w, from, n)), s.pending[w]);
    if InTime(s, p, from, n) {
      forall d, c: nat | 0 <= d < |s.devs| && c * CHUNK + CHUNK <= |s'.devs[d].disk|
        ensures Caught(s', disks, d, c)
      {
        assert Caught(s, disks, d, c);
      }
    } else {
      LateOrInTime(s, p, from, n);
      var c: nat :| Late(s, p, from, n, c);
      assert Caught(s, disks, p.dev, c) && !Caught(s', disks, p.dev, c);
    }
  }

  // A landing that comes too late, and what follows it.

  /** Every block on its way for chunk c holds `old'`. */
  ghost predicate Carry<T>(bs: seq<Block<T>>, d: nat, c: nat, old': seq<T>) {
    forall i :: 0 <= i < |bs| && bs[i].dev == d && bs[i].sector == c * CHUNK ==> bs[i].buf == old'
  }

  /** Chunk c of device d is not marked, and all that there is of it elsewhere is `old'`, which it is no more. */
  ghost predicate Missing<T>(s: State<T>, d: nat, c: nat, disks: seq<seq<T>>, old': seq<T>) {
    && d < |s.devs| == |disks| && c * CHUNK + CHUNK <= |s.devs[d].disk| == |disks[d]| &&
      c * CHUNK + CHUNK <= s.devs[d].cur
    && c !in s.devs[d].dirty && Chunk(s.devs[d].disk, c) != old'
    && Carry(s.inflight, d, c, old') && Carry(s.queue, d, c, old')
    && (Awaits(s.inflight, d, c) || Awaits(s.queue, d, c) || Chunk(disks[d], c) == old')
  }

  lemma LateIsMissing<T>(s: State<T>, w: nat, from: nat, n: nat, c: nat, disks: seq<seq<T>>)
    requires Inv(s, disks) && NoneFailed(s) && Enabled(s, Land(w, from, n)) && Late(s, s.pending[w], from, n, c)
    ensures var d := s.pending[w].dev; Missing(Apply(s, Land(w, from, n)), d, c, disks, Chunk(s.devs[d].disk, c))
  {
    var d := s.pending[w].dev;
    assert DevInv(s, d, disks[d]);
    assert Settled(s, d, disks[d], c);
    forall i | 0 <= i < |s.inflight| && s.inflight[i].dev == d && s.inflight[i].sector == c * CHUNK
      ensures s.inflight[i].buf == Chunk(s.devs[d].disk, c)
    {
      assert BlockInv(s.devs, s.inflight[i]);
    }
    forall i | 0 <= i < |s.queue| && s.queue[i].dev == d && s.queue[i].sector == c * CHUNK
      ensures s.queue[i].buf == Chunk(s.devs[d].disk, c)
    {
      assert BlockInv(s.devs, s.queue[i]);
    }
  }

  ghost predicate Holder<T>(bs: seq<Block<T>>, d: nat, c: nat, buf: seq<T>) {
    exists i :: 0 <= i < |bs| && bs[i].dev == d && bs[i].sector == c * CHUNK && bs[i].buf == buf
  }

  /** By the invariant, what is on its way for an unmarked chunk is current. */
  lemma Somewhere<T>(s: State<T>, d: nat, c: nat, disks: seq<seq<T>>)
    requires Inv(s, disks) && NoneFailed(s) && d < |s.devs| && c * CHUNK + CHUNK <= s.devs[d].cur &&
      c !in s.devs[d].dirty
    ensures c * CHUNK + CHUNK <= |s.devs[d].disk| == |disks[d]|
    ensures var chunk := Chunk(s.devs[d].disk, c);
      && (Awaits(s.inflight, d, c) ==> Holder(s.inflight, d, c, chunk))
      && (Awaits(s.queue, d, c) ==> Holder(s.queue, d, c, chunk))
      && (Awaits(s.inflight, d, c) || Awaits(s.queue, d, c) || Chunk(disks[d], c) == chunk)
  {
    assert DevInv(s, d, disks[d]);
    assert Settled(s, d, disks[d], c);
    if Awaits(s.inflight, d, c) {
      var i :| 0 <= i < |s.inflight| && s.inflight[i].dev == d && s.inflight[i].sector == c * CHUNK;
      assert BlockInv(s.devs, s.inflight[i]);
    }
    if Awaits(s.queue, d, c) {
      var i :| 0 <= i < |s.queue| && s.queue[i].dev == d && s.queue[i].sector == c * CHUNK;
      assert BlockInv(s.devs, s.queue[i]);
    }
  }

  lemma MissingBreaks<T>(s: State<T>, d: nat, c: nat, disks: seq<seq<T>>, old': seq<T>)
    requires Missing(s, d, c, disks, old') && NoneFailed(s)
    ensures !Inv(s, disks)
  {
    hide Inv, NoneFailed, Awaits;
    if Inv(s, disks) {
      Somewhere(s, d, c, disks);
    }
  }

  /** A step that does not concern chunk c of device d: no guest write to it, and no reading of it again. */
  ghost predicate LeavesAlone<T>(s: State<T>, a: Action<T>, d: nat, c: nat)
    requires Enabled(s, a)
  {
    match a
    case GuestWrite(e, sector, data) => e == d ==> !Touches(sector, |data|, c)
    case Mark(w) => w.dev == d ==> !Touches(w.sector, |w.data|, c)
    case Land(w, from, n) => s.pending[w].dev == d ==> !Touches(s.pending[w].sector + from, n, c)
    case Sample(i, k) => s.inflight[i].dev == d ==> s.inflight[i].sector != c * CHUNK
    case DirtyChunk(e, k) => false
    case _ => true
  }

  ghost predicate AllLeaveAlone<T>(s: State<T>, acts: seq<Action<T>>, d: nat, c: nat)
    requires Runs(s, acts)
    decreases |acts|
  {
    |acts| > 0 ==> LeavesAlone(s, acts[0], d, c) && AllLeaveAlone(Apply(s, acts[0]), acts[1..], d, c)
  }

  lemma CarryMore<T>(bs: seq<Block<T>>, b: Block<T>, d: nat, c: nat, old': seq<T>)
    requires Carry(bs, d, c, old') && (b.dev == d && b.sector == c * CHUNK ==> b.buf == old')
    ensures Carry(bs + [b], d, c, old')
  {}

  lemma MissingWrite<T>(s: State<T>, s': State<T>, d: nat, c: nat, e: nat, at: nat,
      data: seq<T>, disks: seq<seq<T>>, old': seq<T>)
    requires Missing(s, d, c, disks, old') && e < |s.devs| && at + |data| <= |s.devs[e].disk|
    requires e == d ==> !Touches(at, |data|, c)
    requires s'.inflight == s.inflight && s'.queue == s.queue && |s'.devs| == |s.devs|
    requires s'.devs == s.devs[e := s'.devs[e]] && s'.devs[e].disk == Splice(s.devs[e].disk, at, data) &&
      s'.devs[e].cur == s.devs[e].cur
    requires e == d ==> c !in s'.devs[d].dirty
    ensures Missing(s', d, c, disks, old')
  {
    if e == d {
      WriteElsewhere(s.devs[d].disk, at, data, c);
    }
  }

  /** Bulk reads start behind what was read. */
  lemma MissingRead<T>(s: State<T>, d: nat, c: nat, e: nat, p: nat, pad: seq<T>, disks: seq<seq<T>>, old': seq<T>)
    requires Missing(s, d, c, disks, old') && BulkReady(s, e, p, pad)
    ensures e == d ==> AlignDown(p) >= c * CHUNK + CHUNK
    ensures e == d ==> c !in Read(s.devs[d], p).dirty && Read(s.devs[d], p).cur >= c * CHUNK + CHUNK
  {}

  /** The head of the queue is sent: either it is chunk c, and then it is what it was, or it is another one. */
  lemma MissingFlush<T>(s: State<T>, d: nat, c: nat, disks: seq<seq<T>>, old': seq<T>)
    requires Missing(s, d, c, disks, old') && ChunkBlocks(s.queue) && Enabled(s, FlushHead)
    ensures Missing(Apply(s, FlushHead), d, c, Receive(disks, Data(s.queue[0].dev, s.queue[0].sector, s.queue[0].buf)),
      old')
  {
    var b := s.queue[0];
    var disks' := Receive(disks, Data(b.dev, b.sector, b.buf));
    forall i | 0 <= i < |s.queue[1..]| && s.queue[1..][i].dev == d && s.queue[1..][i].sector == c * CHUNK
      ensures s.queue[1..][i].buf == old'
    {
      assert s.queue[i + 1] == s.queue[1..][i];
    }
    if b.dev == d {
      if b.sector == c * CHUNK {
        WriteChunk(disks[d], c, b.buf);
      } else {
        OtherChunkKept(disks[d], b.sector, b.buf, c);
      }
    }
    if Awaits(s.queue, d, c) {
      FlushAwaits(s, d, c);
    }
  }

  lemma MissingComplete<T>(s: State<T>, i: nat, ret: int, d: nat, c: nat, disks: seq<seq<T>>, old': seq<T>)
    requires Missing(s, d, c, disks, old') && Enabled(s, Complete(i, ret))
    ensures Missing(Apply(s, Complete(i, ret)), d, c, disks, old')
  {
    var s' := Apply(s, Complete(i, ret));
    forall j | 0 <= j < |s'.inflight|
      ensures s'.inflight[j] == s.inflight[if j < i then j else j + 1]
    {}
    CarryMore(s.queue, s.inflight[i].(ret := ret), d, c, old');
    CompleteAwaits(s, i, ret, d);
  }

  lemma MissingSample<T>(s: State<T>, i: nat, k: nat, d: nat, c: nat, disks: seq<seq<T>>, old': seq<T>)
    requires Missing(s, d, c, disks, old') && Enabled(s, Sample(i, k)) && LeavesAlone(s, Sample(i, k), d, c)
    ensures Missing(Apply(s, Sample(i, k)), d, c, disks, old')
  {
    var s' := Apply(s, Sample(i, k));
    if Awaits(s.inflight, d, c) {
      var j :| 0 <= j < |s.inflight| && s.inflight[j].dev == d && s.inflight[j].sector == c * CHUNK;
      assert s'.inflight[j].dev == d && s'.inflight[j].sector == c * CHUNK;
    }
  }

  lemma MissingSubmit<T>(s: State<T>, e: nat, p: nat, pad: seq<T>, d: nat, c: nat, disks: seq<seq<T>>, old': seq<T>)
    requires Missing(s, d, c, disks, old') && Enabled(s, Submit(e, p, pad))
    ensures Missing(Apply(s, Submit(e, p, pad)), d, c, disks, old')
  {
    hide AlignDown, Covered, BulkBuffer, Skips;
    var s' := Apply(s, Submit(e, p, pad));
    MissingRead(s, d, c, e, p, pad, disks, old');
    CarryMore(s.inflight, s'.inflight[|s.inflight|], d, c, old');
    AwaitsMore(s.inflight, s'.inflight, d, c);
  }

  lemma MissingSync<T>(s: State<T>, e: nat, p: nat, pad: seq<T>, d: nat, c: nat, disks: seq<seq<T>>, old': seq<T>)
    requires Missing(s, d, c, disks, old') && Enabled(s, SyncBulk(e, p, pad))
    ensures var r := Data(e, AlignDown(p), BulkBuffer(s.devs[e].disk, AlignDown(p), pad));
      Missing(Apply(s, SyncBulk(e, p, pad)), d, c, Receive(disks, r), old')
  {
    hide Skips;
    MissingRead(s, d, c, e, p, pad, disks, old');
    if e == d {
      OtherChunkKept(disks[d], AlignDown(p), BulkBuffer(s.devs[d].disk, AlignDown(p), pad), c);
    }
  }

  lemma MissingStep<T>(s: State<T>, a: Action<T>, d: nat, c: nat, disks0: seq<seq<T>>, old': seq<T>)
    requires Missing(s, d, c, Replay(disks0, s.out), old') && SendsChunks(s) && Enabled(s, a) && LeavesAlone(s, a, d, c)
    ensures Missing(Apply(s, a), d, c, Replay(disks0, Apply(s, a).out), old')
  {
    hide Missing, Splice, Landed, AlignDown, BulkBuffer, Skips, Touched, SectorSet;
    var (s', disks) := (Apply(s, a), Replay(disks0, s.out));
    MissingIs(s, d, c, disks, old');
    match a
    case GuestWrite(e, sector, data) =>
      NotTouched(sector, |data|, c);
      MissingWrite(s, s', d, c, e, sector, data, disks, old');
    case Mark(w) =>
      NotTouched(w.sector, |w.data|, c);
      MissingSame(s, s', d, c, disks, old');
    case Land(w, from, n) =>
      var p := s.pending[w];
      LandedIs(s, p, from, n);
      MissingWrite(s, s', d, c, p.dev, p.sector + from, p.data[from..from + n], disks, old');
    case Submit(e, p, pad) => MissingSubmit(s, e, p, pad, d, c, disks, old');
    case SyncBulk(e, p, pad) =>
      MissingSync(s, e, p, pad, d, c, disks, old');
      ReplayMore(disks0, s.out, Data(e, AlignDown(p), BulkBuffer(s.devs[e].disk, AlignDown(p), pad)));
    case Sample(i, k) => MissingSample(s, i, k, d, c, disks, old');
    case Complete(i, ret) => MissingComplete(s, i, ret, d, c, disks, old');
    case FlushHead =>
      MissingFlush(s, d, c, disks, old');
      ReplayMore(disks0, s.out, Data(s.queue[0].dev, s.queue[0].sector, s.queue[0].buf));
    case Emit(r) =>
      ReplayMore(disks0, s.out, r);
      MissingSame(s, s', d, c, disks, old');
    case _ => MissingSame(s, s', d, c, disks, old');
  }

  lemma MissingIs<T>(s: State<T>, d: nat, c: nat, disks: seq<seq<T>>, old': seq<T>)
    requires Missing(s, d, c, disks, old')
    ensures d < |s.devs| && c !in s.devs[d].dirty && c * CHUNK + CHUNK <= s.devs[d].cur
    ensures c * CHUNK + CHUNK <= |s.devs[d].disk|
  {}

  /** Steps that move cur on, and change marks and flags elsewhere. */
  lemma MissingSame<T>(s: State<T>, s': State<T>, d: nat, c: nat, disks: seq<seq<T>>, old': seq<T>)
    requires Missing(s, d, c, disks, old') && s'.inflight == s.inflight && s'.queue == s.queue
    requires d < |s.devs| == |s'.devs| && s'.devs[d].disk == s.devs[d].disk
    requires c !in s'.devs[d].dirty && c * CHUNK + CHUNK <= s'.devs[d].cur
    ensures Missing(s', d, c, disks, old')
  {}

  lemma NotTouched(sector: nat, n: nat, c: nat)
    ensures !Touches(sector, n, c) ==> c !in Touched(sector, n)
  {}

  lemma LandedIs<T>(s: State<T>, w: AioWrite<T>, from: nat, n: nat)
    requires CanLand(s, w, from, n)
    ensures var dev := Landed(s, w, from, n);
      && dev.disk == Splice(s.devs[w.dev].disk, w.sector + from, w.data[from..from + n])
      && dev.cur == s.devs[w.dev].cur && dev.dirty == s.devs[w.dev].dirty
  {}

  lemma {:induction false} MissingRun<T>(s: State<T>, acts: seq<Action<T>>, d: nat, c: nat,
      disks0: seq<seq<T>>, old': seq<T>)
    requires Missing(s, d, c, Replay(disks0, s.out), old') && SendsChunks(s) && Runs(s, acts) &&
      AllLeaveAlone(s, acts, d, c)
    ensures Missing(Run(s, acts), d, c, Replay(disks0, Run(s, acts).out), old')
    decreases |acts|
  {
    hide Missing, SendsChunks;
    if |acts| > 0 {
      MissingStep(s, acts[0], d, c, disks0, old');
      OnlyChunksStep(s, acts[0]);
      MissingRun(Apply(s, acts[0]), acts[1..], d, c, disks0, old');
    }
  }

  lemma LateFits<T>(s: State<T>, w: AioWrite<T>, from: nat, n: nat, c: nat)
    requires CanLand(s, w, from, n) && Late(s, w, from, n, c)
    ensures c * CHUNK + CHUNK <= |s.devs[w.dev].disk|
  {}

  /**
   * A landing that comes too late loses its chunk for every receiver: unless the guest writes to the
   * chunk again, or a read of it that is still under way picks the data up, the pass will not send it.
   */
  lemma LateIsLost<T>(s: State<T>, w: nat, from: nat, n: nat, c: nat, rest: seq<Action<T>>, disks0: seq<seq<T>>)
    requires Inv(s, Replay(disks0, s.out)) && SendsChunks(s) && NoneFailed(s)
    requires Enabled(s, Land(w, from, n)) && Late(s, s.pending[w], from, n, c)
    requires var s1 := Apply(s, Land(w, from, n));
      Runs(s1, rest) && AllLeaveAlone(s1, rest, s.pending[w].dev, c) && !Unsent(Run(s1, rest), s.pending[w].dev, c)
    ensures var s' := Run(Apply(s, Land(w, from, n)), rest); !AllCaught(s', Replay(disks0, s'.out))
  {
    hide Inv, Late, AllLeaveAlone, SendsChunks;
    var d := s.pending[w].dev;
    var s1 := Apply(s, Land(w, from, n));
    LateFits(s, s.pending[w], from, n, c);
    var old' := Chunk(s.devs[d].disk, c);
    LateIsMissing(s, w, from, n, c, Replay(disks0, s.out));
    OnlyChunksStep(s, Land(w, from, n));
    MissingRun(s1, rest, d, c, disks0, old');
    var s' := Run(s1, rest);
    assert !Caught(s', Replay(disks0, s'.out), d, c);
  }

  /** Steps that move along what is on its way: nothing the guest does, and no reading of it again. */
  ghost predicate Deliveries<T>(acts: seq<Action<T>>) {
    forall i :: 0 <= i < |acts| ==>
      !acts[i].GuestWrite? && !acts[i].Mark? && !acts[i].Land? && !acts[i].Sample? && !acts[i].DirtyChunk?
  }

  lemma {:induction false} DeliveriesLeaveAlone<T>(s: State<T>, acts: seq<Action<T>>, d: nat, c: nat)
    requires Runs(s, acts) && Deliveries(acts)
    ensures AllLeaveAlone(s, acts, d, c)
    decreases |acts|
  {
    if |acts| > 0 {
      DeliveriesLeaveAlone(Apply(s, acts[0]), acts[1..], d, c);
    }
  }

  ghost predicate Drained<T>(s: State<T>) { AllRead(s) && s.inflight == [] && s.queue == [] }

  /**
   * Over whole runs, for every receiver: after landings in time, one more landing, and whatever it
   * takes to read and send the rest, everything that the pass needs is there exactly if that landing
   * was in time.
   */
  lemma LandingDecides<T>(s0: State<T>, before: seq<Action<T>>, w: nat, from: nat, n: nat,
      rest: seq<Action<T>>, disks0: seq<seq<T>>)
    requires Initial(s0, disks0) && Runs(s0, before) && Live(before) && Timely(s0, before)
    requires var s := Run(s0, before);
      && NoneFailed(s) && Enabled(s, Land(w, from, n))
      && var s1 := Apply(s, Land(w, from, n));
      && Runs(s1, rest) && Deliveries(rest) && Drained(Run(s1, rest))
    ensures var s := Run(s0, before);
      var s' := Run(Apply(s, Land(w, from, n)), rest);
      AllCaught(s', Replay(disks0, s'.out)) <==> InTime(s, s.pending[w], from, n)
  {
    hide AllCaught, Inv, InTime, Initial, Deliveries, SendsChunks, Late;
    var s := Run(s0, before);
    var s1 := Apply(s, Land(w, from, n));
    var s' := Run(s1, rest);
    InitialInv(s0, disks0);
    LiveRunKeeps(s0, before, disks0);
    StartsEmpty(s0, disks0);
    OnlyChunks(s0, before);
    if InTime(s, s.pending[w], from, n) {
      LandKeeps(s, w, from, n, Replay(disks0, s.out));
      DeliveriesAreLive(rest);
      NoLandingIsTimely(s1, rest);
      LiveRunKeeps(s1, rest, disks0);
      DrainedIsOvertaken(s');
      OvertakenIsCaught(s', Replay(disks0, s'.out));
    } else {
      LateOrInTime(s, s.pending[w], from, n);
      var c: nat :| Late(s, s.pending[w], from, n, c);
      DeliveriesLeaveAlone(s1, rest, s.pending[w].dev, c);
      NothingUnsent(s', s.pending[w].dev, c);
      LateIsLost(s, w, from, n, c, rest, disks0);
    }
  }

  lemma StartsEmpty<T>(s0: State<T>, disks0: seq<seq<T>>)
    requires Initial(s0, disks0)
    ensures SendsChunks(s0)
  {}

  lemma DeliveriesAreLive<T>(acts: seq<Action<T>>)
    requires Deliveries(acts)
    ensures Live(acts) && forall i :: 0 <= i < |acts| ==> !acts[i].Land?
  {}

  lemma NothingUnsent<T>(s: State<T>, d: nat, c: nat)
    requires Drained(s)
    ensures !Unsent(s, d, c)
  {}

  // What would keep landings in time.

  /** Every chunk that a pending write may still change is marked. */
  ghost predicate Guarded<T>(s: State<T>) {
    forall i, c: nat ::
      0 <= i < |s.pending| && s.pending[i].dev < |s.devs| && Touches(s.pending[i].sector, |s.pending[i].data|, c) ==>
      c in s.devs[s.pending[i].dev].dirty
  }

  /** A bulk read waits for the pending writes to its chunk. */
  ghost predicate Waits<T>(s: State<T>, d: nat, p: nat) {
    forall i :: 0 <= i < |s.pending| && s.pending[i].dev == d ==>
      !Touches(s.pending[i].sector, |s.pending[i].data|, AlignDown(p) / CHUNK)
  }

  ghost predicate CarefulStep<T>(s: State<T>, a: Action<T>) {
    match a
    case Submit(d, p, pad) => Waits(s, d, p)
    case SyncBulk(d, p, pad) => Waits(s, d, p)
    case DirtyChunk(d, c) => false
    case _ => true
  }

  ghost predicate Careful<T>(s: State<T>, acts: seq<Action<T>>)
    requires Runs(s, acts)
    decreases |acts|
  {
    |acts| > 0 ==> CarefulStep(s, acts[0]) && Careful(Apply(s, acts[0]), acts[1..])
  }

  lemma GuardedMore<T>(s: State<T>, s': State<T>)
    requires Guarded(s) && s'.pending == s.pending && |s'.devs| == |s.devs|
    requires forall d :: 0 <= d < |s.devs| ==> s.devs[d].dirty <= s'.devs[d].dirty
    ensures Guarded(s')
  {}

  lemma GuardedRead<T>(s: State<T>, s': State<T>, d: nat, p: nat)
    requires Guarded(s) && Waits(s, d, p) && s'.pending == s.pending && d < |s.devs| && p < |s.devs[d].disk|
    requires s'.devs == s.devs[d := Read(s.devs[d], p)]
    ensures Guarded(s')
  {}

  lemma GuardedMark<T>(s: State<T>, w: AioWrite<T>)
    requires Guarded(s) && Enabled(s, Mark(w))
    ensures Guarded(Apply(s, Mark(w)))
  {
    var s' := Apply(s, Mark(w));
    forall i, c: nat | 0 <= i < |s'.pending| && s'.pending[i].dev < |s.devs| &&
      Touches(s'.pending[i].sector, |s'.pending[i].data|, c)
      ensures c in s'.devs[s'.pending[i].dev].dirty
    {
      if i == |s.pending| {
        assert c in Touched(w.sector, |w.data|);
      }
    }
  }

  lemma GuardedFinish<T>(s: State<T>, w: nat)
    requires Guarded(s) && Enabled(s, Finish(w))
    ensures Guarded(Apply(s, Finish(w)))
  {
    var s' := Apply(s, Finish(w));
    forall i | 0 <= i < |s'.pending|
      ensures s'.pending[i] == s.pending[if i < w then i else i + 1]
    {}
  }

  lemma GuardedStep<T>(s: State<T>, a: Action<T>)
    requires Guarded(s) && Enabled(s, a) && CarefulStep(s, a)
    ensures TimelyStep(s, a) && Guarded(Apply(s, a))
  {
    hide Guarded, Waits, InTime, AlignDown, Touched, Skips, Landed;
    match a
    case Submit(d, p, pad) => GuardedRead(s, Apply(s, a), d, p);
    case SyncBulk(d, p, pad) => GuardedRead(s, Apply(s, a), d, p);
    case Mark(w) => GuardedMark(s, w);
    case Finish(w) => GuardedFinish(s, w);
    case Land(w, from, n) =>
      LandsInTime(s, w, from, n);
      LandedIs(s, s.pending[w], from, n);
      GuardedMore(s, Apply(s, a));
    case _ => GuardedMore(s, Apply(s, a));
  }

  lemma LandsInTime<T>(s: State<T>, w: nat, from: nat, n: nat)
    requires Guarded(s) && Enabled(s, Land(w, from, n))
    ensures InTime(s, s.pending[w], from, n)
  {
    var p := s.pending[w];
    forall c: nat | c * CHUNK + CHUNK <= |s.devs[p.dev].disk| && c !in s.devs[p.dev].dirty
      ensures Chunk(Landed(s, p, from, n).disk, c) == Chunk(s.devs[p.dev].disk, c)
    {
      assert !Touches(p.sector, |p.data|, c);
      WriteElsewhere(s.devs[p.dev].disk, p.sector + from, p.data[from..from + n], c);
    }
  }

  /**
   * If bulk reads waited for the pending writes to their chunk, and none were pending when tracking
   * was switched on, every landing would be in time.
   */
  lemma {:induction false} CarefulIsTimely<T>(s: State<T>, acts: seq<Action<T>>)
    requires Guarded(s) && Runs(s, acts) && Careful(s, acts)
    ensures Timely(s, acts) && Guarded(Run(s, acts))
    decreases |acts|
  {
    hide Guarded, CarefulStep;
    if |acts| > 0 {
      GuardedStep(s, acts[0]);
      CarefulIsTimely(Apply(s, acts[0]), acts[1..]);
    }
  }
}
