/**
 * When the sender can be sure of the receiver: a chunk that was read and not sent is still what it
 * was at the receiver before the migration, so the condition of convergence is exact.
 */
module MigrationSure {
  import opened MigrationModel
  import opened MigrationProof
  import opened MigrationPass

  // Every chunk is read once, so a chunk on its way has never been sent.

  ghost predicate SamePlace<T>(a: Block<T>, b: Block<T>) { a.dev == b.dev && a.sector == b.sector }

  ghost predicate Distinct<T>(bs: seq<Block<T>>) { forall i, j :: 0 <= i < j < |bs| ==> !SamePlace(bs[i], bs[j]) }

  ghost predicate Apart<T>(as': seq<Block<T>>, bs: seq<Block<T>>) {
    forall i, j :: 0 <= i < |as'| && 0 <= j < |bs| ==> !SamePlace(as'[i], bs[j])
  }

  ghost predicate Goes<T>(r: Record<T>, d: nat, sector: nat) { r.Data? && r.dev == d && r.sector == sector }

  ghost predicate NeverSent<T>(out: seq<Record<T>>, d: nat, sector: nat) { forall j :: 0 <= j < |out| ==>
      !Goes(out[j], d, sector) }

  ghost predicate NoneSent<T>(bs: seq<Block<T>>, out: seq<Record<T>>) {
    forall i :: 0 <= i < |bs| ==> NeverSent(out, bs[i].dev, bs[i].sector)
  }

  ghost predicate Below<T>(devs: seq<Dev<T>>, d: nat, sector: nat) { d < |devs| && sector < devs[d].cur }

  ghost predicate SentBelow<T>(devs: seq<Dev<T>>, out: seq<Record<T>>) {
    forall j :: 0 <= j < |out| && out[j].Data? ==> Below(devs, out[j].dev, out[j].sector)
  }

  ghost predicate BlocksBelow<T>(devs: seq<Dev<T>>, bs: seq<Block<T>>) {
    forall i :: 0 <= i < |bs| ==> Below(devs, bs[i].dev, bs[i].sector)
  }

  ghost predicate Once<T>(s: State<T>) {
    && Distinct(s.inflight) && Distinct(s.queue) && Apart(s.inflight, s.queue)
    && NoneSent(s.inflight, s.out) && NoneSent(s.queue, s.out)
    && BlocksBelow(s.devs, s.inflight) && BlocksBelow(s.devs, s.queue) && SentBelow(s.devs, s.out)
    && (forall d :: 0 <= d < |s.devs| ==> Shape(s.devs[d]))
  }

  /** Positions only move up. */
  ghost predicate Upward<T>(devs: seq<Dev<T>>, devs': seq<Dev<T>>) {
    |devs| == |devs'| && forall d :: 0 <= d < |devs| ==> devs[d].cur <= devs'[d].cur && Shape(devs'[d])
  }

  lemma OnceUpward<T>(s: State<T>, s': State<T>)
    requires Once(s) && Upward(s.devs, s'.devs) && s'.inflight == s.inflight && s'.queue == s.queue && s'.out == s.out
    ensures Once(s')
  {
    forall j | 0 <= j < |s.out| && s.out[j].Data?
      ensures Below(s'.devs, s.out[j].dev, s.out[j].sector)
    {
      assert Below(s.devs, s.out[j].dev, s.out[j].sector);
    }
    OnlyUp(s.devs, s'.devs, s.inflight);
    OnlyUp(s.devs, s'.devs, s.queue);
  }

  lemma OnlyUp<T>(devs: seq<Dev<T>>, devs': seq<Dev<T>>, bs: seq<Block<T>>)
    requires BlocksBelow(devs, bs) && Upward(devs, devs')
    ensures BlocksBelow(devs', bs)
  {
    forall i | 0 <= i < |bs|
      ensures Below(devs', bs[i].dev, bs[i].sector)
    {
      assert Below(devs, bs[i].dev, bs[i].sector);
    }
  }

  /** A bulk read starts behind everything that was ever read. */
  lemma ReadIsNew<T>(s: State<T>, d: nat, p: nat, pad: seq<T>)
    requires Once(s) && BulkReady(s, d, p, pad)
    ensures s.devs[d].cur <= AlignDown(p) < Read(s.devs[d], p).cur && Upward(s.devs, s.devs[d := Read(s.devs[d], p)])
    ensures NeverSent(s.out, d, AlignDown(p))
    ensures forall i :: 0 <= i < |s.inflight| ==> !(s.inflight[i].dev == d && s.inflight[i].sector == AlignDown(p))
    ensures forall i :: 0 <= i < |s.queue| ==> !(s.queue[i].dev == d && s.queue[i].sector == AlignDown(p))
  {
    assert Shape(s.devs[d]);
    BulkPosition(s.devs[d], p);
    forall j | 0 <= j < |s.out|
      ensures !Goes(s.out[j], d, AlignDown(p))
    {
      assert s.out[j].Data? ==> Below(s.devs, s.out[j].dev, s.out[j].sector);
    }
    forall i | 0 <= i < |s.inflight|
      ensures !(s.inflight[i].dev == d && s.inflight[i].sector == AlignDown(p))
    {
      assert Below(s.devs, s.inflight[i].dev, s.inflight[i].sector);
    }
    forall i | 0 <= i < |s.queue|
      ensures !(s.queue[i].dev == d && s.queue[i].sector == AlignDown(p))
    {
      assert Below(s.devs, s.queue[i].dev, s.queue[i].sector);
    }
  }

  lemma SubmitOnce<T>(s: State<T>, d: nat, p: nat, pad: seq<T>)
    requires Once(s) && Enabled(s, Submit(d, p, pad))
    ensures Once(Apply(s, Submit(d, p, pad)))
  {
    hide AlignDown, Skips, Covered, BulkBuffer, Shape;
    ReadIsNew(s, d, p, pad);
    var s' := Apply(s, Submit(d, p, pad));
    var b := s'.inflight[|s.inflight|];
    var mid := s.(devs := s'.devs);
    OnceUpward(s, mid);
    assert s'.inflight == s.inflight + [b] && b.dev == d && b.sector == AlignDown(p);
    forall j | 0 <= j < |s.queue|
      ensures !SamePlace(b, s.queue[j])
    {}
    assert Below(s'.devs, b.dev, b.sector);
    MoreBlocks(s.inflight, b, mid);
  }

  lemma MoreBlocks<T>(bs: seq<Block<T>>, b: Block<T>, s: State<T>)
    requires Distinct(bs) && NoneSent(bs, s.out) && BlocksBelow(s.devs, bs) && Apart(bs, s.queue)
    requires forall i :: 0 <= i < |bs| ==> !SamePlace(bs[i], b)
    requires forall j :: 0 <= j < |s.queue| ==> !SamePlace(b, s.queue[j])
    requires NeverSent(s.out, b.dev, b.sector) && Below(s.devs, b.dev, b.sector)
    ensures Distinct(bs + [b]) && NoneSent(bs + [b], s.out) && BlocksBelow(s.devs, bs + [b]) && Apart(bs + [b], s.queue)
  {
    hide NeverSent, Below;
  }

  lemma SyncBulkOnce<T>(s: State<T>, d: nat, p: nat, pad: seq<T>)
    requires Once(s) && Enabled(s, SyncBulk(d, p, pad))
    ensures Once(Apply(s, SyncBulk(d, p, pad)))
  {
    hide AlignDown, Skips, Covered, BulkBuffer, Shape;
    ReadIsNew(s, d, p, pad);
    var s' := Apply(s, SyncBulk(d, p, pad));
    var mid := s.(devs := s'.devs);
    OnceUpward(s, mid);
    var r := s'.out[|s.out|];
    assert s'.out == s.out + [r] && Below(s'.devs, r.dev, r.sector);
    StillUnsent(s.inflight, s.out, r);
    StillUnsent(s.queue, s.out, r);
  }

  lemma StillUnsent<T>(bs: seq<Block<T>>, out: seq<Record<T>>, r: Record<T>)
    requires NoneSent(bs, out) && forall i :: 0 <= i < |bs| ==> !Goes(r, bs[i].dev, bs[i].sector)
    ensures NoneSent(bs, out + [r])
  {
    forall i | 0 <= i < |bs|
      ensures NeverSent(out + [r], bs[i].dev, bs[i].sector)
    {
      assert NeverSent(out, bs[i].dev, bs[i].sector);
    }
  }

  lemma SampleOnce<T>(s: State<T>, i: nat, k: nat)
    requires Once(s) && Enabled(s, Sample(i, k))
    ensures Once(Apply(s, Sample(i, k)))
  {
    hide NeverSent, Below, Shape;
    var s' := Apply(s, Sample(i, k));
    assert forall j :: 0 <= j < |s.inflight| ==>
      s'.inflight[j].dev == s.inflight[j].dev && s'.inflight[j].sector == s.inflight[j].sector;
    assert forall a, b :: 0 <= a < |s.inflight| && 0 <= b < |s.inflight| ==>
      SamePlace(s'.inflight[a], s'.inflight[b]) == SamePlace(s.inflight[a], s.inflight[b]);
    assert forall a, b :: 0 <= a < |s.inflight| && 0 <= b < |s.queue| ==>
      SamePlace(s'.inflight[a], s'.queue[b]) == SamePlace(s.inflight[a], s.queue[b]);
  }

  lemma CompleteOnce<T>(s: State<T>, i: nat, ret: int)
    requires Once(s) && Enabled(s, Complete(i, ret))
    ensures Once(Apply(s, Complete(i, ret)))
  {
    hide NeverSent, Below, Shape;
    var s' := Apply(s, Complete(i, ret));
    var b := s.inflight[i].(ret := ret);
    assert SamePlace(b, s.inflight[i]);
    var old' := (j: int) => if j < i then j else j + 1;
    forall j | 0 <= j < |s'.inflight|
      ensures s'.inflight[j] == s.inflight[old'(j)] && !SamePlace(s'.inflight[j], b)
    {
      assert if j < i then !SamePlace(s.inflight[j], s.inflight[i]) else !SamePlace(s.inflight[i], s.inflight[j + 1]);
    }
    forall j | 0 <= j < |s.queue|
      ensures !SamePlace(s.queue[j], b)
    {
      assert !SamePlace(s.inflight[i], s.queue[j]);
    }
    CompletedInflight(s, i);
    CompletedQueue(s, b, s'.inflight);
    assert s'.queue == s.queue + [b];
  }

  lemma CompletedInflight<T>(s: State<T>, i: nat)
    requires Once(s) && i < |s.inflight|
    ensures var rest := s.inflight[..i] + s.inflight[i + 1..];
      Distinct(rest) && NoneSent(rest, s.out) && BlocksBelow(s.devs, rest) && Apart(rest, s.queue)
  {
    hide NeverSent, Below, Shape, SamePlace;
    var rest := s.inflight[..i] + s.inflight[i + 1..];
    forall j | 0 <= j < |rest|
      ensures rest[j] == s.inflight[if j < i then j else j + 1]
    {}
  }

  lemma CompletedQueue<T>(s: State<T>, b: Block<T>, rest: seq<Block<T>>)
    requires Once(s) && NeverSent(s.out, b.dev, b.sector) && Below(s.devs, b.dev, b.sector) && Apart(rest, s.queue)
    requires forall j :: 0 <= j < |s.queue| ==> !SamePlace(s.queue[j], b)
    requires forall j :: 0 <= j < |rest| ==> !SamePlace(rest[j], b)
    ensures var queue := s.queue + [b];
      Distinct(queue) && NoneSent(queue, s.out) && BlocksBelow(s.devs, queue) && Apart(rest, queue)
  {
    hide NeverSent, Below, Shape, SamePlace;
  }

  lemma FlushHeadOnce<T>(s: State<T>)
    requires Once(s) && Enabled(s, FlushHead)
    ensures Once(Apply(s, FlushHead))
  {
    hide Shape;
    var s' := Apply(s, FlushHead);
    var b := s.queue[0];
    var r := Data(b.dev, b.sector, b.buf);
    assert s'.out == s.out + [r];
    assert Below(s.devs, b.dev, b.sector);
    forall i | 0 <= i < |s.inflight|
      ensures !Goes(r, s.inflight[i].dev, s.inflight[i].sector)
    {
      assert !SamePlace(s.inflight[i], b);
    }
    forall i | 0 <= i < |s'.queue|
      ensures !Goes(r, s'.queue[i].dev, s'.queue[i].sector) && s'.queue[i] == s.queue[i + 1]
    {
      assert !SamePlace(b, s.queue[i + 1]);
    }
    WithoutHead(s);
    StillUnsent(s.inflight, s.out, r);
    StillUnsent(s'.queue, s.out, r);
  }

  lemma WithoutHead<T>(s: State<T>)
    requires Once(s) && |s.queue| > 0
    ensures var rest := s.queue[1..];
      Distinct(rest) && NoneSent(rest, s.out) && BlocksBelow(s.devs, rest) && Apart(s.inflight, rest)
  {
    hide NeverSent, Below, Shape, SamePlace;
  }

  lemma EmitOnce<T>(s: State<T>, r: Record<T>)
    requires Once(s) && !r.Data?
    ensures Once(s.(out := s.out + [r]))
  {
    hide Shape, Below;
    StillUnsent(s.inflight, s.out, r);
    StillUnsent(s.queue, s.out, r);
  }

  lemma StepOnce<T>(s: State<T>, a: Action<T>)
    requires Once(s) && Enabled(s, a) && !a.DirtyChunk?
    ensures Once(Apply(s, a))
  {
    hide Once;
    var s' := Apply(s, a);
    match a
    case Submit(d, p, pad) => SubmitOnce(s, d, p, pad);
    case SyncBulk(d, p, pad) => SyncBulkOnce(s, d, p, pad);
    case Sample(i, k) => SampleOnce(s, i, k);
    case Complete(i, ret) => CompleteOnce(s, i, ret);
    case FlushHead => FlushHeadOnce(s);
    case Emit(r) => EmitOnce(s, r);
    case _ =>
      OnceShapes(s);
      OnceUpward(s, s');
  }

  lemma OnceShapes<T>(s: State<T>)
    requires Once(s)
    ensures forall d :: 0 <= d < |s.devs| ==> Shape(s.devs[d])
  {}

  lemma {:induction false} RunOnce<T>(s: State<T>, acts: seq<Action<T>>)
    requires Once(s) && Runs(s, acts) && Live(acts)
    ensures Once(Run(s, acts))
    decreases |acts|
  {
    hide Once;
    if |acts| > 0 {
      StepOnce(s, acts[0]);
      RunOnce(Apply(s, acts[0]), acts[1..]);
    }
  }

  /** A chunk that was never sent is what it was at the receiver. */
  lemma {:induction false} NeverSentIsKept<T>(disks: seq<seq<T>>, out: seq<Record<T>>, d: nat, c: nat)
    requires ChunkStream(out) && d < |disks| && c * CHUNK + CHUNK <= |disks[d]| && NeverSent(out, d, c * CHUNK)
    ensures Chunk(Replay(disks, out)[d], c) == Chunk(disks[d], c)
    decreases |out|
  {
    if |out| > 0 {
      var (front, r) := (out[..|out| - 1], out[|out| - 1]);
      NeverSentIsKept(disks, front, d, c);
      assert WholeChunk(r) && !Goes(r, d, c * CHUNK);
      if r.Data? && r.dev == d {
        OtherChunkKept(Replay(disks, front)[d], r.sector, r.buf, c);
      }
    }
  }

  lemma OtherChunkKept<T>(disk: seq<T>, sector: nat, buf: seq<T>, c: nat)
    requires |buf| == CHUNK && sector % CHUNK == 0 && sector != c * CHUNK && c * CHUNK + CHUNK <= |disk|
    ensures Chunk(Write(disk, sector, buf), c) == Chunk(disk, c)
  {
    if sector + |buf| <= |disk| {
      assert sector == sector / CHUNK * CHUNK;
      WriteElsewhere(disk, sector, buf, c);
    }
  }

  // The condition.

  /** The receiver that has the source's disks. */
  function OwnDisks<T>(s: State<T>): (disks: seq<seq<T>>)
    ensures |disks| == |s.devs|
  {
    seq(|s.devs|, d requires 0 <= d < |s.devs| => s.devs[d].disk)
  }

  /** The sender can start from s0: some receiver meets what a start requires. */
  ghost predicate CanStart<T>(s0: State<T>) { Initial(s0, OwnDisks(s0)) }

  /**
   * Leaving a chunk unsent does no harm: it is marked, or the base that both sides share held all of
   * it when the migration started, and its contents are still the same.
   */
  ghost predicate Harmless<T>(s0: State<T>, s: State<T>, d: nat, c: nat)
    requires d < |s0.devs| == |s.devs| && |s0.devs[d].disk| == |s.devs[d].disk| && c * CHUNK + CHUNK <= |s.devs[d].disk|
  {
    || c in s.devs[d].dirty
    || (s0.devs[d].sharedBase && forall k :: c * CHUNK <= k < c * CHUNK + CHUNK ==> Shared(s0, s, d, k))
  }

  ghost predicate Shared<T>(s0: State<T>, s: State<T>, d: nat, k: nat)
    requires d < |s0.devs| == |s.devs| && |s0.devs[d].disk| == |s.devs[d].disk| && k < |s.devs[d].disk|
  {
    k !in s0.devs[d].alloc && s0.devs[d].disk[k] == s.devs[d].disk[k]
  }

  ghost predicate Sizes<T>(s0: State<T>, s: State<T>) {
    |s.devs| == |s0.devs| && forall d :: 0 <= d < |s.devs| ==> |s.devs[d].disk| == |s0.devs[d].disk|
  }

  ghost predicate AllHarmless<T>(s0: State<T>, s: State<T>)
    requires Sizes(s0, s)
  {
    forall d: nat, c: nat :: Unsent(s, d, c) ==> Harmless(s0, s, d, c)
  }

  /** What a live run from a start leads to. */
  lemma Reached<T>(s0: State<T>, live: seq<Action<T>>, disks0: seq<seq<T>>)
    requires Initial(s0, disks0) && Runs(s0, live) && Live(live) && Timely(s0, live)
    ensures var s := Run(s0, live);
      && Inv(s, Replay(disks0, s.out)) && Once(s) && ChunkStream(s.out)
      && Sizes(s0, s) && forall d :: 0 <= d < |s0.devs| ==> |disks0[d]| == |s0.devs[d].disk|
  {
    hide Inv, Once;
    var s := Run(s0, live);
    InitialInv(s0, disks0);
    LiveRunKeeps(s0, live, disks0);
    InitialOnce(s0, disks0);
    RunOnce(s0, live);
    OnlyChunks(s0, live);
    InvSized(s, Replay(disks0, s.out));
    forall d | 0 <= d < |s0.devs|
      ensures |disks0[d]| == |s0.devs[d].disk| == |s.devs[d].disk|
    {
      assert InitialDev(s0.devs[d], disks0[d]);
    }
  }

  lemma InitialOnce<T>(s0: State<T>, disks0: seq<seq<T>>)
    requires Initial(s0, disks0)
    ensures Once(s0)
  {
    forall d | 0 <= d < |s0.devs|
      ensures Shape(s0.devs[d])
    {
      assert InitialDev(s0.devs[d], disks0[d]);
    }
  }

  lemma UnsentNeverSent<T>(s: State<T>, d: nat, c: nat)
    requires Once(s) && Unsent(s, d, c)
    ensures NeverSent(s.out, d, c * CHUNK)
  {
    if Awaits(s.inflight, d, c) {
      var i :| 0 <= i < |s.inflight| && s.inflight[i].dev == d && s.inflight[i].sector == c * CHUNK;
      assert NeverSent(s.out, s.inflight[i].dev, s.inflight[i].sector);
    } else {
      var i :| 0 <= i < |s.queue| && s.queue[i].dev == d && s.queue[i].sector == c * CHUNK;
      assert NeverSent(s.out, s.queue[i].dev, s.queue[i].sector);
    }
  }

  /** An unsent chunk is at the receiver what it was there at the start. */
  lemma UnsentIsKept<T>(s: State<T>, disks0: seq<seq<T>>, d: nat, c: nat)
    requires Once(s) && ChunkStream(s.out) && Unsent(s, d, c) && |disks0| == |s.devs| && |disks0[d]| == |s.devs[d].disk|
    ensures Chunk(Replay(disks0, s.out)[d], c) == Chunk(disks0[d], c)
  {
    hide Once;
    UnsentNeverSent(s, d, c);
    NeverSentIsKept(disks0, s.out, d, c);
  }

  lemma HarmlessIsCaught<T>(s0: State<T>, live: seq<Action<T>>, disks0: seq<seq<T>>)
    requires Initial(s0, disks0) && Runs(s0, live) && Live(live) && Timely(s0, live)
    requires var s := Run(s0, live); AllRead(s) && Sizes(s0, s) && AllHarmless(s0, s)
    ensures var s := Run(s0, live); AllCaught(s, Replay(disks0, s.out))
  {
    hide Once, ChunkStream;
    var s := Run(s0, live);
    var disks := Replay(disks0, s.out);
    Reached(s0, live, disks0);
    forall d, c: nat | 0 <= d < |s.devs| && c * CHUNK + CHUNK <= |s.devs[d].disk|
      ensures Caught(s, disks, d, c)
    {
      assert DevInv(s, d, disks[d]);
      assert Settled(s, d, disks[d], c);
      if Unsent(s, d, c) && c !in s.devs[d].dirty {
        UnsentIsKept(s, disks0, d, c);
        assert Harmless(s0, s, d, c);
        assert InitialDev(s0.devs[d], disks0[d]);
        SharedChunk(s0, s, d, c, disks0[d]);
      }
    }
  }

  lemma SharedChunk<T>(s0: State<T>, s: State<T>, d: nat, c: nat, dest: seq<T>)
    requires Sizes(s0, s) && d < |s.devs| && c * CHUNK + CHUNK <= |s.devs[d].disk|
    requires Harmless(s0, s, d, c) && c !in s.devs[d].dirty && InitialDev(s0.devs[d], dest)
    ensures Chunk(dest, c) == Chunk(s.devs[d].disk, c)
  {
    forall k: nat | c * CHUNK <= k < c * CHUNK + CHUNK
      ensures dest[k] == s.devs[d].disk[k]
    {
      assert Shared(s0, s, d, k);
    }
  }

  // Any run, with landings in time or not.

  /** The last that was sent of the chunk at `sector` of device d. */
  ghost predicate LastSent<T>(out: seq<Record<T>>, d: nat, sector: nat, buf: seq<T>) {
    exists j :: 0 <= j < |out| && LastAt(out, j, d, sector) && out[j].buf == buf
  }

  ghost predicate LastAt<T>(out: seq<Record<T>>, j: nat, d: nat, sector: nat)
    requires j < |out|
  {
    Goes(out[j], d, sector) && forall k :: j < k < |out| ==> !Goes(out[k], d, sector)
  }

  /** Whatever was sent last of a chunk is what the receiver has. */
  lemma {:induction false} LastSentIsThere<T>(disks: seq<seq<T>>, out: seq<Record<T>>, d: nat, c: nat, j: nat)
    requires ChunkStream(out) && d < |disks| && c * CHUNK + CHUNK <= |disks[d]| && j < |out| &&
      LastAt(out, j, d, c * CHUNK)
    ensures Chunk(Replay(disks, out)[d], c) == out[j].buf
    decreases |out|
  {
    var (front, r) := (out[..|out| - 1], out[|out| - 1]);
    assert WholeChunk(r);
    if j == |front| {
      WriteChunk(Replay(disks, front)[d], c, r.buf);
    } else {
      assert LastAt(front, j, d, c * CHUNK) && !Goes(r, d, c * CHUNK);
      LastSentIsThere(disks, front, d, c, j);
      if r.Data? && r.dev == d {
        OtherChunkKept(Replay(disks, front)[d], r.sector, r.buf, c);
      }
    }
  }

  lemma {:induction false} SentOrNever<T>(out: seq<Record<T>>, d: nat, sector: nat)
    ensures NeverSent(out, d, sector) || exists j :: 0 <= j < |out| && LastAt(out, j, d, sector)
    decreases |out|
  {
    if |out| > 0 {
      var (front, r) := (out[..|out| - 1], out[|out| - 1]);
      SentOrNever(front, d, sector);
      if Goes(r, d, sector) {
        assert LastAt(out, |front|, d, sector);
      } else if !NeverSent(front, d, sector) {
        var j :| 0 <= j < |front| && LastAt(front, j, d, sector);
        assert LastAt(out, j, d, sector);
      }
    }
  }

  /**
   * The sender can tell that a chunk will be right at the receiver: it is marked, or what was sent
   * last of it is what it is now, or it was never sent, the base that both sides share held all of
   * it when the migration started, and its contents are still the same.
   */
  ghost predicate UpToDate<T>(s0: State<T>, s: State<T>, d: nat, c: nat)
    requires d < |s0.devs| == |s.devs| && |s0.devs[d].disk| == |s.devs[d].disk| && c * CHUNK + CHUNK <= |s.devs[d].disk|
  {
    || LastSent(s.out, d, c * CHUNK, Chunk(s.devs[d].disk, c))
    || (NeverSent(s.out, d, c * CHUNK) && Harmless(s0, s, d, c))
    || c in s.devs[d].dirty
  }

  ghost predicate AllUpToDate<T>(s0: State<T>, s: State<T>)
    requires Sizes(s0, s)
  {
    forall d: nat, c: nat :: d < |s.devs| && c * CHUNK + CHUNK <= |s.devs[d].disk| ==> UpToDate(s0, s, d, c)
  }

  lemma {:induction false} RunSizes<T>(s0: State<T>, live: seq<Action<T>>)
    requires Runs(s0, live)
    ensures Sizes(s0, Run(s0, live))
    decreases |live|
  {
    if |live| > 0 {
      RunSizes(Apply(s0, live[0]), live[1..]);
    }
  }

  /** What any live run from a start leads to. */
  lemma Sent<T>(s0: State<T>, live: seq<Action<T>>, disks0: seq<seq<T>>)
    requires Initial(s0, disks0) && Runs(s0, live)
    ensures ChunkStream(Run(s0, live).out) && Sizes(s0, Run(s0, live))
    ensures forall d :: 0 <= d < |s0.devs| ==> |disks0[d]| == |s0.devs[d].disk| && InitialDev(s0.devs[d], disks0[d])
  {
    hide Run, Runs;
    RunSizes(s0, live);
    OnlyChunks(s0, live);
    forall d | 0 <= d < |s0.devs|
      ensures |disks0[d]| == |s0.devs[d].disk| && InitialDev(s0.devs[d], disks0[d])
    {
      assert InitialDev(s0.devs[d], disks0[d]);
    }
  }

  lemma UpToDateIsCaught<T>(s0: State<T>, live: seq<Action<T>>, disks0: seq<seq<T>>, d: nat, c: nat)
    requires Initial(s0, disks0) && Runs(s0, live)
    requires var s := Run(s0, live);
      Sizes(s0, s) && d < |s.devs| && c * CHUNK + CHUNK <= |s.devs[d].disk| && UpToDate(s0, s, d, c)
    ensures var s := Run(s0, live); Caught(s, Replay(disks0, s.out), d, c)
  {
    hide ChunkStream, Harmless, InitialDev;
    var s := Run(s0, live);
    Sent(s0, live, disks0);
    if c !in s.devs[d].dirty {
      if NeverSent(s.out, d, c * CHUNK) && Harmless(s0, s, d, c) {
        NeverSentIsKept(disks0, s.out, d, c);
        SharedChunk(s0, s, d, c, disks0[d]);
      } else {
        var j :| 0 <= j < |s.out| && LastAt(s.out, j, d, c * CHUNK) && s.out[j].buf == Chunk(s.devs[d].disk, c);
        LastSentIsThere(disks0, s.out, d, c, j);
      }
    }
  }

  /** A receiver that misses a chunk that is not up to date. */
  lemma LeftBehind<T>(s0: State<T>, live: seq<Action<T>>, d: nat, c: nat, x: T, y: T) returns (disks0: seq<seq<T>>)
    requires CanStart(s0) && Runs(s0, live) && x != y
    requires var s := Run(s0, live);
      Sizes(s0, s) && d < |s.devs| && c * CHUNK + CHUNK <= |s.devs[d].disk| && !UpToDate(s0, s, d, c)
    ensures var s := Run(s0, live); Initial(s0, disks0) && !AllCaught(s, Replay(disks0, s.out))
  {
    hide ChunkStream, Harmless;
    var s := Run(s0, live);
    disks0 := OwnDisks(s0);
    if NeverSent(s.out, d, c * CHUNK) {
      var k;
      disks0, k := OtherSector(s0, s, d, c, x, y);
      Sent(s0, live, disks0);
      NeverSentIsKept(disks0, s.out, d, c);
      assert Chunk(disks0[d], c)[k - c * CHUNK] == disks0[d][k];
      assert Chunk(s.devs[d].disk, c)[k - c * CHUNK] == s.devs[d].disk[k];
    } else {
      Sent(s0, live, disks0);
      SentOrNever(s.out, d, c * CHUNK);
      var j :| 0 <= j < |s.out| && LastAt(s.out, j, d, c * CHUNK);
      LastSentIsThere(disks0, s.out, d, c, j);
    }
    assert !Caught(s, Replay(disks0, s.out), d, c);
  }

  /** A receiver that could have started the migration, and differs from s in a chunk that is not harmless. */
  lemma OtherSector<T>(s0: State<T>, s: State<T>, d: nat, c: nat, x: T, y: T) returns (disks0: seq<seq<T>>, k: nat)
    requires CanStart(s0) && Sizes(s0, s) && d < |s.devs| && c * CHUNK + CHUNK <= |s.devs[d].disk| && x != y
    requires !Harmless(s0, s, d, c)
    ensures Initial(s0, disks0) && c * CHUNK <= k < c * CHUNK + CHUNK && |disks0[d]| == |s.devs[d].disk|
    ensures disks0[d][k] != s.devs[d].disk[k]
  {
    var (dev0, disk) := (s0.devs[d], s.devs[d].disk);
    var own := OwnDisks(s0);
    assert InitialDev(dev0, own[d]);
    k := c * CHUNK;
    if dev0.sharedBase {
      k :| c * CHUNK <= k < c * CHUNK + CHUNK && !Shared(s0, s, d, k);
    }
    if dev0.sharedBase && k !in dev0.alloc {
      disks0 := own;
    } else {
      disks0 := own[d := dev0.disk[k := if disk[k] == x then y else x]];
      forall e | 0 <= e < |s0.devs|
        ensures InitialDev(s0.devs[e], disks0[e])
      {
        assert InitialDev(s0.devs[e], own[e]);
      }
    }
  }

  /**
   * Whatever the guest's writes do, a state has everything it needs for the pass, whatever the
   * receiver held, exactly when the sender has sent every chunk as it is now, unless it is marked or
   * was shared and is unchanged.
   */
  lemma SureIffUpToDate<T(!new)>(s0: State<T>, live: seq<Action<T>>, x: T, y: T)
    requires CanStart(s0) && Runs(s0, live) && x != y
    ensures var s := Run(s0, live);
      && Sizes(s0, s)
      && ((forall disks0 :: Initial(s0, disks0) ==> AllCaught(s, Replay(disks0, s.out))) <==> AllUpToDate(s0, s))
  {
    hide Initial, UpToDate;
    var s := Run(s0, live);
    RunSizes(s0, live);
    if AllUpToDate(s0, s) {
      forall disks0 | Initial(s0, disks0)
        ensures AllCaught(s, Replay(disks0, s.out))
      {
        AllUpToDateIsCaught(s0, live, disks0);
      }
    } else {
      var d: nat, c: nat :| d < |s.devs| && c * CHUNK + CHUNK <= |s.devs[d].disk| && !UpToDate(s0, s, d, c);
      var disks0 := LeftBehind(s0, live, d, c, x, y);
      assert Initial(s0, disks0);
    }
  }

  lemma AllUpToDateIsCaught<T>(s0: State<T>, live: seq<Action<T>>, disks0: seq<seq<T>>)
    requires Initial(s0, disks0) && Runs(s0, live)
    requires var s := Run(s0, live); Sizes(s0, s) && AllUpToDate(s0, s)
    ensures var s := Run(s0, live); AllCaught(s, Replay(disks0, s.out))
  {
    hide UpToDate;
    var s := Run(s0, live);
    forall d, c: nat | 0 <= d < |s.devs| && c * CHUNK + CHUNK <= |s.devs[d].disk|
      ensures Caught(s, Replay(disks0, s.out), d, c)
    {
      UpToDateIsCaught(s0, live, disks0, d, c);
    }
  }

  // Runs whose landings are in time.

  /**
   * With landings in time, the state that a run leads to has everything it needs for the pass,
   * whatever the receiver held, exactly when every chunk that was read and not sent is harmless.
   */
  lemma SureIffHarmless<T(!new)>(s0: State<T>, live: seq<Action<T>>, x: T, y: T)
    requires CanStart(s0) && Runs(s0, live) && Live(live) && Timely(s0, live) && AllRead(Run(s0, live)) && x != y
    ensures var s := Run(s0, live);
      && Sizes(s0, s)
      && ((forall disks0 :: Initial(s0, disks0) ==> AllCaught(s, Replay(disks0, s.out))) <==> AllHarmless(s0, s))
  {
    hide Initial, AllCaught, Harmless, AllRead;
    var s := Run(s0, live);
    StartReached(s0, live);
    if AllHarmless(s0, s) {
      forall disks0 | Initial(s0, disks0)
        ensures AllCaught(s, Replay(disks0, s.out))
      {
        HarmlessIsCaught(s0, live, disks0);
      }
    } else {
      var d: nat, c: nat :| Unsent(s, d, c) && !Harmless(s0, s, d, c);
      UnsentIsBehind(s0, live, d, c);
      var disks0 := LeftBehind(s0, live, d, c, x, y);
      assert Initial(s0, disks0);
    }
  }

  lemma UnsentIsBehind<T>(s0: State<T>, live: seq<Action<T>>, d: nat, c: nat)
    requires CanStart(s0) && Runs(s0, live) && Live(live)
    requires var s := Run(s0, live); Sizes(s0, s) && Unsent(s, d, c) && !Harmless(s0, s, d, c)
    ensures !UpToDate(s0, Run(s0, live), d, c)
  {
    hide Once;
    var s := Run(s0, live);
    InitialOnce(s0, OwnDisks(s0));
    RunOnce(s0, live);
    UnsentNeverSent(s, d, c);
  }

  lemma StartReached<T>(s0: State<T>, live: seq<Action<T>>)
    requires CanStart(s0) && Runs(s0, live) && Live(live) && Timely(s0, live)
    ensures Sizes(s0, Run(s0, live))
  {
    Reached(s0, live, OwnDisks(s0));
  }

  /**
   * Without a shared base: exactly when every chunk that was read and not sent has been overtaken by
   * a guest write.  is_stage2_completed does not look at the queue, so nothing ensures this.
   */
  lemma SureIffOvertaken<T(!new)>(s0: State<T>, live: seq<Action<T>>, x: T, y: T)
    requires CanStart(s0) && Runs(s0, live) && Live(live) && Timely(s0, live) && AllRead(Run(s0, live)) && x != y
    requires forall d :: 0 <= d < |s0.devs| ==> !s0.devs[d].sharedBase
    ensures var s := Run(s0, live);
      (forall disks0 :: Initial(s0, disks0) ==> AllCaught(s, Replay(disks0, s.out))) <==> Overtaken(s)
  {
    hide Initial, AllCaught, AllRead, Unsent;
    var s := Run(s0, live);
    SureIffHarmless(s0, live, x, y);
    forall d: nat, c: nat | Unsent(s, d, c)
      ensures d < |s.devs| && c * CHUNK + CHUNK <= |s.devs[d].disk|
    {
      UnsentFits(s, d, c);
    }
    assert forall d: nat, c: nat :: Unsent(s, d, c) ==> (Harmless(s0, s, d, c) <==> c in s.devs[d].dirty);
  }

  lemma UnsentFits<T>(s: State<T>, d: nat, c: nat)
    requires Unsent(s, d, c)
    ensures d < |s.devs| && c * CHUNK + CHUNK <= |s.devs[d].disk|
  {}
}
