/**
 * Where live block migration falls short of its intent: a queue that is not drained, guest writes
 * that land after their mark was reset, and disks that do not consist of whole chunks.
 */
module MigrationLimits {
  import opened Splices
  import opened MigrationModel
  import opened MigrationPass
  import opened MigrationProof

  // A block left in the queue.

  function OneChunk<T>(x: T): seq<T> { seq(CHUNK, _ => x) }

  ghost function OneDisk<T>(x: T): State<T> {
    State([Dev(OneChunk(x), {}, {}, false, 0, 0, false)], [], [], [], [], false)
  }

  /** is_stage2_completed on the model's state. */
  ghost predicate Stage2Completed<T>(s: State<T>) {
    s.inflight == [] && forall d :: 0 <= d < |s.devs| ==> s.devs[d].bulkDone
  }

  /**
   * One chunk is read, called back and not flushed, because the rate limit is reached: stage 2
   * counts as completed, nothing is marked, and the pass sends nothing at all.
   */
  lemma LostBlock<T>(x: T, y: T)
    requires x != y
    ensures var (s0, disks0) := (OneDisk(x), [OneChunk(y)]);
      exists live ::
        && Initial(s0, disks0) && Runs(s0, live) && Live(live)
        && var s := Run(s0, live);
        && Stage2Completed(s) && AllRead(s) && !s.error && NoneMarked(s) && s.out == []
        && !Synced(s, Replay(disks0, s.out))
  {
    hide Synced, NoneMarked, Initial, AllRead;
    var live, s := LostRun(x, y);
    LostEnd(x, y, s);
  }

  ghost function ReadOfLostRun<T>(x: T): State<T> {
    OneDisk(x).(devs := [Dev(OneChunk(x), {}, {}, false, CHUNK, 0, false)], inflight := [Block(0, 0, OneChunk(x), 0)])
  }

  lemma LostSubmit<T>(x: T)
    ensures Enabled(OneDisk(x), Submit(0, 0, [])) && Apply(OneDisk(x), Submit(0, 0, [])) == ReadOfLostRun(x)
  {
    assert AlignDown(0) == 0 && 0 / CHUNK == 0;
    assert BulkBuffer(OneChunk(x), 0, []) == OneChunk(x);
    var none: set<nat> := {};
    assert none - {0} == none;
  }

  lemma OneDiskStarts<T>(x: T, y: T)
    ensures Initial(OneDisk(x), [OneChunk(y)])
  {
    assert InitialDev(OneDisk(x).devs[0], OneChunk(y));
  }

  /** The chunk is read and called back, and the device is complete. */
  lemma LostRun<T>(x: T, y: T) returns (live: seq<Action<T>>, s: State<T>)
    ensures Initial(OneDisk(x), [OneChunk(y)]) && Runs(OneDisk(x), live) && Live(live) && Run(OneDisk(x), live) == s
    ensures s == OneDisk(x).(devs := s.devs, queue := s.queue)
    ensures s.devs == [Dev(OneChunk(x), {}, {}, false, CHUNK, 0, true)]
  {
    hide OneChunk, Initial;
    OneDiskStarts(x, y);
    LostSubmit(x);
    var a2: Action<T> := Complete(0, 0);
    var s2 := Apply(ReadOfLostRun(x), a2);
    var a3: Action<T> := BulkDone(0);
    s := Apply(s2, a3);
    ThreeSteps(OneDisk(x), Submit(0, 0, []), a2, a3);
    live := [Submit(0, 0, []), a2, a3];
  }

  lemma LostEnd<T>(x: T, y: T, s: State<T>)
    requires s == OneDisk(x).(devs := s.devs, queue := s.queue) && x != y
    requires s.devs == [Dev(OneChunk(x), {}, {}, false, CHUNK, 0, true)]
    ensures Stage2Completed(s) && AllRead(s) && NoneMarked(s) && !Synced(s, Replay([OneChunk(y)], s.out))
  {
    assert OneChunk(y)[0] != s.devs[0].disk[0];
  }

  lemma ThreeSteps<T>(s: State<T>, a: Action<T>, b: Action<T>, c: Action<T>)
    requires Enabled(s, a) && Enabled(Apply(s, a), b) && Enabled(Apply(Apply(s, a), b), c)
    ensures Runs(s, [a, b, c]) && Run(s, [a, b, c]) == Apply(Apply(Apply(s, a), b), c)
  {
    OneStep(s, a);
    OneStep(Apply(s, a), b);
    OneStep(Apply(Apply(s, a), b), c);
    RunOn(Apply(s, a), [b], [c]);
    assert [b] + [c] == [b, c] && [a] + [b, c] == [a, b, c];
    RunOn(s, [a], [b, c]);
  }

  // A write that lands too late.

  /**
   * The guest's write is marked, the old data are read and the mark reset, they are sent, and only
   * then does the write land.  Nothing is on its way any more, nothing is marked, no error was seen,
   * and the receiver has the old data.
   */
  lemma LostWrite<T>(x: T, y: T, z: T)
    requires x != z
    ensures var (s0, disks0) := (OneDisk(x), [OneChunk(y)]);
      exists live ::
        && Initial(s0, disks0) && Runs(s0, live) && Live(live)
        && var s := Run(s0, live);
        && Stage2Completed(s) && AllRead(s) && !s.error && NoneMarked(s)
        && s.pending == [] && s.queue == [] && Overtaken(s)
        && !Synced(s, Replay(disks0, s.out))
  {
    hide Overtaken, Synced, NoneMarked, Initial;
    var live, s := LateRun(x, y, z);
    LateEnd(x, y, z, s);
  }

  ghost predicate EndOfLateRun<T>(x: T, z: T, s: State<T>) {
    && |s.devs| == 1 && s.pending == [] && s.inflight == [] && s.queue == [] && !s.error
    && s.devs[0] == Dev(OneChunk(x)[0 := z], {0}, {}, false, CHUNK, 0, true)
    && s.out == [Data(0, 0, OneChunk(x))]
  }

  lemma LateRun<T>(x: T, y: T, z: T) returns (live: seq<Action<T>>, s: State<T>)
    ensures Initial(OneDisk(x), [OneChunk(y)]) && Runs(OneDisk(x), live) && Live(live) && Run(OneDisk(x), live) == s
    ensures EndOfLateRun(x, z, s)
  {
    OneDiskStarts(x, y);
    var s0 := OneDisk(x);
    var first, s3 := LateStart(x, z);
    var last;
    last, s := LateFinish(x, z, s3);
    RunOn(s0, first, last);
    live := first + last;
  }

  ghost function MiddleOfLateRun<T>(x: T, z: T): State<T> {
    State([Dev(OneChunk(x), {}, {}, false, CHUNK, 0, false)], [AioWrite(0, 0, [z])], [], [Block(0, 0, OneChunk(x), 0)],
      [], false)
  }

  ghost function MarkedOfLateRun<T>(x: T, z: T): State<T> {
    OneDisk(x).(devs := [Dev(OneChunk(x), {}, Touched(0, 1), false, 0, 0, false)], pending := [AioWrite(0, 0, [z])])
  }

  ghost function ReadOfLateRun<T>(x: T, z: T): State<T> {
    MiddleOfLateRun(x, z).(inflight := [Block(0, 0, OneChunk(x), 0)], queue := [])
  }

  lemma LateMark<T>(x: T, z: T)
    ensures Enabled(OneDisk(x), Mark(AioWrite(0, 0, [z]))) &&
      Apply(OneDisk(x), Mark(AioWrite(0, 0, [z]))) == MarkedOfLateRun(x, z)
  {
    assert {} + Touched(0, 1) == Touched(0, 1);
  }

  lemma LateSubmit<T>(x: T, z: T)
    ensures Enabled(MarkedOfLateRun(x, z), Submit(0, 0, [])) &&
      Apply(MarkedOfLateRun(x, z), Submit(0, 0, [])) == ReadOfLateRun(x, z)
  {
    assert AlignDown(0) == 0 && 0 / CHUNK == 0;
    FirstChunk(1);
    assert BulkBuffer(OneChunk(x), 0, []) == OneChunk(x);
  }

  /** The write is marked, and the chunk is read as it was. */
  lemma LateStart<T>(x: T, z: T) returns (acts: seq<Action<T>>, s: State<T>)
    ensures Runs(OneDisk(x), acts) && Live(acts) && Run(OneDisk(x), acts) == s == MiddleOfLateRun(x, z)
  {
    LateMark(x, z);
    LateSubmit(x, z);
    var a3: Action<T> := Complete(0, 0);
    s := Apply(ReadOfLateRun(x, z), a3);
    ThreeSteps(OneDisk(x), Mark(AioWrite(0, 0, [z])), Submit(0, 0, []), a3);
    acts := [Mark(AioWrite(0, 0, [z])), Submit(0, 0, []), a3];
  }

  lemma FirstChunk(n: nat)
    requires 0 < n <= CHUNK
    ensures Touched(0, n) - {0} == {}
  {}

  ghost function SentOfLateRun<T>(x: T, z: T): State<T> {
    MiddleOfLateRun(x, z).(queue := [], out := [Data(0, 0, OneChunk(x))])
  }

  ghost function LandedOfLateRun<T>(x: T, z: T): State<T> {
    SentOfLateRun(x, z).(devs := [Dev(OneChunk(x)[0 := z], {0}, {}, false, CHUNK, 0, false)])
  }

  lemma LateFlush<T>(x: T, z: T)
    ensures Enabled(MiddleOfLateRun(x, z), FlushHead) && Apply(MiddleOfLateRun(x, z), FlushHead) == SentOfLateRun(x, z)
  {}

  lemma LateLanding<T>(x: T, z: T)
    ensures Enabled(SentOfLateRun(x, z), Land(0, 0, 1)) &&
      Apply(SentOfLateRun(x, z), Land(0, 0, 1)) == LandedOfLateRun(x, z)
  {
    var s := SentOfLateRun(x, z);
    OneSectorSet();
    assert Splice(OneChunk(x), 0, [z][0..1]) == OneChunk(x)[0 := z];
    assert {} + SectorSet(0, 1) == {0};
    assert Landed(s, s.pending[0], 0, 1) == LandedOfLateRun(x, z).devs[0];
  }

  /** It is sent, and then the write lands. */
  lemma LateFinish<T>(x: T, z: T, s: State<T>) returns (acts: seq<Action<T>>, s': State<T>)
    requires s == MiddleOfLateRun(x, z)
    ensures Runs(s, acts) && Live(acts) && Run(s, acts) == s' && EndOfLateRun(x, z, s')
  {
    LateFlush(x, z);
    LateLanding(x, z);
    var s2 := LandedOfLateRun(x, z);
    var a3: Action<T> := Finish(0);
    var s3 := Apply(s2, a3);
    ThreeSteps(s, FlushHead, Land(0, 0, 1), a3);
    var a4: Action<T> := BulkDone(0);
    s' := Apply(s3, a4);
    OneStep(s3, a4);
    RunOn(s, [FlushHead, Land(0, 0, 1), a3], [a4]);
    acts := [FlushHead, Land(0, 0, 1), a3] + [a4];
  }

  lemma OneSectorSet()
    ensures SectorSet(0, 1) == {0}
  {
    forall k: nat ensures k in SectorSet(0, 1) <==> k == 0 {
      assert Within(0, 1, k) <==> k == 0;
    }
  }

  lemma LateEnd<T>(x: T, y: T, z: T, s: State<T>)
    requires EndOfLateRun(x, z, s) && x != z
    ensures Stage2Completed(s) && AllRead(s) && NoneMarked(s) && Overtaken(s)
    ensures !Synced(s, Replay([OneChunk(y)], s.out))
  {
    DrainedIsOvertaken(s);
    ReplayMore([OneChunk(y)], [], s.out[0]);
    assert [] + [s.out[0]] == s.out;
    assert Replay([OneChunk(y)], s.out)[0] == OneChunk(x);
    assert OneChunk(x)[0] != s.devs[0].disk[0];
  }

  // Disks of any size.

  lemma {:induction false} SendPrefix<T>(src: seq<T>, dest: seq<T>, n: nat) returns (out: seq<Record<T>>)
    requires |src| == |dest| && n * CHUNK <= |src|
    ensures ChunkStream(out) && Replay([dest], out) == [src[..n * CHUNK] + dest[n * CHUNK..]]
  {
    if n == 0 {
      out := [];
      assert src[..0] + dest[0..] == dest;
    } else {
      out := SendPrefix(src, dest, n - 1);
      var r := Data(0, (n - 1) * CHUNK, Chunk(src, n - 1));
      ReplayMore([dest], out, r);
      var mid := src[..(n - 1) * CHUNK] + dest[(n - 1) * CHUNK..];
      assert Splice(mid, (n - 1) * CHUNK, Chunk(src, n - 1)) == src[..n * CHUNK] + dest[n * CHUNK..];
      out := out + [r];
    }
  }

  /**
   * What streams of whole chunks can do: turn one disk into another of its size exactly when the
   * two agree behind the last whole chunk.
   */
  lemma ReachableIffSameTail<T>(src: seq<T>, dest: seq<T>)
    requires |src| == |dest|
    ensures (exists out :: ChunkStream(out) && Replay([dest], out) == [src]) <==> SameTail(src, dest)
  {
    var w := WholePart(|src|);
    if out :| ChunkStream(out) && Replay([dest], out) == [src] {
      ReplayKeepsTail([dest], out, 0);
    }
    if SameTail(src, dest) {
      var out := SendPrefix(src, dest, w / CHUNK);
      assert src[..w] + dest[w..] == src;
    }
  }

  // A guest that writes behind the last whole chunk.

  /** A disk of one sector, which the receiver has already. */
  ghost function OneSector<T>(x: T): State<T> {
    State([Dev([x], {}, {}, false, 0, 0, false)], [], [], [], [], false)
  }

  /**
   * The guest writes what is there already, after the bulk read: the receiver has the very disk, but
   * no pass can be completed.
   */
  lemma TailRewritten<T(!new)>(x: T)
    ensures var (s0, disks0) := (OneSector(x), [[x]]);
      exists live ::
        && Initial(s0, disks0) && Runs(s0, live) && Live(live)
        && var s := Run(s0, live);
        && AllRead(s) && Overtaken(s) && Synced(s, Replay(disks0, s.out))
        && !exists pass :: CompletePass(s, pass)
  {
    hide Inv, AllRead, Overtaken, Synced, TailsClean, Initial;
    var (s0, disks0) := (OneSector(x), [[x]]);
    var live, s := TailRun(x);
    TailState(x, s);
    PassPossible(s);
  }

  /** A synchronous bulk read, its end, and the guest's write. */
  lemma TailRun<T>(x: T) returns (live: seq<Action<T>>, s: State<T>)
    ensures Initial(OneSector(x), [[x]]) && Runs(OneSector(x), live) && Live(live) && Run(OneSector(x), live) == s
    ensures |s.devs| == 1 && s.inflight == [] && s.queue == [] && |s.out| == 1 && s.out[0].Data? && s.out[0].dev == 0
    ensures s.devs[0].disk == [x] && s.devs[0].cur == 1 && 0 in s.devs[0].dirty && |s.out[0].buf| == CHUNK
  {
    var s0 := OneSector(x);
    assert InitialDev(s0.devs[0], [x]);
    assert AlignDown(0) == 0;
    var a1: Action<T> := SyncBulk(0, 0, seq(CHUNK - 1, _ => x));
    assert Enabled(s0, a1);
    var s1 := Apply(s0, a1);
    var a2: Action<T> := BulkDone(0);
    var s2 := Apply(s1, a2);
    var a3: Action<T> := GuestWrite(0, 0, [x]);
    s := Apply(s2, a3);
    ThreeSteps(s0, a1, a2, a3);
    live := [a1, a2, a3];
    assert Touches(0, 1, 0);
  }

  lemma TailState<T>(x: T, s: State<T>)
    requires |s.devs| == 1 && s.inflight == [] && s.queue == [] && |s.out| == 1 && s.out[0].Data? && s.out[0].dev == 0
    requires s.devs[0].disk == [x] && s.devs[0].cur == 1 && 0 in s.devs[0].dirty && |s.out[0].buf| == CHUNK
    ensures AllRead(s) && Overtaken(s) && Synced(s, Replay([[x]], s.out)) && !TailsClean(s)
  {
    assert !TailClean(s.devs[0]);
    ReplayMore([[x]], [], s.out[0]);
    assert [] + [s.out[0]] == s.out;
  }
}
