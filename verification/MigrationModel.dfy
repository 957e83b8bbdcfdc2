/**
 * Live block migration (qemu/block-migration.c) as a protocol: what the sender holds, the
 * steps it and its surroundings take, and why the receiver ends up with the sender's disks.
 * A disk is a sequence of sectors of an arbitrary type.
 */
module MigrationModel {
  import opened Splices

  /** BDRV_SECTORS_PER_DIRTY_CHUNK. */
  const CHUNK: nat := 2048

  /** BlkMigDevState with the parts of its BlockDriverState that matter here. */
  datatype Dev<T> = Dev(
    disk: seq<T>, alloc: set<nat>, dirty: set<nat>,
    sharedBase: bool, cur: nat, completed: nat, bulkDone: bool)

  /** BlkMigBlock: one chunk on its way, read at `sector` of device number `dev`. */
  datatype Block<T> = Block(dev: nat, sector: nat, buf: seq<T>, ret: int)

  /** A write that the guest has submitted with bdrv_aio_writev, and that is not done yet. */
  datatype AioWrite<T> = AioWrite(dev: nat, sector: nat, data: seq<T>)

  /** What goes into the stream. */
  datatype Record<T> = Data(dev: nat, sector: nat, buf: seq<T>) | Progress(percent: int) | Eos

  /**
   * `pending` are the guest's asynchronous writes, `inflight` the reads submitted and not called
   * back, `queue` is blk_list.
   */
  datatype State<T> = State(
    devs: seq<Dev<T>>, pending: seq<AioWrite<T>>, inflight: seq<Block<T>>, queue: seq<Block<T>>,
    out: seq<Record<T>>, error: bool)

  // The receiver: block_load writes whole chunks; a write that does not fit is refused and the refusal ignored.

  function Write<T>(disk: seq<T>, sector: nat, buf: seq<T>): (r: seq<T>)
    ensures |r| == |disk|
  {
    if sector + |buf| <= |disk| then Splice(disk, sector, buf) else disk
  }

  function Receive<T>(disks: seq<seq<T>>, r: Record<T>): (d: seq<seq<T>>)
    ensures |d| == |disks| && forall i :: 0 <= i < |d| ==> |d[i]| == |disks[i]|
  {
    if r.Data? && r.dev < |disks| then disks[r.dev := Write(disks[r.dev], r.sector, r.buf)] else disks
  }

  function Replay<T>(disks: seq<seq<T>>, out: seq<Record<T>>): (d: seq<seq<T>>)
    ensures |d| == |disks| && forall i :: 0 <= i < |d| ==> |d[i]| == |disks[i]|
  {
    if |out| == 0 then disks else Receive(Replay(disks, out[..|out| - 1]), out[|out| - 1])
  }

  lemma ReplayMore<T>(disks: seq<seq<T>>, out: seq<Record<T>>, r: Record<T>)
    ensures Replay(disks, out + [r]) == Receive(Replay(disks, out), r)
  {
    assert (out + [r])[..|out|] == out;
  }

  // The steps.

  function Chunk<T>(disk: seq<T>, c: nat): (r: seq<T>)
    requires c * CHUNK + CHUNK <= |disk|
    ensures |r| == CHUNK
  {
    disk[c * CHUNK..c * CHUNK + CHUNK]
  }

  /** A write of n sectors overlaps chunk c. */
  predicate Touches(sector: nat, n: nat, c: nat) { c * CHUNK < sector + n && sector < c * CHUNK + CHUNK }

  /** The chunks that a write of n sectors marks. */
  function Touched(sector: nat, n: nat): set<nat> {
    set c: nat | c < sector + n && Touches(sector, n, c)
  }

  predicate Within(sector: nat, n: nat, k: nat) { sector <= k < sector + n }

  function SectorSet(sector: nat, n: nat): set<nat> {
    set k: nat | k < sector + n && Within(sector, n, k)
  }

  function AlignDown(sector: nat): (q: nat)
    ensures q % CHUNK == 0 && q <= sector < q + CHUNK
  {
    sector - sector % CHUNK
  }

  /** The sectors that a bulk read at q covers: fewer than a chunk at the very end. */
  function Covered(total: nat, q: nat): nat
    requires q <= total
  {
    if total - q < CHUNK then total - q else CHUNK
  }

  /** The loop at the head of mig_save_device_bulk can end at p. */
  ghost predicate Skips<T>(dev: Dev<T>, p: nat) {
    && dev.cur <= p
    && (forall k :: dev.cur <= k < p && k < |dev.disk| ==> dev.sharedBase && k !in dev.alloc)
    && (p < |dev.disk| && dev.sharedBase ==> p in dev.alloc)
  }

  /**
   * A synchronous guest write marks and changes the disk in one step.  An asynchronous one is marked
   * when it is submitted; any part of its data may reach the disk at any moment until it is done.
   */
  datatype Action<T> =
    | GuestWrite(dev: nat, sector: nat, data: seq<T>)
    | Mark(write: AioWrite<T>)
    | Land(w: nat, from: nat, n: nat)
    | Finish(w: nat)
    | Submit(dev: nat, at: nat, pad: seq<T>)
    | SyncBulk(dev: nat, at: nat, pad: seq<T>)
    | SkipToEnd(dev: nat)
    | BulkDone(dev: nat)
    | Sample(i: nat, k: nat)
    | Complete(i: nat, ret: int)
    | FlushHead
    | DirtyChunk(dev: nat, chunk: nat)
    | Emit(record: Record<T>)
    | Refused(dev: nat, at: nat)
    | Fail

  ghost predicate BulkReady<T>(s: State<T>, d: nat, p: nat, pad: seq<T>) {
    && d < |s.devs| && Skips(s.devs[d], p) && p < |s.devs[d].disk|
    && |pad| == CHUNK - Covered(|s.devs[d].disk|, AlignDown(p))
  }

  ghost predicate CanLand<T>(s: State<T>, w: AioWrite<T>, from: nat, n: nat) {
    n > 0 && from + n <= |w.data| && w.dev < |s.devs| && w.sector + |w.data| <= |s.devs[w.dev].disk|
  }

  ghost predicate Enabled<T>(s: State<T>, a: Action<T>) {
    match a
    case GuestWrite(d, sector, data) => d < |s.devs| && |data| > 0 && sector + |data| <= |s.devs[d].disk|
    case Mark(w) => w.dev < |s.devs| && |w.data| > 0 && w.sector + |w.data| <= |s.devs[w.dev].disk|
    case Land(w, from, n) => w < |s.pending| && CanLand(s, s.pending[w], from, n)
    case Finish(w) => w < |s.pending|
    case Submit(d, p, pad) => BulkReady(s, d, p, pad)
    case SyncBulk(d, p, pad) => BulkReady(s, d, p, pad)
    case SkipToEnd(d) => d < |s.devs| && exists p: nat :: Skips(s.devs[d], p) && p >= |s.devs[d].disk|
    case BulkDone(d) => d < |s.devs| && s.devs[d].cur >= |s.devs[d].disk|
    case Sample(i, k) =>
      i < |s.inflight| && s.inflight[i].dev < |s.devs| && k < |s.inflight[i].buf| &&
      s.inflight[i].sector + k < |s.devs[s.inflight[i].dev].disk|
    case Complete(i, ret) => i < |s.inflight|
    case FlushHead => |s.queue| > 0 && s.queue[0].ret >= 0
    case DirtyChunk(d, c) =>
      && d < |s.devs| && c in s.devs[d].dirty
      && c * CHUNK < s.devs[d].cur && c * CHUNK + CHUNK <= |s.devs[d].disk|
    case Emit(r) => !r.Data? && (r.Progress? ==> 0 <= r.percent <= 100)
    case Refused(d, p) => d < |s.devs| && Skips(s.devs[d], p) && p < |s.devs[d].disk|
    case Fail => true
  }

  /** The buffer that a bulk read at q fills when nothing is written meanwhile. */
  function BulkBuffer<T>(disk: seq<T>, q: nat, pad: seq<T>): seq<T>
    requires q <= |disk|
  {
    disk[q..q + Covered(|disk|, q)] + pad
  }

  /** The device after a chunk was read at the skipped-to sector p. */
  function Read<T>(dev: Dev<T>, p: nat): Dev<T>
    requires p < |dev.disk|
  {
    var q := AlignDown(p);
    dev.(completed := p, cur := q + Covered(|dev.disk|, q), dirty := dev.dirty - {q / CHUNK})
  }

  /** A device on which n sectors of a write have arrived; marks are not set again. */
  ghost function Landed<T>(s: State<T>, w: AioWrite<T>, from: nat, n: nat): Dev<T>
    requires CanLand(s, w, from, n)
  {
    var dev := s.devs[w.dev];
    dev.(disk := Splice(dev.disk, w.sector + from, w.data[from..from + n]),
      alloc := dev.alloc + SectorSet(w.sector + from, n))
  }

  ghost function Apply<T>(s: State<T>, a: Action<T>): State<T>
    requires Enabled(s, a)
  {
    match a
    case GuestWrite(d, sector, data) =>
      var dev := s.devs[d];
      var dev' := dev.(
        disk := Splice(dev.disk, sector, data),
        alloc := dev.alloc + SectorSet(sector, |data|),
        dirty := dev.dirty + Touched(sector, |data|));
      s.(devs := s.devs[d := dev'])
    case Mark(w) =>
      var dev := s.devs[w.dev];
      s.(devs := s.devs[w.dev := dev.(dirty := dev.dirty + Touched(w.sector, |w.data|))], pending := s.pending + [w])
    case Land(w, from, n) =>
      s.(devs := s.devs[s.pending[w].dev := Landed(s, s.pending[w], from, n)])
    case Finish(w) =>
      s.(pending := s.pending[..w] + s.pending[w + 1..])
    case Submit(d, p, pad) =>
      var dev := s.devs[d];
      var blk := Block(d, AlignDown(p), BulkBuffer(dev.disk, AlignDown(p), pad), 0);
      s.(devs := s.devs[d := Read(dev, p)], inflight := s.inflight + [blk])
    case SyncBulk(d, p, pad) =>
      var dev := s.devs[d];
      var r := Data(d, AlignDown(p), BulkBuffer(dev.disk, AlignDown(p), pad));
      s.(devs := s.devs[d := Read(dev, p)], out := s.out + [r])
    case SkipToEnd(d) =>
      var total := |s.devs[d].disk|;
      s.(devs := s.devs[d := s.devs[d].(cur := total, completed := total)])
    case BulkDone(d) =>
      s.(devs := s.devs[d := s.devs[d].(bulkDone := true)])
    case Sample(i, k) =>
      var b := s.inflight[i];
      s.(inflight := s.inflight[i := b.(buf := b.buf[k := s.devs[b.dev].disk[b.sector + k]])])
    case Complete(i, ret) =>
      s.(inflight := s.inflight[..i] + s.inflight[i + 1..], queue := s.queue + [s.inflight[i].(ret := ret)])
    case FlushHead =>
      s.(out := s.out + [Data(s.queue[0].dev, s.queue[0].sector, s.queue[0].buf)], queue := s.queue[1..])
    case DirtyChunk(d, c) =>
      var dev := s.devs[d];
      s.(devs := s.devs[d := dev.(dirty := dev.dirty - {c})], out := s.out + [Data(d, c * CHUNK, Chunk(dev.disk, c))])
    case Emit(r) =>
      s.(out := s.out + [r])
    case Refused(d, p) =>
      s.(devs := s.devs[d := s.devs[d].(completed := p)], error := true)
    case Fail =>
      s.(error := true)
  }

  ghost predicate Runs<T>(s: State<T>, acts: seq<Action<T>>)
    decreases |acts|
  {
    |acts| == 0 || (Enabled(s, acts[0]) && Runs(Apply(s, acts[0]), acts[1..]))
  }

  ghost function Run<T>(s: State<T>, acts: seq<Action<T>>): State<T>
    requires Runs(s, acts)
    decreases |acts|
  {
    if |acts| == 0 then s else Run(Apply(s, acts[0]), acts[1..])
  }

  lemma {:induction false} RunOn<T>(s: State<T>, acts: seq<Action<T>>, more: seq<Action<T>>)
    requires Runs(s, acts) && Runs(Run(s, acts), more)
    ensures Runs(s, acts + more) && Run(s, acts + more) == Run(Run(s, acts), more)
    decreases |acts|
  {
    if |acts| == 0 {
      assert acts + more == more;
    } else {
      RunOn(Apply(s, acts[0]), acts[1..], more);
      assert (acts + more)[1..] == acts[1..] + more;
    }
  }

  lemma OneStep<T>(s: State<T>, a: Action<T>)
    requires Enabled(s, a)
    ensures Leads(s, [a], Apply(s, a))
    ensures Runs(s, [a]) && Run(s, [a]) == Apply(s, a)
  {
    var rest := [a][1..];
    assert |rest| == 0 && Runs(Apply(s, a), rest) && Run(Apply(s, a), rest) == Apply(s, a);
  }

  /** A run of the protocol from s to s'. */
  ghost predicate Leads<T>(s: State<T>, acts: seq<Action<T>>, s': State<T>) {
    Runs(s, acts) && Run(s, acts) == s'
  }

  lemma LeadsNowhere<T>(s: State<T>)
    ensures Leads(s, [], s)
  {}

  lemma LeadsOn<T>(s: State<T>, acts: seq<Action<T>>, s1: State<T>, more: seq<Action<T>>, s2: State<T>)
    requires Leads(s, acts, s1) && Leads(s1, more, s2)
    ensures Leads(s, acts + more, s2)
  {
    RunOn(s, acts, more);
  }

  // Writes that land in time.

  /** Of the whole chunks that have been read, what lands changes none that is not marked. */
  ghost predicate InTime<T>(s: State<T>, w: AioWrite<T>, from: nat, n: nat)
    requires CanLand(s, w, from, n)
  {
    forall c: nat ::
      c * CHUNK + CHUNK <= s.devs[w.dev].cur && c * CHUNK + CHUNK <= |s.devs[w.dev].disk| &&
      c !in s.devs[w.dev].dirty ==>
      Chunk(Landed(s, w, from, n).disk, c) == Chunk(s.devs[w.dev].disk, c)
  }

  ghost predicate TimelyStep<T>(s: State<T>, a: Action<T>)
    requires Enabled(s, a)
  {
    a.Land? ==> InTime(s, s.pending[a.w], a.from, a.n)
  }

  /** Every landing of a run is in time. */
  ghost predicate Timely<T>(s: State<T>, acts: seq<Action<T>>)
    requires Runs(s, acts)
    decreases |acts|
  {
    |acts| > 0 ==> TimelyStep(s, acts[0]) && Timely(Apply(s, acts[0]), acts[1..])
  }

  lemma {:induction false} TimelyOn<T>(s: State<T>, acts: seq<Action<T>>, more: seq<Action<T>>)
    requires Runs(s, acts) && Timely(s, acts) && Runs(Run(s, acts), more) && Timely(Run(s, acts), more)
    ensures Runs(s, acts + more) && Timely(s, acts + more)
    decreases |acts|
  {
    RunOn(s, acts, more);
    if |acts| == 0 {
      assert acts + more == more;
    } else {
      TimelyOn(Apply(s, acts[0]), acts[1..], more);
      assert (acts + more)[1..] == acts[1..] + more;
    }
  }

  lemma {:induction false} NoLandingIsTimely<T>(s: State<T>, acts: seq<Action<T>>)
    requires Runs(s, acts) && forall i :: 0 <= i < |acts| ==> !acts[i].Land?
    ensures Timely(s, acts)
    decreases |acts|
  {
    if |acts| > 0 {
      NoLandingIsTimely(Apply(s, acts[0]), acts[1..]);
    }
  }

  // The invariant.

  ghost predicate Awaits<T>(bs: seq<Block<T>>, d: nat, c: nat) {
    exists i :: 0 <= i < |bs| && bs[i].dev == d && bs[i].sector == c * CHUNK
  }

  /**
   * A chunk on its way lies below cur.  If it is a whole one, it is current, or the chunk has been
   * marked since.
   */
  ghost predicate BlockInv<T>(devs: seq<Dev<T>>, b: Block<T>) {
    && b.dev < |devs| && |b.buf| == CHUNK
    && var dev := devs[b.dev]; var c := b.sector / CHUNK;
    && b.sector == c * CHUNK && b.sector < dev.cur <= |dev.disk|
    && (b.sector + CHUNK <= |dev.disk| ==>
          b.sector + CHUNK <= dev.cur && (c in dev.dirty || b.ret < 0 || b.buf == Chunk(dev.disk, c)))
  }

  ghost predicate BlocksInv<T>(devs: seq<Dev<T>>, bs: seq<Block<T>>) {
    forall i :: 0 <= i < |bs| ==> BlockInv(devs, bs[i])
  }

  ghost predicate Shape<T>(dev: Dev<T>) {
    && (dev.cur % CHUNK == 0 || dev.cur == |dev.disk|)
    && dev.cur <= |dev.disk| && dev.completed <= |dev.disk|
    && (dev.bulkDone ==> dev.cur == |dev.disk|)
  }

  /** A whole chunk below cur is marked, on its way, or up to date at the receiver. */
  ghost predicate Settled<T>(s: State<T>, d: nat, dest: seq<T>, c: nat)
    requires d < |s.devs|
  {
    c * CHUNK + CHUNK <= |s.devs[d].disk| == |dest| &&
      (c in s.devs[d].dirty || Awaits(s.inflight, d, c) || Awaits(s.queue, d, c) ||
      Chunk(dest, c) == Chunk(s.devs[d].disk, c))
  }

  /** With a shared base, the receiver has every sector that is still unallocated above cur. */
  ghost predicate BaseShared<T>(dev: Dev<T>, dest: seq<T>) {
    |dest| == |dev.disk| &&
    (dev.sharedBase ==> forall k :: dev.cur <= k < |dev.disk| && k !in dev.alloc ==> dest[k] == dev.disk[k])
  }

  ghost predicate DevInv<T>(s: State<T>, d: nat, dest: seq<T>)
    requires d < |s.devs|
  {
    && Shape(s.devs[d])
    && BaseShared(s.devs[d], dest)
    && (forall c: nat :: c * CHUNK + CHUNK <= s.devs[d].cur ==> Settled(s, d, dest, c))
  }

  ghost predicate Inv<T>(s: State<T>, disks: seq<seq<T>>) {
    && |disks| == |s.devs|
    && BlocksInv(s.devs, s.inflight) && BlocksInv(s.devs, s.queue)
    && (forall i :: 0 <= i < |s.inflight| ==> s.inflight[i].ret == 0)
    && (forall d :: 0 <= d < |s.devs| ==> DevInv(s, d, disks[d]))
  }
}
