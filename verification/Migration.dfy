/**
 * The sender of live block migration as code (qemu/block-migration.c:127-469).  Each method is
 * shown to take a run of the protocol's steps; rate limits and driver errors are left open.
 */
module Migration {
  import opened BlockDefs
  import opened Splices
  import opened MigrationModel
  import opened MigrationProof
  import opened MigrationLimits
  import opened MigrationPass

  const MAX_IS_ALLOCATED_SEARCH: nat := 65536

  /**
   * A hard disk as init_blk_migration finds it.  Tracking may still be on from an earlier
   * migration: blk_mig_cleanup empties the list before it tries to switch tracking off.
   */
  datatype Drive<T> = Drive(disk: seq<T>, alloc: set<nat>, tracked: bool, marks: set<nat>)

  /** Sectors read so far by the bulk passes of the first n devices. */
  function CompletedSum<T>(devs: seq<Dev<T>>, n: nat): nat
    requires n <= |devs|
  {
    if n == 0 then 0 else CompletedSum(devs, n - 1) + devs[n - 1].completed
  }

  function TotalSum<T>(devs: seq<Dev<T>>, n: nat): nat
    requires n <= |devs|
  {
    if n == 0 then 0 else TotalSum(devs, n - 1) + |devs[n - 1].disk|
  }

  /** What is left for the bulk pass: sectors, and devices not known to be complete. */
  ghost function Remaining<T>(devs: seq<Dev<T>>, n: nat): int
    requires n <= |devs|
  {
    if n == 0 then 0
    else Remaining(devs, n - 1) + (|devs[n - 1].disk| - devs[n - 1].cur) + (if devs[n - 1].bulkDone then 0 else 1)
  }

  ghost predicate InBounds<T>(dev: Dev<T>) {
    dev.cur <= |dev.disk| && dev.completed <= |dev.disk| && (dev.bulkDone ==> dev.cur == |dev.disk|)
  }

  lemma {:induction false} SumsBounded<T>(devs: seq<Dev<T>>, n: nat, m: nat)
    requires n <= m <= |devs| && forall d :: 0 <= d < |devs| ==> InBounds(devs[d])
    ensures CompletedSum(devs, n) <= TotalSum(devs, m)
    decreases m
  {
    if n < m {
      SumsBounded(devs, n, m - 1);
    } else if n > 0 {
      SumsBounded(devs, n - 1, m - 1);
      assert InBounds(devs[n - 1]);
    }
  }

  lemma {:induction false} RemainingFalls<T>(devs: seq<Dev<T>>, d: nat, dev': Dev<T>, n: nat)
    requires d < n <= |devs|
    ensures Remaining(devs[d := dev'], n) - Remaining(devs, n)
      == |dev'.disk| - dev'.cur + (if dev'.bulkDone then 0
        else 1) - (|devs[d].disk| - devs[d].cur + (if devs[d].bulkDone then 0 else 1))
  {
    if n == d + 1 {
      RemainingPrefix(devs, d, dev', d);
    } else {
      RemainingFalls(devs, d, dev', n - 1);
    }
  }

  lemma {:induction false} RemainingPrefix<T>(devs: seq<Dev<T>>, d: nat, dev': Dev<T>, n: nat)
    requires n <= d < |devs|
    ensures Remaining(devs[d := dev'], n) == Remaining(devs, n)
  {
    if n > 0 {
      RemainingPrefix(devs, d, dev', n - 1);
    }
  }

  lemma {:induction false} RemainingNat<T>(devs: seq<Dev<T>>, n: nat)
    requires n <= |devs| && forall d :: 0 <= d < |devs| ==> InBounds(devs[d])
    ensures Remaining(devs, n) >= 0
  {
    if n > 0 {
      RemainingNat(devs, n - 1);
      assert InBounds(devs[n - 1]);
    }
  }

  /** The steps of a bulk section. */
  ghost predicate BulkStep<T>(a: Action<T>, isAsync: bool) {
    (if isAsync then a.Submit? else a.SyncBulk?) || a.SkipToEnd? || a.BulkDone? || a.Refused? ||
      (a.Emit? && a.record.Progress?)
  }

  ghost predicate BulkSteps<T>(acts: seq<Action<T>>, isAsync: bool) {
    forall i :: 0 <= i < |acts| ==> BulkStep(acts[i], isAsync)
  }

  /** Chunk c is marked and has been reached, and the disk ends inside it: it cannot be read as a whole. */
  ghost predicate PartMarked<T>(dev: Dev<T>, c: nat) { c in dev.dirty && c * CHUNK < dev.cur &&
      c * CHUNK + CHUNK > |dev.disk| }

  ghost predicate TailMarked<T>(dev: Dev<T>) { exists c: nat :: PartMarked(dev, c) }

  lemma TailMarkedIsNotClean<T>(dev: Dev<T>)
    requires dev.cur == |dev.disk|
    ensures TailMarked(dev) <==> !TailClean(dev)
  {
    var last := |dev.disk| / CHUNK;
    if !TailClean(dev) {
      assert PartMarked(dev, last);
    }
    if c: nat :| PartMarked(dev, c) {
      assert c == last;
    }
  }

  /** The steps of flush_blks. */
  ghost predicate FlushSteps<T>(acts: seq<Action<T>>) {
    forall i :: 0 <= i < |acts| ==> acts[i].FlushHead? || acts[i].Fail?
  }

  class BlkMigState<T> {
    var devs: seq<Dev<T>>          // bmds_list
    var blkList: seq<Block<T>>
    var submitted: int
    var readDone: int
    var transferred: int
    var totalSectorSum: nat
    var prevProgress: int

    var pending: seq<AioWrite<T>>  // guest writes that the block layer has not called back
    var inflight: seq<Block<T>>    // reads that the block layer has not called back
    var out: seq<Record<T>>        // what went into the file
    var hasError: bool             // and its error flag
    var quota: nat                 // how many blocks it still takes before its rate limit
    var faults: nat                // how often the drivers will still refuse a request

    ghost function State(): State<T>
      reads this
    {
      MigrationModel.State(devs, pending, inflight, blkList, out, hasError)
    }

    ghost predicate Valid()
      reads this
    {
      && submitted == |inflight| && readDone == |blkList|
      && (forall d :: 0 <= d < |devs| ==> InBounds(devs[d]))
      && totalSectorSum == TotalSum(devs, |devs|) && (|devs| > 0 ==> totalSectorSum > 0)
    }

    constructor (quota: nat, faults: nat)
      ensures Valid() && devs == [] && State() == MigrationModel.State([], [], [], [], [], false)
    {
      devs, blkList, pending, inflight, out := [], [], [], [], [];
      submitted, readDone, transferred, totalSectorSum, prevProgress := 0, 0, 0, 0, -1;
      hasError := false;
      this.quota, this.faults := quota, faults;
    }

    /** blk_mig_read_cb, called by the block layer for the read number i. */
    method ReadCallback(i: nat, ret: int)
      requires Valid() && i < |inflight|
      modifies `inflight, `blkList, `submitted, `readDone
      ensures Valid() && State() == Apply(old(State()), Complete(i, ret))
      ensures faults == old(faults)
    {
      var blk := inflight[i].(ret := ret);
      inflight := inflight[..i] + inflight[i + 1..];
      blkList := blkList + [blk];
      submitted := submitted - 1;
      readDone := readDone + 1;
    }

    /** The loop at the head of mig_save_device_bulk. */
    method SkipUnallocated(d: nat) returns (curSector: nat)
      requires d < |devs| && devs[d].cur <= |devs[d].disk|
      ensures Skips(devs[d], curSector) && curSector <= |devs[d].disk|
    {
      curSector := devs[d].cur;
      if devs[d].sharedBase {
        while curSector < |devs[d].disk|
          invariant devs[d].cur <= curSector <= |devs[d].disk|
          invariant forall k :: devs[d].cur <= k < curSector ==> k !in devs[d].alloc
        {
          var alloc, nr := IsAllocated(devs[d].alloc, |devs[d].disk|, curSector, MAX_IS_ALLOCATED_SEARCH);
          if alloc {
            break;
          }
          curSector := curSector + nr;
        }
      }
    }

    /** Puts a changed record of device d back. */
    method Update(d: nat, dev: Dev<T>)
      requires Valid() && d < |devs| && InBounds(dev) && |dev.disk| == |devs[d].disk|
      modifies `devs
      ensures Valid() && devs == old(devs)[d := dev]
    {
      SumUpdate(devs, d, dev, |devs|);
      devs := devs[d := dev];
    }

    /** The branch of mig_save_device_bulk that reads a chunk; the buffer has junk behind a short read. */
    method ReadChunk(d: nat, at: nat, isAsync: bool, junk: T) returns (ghost pad: seq<T>)
      requires Valid() && d < |devs| && !devs[d].bulkDone && Skips(devs[d], at) && at < |devs[d].disk|
      modifies `devs, `inflight, `submitted, `out
      ensures Valid() && BulkReady(old(State()), d, at, pad)
      ensures State() == Apply(old(State()), if isAsync then Submit(d, at, pad) else SyncBulk(d, at, pad))
      ensures devs == old(devs)[d := Read(old(devs[d]), at)]
    {
      hide Skips, AlignDown, TotalSum;
      var (total, q) := (|devs[d].disk|, AlignDown(at));
      var nr := if total - q < CHUNK then total - q else CHUNK;
      var buf := devs[d].disk[q..q + nr] + seq(CHUNK - nr, _ => junk);
      pad := seq(CHUNK - nr, _ => junk);
      if isAsync {
        inflight := inflight + [Block(d, q, buf, 0)];
        submitted := submitted + 1;
      } else {
        out := out + [Data(d, q, buf)];
      }
      Update(d, devs[d].(completed := at, cur := q + nr, dirty := devs[d].dirty - {q / CHUNK}));
    }

    /** mig_save_device_bulk. */
    method SaveDeviceBulk(d: nat, isAsync: bool, junk: T) returns (done: bool, ghost a: Action<T>)
      requires Valid() && d < |devs| && !devs[d].bulkDone
      modifies `devs, `inflight, `submitted, `out, `hasError, `faults
      ensures Valid() && Enabled(old(State()), a) && State() == Apply(old(State()), a) && BulkStep(a, isAsync)
      ensures |devs| == |old(devs)| && devs == old(devs)[d := devs[d]] && |devs[d].disk| == |old(devs)[d].disk| &&
        !devs[d].bulkDone
      ensures a.Refused? || a.Submit? || a.SyncBulk? || a.SkipToEnd?
      ensures done <==> !a.Refused? && devs[d].cur == |devs[d].disk|
      ensures a.Refused? ==> devs[d].cur < |devs[d].disk|
      ensures faults == if a.Refused? then old(faults) - 1 else old(faults)
      ensures hasError <==> old(hasError) || faults < old(faults)
      ensures old(devs)[d].cur <= devs[d].cur && (a.Refused? || done || old(devs)[d].cur < devs[d].cur)
    {
      hide AlignDown, TotalSum, BulkBuffer;
      var total := |devs[d].disk|;
      var at := SkipUnallocated(d);
      if at >= total {
        Update(d, devs[d].(cur := total, completed := total));
        return true, SkipToEnd(d);
      }
      if faults > 0 {
        var refused: bool := *;
        if refused {
          faults := faults - 1;
          hasError := true;
          Update(d, devs[d].(completed := at));
          return false, Refused(d, at);
        }
      }
      ghost var pad := ReadChunk(d, at, isAsync, junk);
      done := devs[d].cur >= total;
      a := if isAsync then Submit(d, at, pad) else SyncBulk(d, at, pad);
    }

    /** How much bulk work, or refusing, is left: the loops below end because it falls. */
    ghost function Left(): int
      reads this
    {
      faults + Remaining(devs, |devs|)
    }

    /** The first device whose bulk pass is not complete, and the sectors completed before it. */
    method FirstUnfinished() returns (d: nat, sum: nat)
      requires Valid()
      ensures d <= |devs| && sum == CompletedSum(devs, d)
      ensures forall e :: 0 <= e < d ==> devs[e].bulkDone
      ensures d < |devs| ==> !devs[d].bulkDone
    {
      d, sum := 0, 0;
      while d < |devs| && devs[d].bulkDone
        invariant d <= |devs| && sum == CompletedSum(devs, d)
        invariant forall e :: 0 <= e < d ==> devs[e].bulkDone
      {
        sum := sum + devs[d].completed;
        d := d + 1;
      }
    }

    /** One device's turn in blk_mig_save_bulked_block. */
    method SaveBulkedDevice(d: nat, isAsync: bool, junk: T) returns (ghost acts: seq<Action<T>>)
      requires Valid() && d < |devs| && !devs[d].bulkDone
      modifies `devs, `inflight, `submitted, `out, `hasError, `faults
      ensures Valid() && Leads(old(State()), acts, State()) && BulkSteps(acts, isAsync)
      ensures |devs| == |old(devs)| && Left() < old(Left())
      ensures forall e :: 0 <= e < |devs| && e != d ==> devs[e] == old(devs)[e]
      ensures devs[d].bulkDone <==> devs[d].cur == |devs[d].disk|
      ensures faults <= old(faults) && (hasError <==> old(hasError) || faults < old(faults))
    {
      hide Remaining, TotalSum, Leads, Runs, Run, Skips;
      var done;
      ghost var a;
      done, a := SaveDeviceBulk(d, isAsync, junk);
      ghost var mid := State();
      OneStep(old(State()), a);
      RemainingFalls(old(devs), d, devs[d], |devs|);
      acts := [a];
      if done {
        RemainingFalls(devs, d, devs[d].(bulkDone := true), |devs|);
        OneStep(mid, BulkDone(d));
        Update(d, devs[d].(bulkDone := true));
        LeadsOn(old(State()), acts, mid, [BulkDone(d)], State());
        acts := acts + [BulkDone(d)];
      }
    }

    /** The progress report at the end of blk_mig_save_bulked_block. */
    method ReportProgress(sum: nat) returns (ghost acts: seq<Action<T>>)
      requires Valid() && |devs| > 0 && sum <= totalSectorSum
      modifies `prevProgress, `out
      ensures Valid() && Leads(old(State()), acts, State()) && BulkSteps(acts, true) && BulkSteps(acts, false)
      ensures prevProgress == sum * 100 / totalSectorSum && 0 <= prevProgress <= 100
      ensures out == old(out) + (if prevProgress == old(prevProgress) then [] else [Progress(prevProgress)])
    {
      acts := [];
      Percent(sum, totalSectorSum);
      var progress := sum * 100 / totalSectorSum;
      if progress != prevProgress {
        prevProgress := progress;
        out := out + [Progress(progress)];
        acts := [Emit(Progress(progress))];
        OneStep(old(State()), Emit(Progress(progress)));
      }
    }

    lemma WithinTotal(n: nat)
      requires Valid() && n <= |devs|
      ensures CompletedSum(devs, n) <= totalSectorSum
    {
      SumsBounded(devs, n, |devs|);
    }

    /** blk_mig_save_bulked_block: works on device d, the first unfinished one; false if there is none. */
    method SaveBulkedBlock(isAsync: bool, junk: T) returns (ret: bool, ghost acts: seq<Action<T>>, ghost d: nat)
      requires Valid() && |devs| > 0
      modifies `devs, `inflight, `submitted, `out, `hasError, `faults, `prevProgress
      ensures Valid() && Leads(old(State()), acts, State()) && BulkSteps(acts, isAsync) && |devs| == |old(devs)|
      ensures d <= |devs| && (forall e :: 0 <= e < d ==> old(devs)[e].bulkDone)
      ensures ret == (d < |devs|) && (ret ==> !old(devs)[d].bulkDone)
      ensures forall e :: 0 <= e < |devs| && e != d ==> devs[e] == old(devs)[e]
      ensures ret ==> Left() < old(Left()) && (devs[d].bulkDone <==> devs[d].cur == |devs[d].disk|)
      ensures !ret ==> devs == old(devs) && hasError == old(hasError) && inflight == old(inflight)
      ensures prevProgress == CompletedSum(devs, if ret then d + 1 else d) * 100 / totalSectorSum &&
        0 <= prevProgress <= 100
      ensures faults <= old(faults) && (hasError <==> old(hasError) || faults < old(faults))
    {
      hide Leads, BulkSteps, TotalSum, CompletedSum, Remaining, InBounds, Valid;
      acts := [];
      LeadsNowhere(State());
      NoSteps<T>(isAsync);
      var n, sum := FirstUnfinished();
      d := n;
      ret := n < |devs|;
      if ret {
        acts := SaveBulkedDevice(n, isAsync, junk);
        CompletedPrefix(old(devs), devs, n);
        CompletedNext(devs, n);
        sum := sum + devs[n].completed;
        WithinTotal(n + 1);
      } else {
        WithinTotal(n);
      }
      ghost var mid := State();
      ghost var more := ReportProgress(sum);
      LeadsOn(old(State()), acts, mid, more, State());
      BothSteps(acts, more, isAsync);
      acts := acts + more;
    }

    /** flush_blks: sends from the head of the queue until the rate limit or a failed read stops it. */
    method FlushBlks() returns (ghost acts: seq<Action<T>>)
      requires Valid()
      modifies `blkList, `readDone, `transferred, `out, `hasError, `quota
      ensures hasError <==> old(hasError) || (quota > 0 && blkList != [])
      ensures quota > 0 && blkList != [] ==> blkList[0].ret < 0
      ensures |blkList| <= |old(blkList)| && blkList == old(blkList)[|old(blkList)| - |blkList|..]
      ensures Valid() && Leads(old(State()), acts, State()) && FlushSteps(acts)
      ensures readDone + transferred == old(readDone + transferred) && quota + transferred == old(quota + transferred)
    {
      hide Leads, Enabled, Apply, FlushSteps, InBounds, TotalSum;
      acts := [];
      ghost var all := blkList;
      LeadsNowhere(State());
      NoFlushSteps<T>();
      while |blkList| > 0
        invariant Valid() && Leads(old(State()), acts, State()) && FlushSteps(acts)
        invariant readDone + transferred == old(readDone + transferred) &&
          quota + transferred == old(quota + transferred)
        invariant |blkList| <= |all| && blkList == all[|all| - |blkList|..] && hasError == old(hasError)
        decreases |blkList|
      {
        ghost var mid := State();
        if quota == 0 {
          return;
        }
        var blk := blkList[0];
        if blk.ret < 0 {
          hasError := true;
          FailOn(old(State()), acts, mid);
          acts := acts + [Fail];
          return;
        }
        out := out + [Data(blk.dev, blk.sector, blk.buf)];
        blkList := blkList[1..];
        readDone := readDone - 1;
        transferred := transferred + 1;
        quota := quota - 1;
        FlushOn(old(State()), acts, mid);
        acts := acts + [FlushHead];
      }
    }

    /** One marked chunk of the final pass; the read may fail, and does so behind the end of the disk. */
    method SaveDirtyChunk(d: nat, c: nat) returns (ok: bool)
      requires Valid() && d < |devs| && c in devs[d].dirty && c * CHUNK < devs[d].cur
      modifies `devs, `out, `hasError, `faults
      ensures Valid() && faults <= old(faults) && (hasError <==> old(hasError) || !ok)
      ensures ok ==> faults == old(faults)
      ensures faults == old(faults) ==> (ok <==> c * CHUNK + CHUNK <= |old(devs)[d].disk|)
      ensures ok ==> Enabled(old(State()), DirtyChunk(d, c)) && State() == Apply(old(State()), DirtyChunk(d, c))
      ensures ok ==>
        devs == old(devs)[d := old(devs)[d].(dirty := old(devs)[d].dirty - {c})] && hasError == old(hasError)
      ensures !ok ==> State() == Apply(old(State()), Fail) && devs == old(devs)
    {
      hide TotalSum;
      if c * CHUNK + CHUNK > |devs[d].disk| {
        hasError := true;
        return false;
      }
      if faults > 0 {
        var failed: bool := *;
        if failed {
          faults := faults - 1;
          hasError := true;
          return false;
        }
      }
      out := out + [Data(d, c * CHUNK, Chunk(devs[d].disk, c))];
      Update(d, devs[d].(dirty := devs[d].dirty - {c}));
      ok := true;
    }

    /** The inner loop of blk_mig_save_dirty_blocks. */
    method SaveDirtyDevice(d: nat) returns (ok: bool, ghost acts: seq<Action<T>>)
      requires Valid() && d < |devs|
      modifies `devs, `out, `hasError, `faults
      ensures faults <= old(faults) && (hasError <==> old(hasError) || !ok) && (ok ==> faults == old(faults))
      ensures faults == old(faults) ==> (ok <==> !TailMarked(old(devs)[d]))
      ensures |devs| == |old(devs)| && forall e :: 0 <= e < |devs| && e != d ==> devs[e] == old(devs)[e]
      ensures Valid() && Pass(acts)
      ensures Runs(old(State()), acts)
      ensures State() == if ok then Run(old(State()), acts) else Apply(Run(old(State()), acts), Fail)
      ensures SameShapes(old(devs), devs)
      ensures ok ==> forall c: nat :: c * CHUNK < devs[d].cur ==> c !in devs[d].dirty
      ensures forall e :: 0 <= e < |devs| ==> devs[e].dirty <= old(devs)[e].dirty
    {
      hide Apply, Enabled, Run, Runs;
      acts := [];
      LeadsNowhere(State());
      var c := 0;
      while c * CHUNK < devs[d].cur
        invariant Valid() && SameShapes(old(devs), devs) && Pass(acts)
        invariant Leads(old(State()), acts, State()) && hasError == old(hasError)
        invariant forall k: nat :: k < c ==> k !in devs[d].dirty
        invariant forall k: nat :: k >= c ==> (k in devs[d].dirty <==> k in old(devs)[d].dirty)
        invariant forall k: nat :: k < c && k in old(devs)[d].dirty ==> k * CHUNK + CHUNK <= |devs[d].disk|
        invariant faults == old(faults) && forall e :: 0 <= e < |devs| && e != d ==> devs[e] == old(devs)[e]
        invariant forall e :: 0 <= e < |devs| ==> devs[e].dirty <= old(devs)[e].dirty
        decreases devs[d].cur - c * CHUNK
      {
        if c in devs[d].dirty {
          ghost var mid := State();
          ok := SaveDirtyChunk(d, c);
          if !ok {
            assert faults == old(faults) ==> PartMarked(old(devs)[d], c);
            return;
          }
          OneStep(mid, DirtyChunk(d, c));
          LeadsOn(old(State()), acts, mid, [DirtyChunk(d, c)], State());
          acts := acts + [DirtyChunk(d, c)];
        }
        c := c + 1;
      }
      ok := true;
    }

    /** blk_mig_save_dirty_blocks: everything marked below cur is sent, unless a read fails. */
    method SaveDirtyBlocks() returns (ok: bool, ghost acts: seq<Action<T>>)
      requires Valid()
      modifies `devs, `out, `hasError, `faults
      ensures faults <= old(faults) && (hasError <==> old(hasError) || !ok) && (ok ==> faults == old(faults))
      ensures AllRead(old(State())) && faults == old(faults) ==> (ok <==> TailsClean(old(State())))
      ensures Valid() && Pass(acts) && Runs(old(State()), acts)
      ensures State() == if ok then Run(old(State()), acts) else Apply(Run(old(State()), acts), Fail)
      ensures ok ==> NoneMarked(State())
      ensures SameShapes(old(devs), devs)
    {
      acts := [];
      var d := 0;
      while d < |devs|
        invariant Valid() && d <= |devs| && SameShapes(old(devs), devs) && Pass(acts)
        invariant Leads(old(State()), acts, State())
        invariant forall e, c: nat :: 0 <= e < d && c * CHUNK < devs[e].cur ==> c !in devs[e].dirty
        invariant faults == old(faults) && hasError == old(hasError)
        invariant forall e :: 0 <= e < d ==> !TailMarked(old(devs)[e])
        invariant forall e :: d <= e < |devs| ==> devs[e] == old(devs)[e]
      {
        ghost var mid := State();
        ghost var more;
        ok, more := SaveDirtyDevice(d);
        RunOn(old(State()), acts, more);
        acts := acts + more;
        if !ok {
          if AllRead(old(State())) {
            TailMarkedIsNotClean(old(devs)[d]);
          }
          return;
        }
        d := d + 1;
      }
      ok := true;
      forall e | 0 <= e < |old(devs)| && AllRead(old(State()))
        ensures TailClean(old(devs)[e])
      {
        TailMarkedIsNotClean(old(devs)[e]);
      }
    }

    method AddDevice(dev: Dev<T>)
      requires Valid() && InBounds(dev) && |dev.disk| > 0
      modifies `devs, `totalSectorSum
      ensures Valid() && devs == old(devs) + [dev]
    {
      TotalMore(devs, dev);
      totalSectorSum := totalSectorSum + |dev.disk|;
      devs := devs + [dev];
    }

    /** init_blk_migration and set_dirty_tracking(1): a device for every disk that has sectors. */
    method Init(drives: seq<Drive<T>>, sharedBase: bool)
      requires devs == [] && blkList == [] && inflight == []
      modifies this
      ensures Valid() && devs == Devices(drives, sharedBase)
      ensures pending == old(pending) && inflight == [] && blkList == [] && out == old(out) && hasError == old(hasError)
      ensures transferred == 0 && prevProgress == -1 && quota == old(quota) && faults == old(faults)
    {
      hide Devices;
      submitted, readDone, transferred, totalSectorSum, prevProgress := 0, 0, 0, 0, -1;
      var i := 0;
      NoDevices(drives, sharedBase);
      while i < |drives|
        invariant i <= |drives| && devs == Devices(drives[..i], sharedBase)
        invariant Valid() && pending == old(pending) && inflight == [] && blkList == []
        invariant out == old(out) && hasError == old(hasError)
        invariant transferred == 0 && prevProgress == -1 && quota == old(quota) && faults == old(faults)
      {
        DevicesMore(drives, i, sharedBase);
        if |drives[i].disk| > 0 {
          AddDevice(FreshDev(drives[i], sharedBase));
        }
        i := i + 1;
      }
      assert drives[..|drives|] == drives;
    }

    /** blk_mig_cleanup: whatever is still queued is dropped. */
    method Cleanup()
      modifies `devs, `blkList
      ensures devs == [] && blkList == []
    {
      devs, blkList := [], [];
    }

    /** The rate-controlled loop of block_save_live. */
    method ReadAhead(rateLimit: int, junk: T) returns (ghost acts: seq<Action<T>>)
      requires Valid() && |devs| > 0
      modifies `devs, `inflight, `submitted, `out, `hasError, `faults, `prevProgress
      ensures Valid() && |devs| == |old(devs)| && Leads(old(State()), acts, State()) && BulkSteps(acts, true)
      ensures (submitted + readDone) * BLOCK_SIZE >= rateLimit || forall d :: 0 <= d < |devs| ==> devs[d].bulkDone
      ensures faults <= old(faults) && (hasError <==> old(hasError) || faults < old(faults))
    {
      acts := [];
      var more := true;
      while more && (submitted + readDone) * BLOCK_SIZE < rateLimit
        invariant faults <= old(faults) && (hasError <==> old(hasError) || faults < old(faults))
        invariant Valid() && |devs| == |old(devs)| && Leads(old(State()), acts, State()) && BulkSteps(acts, true)
        invariant !more ==> forall d :: 0 <= d < |devs| ==> devs[d].bulkDone
        decreases more, Left()
      {
        ghost var (mid, step, d) := (State(), acts, 0);
        RemainingNat(devs, |devs|);
        more, step, d := SaveBulkedBlock(true, junk);
        LeadsOn(old(State()), acts, mid, step, State());
        acts := acts + step;
      }
    }

    /** The synchronous loop of stage 3. */
    method ReadRest(junk: T) returns (ghost acts: seq<Action<T>>)
      requires Valid() && |devs| > 0
      modifies `devs, `inflight, `submitted, `out, `hasError, `faults, `prevProgress
      ensures Valid() && |devs| == |old(devs)| && Leads(old(State()), acts, State()) && BulkSteps(acts, false)
      ensures AllRead(State())
      ensures faults <= old(faults) && (hasError <==> old(hasError) || faults < old(faults))
    {
      acts := [];
      var more := true;
      while more
        invariant faults <= old(faults) && (hasError <==> old(hasError) || faults < old(faults))
        invariant Valid() && |devs| == |old(devs)| && Leads(old(State()), acts, State()) && BulkSteps(acts, false)
        invariant !more ==> forall d :: 0 <= d < |devs| ==> devs[d].bulkDone
        decreases more, Left()
      {
        ghost var (mid, step, d) := (State(), acts, 0);
        RemainingNat(devs, |devs|);
        more, step, d := SaveBulkedBlock(false, junk);
        LeadsOn(old(State()), acts, mid, step, State());
        acts := acts + step;
      }
      forall d | 0 <= d < |devs|
        ensures devs[d].cur == |devs[d].disk|
      {
        assert InBounds(devs[d]);
      }
    }

    /** is_stage2_completed: the queue is not looked at. */
    method IsStage2Completed() returns (completed: bool)
      requires Valid()
      ensures completed == Stage2Completed(State())
    {
      if submitted > 0 {
        return false;
      }
      var d := 0;
      while d < |devs|
        invariant d <= |devs| && forall e :: 0 <= e < d ==> devs[e].bulkDone
      {
        if !devs[d].bulkDone {
          return false;
        }
        d := d + 1;
      }
      completed := true;
    }

    /** What else goes into the file counts towards its rate limit. */
    method OthersWrite()
      requires Valid()
      modifies `quota
      ensures Valid() && quota <= old(quota)
    {
      var left: nat := *;
      if 0 <= left < quota {
        quota := left;
      }
    }

    /** The part of block_save_live that all stages share; `going` unless an error was found. */
    method SaveSection(rateLimit: int, junk: T) returns (going: bool, ghost acts: seq<Action<T>>)
      requires Valid() && |devs| > 0
      modifies this
      ensures Valid() && |devs| == |old(devs)| && Leads(old(State()), acts, State()) && OwnSteps(acts)
      ensures going == !hasError && faults <= old(faults)
      ensures hasError ==> old(hasError) || faults < old(faults) || SomeFailed(old(blkList))
      ensures !hasError ==> !old(hasError) && faults == old(faults)
      ensures going ==> quota == 0 || blkList == []
    {
      hide Leads, BulkSteps, FlushSteps, OwnSteps, Valid;
      acts := FlushBlks();
      StepsAreOwn(acts, true);
      if hasError {
        return false, acts;
      }
      ghost var mid := State();
      ghost var more := ReadAhead(rateLimit, junk);
      StepsAreOwn(more, true);
      OwnBoth(acts, more);
      LeadsOn(old(State()), acts, mid, more, State());
      acts := acts + more;
      mid := State();
      OthersWrite();
      more := FlushBlks();
      StepsAreOwn(more, true);
      OwnBoth(acts, more);
      LeadsOn(old(State()), acts, mid, more, State());
      acts := acts + more;
      going := !hasError;
    }

    /** What stage 3 adds: the rest of the bulk pass, the final pass, and the end of the device list. */
    method SaveStage3(junk: T)
        returns (ghost acts: seq<Action<T>>, ghost atPass: State<T>, ghost pass: seq<Action<T>>, ghost after: State<T>)
      requires Valid() && |devs| > 0
      modifies this
      ensures OwnSteps(acts) && Leads(old(State()), acts, atPass) && AllRead(atPass)
      ensures Pass(pass) && Runs(atPass, pass)
      ensures !hasError ==> after == Run(atPass, pass) && NoneMarked(after)
      ensures faults <= old(faults)
      ensures hasError <==> old(hasError) || faults < old(faults) || !TailsClean(atPass)
      ensures out == after.out && hasError == after.error
      ensures devs == [] && blkList == []
    {
      acts := ReadRest(junk);
      atPass := State();
      var ok;
      ok, pass := SaveDirtyBlocks();
      after := State();
      Cleanup();
    }

    /**
     * block_save_live.  `atPass` is the state when the final pass starts, `after` the state when
     * it ends, before everything is dropped.
     */
    method BlockSaveLive(stage: int, blkEnable: bool, sharedBase: bool, drives: seq<Drive<T>>, rateLimit: int, junk: T)
        returns (ret: bool, ghost s0: State<T>, ghost acts: seq<Action<T>>, ghost atPass: State<T>,
          ghost pass: seq<Action<T>>, ghost after: State<T>)
      requires stage == 1 && blkEnable ==>
        devs == [] && blkList == [] && inflight == [] && Devices(drives, sharedBase) != []
      requires stage > 1 && blkEnable ==> Valid() && |devs| > 0
      requires stage != 0
      modifies this
      ensures s0 == if stage == 1 && blkEnable then
        MigrationModel.State(Devices(drives, sharedBase), old(pending), [], [], old(out), old(hasError))
        else old(State())
      ensures stage < 0 ==> devs == [] && blkList == [] && out == old(out) && !ret
      ensures stage > 0 && !blkEnable ==> State() == old(State()).(out := old(out) + [Eos]) && ret
      ensures stage > 0 && blkEnable ==> OwnSteps(acts) && Leads(s0, acts, atPass)
      ensures stage > 0 && blkEnable && stage != 3 && !atPass.error ==>
        Valid() && State() == atPass.(out := atPass.out + [Eos]) && (ret <==> stage == 2 && Stage2Completed(State()))
      ensures ret <==> stage > 0 && (!blkEnable || (stage == 2 && !hasError && Stage2Completed(State())))
      ensures hasError ==>
        old(hasError) || faults < old(faults) || SomeFailed(old(blkList)) || (stage == 3 && !TailsClean(atPass))
      ensures stage > 0 && blkEnable && stage != 3 ==>
        hasError == atPass.error && |devs| == if hasError then 0 else |s0.devs|
      ensures stage == 3 && blkEnable && !hasError ==>
        && AllRead(atPass) && Pass(pass) && Leads(atPass, pass, after) && NoneMarked(after)
        && out == after.out + [Progress(100), Eos] && devs == [] && blkList == []
    {
      hide OwnSteps, TotalSum, Runs, Run, Devices, TailsClean, AllRead, NoneMarked;
      s0, acts, pass := State(), [], [];
      atPass, after := s0, s0;
      if stage < 0 {
        Cleanup();
        return false, s0, acts, atPass, pass, after;
      }
      if !blkEnable {
        out := out + [Eos];
        return true, s0, acts, atPass, pass, after;
      }
      if stage == 1 {
        Init(drives, sharedBase);
        s0 := State();
      }
      var going;
      ghost var queued := blkList;
      going, acts := SaveSection(rateLimit, junk);
      assert queued == old(blkList);
      atPass := State();
      if !going {
        Cleanup();
        return false, s0, acts, atPass, pass, after;
      }
      if stage == 3 {
        ghost var (mid, more) := (State(), acts);
        more, atPass, pass, after := SaveStage3(junk);
        LeadsOn(s0, acts, mid, more, atPass);
        OwnBoth(acts, more);
        acts := acts + more;
        out := out + [Progress(100)];
        if hasError {
          return false, s0, acts, atPass, pass, after;
        }
        out := out + [Eos];
        assert out == after.out + [Progress(100), Eos];
        ret := false;
      } else {
        out := out + [Eos];
        var completed := IsStage2Completed();
        ret := stage == 2 && completed;
      }
    }

    // What goes on around the sender.

    /** bdrv_write and bdrv_aio_writev mark the chunks of a request; only the first changes the disk at once. */
    method GuestRequest(d: nat, sector: nat, data: seq<T>, aio: bool)
      requires Valid() && d < |devs| && |data| > 0 && sector + |data| <= |devs[d].disk|
      modifies `devs, `pending
      ensures Valid() && var a := if aio then Mark(AioWrite(d, sector, data)) else GuestWrite(d, sector, data);
        Enabled(old(State()), a) && State() == Apply(old(State()), a)
    {
      hide TotalSum, Touched, SectorSet, Splice;
      var dev := devs[d].(dirty := devs[d].dirty + Touched(sector, |data|));
      if aio {
        Update(d, dev);
        pending := pending + [AioWrite(d, sector, data)];
      } else {
        SpliceSize(dev.disk, sector, data);
        Update(d, dev.(disk := Splice(dev.disk, sector, data), alloc := dev.alloc + SectorSet(sector, |data|)));
      }
    }

    /** n sectors of a pending write reach the disk. */
    method Arrive(w: nat, from: nat, n: nat)
      requires Valid() && w < |pending| && CanLand(State(), pending[w], from, n)
      modifies `devs
      ensures Valid() && State() == Apply(old(State()), Land(w, from, n))
    {
      hide TotalSum, SectorSet, Splice;
      var (p, dev) := (pending[w], devs[pending[w].dev]);
      SpliceSize(dev.disk, p.sector + from, p.data[from..from + n]);
      Update(p.dev, dev.(disk := Splice(dev.disk, p.sector + from, p.data[from..from + n]),
        alloc := dev.alloc + SectorSet(p.sector + from, n)));
    }

    /** A pending write is called back. */
    method WriteCallback(w: nat)
      requires Valid() && w < |pending|
      modifies `pending
      ensures Valid() && State() == Apply(old(State()), Finish(w))
    {
      pending := pending[..w] + pending[w + 1..];
    }

    /** A read under way picks up a sector. */
    method PickUp(i: nat, k: nat)
      requires Valid() && Enabled(State(), Sample(i, k))
      modifies `inflight
      ensures Valid() && State() == Apply(old(State()), Sample(i, k))
    {
      ghost var s := State();
      var b := inflight[i];
      inflight := inflight[i := b.(buf := b.buf[k := devs[b.dev].disk[b.sector + k]])];
      SampleIs(s, i, k);
    }

    /** One thing that the guest or the block layer may do. */
    method Surround() returns (took: bool, ghost a: Action<T>)
      requires Valid()
      modifies `devs, `pending, `inflight, `blkList, `submitted, `readDone
      ensures Valid() && |devs| == |old(devs)|
      ensures if took then SurroundingStep(a) && Enabled(old(State()), a) &&
        State() == Apply(old(State()), a) else State() == old(State())
    {
      hide Apply, BulkReady, InBounds, TotalSum;
      ghost var s := State();
      var kind: nat := *;
      var x: nat := *;
      var y: nat := *;
      var z: nat := *;
      var data: seq<T> := *;
      took := true;
      if x < 0 || y < 0 || z < 0 {
        return false, Fail;
      }
      if kind <= 1 && x < |devs| && |data| > 0 && y + |data| <= |devs[x].disk| {
        a := if kind == 1 then Mark(AioWrite(x, y, data)) else GuestWrite(x, y, data);
        GuestRequest(x, y, data, kind == 1);
      } else if kind == 2 && x < |pending| && z > 0 && y + z <= |pending[x].data| && pending[x].dev < |devs|
          && pending[x].sector + |pending[x].data| <= |devs[pending[x].dev].disk| {
        a := Land(x, y, z);
        Arrive(x, y, z);
      } else if kind == 3 && x < |pending| {
        a := Finish(x);
        WriteCallback(x);
      } else if kind == 4 && x < |inflight| && inflight[x].dev < |devs| && y < |inflight[x].buf|
          && inflight[x].sector + y < |devs[inflight[x].dev].disk| {
        a := Sample(x, y);
        PickUp(x, y);
      } else if kind == 5 && x < |inflight| {
        var ret: int := *;
        a := Complete(x, ret);
        ReadCallback(x, ret);
      } else {
        took := false;
        a := Fail;
      }
      if took {
        StepKeepsDevs(s, a);
      }
    }

    /** Whatever goes on between two calls; `drain` waits for the reads and writes under way, as qemu_aio_flush does. */
    method Meanwhile(drain: bool) returns (ghost acts: seq<Action<T>>)
      requires Valid()
      modifies `devs, `pending, `inflight, `blkList, `submitted, `readDone, `quota
      ensures Valid() && |devs| == |old(devs)| && Live(acts) && Leads(old(State()), acts, State())
      ensures drain ==> pending == [] && inflight == []
    {
      hide Apply, Enabled, InBounds, TotalSum, Leads;
      acts := [];
      LeadsNowhere(State());
      var steps: nat := *;
      while steps > 0
        invariant Valid() && |devs| == |old(devs)| && Live(acts) && Leads(old(State()), acts, State())
      {
        ghost var mid := State();
        var took;
        ghost var a;
        took, a := Surround();
        if took {
          OneStep(mid, a);
          LeadsOn(old(State()), acts, mid, [a], State());
          acts := acts + [a];
        }
        steps := steps - 1;
      }
      if drain {
        ghost var mid := State();
        ghost var more := Drain();
        LeadsOn(old(State()), acts, mid, more, State());
        acts := acts + more;
      }
      var other: nat := *;
      if other >= 0 {
        quota := other;
      }
    }

    /** qemu_aio_flush once the guest has stopped. */
    method Drain() returns (ghost acts: seq<Action<T>>)
      requires Valid()
      modifies `devs, `pending, `inflight, `blkList, `submitted, `readDone
      ensures Valid() && |devs| == |old(devs)| && Live(acts) && Leads(old(State()), acts, State())
      ensures pending == [] && inflight == []
    {
      hide Apply, InBounds, TotalSum, Leads, CanLand;
      acts := [];
      LeadsNowhere(State());
      while |pending| > 0
        invariant Valid() && |devs| == |old(devs)| && Live(acts) && Leads(old(State()), acts, State())
        decreases |pending|
      {
        ghost var mid := State();
        FinishIs(mid, 0);
        WriteCallback(0);
        OneStep(mid, Finish(0));
        LeadsOn(old(State()), acts, mid, [Finish(0)], State());
        acts := acts + [Finish(0)];
      }
      while |inflight| > 0
        invariant Valid() && |devs| == |old(devs)| && Live(acts) && Leads(old(State()), acts, State()) && pending == []
        decreases |inflight|
      {
        ghost var mid := State();
        var ret: int := *;
        CompleteIs(mid, ret);
        ReadCallback(0, ret);
        OneStep(mid, Complete(0, ret));
        LeadsOn(old(State()), acts, mid, [Complete(0, ret)], State());
        acts := acts + [Complete(0, ret)];
      }
    }

    /**
     * Stages 1 and 2 of a migration, with anything going on in between, until stage 2 counts as
     * completed or an error is seen.
     */
    method Iterate(sharedBase: bool, drives: seq<Drive<T>>, rateLimit: int, junk: T)
        returns (ok: bool, ghost live: seq<Action<T>>)
      requires devs == [] && blkList == [] && inflight == [] && out == [] && !hasError &&
        Devices(drives, sharedBase) != []
      modifies this
      ensures ok ==> Valid() && |devs| > 0 && !hasError && Live(live)
      ensures ok ==> Leads(MigrationModel.State(Devices(drives, sharedBase), old(pending), [], [], [], false), live,
        State())
      ensures ok ==> Stage2Completed(State())
    {
      hide Leads, OwnSteps, Enabled, Apply, Valid, Devices;
      ghost var first := MigrationModel.State(Devices(drives, sharedBase), pending, [], [], [], false);
      var r;
      ghost var s0, atPass, pass, after, mid;
      r, s0, live, atPass, pass, after := BlockSaveLive(1, true, sharedBase, drives, rateLimit, junk);
      if hasError {
        return false, live;
      }
      live := EosOn(first, live, atPass);
      ok := false;
      var rounds: nat := *;
      while rounds > 0 && !ok
        invariant Valid() && |devs| > 0 && !hasError && Live(live) && Leads(first, live, State())
        invariant ok ==> Stage2Completed(State())
      {
        mid := State();
        ghost var more := Meanwhile(false);
        live := LiveOn(first, live, mid, more, State());
        mid := State();
        if hasError {
          return false, live;
        }
        r, s0, more, atPass, pass, after := BlockSaveLive(2, true, sharedBase, drives, rateLimit, junk);
        if hasError {
          return false, live;
        }
        live := OwnOn(first, live, mid, more, atPass);
        live := EosOn(first, live, atPass);
        ok := r;
        rounds := rounds - 1;
      }
    }

    /**
     * A whole migration: when it ends without an error, and every landing was in time and every unsent
     * chunk overtaken, any receiver that could start it holds each disk that the guest has left, exactly
     * if it had the disk's tail.
     */
    method Migrate(sharedBase: bool, drives: seq<Drive<T>>, rateLimit: int, junk: T, ghost disks0: seq<seq<T>>)
        returns (ok: bool, done: bool, ghost live: seq<Action<T>>, ghost stopped: State<T>, ghost atPass: State<T>)
      requires devs == [] && blkList == [] && inflight == [] && out == [] && !hasError &&
        Devices(drives, sharedBase) != []
      requires var devs := Devices(drives, sharedBase);
        |disks0| == |devs| && forall d :: 0 <= d < |devs| ==> BaseShared(devs[d], disks0[d])
      modifies this
      ensures ok <==> done && !hasError
      ensures var first := MigrationModel.State(Devices(drives, sharedBase), old(pending), [], [], [], false);
        ok ==>
          && Leads(first, live, stopped) && Live(live) && stopped.pending == [] && stopped.inflight == []
          && TailsClean(atPass) && |out| > 0 && out[|out| - 1] == Eos
          && (Timely(first, live) && Overtaken(atPass) ==> Delivered(stopped, disks0, Replay(disks0, out)))
    {
      hide Leads, OwnSteps, Enabled, Apply, Valid, Devices, AllRead, NoneMarked, Overtaken, Delivered, BaseShared,
        Timely, TailsClean;
      ghost var first := MigrationModel.State(Devices(drives, sharedBase), pending, [], [], [], false);
      done, live := Iterate(sharedBase, drives, rateLimit, junk);
      ok, stopped, atPass := false, first, first;
      if !done {
        return;
      }
      ghost var mid := State();
      ghost var more := Meanwhile(true);
      live := LiveOn(first, live, mid, more, State());
      stopped := State();
      var r;
      ghost var s0, acts, pass, after;
      r, s0, acts, atPass, pass, after := BlockSaveLive(3, true, sharedBase, drives, rateLimit, junk);
      ok := !hasError;
      if ok {
        TailsWereClean(atPass, pass, after);
        if Timely(first, live) && Overtaken(atPass) {
          MigrationDelivers(drives, sharedBase, first.pending, disks0, live, stopped, acts, atPass, pass, after, out);
        }
      }
    }
  }

  /** Runs that get longer: by what goes on meanwhile, by the sender's own steps, and by an end marker. */
  lemma LiveOn<T>(first: State<T>, live: seq<Action<T>>, mid: State<T>, more: seq<Action<T>>, s: State<T>)
      returns (all: seq<Action<T>>)
    requires Live(live) && Live(more) && Leads(first, live, mid) && Leads(mid, more, s)
    ensures Live(all) && Leads(first, all, s)
  {
    LeadsOn(first, live, mid, more, s);
    all := live + more;
  }

  lemma OwnOn<T>(first: State<T>, live: seq<Action<T>>, mid: State<T>, acts: seq<Action<T>>, s: State<T>)
      returns (all: seq<Action<T>>)
    requires Live(live) && Leads(first, live, mid) && OwnSteps(acts) && Leads(mid, acts, s)
    ensures Live(all) && Leads(first, all, s)
  {
    OwnIsLive(acts);
    LeadsOn(first, live, mid, acts, s);
    all := live + acts;
  }

  lemma EosOn<T>(first: State<T>, live: seq<Action<T>>, s: State<T>) returns (all: seq<Action<T>>)
    requires (Live(live) || OwnSteps(live)) && Leads(first, live, s)
    ensures Live(all) && Leads(first, all, s.(out := s.out + [Eos]))
  {
    if OwnSteps(live) {
      OwnIsLive(live);
    }
    OneStep(s, Emit(Eos));
    LeadsOn(first, live, s, [Emit(Eos)], s.(out := s.out + [Eos]));
    all := live + [Emit(Eos)];
  }

  lemma TailsWereClean<T>(s: State<T>, pass: seq<Action<T>>, after: State<T>)
    requires AllRead(s) && Pass(pass) && Leads(s, pass, after) && NoneMarked(after)
    ensures TailsClean(s)
  {
    PassKeepsTailMarks(s, pass);
    forall d | 0 <= d < |after.devs|
      ensures TailClean(after.devs[d])
    {
      var n := |after.devs[d].disk|;
      assert n % CHUNK != 0 ==> n / CHUNK * CHUNK < after.devs[d].cur;
    }
  }

  lemma StepKeepsDevs<T>(s: State<T>, a: Action<T>)
    requires Enabled(s, a)
    ensures |Apply(s, a).devs| == |s.devs|
  {}

  lemma FinishIs<T>(s: State<T>, w: nat)
    requires w < |s.pending|
    ensures Enabled(s, Finish(w)) && Apply(s, Finish(w)) == s.(pending := s.pending[..w] + s.pending[w + 1..])
  {}

  lemma CompleteIs<T>(s: State<T>, ret: int)
    requires |s.inflight| > 0
    ensures Enabled(s, Complete(0, ret)) && Apply(s, Complete(0, ret)).devs == s.devs &&
      Apply(s, Complete(0, ret)).pending == s.pending
    ensures |Apply(s, Complete(0, ret)).inflight| == |s.inflight| - 1
  {}

  lemma SampleIs<T>(s: State<T>, i: nat, k: nat)
    requires Enabled(s, Sample(i, k))
    ensures var b := s.inflight[i];
      Apply(s, Sample(i, k)) == s.(inflight := s.inflight[i := b.(buf := b.buf[k := s.devs[b.dev].disk[b.sector + k]])])
  {}

  /** The steps that the sender has no part in. */
  ghost predicate SurroundingStep<T>(a: Action<T>) {
    a.GuestWrite? || a.Mark? || a.Land? || a.Finish? || a.Sample? || a.Complete?
  }

  lemma SpliceSize<T>(s: seq<T>, at: nat, data: seq<T>)
    requires at + |data| <= |s|
    ensures |Splice(s, at, data)| == |s|
  {}

  /** A read in the queue has failed. */
  ghost predicate SomeFailed<T>(bs: seq<Block<T>>) { exists i :: 0 <= i < |bs| && bs[i].ret < 0 }

  /** Steps the sender takes of its own accord before the final pass. */
  ghost predicate OwnSteps<T>(acts: seq<Action<T>>) {
    forall i :: 0 <= i < |acts| ==>
      && !acts[i].GuestWrite? && !acts[i].Mark? && !acts[i].Land? && !acts[i].Finish?
      && !acts[i].Sample? && !acts[i].Complete? && !acts[i].DirtyChunk?
  }

  function FreshDev<T>(drive: Drive<T>, sharedBase: bool): Dev<T> {
    Dev(drive.disk, drive.alloc, if drive.tracked then drive.marks else {}, sharedBase, 0, 0, false)
  }

  function Devices<T>(drives: seq<Drive<T>>, sharedBase: bool): seq<Dev<T>> {
    if |drives| == 0 then []
    else
      var front := Devices(drives[..|drives| - 1], sharedBase);
      var last := drives[|drives| - 1];
      if |last.disk| == 0 then front else front + [FreshDev(last, sharedBase)]
  }

  lemma NoDevices<T>(drives: seq<Drive<T>>, sharedBase: bool)
    ensures Devices(drives[..0], sharedBase) == []
  {}

  lemma DevicesMore<T>(drives: seq<Drive<T>>, i: nat, sharedBase: bool)
    requires i < |drives|
    ensures Devices(drives[..i + 1], sharedBase)
      == Devices(drives[..i], sharedBase) + (if |drives[i].disk| == 0 then [] else [FreshDev(drives[i], sharedBase)])
  {
    assert drives[..i + 1][..i] == drives[..i];
  }

  lemma {:induction false} TotalMore<T>(devs: seq<Dev<T>>, dev: Dev<T>)
    ensures TotalSum(devs + [dev], |devs| + 1) == TotalSum(devs, |devs|) + |dev.disk|
  {
    TotalPrefix(devs, dev, |devs|);
  }

  lemma {:induction false} TotalPrefix<T>(devs: seq<Dev<T>>, dev: Dev<T>, n: nat)
    requires n <= |devs|
    ensures TotalSum(devs + [dev], n) == TotalSum(devs, n)
  {
    if n > 0 {
      TotalPrefix(devs, dev, n - 1);
    }
  }

  ghost predicate SameShapes<T>(devs: seq<Dev<T>>, devs': seq<Dev<T>>) {
    && |devs'| == |devs|
    && (forall d :: 0 <= d < |devs| ==> devs'[d].disk == devs[d].disk && devs'[d].cur == devs[d].cur)
  }

  lemma CompletedNext<T>(devs: seq<Dev<T>>, n: nat)
    requires n < |devs|
    ensures CompletedSum(devs, n + 1) == CompletedSum(devs, n) + devs[n].completed
  {}

  lemma StepsAreOwn<T>(acts: seq<Action<T>>, isAsync: bool)
    requires BulkSteps(acts, isAsync) || FlushSteps(acts)
    ensures OwnSteps(acts)
  {}

  lemma OwnBoth<T>(acts: seq<Action<T>>, more: seq<Action<T>>)
    requires OwnSteps(acts) && OwnSteps(more)
    ensures OwnSteps(acts + more)
  {}

  lemma NoFlushSteps<T>()
    ensures FlushSteps<T>([])
  {}

  /** One step more of flush_blks: a failed read, or the head of the queue. */
  lemma FailOn<T>(s: State<T>, acts: seq<Action<T>>, mid: State<T>)
    requires Leads(s, acts, mid) && FlushSteps(acts)
    ensures Leads(s, acts + [Fail], mid.(error := true)) && FlushSteps(acts + [Fail])
  {
    OneStep(mid, Fail);
    LeadsOn(s, acts, mid, [Fail], Apply(mid, Fail));
  }

  lemma FlushOn<T>(s: State<T>, acts: seq<Action<T>>, mid: State<T>)
    requires Leads(s, acts, mid) && FlushSteps(acts) && |mid.queue| > 0 && mid.queue[0].ret >= 0
    ensures var b := mid.queue[0];
      Leads(s, acts + [FlushHead], mid.(out := mid.out + [Data(b.dev, b.sector, b.buf)], queue := mid.queue[1..]))
    ensures FlushSteps(acts + [FlushHead])
  {
    OneStep(mid, FlushHead);
    LeadsOn(s, acts, mid, [FlushHead], Apply(mid, FlushHead));
  }

  lemma NoSteps<T>(isAsync: bool)
    ensures BulkSteps<T>([], isAsync)
  {}

  lemma BothSteps<T>(acts: seq<Action<T>>, more: seq<Action<T>>, isAsync: bool)
    requires BulkSteps(acts, isAsync) && BulkSteps(more, isAsync)
    ensures BulkSteps(acts + more, isAsync)
  {}

  lemma Percent(sum: nat, total: nat)
    requires sum <= total && total > 0
    ensures 0 <= sum * 100 / total <= 100
  {}

  lemma {:induction false} CompletedPrefix<T>(devs: seq<Dev<T>>, devs': seq<Dev<T>>, n: nat)
    requires n <= |devs| == |devs'| && forall d :: 0 <= d < n ==> devs'[d] == devs[d]
    ensures CompletedSum(devs', n) == CompletedSum(devs, n)
  {
    if n > 0 {
      CompletedPrefix(devs, devs', n - 1);
    }
  }

  lemma {:induction false} SumUpdate<T>(devs: seq<Dev<T>>, d: nat, dev': Dev<T>, n: nat)
    requires d < |devs| && n <= |devs| && |dev'.disk| == |devs[d].disk|
    ensures TotalSum(devs[d := dev'], n) == TotalSum(devs, n)
  {
    if n > 0 {
      SumUpdate(devs, d, dev', n - 1);
    }
  }

  // What a migration delivers.

  lemma {:induction false} OwnStepsKeepDisks<T>(s: State<T>, acts: seq<Action<T>>)
    requires OwnSteps(acts) && Runs(s, acts)
    ensures |Run(s, acts).devs| == |s.devs| && forall d :: 0 <= d < |s.devs| ==>
      Run(s, acts).devs[d].disk == s.devs[d].disk
    decreases |acts|
  {
    if |acts| > 0 {
      OwnStepsKeepDisks(Apply(s, acts[0]), acts[1..]);
    }
  }

  lemma ReplayEnd<T>(disks: seq<seq<T>>, out: seq<Record<T>>)
    ensures Replay(disks, out + [Progress(100), Eos]) == Replay(disks, out)
  {
    ReplayMore(disks, out, Progress(100));
    ReplayMore(disks, out + [Progress(100)], Eos);
    assert out + [Progress(100)] + [Eos] == out + [Progress(100), Eos];
  }

  /**
   * What a stage 3 without an error delivers, from any state that honours the invariant: the
   * receiver holds the disks as the stopped guest left them, provided that every chunk that was
   * still unsent when the pass started had been overtaken.  Of a disk that does not consist of whole
   * chunks it must have had the tail.
   */
  lemma Stage3Delivers<T>(s0: State<T>, acts: seq<Action<T>>, atPass: State<T>, pass: seq<Action<T>>, after: State<T>,
      out: seq<Record<T>>, disks0: seq<seq<T>>)
    requires Inv(s0, Replay(disks0, s0.out)) && SendsChunks(s0) && OwnSteps(acts) && Leads(s0, acts, atPass)
    requires AllRead(atPass) && Overtaken(atPass)
    requires Pass(pass) && Leads(atPass, pass, after) && NoneMarked(after)
    requires out == after.out + [Progress(100), Eos]
    ensures Delivered(s0, disks0, Replay(disks0, out))
  {
    hide Inv, AllCaught, SameTail, AllRead, NoneMarked, Overtaken, OwnSteps;
    InvSized(s0, Replay(disks0, s0.out));
    OwnIsLive(acts);
    NoLandingIsTimely(s0, acts);
    LiveRunKeeps(s0, acts, disks0);
    InvSized(atPass, Replay(disks0, atPass.out));
    OvertakenIsCaught(atPass, Replay(disks0, atPass.out));
    PassRun(atPass, pass, disks0);
    ReadToEnd(atPass, after);
    CaughtAndClean(after, Replay(disks0, after.out));
    OwnStepsKeepDisks(s0, acts);
    ReplayEnd(disks0, after.out);
    OnlyChunks(s0, acts);
    OnlyChunks(atPass, pass);
    forall d | 0 <= d < |s0.devs|
      ensures Replay(disks0, out)[d] == s0.devs[d].disk <==> SameTail(disks0[d], s0.devs[d].disk)
    {
      ReplayKeepsTail(disks0, after.out, d);
      TailOn(Replay(disks0, after.out)[d], disks0[d], s0.devs[d].disk);
    }
  }

  /** The receiver holds each disk of s exactly if it started with its tail. */
  ghost predicate Delivered<T>(s: State<T>, disks0: seq<seq<T>>, disks: seq<seq<T>>) {
    && |disks| == |disks0| == |s.devs|
    && forall d :: 0 <= d < |s.devs| ==>
      |disks0[d]| == |s.devs[d].disk| && (disks[d] == s.devs[d].disk <==> SameTail(disks0[d], s.devs[d].disk))
  }

  lemma OwnIsLive<T>(acts: seq<Action<T>>)
    requires OwnSteps(acts)
    ensures Live(acts) && forall i :: 0 <= i < |acts| ==> !acts[i].Land?
  {}

  lemma ReadToEnd<T>(s: State<T>, s': State<T>)
    requires AllRead(s) && SameDisks(s, s')
    ensures AllRead(s')
  {}

  /** After a completed stage 2 nothing new is read, so only the queue can still hold something back. */
  lemma {:induction false} CompletedStaysIdle<T>(s: State<T>, acts: seq<Action<T>>)
    requires Stage2Completed(s) && Runs(s, acts) && OwnSteps(acts)
    requires forall d :: 0 <= d < |s.devs| ==> InBounds(s.devs[d])
    ensures var s' := Run(s, acts);
      s'.inflight == [] && |s'.queue| <= |s.queue| && s'.queue == s.queue[|s.queue| - |s'.queue|..]
    decreases |acts|
  {
    if |acts| > 0 {
      IdleStep(s, acts[0]);
      CompletedStaysIdle(Apply(s, acts[0]), acts[1..]);
    }
  }

  lemma IdleStep<T>(s: State<T>, a: Action<T>)
    requires Stage2Completed(s) && Enabled(s, a) && OwnSteps([a])
    requires forall d :: 0 <= d < |s.devs| ==> InBounds(s.devs[d])
    ensures Stage2Completed(Apply(s, a)) && forall d :: 0 <= d < |s.devs| ==> InBounds(Apply(s, a).devs[d])
    ensures Apply(s, a).queue == if a.FlushHead? then s.queue[1..] else s.queue
  {
    assert [a][0] == a;
  }

  /** init_blk_migration starts the protocol where it has to start. */
  lemma {:induction false} DevicesStart<T>(drives: seq<Drive<T>>, sharedBase: bool)
    ensures forall d :: 0 <= d < |Devices(drives, sharedBase)| ==>
      var dev := Devices(drives, sharedBase)[d];
      dev.cur == 0 && dev.completed == 0 && |dev.disk| > 0 && !dev.bulkDone && dev.sharedBase == sharedBase
  {
    if |drives| > 0 {
      DevicesStart(drives[..|drives| - 1], sharedBase);
    }
  }

  /** A whole migration from stage 1 on, whatever the guest and the block layer do before stage 3. */
  lemma MigrationDelivers<T>(drives: seq<Drive<T>>, sharedBase: bool,
      pending: seq<AioWrite<T>>, disks0: seq<seq<T>>, live: seq<Action<T>>, s0: State<T>,
      acts: seq<Action<T>>, atPass: State<T>, pass: seq<Action<T>>, after: State<T>, out: seq<Record<T>>)
    requires var devs := Devices(drives, sharedBase);
      && |disks0| == |devs|
      && (forall d :: 0 <= d < |devs| ==> BaseShared(devs[d], disks0[d]))
      && var first := MigrationModel.State(devs, pending, [], [], [], false);
      && Leads(first, live, s0) && Live(live) && Timely(first, live)
    requires OwnSteps(acts) && Leads(s0, acts, atPass) && AllRead(atPass) && Overtaken(atPass)
    requires Pass(pass) && Leads(atPass, pass, after) && NoneMarked(after)
    requires out == after.out + [Progress(100), Eos]
    ensures Delivered(s0, disks0, Replay(disks0, out))
  {
    var devs := Devices(drives, sharedBase);
    var first := MigrationModel.State(devs, pending, [], [], [], false);
    DevicesStart(drives, sharedBase);
    forall d | 0 <= d < |devs|
      ensures InitialDev(devs[d], disks0[d])
    {}
    InitialInv(first, disks0);
    LiveRunKeeps(first, live, disks0);
    OnlyChunks(first, live);
    Stage3Delivers(s0, acts, atPass, pass, after, out, disks0);
  }
}
