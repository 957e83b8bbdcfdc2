/**
 * The final pass of live block migration, on disks of any size: it turns the invariant into
 * equality of the disks, as far as whole chunks can.
 */
module MigrationPass {
  import opened MigrationModel
  import opened MigrationProof

  // Behind the last whole chunk.

  /** The part of a disk that whole chunks cover. */
  function WholePart(n: nat): (w: nat)
    ensures w <= n < w + CHUNK && w % CHUNK == 0
  {
    AlignDown(n)
  }

  ghost predicate SameTail<T>(a: seq<T>, b: seq<T>) { |a| == |b| && a[WholePart(|a|)..] == b[WholePart(|b|)..] }

  ghost predicate WholeChunk<T>(r: Record<T>) { r.Data? ==> |r.buf| == CHUNK && r.sector % CHUNK == 0 }

  ghost predicate ChunkStream<T>(out: seq<Record<T>>) { forall i :: 0 <= i < |out| ==> WholeChunk(out[i]) }

  ghost predicate ChunkBlocks<T>(bs: seq<Block<T>>) {
    forall i :: 0 <= i < |bs| ==> |bs[i].buf| == CHUNK && bs[i].sector % CHUNK == 0
  }

  ghost predicate SendsChunks<T>(s: State<T>) {
    ChunkBlocks(s.inflight) && ChunkBlocks(s.queue) && ChunkStream(s.out)
  }

  /** Whatever the sizes, the sender only ever sends whole aligned chunks. */
  lemma {:induction false} OnlyChunks<T>(s: State<T>, acts: seq<Action<T>>)
    requires SendsChunks(s) && Runs(s, acts)
    ensures SendsChunks(Run(s, acts))
    decreases |acts|
  {
    if |acts| > 0 {
      OnlyChunksStep(s, acts[0]);
      OnlyChunks(Apply(s, acts[0]), acts[1..]);
    }
  }

  lemma OnlyChunksStep<T>(s: State<T>, a: Action<T>)
    requires SendsChunks(s) && Enabled(s, a)
    ensures SendsChunks(Apply(s, a))
  {}

  lemma TailKept<T>(disk: seq<T>, sector: nat, buf: seq<T>)
    requires |buf| == CHUNK && sector % CHUNK == 0
    ensures SameTail(Write(disk, sector, buf), disk)
  {
    if sector + |buf| <= |disk| {
      assert sector + CHUNK <= WholePart(|disk|);
    }
  }

  lemma {:induction false} ReplayKeepsTail<T>(disks: seq<seq<T>>, out: seq<Record<T>>, d: nat)
    requires ChunkStream(out) && d < |disks|
    ensures SameTail(Replay(disks, out)[d], disks[d])
    decreases |out|
  {
    if |out| > 0 {
      var (front, r) := (out[..|out| - 1], out[|out| - 1]);
      ReplayKeepsTail(disks, front, d);
      assert WholeChunk(r);
      if r.Data? {
        TailKept(Replay(disks, front)[d], r.sector, r.buf);
      }
    }
  }

  // What the pass needs.

  /** An unmarked chunk is at the receiver. */
  ghost predicate Caught<T>(s: State<T>, disks: seq<seq<T>>, d: nat, c: nat)
    requires d < |s.devs| == |disks|
  {
    && c * CHUNK + CHUNK <= |s.devs[d].disk| == |disks[d]|
    && (c in s.devs[d].dirty || Chunk(disks[d], c) == Chunk(s.devs[d].disk, c))
  }

  ghost predicate AllCaught<T>(s: State<T>, disks: seq<seq<T>>) {
    && |disks| == |s.devs|
    && (forall d, c: nat :: 0 <= d < |s.devs| && c * CHUNK + CHUNK <= |s.devs[d].disk| ==> Caught(s, disks, d, c))
  }

  ghost predicate AllRead<T>(s: State<T>) {
    forall d :: 0 <= d < |s.devs| ==> s.devs[d].cur == |s.devs[d].disk|
  }

  ghost predicate NoneMarked<T>(s: State<T>) {
    forall d, c: nat :: 0 <= d < |s.devs| && c * CHUNK < s.devs[d].cur ==> c !in s.devs[d].dirty
  }

  /** A whole chunk that has been read and not sent. */
  ghost predicate Unsent<T>(s: State<T>, d: nat, c: nat) {
    && d < |s.devs| && c * CHUNK + CHUNK <= |s.devs[d].disk|
    && (Awaits(s.inflight, d, c) || Awaits(s.queue, d, c))
  }

  /** Every whole chunk that was read and not sent has been overtaken by a guest write. */
  ghost predicate Overtaken<T>(s: State<T>) {
    forall d: nat, c: nat :: Unsent(s, d, c) ==> c in s.devs[d].dirty
  }

  lemma OvertakenIsCaught<T>(s: State<T>, disks: seq<seq<T>>)
    requires Inv(s, disks) && AllRead(s) && Overtaken(s)
    ensures AllCaught(s, disks)
  {
    forall d, c: nat | 0 <= d < |s.devs| && c * CHUNK + CHUNK <= |s.devs[d].disk|
      ensures Caught(s, disks, d, c)
    {
      assert DevInv(s, d, disks[d]);
      assert Settled(s, d, disks[d], c);
      assert Unsent(s, d, c) ==> c in s.devs[d].dirty;
    }
  }

  /** In particular when nothing is in flight and the queue is drained. */
  lemma DrainedIsOvertaken<T>(s: State<T>)
    requires s.inflight == [] && s.queue == []
    ensures Overtaken(s)
  {}

  ghost predicate SameChunk<T>(a: seq<T>, b: seq<T>, c: nat) {
    c * CHUNK + CHUNK <= |a| == |b| && Chunk(a, c) == Chunk(b, c)
  }

  /** Disks are equal exactly if their whole chunks and their tails are. */
  lemma SameChunks<T>(a: seq<T>, b: seq<T>)
    requires |a| == |b|
    ensures a == b <==> SameTail(a, b) && forall c: nat :: c * CHUNK + CHUNK <= |a| ==> SameChunk(a, b, c)
  {
    var w := WholePart(|a|);
    if SameTail(a, b) && forall c: nat :: c * CHUNK + CHUNK <= |a| ==> SameChunk(a, b, c) {
      forall k | 0 <= k < |a|
        ensures a[k] == b[k]
      {
        if k < w {
          var c := k / CHUNK;
          assert SameChunk(a, b, c);
          assert a[k] == Chunk(a, c)[k - c * CHUNK] && b[k] == Chunk(b, c)[k - c * CHUNK];
        } else {
          assert a[k] == a[w..][k - w] && b[k] == b[w..][k - w];
        }
      }
    }
  }

  /** Sizes and positions, which the pass does not change. */
  ghost predicate Sized<T>(s: State<T>, disks: seq<seq<T>>) {
    |disks| == |s.devs| && forall d :: 0 <= d < |s.devs| ==> |disks[d]| == |s.devs[d].disk|
  }

  ghost predicate Synced<T>(s: State<T>, disks: seq<seq<T>>) {
    |disks| == |s.devs| && forall d :: 0 <= d < |s.devs| ==> disks[d] == s.devs[d].disk
  }

  ghost predicate SameTails<T>(s: State<T>, disks: seq<seq<T>>) {
    |disks| == |s.devs| && forall d :: 0 <= d < |s.devs| ==> SameTail(disks[d], s.devs[d].disk)
  }

  ghost predicate SameDisks<T>(s: State<T>, s': State<T>) {
    && |s.devs| == |s'.devs|
    && (forall d :: 0 <= d < |s.devs| ==> s.devs[d].disk == s'.devs[d].disk && s.devs[d].cur == s'.devs[d].cur)
  }

  // The steps of the pass.

  /** One chunk sent changes neither what is caught nor what lies behind the last whole chunk. */
  lemma PassStep<T>(s: State<T>, a: Action<T>, disks: seq<seq<T>>)
    requires Sized(s, disks) && a.DirtyChunk? && Enabled(s, a)
    ensures var disks' := Receive(disks, Data(a.dev, a.chunk * CHUNK, Chunk(s.devs[a.dev].disk, a.chunk)));
      && Sized(Apply(s, a), disks') && (AllCaught(s, disks) <==> AllCaught(Apply(s, a), disks'))
      && forall d :: 0 <= d < |disks| ==> SameTail(disks'[d], disks[d])
    ensures SameDisks(s, Apply(s, a))
    ensures Apply(s, a).out == s.out + [Data(a.dev, a.chunk * CHUNK, Chunk(s.devs[a.dev].disk, a.chunk))]
  {
    var (d, c) := (a.dev, a.chunk);
    var s' := Apply(s, a);
    var disks' := Receive(disks, Data(d, c * CHUNK, Chunk(s.devs[d].disk, c)));
    WriteChunk(disks[d], c, Chunk(s.devs[d].disk, c));
    TailKept(disks[d], c * CHUNK, Chunk(s.devs[d].disk, c));
    forall e, k: nat | 0 <= e < |s.devs| && k * CHUNK + CHUNK <= |s.devs[e].disk|
      ensures Caught(s, disks, e, k) <==> Caught(s', disks', e, k)
    {}
    if AllCaught(s, disks) {
      forall e, k: nat | 0 <= e < |s.devs| && k * CHUNK + CHUNK <= |s'.devs[e].disk|
        ensures Caught(s', disks', e, k)
      {
        assert Caught(s, disks, e, k);
      }
    }
    if AllCaught(s', disks') {
      forall e, k: nat | 0 <= e < |s.devs| && k * CHUNK + CHUNK <= |s.devs[e].disk|
        ensures Caught(s, disks, e, k)
      {
        assert k * CHUNK + CHUNK <= |s'.devs[e].disk|;
        assert Caught(s', disks', e, k);
      }
    }
  }

  /** Part of a pass leads from s to s'. */
  ghost predicate Passes<T>(s: State<T>, s': State<T>, disks0: seq<seq<T>>) {
    && Sized(s', Replay(disks0, s'.out)) && SameDisks(s, s')
    && (AllCaught(s, Replay(disks0, s.out)) <==> AllCaught(s', Replay(disks0, s'.out)))
    && (forall d :: 0 <= d < |disks0| ==> SameTail(Replay(disks0, s'.out)[d], Replay(disks0, s.out)[d]))
  }

  lemma PassStepPasses<T>(s: State<T>, a: Action<T>, disks0: seq<seq<T>>)
    requires Sized(s, Replay(disks0, s.out)) && a.DirtyChunk? && Enabled(s, a)
    ensures Passes(s, Apply(s, a), disks0)
  {
    hide Apply, AllCaught, Sized, SameDisks, Receive, Replay, SameTail;
    PassStep(s, a, Replay(disks0, s.out));
    ReplayMore(disks0, s.out, Data(a.dev, a.chunk * CHUNK, Chunk(s.devs[a.dev].disk, a.chunk)));
  }

  lemma PassesOn<T>(s: State<T>, s1: State<T>, s2: State<T>, disks0: seq<seq<T>>)
    requires Passes(s, s1, disks0) && Passes(s1, s2, disks0)
    ensures Passes(s, s2, disks0)
  {
    hide AllCaught, Replay, Sized;
  }

  lemma {:induction false} PassRun<T>(s: State<T>, acts: seq<Action<T>>, disks0: seq<seq<T>>)
    requires Sized(s, Replay(disks0, s.out)) && Runs(s, acts) && Pass(acts)
    ensures Passes(s, Run(s, acts), disks0)
    decreases |acts|
  {
    if |acts| > 0 {
      var s1 := Apply(s, acts[0]);
      PassStepPasses(s, acts[0], disks0);
      PassRun(s1, acts[1..], disks0);
      PassesOn(s, s1, Run(s1, acts[1..]), disks0);
    }
  }

  lemma CaughtAndClean<T>(s: State<T>, disks: seq<seq<T>>)
    requires Sized(s, disks) && AllRead(s) && NoneMarked(s)
    ensures AllCaught(s, disks) && SameTails(s, disks) <==> Synced(s, disks)
    ensures AllCaught(s, disks) ==> forall d :: 0 <= d < |s.devs| ==>
      (disks[d] == s.devs[d].disk <==> SameTail(disks[d], s.devs[d].disk))
  {
    hide SameTail;
    forall d | 0 <= d < |s.devs|
      ensures disks[d] == s.devs[d].disk ==> SameTail(disks[d], s.devs[d].disk)
      ensures AllCaught(s, disks) ==> (disks[d] == s.devs[d].disk <==> SameTail(disks[d], s.devs[d].disk))
    {
      SameChunks(disks[d], s.devs[d].disk);
      if AllCaught(s, disks) {
        forall c: nat | c * CHUNK + CHUNK <= |disks[d]|
          ensures SameChunk(disks[d], s.devs[d].disk, c)
        {
          assert Caught(s, disks, d, c);
        }
      }
    }
    if Synced(s, disks) {
      forall d, c: nat | 0 <= d < |s.devs| && c * CHUNK + CHUNK <= |s.devs[d].disk|
        ensures Caught(s, disks, d, c)
      {}
    }
  }

  /**
   * A complete pass leaves the receiver with the sender's disks exactly when every whole chunk that
   * was unmarked before it was there already, and so was what lies behind the last whole chunk.
   */
  lemma PassExact<T>(s: State<T>, pass: seq<Action<T>>, disks0: seq<seq<T>>)
    requires Sized(s, Replay(disks0, s.out)) && AllRead(s)
    requires Runs(s, pass) && Pass(pass) && NoneMarked(Run(s, pass))
    ensures SameDisks(s, Run(s, pass))
    ensures Synced(Run(s, pass), Replay(disks0, Run(s, pass).out)) <==>
      AllCaught(s, Replay(disks0, s.out)) && SameTails(s, Replay(disks0, s.out))
  {
    hide AllCaught;
    var s' := Run(s, pass);
    PassRun(s, pass, disks0);
    CaughtAndClean(s', Replay(disks0, s'.out));
    forall d | 0 <= d < |s.devs|
      ensures SameTail(Replay(disks0, s.out)[d], s.devs[d].disk) <==>
        SameTail(Replay(disks0, s'.out)[d], s'.devs[d].disk)
    {
      assert SameTail(Replay(disks0, s'.out)[d], Replay(disks0, s.out)[d]);
    }
  }

  lemma InvSized<T>(s: State<T>, disks: seq<seq<T>>)
    requires Inv(s, disks)
    ensures Sized(s, disks)
  {
    forall d | 0 <= d < |s.devs|
      ensures |disks[d]| == |s.devs[d].disk|
    {
      assert DevInv(s, d, disks[d]);
    }
  }

  /**
   * Convergence of whole migrations: any run of guest writes, reads, completions and flushes, then
   * a pass with the guest stopped. It needs every disk read to its end, whatever was read and not
   * yet sent to be marked, and asynchronous writes to have landed in time. Then a disk is delivered
   * exactly if the receiver had its tail.
   */
  lemma Converges<T>(s0: State<T>, live: seq<Action<T>>, pass: seq<Action<T>>, disks0: seq<seq<T>>)
    requires Initial(s0, disks0) && Runs(s0, live) && Live(live) && Timely(s0, live)
    requires var s := Run(s0, live);
      AllRead(s) && Overtaken(s) && Runs(s, pass) && Pass(pass) && NoneMarked(Run(s, pass))
    ensures var (s, s') := (Run(s0, live), Run(Run(s0, live), pass));
      && SameDisks(s, s') && |s'.devs| == |disks0|
      && forall d :: 0 <= d < |disks0| ==>
        (Replay(disks0, s'.out)[d] == s'.devs[d].disk <==> SameTail(disks0[d], s'.devs[d].disk))
  {
    hide AllCaught, SameTail, Inv;
    var s := Run(s0, live);
    var s' := Run(s, pass);
    InitialInv(s0, disks0);
    LiveRunKeeps(s0, live, disks0);
    InvSized(s, Replay(disks0, s.out));
    OvertakenIsCaught(s, Replay(disks0, s.out));
    PassRun(s, pass, disks0);
    CaughtAndClean(s', Replay(disks0, s'.out));
    OnlyChunks(s0, live);
    OnlyChunks(s, pass);
    forall d | 0 <= d < |disks0|
      ensures SameTail(Replay(disks0, s'.out)[d], s'.devs[d].disk) <==> SameTail(disks0[d], s'.devs[d].disk)
    {
      ReplayKeepsTail(disks0, s'.out, d);
      TailOn(Replay(disks0, s'.out)[d], disks0[d], s'.devs[d].disk);
    }
  }

  lemma TailOn<T>(a: seq<T>, b: seq<T>, c: seq<T>)
    requires SameTail(a, b)
    ensures SameTail(a, c) <==> SameTail(b, c)
  {}

  /** Disks of whole chunks have no tail to disagree on. */
  lemma NoTail<T>(a: seq<T>, b: seq<T>)
    requires |a| == |b| && |a| % CHUNK == 0
    ensures SameTail(a, b)
  {
    assert a[WholePart(|a|)..] == [] == b[WholePart(|b|)..];
  }

  // Whether the pass can be completed.

  /** The chunk that a disk ends in, if it is not a whole one, is not marked. */
  ghost predicate TailClean<T>(dev: Dev<T>) { |dev.disk| % CHUNK != 0 ==> |dev.disk| / CHUNK !in dev.dirty }

  ghost predicate TailsClean<T>(s: State<T>) { forall d :: 0 <= d < |s.devs| ==> TailClean(s.devs[d]) }

  lemma {:induction false} PassKeepsTailMarks<T>(s: State<T>, pass: seq<Action<T>>)
    requires Runs(s, pass) && Pass(pass)
    ensures SameDisks(s, Run(s, pass)) && (TailsClean(Run(s, pass)) <==> TailsClean(s))
    decreases |pass|
  {
    if |pass| > 0 {
      var (s1, a) := (Apply(s, pass[0]), pass[0]);
      forall d | 0 <= d < |s.devs|
        ensures TailClean(s1.devs[d]) <==> TailClean(s.devs[d])
      {}
      PassKeepsTailMarks(s1, pass[1..]);
    }
  }

  /** The pass over the first c chunks of device d. */
  lemma {:induction false} PassOverChunks<T>(s: State<T>, d: nat, c: nat) returns (pass: seq<Action<T>>, s': State<T>)
    requires d < |s.devs| && s.devs[d].cur == |s.devs[d].disk| && c * CHUNK <= |s.devs[d].disk|
    ensures Pass(pass) && Leads(s, pass, s') && |s'.devs| == |s.devs|
    ensures s'.devs == s.devs[d := s.devs[d].(dirty := s'.devs[d].dirty)]
    ensures forall k :: k in s'.devs[d].dirty <==> k in s.devs[d].dirty && k >= c
    decreases c
  {
    hide Leads;
    if c == 0 {
      pass, s' := [], s;
      LeadsNowhere(s);
    } else {
      pass, s' := PassOverChunks(s, d, c - 1);
      if c - 1 in s'.devs[d].dirty {
        var s1 := Apply(s', DirtyChunk(d, c - 1));
        OneStep(s', DirtyChunk(d, c - 1));
        LeadsOn(s, pass, s', [DirtyChunk(d, c - 1)], s1);
        pass, s' := pass + [DirtyChunk(d, c - 1)], s1;
      }
    }
  }

  /** The pass over the first n devices. */
  lemma {:induction false} PassOverDevices<T>(s: State<T>, n: nat) returns (pass: seq<Action<T>>, s': State<T>)
    requires n <= |s.devs| && AllRead(s) && TailsClean(s)
    ensures Pass(pass) && Leads(s, pass, s') && |s'.devs| == |s.devs|
    ensures forall e :: 0 <= e < n ==> forall k: nat :: k * CHUNK < s'.devs[e].cur ==> k !in s'.devs[e].dirty
    ensures forall e :: n <= e < |s.devs| ==> s'.devs[e] == s.devs[e]
    decreases n
  {
    hide Leads;
    if n == 0 {
      pass, s' := [], s;
      LeadsNowhere(s);
    } else {
      var s1, more;
      pass, s1 := PassOverDevices(s, n - 1);
      assert TailClean(s.devs[n - 1]) && s1.devs[n - 1] == s.devs[n - 1];
      more, s' := PassOverChunks(s1, n - 1, |s.devs[n - 1].disk| / CHUNK);
      LeadsOn(s, pass, s1, more, s');
      pass := pass + more;
      forall k: nat | k * CHUNK < s'.devs[n - 1].cur
        ensures k !in s'.devs[n - 1].dirty
      {
        ChunkOrTail(|s.devs[n - 1].disk|, k);
      }
    }
  }

  lemma ChunkOrTail(n: nat, k: nat)
    requires k * CHUNK < n
    ensures k < n / CHUNK || (k == n / CHUNK && n % CHUNK != 0)
  {}

  ghost predicate CompletePass<T>(s: State<T>, pass: seq<Action<T>>) {
    Runs(s, pass) && Pass(pass) && NoneMarked(Run(s, pass))
  }

  /**
   * A pass can leave no mark exactly if no disk ends in a marked part of a chunk: the pass reads whole
   * chunks, and fails behind the end of a disk.
   */
  lemma PassPossible<T(!new)>(s: State<T>)
    requires AllRead(s)
    ensures (exists pass :: CompletePass(s, pass)) <==> TailsClean(s)
  {
    if pass :| CompletePass(s, pass) {
      PassKeepsTailMarks(s, pass);
      var s' := Run(s, pass);
      forall d | 0 <= d < |s.devs|
        ensures TailClean(s'.devs[d])
      {
        var n := |s'.devs[d].disk|;
        assert n % CHUNK != 0 ==> n / CHUNK * CHUNK < s'.devs[d].cur;
      }
    }
    if TailsClean(s) {
      var pass, s' := PassOverDevices(s, |s.devs|);
      assert CompletePass(s, pass);
    }
  }
}
