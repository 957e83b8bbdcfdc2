/**
 * Live block migration from the sender's disks through the byte stream to the receiver's.
 */
module MigrationEndToEnd {
  import opened BlockDefs
  import opened IoVectors
  import opened MigrationModel
  import opened MigrationProof
  import opened MigrationPass
  import opened Migration
  import opened BlockStream

  // Sectors and bytes.

  lemma {:induction false} FlattenAt(buf: seq<Sector>, i: nat)
    ensures |Flatten(buf)| == |buf| * SECTOR_SIZE
    ensures i < |buf| ==> Flatten(buf)[i * SECTOR_SIZE..i * SECTOR_SIZE + SECTOR_SIZE] == buf[i]
    decreases |buf|
  {
    if |buf| > 0 {
      var front := buf[..|buf| - 1];
      FlattenAt(front, i);
      if i < |front| {
        assert Flatten(buf)[i * SECTOR_SIZE..i * SECTOR_SIZE + SECTOR_SIZE] ==
          Flatten(front)[i * SECTOR_SIZE..i * SECTOR_SIZE + SECTOR_SIZE];
      }
    }
  }

  lemma SectorsRoundTrip(buf: seq<Sector>)
    ensures |Flatten(buf)| % SECTOR_SIZE == 0 && Sectors(Flatten(buf)) == buf
  {
    FlattenAt(buf, 0);
    forall i | 0 <= i < |buf|
      ensures i < |Sectors(Flatten(buf))| && Sectors(Flatten(buf))[i] == buf[i]
    {
      FlattenAt(buf, i);
    }
  }

  // Devices by number and by name.

  ghost predicate Names(names: seq<seq<byte>>) {
    && (forall i :: 0 <= i < |names| ==> |names[i]| < 256 && 0 !in names[i])
    && (forall i, j :: 0 <= i < j < |names| ==> names[i] != names[j])
  }

  /** The receiver has the named disks with these contents. */
  ghost predicate Holds(names: seq<seq<byte>>, disks: seq<seq<Sector>>, m: Disks) {
    && |names| == |disks|
    && (forall i :: 0 <= i < |names| ==> names[i] in m && m[names[i]] == disks[i])
  }

  ghost predicate OkRecord(n: nat, r: Record<Sector>) {
    match r
    case Data(d, sector, buf) => d < n && sector < 0x40_0000_0000_0000 && |buf| == CHUNK
    case Progress(p) => 0 <= p <= 100
    case Eos => true
  }

  ghost predicate OkRecords(n: nat, out: seq<Record<Sector>>) { forall i :: 0 <= i < |out| ==> OkRecord(n, out[i]) }

  function ToItem(names: seq<seq<byte>>, r: Record<Sector>): Item {
    match r
    case Data(d, sector, buf) => if d < |names| then DeviceBlock(names[d], sector, Flatten(buf)) else End
    case Progress(p) => if p >= 0 then Percent(p) else End
    case Eos => End
  }

  function ToItems(names: seq<seq<byte>>, out: seq<Record<Sector>>): (r: seq<Item>)
    ensures |r| == |out| && forall i :: 0 <= i < |out| ==> r[i] == ToItem(names, out[i])
  {
    seq(|out|, i requires 0 <= i < |out| => ToItem(names, out[i]))
  }

  lemma ItemSendable(names: seq<seq<byte>>, r: Record<Sector>, disks: seq<seq<Sector>>, m: Disks)
    requires Names(names) && Holds(names, disks, m) && OkRecord(|names|, r)
    ensures var i := ToItem(names, r); WellFormed(i) && (i.DeviceBlock? ==> i.name in m)
  {
    if r.Data? {
      FlattenAt(r.buf, 0);
    }
  }

  lemma ItemPerforms(names: seq<seq<byte>>, r: Record<Sector>, disks: seq<seq<Sector>>, m: Disks)
    requires Names(names) && Holds(names, disks, m) && OkRecord(|names|, r)
    ensures var i := ToItem(names, r);
      (i.DeviceBlock? ==> i.name in m && |i.payload| == BLOCK_SIZE) && Holds(names, Receive(disks, r), Perform(i, m))
  {
    if r.Data? {
      FlattenAt(r.buf, 0);
      SectorsRoundTrip(r.buf);
    }
  }

  lemma {:induction false} ReplayFirst<T>(disks: seq<seq<T>>, out: seq<Record<T>>)
    requires |out| > 0
    ensures Replay(disks, out) == Replay(Receive(disks, out[0]), out[1..])
    decreases |out|
  {
    if |out| > 1 {
      var front := out[..|out| - 1];
      ReplayFirst(disks, front);
      assert front[1..] == out[1..][..|out| - 2];
    } else {
      assert out[..0] == [] && out[1..] == [];
    }
  }

  lemma SendableAll(names: seq<seq<byte>>, out: seq<Record<Sector>>, disks: seq<seq<Sector>>, m: Disks)
    requires Names(names) && Holds(names, disks, m) && OkRecords(|names|, out)
    ensures Sendable(ToItems(names, out), m)
  {
    forall i | 0 <= i < |out|
      ensures var item := ToItem(names, out[i]); WellFormed(item) && (item.DeviceBlock? ==> item.name in m)
    {
      ItemSendable(names, out[i], disks, m);
    }
  }

  /** Performing the items is replaying the records. */
  lemma {:induction false} DeliverIsReplay(names: seq<seq<byte>>, out: seq<Record<Sector>>,
      disks: seq<seq<Sector>>, m: Disks)
    requires Names(names) && Holds(names, disks, m) && OkRecords(|names|, out)
    ensures Sendable(ToItems(names, out), m)
    ensures Holds(names, Replay(disks, out), Deliver(ToItems(names, out), m))
    decreases |out|
  {
    SendableAll(names, out, disks, m);
    if |out| > 0 {
      ItemPerforms(names, out[0], disks, m);
      DeliverIsReplay(names, out[1..], Receive(disks, out[0]), Perform(ToItem(names, out[0]), m));
      ReplayFirst(disks, out);
      assert ToItems(names, out)[1..] == ToItems(names, out[1..]);
    }
  }

  // All the sections of a stream.

  /** block_load once for every section. */
  function LoadSections(stream: seq<byte>, disks: Disks): Outcome
    decreases |stream|
  {
    if |stream| == 0 then Loaded(disks, [])
    else
      var r := LoadSection(stream, disks);
      if r.Loaded? then LoadSections(r.rest, r.disks) else r
  }

  ghost predicate Ended(items: seq<Item>) { |items| > 0 ==> items[|items| - 1].End? }

  lemma {:induction false} SectionsRoundTrip(items: seq<Item>, disks: Disks)
    requires Sendable(items, disks) && Ended(items)
    ensures LoadSections(Encode(items), disks) == Loaded(Deliver(items, disks), [])
    decreases |items|
  {
    hide LoadItem, EncodeItem, Perform;
    if |items| > 0 {
      var (first, rest) := (items[0], items[1..]);
      ItemRoundTrip(first, Encode(rest), disks);
      SendableRest(items, disks);
      ItemNotEmpty(first);
      SectionsRoundTrip(rest, Perform(first, disks));
      if !first.End? {
        ItemNotEmpty(rest[0]);
      }
    }
  }

  lemma ItemNotEmpty(i: Item)
    ensures |EncodeItem(i)| > 0
  {}

  // Everything the sender emits can be sent.

  ghost predicate OkBlock(n: nat, b: Block<Sector>) { b.dev < n && b.sector < 0x40_0000_0000_0000 && |b.buf| == CHUNK }

  ghost predicate OkState(s: State<Sector>) {
    && OkRecords(|s.devs|, s.out)
    && (forall i :: 0 <= i < |s.inflight| ==> OkBlock(|s.devs|, s.inflight[i]))
    && (forall i :: 0 <= i < |s.queue| ==> OkBlock(|s.devs|, s.queue[i]))
    && (forall d :: 0 <= d < |s.devs| ==> |s.devs[d].disk| <= 0x40_0000_0000_0000)
  }

  lemma StepStaysOk(s: State<Sector>, a: Action<Sector>)
    requires OkState(s) && Enabled(s, a)
    ensures OkState(Apply(s, a))
  {
    hide Touched, SectorSet, Skips;
  }

  lemma {:induction false} RunStaysOk(s: State<Sector>, acts: seq<Action<Sector>>)
    requires OkState(s) && Runs(s, acts)
    ensures OkState(Run(s, acts)) && |Run(s, acts).devs| == |s.devs|
    decreases |acts|
  {
    if |acts| > 0 {
      StepStaysOk(s, acts[0]);
      RunStaysOk(Apply(s, acts[0]), acts[1..]);
    }
  }

  /**
   * From disk to disk: the bytes of a whole migration, loaded section by section, leave the
   * receiver with the disks of the stopped guest; with each exactly if it started with its tail,
   * which a disk of whole chunks does not have.
   */
  lemma EndToEnd(drives: seq<Drive<Sector>>, sharedBase: bool, pending: seq<AioWrite<Sector>>,
      names: seq<seq<byte>>, disks0: seq<seq<Sector>>, m0: Disks,
      live: seq<Action<Sector>>, s0: State<Sector>, acts: seq<Action<Sector>>, atPass: State<Sector>,
      pass: seq<Action<Sector>>, after: State<Sector>, out: seq<Record<Sector>>)
    requires var devs := Devices(drives, sharedBase);
      && |disks0| == |devs| == |names|
      && (forall d :: 0 <= d < |devs| ==>
        |devs[d].disk| <= 0x40_0000_0000_0000 && BaseShared(devs[d], disks0[d]))
      && var first := MigrationModel.State(devs, pending, [], [], [], false);
      && Leads(first, live, s0) && Live(live) && Timely(first, live)
    requires OwnSteps(acts) && Leads(s0, acts, atPass) && AllRead(atPass) && Overtaken(atPass)
    requires Pass(pass) && Leads(atPass, pass, after) && NoneMarked(after)
    requires out == after.out + [Progress(100), Eos]
    requires Names(names) && Holds(names, disks0, m0)
    ensures var r := LoadSections(Encode(ToItems(names, out)), m0);
      r.Loaded? && r.rest == [] && |names| == |disks0| == |s0.devs| &&
      forall d :: 0 <= d < |s0.devs| ==>
        && names[d] in r.disks
        && (r.disks[names[d]] == s0.devs[d].disk <==> SameTail(disks0[d], s0.devs[d].disk))
        && (|s0.devs[d].disk| % CHUNK == 0 ==> r.disks[names[d]] == s0.devs[d].disk)
  {
    var first := MigrationModel.State(Devices(drives, sharedBase), pending, [], [], [], false);
    MigrationDelivers(drives, sharedBase, pending, disks0, live, s0, acts, atPass, pass, after, out);
    RunStaysOk(first, live);
    RunStaysOk(s0, acts);
    RunStaysOk(atPass, pass);
    OkEnd(|names|, after.out);
    DeliverIsReplay(names, out, disks0, m0);
    SectionsRoundTrip(ToItems(names, out), m0);
    forall d | 0 <= d < |s0.devs| && |s0.devs[d].disk| % CHUNK == 0
      ensures SameTail(disks0[d], s0.devs[d].disk)
    {
      NoTail(disks0[d], s0.devs[d].disk);
    }
  }

  lemma OkEnd(n: nat, out: seq<Record<Sector>>)
    requires OkRecords(n, out)
    ensures OkRecords(n, out + [Progress(100), Eos])
  {}
}
