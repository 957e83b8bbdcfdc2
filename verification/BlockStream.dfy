/**
 * The byte stream of block migration: blk_send and the markers on one side, block_load on the
 * other (qemu/block-migration.c:79-93, 284-291, 466, 471-523; qemu/savevm.c:627-665).
 */
module BlockStream {
  import opened BlockDefs
  import opened Errno
  import opened MigrationModel

  type byte = b: int | 0 <= b < 256

  const TWO_TO_64: nat := 0x1_0000_0000_0000_0000

  const FLAG_DEVICE_BLOCK: nat := 1
  const FLAG_EOS: nat := 2
  const FLAG_PROGRESS: nat := 4

  type Sector = s: seq<byte> | |s| == SECTOR_SIZE witness seq(SECTOR_SIZE, _ => 0)

  // Big-endian numbers.

  function PutBe(v: nat, n: nat): (s: seq<byte>)
    ensures |s| == n
  {
    if n == 0 then [] else PutBe(v / 256, n - 1) + [v % 256]
  }

  function GetBe(s: seq<byte>): nat {
    if |s| == 0 then 0 else GetBe(s[..|s| - 1]) * 256 + s[|s| - 1]
  }

  function Power256(n: nat): nat { if n == 0 then 1 else 256 * Power256(n - 1) }

  /** n bytes hold a number modulo 256 to the n. */
  lemma {:induction false} BeRoundTrip(v: nat, n: nat)
    requires v < Power256(n)
    ensures GetBe(PutBe(v, n)) == v
  {
    if n > 0 {
      BeRoundTrip(v / 256, n - 1);
      assert PutBe(v, n)[..n - 1] == PutBe(v / 256, n - 1);
    }
  }

  lemma EightBytes()
    ensures Power256(8) == TWO_TO_64
  {
    assert Power256(4) == 0x1_0000_0000;
    assert Power256(8) == 256 * (256 * (256 * (256 * Power256(4))));
  }

  // The header word: a sector number above nine bits of flags.

  /** What qemu_put_be64 is given. */
  function Header(sector: nat, flags: nat): (v: nat)
    ensures v < TWO_TO_64
  { (sector * SECTOR_SIZE + flags) % TWO_TO_64 }

  /** The word as block_load's signed addr. */
  function Signed(v: nat): int { if v < TWO_TO_64 / 2 then v else v - TWO_TO_64 }

  function HeaderFlags(v: nat): nat { Signed(v) % SECTOR_SIZE }

  function HeaderSector(v: nat): int { Signed(v) / SECTOR_SIZE }

  /** The header carries a sector number exactly when it leaves the sign bit of the word alone. */
  lemma HeaderRoundTrip(sector: nat, flags: nat)
    requires flags < SECTOR_SIZE
    ensures HeaderFlags(Header(sector, flags)) == flags
    ensures HeaderSector(Header(sector, flags)) == sector <==> sector < 0x40_0000_0000_0000
  {
    var (q, r) := (sector / 0x80_0000_0000_0000, sector % 0x80_0000_0000_0000);
    assert sector * SECTOR_SIZE + flags == q * TWO_TO_64 + (r * SECTOR_SIZE + flags);
    Remainder(q, r * SECTOR_SIZE + flags);
    SplitWord(if r < 0x40_0000_0000_0000 then r else r - 0x80_0000_0000_0000, flags);
  }

  lemma Remainder(q: nat, v: nat)
    requires v < TWO_TO_64
    ensures (q * TWO_TO_64 + v) % TWO_TO_64 == v
  {}

  lemma SplitWord(sector: int, flags: nat)
    requires flags < SECTOR_SIZE
    ensures (sector * SECTOR_SIZE + flags) % SECTOR_SIZE == flags &&
      (sector * SECTOR_SIZE + flags) / SECTOR_SIZE == sector
  {}

  /** One thing in the stream, by device name. */
  datatype Item = DeviceBlock(name: seq<byte>, sector: nat, payload: seq<byte>) | Percent(percent: nat) | End

  predicate WellFormed(i: Item) {
    match i
    case DeviceBlock(name, sector, payload) =>
      |name| < 256 && 0 !in name && sector < 0x40_0000_0000_0000 && |payload| == BLOCK_SIZE
    case Percent(p) => p < 0x40_0000_0000_0000
    case End => true
  }

  function EncodeItem(i: Item): seq<byte> {
    match i
    case DeviceBlock(name, sector, payload) =>
      PutBe(Header(sector, FLAG_DEVICE_BLOCK), 8) + [|name| % 256] + name + payload
    case Percent(p) => PutBe(Header(p, FLAG_PROGRESS), 8)
    case End => PutBe(FLAG_EOS, 8)
  }

  function Encode(items: seq<Item>): seq<byte> {
    if |items| == 0 then [] else EncodeItem(items[0]) + Encode(items[1..])
  }

  // The receiver.

  /** The bytes of a block as sectors. */
  function Sectors(payload: seq<byte>): (r: seq<Sector>)
    requires |payload| % SECTOR_SIZE == 0
    ensures |r| == |payload| / SECTOR_SIZE
  {
    seq(|payload| / SECTOR_SIZE, i requires 0 <= i < |payload| / SECTOR_SIZE =>
      payload[i * SECTOR_SIZE..i * SECTOR_SIZE + SECTOR_SIZE])
  }

  type Disks = map<seq<byte>, seq<Sector>>

  /** bdrv_write, whose result block_load ignores. */
  function WriteBlock(disk: seq<Sector>, addr: int, payload: seq<byte>): seq<Sector>
    requires |payload| % SECTOR_SIZE == 0
  {
    if addr < 0 then disk else Write(disk, addr, Sectors(payload))
  }

  /** The name up to its first zero byte, as strcmp sees it. */
  function CString(name: seq<byte>): seq<byte> {
    if |name| == 0 || name[0] == 0 then [] else [name[0]] + CString(name[1..])
  }

  datatype Step = Next(disks: Disks, rest: seq<byte>, eos: bool) | Failed(disks: Disks, code: int) | Truncated

  /** One turn of block_load's loop. */
  function LoadItem(stream: seq<byte>, disks: Disks): (r: Step)
    ensures r.Next? ==> |r.rest| < |stream|
  {
    if |stream| < 8 then Truncated
    else
      var v := GetBe(stream[..8]);
      var flags := HeaderFlags(v);
      var eos := flags / FLAG_EOS % 2 == 1;
      if flags % 2 == 1 then
        if |stream| < 9 || |stream| - 9 < stream[8] then Truncated
        else
          var len: nat := stream[8];
          var name := CString(stream[9..9 + len]);
          if name !in disks then Failed(disks, -EINVAL)
          else if |stream| < 9 + len + BLOCK_SIZE then Truncated
          else
            var payload := stream[9 + len..9 + len + BLOCK_SIZE];
            Next(disks[name := WriteBlock(disks[name], HeaderSector(v), payload)], stream[9 + len + BLOCK_SIZE..], eos)
      else if flags / FLAG_PROGRESS % 2 == 1 then Next(disks, stream[8..], eos)
      else if eos then Next(disks, stream[8..], true)
      else Failed(disks, -EINVAL)
  }

  datatype Outcome = Loaded(disks: Disks, rest: seq<byte>) | Rejected(disks: Disks, code: int) | Short

  /** block_load. */
  function LoadSection(stream: seq<byte>, disks: Disks): (r: Outcome)
    ensures r.Loaded? ==> |r.rest| < |stream|
    decreases |stream|
  {
    match LoadItem(stream, disks)
    case Next(disks', rest, eos) => if eos then Loaded(disks', rest) else LoadSection(rest, disks')
    case Failed(disks', code) => Rejected(disks', code)
    case Truncated => Short
  }

  /** block_load as the loop it is. */
  method BlockLoad(stream: seq<byte>, disks: Disks) returns (r: Outcome)
    ensures r == LoadSection(stream, disks)
  {
    var (s, d) := (stream, disks);
    while true
      invariant LoadSection(s, d) == LoadSection(stream, disks)
      decreases |s|
    {
      match LoadItem(s, d) {
        case Next(d', rest, eos) =>
          if eos {
            return Loaded(d', rest);
          }
          s, d := rest, d';
        case Failed(d', code) => return Rejected(d', code);
        case Truncated => return Short;
      }
    }
  }

  // Reading back what was written.

  /** What an item means, independently of its encoding. */
  function Perform(i: Item, disks: Disks): Disks
    requires i.DeviceBlock? ==> i.name in disks && |i.payload| == BLOCK_SIZE
  {
    match i
    case DeviceBlock(name, sector, payload) => disks[name := Write(disks[name], sector, Sectors(payload))]
    case Percent(_) => disks
    case End => disks
  }

  lemma {:induction false} CStringIsName(name: seq<byte>)
    requires 0 !in name
    ensures CString(name) == name
  {
    if |name| > 0 {
      CStringIsName(name[1..]);
    }
  }

  lemma HeaderRead(sector: nat, flags: nat, rest: seq<byte>)
    requires flags < SECTOR_SIZE && sector < 0x40_0000_0000_0000
    ensures var s := PutBe(Header(sector, flags), 8) + rest;
      |s| >= 8 && HeaderFlags(GetBe(s[..8])) == flags && HeaderSector(GetBe(s[..8])) == sector && s[8..] == rest
  {
    var v := Header(sector, flags);
    EightBytes();
    BeRoundTrip(v, 8);
    HeaderRoundTrip(sector, flags);
    assert (PutBe(v, 8) + rest)[..8] == PutBe(v, 8);
  }

  lemma BlockSplit(head: seq<byte>, len: byte, name: seq<byte>, payload: seq<byte>, rest: seq<byte>)
    requires |head| == 8 && |name| == len && |payload| == BLOCK_SIZE
    ensures var s := head + [len] + name + payload + rest;
      && s[..8] == head && s[8] == len && s[9..9 + len] == name
      && s[9 + len..9 + len + BLOCK_SIZE] == payload && s[9 + len + BLOCK_SIZE..] == rest
  {}

  /** A block as block_load finds it: header, name and payload in place. */
  lemma LoadBlock(stream: seq<byte>, disks: Disks, name: seq<byte>, sector: nat, payload: seq<byte>, rest: seq<byte>)
    requires WellFormed(DeviceBlock(name, sector, payload)) && name in disks
    requires |stream| == 9 + |name| + BLOCK_SIZE + |rest| && stream[8] == |name|
    requires HeaderFlags(GetBe(stream[..8])) == FLAG_DEVICE_BLOCK && HeaderSector(GetBe(stream[..8])) == sector
    requires stream[9..9 + |name|] == name
    requires stream[9 + |name|..9 + |name| + BLOCK_SIZE] == payload && stream[9 + |name| + BLOCK_SIZE..] == rest
    ensures LoadItem(stream, disks) == Next(Perform(DeviceBlock(name, sector, payload), disks), rest, false)
  {
    hide GetBe, HeaderFlags, HeaderSector;
    CStringIsName(name);
  }

  lemma BlockRoundTrip(name: seq<byte>, sector: nat, payload: seq<byte>, rest: seq<byte>, disks: Disks)
    requires WellFormed(DeviceBlock(name, sector, payload)) && name in disks
    ensures LoadItem(EncodeItem(DeviceBlock(name, sector, payload)) + rest, disks) ==
      Next(Perform(DeviceBlock(name, sector, payload), disks), rest, false)
  {
    hide LoadItem, Perform, Header, PutBe, GetBe, HeaderFlags, HeaderSector;
    var head := PutBe(Header(sector, FLAG_DEVICE_BLOCK), 8);
    HeaderRead(sector, FLAG_DEVICE_BLOCK, []);
    assert head + [] == head && head[..8] == head;
    BlockSplit(head, |name|, name, payload, rest);
    LoadBlock(head + [|name|] + name + payload + rest, disks, name, sector, payload, rest);
  }

  /** An encoded item is read back as what it means, and nothing behind it is touched. */
  lemma ItemRoundTrip(i: Item, rest: seq<byte>, disks: Disks)
    requires WellFormed(i) && (i.DeviceBlock? ==> i.name in disks)
    ensures LoadItem(EncodeItem(i) + rest, disks) == Next(Perform(i, disks), rest, i.End?)
  {
    hide GetBe, PutBe, HeaderFlags, HeaderSector;
    match i
    case DeviceBlock(name, sector, payload) => BlockRoundTrip(name, sector, payload, rest, disks);
    case Percent(p) => HeaderRead(p, FLAG_PROGRESS, rest);
    case End =>
      HeaderRead(0, FLAG_EOS, rest);
      assert Header(0, FLAG_EOS) == FLAG_EOS;
  }

  /** The items can be sent and name devices the receiver has. */
  ghost predicate Sendable(items: seq<Item>, disks: Disks) {
    forall i :: 0 <= i < |items| ==> WellFormed(items[i]) && (items[i].DeviceBlock? ==> items[i].name in disks)
  }

  lemma SendableRest(items: seq<Item>, disks: Disks)
    requires Sendable(items, disks) && |items| > 0
    ensures Sendable(items[1..], Perform(items[0], disks))
  {}

  /** What a list of items means: they are performed in order until a device is unknown. */
  ghost function Deliver(items: seq<Item>, disks: Disks): Disks
    requires Sendable(items, disks)
    decreases |items|
  {
    if |items| == 0 then disks
    else
      SendableRest(items, disks);
      Deliver(items[1..], Perform(items[0], disks))
  }

  ghost predicate NoEnd(items: seq<Item>) { forall i :: 0 <= i < |items| ==> !items[i].End? }

  /** block_load reads one section and stops behind its end marker. */
  lemma {:induction false} SectionRoundTrip(items: seq<Item>, rest: seq<byte>, disks: Disks)
    requires Sendable(items, disks) && NoEnd(items)
    ensures LoadSection(Encode(items + [End]) + rest, disks) == Loaded(Deliver(items, disks), rest)
    decreases |items|
  {
    hide LoadItem, EncodeItem, Perform;
    if |items| == 0 {
      ItemRoundTrip(End, rest, disks);
      assert items + [End] == [End] && Encode([End]) == EncodeItem(End) + Encode([End][1..]);
      assert EncodeItem(End) + [] + rest == EncodeItem(End) + rest;
      PerformEnd(disks);
    } else {
      var more := items[1..] + [End];
      assert (items + [End])[1..] == more;
      assert EncodeItem(items[0]) + Encode(more) + rest == EncodeItem(items[0]) + (Encode(more) + rest);
      ItemRoundTrip(items[0], Encode(more) + rest, disks);
      SendableRest(items, disks);
      SectionRoundTrip(items[1..], rest, Perform(items[0], disks));
    }
  }

  lemma PerformEnd(disks: Disks)
    ensures Perform(End, disks) == disks
  {}

  /** An unknown device stops block_load with -EINVAL after everything before it was performed. */
  lemma {:induction false} UnknownDevice(items: seq<Item>, bad: Item, rest: seq<byte>, disks: Disks)
    requires Sendable(items, disks) && NoEnd(items) && WellFormed(bad) && bad.DeviceBlock? && bad.name !in disks
    ensures LoadSection(Encode(items + [bad]) + rest, disks) == Rejected(Deliver(items, disks), -EINVAL)
    decreases |items|
  {
    hide LoadItem, EncodeItem, Perform;
    if |items| == 0 {
      BadItem(bad, rest, disks);
      assert items + [bad] == [bad] && Encode([bad]) == EncodeItem(bad) + Encode([bad][1..]);
      assert EncodeItem(bad) + [] + rest == EncodeItem(bad) + rest;
    } else {
      var more := items[1..] + [bad];
      assert (items + [bad])[1..] == more;
      assert EncodeItem(items[0]) + Encode(more) + rest == EncodeItem(items[0]) + (Encode(more) + rest);
      ItemRoundTrip(items[0], Encode(more) + rest, disks);
      SendableRest(items, disks);
      SameNames(items[0], disks);
      UnknownDevice(items[1..], bad, rest, Perform(items[0], disks));
    }
  }

  lemma SameNames(i: Item, disks: Disks)
    requires i.DeviceBlock? ==> i.name in disks && |i.payload| == BLOCK_SIZE
    ensures Perform(i, disks).Keys == disks.Keys
  {}

  lemma BadItem(bad: Item, rest: seq<byte>, disks: Disks)
    requires WellFormed(bad) && bad.DeviceBlock? && bad.name !in disks
    ensures LoadItem(EncodeItem(bad) + rest, disks) == Failed(disks, -EINVAL)
  {
    hide LoadItem, PutBe, GetBe, Header, HeaderFlags, HeaderSector;
    var head := PutBe(Header(bad.sector, FLAG_DEVICE_BLOCK), 8);
    HeaderRead(bad.sector, FLAG_DEVICE_BLOCK, []);
    assert head + [] == head && head[..8] == head;
    BlockSplit(head, |bad.name|, bad.name, bad.payload, rest);
    LoadBad(head + [|bad.name|] + bad.name + bad.payload + rest, disks, bad.name);
  }

  lemma LoadBad(stream: seq<byte>, disks: Disks, name: seq<byte>)
    requires |stream| >= 9 + |name| && stream[8] == |name| && HeaderFlags(GetBe(stream[..8])) == FLAG_DEVICE_BLOCK
    requires stream[9..9 + |name|] == name && 0 !in name && name !in disks
    ensures LoadItem(stream, disks) == Failed(disks, -EINVAL)
  {
    hide GetBe, HeaderFlags, HeaderSector;
    CStringIsName(name);
  }
}
