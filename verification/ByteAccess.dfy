/** Byte access built from sector access (qemu/block.c:600-640, 670-780). */
module ByteAccess {
  import opened BlockDefs
  import opened Errno
  import opened Splices

  /** Where a read or write of n > 0 bytes from `offset` needs the device to reach: whole sectors. */
  function RoundUp(end: int): int { (end + SECTOR_SIZE - 1) / SECTOR_SIZE * SECTOR_SIZE }

  /** The bytes up to the next sector boundary: (BDRV_SECTOR_SIZE - offset) & (BDRV_SECTOR_SIZE - 1). */
  function ToBoundary(offset: int): (r: nat)
    ensures r < SECTOR_SIZE && (offset + r) % SECTOR_SIZE == 0
  {
    (SECTOR_SIZE - offset % SECTOR_SIZE) % SECTOR_SIZE
  }

  /** The first `at` bytes asked for are in the buffer, and the rest of it is untouched. */
  ghost predicate Got<T>(disk: seq<T>, offset: int, buf: seq<T>, was: seq<T>, at: nat) {
    && at <= |buf| == |was| && (at > 0 ==>
          offset >= 0 && offset + at <= |disk| && buf[..at] == disk[offset..offset + at])
    && buf[at..] == was[at..]
  }

  lemma GotMore<T>(disk: seq<T>, offset: int, buf: seq<T>, was: seq<T>, at: nat, n: nat)
    requires Got(disk, offset, buf, was, at) && offset >= 0 && offset + at + n <= |disk| && at + n <= |buf|
    ensures Got(disk, offset, Splice(buf, at, disk[offset + at..offset + at + n]), was, at + n)
  {
    var data := disk[offset + at..offset + at + n];
    var buf' := Splice(buf, at, data);
    if at > 0 {
      assert buf'[..at + n] == buf[..at] + data;
      assert disk[offset..offset + at + n] == disk[offset..offset + at] + data;
    }
    assert buf'[at + n..] == buf[at..][n..] && was[at + n..] == was[at..][n..];
  }

  lemma GotSign<T>(disk: seq<T>, offset: int, buf: seq<T>, was: seq<T>, at: nat)
    requires Got(disk, offset, buf, was, at)
    ensures at <= |buf| == |was| && (at > 0 ==> offset >= 0)
    ensures at > 0 ==> offset + at <= |disk| && buf[..at] == disk[offset..offset + at]
    ensures buf[at..] == was[at..]
  {}

  /** Whole sectors of n bytes. */
  function Whole(n: nat): nat { n / SECTOR_SIZE }

  function Rest(n: nat): nat { n % SECTOR_SIZE }

  lemma WholeAndRest(n: nat)
    ensures n == Whole(n) * SECTOR_SIZE + Rest(n) && Rest(n) < SECTOR_SIZE
    ensures RoundUp(n) == Whole(n) * SECTOR_SIZE + (if Rest(n) > 0 then SECTOR_SIZE else 0)
  {}

  function SectorOf(offset: int): int { offset / SECTOR_SIZE }

  function InSector(offset: int): nat { offset % SECTOR_SIZE }

  lemma SectorParts(offset: int, count: nat)
    ensures SectorOf(offset) * SECTOR_SIZE + InSector(offset) == offset && InSector(offset) < SECTOR_SIZE
    ensures ToBoundary(offset) == (if InSector(offset) == 0 then 0 else SECTOR_SIZE - InSector(offset))
    ensures offset >= 0 <==> SectorOf(offset) >= 0
    ensures 0 < InSector(offset) && 0 < count && InSector(offset) + count <= SECTOR_SIZE ==>
      RoundUp(offset + count) == (SectorOf(offset) + 1) * SECTOR_SIZE
  {}

  lemma RoundUpFrom(sector: int, n: nat)
    ensures RoundUp(sector * SECTOR_SIZE + n) == sector * SECTOR_SIZE + RoundUp(n)
  {}

  class BlockDevice<T(0)> {
    var disk: seq<T>
    var faults: nat   // how often the driver will still fail a request

    /** bdrv_check_request, for a device that does not grow. */
    predicate Fits(sector: int, nbSectors: nat)
      reads this
    {
      sector >= 0 && (sector + nbSectors) * SECTOR_SIZE <= |disk|
    }

    /** bdrv_read. */
    method Read(sector: int, nbSectors: nat) returns (ret: int, data: seq<T>)
      modifies `faults
      ensures ret == 0 || ret < 0
      ensures ret == 0 ==>
        Fits(sector, nbSectors) && data == disk[sector * SECTOR_SIZE..(sector + nbSectors) * SECTOR_SIZE]
      ensures faults == old(faults) && Fits(sector, nbSectors) ==> ret == 0
      ensures faults <= old(faults)
    {
      if !Fits(sector, nbSectors) {
        return -EIO, [];
      }
      if faults > 0 {
        var failed: bool := *;
        if failed {
          faults := faults - 1;
          return -EIO, [];
        }
      }
      return 0, disk[sector * SECTOR_SIZE..(sector + nbSectors) * SECTOR_SIZE];
    }

    /** bdrv_write. */
    method Write(sector: int, data: seq<T>, nbSectors: nat) returns (ret: int)
      requires |data| == nbSectors * SECTOR_SIZE
      modifies `disk, `faults
      ensures ret == 0 || (ret < 0 && disk == old(disk))
      ensures ret == 0 ==>
        sector >= 0 && (sector + nbSectors) * SECTOR_SIZE <= |old(disk)| &&
        disk == Splice(old(disk), sector * SECTOR_SIZE, data)
      ensures faults == old(faults) && old(Fits(sector, nbSectors)) ==> ret == 0
      ensures faults <= old(faults)
    {
      if !Fits(sector, nbSectors) {
        return -EIO;
      }
      if faults > 0 {
        var failed: bool := *;
        if failed {
          faults := faults - 1;
          return -EIO;
        }
      }
      disk := Splice(disk, sector * SECTOR_SIZE, data);
      ret := 0;
    }

    /** memcpy into the caller's buffer. */
    method Copy(buf: array<T>, at: nat, data: seq<T>)
      requires at + |data| <= buf.Length
      modifies buf
      ensures buf[..] == Splice(old(buf[..]), at, data)
    {
      forall i | 0 <= i < |data| {
        buf[at + i] := data[i];
      }
    }

    /** One of the three parts of bdrv_pread: reads sectors and copies n bytes of them behind the first `at`. */
    method Fetch(offset: int, buf: array<T>, ghost was: seq<T>, at: nat, sectorNum: int, nbSectors: nat, skip: nat,
        n: nat) returns (ret: int)
      requires Got(disk, offset, buf[..], was, at) && at + n <= buf.Length
      requires sectorNum * SECTOR_SIZE + skip == offset + at && skip + n <= nbSectors * SECTOR_SIZE
      modifies this`faults, buf
      ensures ret == 0 || ret < 0
      ensures ret == 0 ==> Fits(sectorNum, nbSectors) && Got(disk, offset, buf[..], was, at + n)
      ensures ret < 0 ==> Got(disk, offset, buf[..], was, at)
      ensures faults <= old(faults) && (faults == old(faults) && Fits(sectorNum, nbSectors) ==> ret == 0)
    {
      hide Got;
      var tmp;
      ret, tmp := Read(sectorNum, nbSectors);
      if ret == 0 {
        GotSign(disk, offset, buf[..], was, at);
        assert tmp[skip..skip + n] == disk[offset + at..offset + at + n];
        GotMore(disk, offset, buf[..], was, at, n);
        Copy(buf, at, tmp[skip..skip + n]);
      }
    }

    /** The second and third part of bdrv_pread, from a sector boundary on. */
    method FetchRest(offset: int, buf: array<T>, ghost was: seq<T>, at0: nat, sectorNum0: int, count0: nat)
        returns (ret: int, at: nat)
      requires Got(disk, offset, buf[..], was, at0) && at0 + count0 <= buf.Length &&
        (count0 > 0 ==> sectorNum0 * SECTOR_SIZE == offset + at0)
      modifies this`faults, buf
      ensures ret == 0 || ret < 0
      ensures at <= at0 + count0 && Got(disk, offset, buf[..], was, at) && (ret == 0 ==> at == at0 + count0)
      ensures faults <= old(faults)
      ensures faults == old(faults) ==>
        (ret == 0 <==> count0 == 0 || (sectorNum0 >= 0 && sectorNum0 * SECTOR_SIZE + RoundUp(count0) <= |disk|))
    {
      hide Got, RoundUp, Whole, Rest;
      WholeAndRest(count0);
      at := at0;
      var (sectorNum, count) := (sectorNum0, count0);
      var nbSectors := Whole(count);
      if nbSectors > 0 {
        ret := Fetch(offset, buf, was, at, sectorNum, nbSectors, 0, nbSectors * SECTOR_SIZE);
        if ret < 0 {
          return;
        }
        sectorNum := sectorNum + nbSectors;
        at := at + nbSectors * SECTOR_SIZE;
        count := count - nbSectors * SECTOR_SIZE;
      }
      ret := 0;
      if count > 0 {
        ret := Fetch(offset, buf, was, at, sectorNum, 1, 0, count);
        if ret < 0 {
          return;
        }
        at := at + count;
      }
    }

    /**
     * bdrv_pread: on success exactly the bytes asked for; without driver errors it succeeds exactly
     * if the sectors they lie in are on the device.
     */
    method Pread(offset: int, buf: array<T>, count1: nat) returns (ret: int)
      requires count1 <= buf.Length
      modifies this`faults, buf
      ensures ret == count1 || ret < 0
      ensures ret == count1 > 0 ==>
        offset >= 0 && offset + count1 <= |disk| && buf[..count1] == disk[offset..offset + count1]
      ensures buf[count1..] == old(buf[count1..])
      ensures faults <= old(faults)
      ensures faults == old(faults) ==>
        (ret == count1 <==> count1 == 0 || (offset >= 0 && RoundUp(offset + count1) <= |disk|))
    {
      hide Got, ToBoundary, RoundUp, SectorOf, InSector;
      ghost var was := buf[..];
      GotNothing(disk, offset, was);
      var len := ToBoundary(offset);
      if len > count1 {
        len := count1;
      }
      SectorParts(offset, count1);
      var sectorNum := SectorOf(offset);
      if len > 0 {
        ret := Fetch(offset, buf, was, 0, sectorNum, 1, InSector(offset), len);
        GotTail(disk, offset, buf[..], was, if ret == 0 then len else 0, count1);
        if ret < 0 {
          assert RoundUp(offset + count1) >= (sectorNum + 1) * SECTOR_SIZE by {
            RoundUpGrows(offset + len, offset + count1);
            SectorParts(offset, len);
          }
          return;
        }
        if count1 == len {
          return count1;
        }
        sectorNum := sectorNum + 1;
      }
      RoundUpFrom(sectorNum, count1 - len);
      RoundUpPositive(count1 - len);
      var at;
      ret, at := FetchRest(offset, buf, was, len, sectorNum, count1 - len);
      GotTail(disk, offset, buf[..], was, at, count1);
      if ret == 0 {
        ret := count1;
      }
    }

    /** Reads one sector, changes n bytes of it, and writes it back. */
    method Patch(sectorNum: int, skip: nat, data: seq<T>) returns (ret: int)
      requires skip + |data| <= SECTOR_SIZE
      modifies `disk, `faults
      ensures ret == 0 || (ret < 0 && disk == old(disk))
      ensures ret == 0 ==>
        sectorNum >= 0 && old(Fits(sectorNum, 1)) && sectorNum * SECTOR_SIZE + skip + |data| <= |old(disk)|
      ensures ret == 0 ==> disk == Splice(old(disk), sectorNum * SECTOR_SIZE + skip, data)
      ensures faults <= old(faults) && (faults == old(faults) && old(Fits(sectorNum, 1)) ==> ret == 0)
    {
      var tmp;
      ret, tmp := Read(sectorNum, 1);
      if ret < 0 {
        return;
      }
      SpliceInside(disk, sectorNum * SECTOR_SIZE, SECTOR_SIZE, skip, data);
      ret := Write(sectorNum, Splice(tmp, skip, data), 1);
    }

    /** The second part of bdrv_pwrite: whole sectors. */
    method StoreSectors(ghost disk0: seq<T>, offset: int, buf: seq<T>, at: nat, sectorNum: int, nbSectors: nat)
        returns (ret: int)
      requires at + nbSectors * SECTOR_SIZE <= |buf| && nbSectors > 0 && sectorNum * SECTOR_SIZE == offset + at
      requires WrittenTo(disk0, offset, buf, at, disk)
      modifies `disk, `faults
      ensures
        if ret == 0 then WrittenTo(disk0, offset, buf, at + nbSectors * SECTOR_SIZE, disk)
        else ret < 0 && disk == old(disk)
      ensures |disk| == |disk0| && faults <= old(faults)
      ensures ret == 0 ==> sectorNum >= 0 && (sectorNum + nbSectors) * SECTOR_SIZE <= |disk0|
      ensures faults == old(faults) && sectorNum >= 0 && (sectorNum + nbSectors) * SECTOR_SIZE <= |disk0| ==> ret == 0
    {
      hide WrittenTo;
      ghost var before := disk;
      WrittenSome(disk0, offset, buf, at, disk);
      ret := Write(sectorNum, buf[at..at + nbSectors * SECTOR_SIZE], nbSectors);
      if ret == 0 {
        WrittenMore(disk0, offset, buf, at, nbSectors * SECTOR_SIZE, before);
      }
    }

    /** The third part of bdrv_pwrite: the first bytes of a sector. */
    method StoreLast(ghost disk0: seq<T>, offset: int, buf: seq<T>, at: nat, sectorNum: int) returns (ret: int)
      requires at < |buf| < at + SECTOR_SIZE && sectorNum * SECTOR_SIZE == offset + at
      requires WrittenTo(disk0, offset, buf, at, disk)
      modifies `disk, `faults
      ensures if ret == 0 then WrittenTo(disk0, offset, buf, |buf|, disk) else ret < 0 && disk == old(disk)
      ensures |disk| == |disk0| && faults <= old(faults)
      ensures ret == 0 ==> sectorNum >= 0 && (sectorNum + 1) * SECTOR_SIZE <= |disk0|
      ensures faults == old(faults) && sectorNum >= 0 && (sectorNum + 1) * SECTOR_SIZE <= |disk0| ==> ret == 0
    {
      hide WrittenTo;
      ghost var before := disk;
      WrittenSome(disk0, offset, buf, at, disk);
      ret := Patch(sectorNum, 0, buf[at..]);
      if ret == 0 {
        assert buf[at..] == buf[at..at + (|buf| - at)];
        WrittenMore(disk0, offset, buf, at, |buf| - at, before);
      }
    }

    /** The second and third part of bdrv_pwrite, from a sector boundary on. */
    method StoreRest(ghost disk0: seq<T>, offset: int, buf: seq<T>, at0: nat, sectorNum0: int) returns (ret: int)
      requires at0 <= |buf| && (at0 < |buf| ==> sectorNum0 * SECTOR_SIZE == offset + at0) &&
        WrittenTo(disk0, offset, buf, at0, disk)
      modifies `disk, `faults
      ensures ret == 0 || ret < 0
      ensures Written(disk0, offset, buf, disk) && (ret == 0 ==> WrittenTo(disk0, offset, buf, |buf|, disk))
      ensures faults <= old(faults)
      ensures faults == old(faults) ==>
        (ret == 0 <==> |buf| == at0 || (sectorNum0 >= 0 && sectorNum0 * SECTOR_SIZE + RoundUp(|buf| - at0) <= |disk0|))
    {
      hide RoundUp, Whole, Rest, WrittenTo, Written;
      var (at, sectorNum, count) := (at0, sectorNum0, |buf| - at0);
      WholeAndRest(count);
      WrittenSome(disk0, offset, buf, at, disk);
      var nbSectors := Whole(count);
      if nbSectors > 0 {
        var len := nbSectors * SECTOR_SIZE;
        ret := StoreSectors(disk0, offset, buf, at, sectorNum, nbSectors);
        if ret < 0 {
          return;
        }
        sectorNum := sectorNum + nbSectors;
        at := at + len;
        count := count - len;
        WrittenSome(disk0, offset, buf, at, disk);
      }
      ret := 0;
      if count > 0 {
        ret := StoreLast(disk0, offset, buf, at, sectorNum);
        if ret == 0 {
          WrittenSome(disk0, offset, buf, |buf|, disk);
        }
      }
    }

    /**
     * bdrv_pwrite: on success exactly the given slice is replaced; whatever happens, nothing outside
     * it changes, and what is replaced is a front part of it.
     */
    method Pwrite(offset: int, buf: seq<T>) returns (ret: int)
      modifies `disk, `faults
      ensures ret == |buf| || ret < 0
      ensures ret == |buf| > 0 ==>
        offset >= 0 && offset + |buf| <= |old(disk)| && disk == Splice(old(disk), offset, buf)
      ensures Written(old(disk), offset, buf, disk)
      ensures faults <= old(faults)
      ensures faults == old(faults) ==>
        (ret == |buf| <==> |buf| == 0 || (offset >= 0 && RoundUp(offset + |buf|) <= |old(disk)|))
    {
      hide ToBoundary, RoundUp, SectorOf, InSector, WrittenTo, Written;
      var count1 := |buf|;
      ghost var disk0 := disk;
      WrittenNothing(disk0, offset, buf);
      var len := ToBoundary(offset);
      if len > count1 {
        len := count1;
      }
      SectorParts(offset, count1);
      var sectorNum := SectorOf(offset);
      if len > 0 {
        ret := Patch(sectorNum, InSector(offset), buf[..len]);
        if ret < 0 {
          assert RoundUp(offset + count1) >= (sectorNum + 1) * SECTOR_SIZE by {
            RoundUpGrows(offset + len, offset + count1);
            SectorParts(offset, len);
          }
          return;
        }
        assert buf[..len] == buf[0..0 + len];
        WrittenMore(disk0, offset, buf, 0, len, disk0);
        WrittenSome(disk0, offset, buf, len, disk);
        if count1 == len {
          WrittenAll(disk0, offset, buf, disk);
          return count1;
        }
        sectorNum := sectorNum + 1;
      }
      RoundUpFrom(sectorNum, count1 - len);
      RoundUpPositive(count1 - len);
      ret := StoreRest(disk0, offset, buf, len, sectorNum);
      if ret == 0 {
        WrittenAll(disk0, offset, buf, disk);
        ret := count1;
      }
    }

    /** Bytes written at any offset and read again from there are the same bytes. */
    method WriteThenRead(offset: int, data: seq<T>) returns (ok: bool, back: array<T>)
      modifies `disk, `faults
      ensures fresh(back) && (ok ==> back[..] == data)
      ensures faults == old(faults) ==>
        (ok <==> |data| == 0 || (offset >= 0 && RoundUp(offset + |data|) <= |old(disk)|))
    {
      hide RoundUp, Written;
      back := new T[|data|];
      ghost var before := disk;
      var w := Pwrite(offset, data);
      if w < 0 {
        return false, back;
      }
      if |data| > 0 {
        ReadBack(before, offset, data);
      }
      var r := Pread(offset, back, |data|);
      ok := r >= 0;
      assert back[..] == back[..|data|];
    }
  }

  /** A front part of the data has been written at `offset`. */
  ghost predicate Written<T>(disk0: seq<T>, offset: int, buf: seq<T>, disk: seq<T>) {
    exists n: nat :: WrittenTo(disk0, offset, buf, n, disk)
  }

  ghost predicate WrittenTo<T>(disk0: seq<T>, offset: int, buf: seq<T>, n: nat, disk: seq<T>) {
    if n == 0 then disk == disk0
    else offset >= 0 && n <= |buf| && offset + n <= |disk0| && disk == Splice(disk0, offset, buf[..n])
  }

  lemma WrittenNothing<T>(disk0: seq<T>, offset: int, buf: seq<T>)
    ensures WrittenTo(disk0, offset, buf, 0, disk0) && Written(disk0, offset, buf, disk0)
  {
    assert WrittenTo(disk0, offset, buf, 0, disk0);
  }

  lemma WrittenSome<T>(disk0: seq<T>, offset: int, buf: seq<T>, n: nat, disk: seq<T>)
    requires WrittenTo(disk0, offset, buf, n, disk)
    ensures Written(disk0, offset, buf, disk) && |disk| == |disk0|
  {}

  lemma WrittenAll<T>(disk0: seq<T>, offset: int, buf: seq<T>, disk: seq<T>)
    requires WrittenTo(disk0, offset, buf, |buf|, disk)
    ensures |buf| > 0 ==> offset >= 0 && offset + |buf| <= |disk0| && disk == Splice(disk0, offset, buf)
  {
    assert buf[..|buf|] == buf;
  }

  lemma WrittenMore<T>(disk0: seq<T>, offset: int, buf: seq<T>, at: nat, n: nat, disk: seq<T>)
    requires WrittenTo(disk0, offset, buf, at, disk) && 0 < n && at + n <= |buf| && offset + at >= 0 &&
      offset + at + n <= |disk0|
    ensures |disk| == |disk0| && WrittenTo(disk0, offset, buf, at + n, Splice(disk, offset + at, buf[at..at + n]))
  {
    if at > 0 {
      SpliceTwice(disk0, offset, buf[..at], buf[at..at + n]);
      assert buf[..at] + buf[at..at + n] == buf[..at + n];
    }
  }

  lemma SpliceInside<T>(s: seq<T>, i: nat, n: nat, j: nat, t: seq<T>)
    requires i + n <= |s| && j + |t| <= n
    ensures Splice(s, i, Splice(s[i..i + n], j, t)) == Splice(s, i + j, t)
  {}

  lemma RoundUpGrows(a: int, b: int)
    requires a <= b
    ensures RoundUp(a) <= RoundUp(b)
  {}

  lemma RoundUpPositive(n: nat)
    ensures RoundUp(n) >= n && (n == 0 ==> RoundUp(n) == 0)
  {}

  lemma GotNothing<T>(disk: seq<T>, offset: int, was: seq<T>)
    ensures Got(disk, offset, was, was, 0)
  {}

  lemma GotTail<T>(disk: seq<T>, offset: int, buf: seq<T>, was: seq<T>, at: nat, count: nat)
    requires Got(disk, offset, buf, was, at) && at <= count <= |buf|
    ensures buf[count..] == was[count..]
    ensures at > 0 ==> offset >= 0 && offset + at <= |disk| && buf[..at] == disk[offset..offset + at]
  {
    assert buf[count..] == buf[at..][count - at..] && was[count..] == was[at..][count - at..];
  }

  /** What was written is read back. */
  lemma ReadBack<T>(disk: seq<T>, offset: nat, buf: seq<T>)
    requires offset + |buf| <= |disk|
    ensures Splice(disk, offset, buf)[offset..offset + |buf|] == buf
  {}
}
