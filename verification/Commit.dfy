/** Committing an overlay into its backing image (qemu/block.c:558-598), sector by sector. */
module Commit {
  import opened BlockDefs
  import opened Errno

  /** What the guest sees: the overlay where it is allocated, the backing image elsewhere. */
  ghost predicate Sees<T>(disk: seq<T>, alloc: set<nat>, backing: seq<T>, view: seq<T>) {
    && |view| == |disk|
    && (forall i: nat :: i < |disk| && i in alloc ==> view[i] == disk[i])
    && (forall i: nat :: i < |disk| && i !in alloc && i < |backing| ==> view[i] == backing[i])
  }

  class Overlay<T> {
    const hasDriver: bool
    const readOnly: bool
    const hasBacking: bool
    var disk: seq<T>       // the overlay's sectors
    var alloc: set<nat>    // which of them are allocated
    var backing: seq<T>
    var faults: nat        // how often the drivers will still fail a request

    /** Copies one allocated sector down. */
    method CopyDown(i: nat) returns (ok: bool)
      requires i < |disk| && i in alloc
      modifies `backing, `faults
      ensures ok ==> i < |old(backing)| && backing == old(backing)[i := disk[i]]
      ensures !ok ==> backing == old(backing)
      ensures faults <= old(faults) && (faults == old(faults) ==> (ok <==> i < |old(backing)|))
    {
      if faults > 0 {
        var failed: bool := *;
        if failed {
          faults := faults - 1;
          return false;
        }
      }
      if i >= |backing| {
        return false;
      }
      backing := backing[i := disk[i]];
      ok := true;
    }

    /** The inner loop of bdrv_commit: one allocated run. */
    method CopyRun(i: nat, n: nat) returns (ok: bool)
      requires n > 0 && i + n <= |disk| && forall k :: i <= k < i + n ==> k in alloc
      modifies `backing, `faults
      ensures |backing| == |old(backing)| && faults <= old(faults)
      ensures forall k :: 0 <= k < |backing| ==>
        backing[k] == old(backing)[k] || (i <= k < i + n && backing[k] == disk[k])
      ensures ok ==> i + n <= |backing| && forall k :: i <= k < i + n ==> backing[k] == disk[k]
      ensures faults == old(faults) ==> (ok <==> i + n <= |backing|)
    {
      var j := 0;
      ok := true;
      while j < n
        invariant j <= n && |backing| == |old(backing)| && faults <= old(faults) && ok
        invariant forall k :: 0 <= k < |backing| ==>
          backing[k] == old(backing)[k] || (i <= k < i + j && backing[k] == disk[k])
        invariant j > 0 ==> i + j <= |backing| && forall k :: i <= k < i + j ==> backing[k] == disk[k]
      {
        ok := CopyDown(i + j);
        if !ok {
          return;
        }
        j := j + 1;
      }
    }

    /** Sectors before i that are allocated have reached the backing image; the view never changes. */
    ghost predicate Copied(view: seq<T>, i: nat)
      reads this
    {
      && Sees(disk, alloc, backing, view)
      && (forall k: nat :: k < i && k < |disk| && k in alloc ==> k < |backing| && backing[k] == disk[k])
    }

    /** Every sector that the guest sees has reached the backing image. */
    ghost predicate Holds(view: seq<T>)
      reads this
    {
      && (forall i: nat :: i < |disk| && i < |backing| && i < |view| ==> view[i] == backing[i])
      && (forall i: nat :: i < |disk| && i in alloc ==> i < |backing|)
    }

    /** drv->bdrv_make_empty: it may fail, and may then have emptied a part of the overlay. */
    method MakeEmpty() returns (ret: int)
      modifies `alloc, `faults
      ensures ret <= 0 && alloc <= old(alloc) && faults <= old(faults)
      ensures ret == 0 ==> alloc == {}
      ensures faults == old(faults) ==> ret == 0
    {
      if faults > 0 {
        var failed: bool := *;
        if failed {
          faults := faults - 1;
          var left: set<nat> := *;
          alloc := alloc * left;
          ret := *;
          return if ret < 0 then ret else -EIO;
        }
      }
      alloc := {};
      ret := 0;
    }

    /**
     * bdrv_commit: the guest's view is the same at every moment, also when it fails; when it succeeds
     * the backing image holds the whole view, and the overlay is empty if the driver can empty it.
     * The overlay only ever loses sectors that the backing image holds.  Without driver errors it
     * succeeds exactly if every allocated sector is inside the backing image.
     */
    method BdrvCommit(canEmpty: bool, ghost view: seq<T>) returns (ret: int)
      requires Sees(disk, alloc, backing, view)
      modifies `backing, `alloc, `faults
      ensures Sees(disk, alloc, backing, view) && |backing| == |old(backing)|
      ensures !hasDriver ==> ret == -ENOMEDIUM
      ensures hasDriver && readOnly ==> ret == -EACCES
      ensures hasDriver && !readOnly && !hasBacking ==> ret == -ENOTSUP
      ensures hasDriver && !readOnly && hasBacking ==> ret == 0 || ret == -EIO || (ret < 0 && canEmpty && Holds(view))
      ensures ret == 0 ==> Holds(view) && alloc == if canEmpty then {} else old(alloc)
      ensures alloc != old(alloc) ==> canEmpty && Holds(view) && alloc < old(alloc)
      ensures hasDriver && !readOnly && hasBacking && faults == old(faults) ==>
        (ret == 0 <==> forall k :: k in old(alloc) && k < |disk| ==> k < |backing|)
    {
      if !hasDriver {
        return -ENOMEDIUM;
      }
      if readOnly {
        return -EACCES;
      }
      if !hasBacking {
        return -ENOTSUP;
      }
      var i := 0;
      while i < |disk|
        invariant i <= |disk| && |backing| == |old(backing)| && Copied(view, i) && faults <= old(faults) &&
          alloc == old(alloc)
      {
        var allocated', n := IsAllocated(alloc, |disk|, i, 65536);
        if allocated' {
          ghost var before := backing;
          var ok := CopyRun(i, n);
          StillSeen(disk, alloc, before, backing, view);
          if !ok {
            assert i + n - 1 in alloc;
            return -EIO;
          }
        }
        i := i + n;
      }
      assert Holds(view);
      ret := 0;
      if canEmpty {
        ret := MakeEmpty();
      }
    }
  }

  /** Writing the overlay's own sectors into the backing image shows nowhere. */
  lemma StillSeen<T>(disk: seq<T>, alloc: set<nat>, backing: seq<T>, backing': seq<T>, view: seq<T>)
    requires Sees(disk, alloc, backing, view) && |backing'| == |backing|
    requires forall k: nat :: k < |backing| && (k !in alloc || k >= |disk|) ==> backing'[k] == backing[k]
    ensures Sees(disk, alloc, backing', view)
  {}
}
