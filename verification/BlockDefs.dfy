/** What the parts of the block layer share: sizes, and the question whether sectors are allocated. */
module BlockDefs {

  /** BDRV_SECTOR_SIZE. */
  const SECTOR_SIZE: nat := 512

  /** BLOCK_SIZE of block migration: a chunk of 2048 sectors. */
  const BLOCK_SIZE: nat := 1048576

  /** bdrv_is_allocated: whether sector i is allocated, and a positive run of sectors like it. */
  method IsAllocated(alloc: set<nat>, total: nat, i: nat, max: nat) returns (allocated': bool, n: nat)
    requires i < total && max > 0
    ensures allocated' <==> i in alloc
    ensures 0 < n <= max && i + n <= total
    ensures forall k :: i <= k < i + n ==> (k in alloc <==> allocated')
    ensures n == max || i + n == total || (i + n in alloc <==> !allocated')
  {
    allocated', n := i in alloc, 1;
    while n < max && i + n < total && (i + n in alloc) == allocated'
      invariant 1 <= n <= max && i + n <= total
      invariant forall k :: i <= k < i + n ==> (k in alloc <==> allocated')
    {
      n := n + 1;
    }
  }
}
