/**
 * The dirty bitmap of the block layer (qemu/block.c:642-662, 2125-2162): words of bits that
 * behave as a set of chunks.
 */
module DirtyBitmap {
  import opened BlockDefs
  import opened MigrationModel
  import opened MigrationProof
  import opened WordBits

  /** A machine word: zero, the bit operations of set_dirty_bitmap, and `1 << bit`. */
  datatype WordOps<!W> = WordOps(zero: W, or: (W, W) -> W, andNot: (W, W) -> W, test: (W, W) -> bool, bit: nat -> W) {
    ghost predicate Sets(v: W, i: nat, j: nat) { test(or(v, bit(i)), bit(j)) <==> i == j || test(v, bit(j)) }
    ghost predicate Clears(v: W, i: nat, j: nat) { test(andNot(v, bit(i)), bit(j)) <==> i != j && test(v, bit(j)) }
    ghost predicate Empty(j: nat) { !test(zero, bit(j)) }
  }

  ghost predicate Laws<W(!new)>(o: WordOps<W>) {
    && (forall v, i: nat, j: nat :: i < BITS && j < BITS ==> o.Sets(v, i, j))
    && (forall v, i: nat, j: nat :: i < BITS && j < BITS ==> o.Clears(v, i, j))
    && (forall j: nat :: j < BITS ==> o.Empty(j))
  }

  // 32-bit words obey the laws.

  function Word32(): WordOps<bv32> { WordOps(0, Or32, AndNot32, Test32, Mask) }

  lemma Word32Laws()
    ensures Laws(Word32())
  {
    var o := Word32();
    forall v, i: nat, j: nat | i < BITS && j < BITS
      ensures o.Sets(v, i, j) && o.Clears(v, i, j)
    {
      SetsAndClears(v, i, j);
    }
    forall j: nat | j < BITS
      ensures o.Empty(j)
    {
      ZeroTest(Mask(j));
    }
  }

  lemma SetsAndClears(v: bv32, i: nat, j: nat)
    requires i < BITS && j < BITS
    ensures Test32(Or32(v, Mask(i)), Mask(j)) <==> i == j || Test32(v, Mask(j))
    ensures Test32(AndNot32(v, Mask(i)), Mask(j)) <==> i != j && Test32(v, Mask(j))
  {
    hide Mask, Test32, Or32, AndNot32;
    MaskTest(i, j);
    BitLaws(v, Mask(i), Mask(j));
  }

  lemma ZeroTest(m: bv32)
    ensures !Test32(0, m)
  {}

  // The bitmap.

  /** Division as C does it, for a divisor of CHUNK. */
  function ChunkIndex(sector: int): int { if sector >= 0 then sector / CHUNK else -(-sector / CHUNK) }

  /** The first and last chunk that set_dirty_bitmap visits. */
  predicate Visited(sector: nat, n: nat, c: nat) { ChunkIndex(sector) <= c <= ChunkIndex(sector + n - 1) }

  /** Of a request with sectors in it, these are the chunks it overlaps. */
  lemma VisitedIsTouched(sector: nat, n: nat, c: nat)
    requires n > 0
    ensures Visited(sector, n, c) <==> c in Touched(sector, n)
  {
    TouchedRange(sector, n, c);
  }

  function ChunkCountOf(total: nat): nat { (total + CHUNK - 1) / CHUNK }

  /** The bytes that bdrv_set_dirty_tracking allocates. */
  function BitmapBytes(total: nat): nat { (total + CHUNK * 8 - 1) / (CHUNK * 8) }

  /** There is a bit for every chunk, and less than a byte too many. */
  lemma BytesCoverChunks(total: nat)
    ensures ChunkCountOf(total) <= BitmapBytes(total) * 8 < ChunkCountOf(total) + 8
  {}

  // The allocation against the words that are accessed.

  /** The word of chunk c lies inside the allocation, for words of w bytes. */
  predicate WordInside(total: nat, c: nat, w: nat)
    requires w == 4 || w == 8
  {
    (c / (8 * w) + 1) * w <= BitmapBytes(total)
  }

  /** Of the chunks of a disk, all words lie inside exactly if the allocation consists of whole words. */
  lemma InsideIffWholeWords(total: nat, w: nat)
    requires w == 4 || w == 8
    ensures (forall c: nat :: c < ChunkCountOf(total) ==> WordInside(total, c, w)) <==> BitmapBytes(total) % w == 0
  {
    var (n, b) := (ChunkCountOf(total), BitmapBytes(total));
    hide ChunkCountOf, BitmapBytes;
    BytesCoverChunks(total);
    if b % w == 0 {
      forall c: nat | c < n
        ensures WordInside(total, c, w)
      {
        WholeWords(b, c, w);
      }
    } else {
      PartOfWord(b, n, w);
      assert !WordInside(total, n - 1, w);
    }
  }

  lemma WholeWords(bytes: nat, c: nat, w: nat)
    requires (w == 4 || w == 8) && bytes % w == 0 && c < bytes * 8
    ensures (c / (8 * w) + 1) * w <= bytes
  {
    if w == 4 {
      assert c / 32 < bytes / 4;
    } else {
      assert c / 64 < bytes / 8;
    }
  }

  lemma PartOfWord(bytes: nat, n: nat, w: nat)
    requires (w == 4 || w == 8) && bytes % w != 0 && n <= bytes * 8 < n + 8
    ensures n > 0 && ((n - 1) / (8 * w) + 1) * w > bytes
  {
    if w == 4 {
      assert (n - 1) / 32 == bytes / 4;
    } else {
      assert (n - 1) / 64 == bytes / 8;
    }
  }

  /** A disk of one chunk gets one byte, so its only word is outside. */
  lemma OneChunkIsOutside(total: nat, w: nat)
    requires 0 < total <= CHUNK && (w == 4 || w == 8)
    ensures ChunkCountOf(total) == 1 && BitmapBytes(total) == 1 && !WordInside(total, 0, w)
  {}

  const WORD_BYTES: nat := 4

  lemma InsideIndex(total: nat, c: nat)
    ensures WordInside(total, c, WORD_BYTES) <==> c / BITS < BitmapBytes(total) / WORD_BYTES
    ensures c < ChunkCountOf(total) ==> c / BITS <= BitmapBytes(total) / WORD_BYTES
    ensures c < ChunkCountOf(total) && c / BITS == BitmapBytes(total) / WORD_BYTES ==>
      c % BITS < BitmapBytes(total) % WORD_BYTES * 8
  {}

  /** A word whose first bytes, as many as lie inside the allocation, are zero. */
  ghost predicate ClearInside<W>(o: WordOps<W>, total: nat, word: W) {
    forall j: nat :: j < BitmapBytes(total) % WORD_BYTES * 8 ==> !o.test(word, o.bit(j))
  }

  /** The part of BlockDriverState that tracks writes. */
  class DirtyTracker<W(!new)> {
    const o: WordOps<W>
    const total: nat
    var bitmap: array?<W>  // the words that lie inside the allocation
    var edge: W            // the word that the allocation ends in, if it does not end with a word

    ghost predicate Valid()
      reads this
    {
      bitmap != null ==> bitmap.Length == BitmapBytes(total) / WORD_BYTES
    }

    function Word(idx: nat): W
      requires bitmap != null
      reads this, bitmap
    {
      if idx < bitmap.Length then bitmap[idx] else edge
    }

    /** The bit of chunk c. */
    ghost predicate Marked(c: nat)
      requires Valid() && c < ChunkCountOf(total)
      reads this, bitmap
    {
      bitmap != null && o.test(Word(c / BITS), o.bit(c % BITS))
    }

    constructor (o: WordOps<W>, total: nat)
      ensures Valid() && this.o == o && this.total == total && bitmap == null
    {
      this.o, this.total := o, total;
      bitmap, edge := null, o.zero;
    }

    /**
     * bdrv_set_dirty_tracking: switching on again keeps what is marked.  `memory` is the word that
     * the new allocation ends in, of which only the bytes inside have been cleared.
     */
    method SetDirtyTracking(enable: bool, memory: W)
      requires Valid() && ClearInside(o, total, memory)
      modifies this
      ensures Valid() && (bitmap != null <==> enable)
      ensures enable && old(bitmap) != null ==>
        bitmap == old(bitmap) && bitmap[..] == old(bitmap[..]) && edge == old(edge)
      ensures enable && old(bitmap) == null && (forall j: nat :: j < BITS ==> o.Empty(j)) ==>
        fresh(bitmap) && forall c: nat :: c < ChunkCountOf(total) ==> !Marked(c)
    {
      if enable {
        if bitmap == null {
          bitmap := new W[BitmapBytes(total) / WORD_BYTES](_ => o.zero);
          edge := memory;
          forall c: nat | c < ChunkCountOf(total) && (forall j: nat :: j < BITS ==> o.Empty(j))
            ensures !Marked(c)
          {
            InsideIndex(total, c);
            assert o.Empty(c % BITS);
          }
        }
      } else {
        bitmap := null;
      }
    }

    /** One turn of the loop of set_dirty_bitmap, and whether it stays inside the allocation. */
    method SetBit(start: nat, dirty: bool) returns (ghost inside: bool)
      requires Laws(o) && Valid() && bitmap != null && start < ChunkCountOf(total)
      modifies bitmap, `edge
      ensures forall c: nat :: c < ChunkCountOf(total) ==> (Marked(c) <==> if c == start then dirty else old(Marked(c)))
      ensures inside <==> WordInside(total, start, WORD_BYTES)
      ensures inside ==> edge == old(edge)
    {
      hide ClearInside, WordInside, BitmapBytes, ChunkCountOf;
      InsideIndex(total, start);
      var (idx, bit) := (start / BITS, start % BITS);
      var val := Word(idx);
      var val' := if dirty then o.or(val, o.bit(bit)) else o.andNot(val, o.bit(bit));
      inside := idx < bitmap.Length;
      if idx < bitmap.Length {
        bitmap[idx] := val';
      } else {
        edge := val';
      }
      forall c: nat | c < ChunkCountOf(total)
        ensures Marked(c) <==> if c == start then dirty else old(Marked(c))
      {
        InsideIndex(total, c);
        assert Word(c / BITS) == if c / BITS == idx then val' else old(Word(c / BITS));
        assert o.Sets(val, bit, c % BITS) && o.Clears(val, bit, c % BITS);
        assert c / BITS == idx && c % BITS == bit ==> c == start;
      }
    }

    /** set_dirty_bitmap. */
    method SetDirtyBitmap(sectorNum: nat, nbSectors: nat, dirty: bool) returns (ghost inside: bool)
      requires Laws(o) && Valid() && bitmap != null
      requires sectorNum + nbSectors <= total && sectorNum < total
      modifies bitmap, `edge
      ensures forall c: nat :: c < ChunkCountOf(total) ==>
        (Marked(c) <==> if Visited(sectorNum, nbSectors, c) then dirty else old(Marked(c)))
      ensures inside <==> forall c: nat :: Visited(sectorNum, nbSectors, c) ==> WordInside(total, c, WORD_BYTES)
      ensures inside ==> edge == old(edge)
    {
      hide WordInside, Laws;
      var start, end := ChunkIndex(sectorNum), ChunkIndex(sectorNum + nbSectors - 1);
      inside := true;
      while start <= end
        invariant ChunkIndex(sectorNum) <= start && (start <= end + 1 || start == ChunkIndex(sectorNum))
        invariant forall c: nat :: c < ChunkCountOf(total) ==>
          (Marked(c) <==> if Visited(sectorNum, nbSectors, c) && c < start then dirty else old(Marked(c)))
        invariant inside <==> forall c: nat :: Visited(sectorNum, nbSectors, c) && c < start ==>
          WordInside(total, c, WORD_BYTES)
        invariant inside ==> edge == old(edge)
        decreases end - start
      {
        ghost var one := SetBit(start, dirty);
        inside := inside && one;
        start := start + 1;
      }
    }

    /** bdrv_get_dirty. */
    method GetDirty(sector: nat) returns (r: bool, ghost inside: bool)
      requires Valid()
      ensures r <==> sector < total && Marked(sector / CHUNK)
      ensures inside <==> bitmap == null || sector >= total || WordInside(total, sector / CHUNK, WORD_BYTES)
    {
      inside := true;
      if bitmap != null && sector * SECTOR_SIZE < total * SECTOR_SIZE {
        var chunk := sector / CHUNK;
        InsideIndex(total, chunk);
        inside := chunk / BITS < bitmap.Length;
        r := o.test(Word(chunk / BITS), o.bit(chunk % BITS));
      } else {
        r := false;
      }
    }
  }

  /** The words that a request visits lie inside exactly if the last of them does. */
  lemma LastWordDecides(total: nat, sector: nat, n: nat)
    requires Visited(sector, n, ChunkIndex(sector))
    ensures (forall c: nat :: Visited(sector, n, c) ==> WordInside(total, c, WORD_BYTES))
      <==> WordInside(total, ChunkIndex(sector + n - 1), WORD_BYTES)
  {
    var last := ChunkIndex(sector + n - 1);
    assert Visited(sector, n, last);
    forall c: nat | Visited(sector, n, c) && WordInside(total, last, WORD_BYTES)
      ensures WordInside(total, c, WORD_BYTES)
    {
      InsideIndex(total, c);
      InsideIndex(total, last);
    }
  }

  // Histories.

  /** What happened to a tracked disk: writes and resets, each with sectors in it. */
  datatype Event = Event(sector: nat, n: nat, dirty: bool)

  /** The bit of chunk c after some events, by what set_dirty_bitmap does for each. */
  function BitAfter(events: seq<Event>, c: nat): bool {
    if |events| == 0 then false
    else
      var e := events[|events| - 1];
      if Visited(e.sector, e.n, c) then e.dirty else BitAfter(events[..|events| - 1], c)
  }

  /** Event i is a write that touched c, and no reset after it did. */
  ghost predicate Stands(events: seq<Event>, c: nat, i: nat) {
    && i < |events| && events[i].dirty && Visited(events[i].sector, events[i].n, c)
    && (forall j :: i < j < |events| && !events[j].dirty ==> !Visited(events[j].sector, events[j].n, c))
  }

  /** A chunk is marked exactly when some write touched it and no later reset did. */
  lemma {:induction false} MarkedSinceReset(events: seq<Event>, c: nat)
    ensures BitAfter(events, c) <==> exists i :: Stands(events, c, i)
    decreases |events|
  {
    if |events| > 0 {
      var (front, e) := (events[..|events| - 1], events[|events| - 1]);
      MarkedSinceReset(front, c);
      if Visited(e.sector, e.n, c) {
        if e.dirty {
          assert Stands(events, c, |events| - 1);
        }
      } else {
        if i :| Stands(front, c, i) {
          assert Stands(events, c, i);
        }
        if i :| Stands(events, c, i) {
          assert Stands(front, c, i);
        }
      }
    }
  }

  /**
   * From switching tracking on, through any writes and resets, to bdrv_get_dirty: a sector of the
   * disk is dirty exactly if some write touched its chunk and no later reset did.
   */
  method DirtyAfter<W(!new)>(o: WordOps<W>, total: nat, memory: W, events: seq<Event>, sector: nat)
      returns (dirty: bool)
    requires Laws(o) && ClearInside(o, total, memory)
    requires forall i :: 0 <= i < |events| ==> events[i].sector + events[i].n <= total && events[i].sector < total
    ensures dirty <==> sector < total && exists i :: Stands(events, sector / CHUNK, i)
  {
    hide Laws, ClearInside, Stands, Visited, ChunkCountOf, BitmapBytes;
    var t := new DirtyTracker(o, total);
    LawsEmpty(o);
    t.SetDirtyTracking(true, memory);
    var k := 0;
    while k < |events|
      invariant k <= |events| && t.Valid() && t.bitmap != null && fresh(t) && fresh(t.bitmap) && t.o == o &&
        t.total == total
      invariant forall c: nat :: c < ChunkCountOf(total) ==> (t.Marked(c) <==> BitAfter(events[..k], c))
    {
      var e := events[k];
      ghost var inside := t.SetDirtyBitmap(e.sector, e.n, e.dirty);
      assert events[..k + 1][..k] == events[..k] && events[..k + 1][k] == e;
      k := k + 1;
    }
    ghost var inside;
    dirty, inside := t.GetDirty(sector);
    assert events[..|events|] == events;
    if sector < total {
      ChunkOfSector(total, sector);
      MarkedSinceReset(events, sector / CHUNK);
    }
  }

  lemma LawsEmpty<W(!new)>(o: WordOps<W>)
    requires Laws(o)
    ensures forall j: nat :: j < BITS ==> o.Empty(j)
  {}

  lemma ChunkOfSector(total: nat, sector: nat)
    requires sector < total
    ensures sector / CHUNK < ChunkCountOf(total)
  {}
}
