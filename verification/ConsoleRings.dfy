/** The two rings of qemu/console.c: the byte queue (58-107) and the rows of the screen (681-703). */
module ConsoleRings {
  import opened Splices

  /** An index that may have run past the end of a ring once. */
  function Wrap(i: nat, size: nat): (r: nat)
    requires i < 2 * size
    ensures r < size
  {
    if i < size then i else i - size
  }

  class Fifo<T(0)> {
    var buf: array<T>
    var count: nat
    var wptr: nat
    var rptr: nat

    ghost predicate Valid()
      reads this
    {
      && buf.Length > 0 && rptr < buf.Length && wptr < buf.Length && count <= buf.Length
      && wptr == Wrap(rptr + count, buf.Length)
    }

    /** The queue: oldest byte first. */
    ghost function Contents(): (s: seq<T>)
      requires Valid()
      reads this, buf
      ensures |s| == count
    {
      Ring(buf[..], rptr, count)
    }

    constructor (size: nat)
      requires size > 0
      ensures Valid() && fresh(buf) && buf.Length == size && Contents() == []
    {
      buf := new T[size];
      count, wptr, rptr := 0, 0, 0;
    }

    /** qemu_fifo_write: as much as there is room for. */
    method Write(data: seq<T>) returns (len1: nat)
      requires Valid()
      modifies this`count, this`wptr, buf
      ensures Valid() && len1 == (if |data| < buf.Length - old(count) then |data| else buf.Length - old(count))
      ensures Contents() == old(Contents()) + data[..len1]
    {
      hide Ring, Wrap;
      ghost var before := Contents();
      var l := buf.Length - count;
      len1 := if |data| > l then l else |data|;
      var len: nat, pos: nat := len1, 0;
      assert before + data[..0] == before;
      while len > 0
        invariant pos + len == len1 && wptr < buf.Length && count == old(count)
        invariant rptr + (count + pos) < 2 * buf.Length && wptr == Wrap(rptr + (count + pos), buf.Length)
        invariant Ring(buf[..], rptr, count + pos) == before + data[..pos]
      {
        l := buf.Length - wptr;
        if l > len {
          l := len;
        }
        CopyIn(data[pos..pos + l], count + pos);
        assert (before + data[..pos]) + data[pos..pos + l] == before + data[..pos + l];
        pos := pos + l;
        len := len - l;
      }
      count := count + len1;
    }

    /** One memcpy of qemu_fifo_write, behind the n bytes already queued, and the step of its pointer. */
    method CopyIn(data: seq<T>, n: nat)
      requires rptr < buf.Length && n + |data| <= buf.Length && wptr == Wrap(rptr + n, buf.Length) &&
        wptr + |data| <= buf.Length
      modifies this`wptr, buf
      ensures Ring(buf[..], rptr, n + |data|) == old(Ring(buf[..], rptr, n)) + data
      ensures wptr == Wrap(rptr + (n + |data|), buf.Length)
    {
      hide Ring, Wrap;
      ghost var was := buf[..];
      forall i | 0 <= i < |data| {
        buf[wptr + i] := data[i];
      }
      RingMore(was, buf[..], rptr, n, wptr, data);
      WrapOn(rptr + n, |data|, buf.Length);
      wptr := wptr + |data|;
      if wptr >= buf.Length {
        wptr := 0;
      }
    }

    /** qemu_fifo_read: as much as there is. */
    method Read(len0: nat) returns (data: seq<T>)
      requires Valid()
      modifies this`count, this`rptr
      ensures Valid() && |data| == (if len0 < old(count) then len0 else old(count))
      ensures old(Contents()) == data + Contents()
    {
      hide Ring, Wrap, Splice;
      var len1 := if len0 > count then count else len0;
      var len: nat := len1;
      data := [];
      ghost var before := Contents();
      assert [] + before == before;
      WrapAt(rptr, 0, buf.Length);
      ghost var start := rptr;
      while len > 0
        invariant |data| + len == len1 <= count && rptr < buf.Length && count == old(count)
        invariant rptr == Wrap(start + |data|, buf.Length)
        invariant before == data + Ring(buf[..], rptr, count - |data|)
      {
        var l := buf.Length - rptr;
        if l > len {
          l := len;
        }
        var part := CopyOut(l, count - |data|, start, |data|);
        ReadOn(before, data, part, Ring(buf[..], rptr, count - |data| - l));
        data := data + part;
        len := len - l;
      }
      WrapTwice(start, |data|, count - len1, buf.Length);
      count := count - len1;
    }

    /** One memcpy of qemu_fifo_read, of the first l of n queued bytes, and the step of its pointer. */
    method CopyOut(l: nat, n: nat, ghost start: nat, ghost done: nat) returns (part: seq<T>)
      requires rptr < buf.Length && l <= n && done + n <= buf.Length && rptr + l <= buf.Length
      requires start < buf.Length && rptr == Wrap(start + done, buf.Length)
      modifies this`rptr
      ensures rptr == Wrap(start + (done + l), buf.Length) && |part| == l
      ensures old(Ring(buf[..], rptr, n)) == part + Ring(buf[..], rptr, n - l)
    {
      hide Ring, Wrap;
      RingSplit(buf[..], rptr, n, l);
      WrapOn(start + done, l, buf.Length);
      WrapAt(rptr, l, buf.Length);
      part := buf[rptr..rptr + l];
      assert buf[..][rptr..rptr + l] == part;
      rptr := rptr + l;
      if rptr >= buf.Length {
        rptr := 0;
      }
    }
  }

  /** n bytes of a ring from index r. */
  function Ring<T>(buf: seq<T>, r: nat, n: nat): (s: seq<T>)
    requires r < |buf| && n <= |buf|
    ensures |s| == n
  {
    seq(n, i requires 0 <= i < n => buf[Wrap(r + i, |buf|)])
  }

  lemma ReadOn<T>(all: seq<T>, data: seq<T>, part: seq<T>, rest: seq<T>)
    requires all == data + (part + rest)
    ensures all == (data + part) + rest
  {
    Associates(data, part, rest);
  }

  /** Moving on inside a ring, not past its end. */
  lemma WrapOn(i: nat, l: nat, size: nat)
    requires i + l < 2 * size && Wrap(i, size) + l <= size
    ensures Wrap(i + l, size) == if Wrap(i, size) + l == size then 0 else Wrap(i, size) + l
  {}

  lemma WrapAt(i: nat, l: nat, size: nat)
    requires i < size && i + l <= size
    ensures Wrap(i + l, size) == if i + l == size then 0 else i + l
  {}

  lemma WrapTwice(i: nat, j: nat, k: nat, size: nat)
    requires i < size && j + k <= size
    ensures Wrap(Wrap(i + j, size) + k, size) == Wrap(i + (j + k), size)
  {}

  lemma RingSplit<T>(buf: seq<T>, r: nat, n: nat, l: nat)
    requires r < |buf| && l <= n <= |buf| && r + l <= |buf|
    ensures Ring(buf, r, n) == buf[r..r + l] + Ring(buf, Wrap(r + l, |buf|), n - l)
  {
    forall k | 0 <= k < n
      ensures Ring(buf, r, n)[k] == (buf[r..r + l] + Ring(buf, Wrap(r + l, |buf|), n - l))[k]
    {
      if k >= l {
        WrapTwice(r, l, k - l, |buf|);
        assert Ring(buf, Wrap(r + l, |buf|), n - l)[k - l] == buf[Wrap(r + k, |buf|)];
      } else {
        assert buf[r..r + l][k] == buf[Wrap(r + k, |buf|)];
      }
    }
  }

  lemma RingMore<T>(buf: seq<T>, buf': seq<T>, r: nat, n: nat, at: nat, data: seq<T>)
    requires r < |buf| == |buf'| && n + |data| <= |buf| && at == Wrap(r + n, |buf|) && at + |data| <= |buf|
    requires forall i :: 0 <= i < |buf| ==> buf'[i] == if at <= i < at + |data| then data[i - at] else buf[i]
    ensures Ring(buf', r, n + |data|) == Ring(buf, r, n) + data
  {
    forall k | 0 <= k < n + |data|
      ensures Ring(buf', r, n + |data|)[k] == (Ring(buf, r, n) + data)[k]
    {
      var i := Wrap(r + k, |buf|);
      if k < n {
        assert !(at <= i < at + |data|);
      } else {
        assert i == at + (k - n);
      }
    }
  }

  // The screen.

  /** A TextConsole's rows: `cells` holds all of them, of which `height` from `yBase` on are the screen. */
  class Screen<C> {
    const width: nat
    const height: nat
    const totalHeight: nat
    const cells: array<C>
    const blank: C
    var y: nat
    var yBase: nat
    var yDisplayed: nat
    var backscrollHeight: nat

    ghost predicate Valid()
      reads this
    {
      && 1 <= height <= totalHeight && cells.Length == width * totalHeight
      && yBase < totalHeight && yDisplayed < totalHeight && y < height && backscrollHeight <= totalHeight
    }

    constructor (width: nat, height: nat, totalHeight: nat, cells: array<C>, blank: C)
      requires 1 <= height <= totalHeight && cells.Length == width * totalHeight
      ensures Valid() && y == yBase == yDisplayed == backscrollHeight == 0
    {
      this.width, this.height, this.totalHeight, this.cells, this.blank := width, height, totalHeight, cells, blank;
      y, yBase, yDisplayed, backscrollHeight := 0, 0, 0, 0;
    }

    /** Row i of the screen. */
    ghost function Visible(i: nat): seq<C>
      requires Valid() && i < height
      reads this, cells
    {
      Row(cells[..], width, Wrap(yBase + i, totalHeight), totalHeight)
    }

    /** console_put_lf, without the redrawing. */
    method PutLf()
      requires Valid()
      modifies this, cells
      ensures Valid()
      ensures old(y) + 1 < height ==> y == old(y) + 1 && yBase == old(yBase) && cells[..] == old(cells[..])
      ensures old(y) + 1 >= height ==> y == height - 1
      ensures old(y) + 1 >= height ==> forall i: nat :: i < height - 1 ==> Visible(i) == old(Visible(i + 1))
      ensures old(y) + 1 >= height ==> Visible(height - 1) == seq(width, _ => blank)
      ensures old(y) + 1 >= height ==> yBase == Wrap(old(yBase) + 1, totalHeight)
      ensures old(y) + 1 >= height ==>
        forall r: nat :: r < totalHeight && r != Wrap(yBase + height - 1, totalHeight) ==>
          Row(cells[..], width, r, totalHeight) == old(Row(cells[..], width, r, totalHeight))
      ensures old(y) + 1 >= height ==>
        backscrollHeight == if old(backscrollHeight) < totalHeight then old(backscrollHeight) + 1 else totalHeight
      ensures old(yDisplayed == yBase) ==> yDisplayed == yBase
      ensures old(yDisplayed != yBase) ==> yDisplayed == old(yDisplayed)
    {
      hide Row, Wrap;
      y := y + 1;
      if y >= height {
        y := height - 1;
        Scroll();
        var y1 := (yBase + height - 1) % totalHeight;
        ModIsWrap(yBase + height - 1, totalHeight);
        BlankRow(y1);
        forall i: nat | i < height - 1
          ensures Visible(i) == old(Visible(i + 1))
        {
          NextRow(old(yBase), i, height, totalHeight);
        }
      }
    }

    /** How console_put_lf moves the screen one row on; the displayed rows follow if they were the screen. */
    method Scroll()
      requires Valid()
      modifies `yBase, `yDisplayed, `backscrollHeight
      ensures Valid() && yBase == Wrap(old(yBase) + 1, totalHeight)
      ensures yDisplayed == if old(yDisplayed == yBase) then yBase else old(yDisplayed)
      ensures backscrollHeight == if old(backscrollHeight) < totalHeight then old(backscrollHeight) + 1 else totalHeight
    {
      if yDisplayed == yBase {
        yDisplayed := yDisplayed + 1;
        if yDisplayed == totalHeight {
          yDisplayed := 0;
        }
      }
      yBase := yBase + 1;
      if yBase == totalHeight {
        yBase := 0;
      }
      if backscrollHeight < totalHeight {
        backscrollHeight := backscrollHeight + 1;
      }
    }

    /** The loop of console_put_lf. */
    method BlankRow(y1: nat)
      requires Valid() && y1 < totalHeight
      modifies cells
      ensures Row(cells[..], width, y1, totalHeight) == seq(width, _ => blank)
      ensures forall r: nat :: r < totalHeight && r != y1 ==>
        Row(cells[..], width, r, totalHeight) == old(Row(cells[..], width, r, totalHeight))
    {
      hide Row;
      RowBounds(y1, width, totalHeight);
      ghost var was := cells[..];
      var c := y1 * width;
      var x := 0;
      while x < width
        invariant 0 <= x <= width
        invariant Blanked(was, cells[..], c, x, blank)
      {
        cells[c + x] := blank;
        x := x + 1;
      }
      RowsAfter(was, cells[..], width, y1, totalHeight, blank);
    }
  }

  /** The cells of row r of a ring of rows. */
  ghost function Row<C>(cells: seq<C>, width: nat, r: nat, total: nat): (s: seq<C>)
    requires r < total && |cells| == width * total
    ensures |s| == width
  {
    RowBounds(r, width, total);
    cells[r * width..r * width + width]
  }

  /** The cells of a ring after `width` of them from c on have been made blank. */
  ghost predicate Blanked<C>(was: seq<C>, cells: seq<C>, c: nat, width: nat, blank: C) {
    |was| == |cells| && forall k :: 0 <= k < |cells| ==> cells[k] == if c <= k < c + width then blank else was[k]
  }

  lemma BlankedAt<C>(was: seq<C>, cells: seq<C>, c: nat, width: nat, blank: C, from: nat)
    requires Blanked(was, cells, c, width, blank) && from + width <= |cells|
    ensures from == c ==> cells[from..from + width] == seq(width, _ => blank)
    ensures from + width <= c || c + width <= from ==> cells[from..from + width] == was[from..from + width]
  {}

  lemma RowAfter<C>(was: seq<C>, cells: seq<C>, width: nat, s: nat, total: nat, blank: C, r: nat)
    requires s < total && r < total && |was| == |cells| == width * total && Blanked(was, cells, s * width, width, blank)
    ensures Row(cells, width, r, total) == if r == s then seq(width, _ => blank) else Row(was, width, r, total)
  {
    hide Blanked;
    RowBounds(r, width, total);
    if r != s {
      RowsApart(r, s, width, total);
    }
    BlankedAt(was, cells, s * width, width, blank, r * width);
  }

  /** A ring of rows after row s has been made blank. */
  lemma RowsAfter<C>(was: seq<C>, cells: seq<C>, width: nat, s: nat, total: nat, blank: C)
    requires s < total && |was| == |cells| == width * total && Blanked(was, cells, s * width, width, blank)
    ensures Row(cells, width, s, total) == seq(width, _ => blank)
    ensures forall r: nat :: r < total && r != s ==> Row(cells, width, r, total) == Row(was, width, r, total)
  {
    hide Blanked, Row;
    RowAfter(was, cells, width, s, total, blank, s);
    forall r: nat | r < total && r != s
      ensures Row(cells, width, r, total) == Row(was, width, r, total)
    {
      RowAfter(was, cells, width, s, total, blank, r);
    }
  }

  lemma ModIsWrap(i: nat, size: nat)
    requires i < 2 * size
    ensures i % size == Wrap(i, size)
  {}

  /** After scrolling from base b, row i of the screen is what row i + 1 was, and not the last row. */
  lemma NextRow(b: nat, i: nat, height: nat, total: nat)
    requires b < total && i + 1 < height <= total
    ensures Wrap(Wrap(b + 1, total) + i, total) == Wrap(b + (i + 1), total) !=
      Wrap(Wrap(b + 1, total) + height - 1, total)
  {}

  lemma Times(r: nat, s: nat, width: nat)
    requires r < s
    ensures r * width + width <= s * width
  {
    assert s * width == r * width + width + (s - r - 1) * width;
  }

  lemma RowBounds(r: nat, width: nat, total: nat)
    requires r < total
    ensures r * width + width <= width * total
  {
    Times(r, total, width);
  }

  lemma RowsApart(r: nat, s: nat, width: nat, total: nat)
    requires r < total && s < total && r != s
    ensures r * width + width <= s * width || s * width + width <= r * width
  {
    if r < s {
      Times(r, s, width);
    } else {
      Times(s, r, width);
    }
  }
}
