/**
 * The buffered migration file (qemu/buffered_file.c:49-239): bytes pass through a growing buffer
 * to a backend that may take less than it is given, ask to be called again, or fail.
 */
module BufferedFile {
  import opened Errno

  class QemuFileBuffered<T(0)> {
    var hasError: bool
    var freezeOutput: bool
    var bytesXfer: nat
    var xferLimit: nat
    var buffer: array<T>
    var bufferSize: nat
    var stalls: nat              // how often the backend will still answer EAGAIN
    var faults: nat              // and how often it will still fail
    ghost var delivered: seq<T>  // what the backend has taken
    ghost var given: seq<T>      // what has been put

    /** As long as there is no error, what was taken and what is buffered is what was put. */
    ghost predicate Valid()
      reads this, buffer
    {
      bufferSize <= buffer.Length && (!hasError ==> delivered + buffer[..bufferSize] == given)
    }

    /** An error is new exactly if the backend has failed, and a freeze exactly if it has stalled. */
    ghost predicate Counted(hadError: bool, wasFrozen: bool, stallsThen: nat, faultsThen: nat)
      reads this
    {
      && stalls <= stallsThen && faults <= faultsThen
      && (hasError <==> hadError || faults < faultsThen)
      && (freezeOutput <==> wasFrozen || stalls < stallsThen)
    }

    constructor (bytesPerSec: nat, stalls: nat, faults: nat)
      ensures Valid() && fresh(buffer) && !hasError && given == []
    {
      hasError, freezeOutput, bytesXfer, xferLimit := false, false, 0, bytesPerSec / 10;
      buffer := new T[0];
      bufferSize := 0;
      this.stalls, this.faults := stalls, faults;
      delivered, given := [], [];
    }

    /** The backend's put_buffer: takes a positive part of the data, or returns an error. */
    method Backend(data: seq<T>) returns (ret: int)
      requires |data| > 0
      modifies `delivered, `stalls, `faults
      ensures ret <= |data| && delivered == old(delivered) + (if ret > 0 then data[..ret] else [])
      ensures stalls == if ret == -EAGAIN then old(stalls) - 1 else old(stalls)
      ensures faults == if ret <= 0 && ret != -EAGAIN then old(faults) - 1 else old(faults)
    {
      ret := *;
      if ret > |data| || (ret == -EAGAIN && stalls == 0) || (ret <= 0 && ret != -EAGAIN && faults == 0) {
        ret := |data|;
      }
      if ret == -EAGAIN {
        stalls := stalls - 1;
      } else if ret <= 0 {
        faults := faults - 1;
      }
      delivered := delivered + (if ret > 0 then data[..ret] else []);
    }

    /** buffered_append. */
    method Append(data: seq<T>)
      requires bufferSize <= buffer.Length
      modifies this`buffer, this`bufferSize, buffer
      ensures buffer == old(buffer) || fresh(buffer)
      ensures bufferSize == old(bufferSize) + |data| <= buffer.Length
      ensures buffer[..bufferSize] == old(buffer[..bufferSize]) + data
    {
      if |data| > buffer.Length - bufferSize {
        var tmp := new T[buffer.Length + |data| + 1024];
        forall i | 0 <= i < bufferSize {
          tmp[i] := buffer[i];
        }
        buffer := tmp;
      }
      forall i | 0 <= i < |data| {
        buffer[bufferSize + i] := data[i];
      }
      bufferSize := bufferSize + |data|;
    }

    /** The loop of buffered_flush: how much of the buffer the backend takes. */
    method SendBuffer() returns (offset: nat)
      requires bufferSize <= buffer.Length && !hasError
      modifies this`hasError, this`freezeOutput, this`delivered, this`stalls, this`faults
      ensures offset <= bufferSize && delivered == old(delivered) + buffer[..offset]
      ensures Counted(old(hasError), old(freezeOutput), old(stalls), old(faults))
      ensures offset < bufferSize <==> stalls < old(stalls) || faults < old(faults)
    {
      offset := 0;
      while offset < bufferSize
        invariant offset <= bufferSize && delivered == old(delivered) + buffer[..offset] && !hasError
        invariant stalls == old(stalls) && faults == old(faults) && freezeOutput == old(freezeOutput)
        decreases bufferSize - offset
      {
        var ret := Backend(buffer[offset..bufferSize]);
        if ret == -EAGAIN {
          freezeOutput := true;
          break;
        }
        if ret <= 0 {
          hasError := true;
          break;
        }
        assert buffer[..offset] + buffer[offset..bufferSize][..ret] == buffer[..offset + ret];
        offset := offset + ret;
      }
    }

    /** buffered_flush. */
    method Flush()
      requires Valid()
      modifies this`hasError, this`freezeOutput, this`bufferSize, this`delivered, this`stalls, this`faults, buffer
      ensures Valid() && given == old(given) && Counted(old(hasError), old(freezeOutput), old(stalls), old(faults))
      ensures old(hasError) ==>
        delivered == old(delivered) && bufferSize == old(bufferSize) && stalls == old(stalls) && faults == old(faults)
      ensures old(delivered) <= delivered && delivered + buffer[..bufferSize] == old(delivered + buffer[..bufferSize])
      ensures !old(hasError) ==> (bufferSize > 0 <==> stalls < old(stalls) || faults < old(faults))
    {
      if hasError {
        return;
      }
      ghost var was := buffer[..bufferSize];
      var offset := SendBuffer();
      assert was == buffer[..offset] + buffer[offset..bufferSize];
      Discard(offset);
    }

    /** The memmove at the end of buffered_flush. */
    method Discard(offset: nat)
      requires offset <= bufferSize <= buffer.Length
      modifies this`bufferSize, buffer
      ensures bufferSize == old(bufferSize) - offset && buffer[..bufferSize] == old(buffer[offset..bufferSize])
    {
      var n := bufferSize - offset;
      forall i | 0 <= i < n {
        buffer[i] := buffer[offset + i];
      }
      bufferSize := n;
    }

    /** The loop of buffered_put_buffer: past the buffer, straight to the backend; negative on an error. */
    method PutDirect(data: seq<T>) returns (offset: int)
      modifies this`delivered, this`stalls, this`faults, this`freezeOutput, this`bytesXfer, this`hasError
      ensures Counted(old(hasError), old(freezeOutput), old(stalls), old(faults)) &&
        (offset < 0 <==> faults < old(faults))
      ensures offset == -EINVAL || (0 <= offset <= |data| && delivered == old(delivered) + data[..offset])
      ensures old(freezeOutput) ==> offset == 0 && freezeOutput
      ensures offset >= 0 ==> bytesXfer == old(bytesXfer) + offset
      ensures offset == -EINVAL || offset == |data| || freezeOutput || bytesXfer > xferLimit
    {
      offset := 0;
      while !freezeOutput && offset < |data|
        invariant 0 <= offset <= |data| && delivered == old(delivered) + data[..offset]
        invariant hasError == old(hasError) && (old(freezeOutput) ==> freezeOutput && offset == 0)
        invariant faults == old(faults) && stalls <= old(stalls) &&
          (freezeOutput <==> old(freezeOutput) || stalls < old(stalls))
        invariant bytesXfer == old(bytesXfer) + offset
        decreases |data| - offset
      {
        if bytesXfer > xferLimit {
          break;
        }
        var ret := Backend(data[offset..]);
        if ret == -EAGAIN {
          freezeOutput := true;
          break;
        }
        if ret <= 0 {
          hasError := true;
          return -EINVAL;
        }
        assert data[..offset] + data[offset..][..ret] == data[..offset + ret];
        offset := offset + ret;
        bytesXfer := bytesXfer + ret;
      }
    }

    /** buffered_put_buffer. */
    method PutBuffer(data: seq<T>) returns (r: int)
      requires Valid()
      modifies this, buffer
      ensures Valid() && (buffer == old(buffer) || fresh(buffer)) && xferLimit == old(xferLimit)
      ensures old(hasError) ==> r == -EINVAL && given == old(given) && delivered == old(delivered)
      ensures !hasError ==> r == |data| && given == old(given) + data
      ensures r == |data| || r == -EINVAL
      ensures Counted(old(hasError), old(hasError && freezeOutput), old(stalls), old(faults))
      ensures r != |data| ==> hasError
    {
      if hasError {
        return -EINVAL;
      }
      freezeOutput := false;
      Flush();
      ghost var (sent, kept) := (delivered, buffer[..bufferSize]);
      given := given + data;
      var offset := PutDirect(data);
      if offset < 0 {
        return offset;
      }
      if !hasError {
        InOrder(sent, kept, data, offset);
      }
      Append(data[offset..]);
      r := |data|;
    }

    /** buffered_rate_limit: whether to hold back. */
    method RateLimit() returns (limited: bool)
      ensures limited <==> !hasError && (freezeOutput || bytesXfer > xferLimit)
    {
      limited := !hasError && (freezeOutput || bytesXfer > xferLimit);
    }

    /** buffered_set_rate_limit. */
    method SetRateLimit(newRate: nat) returns (limit: nat)
      requires Valid()
      modifies this`xferLimit
      ensures Valid() && limit == xferLimit == if hasError then old(xferLimit) else newRate / 10
    {
      if !hasError {
        xferLimit := newRate / 10;
      }
      limit := xferLimit;
    }

    /** buffered_rate_tick, without the callback it ends with. */
    method RateTick()
      requires Valid()
      modifies this`hasError, this`freezeOutput, this`bufferSize, this`delivered, this`stalls, this`faults,
        this`bytesXfer, buffer
      ensures Valid() && given == old(given) && Counted(old(hasError), old(freezeOutput), old(stalls), old(faults))
      ensures old(hasError || freezeOutput) ==>
        delivered == old(delivered) && bytesXfer == old(bytesXfer) && bufferSize == old(bufferSize)
      ensures !old(hasError || freezeOutput) ==> bytesXfer == 0 && (!hasError && !freezeOutput ==> delivered == given)
    {
      if hasError || freezeOutput {
        return;
      }
      bytesXfer := 0;
      Flush();
    }

    /** The loop of buffered_close; waiting for the backend leaves the file as it is. */
    method Close()
      requires Valid()
      modifies this`hasError, this`freezeOutput, this`bufferSize, this`delivered, this`stalls, this`faults, buffer
      ensures Valid() && given == old(given) && Counted(old(hasError), old(freezeOutput), old(stalls), old(faults))
      ensures !hasError ==> delivered == given
    {
      while !hasError && bufferSize > 0
        invariant Valid() && given == old(given) && Counted(old(hasError), old(freezeOutput), old(stalls), old(faults))
        decreases !hasError, stalls, bufferSize
      {
        Flush();
      }
    }
  }

  /** Going past the buffer keeps the order only when the buffer is empty or nothing goes past it. */
  lemma InOrder<T>(sent: seq<T>, kept: seq<T>, data: seq<T>, offset: nat)
    requires offset <= |data| && (kept == [] || offset == 0)
    ensures (sent + data[..offset]) + (kept + data[offset..]) == (sent + kept) + data
  {}
}
