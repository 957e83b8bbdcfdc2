/** Completion of a multiwrite (qemu/block.c:1605-1635, 1731-1781): every user callback runs once. */
module MultiwriteCompletion {
  import opened Errno

  /** The first error among the results of the requests, in the order in which they complete. */
  function FirstError(error: int, rets: seq<int>): int {
    if error != 0 || |rets| == 0 then error
    else FirstError(if rets[0] < 0 then rets[0] else 0, rets[1..])
  }

  /** It is an error of some request, and none if there is none. */
  lemma {:induction false} FirstErrorIs(rets: seq<int>)
    ensures FirstError(0, rets) == 0 <==> forall i :: 0 <= i < |rets| ==> rets[i] >= 0
    ensures FirstError(0, rets) != 0 ==>
      exists i :: 0 <= i < |rets| && rets[i] == FirstError(0, rets) < 0 && forall j :: 0 <= j < i ==> rets[j] >= 0
  {
    if |rets| > 0 {
      if rets[0] < 0 {
        assert FirstError(0, rets) == rets[0];
      } else {
        FirstErrorIs(rets[1..]);
        if FirstError(0, rets) != 0 {
          var i :| 0 <= i < |rets[1..]| && rets[1..][i] == FirstError(0, rets[1..]) < 0 && forall j :: 0 <= j < i ==>
            rets[1..][j] >= 0;
          assert rets[i + 1] == FirstError(0, rets);
          forall j | 0 <= j < i + 1
            ensures rets[j] >= 0
          {
            assert j > 0 ==> rets[j] == rets[1..][j - 1];
          }
        } else {
          forall j | 0 <= j < |rets|
            ensures rets[j] >= 0
          {
            assert j > 0 ==> rets[j] == rets[1..][j - 1];
          }
        }
      }
    }
  }

  class MultiwriteCB {
    const numCallbacks: nat
    var error: int
    var numRequests: int
    var calls: seq<seq<int>>   // for each user callback, the results it was run with
    var freed: bool

    ghost predicate AllCalled(results: seq<int>)
      reads this
    {
      |calls| == numCallbacks && forall i :: 0 <= i < numCallbacks ==> calls[i] == results
    }

    /** Before the control block is freed: the callbacks have run exactly if there was an error. */
    ghost predicate Valid()
      reads this
    {
      error <= 0 && numRequests >= 0 && !freed && AllCalled(if error == 0 then [] else [error])
    }

    constructor (numReqs: nat)
      ensures Valid() && error == 0 && numRequests == 0 && numCallbacks == numReqs
    {
      numCallbacks := numReqs;
      error, numRequests, freed := 0, 0, false;
      calls := seq(numReqs, _ => []);
    }

    /** multiwrite_user_cb. */
    method UserCb()
      requires AllCalled([])
      modifies `calls
      ensures AllCalled([error])
    {
      var i := 0;
      while i < numCallbacks
        invariant i <= numCallbacks && |calls| == numCallbacks
        invariant forall k :: 0 <= k < i ==> calls[k] == [error]
        invariant forall k :: i <= k < numCallbacks ==> calls[k] == []
      {
        calls := calls[i := calls[i] + [error]];
        i := i + 1;
      }
    }

    /** multiwrite_cb. */
    method Cb(ret: int)
      requires Valid() && numRequests > 0
      modifies this
      ensures error == FirstError(old(error), [ret]) && numRequests == old(numRequests) - 1
      ensures freed <==> numRequests == 0
      ensures if freed then AllCalled([error]) else Valid()
    {
      assert [ret][1..] == [];
      if ret < 0 && error == 0 {
        error := ret;
        UserCb();
      }
      numRequests := numRequests - 1;
      if numRequests == 0 {
        if error == 0 {
          UserCb();
        }
        freed := true;
      }
    }

    /**
     * bdrv_aio_multiwrite for n merged requests, any of which the driver may refuse.  Nothing is
     * called back when it fails; otherwise as many completions are to come as were submitted.
     */
    method Submit(n: nat) returns (status: int, ghost submitted: nat)
      requires Valid() && error == 0 && numRequests == 0 && n > 0
      modifies this
      ensures status == 0 || status == -1
      ensures status == -1 ==> freed && AllCalled([]) && submitted == 0
      ensures status == 0 ==> Valid() && 0 < submitted <= n && numRequests == submitted
      ensures status == 0 ==> error == if submitted == n then 0 else -EIO
    {
      status := 0;
      var i := 0;
      while i < n
        invariant i <= n && Valid() && error == 0 && numRequests == i && status == 0
      {
        var refused: bool := *;
        if refused {
          if numRequests == 0 {
            freed := true;
            return -1, 0;
          }
          numRequests := numRequests + 1;
          Cb(-EIO);
          return 0, i;
        }
        numRequests := numRequests + 1;
        i := i + 1;
      }
      submitted := n;
    }

    /**
     * All completions, in any order and with any results: every user callback has then run exactly
     * once, with the first error or 0, and the control block is freed with the last one.
     */
    method CompleteAll(rets: seq<int>)
      requires Valid() && numRequests == |rets| && |rets| > 0
      modifies this
      ensures freed && AllCalled([FirstError(old(error), rets)])
    {
      var i := 0;
      while i < |rets|
        invariant i <= |rets| && numRequests == |rets| - i
        invariant FirstError(error, rets[i..]) == FirstError(old(error), rets)
        invariant if i == |rets| then freed && AllCalled([error]) else Valid()
      {
        assert rets[i..][0] == rets[i] && rets[i..][1..] == rets[i + 1..];
        assert [rets[i]][1..] == [];
        Cb(rets[i]);
        i := i + 1;
      }
    }
  }
}
