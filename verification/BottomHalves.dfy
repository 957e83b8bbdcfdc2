/**
 * Bottom halves and asynchronous contexts (qemu/async.c:47-195).  Callbacks are left open: they
 * may create, schedule, cancel and delete halves, and enter and leave contexts, but they do not
 * poll the context they run in.
 */
module BottomHalves {

  /** QEMUBH without its callback and link. */
  datatype Half = Half(scheduled: bool, idle: bool, deleted: bool) {
    predicate Due() { scheduled && !deleted }
    function Work(): nat { if scheduled && !idle then 1 else 0 }
    function IdleWork(): nat { if scheduled && idle then 1 else 0 }
  }

  /**
   * The history of a half: how often it was run and how often scheduling it took effect, apart for
   * idle and other work, and how often it was cancelled or deleted.
   */
  datatype Count = Count(ran: nat, ranIdle: nat, asked: nat, askedIdle: nat, dropped: nat) {
    function Runs(): nat { ran + ranIdle }
  }

  const NO_COUNT := Count(0, 0, 0, 0, 0)

  /**
   * All halves ever made, by number, and the lists of the contexts, the active one last.  `budget`
   * bounds what the callbacks still do.
   */
  datatype State = State(halves: seq<Half>, stack: seq<seq<nat>>, counts: seq<Count>, budget: nat) {
    function Top(): seq<nat>
      requires |stack| > 0
    {
      stack[|stack| - 1]
    }

    function Outer(): seq<seq<nat>>
      requires |stack| > 0
    {
      stack[..|stack| - 1]
    }
  }

  /** What is scheduled, and what has run, was asked for. */
  ghost predicate Paid(a: Half, m: Count) { a.Work() + m.ran <= m.asked && a.IdleWork() + m.ranIdle <= m.askedIdle }

  ghost predicate Sound(s: State) {
    && |s.stack| > 0 && |s.counts| == |s.halves|
    && (forall h :: 0 <= h < |s.halves| ==> Paid(s.halves[h], s.counts[h]))
    && (forall c, i :: 0 <= c < |s.stack| && 0 <= i < |s.stack[c]| ==> s.stack[c][i] < |s.halves|)
    && (forall c, i, d, j ::
          0 <= c < |s.stack| && 0 <= i < |s.stack[c]| && 0 <= d < |s.stack| && 0 <= j < |s.stack[d]| ==>
          s.stack[c][i] == s.stack[d][j] ==> c == d && i == j)
  }

  /**
   * From half a with history m to half b with history n nothing is lost and nothing invented: what
   * is scheduled, plus what was run, is what was scheduled before, plus what was asked for.
   */
  ghost predicate Balanced(a: Half, m: Count, b: Half, n: Count) {
    && m.ran <= n.ran && m.ranIdle <= n.ranIdle && m.asked <= n.asked && m.askedIdle <= n.askedIdle &&
      m.dropped <= n.dropped
    && (a.deleted ==> b.deleted)
    && b.Work() + n.ran - m.ran <= a.Work() + n.asked - m.asked
    && b.IdleWork() + n.ranIdle - m.ranIdle <= a.IdleWork() + n.askedIdle - m.askedIdle
    && (m.dropped == n.dropped ==>
        && b.deleted == a.deleted
        && b.Work() + n.ran - m.ran == a.Work() + n.asked - m.asked
        && b.IdleWork() + n.ranIdle - m.ranIdle == a.IdleWork() + n.askedIdle - m.askedIdle)
  }

  lemma BalancedOn(a: Half, m: Count, b: Half, n: Count, c: Half, o: Count)
    requires Balanced(a, m, b, n) && Balanced(b, n, c, o)
    ensures Balanced(a, m, c, o)
  {}

  /** Half h of s is accounted for in s'. */
  ghost predicate Accounted(s: State, s': State, h: nat)
    requires h < |s.halves| <= |s'.halves| && |s.counts| == |s.halves| && |s'.counts| == |s'.halves|
  {
    Balanced(s.halves[h], s.counts[h], s'.halves[h], s'.counts[h])
  }

  /** What may happen to half h of s by the time of s' if it is not run: its flags follow the calls made for it. */
  ghost predicate Follows(s: State, s': State, h: nat)
    requires h < |s.halves| <= |s'.halves| && |s.counts| == |s.halves| && |s'.counts| == |s'.halves|
  {
    Accounted(s, s', h) && s'.counts[h].ran == s.counts[h].ran && s'.counts[h].ranIdle == s.counts[h].ranIdle
  }

  /** From s to s' no half of s was run. */
  ghost predicate Quiet(s: State, s': State) {
    && |s.halves| <= |s'.halves| && |s.counts| == |s.halves| && |s'.counts| == |s'.halves|
    && s'.budget <= s.budget
    && (forall h: nat :: h < |s.halves| ==> Follows(s, s', h))
  }

  ghost predicate AtEnd(list: seq<nat>, a: seq<nat>) { |a| <= |list| && list[|list| - |a|..] == a }

  /** The first n of a list are numbers from lo up to the number of halves, none of them run yet. */
  ghost predicate New(list: seq<nat>, n: int, lo: nat, counts: seq<Count>) {
    forall i :: 0 <= i < n && i < |list| ==> lo <= list[i] < |counts| && counts[list[i]].Runs() == 0
  }

  /** The halves in front of the old list are new, and have not been run. */
  ghost predicate Grown(s: State, s': State)
    requires |s.stack| > 0 && |s'.stack| > 0 && |s'.counts| == |s'.halves|
  {
    s'.Outer() == s.Outer() && AtEnd(s'.Top(), s.Top()) && New(s'.Top(), |s'.Top()| - |s.Top()|, |s.halves|, s'.counts)
  }

  /** What calls that do not poll the active context do to it. */
  ghost predicate Tame(s: State, s': State) {
    Sound(s) && Sound(s') && Quiet(s, s') && Grown(s, s')
  }

  /** What a callback does to the context it runs in; it does nothing without taking from the budget. */
  ghost predicate Calm(s: State, s': State) {
    Tame(s, s') && (s'.budget == s.budget ==> s' == s)
  }

  lemma FollowsOn(s: State, t: State, u: State, h: nat)
    requires h < |s.halves| <= |t.halves| <= |u.halves| && |s.counts| == |s.halves| && |t.counts| == |t.halves| &&
      |u.counts| == |u.halves|
    requires Follows(s, t, h) && Follows(t, u, h)
    ensures Follows(s, u, h)
  {
    hide Balanced;
    BalancedOn(s.halves[h], s.counts[h], t.halves[h], t.counts[h], u.halves[h], u.counts[h]);
  }

  lemma QuietOn(s: State, t: State, u: State)
    requires Quiet(s, t) && Quiet(t, u)
    ensures Quiet(s, u)
  {
    hide Follows;
    forall h: nat | h < |s.halves|
      ensures Follows(s, u, h)
    {
      FollowsOn(s, t, u, h);
    }
  }

  lemma EndAt(list: seq<nat>, a: seq<nat>, i: nat)
    requires AtEnd(list, a) && |list| - |a| <= i < |list|
    ensures list[i] == a[i - (|list| - |a|)]
  {
    assert list[i] == list[|list| - |a|..][i - (|list| - |a|)];
  }

  lemma GrowTwice(a: seq<nat>, b: seq<nat>, c: seq<nat>, lo: nat, counts: seq<Count>, counts': seq<Count>)
    requires AtEnd(b, a) && AtEnd(c, b) && lo <= |counts| <= |counts'|
    requires New(b, |b| - |a|, lo, counts) && New(c, |c| - |b|, |counts|, counts')
    requires forall h: nat :: lo <= h < |counts| && counts[h].Runs() == 0 ==> counts'[h].Runs() == 0
    ensures AtEnd(c, a) && New(c, |c| - |a|, lo, counts')
  {
    assert c[|c| - |a|..] == c[|c| - |b|..][|b| - |a|..];
    forall i | 0 <= i < |c| - |a|
      ensures lo <= c[i] < |counts'| && counts'[c[i]].Runs() == 0
    {
      if i >= |c| - |b| {
        EndAt(c, b, i);
      }
    }
  }

  lemma QuietRuns(s: State, t: State)
    requires Quiet(s, t)
    ensures forall h: nat :: h < |s.halves| ==> t.counts[h].Runs() == s.counts[h].Runs()
  {
    forall h: nat | h < |s.halves|
      ensures t.counts[h].Runs() == s.counts[h].Runs()
    {
      assert Follows(s, t, h);
    }
  }

  lemma CalmOn(s: State, t: State, u: State)
    requires Calm(s, t) && Calm(t, u)
    ensures Calm(s, u)
  {
    hide Sound, AtEnd, New, Balanced;
    SoundSizes(s);
    SoundSizes(t);
    SoundSizes(u);
    QuietOn(s, t, u);
    QuietRuns(t, u);
    GrowTwice(s.Top(), t.Top(), u.Top(), |s.halves|, t.counts, u.counts);
  }

  /** The halves of a list that are not deleted, in order. */
  function Kept(halves: seq<Half>, list: seq<nat>): seq<nat>
    requires forall i :: 0 <= i < |list| ==> list[i] < |halves|
  {
    if |list| == 0 then []
    else
      var front := Kept(halves, list[..|list| - 1]);
      if halves[list[|list| - 1]].deleted then front else front + [list[|list| - 1]]
  }

  ghost predicate Before(list: seq<nat>, j: nat, h: nat)
    requires j <= |list|
  {
    exists k :: 0 <= k < j && list[k] == h
  }

  /**
   * What a visit to half h of s leaves: nothing asked for is lost, it has been run at most once, and
   * if it was due and not dropped then exactly once.
   */
  ghost predicate Handled(s: State, s': State, h: nat)
    requires h < |s.halves| <= |s'.halves| && |s.counts| == |s.halves| && |s'.counts| == |s'.halves|
  {
    && Accounted(s, s', h) && s'.counts[h].Runs() <= s.counts[h].Runs() + 1
    && (s.halves[h].Due() && s.counts[h].dropped == s'.counts[h].dropped ==>
      if s.halves[h].idle then s'.counts[h].ranIdle == s.counts[h].ranIdle + 1
      else s'.counts[h].ran == s.counts[h].ran + 1)
  }

  /** The walk of a poll has dealt with the first j halves of the list. */
  ghost predicate Walked(s: State, s': State, j: nat) {
    && Sound(s) && Sound(s') && |s.halves| <= |s'.halves| && s'.budget <= s.budget && j <= |s.Top()|
    && Grown(s, s')
    && (forall h: nat :: h < |s.halves| && !Before(s.Top(), j, h) ==> Follows(s, s', h))
    && (forall k :: 0 <= k < j ==> Handled(s, s', s.Top()[k]))
  }

  lemma SkipStep(s: State, t: State, j: nat)
    requires Walked(s, t, j) && j < |s.Top()| && !t.halves[s.Top()[j]].Due()
    ensures Walked(s, t, j + 1)
  {
    var h := s.Top()[j];
    assert !Before(s.Top(), j, h);
    assert Follows(s, t, h);
    forall k: nat | k < |s.halves| && !Before(s.Top(), j + 1, k)
      ensures Follows(s, t, k)
    {
      assert !Before(s.Top(), j, k);
    }
  }

  /** A half taken off the schedule and run, before its callback has done anything. */
  function Started(t: State, h: nat): State
    requires h < |t.halves| == |t.counts|
  {
    var (half, c) := (t.halves[h], t.counts[h]);
    t.(halves := t.halves[h := half.(scheduled := false, idle := false)],
       counts := t.counts[h := if half.idle then c.(ranIdle := c.ranIdle + 1) else c.(ran := c.ran + 1)])
  }

  lemma StartedSound(t: State, h: nat)
    requires Sound(t) && h < |t.halves| && t.halves[h].scheduled
    ensures Sound(Started(t, h))
  {}

  /** A half that was due by the time the walk came to it, and was then run. */
  lemma VisitHandles(s: State, t: State, u: State, h: nat)
    requires h < |s.halves| <= |t.halves| <= |u.halves| && |s.counts| == |s.halves| && |t.counts| == |t.halves| &&
      |u.counts| == |u.halves|
    requires Follows(s, t, h) && t.halves[h].Due() && Follows(Started(t, h), u, h)
    ensures Handled(s, u, h)
  {}

  lemma LaterHandles(s: State, t: State, u: State, h: nat)
    requires h < |s.halves| <= |t.halves| <= |u.halves| && |s.counts| == |s.halves| && |t.counts| == |t.halves| &&
      |u.counts| == |u.halves|
    requires Handled(s, t, h) && Follows(t, u, h)
    ensures Handled(s, u, h)
  {
    hide Balanced;
    BalancedOn(s.halves[h], s.counts[h], t.halves[h], t.counts[h], u.halves[h], u.counts[h]);
    DropsGrow(s.halves[h], s.counts[h], t.halves[h], t.counts[h]);
    DropsGrow(t.halves[h], t.counts[h], u.halves[h], u.counts[h]);
  }

  lemma DropsGrow(a: Half, m: Count, b: Half, n: Count)
    requires Balanced(a, m, b, n)
    ensures m.dropped <= n.dropped
  {}

  lemma StartedElsewhere(t: State, h: nat, u: State, k: nat)
    requires h < |t.halves| == |t.counts| && k < |t.halves| <= |u.halves| && |u.counts| == |u.halves| && k != h
    requires Follows(Started(t, h), u, k)
    ensures Follows(t, u, k)
  {}

  lemma RunStep(s: State, t: State, j: nat, u: State)
    requires Walked(s, t, j) && j < |s.Top()| && t.halves[s.Top()[j]].Due() && Calm(Started(t, s.Top()[j]), u)
    ensures Walked(s, u, j + 1)
  {
    hide Follows, Handled, Grown;
    var h := s.Top()[j];
    var t1 := Started(t, h);
    assert !Before(s.Top(), j, h);
    assert Follows(s, t, h) && Follows(t1, u, h);
    forall k: nat | k < |s.halves| && !Before(s.Top(), j + 1, k)
      ensures Follows(s, u, k)
    {
      assert !Before(s.Top(), j, k) && k != h;
      StartedElsewhere(t, h, u, k);
      FollowsOn(s, t, u, k);
    }
    forall k | 0 <= k < j + 1
      ensures Handled(s, u, s.Top()[k])
    {
      if k < j {
        assert Handled(s, t, s.Top()[k]) && s.Top()[k] != h;
        StartedElsewhere(t, h, u, s.Top()[k]);
        LaterHandles(s, t, u, s.Top()[k]);
      } else {
        VisitHandles(s, t, u, h);
      }
    }
    RunGrows(s, t, h, u);
  }

  lemma RunGrows(s: State, t: State, h: nat, u: State)
    requires Sound(s) && Sound(t) && Grown(s, t) && h < |s.halves| <= |t.halves| && Calm(Started(t, h), u)
    ensures Grown(s, u)
  {
    hide Sound, AtEnd, New, Balanced;
    SoundSizes(s);
    SoundSizes(t);
    SoundSizes(u);
    var t1 := Started(t, h);
    assert Quiet(t1, u) && Grown(t1, u) && t1.Top() == t.Top() && t1.Outer() == t.Outer();
    QuietRuns(t1, u);
    GrowTwice(s.Top(), t.Top(), u.Top(), |s.halves|, t.counts, u.counts);
  }

  // The end of a poll.

  ghost predicate NoDuplicates(list: seq<nat>) { forall i, j :: 0 <= i < j < |list| ==> list[i] != list[j] }

  /** What is kept is what was there and is not deleted, without repetition. */
  lemma {:induction false} KeptIs(halves: seq<Half>, list: seq<nat>)
    requires (forall i :: 0 <= i < |list| ==> list[i] < |halves|) && NoDuplicates(list)
    ensures forall h: nat :: h in Kept(halves, list) <==> h in list && h < |halves| && !halves[h].deleted
    ensures NoDuplicates(Kept(halves, list))
  {
    if |list| > 0 {
      KeptIs(halves, list[..|list| - 1]);
      assert list == list[..|list| - 1] + [list[|list| - 1]];
    }
  }

  lemma TopInRange(t: State)
    requires Sound(t)
    ensures forall i :: 0 <= i < |t.Top()| ==> t.Top()[i] < |t.halves|
    ensures NoDuplicates(t.Top())
  {
    forall i | 0 <= i < |t.Top()|
      ensures t.Top()[i] < |t.halves|
    {
      assert t.stack[|t.stack| - 1][i] == t.Top()[i];
    }
  }

  ghost function Swept(t: State): State
    requires Sound(t)
  {
    TopInRange(t);
    t.(stack := t.Outer() + [Kept(t.halves, t.Top())])
  }

  /** Where an entry of a swept list stood before. */
  lemma Origin(t: State, c: nat, i: nat) returns (k: nat)
    requires Sound(t) && c < |t.stack| && i < |Swept(t).stack[c]|
    ensures k < |t.stack[c]| && t.stack[c][k] == Swept(t).stack[c][i]
  {
    if c == |t.stack| - 1 {
      TopInRange(t);
      KeptIs(t.halves, t.Top());
      assert Swept(t).stack[c][i] in Kept(t.halves, t.Top());
      k :| 0 <= k < |t.Top()| && t.Top()[k] == Swept(t).stack[c][i];
    } else {
      k := i;
    }
  }

  lemma SweptSound(t: State)
    requires Sound(t)
    ensures Sound(Swept(t))
  {
    hide Kept;
    var u := Swept(t);
    TopInRange(t);
    KeptIs(t.halves, t.Top());
    forall c, i | 0 <= c < |u.stack| && 0 <= i < |u.stack[c]|
      ensures u.stack[c][i] < |u.halves|
    {
      var k := Origin(t, c, i);
    }
    forall c, i, d, j | 0 <= c < |u.stack| && 0 <= i < |u.stack[c]| && 0 <= d < |u.stack| && 0 <= j < |u.stack[d]| &&
      u.stack[c][i] == u.stack[d][j]
      ensures c == d && i == j
    {
      var k := Origin(t, c, i);
      var l := Origin(t, d, j);
      assert c == d && k == l;
      if c == |t.stack| - 1 {
        assert u.stack[c] == Kept(t.halves, t.Top());
      } else {
        assert u.stack[c] == t.stack[c];
      }
    }
  }

  // A poll as a whole.

  /** What the walk does about half h: if it is due it is run, and its callback does something calm. */
  ghost predicate Turn(t: State, h: nat, u: State) {
    Sound(t) && Sound(u) && h < |t.halves| && if t.halves[h].Due() then Calm(Started(t, h), u) else u == t
  }

  /** The states of a walk from s: ts[j] is the one before the turn of the half number j of the list. */
  ghost predicate Walk(s: State, ts: seq<State>) {
    && Sound(s) && 0 < |ts| <= |s.Top()| + 1 && ts[0] == s
    && (forall j :: 0 <= j < |ts| - 1 ==> Turn(ts[j], s.Top()[j], ts[j + 1]))
  }

  /** Half h is run at t, and not as an idle one. */
  ghost predicate Works(t: State, h: nat) { h < |t.halves| && t.halves[h].Due() && !t.halves[h].idle }

  ghost predicate Worked(s: State, ts: seq<State>)
    requires |s.stack| > 0 && |ts| <= |s.Top()| + 1
  {
    exists j :: 0 <= j < |ts| - 1 && Works(ts[j], s.Top()[j])
  }

  /**
   * What one qemu_bh_poll does: it walks over the whole list, sweeps out the deleted halves, and
   * returns whether a half was run that was not idle.
   */
  ghost predicate Polled(s: State, ts: seq<State>, s': State, ret: bool) {
    && Walk(s, ts) && |ts| == |s.Top()| + 1 && Sound(ts[|ts| - 1])
    && s' == Swept(ts[|ts| - 1]) && (ret <==> Worked(s, ts))
  }

  ghost predicate OnePoll(s: State, s': State, ret: bool) { exists ts :: Polled(s, ts, s', ret) }

  lemma {:induction false} WalkIsWalked(s: State, ts: seq<State>, j: nat)
    requires Walk(s, ts) && j < |ts|
    ensures Walked(s, ts[j], j)
  {
    hide Walked, Calm, Sound;
    SoundSizes(s);
    if j == 0 {
      WalkStart(s);
    } else {
      WalkIsWalked(s, ts, j - 1);
      assert Turn(ts[j - 1], s.Top()[j - 1], ts[j]);
      if ts[j - 1].halves[s.Top()[j - 1]].Due() {
        RunStep(s, ts[j - 1], j - 1, ts[j]);
      } else {
        SkipStep(s, ts[j - 1], j - 1);
      }
    }
  }

  /**
   * What a poll comes to: each half of the list is run at most once, each that was due and was not
   * dropped exactly once, no other half that was there is run, no request is lost, and the
   * undeleted halves stay in order behind those that are new.
   */
  lemma PolledIsWalked(s: State, ts: seq<State>, s': State, ret: bool)
    requires Polled(s, ts, s', ret)
    ensures |s.stack| > 0 && |ts| > 0 && Sound(ts[|ts| - 1])
    ensures Walked(s, ts[|ts| - 1], |s.Top()|) && s' == Swept(ts[|ts| - 1])
  {
    hide Walked;
    WalkIsWalked(s, ts, |ts| - 1);
  }

  /** In particular, whoever schedules a half again that has been run finds it scheduled after the poll. */
  lemma RescheduledStays(s: State, ts: seq<State>, s': State, ret: bool, h: nat)
    requires Polled(s, ts, s', ret) && h < |s.halves| && |s.stack| > 0 && h in s.Top()
    ensures |s.halves| <= |s'.halves| && |s.counts| == |s.halves| && |s'.counts| == |s'.halves|
    ensures var (c, c') := (s.counts[h], s'.counts[h]);
      s.halves[h].Due() && c.dropped == c'.dropped ==>
        && c'.Runs() == c.Runs() + 1
        && (s'.halves[h].Due() <==> c'.asked + c'.askedIdle > c.asked + c.askedIdle)
  {
    hide Walk, Kept;
    PolledIsWalked(s, ts, s', ret);
    var mid := ts[|ts| - 1];
    var k :| 0 <= k < |s.Top()| && s.Top()[k] == h;
    assert Handled(s, mid, s.Top()[k]);
  }

  /** Seen from outside, a poll of an inner context runs nothing that was there before. */
  lemma PollIsQuiet(base: State, s: State, ts: seq<State>, s': State, ret: bool)
    requires Quiet(base, s) && Sound(s) && Polled(s, ts, s', ret) && forall i :: 0 <= i < |s.Top()| ==>
      s.Top()[i] >= |base.halves|
    ensures Quiet(base, s')
  {
    hide Follows, Walk, Kept, Handled;
    PolledIsWalked(s, ts, s', ret);
    var mid := ts[|ts| - 1];
    forall h: nat | h < |base.halves|
      ensures Follows(base, s', h)
    {
      assert !Before(s.Top(), |s.Top()|, h);
      FollowsOn(base, s, mid, h);
      FollowsSame(base, mid, s', h);
    }
  }

  lemma FollowsSame(s: State, t: State, t': State, h: nat)
    requires h < |s.halves| <= |t.halves| && |s.counts| == |s.halves| && |t.counts| == |t.halves|
    requires Follows(s, t, h) && t'.halves == t.halves && t'.counts == t.counts
    ensures Follows(s, t', h)
  {}

  /** A section between push and pop, from its start at `base`: an inner list of new halves only. */
  ghost predicate Inside(base: State, s: State) {
    && Sound(base) && Sound(s) && Quiet(base, s)
    && |s.stack| == |base.stack| + 1 && s.Outer() == base.stack
    && (forall i :: 0 <= i < |s.Top()| ==> s.Top()[i] >= |base.halves|)
  }

  lemma PushInside(base: State)
    requires Sound(base)
    ensures Inside(base, base.(stack := base.stack + [[]]))
  {}

  lemma CalmInside(base: State, s: State, s': State)
    requires Inside(base, s) && Tame(s, s')
    ensures Inside(base, s')
  {
    hide Follows;
    QuietOn(base, s, s');
    forall i | 0 <= i < |s'.Top()|
      ensures s'.Top()[i] >= |base.halves|
    {
      if i >= |s'.Top()| - |s.Top()| {
        EndAt(s'.Top(), s.Top(), i);
      }
    }
  }

  lemma PollInside(base: State, s: State, ts: seq<State>, s': State, ret: bool)
    requires Inside(base, s) && Polled(s, ts, s', ret)
    ensures Inside(base, s')
  {
    hide Follows, Walk, Handled, Walked;
    var mid := ts[|ts| - 1];
    PolledIsWalked(s, ts, s', ret);
    PollIsQuiet(base, s, ts, s', ret);
    SweptSound(mid);
    WalkedNew(base, s, mid);
    TopInRange(mid);
    KeptIs(mid.halves, mid.Top());
    forall i | 0 <= i < |s'.Top()|
      ensures s'.Top()[i] >= |base.halves|
    {
      assert s'.Top()[i] in Kept(mid.halves, mid.Top());
    }
  }

  lemma WalkedNew(base: State, s: State, mid: State)
    requires Inside(base, s) && Walked(s, mid, |s.Top()|)
    ensures NoDuplicates(mid.Top()) && forall h: nat :: h in mid.Top() ==> h >= |base.halves|
    ensures mid.Outer() == s.Outer() && |mid.stack| == |s.stack|
  {
    hide Follows, Handled;
    forall i | 0 <= i < |mid.Top()|
      ensures mid.Top()[i] >= |base.halves|
    {
      if i >= |mid.Top()| - |s.Top()| {
        EndAt(mid.Top(), s.Top(), i);
      }
    }
    assert |mid.Outer()| == |s.Outer()|;
  }

  // The calls.

  /** A new half goes in front of the active context's list. */
  function AfterNew(s: State): State
    requires |s.stack| > 0
  {
    s.(halves := s.halves + [Half(false, false, false)], counts := s.counts + [NO_COUNT],
       stack := s.Outer() + [[|s.halves|] + s.Top()])
  }

  /** Scheduling a scheduled half changes nothing, not even its kind. */
  function AfterSchedule(s: State, bh: nat, idle: bool): State
    requires bh < |s.halves| == |s.counts|
  {
    var (half, c) := (s.halves[bh], s.counts[bh]);
    if half.scheduled then s
    else s.(halves := s.halves[bh := half.(scheduled := true, idle := idle)],
            counts := s.counts[bh := if idle then c.(askedIdle := c.askedIdle + 1) else c.(asked := c.asked + 1)])
  }

  function AfterDrop(s: State, bh: nat, delete: bool): State
    requires bh < |s.halves| == |s.counts|
  {
    var (half, c) := (s.halves[bh], s.counts[bh]);
    s.(halves := s.halves[bh := half.(scheduled := false, deleted := half.deleted || delete)],
       counts := s.counts[bh := c.(dropped := c.dropped + 1)])
  }

  /** What a pop leaves of `inner`: the parent's list with one new scheduled half in front. */
  function Popped(inner: State): State
    requires |inner.stack| > 1 && |inner.counts| == |inner.halves|
  {
    AfterSchedule(AfterNew(inner.(stack := inner.Outer())), |inner.halves|, false)
  }

  /** Polls that return 1, one after the other. */
  ghost predicate Polls(s: State, chain: seq<State>) {
    |chain| > 0 && chain[0] == s && forall i :: 0 < i < |chain| ==> OnePoll(chain[i - 1], chain[i], true)
  }

  lemma PollsNone(s: State)
    ensures Polls(s, [s])
  {}

  lemma PollsOn(s: State, chain: seq<State>, s': State)
    requires Polls(s, chain) && OnePoll(chain[|chain| - 1], s', true)
    ensures Polls(s, chain + [s'])
  {
    hide OnePoll;
    var more := chain + [s'];
    forall i | 0 < i < |more|
      ensures OnePoll(more[i - 1], more[i], true)
    {
      assert more[i - 1] == chain[i - 1];
    }
  }

  // The code.

  class Scheduler {
    var halves: seq<Half>
    var stack: seq<seq<nat>>
    var budget: nat
    ghost var counts: seq<Count>

    ghost function Snap(): State
      reads this
    {
      State(halves, stack, counts, budget)
    }

    /** qemu_bh_new. */
    method Create() returns (bh: nat)
      requires Sound(Snap())
      modifies this
      ensures bh == |old(halves)| && Snap() == AfterNew(old(Snap()))
      ensures Sound(Snap())
    {
      hide Sound;
      SoundSizes(Snap());
      NewIsSound(Snap());
      bh := |halves|;
      halves := halves + [Half(false, false, false)];
      counts := counts + [NO_COUNT];
      stack := stack[..|stack| - 1] + [[bh] + stack[|stack| - 1]];
    }

    /** qemu_bh_schedule_idle and qemu_bh_schedule. */
    method Schedule(bh: nat, idle: bool)
      requires Sound(Snap()) && bh < |halves|
      modifies `halves, `counts
      ensures Snap() == AfterSchedule(old(Snap()), bh, idle)
      ensures Sound(Snap())
    {
      if halves[bh].scheduled {
        return;
      }
      halves := halves[bh := halves[bh].(scheduled := true, idle := idle)];
      ghost var c := counts[bh];
      counts := counts[bh := if idle then c.(askedIdle := c.askedIdle + 1) else c.(asked := c.asked + 1)];
    }

    /** qemu_bh_cancel and qemu_bh_delete. */
    method Drop(bh: nat, delete: bool)
      requires Sound(Snap()) && bh < |halves|
      modifies `halves, `counts
      ensures Snap() == AfterDrop(old(Snap()), bh, delete)
      ensures Sound(Snap())
    {
      counts := counts[bh := counts[bh].(dropped := counts[bh].dropped + 1)];
      halves := halves[bh := halves[bh].(scheduled := false)];
      if delete {
        halves := halves[bh := halves[bh].(deleted := true)];
      }
    }

    /** async_context_push. */
    method Push()
      requires Sound(Snap())
      modifies `stack
      ensures stack == old(stack) + [[]] && Sound(Snap())
    {
      stack := stack + [[]];
    }

    /** One call that a callback, or anything else that runs between polls, may make. */
    method Call()
      requires Sound(Snap()) && budget > 0
      modifies this
      ensures Calm(old(Snap()), Snap()) && budget < old(budget)
      decreases budget, 0
    {
      hide Sound, Calm, Tame, AfterNew, AfterSchedule, AfterDrop, Inside, OnePoll, Popped, IdleFirst, AnyDue;
      ghost var s := Snap();
      SoundSizes(s);
      budget := budget - 1;
      ghost var t := Snap();
      SoundBudget(s, budget);
      var kind: nat := *;
      var bh: nat := *;
      if kind == 0 {
        var b := Create();
        NewIsTame(t);
      } else if kind == 1 {
        ghost var last, inner := Section();
      } else if 0 <= bh < |halves| && !halves[bh].deleted {
        if kind < 4 {
          Schedule(bh, kind == 2);
          ScheduleIsTame(t, bh, kind == 2);
        } else {
          Drop(bh, kind == 4);
          DropIsTame(t, bh, kind == 4);
        }
      } else {
        CalmNothing(t);
      }
      BudgetFalls(s, t, Snap());
    }

    /** A callback: some calls, in any order and with any arguments. */
    method Callback()
      requires Sound(Snap())
      modifies this
      ensures Calm(old(Snap()), Snap())
      decreases budget, 1
    {
      hide Calm, Sound;
      ghost var s := Snap();
      CalmNothing(s);
      var more: bool := *;
      while more && budget > 0
        invariant Calm(old(Snap()), Snap()) && Sound(Snap()) && budget <= s.budget
        decreases budget
      {
        ghost var mid := Snap();
        Call();
        CalmSound(mid, Snap());
        CalmOn(old(Snap()), mid, Snap());
        more := *;
      }
    }

    /** qemu_bh_poll. */
    method Poll() returns (ret: bool, ghost ts: seq<State>)
      requires Sound(Snap())
      modifies this
      ensures Sound(Snap()) && Polled(old(Snap()), ts, Snap(), ret)
      ensures budget <= old(budget) && (budget == old(budget) ==> !AnyDue(Snap()) && (ret ==> AnyDue(old(Snap()))))
      decreases budget, 3
    {
      ghost var s0 := Snap();
      hide Walked, Walk, Turn, Calm, Sound, AnyDue, Worked, Polled;
      SoundSizes(s0);
      ret, ts := false, [s0];
      var left: nat := |stack[|stack| - 1]|;
      ghost var j := 0;
      WalkStart(s0);
      while left > 0
        invariant Sound(s0) && Sound(Snap()) && j + left == |s0.Top()| && |ts| == j + 1 && ts[j] == Snap()
        invariant budget <= s0.budget && Walk(s0, ts) && Walked(s0, Snap(), j) && (ret <==> Worked(s0, ts))
        decreases left
      {
        ghost var t := Snap();
        SoundSizes(t);
        var bh := Current(s0, left, j);
        if !halves[bh].deleted && halves[bh].scheduled {
          var idle := RunHalf(bh);
          if !idle {
            ret := true;
          }
          RunStep(s0, t, j, Snap());
          TurnRuns(t, bh, Snap());
        } else {
          SkipStep(s0, t, j);
          TurnSkips(t, bh);
        }
        OneMoreTurn(s0, ts, Snap());
        ts := ts + [Snap()];
        left := left - 1;
        j := j + 1;
      }
      ghost var mid := Snap();
      RemoveDeleted();
      SweptSound(mid);
      PollEnds(s0, ts, ret);
      if budget == s0.budget {
        PollWithoutCalls(s0, ts, Snap(), ret);
      }
    }

    /** The body of the loop of qemu_bh_poll, for a half that is due. */
    method RunHalf(bh: nat) returns (idle: bool)
      requires Sound(Snap()) && bh < |halves| == |counts| && halves[bh].Due()
      modifies this
      ensures Calm(Started(old(Snap()), bh), Snap()) && Sound(Snap()) && |stack| > 0 && budget <= old(budget)
      ensures idle == old(halves[bh].idle)
      decreases budget, 2
    {
      hide Sound, Calm;
      StartedSound(Snap(), bh);
      ghost var t := Snap();
      idle := halves[bh].idle;
      ghost var c := counts[bh];
      counts := counts[bh := if idle then c.(ranIdle := c.ranIdle + 1) else c.(ran := c.ran + 1)];
      halves := halves[bh := halves[bh].(scheduled := false, idle := false)];
      Callback();
      CalmSound(Started(t, bh), Snap());
    }

    /** The walk's next half: new ones in front do not move those behind. */
    method Current(ghost s0: State, left: nat, ghost j: nat) returns (bh: nat)
      requires Walked(s0, Snap(), j) && j + left == |s0.Top()| && left > 0
      ensures bh < |halves| && bh == s0.Top()[j]
    {
      var top := stack[|stack| - 1];
      bh := top[|top| - left];
      EndAt(Snap().Top(), s0.Top(), |top| - left);
    }

    /** The second loop of qemu_bh_poll. */
    method RemoveDeleted()
      requires Sound(Snap())
      modifies `stack
      ensures Snap() == Swept(old(Snap()))
    {
      TopInRange(Snap());
      var top := stack[|stack| - 1];
      var i, kept := 0, [];
      while i < |top|
        invariant i <= |top| && kept == Kept(halves, top[..i])
      {
        assert top[..i + 1][..i] == top[..i];
        if !halves[top[i]].deleted {
          kept := kept + [top[i]];
        }
        i := i + 1;
      }
      assert top[..|top|] == top;
      stack := stack[..|stack| - 1] + [kept];
    }

    /**
     * async_context_pop: polls until a poll returns 0, goes back to the parent, and leaves one new
     * scheduled half there.  `chain` are the states between the polls, `inner` the last of all.
     */
    method Pop(ghost base: State) returns (bh: nat, ghost chain: seq<State>, ghost inner: State)
      requires Inside(base, Snap())
      modifies this
      ensures Tame(base, Snap()) && budget <= old(budget)
      ensures |chain| > 0 && Polls(old(Snap()), chain) && OnePoll(chain[|chain| - 1], inner, false)
      ensures Inside(base, chain[|chain| - 1]) && Inside(base, inner)
      ensures !IdleFirst(chain[|chain| - 1]) ==> !AnyDue(inner)
      ensures old(NoIdleScheduled(Snap())) && NoIdleAsked(old(Snap()), inner) ==> !AnyDue(inner)
      ensures bh == |inner.halves| && Snap() == Popped(inner)
      ensures Snap().Top() == [bh] + base.Top() && halves[bh] == Half(true, false, false)
      decreases budget, 4
    {
      hide OnePoll, Polls, AnyDue, IdleFirst, Polled, Sound, Quiet;
      var ret := true;
      chain := [Snap()];
      PollsNone(Snap());
      while ret
        invariant Inside(base, Snap()) && budget <= old(budget)
        invariant Polls(old(Snap()), chain) && |chain| > 0 && Inside(base, chain[|chain| - 1])
        invariant if ret then chain[|chain| - 1] == Snap() else OnePoll(chain[|chain| - 1], Snap(), false)
        decreases ret, budget, if AnyDue(Snap()) then 1 else 0
      {
        ghost var (s, ts) := (Snap(), [Snap()]);
        ret, ts := Poll();
        PollInside(base, s, ts, Snap(), ret);
        PolledOnce(s, ts, Snap(), ret);
        if ret {
          PollsOn(old(Snap()), chain, Snap());
          chain := chain + [Snap()];
        }
      }
      inner := Snap();
      SurePoll(chain[|chain| - 1], inner);
      if old(NoIdleScheduled(Snap())) && NoIdleAsked(old(Snap()), inner) {
        PopLeavesNothing(old(Snap()), chain, inner);
      }
      stack := stack[..|stack| - 1];
      PopSound(base, inner);
      bh := Create();
      Schedule(bh, false);
      PopIsTame(base, inner);
    }

    /** Everything between a push and its pop, in any order: calls, polls and inner sections. */
    method Section() returns (ghost last: State, ghost inner: State)
      requires Sound(Snap())
      modifies this
      ensures Tame(old(Snap()), Snap()) && budget <= old(budget)
      ensures Inside(old(Snap()), last) && OnePoll(last, inner, false)
      ensures Inside(old(Snap()), inner) && (!IdleFirst(last) ==> !AnyDue(inner))
      ensures Snap() == Popped(inner) && Snap().Top() == [|inner.halves|] + old(Snap()).Top()
      decreases budget, 5
    {
      hide OnePoll, Polls, AnyDue, IdleFirst, Polled, Tame, Popped, Inside;
      ghost var base := Snap();
      Push();
      PushInside(base);
      var steps: nat := *;
      while steps > 0
        invariant Sound(Snap()) && Inside(base, Snap()) && budget <= old(budget)
      {
        ghost var (s, ts) := (Snap(), [Snap()]);
        var call: bool := *;
        if call && budget > 0 {
          Call();
          CalmSound(s, Snap());
          CalmInside(base, s, Snap());
        } else {
          var ret;
          ret, ts := Poll();
          PollInside(base, s, ts, Snap(), ret);
        }
        steps := steps - 1;
      }
      var bh;
      ghost var chain;
      bh, chain, inner := Pop(base);
      last := chain[|chain| - 1];
    }
  }

  // Facts the code above rests on.

  ghost predicate DueAt(s: State, i: nat)
    requires Sound(s) && i < |s.Top()|
  {
    TopInRange(s);
    s.halves[s.Top()[i]].Due()
  }

  ghost predicate AnyDue(s: State)
    requires Sound(s)
  {
    exists i :: 0 <= i < |s.Top()| && DueAt(s, i)
  }

  ghost predicate NoneDue(s: State, j: nat)
    requires Sound(s) && j <= |s.Top()|
  {
    forall i :: 0 <= i < j ==> !DueAt(s, i)
  }

  /** The first half that is due is an idle one. */
  ghost predicate IdleFirst(s: State)
    requires Sound(s)
  {
    exists k :: 0 <= k < |s.Top()| && IdleFirstAt(s, k)
  }

  ghost predicate IdleFirstAt(s: State, k: nat)
    requires Sound(s) && k < |s.Top()|
  {
    NoneDue(s, k) && DueAt(s, k) && s.halves[s.Top()[k]].idle
  }

  /** Nothing but the visited halves differs. */
  ghost predicate OnlyRun(s: State, t: State, j: nat)
    requires Sound(s) && j <= |s.Top()|
  {
    |t.halves| == |s.halves| && forall h: nat :: h < |s.halves| && !Before(s.Top(), j, h) ==> t.halves[h] == s.halves[h]
  }

  lemma WalkStart(s: State)
    requires Sound(s)
    ensures Walked(s, s, 0) && NoneDue(s, 0) && OnlyRun(s, s, 0)
    ensures Walk(s, [s]) && !Worked(s, [s])
  {
    assert s.Top()[0..] == s.Top();
  }

  lemma TurnRuns(t: State, h: nat, u: State)
    requires Sound(t) && Sound(u) && h < |t.halves| == |t.counts| && t.halves[h].Due() && Calm(Started(t, h), u)
    ensures Turn(t, h, u)
  {}

  lemma TurnSkips(t: State, h: nat)
    requires Sound(t) && h < |t.halves| && !t.halves[h].Due()
    ensures Turn(t, h, t)
  {}

  lemma OneMoreTurn(s: State, ts: seq<State>, u: State)
    requires Walk(s, ts) && |ts| <= |s.Top()| && Turn(ts[|ts| - 1], s.Top()[|ts| - 1], u)
    ensures Walk(s, ts + [u])
    ensures Worked(s, ts + [u]) <==> Worked(s, ts) || Works(ts[|ts| - 1], s.Top()[|ts| - 1])
  {
    hide Turn, Works;
    var (more, n) := (ts + [u], |ts| - 1);
    forall j | 0 <= j < |more| - 1
      ensures Turn(more[j], s.Top()[j], more[j + 1]) && more[j] == ts[j]
    {
      if j < n {
        assert Turn(ts[j], s.Top()[j], ts[j + 1]);
      }
    }
    if Worked(s, ts) {
      var j :| 0 <= j < n && Works(ts[j], s.Top()[j]);
      assert Works(more[j], s.Top()[j]);
    }
    if Works(ts[n], s.Top()[n]) {
      assert Works(more[n], s.Top()[n]);
    }
  }

  lemma PollEnds(s: State, ts: seq<State>, ret: bool)
    requires Walk(s, ts) && |s.stack| > 0 && |ts| == |s.Top()| + 1 && Sound(ts[|ts| - 1]) && (ret <==> Worked(s, ts))
    ensures Polled(s, ts, Swept(ts[|ts| - 1]), ret)
  {}

  lemma NewIsSound(s: State)
    requires Sound(s)
    ensures Sound(AfterNew(s))
  {
    var s' := AfterNew(s);
    forall c, i | 0 <= c < |s'.stack| && 0 <= i < |s'.stack[c]|
      ensures s'.stack[c][i] < |s'.halves|
      ensures s'.stack[c][i] == |s.halves| || s'.stack[c][i] == s.stack[c][if c == |s.stack| - 1 then i - 1 else i]
      ensures s'.stack[c][i] == |s.halves| <==> c == |s.stack| - 1 && i == 0
    {
      if c < |s.stack| - 1 || i > 0 {
        assert s.stack[c][if c == |s.stack| - 1 then i - 1 else i] < |s.halves|;
      }
    }
  }

  lemma NewIsTame(s: State)
    requires Sound(s)
    ensures Sound(AfterNew(s)) && Tame(s, AfterNew(s))
  {
    hide Sound, Balanced;
    SoundSizes(s);
    NewIsSound(s);
    var s' := AfterNew(s);
    assert s'.Top() == [|s.halves|] + s.Top();
    forall h: nat | h < |s.halves|
      ensures Follows(s, s', h)
    {
      BalancedSame(s.halves[h], s.counts[h]);
    }
  }

  lemma BalancedSame(a: Half, m: Count)
    ensures Balanced(a, m, a, m)
  {}

  lemma FlagsAreTame(s: State, s': State, bh: nat)
    requires Sound(s) && s'.budget == s.budget && s'.stack == s.stack && bh < |s.halves| == |s'.halves| == |s'.counts|
    requires forall h: nat :: h < |s.halves| && h != bh ==> s'.halves[h] == s.halves[h] && s'.counts[h] == s.counts[h]
    requires Follows(s, s', bh) && Paid(s'.halves[bh], s'.counts[bh])
    ensures Sound(s') && Tame(s, s')
  {
    assert Sound(s');
    assert s'.Top()[0..] == s.Top();
  }

  lemma ScheduleIsTame(s: State, bh: nat, idle: bool)
    requires Sound(s) && bh < |s.halves| == |s.counts|
    ensures Sound(AfterSchedule(s, bh, idle)) && Tame(s, AfterSchedule(s, bh, idle))
  {
    assert Paid(s.halves[bh], s.counts[bh]);
    FlagsAreTame(s, AfterSchedule(s, bh, idle), bh);
  }

  lemma DropIsTame(s: State, bh: nat, delete: bool)
    requires Sound(s) && bh < |s.halves| == |s.counts|
    ensures Sound(AfterDrop(s, bh, delete)) && Tame(s, AfterDrop(s, bh, delete))
  {
    assert Paid(s.halves[bh], s.counts[bh]);
    FlagsAreTame(s, AfterDrop(s, bh, delete), bh);
  }

  lemma SoundBudget(s: State, budget: nat)
    requires Sound(s)
    ensures Sound(s.(budget := budget))
  {}

  lemma BudgetFalls(s: State, t: State, u: State)
    requires t == s.(budget := t.budget) && t.budget < s.budget && Tame(t, u)
    ensures Calm(s, u) && u.budget < s.budget
  {
    forall h: nat | h < |s.halves|
      ensures Follows(s, u, h)
    {
      assert Follows(t, u, h);
    }
  }

  lemma QuietVisit(s0: State, t: State, j: nat, u: State)
    requires Walked(s0, t, j) && j < |s0.Top()| && t.stack == s0.stack && NoneDue(t, j) && OnlyRun(s0, t, j)
    requires var h := s0.Top()[j]; h < |t.halves| && t.halves[h].Due() && u == Started(t, h)
    ensures Sound(u) && u.stack == s0.stack && NoneDue(u, j + 1) && OnlyRun(s0, u, j + 1) && AnyDue(s0)
  {
    var h := s0.Top()[j];
    StartedSound(t, h);
    TopInRange(s0);
    assert !Before(s0.Top(), j, h);
    assert DueAt(s0, j);
    forall i | 0 <= i < j + 1
      ensures !DueAt(u, i)
    {
      assert i < j ==> !DueAt(t, i);
    }
    forall k: nat | k < |s0.halves| && !Before(s0.Top(), j + 1, k)
      ensures u.halves[k] == s0.halves[k]
    {
      assert !Before(s0.Top(), j, k);
    }
  }

  lemma QuietSkip(s0: State, t: State, j: nat)
    requires Walked(s0, t, j) && j < |s0.Top()| && t.stack == s0.stack && NoneDue(t, j) && OnlyRun(s0, t, j)
    requires var h := s0.Top()[j]; h < |t.halves| && !t.halves[h].Due()
    ensures NoneDue(t, j + 1) && OnlyRun(s0, t, j + 1)
  {
    forall k: nat | k < |s0.halves| && !Before(s0.Top(), j + 1, k)
      ensures t.halves[k] == s0.halves[k]
    {
      assert !Before(s0.Top(), j, k);
    }
  }

  lemma SweptDue(t: State)
    requires Sound(t)
    ensures Sound(Swept(t)) && (NoneDue(t, |t.Top()|) ==> !AnyDue(Swept(t)))
  {
    SweptSound(t);
    var u := Swept(t);
    if AnyDue(u) {
      var i :| 0 <= i < |u.Top()| && DueAt(u, i);
      var k := Origin(t, |t.stack| - 1, i);
      assert DueAt(t, k);
    }
  }

  lemma PopSound(base: State, inner: State)
    requires Inside(base, inner)
    ensures Sound(inner.(stack := inner.Outer()))
  {
    var s := inner.(stack := inner.Outer());
    forall c, i | 0 <= c < |s.stack| && 0 <= i < |s.stack[c]|
      ensures s.stack[c][i] < |s.halves|
    {
      assert inner.stack[c][i] < |inner.halves|;
    }
  }

  lemma PopIsTame(base: State, inner: State)
    requires Inside(base, inner)
    ensures var s' := Popped(inner);
      Sound(s') && Tame(base, s') && s'.Top() == [|inner.halves|] + base.Top() &&
        s'.halves[|inner.halves|] == Half(true, false, false)
  {
    hide Sound, Balanced, Tame;
    SoundSizes(base);
    SoundSizes(inner);
    var s1 := inner.(stack := inner.Outer());
    var s2 := AfterNew(s1);
    var s' := Popped(inner);
    PopSound(base, inner);
    NewIsTame(s1);
    ScheduleIsTame(s2, |inner.halves|, false);
    assert s'.stack == base.Outer() + [[|inner.halves|] + base.Top()];
    forall h: nat | h < |base.halves|
      ensures Follows(base, s', h)
    {
      assert Follows(base, inner, h);
    }
    PutBack(base, s', |inner.halves|);
  }

  lemma PutBack(base: State, s': State, bh: nat)
    requires Sound(base) && Sound(s') && Quiet(base, s') && s'.stack == base.Outer() + [[bh] + base.Top()]
    requires |base.halves| <= bh < |s'.counts| && s'.counts[bh].Runs() == 0
    ensures Tame(base, s')
  {
    hide Sound, Quiet;
    SoundSizes(base);
    SoundSizes(s');
    assert s'.Outer() == base.Outer() && s'.Top() == [bh] + base.Top();
  }

  lemma SoundSizes(s: State)
    requires Sound(s)
    ensures |s.stack| > 0 && |s.counts| == |s.halves|
  {}

  lemma CalmNothing(s: State)
    requires Sound(s)
    ensures Calm(s, s) && Tame(s, s)
  {
    assert s.Top()[0..] == s.Top();
  }

  lemma CalmSound(s: State, t: State)
    requires Calm(s, t)
    ensures Sound(t) && |t.stack| > 0 && t.budget <= s.budget && (t.budget == s.budget ==> t == s) && Tame(s, t)
  {}

  // What a poll without calls does.

  lemma TurnBudget(t: State, h: nat, u: State)
    requires Turn(t, h, u)
    ensures u.budget <= t.budget
    ensures u.budget == t.budget ==>
      |t.counts| == |t.halves| && h < |t.halves| && u == if t.halves[h].Due() then Started(t, h) else t
  {
    hide Tame;
    SoundSizes(t);
    if t.halves[h].Due() {
      CalmSound(Started(t, h), u);
    }
  }

  lemma {:induction false} WalkBudget(s: State, ts: seq<State>, j: nat, k: nat)
    requires Walk(s, ts) && j <= k < |ts|
    ensures ts[k].budget <= ts[j].budget
    decreases k
  {
    hide Turn, Sound;
    SoundSizes(s);
    if j < k {
      WalkBudget(s, ts, j, k - 1);
      TurnBudget(ts[k - 1], s.Top()[k - 1], ts[k]);
    }
  }

  lemma {:induction false} WalkWithoutCalls(s: State, ts: seq<State>, j: nat)
    requires Walk(s, ts) && j < |ts| && ts[j].budget == s.budget
    ensures Sound(ts[j]) && ts[j].stack == s.stack && NoneDue(ts[j], j) && OnlyRun(s, ts[j], j)
    ensures !AnyDue(s) ==> forall i :: 0 <= i < j ==> !Works(ts[i], s.Top()[i])
  {
    hide Turn, Sound, Walked, NoneDue, OnlyRun, AnyDue;
    SoundSizes(s);
    if j == 0 {
      WalkStart(s);
    } else {
      WalkBudget(s, ts, 0, j - 1);
      WalkBudget(s, ts, j - 1, j);
      WalkWithoutCalls(s, ts, j - 1);
      WalkIsWalked(s, ts, j - 1);
      var (t, h) := (ts[j - 1], s.Top()[j - 1]);
      TurnBudget(t, h, ts[j]);
      if t.halves[h].Due() {
        QuietVisit(s, t, j - 1, ts[j]);
      } else {
        QuietSkip(s, t, j - 1);
      }
    }
  }

  lemma PollWithoutCalls(s: State, ts: seq<State>, s': State, ret: bool)
    requires Polled(s, ts, s', ret) && s'.budget == s.budget
    ensures Sound(s') && !AnyDue(s') && (ret ==> AnyDue(s))
  {
    hide Turn, AnyDue, NoneDue, OnlyRun, Works;
    var mid := ts[|ts| - 1];
    WalkWithoutCalls(s, ts, |ts| - 1);
    SweptDue(mid);
  }

  // What a pop can rely on.

  lemma {:induction false} NothingYet(s: State, ts: seq<State>, j: nat)
    requires Walk(s, ts) && j < |ts| && j <= |s.Top()| && NoneDue(s, j)
    ensures ts[j] == s
  {
    hide Sound, Calm;
    SoundSizes(s);
    if j > 0 {
      NothingYet(s, ts, j - 1);
      assert Turn(ts[j - 1], s.Top()[j - 1], ts[j]) && !DueAt(s, j - 1);
    }
  }

  lemma FirstDue(s: State) returns (k: nat)
    requires Sound(s) && AnyDue(s)
    ensures k < |s.Top()| && NoneDue(s, k) && DueAt(s, k)
  {
    var m :| 0 <= m < |s.Top()| && DueAt(s, m);
    k := 0;
    while !DueAt(s, k)
      invariant k <= m && NoneDue(s, k)
      decreases m - k
    {
      k := k + 1;
    }
  }

  lemma SurePoll(s: State, s': State)
    requires Sound(s) && Sound(s') && OnePoll(s, s', false)
    ensures !IdleFirst(s) ==> !AnyDue(s')
  {
    hide Turn, Sound, DueAt;
    var ts :| Polled(s, ts, s', false);
    SoundSizes(s);
    if AnyDue(s) {
      var k := FirstDue(s);
      DueThere(s, k);
      NothingYet(s, ts, k);
      if s.halves[s.Top()[k]].idle {
        assert IdleFirstAt(s, k);
      } else {
        WorkIsSeen(s, ts, k);
      }
    } else {
      NothingYet(s, ts, |s.Top()|);
      SweptDue(s);
    }
  }

  lemma WorkIsSeen(s: State, ts: seq<State>, k: nat)
    requires |s.stack| > 0 && |ts| <= |s.Top()| + 1 && k < |ts| - 1 && Works(ts[k], s.Top()[k])
    ensures Worked(s, ts)
  {}

  lemma DueThere(s: State, k: nat)
    requires Sound(s) && k < |s.Top()| && DueAt(s, k)
    ensures s.Top()[k] < |s.halves| && s.halves[s.Top()[k]].Due()
  {}

  /** The callbacks cancel the first n halves of a list. */
  function Cancelled(t: State, list: seq<nat>, n: nat): (u: State)
    requires n <= |list| && |t.counts| == |t.halves| && n <= t.budget && forall i :: 0 <= i < |list| ==>
      list[i] < |t.halves|
    ensures |u.counts| == |u.halves| == |t.halves| && u.budget == t.budget - n && u.stack == t.stack
    ensures forall i :: 0 <= i < n ==> !u.halves[list[i]].scheduled
    ensures forall h: nat :: h < |t.halves| ==> u.halves[h].deleted == t.halves[h].deleted
  {
    if n == 0 then t
    else
      var v := Cancelled(t, list, n - 1);
      AfterDrop(v.(budget := v.budget - 1), list[n - 1], false)
  }

  lemma {:induction false} CancelsCalmly(t: State, list: seq<nat>, n: nat)
    requires Sound(t) && |t.counts| == |t.halves|
    requires n <= |list| && n <= t.budget && forall i :: 0 <= i < |list| ==> list[i] < |t.halves|
    ensures Calm(t, Cancelled(t, list, n))
  {
    hide Sound, Calm, AfterDrop;
    if n == 0 {
      CalmNothing(t);
    } else {
      CancelsCalmly(t, list, n - 1);
      var v := Cancelled(t, list, n - 1);
      var w := v.(budget := v.budget - 1);
      CalmSound(t, v);
      SoundBudget(v, w.budget);
      DropIsTame(w, list[n - 1], false);
      BudgetFalls(v, w, AfterDrop(w, list[n - 1], false));
      CalmOn(t, v, Cancelled(t, list, n));
    }
  }

  /** The callback of half h cancels every half of its context, and schedules itself again. */
  ghost function Hijacked(s: State, h: nat): (u: State)
    requires Sound(s) && h < |s.halves| && |s.Top()| < s.budget && |s.counts| == |s.halves|
  {
    TopInRange(s);
    var v := Cancelled(Started(s, h), s.Top(), |s.Top()|);
    AfterSchedule(v.(budget := v.budget - 1), h, false)
  }

  lemma HijackIsCalm(s: State, h: nat)
    requires Sound(s) && h < |s.halves| && |s.Top()| < s.budget && |s.counts| == |s.halves| && s.halves[h].Due()
    ensures Calm(Started(s, h), Hijacked(s, h))
  {
    hide Sound, Calm, AfterSchedule, Cancelled;
    SoundSizes(s);
    TopInRange(s);
    StartedSound(s, h);
    var t := Started(s, h);
    CancelsCalmly(t, s.Top(), |s.Top()|);
    var v := Cancelled(t, s.Top(), |s.Top()|);
    var w := v.(budget := v.budget - 1);
    CalmSound(t, v);
    SoundBudget(v, w.budget);
    ScheduleIsTame(w, h, false);
    BudgetFalls(v, w, AfterSchedule(w, h, false));
    CalmOn(t, v, Hijacked(s, h));
  }

  lemma HijackLeaves(s: State, h: nat)
    requires Sound(s) && h < |s.halves| && |s.Top()| < s.budget && |s.counts| == |s.halves| && h in s.Top() &&
      s.halves[h].Due()
    ensures var u := Hijacked(s, h);
      && Sound(u) && u.stack == s.stack && |u.halves| == |s.halves| && u.halves[h] == Half(true, false, false)
      && (forall i :: 0 <= i < |s.Top()| && s.Top()[i] != h ==> s.Top()[i] < |u.halves| && !u.halves[s.Top()[i]].Due())
  {
    hide Sound, Calm, Cancelled;
    SoundSizes(s);
    TopInRange(s);
    HijackIsCalm(s, h);
    CalmSound(Started(s, h), Hijacked(s, h));
  }

  /** A poll that runs no half but one idle one, which leaves work in its list. */
  lemma HijackedPoll(s: State, k: nat) returns (ts: seq<State>)
    requires Sound(s) && k < |s.Top()| && |s.Top()| < s.budget && IdleFirstAt(s, k)
    ensures |s.counts| == |s.halves| && s.Top()[k] < |s.halves|
    ensures var u := Hijacked(s, s.Top()[k]);
      Sound(u) && Polled(s, ts, Swept(u), false) && Sound(Swept(u)) && AnyDue(Swept(u))
  {
    hide Sound, Calm, Hijacked, Swept;
    SoundSizes(s);
    TopInRange(s);
    var h := s.Top()[k];
    DueThere(s, k);
    HijackIsCalm(s, h);
    HijackLeaves(s, h);
    var u := Hijacked(s, h);
    var n := |s.Top()|;
    ts := seq(n + 1, i => if i <= k then s else u);
    forall j | 0 <= j < n
      ensures Turn(ts[j], s.Top()[j], ts[j + 1]) && !Works(ts[j], s.Top()[j])
    {
      if j < k {
        assert !DueAt(s, j);
      }
    }
    assert Walk(s, ts) && !Worked(s, ts);
    LeftDue(u, k);
  }

  lemma LeftDue(u: State, k: nat)
    requires Sound(u) && k < |u.Top()| && DueAt(u, k)
    ensures Sound(Swept(u)) && AnyDue(Swept(u))
  {
    hide Kept;
    SweptSound(u);
    TopInRange(u);
    KeptIs(u.halves, u.Top());
    var h := u.Top()[k];
    assert h in Kept(u.halves, u.Top());
    var i :| 0 <= i < |Swept(u).Top()| && Swept(u).Top()[i] == h;
    assert DueAt(Swept(u), i);
  }

  ghost predicate LeavesNothing(s: State, s': State)
  {
    OnePoll(s, s', false) ==> Sound(s') && !AnyDue(s')
  }

  /**
   * A poll that returns 0 is sure to leave nothing due, whatever the callbacks do, exactly when the
   * first half that is due when it starts, if any, is not an idle one.
   */
  lemma SureIffNotIdleFirst(s: State)
    requires Sound(s)
    ensures Sound(s) && ((forall budget: nat, s' :: LeavesNothing(s.(budget := budget), s')) <==> !IdleFirst(s))
  {
    hide Sound, OnePoll, AnyDue, IdleFirstAt;
    SoundSizes(s);
    if IdleFirst(s) {
      var k :| 0 <= k < |s.Top()| && IdleFirstAt(s, k);
      var r := s.(budget := |s.Top()| + 1);
      SoundBudget(s, r.budget);
      SoundSizes(r);
      BudgetAside(s, r.budget, k);
      var ts := HijackedPoll(r, k);
      var s' := Swept(Hijacked(r, r.Top()[k]));
      assert OnePoll(r, s', false) by { PolledOnce(r, ts, s', false); }
      assert !LeavesNothing(s.(budget := r.budget), s');
    } else {
      forall budget: nat, s' | OnePoll(s.(budget := budget), s', false)
        ensures Sound(s') && !AnyDue(s')
      {
        var r := s.(budget := budget);
        SoundBudget(s, budget);
        PollSound(r, s', false);
        SurePoll(r, s');
        if IdleFirst(r) {
          var k :| 0 <= k < |r.Top()| && IdleFirstAt(r, k);
          BudgetAside(s, budget, k);
        }
      }
    }
  }

  lemma BudgetAside(s: State, budget: nat, k: nat)
    requires Sound(s) && Sound(s.(budget := budget)) && k < |s.Top()|
    ensures IdleFirstAt(s, k) <==> IdleFirstAt(s.(budget := budget), k)
  {
    var r := s.(budget := budget);
    assert forall i :: 0 <= i < |s.Top()| ==> (DueAt(s, i) <==> DueAt(r, i));
  }

  lemma PolledOnce(s: State, ts: seq<State>, s': State, ret: bool)
    requires Polled(s, ts, s', ret)
    ensures OnePoll(s, s', ret)
  {}

  lemma PollSound(s: State, s': State, ret: bool)
    requires OnePoll(s, s', ret)
    ensures Sound(s')
  {
    hide Walk, Worked;
    var ts :| Polled(s, ts, s', ret);
    SweptSound(ts[|ts| - 1]);
  }

  // What a caller of async_context_pop can rely on.

  /** No half of the active context is scheduled as an idle one. */
  ghost predicate NoIdleScheduled(s: State)
    requires |s.stack| > 0
  {
    forall h: nat :: h in s.Top() && h < |s.halves| ==> s.halves[h].IdleWork() == 0
  }

  /** From s to s' no half was scheduled as an idle one. */
  ghost predicate NoIdleAsked(s: State, s': State) {
    && |s.counts| <= |s'.counts|
    && forall h: nat :: h < |s'.counts| ==>
      s'.counts[h].askedIdle == if h < |s.counts| then s.counts[h].askedIdle else 0
  }

  /** All halves of s are accounted for in s', and the active context has no halves of s but its own. */
  ghost predicate Traced(s: State, s': State) {
    && Sound(s) && Sound(s') && |s.halves| <= |s'.halves|
    && (forall h: nat :: h < |s.halves| ==> Accounted(s, s', h))
    && (forall h: nat :: h in s'.Top() ==> h >= |s.halves| || h in s.Top())
  }

  lemma TracedOn(s: State, t: State, u: State)
    requires Traced(s, t) && Traced(t, u)
    ensures Traced(s, u)
  {
    hide Sound, Balanced;
    SoundSizes(s);
    SoundSizes(t);
    SoundSizes(u);
    forall h: nat | h < |s.halves|
      ensures Accounted(s, u, h)
    {
      assert Accounted(s, t, h) && Accounted(t, u, h);
      BalancedOn(s.halves[h], s.counts[h], t.halves[h], t.counts[h], u.halves[h], u.counts[h]);
    }
  }

  lemma PollTraced(s: State, s': State, ret: bool)
    requires Sound(s) && OnePoll(s, s', ret)
    ensures Traced(s, s')
  {
    hide Walk, Balanced, Sound, Worked, New;
    var ts :| Polled(s, ts, s', ret);
    PolledIsWalked(s, ts, s', ret);
    var mid := ts[|ts| - 1];
    SoundSizes(s);
    SoundSizes(mid);
    SweptSound(mid);
    TopInRange(mid);
    KeptIs(mid.halves, mid.Top());
    forall h: nat | h < |s.halves|
      ensures Accounted(s, s', h)
    {
      if Before(s.Top(), |s.Top()|, h) {
        var k :| 0 <= k < |s.Top()| && s.Top()[k] == h;
        assert Handled(s, mid, s.Top()[k]);
      }
    }
    forall h: nat | h in s'.Top()
      ensures h >= |s.halves| || h in s.Top()
    {
      assert h in Kept(mid.halves, mid.Top());
      TopFrom(s, mid, h);
    }
  }

  lemma TopFrom(s: State, mid: State, h: nat)
    requires |s.stack| > 0 && |mid.stack| > 0 && |mid.counts| == |mid.halves| && Grown(s, mid) && h in mid.Top()
    ensures h >= |s.halves| || h in s.Top()
  {
    var i :| 0 <= i < |mid.Top()| && mid.Top()[i] == h;
    if i >= |mid.Top()| - |s.Top()| {
      EndAt(mid.Top(), s.Top(), i);
    }
  }

  lemma {:induction false} PollsTraced(s: State, chain: seq<State>, i: nat)
    requires Sound(s) && Polls(s, chain) && i < |chain|
    ensures Traced(s, chain[i])
  {
    hide Sound, Accounted, OnePoll;
    if i == 0 {
      TracedSelf(s);
    } else {
      PollsTraced(s, chain, i - 1);
      PollTraced(chain[i - 1], chain[i], true);
      TracedOn(s, chain[i - 1], chain[i]);
    }
  }

  lemma TracedSelf(s: State)
    requires Sound(s)
    ensures Traced(s, s)
  {
    hide Balanced;
    forall h: nat | h < |s.halves|
      ensures Accounted(s, s, h)
    {
      BalancedSame(s.halves[h], s.counts[h]);
    }
  }

  lemma StillNoIdle(s: State, t: State, u: State)
    requires Traced(s, t) && Traced(t, u) && NoIdleScheduled(s) && NoIdleAsked(s, u)
    ensures !IdleFirst(t)
  {
    hide IdleFirst;
    forall h: nat | h in t.Top() && h < |t.halves|
      ensures t.halves[h].IdleWork() == 0
    {
      assert Accounted(t, u, h) && Paid(t.halves[h], t.counts[h]);
      if h < |s.halves| {
        assert Accounted(s, t, h);
      }
    }
    NoIdleIsNotFirst(t);
  }

  lemma NoIdleIsNotFirst(t: State)
    requires Sound(t) && NoIdleScheduled(t)
    ensures !IdleFirst(t)
  {
    TopInRange(t);
    forall k | 0 <= k < |t.Top()|
      ensures !IdleFirstAt(t, k)
    {
      assert t.Top()[k] in t.Top();
    }
  }

  /**
   * A pop leaves nothing due behind if no half of the inner context is scheduled as an idle one when it
   * starts, and none is while it polls.
   */
  lemma PopLeavesNothing(s: State, chain: seq<State>, inner: State)
    requires Sound(s) && Polls(s, chain) && OnePoll(chain[|chain| - 1], inner, false)
    requires NoIdleScheduled(s) && NoIdleAsked(s, inner)
    ensures Sound(inner) && !AnyDue(inner)
  {
    hide Sound, OnePoll, AnyDue, IdleFirst, Traced;
    var last := chain[|chain| - 1];
    PollsTraced(s, chain, |chain| - 1);
    TracedSound(s, last);
    PollTraced(last, inner, false);
    TracedSound(last, inner);
    StillNoIdle(s, last, inner);
    SurePoll(last, inner);
  }

  lemma TracedSound(s: State, t: State)
    requires Traced(s, t)
    ensures Sound(t)
  {}

  // An instance.

  /** Two halves of an inner context: 0 is idle and due, 1 stands in front of it and is not scheduled. */
  function IdleStart(): State {
    State([Half(true, true, false), Half(false, false, false)], [[], [1, 0]], [Count(0, 0, 0, 1, 0), NO_COUNT], 1)
  }

  /** After half 0 has run and its callback has scheduled half 1. */
  function IdleEnd(): State {
    State([Half(false, false, false), Half(true, false, false)], [[], [1, 0]],
      [Count(0, 1, 0, 1, 0), Count(0, 0, 1, 0, 0)], 0)
  }

  lemma IdleSound()
    ensures Sound(IdleStart()) && Sound(IdleEnd()) && IdleStart().Top() == [1, 0] == IdleEnd().Top()
  {}

  lemma IdleStates()
    ensures Sound(IdleStart()) && Sound(IdleEnd()) && IdleStart().Top() == [1, 0] == IdleEnd().Top()
    ensures Calm(Started(IdleStart(), 0), IdleEnd())
  {
    hide Sound, Calm;
    IdleSound();
    StartedSound(IdleStart(), 0);
    var t := Started(IdleStart(), 0);
    var w := t.(budget := 0);
    SoundBudget(t, 0);
    ScheduleIsTame(w, 1, false);
    BudgetFalls(t, w, AfterSchedule(w, 1, false));
    assert AfterSchedule(w, 1, false) == IdleEnd();
  }

  lemma KeptPair(halves: seq<Half>)
    requires |halves| == 2 && !halves[0].deleted && !halves[1].deleted
    ensures Kept(halves, [1, 0]) == [1, 0]
  {
    assert [1, 0][..1] == [1] && [1][..0] == [];
    assert Kept(halves, []) == [];
    assert Kept(halves, [1]) == [1];
  }

  lemma OneLeft(inner: State)
    requires |inner.stack| == 2 && |inner.counts| == |inner.halves| == 2 && inner.stack[0] == []
    ensures Popped(inner).stack == [[2]]
  {
    var s1 := inner.(stack := inner.Outer());
    assert s1.stack == [[]] && s1.Outer() == [] && s1.Top() == [];
    assert AfterNew(s1).stack == [[2] + []];
    assert [2] + [] == [2];
  }

  /**
   * A poll that has run only idle halves returns 0 even if their callbacks have scheduled others
   * that the walk had passed; a pop then leaves them behind in the context it drops.
   */
  lemma IdleLeavesWork()
    ensures var (s, u) := (IdleStart(), IdleEnd());
      && Sound(s) && Sound(u) && OnePoll(s, Swept(u), false)
      && Swept(u).Top() == [1, 0] && Swept(u).halves[1] == Half(true, false, false)
      && Popped(Swept(u)).stack == [[2]]
  {
    hide Sound, Calm, Kept;
    var (s, u) := (IdleStart(), IdleEnd());
    IdleStates();
    KeptPair(u.halves);
    var ts := [s, s, u];
    assert Turn(s, 1, s) && Turn(s, 0, u);
    assert Walk(s, ts) && !Worked(s, ts);
    PolledOnce(s, ts, Swept(u), false);
    assert Swept(u).stack == [[], [1, 0]] && Swept(u).Outer() == [[]];
    OneLeft(Swept(u));
  }
}
