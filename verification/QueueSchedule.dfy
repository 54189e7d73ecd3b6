/** Timing: what the once-a-second pass releases, and how long the main loop may sleep. */
module QueueSchedule {
  import opened CText
  import opened QueueTypes
  import opened QueueSpec
  import opened QueueLists
  import opened QueueFrames
  import opened QueueStructure
  import opened QueueLedger
  import opened QueueHistory
  import opened QueueRuns

  // ---- the once-a-second pass

  /** The run queue receives the object queue, then the due player-caused wait entries in
      time order, then the expired player-caused semaphore waits; object-caused ones start
      the next object queue; nothing that waits is still due. */
  lemma SecondReleases(c: Db, s: State, now: int)
    requires Shape(c, s) && s.env.dequeue
    ensures var t := SecondPass(c, s, now);
      var due := s.wq[..DueCount(s.wq, now)];
      var expired := Freed(All(c, s.sq, TimedOut(now)));
      && t.pq == s.pq + s.oq + Given(c, due, true) + Given(c, expired, true)
      && t.oq == Given(c, due, false) + Given(c, expired, false)
      && t.wq == s.wq[|due|..] && t.sq == Others(c, s.sq, TimedOut(now))
      && Sorted(due)
      && (forall e :: e in t.wq ==> e.waittime > now)
      && (forall e :: e in t.sq ==> e.waittime == 0 || e.waittime > now)
  {
    hide Given, GiveAll, Taken, Kept, ExpireAll, Ids;
    var n := DueCount(s.wq, now);
    var s1 := Promote(s).(wq := s.wq[n..]);
    var s2 := GiveAll(c, s1, s.wq[..n]);
    var es := All(c, s.sq, TimedOut(now));
    GiveAllFrame(c, s1, s.wq[..n]);
    GiveAllQueues(c, s1, s.wq[..n]);
    ExpireAllFrame(c, s2, es);
    GiveAllFrame(c, s2, Freed(es));
    GiveAllQueues(c, s2, Freed(es));
    Members(c, s.sq, TimedOut(now), |s.sq|);
    assert [] + Given(c, s.wq[..n], false) == Given(c, s.wq[..n], false);
  }

  // ---- how long to sleep

  /** One queue scan of cque_que_next over the first `n` entries: None once an entry is
      imminent, else the least time seen. `timed` skips entries without a wait time. */
  function Soonest(q: seq<Entry>, now: int, least: int, timed: bool, n: nat): Option<int>
    requires n <= |q|
  {
    if n == 0 then Some(least) else
    var r := Soonest(q, now, least, timed, n - 1);
    var d := ToInt(q[n - 1].waittime - now);
    if r.None? || (timed && q[n - 1].waittime == 0) then r
    else if d <= 2 then None
    else Some(if d < r.value then d else r.value)
  }

  /** cque_que_next. */
  function QueNext(s: State, now: int): int {
    if s.pq != [] then 0
    else if s.oq != [] then 1
    else
      var r := Soonest(s.wq, now, 1000, false, |s.wq|);
      if r.None? then 1 else
      var r' := Soonest(s.sq, now, r.value, true, |s.sq|);
      if r'.None? then 1 else r'.value - 1
  }

  predicate Counts(e: Entry, timed: bool) {
    !timed || e.waittime != 0
  }

  lemma {:induction false} SoonestIs(q: seq<Entry>, now: int, least: int, timed: bool, n: nat)
    requires n <= |q|
    ensures var r := Soonest(q, now, least, timed, n);
      && (r.None? <==> exists i :: 0 <= i < n && Counts(q[i], timed) && ToInt(q[i].waittime - now) <= 2)
      && (r.Some? ==> r.value <= least
                      && (forall i :: 0 <= i < n && Counts(q[i], timed) ==> r.value <= ToInt(q[i].waittime - now))
                      && (r.value == least || exists i :: 0 <= i < n && Counts(q[i], timed) && r.value == ToInt(q[i].waittime - now)))
  {
    if n != 0 {
      SoonestIs(q, now, least, timed, n - 1);
    }
  }

  /** Everything that becomes due in the next `r` seconds, should the server sleep. */
  predicate SleepsPast(s: State, now: int, r: int) {
    || s.pq != [] || s.oq != []
    || (exists e :: e in s.wq && e.waittime <= now + r)
    || (exists e :: e in s.sq && e.waittime != 0 && e.waittime <= now + r)
  }

  /** The wait time of no timed semaphore wait is so far back that the difference to
      the clock leaves the range of an int and comes out above 2. */
  predicate NoWrap(s: State, now: int) {
    forall e :: e in s.sq && e.waittime != 0 && e.waittime - now < INT_MIN ==> ToInt(e.waittime - now) <= 2
  }

  /** A sleep of two seconds or more is only ever advised when nothing becomes due in it,
      exactly if no expired semaphore wait wraps around. */
  lemma NeverOversleeps(c: Db, s: State, now: int)
    requires Shape(c, s) && IsTime(now)
    ensures NoWrap(s, now) && QueNext(s, now) >= 2 ==> !SleepsPast(s, now, QueNext(s, now))
    ensures !NoWrap(s, now) && QueNext(s, now) >= 2 ==> SleepsPast(s, now, QueNext(s, now))
    ensures QueNext(s, now) == 0 <==> s.pq != []
    ensures 0 <= QueNext(s, now) <= 999
  {
    hide Soonest, ToInt, Shape;
    ToIntExact(c, s, now);
    SoonestIs(s.wq, now, 1000, false, |s.wq|);
    var r := Soonest(s.wq, now, 1000, false, |s.wq|);
    if r.Some? {
      SoonestIs(s.sq, now, r.value, true, |s.sq|);
    }
    if !NoWrap(s, now) {
      var e :| e in s.sq && e.waittime != 0 && e.waittime - now < INT_MIN && ToInt(e.waittime - now) > 2;
      assert e.waittime <= now;
    }
  }

  /** Only a semaphore wait far in the past can wrap around. */
  lemma ToIntExact(c: Db, s: State, now: int)
    requires Shape(c, s) && IsTime(now)
    ensures forall i :: 0 <= i < |s.wq| ==> ToInt(s.wq[i].waittime - now) == s.wq[i].waittime - now
    ensures forall i :: 0 <= i < |s.sq| && s.sq[i].waittime - now >= INT_MIN ==>
      ToInt(s.sq[i].waittime - now) == s.sq[i].waittime - now
  {
    hide ToInt;
    forall i | 0 <= i < |s.wq|
      ensures ToInt(s.wq[i].waittime - now) == s.wq[i].waittime - now
    {
      assert s.wq[i] in s.wq;
    }
    forall i | 0 <= i < |s.sq| && s.sq[i].waittime - now >= INT_MIN
      ensures ToInt(s.sq[i].waittime - now) == s.sq[i].waittime - now
    {
      assert s.sq[i] in s.sq;
    }
  }

  /** Since the wait queue is sorted, its full scan decides like its head alone. */
  lemma HeadDecides(c: Db, s: State, now: int)
    requires Shape(c, s) && IsTime(now) && s.wq != []
    ensures Soonest(s.wq, now, 1000, false, |s.wq|) == Soonest(s.wq, now, 1000, false, 1)
  {
    SoonestIs(s.wq, now, 1000, false, |s.wq|);
    SoonestIs(s.wq, now, 1000, false, 1);
    forall i | 0 <= i < |s.wq|
      ensures ToInt(s.wq[i].waittime - now) == s.wq[i].waittime - now >= s.wq[0].waittime - now
    {
      assert s.wq[i] in s.wq;
    }
  }

  /** Fund an owner, and let a command of `p` wait on a semaphore of its own with the most
      negative timeout there is. */
  function LongPast(c: Db, p: Dbref, now: int): seq<Act> {
    [Do(Income(c.owner(p), c.waitCost)),
     Do(WaitOn(p, p, p, A_SEMAPHORE, INT_MIN, now, Luck(false, true)))]
  }

  lemma LongPastRun(c: Db, p: Dbref, now: int)
    requires c.Consistent() && c.good(p) && c.maxPid > 0 && c.queueMax(c.owner(p)) >= 1 && IsTime(now)
    ensures var acts := LongPast(c, p, now);
      var s := Run(c, Empty, acts);
      && LegalRun(c, Empty, acts)
      && s.pq == [] && s.oq == [] && s.wq == [] && s.sq == [Entry(0, p, p, 1, now + INT_MIN, p, A_SEMAPHORE)]
  {
    hide WaitOnSem, Db.Consistent, Funded;
    LongPastQueued(c, p, now);
    assert p != NOTHING by { NothingIsBad(c); }
    var acts := LongPast(c, p, now);
    assert acts[..1][..0] == [] && acts[..2] == acts && acts[..2][..1] == acts[..1];
    FundedRun(c, p, acts);
    assert LegalRun(c, Empty, acts[..1]);
  }

  lemma LongPastQueued(c: Db, p: Dbref, now: int)
    requires c.Consistent() && c.good(p) && c.maxPid > 0 && c.queueMax(c.owner(p)) >= 1 && IsTime(now)
    ensures var s := WaitOnSem(c, Funded(c, p), p, p, p, A_SEMAPHORE, INT_MIN, now, Luck(false, true));
      && s.pq == [] && s.oq == [] && s.wq == [] && s.sq == [Entry(0, p, p, 1, now + INT_MIN, p, A_SEMAPHORE)]
  {
    FundedSetup(c, p);
    hide Setup, Bought, CaseOf;
    assert p != NOTHING by { assert c.good(p); }
    var s := AddSem(Funded(c, p), p, A_SEMAPHORE, 1);
    SetupAside(c, Funded(c, p), s, p, p, Luck(false, true));
    assert Get(s.sem, (p, A_SEMAPHORE)) == 1;
    assert WaitTime(INT_MIN, now) == now + INT_MIN;
  }

  /** Setting up does not look at the semaphores. */
  lemma SetupAside(c: Db, s: State, t: State, player: Dbref, cause: Dbref, luck: Luck)
    requires t == s.(sem := t.sem) && CaseOf(c, s, player, luck).Done?
    ensures Setup(c, t, player, cause, luck).1 == Setup(c, s, player, cause, luck).1
    ensures SameQueues(t, Setup(c, t, player, cause, luck).0)
  {
    SetupDone(c, s, player, cause, luck);
    SetupDone(c, t, player, cause, luck);
  }

  /** A semaphore wait that wraps around, at any time of the clock. The entry is due at
      once, and the second it is queued the server is told to see to it in one second; in
      the next the difference wraps around, and it is told that nothing comes up. */
  lemma OversleepExample(c: Db, p: Dbref, now: int)
    requires c.Consistent() && c.good(p) && c.maxPid > 0 && c.queueMax(c.owner(p)) >= 1
    requires 0 <= now < INT_MAX
    ensures var acts := LongPast(c, p, now);
      var s := Run(c, Empty, acts);
      && LegalRun(c, Empty, acts) && QueNext(s, now) == 1
      && !NoWrap(s, now + 1) && SleepsPast(s, now + 1, 0) && QueNext(s, now + 1) == 999
  {
    hide Run, LegalRun, LongPast;
    LongPastRun(c, p, now);
    var s := Run(c, Empty, LongPast(c, p, now));
    var e := s.sq[0];
    assert e in s.sq;
    assert ToInt(e.waittime - now) == INT_MIN && ToInt(e.waittime - (now + 1)) == INT_MAX;
    hide ToInt;
    assert forall t :: Soonest(s.wq, t, 1000, false, 0) == Some(1000) && Soonest(s.sq, t, 1000, true, 0) == Some(1000);
    assert Soonest(s.sq, now, 1000, true, 1) == None;
    assert Soonest(s.sq, now + 1, 1000, true, 1) == Some(1000);
  }
}
