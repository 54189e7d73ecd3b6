/** Semaphores: no more entries wait on a semaphore than its counter says. */
module QueueSemaphores {
  import opened QueueTypes
  import opened QueueSpec
  import opened QueueLists
  import opened QueueFrames
  import opened QueuePids
  import opened QueueStructure

  function Waiters(c: Db, s: State, thing: Dbref, attr: int): nat {
    Count(c, s.sq, OnSem(thing, attr))
  }

  function Counter(s: State, thing: Dbref, attr: int): int {
    Get(s.sem, (thing, attr))
  }

  function Above(x: int): nat {
    if x < 0 then 0 else x
  }

  ghost predicate SemOk(c: Db, s: State) {
    forall t: Dbref, a: int :: a != 0 ==> Waiters(c, s, t, a) <= Above(Counter(s, t, a))
  }

  ghost predicate SemExact(c: Db, s: State) {
    forall t: Dbref, a: int :: a != 0 ==> Waiters(c, s, t, a) == Above(Counter(s, t, a))
  }

  /** Both fall by the same number of entries that were waiting. */
  ghost predicate FallTogether(c: Db, s: State, u: State) {
    forall t: Dbref, a: int :: a != 0 ==>
      && Waiters(c, u, t, a) <= Waiters(c, s, t, a)
      && Waiters(c, s, t, a) - Waiters(c, u, t, a) == Counter(s, t, a) - Counter(u, t, a)
  }

  lemma FallingKeeps(c: Db, s: State, u: State)
    requires FallTogether(c, s, u)
    ensures SemOk(c, s) ==> SemOk(c, u)
    ensures SemExact(c, s) ==> SemExact(c, u)
  {
  }

  // ---- entries leaving the semaphore queue

  lemma {:induction false} HaltSemsCounter(c: Db, s: State, es: seq<Entry>, t: Dbref, a: int)
    requires a != 0
    ensures Counter(HaltSems(s, es), t, a) == Counter(s, t, a) - Count(c, es, OnSem(t, a))
  {
    if es != [] {
      HaltSemsCounter(c, s, es[..|es| - 1], t, a);
    }
  }

  lemma {:induction false} ExpireAllCounter(c: Db, s: State, es: seq<Entry>, t: Dbref, a: int)
    requires a != 0
    requires forall e :: e in es ==> e.attr != 0
    ensures Counter(ExpireAll(c, s, es), t, a) == Counter(s, t, a) - Count(c, es, OnSem(t, a))
  {
    if es != [] {
      ExpireAllCounter(c, s, es[..|es| - 1], t, a);
    }
  }

  lemma HaltFalls(c: Db, s: State, ptarg: Dbref, otarg: Dbref)
    ensures FallTogether(c, s, HaltQue(c, s, ptarg, otarg))
  {
    var f := Wanted(ptarg, otarg);
    HaltQueFrame(c, s, ptarg, otarg);
    var u := HaltQue(c, s, ptarg, otarg);
    forall t: Dbref, a: int | a != 0
      ensures Waiters(c, u, t, a) + Count(c, All(c, s.sq, f), OnSem(t, a)) == Waiters(c, s, t, a)
      ensures Counter(u, t, a) == Counter(s, t, a) - Count(c, All(c, s.sq, f), OnSem(t, a))
    {
      Split(c, s.sq, f, |s.sq|, OnSem(t, a));
      DeleteAllFrame(s, All(c, s.wq, f));
      HaltSemsCounter(c, DeleteAll(s, All(c, s.wq, f)), All(c, s.sq, f), t, a);
    }
  }

  lemma SecondFalls(c: Db, s: State, now: int)
    requires Shape(c, s)
    ensures FallTogether(c, s, SecondPass(c, s, now))
  {
    if s.env.dequeue {
      var f := TimedOut(now);
      var n := DueCount(s.wq, now);
      var s1 := Promote(s).(wq := s.wq[n..]);
      var s2 := GiveAll(c, s1, s.wq[..n]);
      var es := All(c, s.sq, f);
      Members(c, s.sq, f, |s.sq|);
      GiveAllFrame(c, s1, s.wq[..n]);
      forall t: Dbref, a: int | a != 0
        ensures Waiters(c, SecondPass(c, s, now), t, a) + Count(c, es, OnSem(t, a)) == Waiters(c, s, t, a)
        ensures Counter(SecondPass(c, s, now), t, a) == Counter(s, t, a) - Count(c, es, OnSem(t, a))
      {
        Split(c, s.sq, f, |s.sq|, OnSem(t, a));
        ExpireAllCounter(c, s2, es, t, a);
      }
    }
  }

  lemma HaltOneFallsAt(c: Db, s: State, pid: int, t: Dbref, a: int)
    requires Structure(c, s) && c.Consistent() && NotRunnable(s, pid) && pid in s.pids.table && a != 0
    ensures var u := HaltOne(c, s, pid, true);
      Waiters(c, s, t, a) - Waiters(c, u, t, a) == Counter(s, t, a) - Counter(u, t, a) >= 0
  {
    hide HaltOne, Lookup, Structure, NotRunnable, Count, Find, Db.Consistent, AQueue, Giveto;
    LookupFinds(c, s, pid);
    HaltOneFrame(c, s, pid);
    if Lookup(s, pid).value.sem != NOTHING {
      RemoveAt(c, s.sq, Find(s.sq, pid), OnSem(t, a));
    }
  }

  lemma HaltOneFalls(c: Db, s: State, pid: int, allowed: bool)
    requires Structure(c, s) && c.Consistent() && NotRunnable(s, pid)
    ensures FallTogether(c, s, HaltOne(c, s, pid, allowed))
  {
    if pid in s.pids.table && allowed {
      hide HaltOne, Structure, NotRunnable, Waiters, Counter;
      forall t: Dbref, a: int | a != 0
        ensures var u := HaltOne(c, s, pid, true);
          Waiters(c, s, t, a) - Waiters(c, u, t, a) == Counter(s, t, a) - Counter(u, t, a) >= 0
      {
        HaltOneFallsAt(c, s, pid, t, a);
      }
    }
  }

  lemma RetimeFalls(c: Db, s: State, pid: int, mode: TimeMode, val: int, now: int, allowed: bool)
    requires Structure(c, s) && c.Consistent() && NotRunnable(s, pid)
    ensures FallTogether(c, s, RetimeOne(c, s, pid, mode, val, now, allowed))
  {
    if pid in s.pids.table && allowed {
      LookupFinds(c, s, pid);
      RetimeFrame(c, s, pid, mode, val, now);
      var e := Lookup(s, pid).value;
      if e.sem != NOTHING {
        forall t: Dbref, a: int | a != 0
          ensures Waiters(c, RetimeOne(c, s, pid, mode, val, now, allowed), t, a) == Waiters(c, s, t, a)
        {
          ReplaceAt(c, s.sq, Find(s.sq, pid), e.(waittime := NewTime(e.waittime, mode, val, now)), OnSem(t, a));
        }
      }
    }
  }

  // ---- entries joining it

  lemma SetupFalls(c: Db, s: State, player: Dbref, cause: Dbref, luck: Luck)
    ensures FallTogether(c, s, Setup(c, s, player, cause, luck).0)
  {
    match CaseOf(c, s, player, luck)
    case Refused =>
    case OverQuota =>
      AccountsOnly(c, s, player, luck);
      var b := Wasted(c, s, player, luck);
      HaltFalls(c, b, c.owner(player), NOTHING);
      assert forall t: Dbref, a: int :: Waiters(c, s, t, a) == Waiters(c, b, t, a) && Counter(s, t, a) == Counter(b, t, a);
    case Failed => SetupFailed(c, s, player, cause, luck);
    case Done => SetupDone(c, s, player, cause, luck);
  }

  /** The payer has the deposit, and the surcharge if it hits. */
  predicate CanPay(c: Db, s: State, player: Dbref, luck: Luck) {
    c.Free(player) || Get(s.acct.money, c.owner(player)) >= Cost(c, luck)
  }

  predicate UnderQuota(c: Db, s: State, player: Dbref) {
    Get(s.acct.queue, c.owner(player)) < c.queueMax(c.owner(player))
  }

  ghost predicate PidFree(c: Db, s: State) {
    exists pid :: InRange(c, pid) && pid !in s.pids.table
  }

  /** What a command needs to get an entry. */
  ghost predicate Enqueues(c: Db, s: State, player: Dbref, luck: Luck) {
    && s.env.interp && player !in s.env.halted
    && CanPay(c, s, player, luck) && UnderQuota(c, s, player) && PidFree(c, s) && luck.fits
  }

  /** How cque_setup_que ends, by its guards. */
  lemma CaseIff(c: Db, s: State, player: Dbref, luck: Luck)
    requires c.Consistent() && c.good(player) && TableOk(c, s.pids)
    ensures var r := CaseOf(c, s, player, luck);
      && (r.Refused? <==> player in s.env.halted || !CanPay(c, s, player, luck))
      && (r.OverQuota? <==> !r.Refused? && !UnderQuota(c, s, player))
      && (r.Failed? <==> !r.Refused? && UnderQuota(c, s, player) && !(PidFree(c, s) && luck.fits))
  {
    ScanFails(c, s.pids);
    hide PidScan, TableOk;
    assert c.goodOwner(c.owner(player));
  }

  lemma ScanFails(c: Db, p: Pids)
    requires TableOk(c, p)
    ensures PidScan(c, p.table, p.top, c.maxPid) == 0 <==> forall pid :: InRange(c, pid) ==> pid in p.table
  {
    if c.maxPid > 0 {
      var _ := ScanIsFirstFree(c, p.table, p.top);
    }
  }

  lemma EnqueuesIff(c: Db, s: State, player: Dbref, cause: Dbref, luck: Luck)
    requires c.Consistent() && c.good(player) && TableOk(c, s.pids)
    ensures Enqueues(c, s, player, luck) <==> s.env.interp && Setup(c, s, player, cause, luck).1.Some?
  {
    CaseIff(c, s, player, luck);
    hide PidScan, CanPay, UnderQuota, PidFree, TableOk, HaltQue, Wasted, Bought;
  }

  lemma PlainWaitFalls(c: Db, s: State, player: Dbref, cause: Dbref, wait: int, attr: int, now: int, luck: Luck)
    ensures FallTogether(c, s, WaitQue(c, s, player, cause, wait, NOTHING, attr, now, luck))
  {
    SetupFalls(c, s, player, cause, luck);
  }

  lemma SemWaitJoins(c: Db, s: State, player: Dbref, cause: Dbref, wait: int, thing: Dbref, attr: int, now: int,
                     luck: Luck, t: Dbref, a: int)
    requires thing != NOTHING && a != 0 && c.Consistent() && c.good(player) && TableOk(c, s.pids)
    ensures var u := WaitQue(c, s, player, cause, wait, thing, attr, now, luck);
      var w := One(Enqueues(c, s, player, luck) && t == thing && a == attr);
      && Waiters(c, u, t, a) - w <= Waiters(c, s, t, a)
      && Waiters(c, s, t, a) - (Waiters(c, u, t, a) - w) == Counter(s, t, a) - Counter(u, t, a)
  {
    EnqueuesIff(c, s, player, cause, luck);
    hide Enqueues;
    if s.env.interp {
      SetupFalls(c, s, player, cause, luck);
      var (s1, r) := Setup(c, s, player, cause, luck);
      assert Waiters(c, s, t, a) == Count(c, s.sq, OnSem(t, a));
      if r.Some? {
        SetupStays(c, s, player, cause, luck);
        Snoc(c, s1.sq, r.value.(waittime := WaitTime(wait, now), sem := thing, attr := attr), OnSem(t, a));
      }
    }
  }

  lemma SetupStays(c: Db, s: State, player: Dbref, cause: Dbref, luck: Luck)
    requires Setup(c, s, player, cause, luck).1.Some?
    ensures SameQueues(s, Setup(c, s, player, cause, luck).0)
  {
    SetupDone(c, s, player, cause, luck);
  }

  /** Waiting on a semaphore keeps the bound, and keeps counters exact unless the entry
      should have waited but lacks something it needs to be queued. */
  lemma WaitOnSemCounts(c: Db, s: State, player: Dbref, cause: Dbref, thing: Dbref, attr: int, wait: int, now: int, luck: Luck)
    requires thing != NOTHING && attr != 0 && c.Consistent() && c.good(player) && TableOk(c, s.pids)
    ensures var u := WaitOnSem(c, s, player, cause, thing, attr, wait, now, luck);
      && (SemOk(c, s) ==> SemOk(c, u))
      && (SemExact(c, s) ==>
            (SemExact(c, u) <==> Counter(s, thing, attr) < 0 || Enqueues(c, s, player, luck)))
  {
    var s1 := AddSem(s, thing, attr, 1);
    var u := WaitOnSem(c, s, player, cause, thing, attr, wait, now, luck);
    var ok := Enqueues(c, s1, player, luck);
    assert ok == Enqueues(c, s, player, luck);
    hide TableOk, Enqueues;
    forall t: Dbref, a: int
      ensures Waiters(c, s1, t, a) == Waiters(c, s, t, a)
      ensures Counter(s1, t, a) == Counter(s, t, a) + One(t == thing && a == attr)
    {
    }
    if Counter(s1, thing, attr) <= 0 {
      PlainWaitFalls(c, s1, player, cause, 0, attr, now, luck);
    } else {
      forall t: Dbref, a: int | a != 0
        ensures var w := One(ok && t == thing && a == attr);
          && Waiters(c, u, t, a) - w <= Waiters(c, s, t, a)
          && Waiters(c, s, t, a) - (Waiters(c, u, t, a) - w) == Counter(s1, t, a) - Counter(u, t, a)
      {
        SemWaitJoins(c, s1, player, cause, wait, thing, attr, now, luck, t, a);
      }
    }
  }

  // ---- notifying

  /** The entries released or drained are the first waiters in queue order: with a
      positive counter and NFY_NFY, exactly min(count, waiters) of them. */
  lemma NotifyTakesOldest(c: Db, s: State, thing: Dbref, attr: int, count: int)
    requires attr != 0 && count > 0 && Counter(s, thing, attr) > 0
    ensures var f := OnSem(thing, attr);
      var u := NotifySem(c, s, thing, attr, NFY_NFY, count);
      var es := Taken(c, s.sq, f, count);
      && |es| == (if Waiters(c, s, thing, attr) < count then Waiters(c, s, thing, attr) else count)
      && es <= All(c, s.sq, f)
      && u.pq == s.pq + Given(c, es, true) && u.oq == s.oq + Given(c, es, false)
      && u.sq == Kept(c, s.sq, f, count)
      && Counter(u, thing, attr) == Counter(s, thing, attr) - count
  {
    var f := OnSem(thing, attr);
    TakenCount(c, s.sq, f, count);
    TakenPrefix(c, s.sq, f, count);
    GiveAllFrame(c, s, Taken(c, s.sq, f, count));
    GiveAllQueues(c, s, Taken(c, s.sq, f, count));
  }

  lemma {:induction false} TakenPrefix(c: Db, q: seq<Entry>, f: Filter, n: nat)
    ensures Taken(c, q, f, n) <= All(c, q, f)
  {
    if q != [] {
      var q0 := q[..|q| - 1];
      TakenPrefix(c, q0, f, n);
      Bound(c, q0, f, |q0|, |q|);
      TakenCount(c, q0, f, n);
      TakenCount(c, q0, f, |q0|);
      if |Taken(c, q0, f, n)| < n {
        assert Taken(c, q0, f, n) == All(c, q0, f);
      }
    }
  }

  /** No entry waits on an attribute of `thing` that an attribute-0 notify does not clear. */
  predicate OnlyDefault(s: State, thing: Dbref) {
    forall e :: e in s.sq && e.sem == thing ==> e.attr == A_SEMAPHORE
  }

  /** What is left waiting after a notify, and what the counter says then. */
  lemma NotifyCounts(c: Db, s: State, thing: Dbref, attr: int, key: NotifyKey, count: int, t: Dbref, a: int)
    requires a != 0 && (key == NFY_NFY ==> attr != 0 && count > 0)
    ensures var u := NotifySem(c, s, thing, attr, key, count);
      var num := if attr != 0 then Counter(s, thing, attr) else 1;
      var hit := t == thing && (a == attr || attr == 0);
      && Waiters(c, u, t, a) ==
           (if num > 0 && hit then (if key == NFY_NFY then Above(Waiters(c, s, t, a) - count) else 0)
            else Waiters(c, s, t, a))
      && Counter(u, t, a) ==
           (if t == thing && a == (if attr != 0 then attr else A_SEMAPHORE)
            then (if key == NFY_NFY then Counter(s, t, a) - count else 0)
            else Counter(s, t, a))
  {
    var num := if attr != 0 then Get(s.sem, (thing, attr)) else 1;
    if num > 0 {
      var n := Limit(s.sq, key, count);
      var f := OnSem(thing, attr);
      var es := Taken(c, s.sq, f, n);
      DrainAllFrame(c, s, es);
      GiveAllFrame(c, s, es);
      Split(c, s.sq, f, n, OnSem(t, a));
      Members(c, s.sq, f, n);
      if t == thing && (a == attr || attr == 0) {
        if key == NFY_NFY {
          TakenCount(c, s.sq, f, n);
          CountAll(c, es, OnSem(t, a));
        } else {
          CountNone(c, Kept(c, s.sq, f, n), OnSem(t, a));
        }
      } else {
        CountNone(c, es, OnSem(t, a));
      }
    }
  }

  /** Notifying keeps the bound. It keeps counters exact unless attribute 0 drains
      waiters of other attributes, whose counters it leaves. */
  lemma NotifyKeeps(c: Db, s: State, thing: Dbref, attr: int, key: NotifyKey, count: int)
    requires Shape(c, s) && (key == NFY_NFY ==> attr != 0 && count > 0)
    ensures var u := NotifySem(c, s, thing, attr, key, count);
      && (SemOk(c, s) ==> SemOk(c, u))
      && (SemExact(c, s) ==> (SemExact(c, u) <==> attr != 0 || OnlyDefault(s, thing)))
  {
    var u := NotifySem(c, s, thing, attr, key, count);
    forall t: Dbref, a: int | a != 0
      ensures SemOk(c, s) ==> Waiters(c, u, t, a) <= Above(Counter(u, t, a))
      ensures SemExact(c, s) && (attr != 0 || OnlyDefault(s, thing)) ==> Waiters(c, u, t, a) == Above(Counter(u, t, a))
    {
      NotifyCounts(c, s, thing, attr, key, count, t, a);
      if attr == 0 && OnlyDefault(s, thing) && a != A_SEMAPHORE && t == thing {
        CountNone(c, s.sq, OnSem(t, a));
      }
    }
    if SemExact(c, s) && attr == 0 && !OnlyDefault(s, thing) {
      var e :| e in s.sq && e.sem == thing && e.attr != A_SEMAPHORE;
      var i :| 0 <= i < |s.sq| && s.sq[i] == e;
      Positive(c, s.sq, i, OnSem(thing, e.attr));
      NotifyCounts(c, s, thing, attr, key, count, thing, e.attr);
      assert Waiters(c, u, thing, e.attr) != Above(Counter(u, thing, e.attr));
    }
  }
}
