/** What happens to entries over a whole run: each is refunded at most once, each enters
    a run queue at most once, and the run queues are first in, first out. */
module QueueHistory {
  import opened QueueTypes
  import opened QueueSpec
  import opened QueueLists
  import opened QueueFrames
  import opened QueueStructure
  import opened QueueLedger

  /** Every entry ever set up is exactly one of: live, refunded, lost. */
  ghost predicate Fate(c: Db, s: State) {
    forall id: nat {:trigger LiveIs(id)} ::
      Num(s.hist.refunded, id) + Num(s.hist.lost, id) + Total(c, s, LiveIs(id)) == One(id < s.pids.nextId)
  }

  /** Every entry is linked at most once, and never again after leaving the run queue. */
  ghost predicate Once(c: Db, s: State) {
    forall id: nat {:trigger Is(id)} :: Num(s.hist.popped, id) + Total(c, s, Is(id)) <= One(id < s.pids.nextId)
  }

  /** `a` can be had from `b` by striking out elements. */
  ghost predicate Subseq(a: seq<nat>, b: seq<nat>) {
    if a == [] then true
    else if b == [] then false
    else if a[|a| - 1] == b[|b| - 1] then Subseq(a[..|a| - 1], b[..|b| - 1])
    else Subseq(a, b[..|b| - 1])
  }

  /** Entries leave the run queue in the order they entered it, and the object queue is
      promoted in the order it was filled. */
  ghost predicate Threads(s: State) {
    && s.hist.entered == s.hist.popped + Ids(s.pq)
    && s.hist.toObject == s.hist.promoted + Ids(s.oq)
    && Subseq(s.hist.promoted, s.hist.entered)
  }

  ghost predicate HistoryOk(c: Db, s: State) {
    Fate(c, s) && Once(c, s) && Threads(s)
  }

  // ---- subsequences

  /** Striking out one more element of the shorter one. */
  lemma {:induction false} SubseqTail(a: seq<nat>, b: seq<nat>)
    requires a != [] && Subseq(a, b)
    ensures Subseq(a[..|a| - 1], b)
    decreases |b|, 1
  {
    if a[|a| - 1] != b[|b| - 1] {
      SubseqTail(a, b[..|b| - 1]);
    }
    SubseqDrop(a[..|a| - 1], b);
  }

  lemma {:induction false} SubseqDrop(a: seq<nat>, b: seq<nat>)
    requires b != [] && Subseq(a, b[..|b| - 1])
    ensures Subseq(a, b)
    decreases |b|, 0
  {
    if a != [] && a[|a| - 1] == b[|b| - 1] {
      SubseqTail(a, b[..|b| - 1]);
    }
  }

  lemma {:induction false} SubseqMore(a: seq<nat>, b: seq<nat>, x: seq<nat>)
    requires Subseq(a, b)
    ensures Subseq(a, b + x)
  {
    if x == [] {
      assert b + x == b;
    } else {
      SubseqMore(a, b, x[..|x| - 1]);
      assert (b + x)[..|b + x| - 1] == b + x[..|x| - 1];
      SubseqDrop(a, b + x);
    }
  }

  lemma SubseqSnoc(a: seq<nat>, b: seq<nat>, x: nat)
    requires Subseq(a, b)
    ensures Subseq(a + [x], b + [x])
  {
    assert (a + [x])[..|a|] == a && (b + [x])[..|b|] == b;
  }

  lemma {:induction false} SubseqBoth(a: seq<nat>, b: seq<nat>, x: seq<nat>)
    requires Subseq(a, b)
    ensures Subseq(a + x, b + x)
  {
    hide Subseq;
    if x == [] {
      assert a + x == a && b + x == b;
    } else {
      var x0 := x[..|x| - 1];
      SubseqBoth(a, b, x0);
      SubseqSnoc(a + x0, b + x0, x[|x| - 1]);
      assert a + x == a + x0 + [x[|x| - 1]] && b + x == b + x0 + [x[|x| - 1]];
    }
  }

  lemma {:induction false} SubseqNum(a: seq<nat>, b: seq<nat>, id: nat)
    requires Subseq(a, b)
    ensures Num(a, id) <= Num(b, id)
    decreases |b|
  {
    if a != [] {
      if a[|a| - 1] == b[|b| - 1] {
        SubseqNum(a[..|a| - 1], b[..|b| - 1], id);
      } else {
        SubseqNum(a, b[..|b| - 1], id);
      }
    }
  }

  /** Where the elements of a subsequence come from, in order. */
  lemma {:induction false} SubseqSpots(a: seq<nat>, b: seq<nat>) returns (at: seq<nat>)
    requires Subseq(a, b)
    ensures |at| == |a|
    ensures forall i :: 0 <= i < |a| ==> at[i] < |b| && b[at[i]] == a[i]
    ensures forall i, j :: 0 <= i < j < |a| ==> at[i] < at[j]
    decreases |b|
  {
    if a == [] {
      at := [];
    } else if a[|a| - 1] == b[|b| - 1] {
      at := SubseqSpots(a[..|a| - 1], b[..|b| - 1]);
      at := at + [|b| - 1];
    } else {
      at := SubseqSpots(a, b[..|b| - 1]);
    }
  }

  lemma {:induction false} OnceOnly(q: seq<nat>, i: nat, j: nat)
    requires i < |q| && j < |q| && q[i] == q[j] && Num(q, q[i]) <= 1
    ensures i == j
  {
    var l := |q| - 1;
    if i == l && j < l {
      NumIn(q[..l], j);
    } else if j == l && i < l {
      NumIn(q[..l], i);
    } else if i < l {
      OnceOnly(q[..l], i, j);
    }
  }

  lemma {:induction false} NumIn(q: seq<nat>, i: nat)
    requires i < |q|
    ensures Num(q, q[i]) >= 1
  {
    if i < |q| - 1 {
      NumIn(q[..|q| - 1], i);
    }
  }

  // ---- halting

  lemma {:induction false} TombedIdsAll(c: Db, s: State, ptarg: Dbref, otarg: Dbref)
    ensures Ids(HaltQue(c, s, ptarg, otarg).pq) == Ids(s.pq)
    ensures Ids(HaltQue(c, s, ptarg, otarg).oq) == Ids(s.oq)
  {
    hide Ids, Tombed, HaltQue;
    HaltQueFrame(c, s, ptarg, otarg);
    TombedIds(c, s.pq, Wanted(ptarg, otarg));
    TombedIds(c, s.oq, Wanted(ptarg, otarg));
  }

  lemma HaltHistory(c: Db, s: State, ptarg: Dbref, otarg: Dbref)
    requires c.Consistent() && HistoryOk(c, s)
    ensures HistoryOk(c, HaltQue(c, s, ptarg, otarg))
  {
    hide Count, Taken, Kept, Tombed, HaltQue, Ids, Num, HaltLists, Unlist, Subseq;
    var t := HaltQue(c, s, ptarg, otarg);
    var es := HaltedEntries(c, s, Wanted(ptarg, otarg));
    HaltQueFrame(c, s, ptarg, otarg);
    TombedIdsAll(c, s, ptarg, otarg);
    HaltedOwners(c, s, ptarg, otarg);
    hide HaltedEntries;
    forall id: nat {:trigger LiveIs(id)}
      ensures Num(t.hist.refunded, id) + Num(t.hist.lost, id) + Total(c, t, LiveIs(id)) == One(id < t.pids.nextId)
      ensures Total(c, t, Is(id)) <= Total(c, s, Is(id))
    {
      HaltTotal(c, s, ptarg, otarg, LiveIs(id));
      HaltTotal(c, s, ptarg, otarg, Is(id));
      NumAppend(s.hist.refunded, Ids(es), id);
      IdsCount(c, es, id);
    }
    assert Once(c, t) by {
      forall id: nat {:trigger Is(id)}
        ensures Num(t.hist.popped, id) + Total(c, t, Is(id)) <= One(id < t.pids.nextId)
      {
        var g := LiveIs(id);
        assert Total(c, t, Is(id)) <= Total(c, s, Is(id));
      }
    }
  }

  // ---- changes outside the queues

  lemma SameHistory(c: Db, s: State, t: State)
    requires HistoryOk(c, s)
    requires t.pq == s.pq && t.oq == s.oq && t.wq == s.wq && t.sq == s.sq && t.hist == s.hist
    requires t.pids.nextId == s.pids.nextId
    ensures HistoryOk(c, t)
  {
    hide Count, Num, Ids, Subseq;
    assert forall g: Filter :: Total(c, t, g) == Total(c, s, g);
  }

  // ---- setting up and routing

  lemma SetupNoneHistory(c: Db, s: State, player: Dbref, cause: Dbref, luck: Luck)
    requires c.Consistent() && HistoryOk(c, s)
    requires Setup(c, s, player, cause, luck).1.None?
    ensures HistoryOk(c, Setup(c, s, player, cause, luck).0)
  {
    hide Count, HaltQue, HistoryOk, Wasted, PidScan;
    var b := Wasted(c, s, player, luck);
    AccountsOnly(c, s, player, luck);
    var t := Setup(c, s, player, cause, luck).0;
    match CaseOf(c, s, player, luck)
    case Refused =>
    case OverQuota =>
      SameHistory(c, s, b);
      HaltHistory(c, b, c.owner(player), NOTHING);
      SameHistory(c, HaltQue(c, b, c.owner(player), NOTHING), t);
    case Failed =>
      SetupFailed(c, s, player, cause, luck);
      SameHistory(c, s, t);
  }

  lemma GiveThreads(c: Db, s: State, e: Entry)
    requires Threads(s)
    ensures Threads(Give(c, s, e))
  {
    hide Ids, Subseq;
    SnocIds(s.pq, e.(waittime := 0));
    SnocIds(s.oq, e.(waittime := 0));
    SubseqMore(s.hist.promoted, s.hist.entered, [e.id]);
  }

  lemma GiveAllThreads(c: Db, s: State, es: seq<Entry>)
    requires Threads(s)
    ensures Threads(GiveAll(c, s, es))
  {
    hide Ids, Subseq, GiveAll, Given;
    GiveAllFrame(c, s, es);
    GiveAllQueues(c, s, es);
    GiveAllLog(c, s, es, true);
    GiveAllLog(c, s, es, false);
    AppendIds(s.pq, Given(c, es, true));
    AppendIds(s.oq, Given(c, es, false));
    SubseqMore(s.hist.promoted, s.hist.entered, Ids(Given(c, es, true)));
  }

  lemma RouteRecord(c: Db, u: State, e: Entry, wait: int)
    ensures var t := Route(c, u, e, wait);
      && t.pids == u.pids && t.hist.refunded == u.hist.refunded && t.hist.lost == u.hist.lost
      && t.hist.popped == u.hist.popped
    ensures Threads(u) ==> Threads(Route(c, u, e, wait))
  {
    hide Ids, Subseq, Insert;
    if Threads(u) {
      GiveThreads(c, u, e);
    }
  }

  lemma SameThreads(s: State, u: State)
    requires s.pq == u.pq && s.oq == u.oq && s.hist == u.hist
    ensures Threads(s) ==> Threads(u)
  {
  }

  lemma SameTotal(c: Db, s: State, u: State)
    requires SameQueues(s, u)
    ensures forall g: Filter :: Total(c, u, g) == Total(c, s, g)
  {
    hide Count;
  }

  lemma OneLive(c: Db, e: Entry)
    requires e.player != NOTHING
    ensures forall id: nat {:trigger LiveIs(id)} :: LiveIs(id).Picks(c, e) == (id == e.id) && Steady(LiveIs(id))
    ensures forall id: nat {:trigger Is(id)} :: Is(id).Picks(c, e) == (id == e.id) && Steady(Is(id))
  {
  }

  lemma RouteHistory(c: Db, s: State, u: State, e: Entry, wait: int)
    requires HistoryOk(c, s) && SameQueues(s, u)
    requires e.id == s.pids.nextId && u.pids.nextId == s.pids.nextId + 1 && e.player != NOTHING
    ensures HistoryOk(c, Route(c, u, e, wait))
  {
    hide Count, Route, Num, Threads, Total, Filter.Picks;
    var t := Route(c, u, e, wait);
    RouteRecord(c, u, e, wait);
    SameThreads(s, u);
    assert forall g: Filter :: Total(c, u, g) == Total(c, s, g) by { SameTotal(c, s, u); }
    OneLive(c, e);
    forall id: nat {:trigger LiveIs(id)}
      ensures Total(c, t, LiveIs(id)) == Total(c, s, LiveIs(id)) + One(id == e.id)
    {
      RouteTotal(c, u, e, wait, LiveIs(id));
    }
    forall id: nat {:trigger Is(id)}
      ensures Total(c, t, Is(id)) == Total(c, s, Is(id)) + One(id == e.id)
    {
      RouteTotal(c, u, e, wait, Is(id));
    }
  }

  lemma WaitHistory(c: Db, s: State, player: Dbref, cause: Dbref, wait: int, sem: Dbref, attr: int, now: int, luck: Luck)
    requires c.Consistent() && c.good(player) && HistoryOk(c, s)
    ensures HistoryOk(c, WaitQue(c, s, player, cause, wait, sem, attr, now, luck))
  {
    hide HistoryOk, Route, PidScan, Wasted, Bought, HaltQue;
    if s.env.interp {
      var u, r := Setup(c, s, player, cause, luck).0, Setup(c, s, player, cause, luck).1;
      if r.None? {
        SetupNoneHistory(c, s, player, cause, luck);
      } else {
        SetupDone(c, s, player, cause, luck);
        RouteHistory(c, s, u, r.value.(waittime := WaitTime(wait, now), sem := sem, attr := attr), wait);
      }
    }
  }

  // ---- notifying

  lemma DrainHistory(c: Db, s: State, f: Filter, n: nat)
    requires Shape(c, s) && c.Consistent() && HistoryOk(c, s)
    ensures HistoryOk(c, DrainAll(c, s, Taken(c, s.sq, f, n)).(sq := Kept(c, s.sq, f, n)))
  {
    hide Count, Taken, Kept, DrainAll, Num, Ids, Subseq, Unlist;
    var es := Taken(c, s.sq, f, n);
    var t := DrainAll(c, s, es).(sq := Kept(c, s.sq, f, n));
    Members(c, s.sq, f, n);
    DrainAllFrame(c, s, es);
    DrainAllLog(c, s, es);
    forall id: nat {:trigger LiveIs(id)}
      ensures Num(t.hist.refunded, id) + Total(c, t, LiveIs(id)) == Num(s.hist.refunded, id) + Total(c, s, LiveIs(id))
    {
      Split(c, s.sq, f, n, LiveIs(id));
      NumAppend(s.hist.refunded, Ids(es), id);
      IdsCount(c, es, id);
    }
    forall id: nat {:trigger Is(id)}
      ensures Total(c, t, Is(id)) <= Total(c, s, Is(id))
    {
      Split(c, s.sq, f, n, Is(id));
    }
  }

  lemma ReleaseHistory(c: Db, s: State, f: Filter, n: nat)
    requires HistoryOk(c, s)
    ensures HistoryOk(c, GiveAll(c, s, Taken(c, s.sq, f, n)).(sq := Kept(c, s.sq, f, n)))
  {
    hide Count, Taken, Kept, GiveAll, Num, Ids, Subseq;
    var es := Taken(c, s.sq, f, n);
    var t := GiveAll(c, s, es).(sq := Kept(c, s.sq, f, n));
    GiveAllFrame(c, s, es);
    GiveAllThreads(c, s, es);
    forall g: Filter | Steady(g)
      ensures Total(c, t, g) == Total(c, s, g)
    {
      Split(c, s.sq, f, n, g);
      GiveAllTotal(c, s, es, g);
    }
    assert Threads(t);
  }

  lemma NotifyHistory(c: Db, s: State, thing: Dbref, attr: int, key: NotifyKey, count: int)
    requires Shape(c, s) && c.Consistent() && HistoryOk(c, s)
    ensures HistoryOk(c, NotifySem(c, s, thing, attr, key, count))
  {
    hide Count, Taken, Kept, DrainAll, GiveAll, HistoryOk;
    var f, n := OnSem(thing, attr), Limit(s.sq, key, count);
    var num := if attr != 0 then Get(s.sem, (thing, attr)) else 1;
    var es := Taken(c, s.sq, f, n);
    var u := if num <= 0 then s
             else (if key == NFY_DRAIN then DrainAll(c, s, es) else GiveAll(c, s, es)).(sq := Kept(c, s.sq, f, n));
    if num > 0 {
      DrainHistory(c, s, f, n);
      ReleaseHistory(c, s, f, n);
    }
    SameHistory(c, u, NotifySem(c, s, thing, attr, key, count));
  }

  // ---- the once-a-second pass

  lemma PromoteThreads(s: State)
    requires Threads(s)
    ensures Threads(Promote(s))
  {
    hide Ids, Subseq;
    AppendIds(s.pq, s.oq);
    assert Ids([]) == [] by { IdsNil(); }
    SubseqBoth(s.hist.promoted, s.hist.entered, Ids(s.oq));
  }

  lemma IdsNil()
    ensures Ids([]) == []
  {
  }

  lemma SecondThreads(c: Db, s: State, now: int)
    requires Threads(s) && s.env.dequeue
    ensures var t := SecondPass(c, s, now);
      && Threads(t) && t.pids == s.pids
      && t.hist.refunded == s.hist.refunded && t.hist.lost == s.hist.lost
      && t.hist.popped == s.hist.popped && t.hist.ran == s.hist.ran
  {
    hide Ids, Subseq, GiveAll, Taken, Kept, ExpireAll, DueFrom;
    var n := DueCount(s.wq, now);
    var s1 := Promote(s).(wq := s.wq[n..]);
    var es := All(c, s.sq, TimedOut(now));
    PromoteThreads(s);
    assert Threads(s1);
    GiveAllThreads(c, s1, s.wq[..n]);
    GiveAllFrame(c, s1, s.wq[..n]);
    var s2 := GiveAll(c, s1, s.wq[..n]);
    GiveAllThreads(c, s2, Freed(es));
    GiveAllFrame(c, s2, Freed(es));
    ExpireAllFrame(c, s2, es);
  }

  lemma SecondHistory(c: Db, s: State, now: int)
    requires HistoryOk(c, s)
    ensures HistoryOk(c, SecondPass(c, s, now))
  {
    if s.env.dequeue {
      hide Count, Num, Threads, SecondPass;
      SecondThreads(c, s, now);
      forall g: Filter | Steady(g)
        ensures Total(c, SecondPass(c, s, now), g) == Total(c, s, g)
      {
        SecondTotal(c, s, now, g);
      }
    }
  }

  // ---- single entries by PID

  lemma HaltOneHistory(c: Db, s: State, pid: int, allowed: bool)
    requires Structure(c, s) && c.Consistent() && NotRunnable(s, pid) && HistoryOk(c, s)
    ensures HistoryOk(c, HaltOne(c, s, pid, allowed))
  {
    hide Count, Lookup, Num, Ids, Subseq, Without, Structure, NotRunnable, Find;
    if pid in s.pids.table && allowed {
      LookupFinds(c, s, pid);
      HaltOneFrame(c, s, pid);
      hide HaltOne;
      var e := Lookup(s, pid).value;
      var t := HaltOne(c, s, pid, true);
      assert Threads(t);
      forall id: nat {:trigger LiveIs(id)}
        ensures Num(t.hist.refunded, id) + Total(c, t, LiveIs(id)) == Num(s.hist.refunded, id) + Total(c, s, LiveIs(id))
      {
        HaltOneTotal(c, s, pid, LiveIs(id));
        NumSnoc(s.hist.refunded, e.id, id);
      }
      forall id: nat {:trigger Is(id)}
        ensures Total(c, t, Is(id)) <= Total(c, s, Is(id))
      {
        HaltOneTotal(c, s, pid, Is(id));
      }
    }
  }

  lemma NumSnoc(q: seq<nat>, x: nat, id: nat)
    ensures Num(q + [x], id) == Num(q, id) + One(x == id)
  {
    assert (q + [x])[..|q|] == q;
  }

  lemma RetimeHistory(c: Db, s: State, pid: int, mode: TimeMode, val: int, now: int, allowed: bool)
    requires Structure(c, s) && c.Consistent() && NotRunnable(s, pid) && HistoryOk(c, s)
    ensures HistoryOk(c, RetimeOne(c, s, pid, mode, val, now, allowed))
  {
    if pid in s.pids.table && allowed {
      RetimeFrame(c, s, pid, mode, val, now);
      hide Count, RetimeOne, Lookup, Insert, Num, Ids, Subseq, Without, Replaced;
      forall g: Filter | Steady(g)
        ensures Total(c, RetimeOne(c, s, pid, mode, val, now, true), g) == Total(c, s, g)
      {
        RetimeTotal(c, s, pid, mode, val, now, g);
      }
    }
  }
}
