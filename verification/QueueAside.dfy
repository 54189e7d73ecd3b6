/** Entries that wait never run before their time: until a second pass finds one due, it is
    in the wait queue or gone for good, whatever is done to the queue. */
module QueueAside {
  import opened QueueTypes
  import opened QueueSpec
  import opened QueueLists
  import opened QueueFrames
  import opened QueueStructure
  import opened QueueSemaphores
  import opened QueueLedger
  import opened QueueHistory
  import opened QueueRuns
  import opened QueueSchedule

  predicate NotIn(q: seq<Entry>, id: nat) {
    forall e :: e in q ==> e.id != id
  }

  /** An entry set up before that is in no other queue than the wait queue, never joined a
      run queue or an object queue, and was never dropped. */
  predicate Aside(s: State, id: nat) {
    && id < s.pids.nextId
    && NotIn(s.pq, id) && NotIn(s.oq, id) && NotIn(s.sq, id)
    && id !in s.hist.entered && id !in s.hist.toObject && id !in s.hist.lost
  }

  lemma IdsNotIn(q: seq<Entry>, id: nat)
    ensures id in Ids(q) <==> !NotIn(q, id)
  {
    IdsAt(q);
    hide Ids;
    if id in Ids(q) {
      var i :| 0 <= i < |q| && Ids(q)[i] == id;
      assert q[i] in q;
    } else {
      forall e | e in q
        ensures e.id != id
      {
        var i :| 0 <= i < |q| && q[i] == e;
        assert Ids(q)[i] == e.id;
      }
    }
  }

  lemma GivenNotIn(c: Db, es: seq<Entry>, id: nat)
    requires NotIn(es, id)
    ensures forall b :: NotIn(Given(c, es, b), id) && id !in Ids(Given(c, es, b))
  {
    forall b
      ensures NotIn(Given(c, es, b), id) && id !in Ids(Given(c, es, b))
    {
      GivenMembers(c, es, b);
      hide Given, Ids;
      IdsNotIn(Given(c, es, b), id);
    }
  }

  lemma TombedNotIn(c: Db, q: seq<Entry>, f: Filter, id: nat)
    requires NotIn(q, id)
    ensures NotIn(Tombed(c, q, f), id)
  {
    TombedAt(c, q, f);
    hide Tombed, Filter.Picks;
    forall e | e in Tombed(c, q, f)
      ensures e.id != id
    {
      var i :| 0 <= i < |Tombed(c, q, f)| && Tombed(c, q, f)[i] == e;
      assert q[i] in q;
    }
  }

  // ---- operations

  /** Giving other entries to the run queues. */
  lemma GiveAside(c: Db, s: State, es: seq<Entry>, id: nat)
    requires Aside(s, id) && NotIn(es, id)
    ensures Aside(GiveAll(c, s, es), id)
  {
    hide GiveAll, Given, Ids, NotIn;
    GiveAllFrame(c, s, es);
    GiveAllQueues(c, s, es);
    GiveAllLog(c, s, es, true);
    GiveAllLog(c, s, es, false);
    GivenNotIn(c, es, id);
    BothNotIn(s.pq, Given(c, es, true), id);
    BothNotIn(s.oq, Given(c, es, false), id);
  }

  lemma BothNotIn(p: seq<Entry>, q: seq<Entry>, id: nat)
    ensures NotIn(p, id) && NotIn(q, id) ==> NotIn(p + q, id)
  {
  }

  lemma HaltAside(c: Db, s: State, ptarg: Dbref, otarg: Dbref, id: nat)
    requires Aside(s, id)
    ensures Aside(HaltQue(c, s, ptarg, otarg), id)
  {
    hide HaltQue, Tombed, Taken, Kept, Unlist, HaltLists, Ids, Filter.Picks;
    var f := Wanted(ptarg, otarg);
    HaltQueFrame(c, s, ptarg, otarg);
    TombedNotIn(c, s.pq, f, id);
    TombedNotIn(c, s.oq, f, id);
    Members(c, s.sq, f, |s.sq|);
  }

  lemma RouteAside(c: Db, s: State, u: State, e: Entry, wait: int, id: nat)
    requires Aside(s, id) && SameQueues(s, u) && u.pids.nextId > s.pids.nextId && e.id != id
    ensures Aside(Route(c, u, e, wait), id)
  {
    hide Insert;
  }

  lemma WaitAside(c: Db, s: State, player: Dbref, cause: Dbref, wait: int, sem: Dbref, attr: int, now: int, luck: Luck, id: nat)
    requires Aside(s, id)
    ensures Aside(WaitQue(c, s, player, cause, wait, sem, attr, now, luck), id)
  {
    hide Aside, HaltQue, Wasted, Bought, PidScan, Route;
    if s.env.interp {
      var u, r := Setup(c, s, player, cause, luck).0, Setup(c, s, player, cause, luck).1;
      AccountsOnly(c, s, player, luck);
      SameAside(s, Wasted(c, s, player, luck), id);
      match CaseOf(c, s, player, luck)
      case Refused =>
      case OverQuota =>
        var h := HaltQue(c, Wasted(c, s, player, luck), c.owner(player), NOTHING);
        HaltAside(c, Wasted(c, s, player, luck), c.owner(player), NOTHING, id);
        SameAside(h, u, id);
      case Failed =>
        SetupFailed(c, s, player, cause, luck);
        SameAside(s, u, id);
      case Done =>
        SetupDone(c, s, player, cause, luck);
        assert id < s.pids.nextId by { OldAside(s, id); }
        RouteAside(c, s, u, r.value.(waittime := WaitTime(wait, now), sem := sem, attr := attr), wait, id);
    }
  }

  lemma OldAside(s: State, id: nat)
    requires Aside(s, id)
    ensures id < s.pids.nextId
  {
  }

  lemma SameAside(s: State, t: State, id: nat)
    requires t.pq == s.pq && t.oq == s.oq && t.sq == s.sq && t.pids.nextId == s.pids.nextId
    requires t.hist.entered == s.hist.entered && t.hist.toObject == s.hist.toObject && t.hist.lost == s.hist.lost
    ensures Aside(s, id) ==> Aside(t, id)
  {
  }

  lemma NotifyAside(c: Db, s: State, thing: Dbref, attr: int, key: NotifyKey, count: int, id: nat)
    requires Aside(s, id)
    ensures Aside(NotifySem(c, s, thing, attr, key, count), id)
  {
    hide Taken, Kept, DrainAll, GiveAll, Unlist, Ids;
    var f, n := OnSem(thing, attr), Limit(s.sq, key, count);
    var es := Taken(c, s.sq, f, n);
    Members(c, s.sq, f, n);
    DrainAllFrame(c, s, es);
    DrainAllLog(c, s, es);
    GiveAllFrame(c, s, es);
    GiveAside(c, s, es, id);
  }

  lemma HaltOneAside(c: Db, s: State, pid: int, allowed: bool, id: nat)
    requires Structure(c, s) && c.Consistent() && NotRunnable(s, pid) && Aside(s, id)
    ensures Aside(HaltOne(c, s, pid, allowed), id)
  {
    if pid in s.pids.table && allowed {
      hide HaltOne, Lookup, Structure, NotRunnable, Without;
      HaltOneFrame(c, s, pid);
      WithoutKeeps(s.sq, pid);
    }
  }

  lemma RetimeAside(c: Db, s: State, pid: int, mode: TimeMode, val: int, now: int, allowed: bool, id: nat)
    requires Structure(c, s) && c.Consistent() && NotRunnable(s, pid) && Aside(s, id)
    ensures Aside(RetimeOne(c, s, pid, mode, val, now, allowed), id)
  {
    if pid in s.pids.table && allowed {
      hide RetimeOne, Lookup, Structure, NotRunnable, Without, Insert, Replaced, Find, NewTime;
      LookupFinds(c, s, pid);
      RetimeFrame(c, s, pid, mode, val, now);
      var e := Lookup(s, pid).value;
      if e.sem != NOTHING {
        assert e in s.sq;
        ReplacedMembers(s.sq, e.(waittime := NewTime(e.waittime, mode, val, now)));
      }
    }
  }

  lemma StepAside(c: Db, s: State, op: Op, id: nat)
    requires c.Consistent() && Structure(c, s) && Legal(c, s, op) && Aside(s, id)
    ensures Aside(Step(c, s, op), id)
  {
    hide WaitQue, NotifySem, HaltQue, HaltOne, RetimeOne, Structure, Aside;
    match op
    case Wait(player, cause, wait, attr, now, luck) =>
      WaitAside(c, s, player, cause, wait, NOTHING, attr, now, luck, id);
    case WaitOn(player, cause, thing, attr, wait, now, luck) =>
      var s1 := AddSem(s, thing, attr, 1);
      SameAside(s, s1, id);
      WaitAside(c, s1, player, cause, 0, NOTHING, attr, now, luck, id);
      WaitAside(c, s1, player, cause, wait, thing, attr, now, luck, id);
    case Notify(thing, attr, key, count) => NotifyAside(c, s, thing, attr, key, count, id);
    case Halt(p, o) => HaltAside(c, s, p, o, id);
    case HaltPid(pid, allowed) => HaltOneAside(c, s, pid, allowed, id);
    case Retime(pid, mode, val, now, allowed) => RetimeAside(c, s, pid, mode, val, now, allowed, id);
    case SetHalted(_, _) => SameAside(s, Step(c, s, op), id);
    case SetGoing(_, _) => SameAside(s, Step(c, s, op), id);
    case SetFlags(_, _) => SameAside(s, Step(c, s, op), id);
    case Income(_, _) => SameAside(s, Step(c, s, op), id);
  }

  lemma {:induction false} PerformAside(c: Db, s: State, ops: seq<Op>, id: nat)
    requires c.Consistent() && Inv(c, s) && LegalOps(c, s, ops) && Aside(s, id)
    ensures Aside(Perform(c, s, ops), id)
  {
    hide Step, Inv, Aside, Structure, Legal;
    if ops != [] {
      var u := Perform(c, s, ops[..|ops| - 1]);
      PerformKeeps(c, s, ops[..|ops| - 1]);
      InvStructure(c, u);
      PerformAside(c, s, ops[..|ops| - 1], id);
      StepAside(c, u, ops[|ops| - 1], id);
    }
  }

  // ---- running commands

  lemma LaunchPast(c: Db, s: State, id: nat)
    requires s.pq != [] && Aside(s, id)
    ensures Aside(Launch(c, s), id)
  {
    hide Aside, Launch, Settled;
    var e := s.pq[0];
    if e.player >= 0 && e.player !in s.env.going {
      LaunchIs(c, s);
      SettledAside(c, s, id);
      SameAside(Settled(c, s), Launch(c, s), id);
    } else if e.player >= 0 {
      LostAside(c, s, id);
    } else {
      TombIs(c, s);
    }
  }

  lemma SettledAside(c: Db, s: State, id: nat)
    requires s.pq != [] && Aside(s, id)
    ensures Aside(Settled(c, s), id)
  {
    var e, p := s.pq[0], s.pq[0].player;
    assert e in s.pq;
    AccountFrame(c, s, p, c.waitCost);
    AccountFrame(c, Giveto(c, s, p, c.waitCost), c.owner(p), -1);
    hide Giveto, AQueue;
  }

  lemma LostAside(c: Db, s: State, id: nat)
    requires s.pq != [] && s.pq[0].player >= 0 && s.pq[0].player in s.env.going && Aside(s, id)
    ensures Aside(Launch(c, s), id)
  {
    assert s.pq[0] in s.pq;
  }

  lemma PopAside(s: State, id: nat)
    requires s.pq != [] && Aside(s, id)
    ensures Aside(Pop(s), id)
  {
  }

  lemma RunHeadAside(c: Db, s: State, script: seq<Op>, id: nat)
    requires s.pq != [] && c.Consistent() && Inv(c, s) && Aside(s, id)
    requires Runs(s) ==> LegalOps(c, Launch(c, s), script)
    ensures Aside(RunHead(c, s, script), id)
  {
    hide Inv, Launch, Runs, LegalOps, Perform, Pop, Aside;
    var u := Launch(c, s);
    LaunchPast(c, s, id);
    if Runs(s) {
      LaunchKeeps(c, s);
      PerformAside(c, u, script, id);
    }
    var t := if Runs(s) then Perform(c, u, script) else u;
    if t.pq != [] {
      PopAside(t, id);
    }
  }

  lemma {:induction false} TopAside(c: Db, s: State, n: nat, scripts: seq<seq<Op>>, id: nat)
    requires c.Consistent() && Inv(c, s) && LegalTop(c, s, n, scripts) && Aside(s, id)
    ensures Aside(TopLoop(c, s, n, scripts), id)
    decreases n
  {
    hide RunHead, Inv, Launch, Runs, TopLoop, LegalTop, LegalOps, Aside, RanOk;
    TopStep(c, s, n, scripts);
    if n != 0 && s.pq != [] {
      RunHeadKeeps(c, s, Head(scripts));
      RunHeadAside(c, s, Head(scripts), id);
      TopAside(c, RunHead(c, s, Head(scripts)), n - 1, Tail(scripts), id);
    }
  }

  // ---- the second pass

  /** A second pass passes by an entry that is not due. */
  lemma SecondAside(c: Db, s: State, now: int, id: nat)
    requires Aside(s, id) && NotIn(s.wq[..DueCount(s.wq, now)], id)
    ensures Aside(SecondPass(c, s, now), id)
  {
    if s.env.dequeue {
      hide GiveAll, Given, Taken, Kept, ExpireAll, DueFrom, Ids;
      var n := DueCount(s.wq, now);
      var s1 := Promote(s).(wq := s.wq[n..]);
      var s2 := GiveAll(c, s1, s.wq[..n]);
      var es := All(c, s.sq, TimedOut(now));
      IdsNotIn(s.oq, id);
      GiveAside(c, s1, s.wq[..n], id);
      Members(c, s.sq, TimedOut(now), |s.sq|);
      FreedMembers(es);
      GiveAside(c, s2, Freed(es), id);
      ExpireAllFrame(c, s2, es);
      GiveAllFrame(c, s1, s.wq[..n]);
      GiveAllFrame(c, s2, Freed(es));
    }
  }

  lemma NotDue(c: Db, s: State, now: int, e: Entry)
    requires Structure(c, s) && e in s.wq && e.waittime > now
    ensures NotIn(s.wq[..DueCount(s.wq, now)], e.id)
  {
    hide Count, DueFrom;
    TableIsExact(c, s);
    var k :| 0 <= k < |s.wq| && s.wq[k] == e;
    forall x | x in s.wq[..DueCount(s.wq, now)]
      ensures x.id != e.id
    {
      var i :| 0 <= i < DueCount(s.wq, now) && s.wq[i] == x;
      assert Linkeds(s)[i] == x && Linkeds(s)[k] == e && i != k;
    }
  }

  // ---- the theorem

  lemma {:induction false} NumNotIn(q: seq<nat>, id: nat)
    ensures Num(q, id) == 0 <==> id !in q
  {
    if q != [] {
      NumNotIn(q[..|q| - 1], id);
      assert q == q[..|q| - 1] + [q[|q| - 1]];
    }
  }

  /** A waiting entry is aside. */
  lemma WaitsAside(c: Db, s: State, e: Entry)
    requires c.Consistent() && Inv(c, s) && e in s.wq
    ensures Aside(s, e.id)
  {
    var k :| 0 <= k < |s.wq| && s.wq[k] == e;
    WaitsOnce(c, s, k);
    WaitsUnlisted(c, s, k);
  }

  lemma WaitsOnce(c: Db, s: State, k: nat)
    requires Structure(c, s) && k < |s.wq|
    ensures var id := s.wq[k].id;
      id < s.pids.nextId && NotIn(s.pq, id) && NotIn(s.oq, id) && NotIn(s.sq, id)
  {
    hide Count, Shape;
    TableIsExact(c, s);
    var id, q := s.wq[k].id, Linkeds(s);
    assert q[k] == s.wq[k];
    forall e | e in s.pq + s.oq + s.sq
      ensures e.id != id
    {
      var j := IndexIn(s, e);
      assert q[j] == e;
    }
  }

  lemma IndexIn(s: State, e: Entry) returns (j: nat)
    requires e in s.pq + s.oq + s.sq
    ensures |s.wq| <= j < |Linkeds(s)| && Linkeds(s)[j] == e
  {
    var rest := s.sq + s.pq + s.oq;
    assert e in rest && Linkeds(s) == s.wq + rest;
    var i :| 0 <= i < |rest| && rest[i] == e;
    j := |s.wq| + i;
  }

  lemma WaitsUnlisted(c: Db, s: State, k: nat)
    requires c.Consistent() && HistoryOk(c, s) && Shape(c, s) && k < |s.wq|
    requires var id := s.wq[k].id; id < s.pids.nextId && NotIn(s.pq, id) && NotIn(s.oq, id)
    ensures var id := s.wq[k].id; id !in s.hist.entered && id !in s.hist.toObject && id !in s.hist.lost
  {
    hide Count, Num, Ids, Subseq;
    var e, id := s.wq[k], s.wq[k].id;
    assert e in s.wq;
    assert c.good(e.player) && e.player != NOTHING;
    Positive(c, s.wq, k, Is(id));
    Positive(c, s.wq, k, LiveIs(id));
    assert Total(c, s, Is(id)) >= 1 && Total(c, s, LiveIs(id)) >= 1;
    IdsNotIn(s.pq, id);
    IdsNotIn(s.oq, id);
    NumNotIn(s.hist.popped, id);
    NumNotIn(s.hist.lost, id);
    if id in s.hist.promoted {
      var at := SubseqSpots(s.hist.promoted, s.hist.entered);
      var i :| 0 <= i < |s.hist.promoted| && s.hist.promoted[i] == id;
      assert false;
    }
  }

  /** What is aside waits, or its deposit was returned. */
  lemma AsideWaits(c: Db, s: State, id: nat)
    requires Inv(c, s) && Aside(s, id)
    ensures id in s.hist.refunded || exists e :: e in s.wq && e.id == id
  {
    if id !in s.hist.refunded {
      hide Count, Num, Structure, SemOk, QuotaOk, LedgerOk, Once, Threads;
      NumNotIn(s.hist.refunded, id);
      NumNotIn(s.hist.lost, id);
      NoneLive(c, s.pq, id);
      NoneLive(c, s.oq, id);
      NoneLive(c, s.sq, id);
      assert Count(c, s.wq, LiveIs(id)) == 1;
      var i := Witness(c, s.wq, LiveIs(id));
      assert s.wq[i] in s.wq;
    }
  }

  lemma NoneLive(c: Db, q: seq<Entry>, id: nat)
    requires NotIn(q, id)
    ensures Count(c, q, LiveIs(id)) == 0
  {
    CountNone(c, q, LiveIs(id));
  }

  lemma {:induction false} GivenHas(c: Db, es: seq<Entry>, e: Entry)
    requires e in es
    ensures e.(waittime := 0) in Given(c, es, c.isPlayer(e.cause))
  {
    if e != es[|es| - 1] {
      GivenHas(c, es[..|es| - 1], e);
    }
  }

  /** A second pass makes runnable whatever is due. */
  lemma DueReleased(c: Db, s: State, now: int, e: Entry)
    requires Inv(c, s) && s.env.dequeue && e in s.wq && e.waittime <= now
    ensures var t := SecondPass(c, s, now); e.id in t.hist.entered || e.id in t.hist.toObject
  {
    hide SemOk, QuotaOk, LedgerOk, LinksOk, TableOk, SecondPass, Given, Ids, Fate, Once, Subseq;
    SecondHistory(c, s, now);
    SecondReleases(c, s, now);
    var t, due, player := SecondPass(c, s, now), s.wq[..DueCount(s.wq, now)], c.isPlayer(e.cause);
    var i :| 0 <= i < |s.wq| && s.wq[i] == e;
    assert e in due by { InDue(s.wq, now, i); }
    GivenHas(c, due, e);
    var e0 := e.(waittime := 0);
    if player {
      assert e0 in t.pq;
      IdsNotIn(t.pq, e.id);
    } else {
      assert e0 in t.oq;
      IdsNotIn(t.oq, e.id);
    }
  }

  lemma InDue(q: seq<Entry>, now: int, i: nat)
    requires i < |q| && q[i].waittime <= now && Sorted(q)
    ensures i < DueCount(q, now) && q[..DueCount(q, now)][i] == q[i]
  {
  }

  /** An act makes a waiting entry runnable exactly if it is a second pass no earlier than
      the entry's wait time at that moment. Otherwise the entry waits on, or its deposit was
      returned, whatever running commands did. */
  lemma NotReleasedEarly(c: Db, s: State, a: Act, e: Entry)
    requires c.Consistent() && Inv(c, s) && LegalAct(c, s, a) && e in s.wq
    ensures var t := Apply(c, s, a);
      var due := a.Second? && s.env.dequeue && e.waittime <= a.now;
      && (e.id in t.hist.entered || e.id in t.hist.toObject <==> due)
      && (!due ==> e.id in t.hist.refunded || exists x :: x in t.wq && x.id == e.id)
  {
    WaitsAside(c, s, e);
    InvStructure(c, s);
    ApplyKeeps(c, s, a);
    var t := Apply(c, s, a);
    assert Aside(t, e.id) ==> e.id !in t.hist.entered && e.id !in t.hist.toObject;
    hide Inv, Aside, SecondPass, Step, TopLoop, Legal, LegalTop, Structure, RanOk;
    match a
    case Second(now) =>
      if !s.env.dequeue {
        assert t == s by { SecondIdle(c, s, now); }
        AsideWaits(c, t, e.id);
      } else if e.waittime <= now {
        DueReleased(c, s, now, e);
      } else {
        NotDue(c, s, now, e);
        SecondAside(c, s, now, e.id);
        AsideWaits(c, t, e.id);
      }
    case Do(op) =>
      StepAside(c, s, op, e.id);
      AsideWaits(c, t, e.id);
    case Top(n, scripts) =>
      if s.env.dequeue {
        TopAside(c, s, n, scripts, e.id);
      }
      AsideWaits(c, t, e.id);
  }

  lemma SecondIdle(c: Db, s: State, now: int)
    requires !s.env.dequeue
    ensures SecondPass(c, s, now) == s
  {
  }
}
