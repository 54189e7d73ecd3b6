/** A delayed command runs when it was asked to: not before, and with the first second pass
    that comes no earlier, unless it is halted or retimed. */
module QueueDue {
  import opened QueueTypes
  import opened QueueSpec
  import opened QueueLists
  import opened QueueFrames
  import opened QueueStructure
  import opened QueueSemaphores
  import opened QueueRuns
  import opened QueueSchedule
  import opened QueueAside
  import opened QueueTies
  import opened QueueLaws

  // ---- what leaves an entry's time alone

  predicate Unretimed(pid: int, ops: seq<Op>) {
    forall i :: 0 <= i < |ops| ==> !(ops[i].Retime? && ops[i].pid == pid)
  }

  /** No operation retimes the PID, and every second pass comes before `due`. */
  predicate ActBefore(pid: int, due: int, a: Act) {
    match a
    case Do(op) => Unretimed(pid, [op])
    case Second(now) => now < due
    case Top(_, scripts) => forall i :: 0 <= i < |scripts| ==> Unretimed(pid, scripts[i])
  }

  predicate AllBefore(pid: int, due: int, acts: seq<Act>) {
    forall i :: 0 <= i < |acts| ==> ActBefore(pid, due, acts[i])
  }

  /** Aside, and with the PID and the time it has if it waits. */
  predicate Bides(s: State, id: nat, pid: int, due: int) {
    Aside(s, id) && forall e :: e in s.wq && e.id == id ==> e.pid == pid && e.waittime == due
  }

  /** No new record of the entry joins the wait queue. */
  predicate NoneNew(s: State, t: State, id: nat) {
    forall e :: e in t.wq && e.id == id ==> e in s.wq
  }

  lemma InsertNew(s: State, q: seq<Entry>, e: Entry, id: nat)
    requires e.id != id && forall x :: x in q ==> x in s.wq
    ensures forall x :: x in Insert(q, e) && x.id == id ==> x in s.wq
  {
    InsertMembers(q, e);
    hide Insert;
  }

  lemma HaltNew(c: Db, s: State, p: Dbref, o: Dbref, id: nat)
    ensures NoneNew(s, HaltQue(c, s, p, o), id)
  {
    hide HaltQue, Sift;
    HaltReaches(c, s, p, o);
    SiftMembers(s.wq, e => !Reached(c, p, o, e));
  }

  lemma WaitNew(c: Db, s: State, player: Dbref, cause: Dbref, w: int, sem: Dbref, attr: int, now: int, luck: Luck, id: nat)
    requires id < s.pids.nextId
    ensures NoneNew(s, WaitQue(c, s, player, cause, w, sem, attr, now, luck), id)
  {
    hide Insert, PidScan, HaltQue, Wasted, Bought;
    if s.env.interp {
      AccountsOnly(c, s, player, luck);
      match CaseOf(c, s, player, luck)
      case Refused =>
      case OverQuota => HaltNew(c, Wasted(c, s, player, luck), c.owner(player), NOTHING, id);
      case Failed => SetupFailed(c, s, player, cause, luck);
      case Done =>
        SetupDone(c, s, player, cause, luck);
        var e := Setup(c, s, player, cause, luck).1.value;
        InsertNew(s, s.wq, e.(waittime := WaitTime(w, now), sem := sem, attr := attr), id);
    }
  }

  lemma RetimeNew(c: Db, s: State, pid: int, mode: TimeMode, val: int, now: int, allowed: bool, id: nat)
    requires Structure(c, s) && c.Consistent() && NotRunnable(s, pid)
    requires forall e :: e in s.wq && e.id == id ==> e.pid != pid
    requires Aside(s, id)
    ensures NoneNew(s, RetimeOne(c, s, pid, mode, val, now, allowed), id)
  {
    if pid in s.pids.table && allowed {
      hide RetimeOne, Lookup, Structure, NotRunnable, Without, Insert, Replaced, NewTime, Find;
      LookupFinds(c, s, pid);
      RetimeFrame(c, s, pid, mode, val, now);
      var e := Lookup(s, pid).value;
      if e.sem == NOTHING {
        assert e in s.wq;
        WithoutKeeps(s.wq, pid);
        InsertNew(s, Without(s.wq, pid), e.(waittime := NewTime(e.waittime, mode, val, now)), id);
      }
    }
  }

  lemma StepNew(c: Db, s: State, op: Op, id: nat, pid: int, due: int)
    requires c.Consistent() && Structure(c, s) && Legal(c, s, op) && Bides(s, id, pid, due)
    requires Unretimed(pid, [op])
    ensures NoneNew(s, Step(c, s, op), id)
  {
    assert id < s.pids.nextId && !([op][0].Retime? && [op][0].pid == pid);
    hide WaitQue, NotifySem, HaltQue, HaltOne, RetimeOne, Structure, Aside;
    match op
    case Wait(player, cause, wait, attr, now, luck) =>
      WaitNew(c, s, player, cause, wait, NOTHING, attr, now, luck, id);
    case WaitOn(player, cause, thing, attr, wait, now, luck) =>
      var s1 := AddSem(s, thing, attr, 1);
      WaitNew(c, s1, player, cause, 0, NOTHING, attr, now, luck, id);
      WaitNew(c, s1, player, cause, wait, thing, attr, now, luck, id);
    case Notify(thing, attr, key, count) => NotifyNew(c, s, thing, attr, key, count);
    case Halt(p, o) => HaltNew(c, s, p, o, id);
    case HaltPid(other, allowed) => HaltOneNew(c, s, other, allowed, id);
    case Retime(other, mode, val, now, allowed) => RetimeNew(c, s, other, mode, val, now, allowed, id);
    case SetHalted(_, _) =>
    case SetGoing(_, _) =>
    case SetFlags(_, _) =>
    case Income(_, _) =>
  }

  lemma NotifyNew(c: Db, s: State, thing: Dbref, attr: int, key: NotifyKey, count: int)
    ensures NotifySem(c, s, thing, attr, key, count).wq == s.wq
  {
    hide NotifySem;
    NotifyIs(c, s, thing, attr, key, count);
  }

  lemma HaltOneNew(c: Db, s: State, pid: int, allowed: bool, id: nat)
    ensures NoneNew(s, HaltOne(c, s, pid, allowed), id)
  {
    WithoutKeeps(s.wq, pid);
    hide Lookup, MarkHalted, Without;
  }

  lemma BidesOn(s: State, t: State, id: nat, pid: int, due: int)
    requires Bides(s, id, pid, due) && NoneNew(s, t, id) && Aside(t, id)
    ensures Bides(t, id, pid, due)
  {
  }

  lemma StepBides(c: Db, s: State, op: Op, id: nat, pid: int, due: int)
    requires c.Consistent() && Structure(c, s) && Legal(c, s, op) && Bides(s, id, pid, due) && Unretimed(pid, [op])
    ensures Bides(Step(c, s, op), id, pid, due)
  {
    hide Step, Structure, Aside, NoneNew;
    StepAside(c, s, op, id);
    StepNew(c, s, op, id, pid, due);
    BidesOn(s, Step(c, s, op), id, pid, due);
  }

  lemma {:induction false} PerformBides(c: Db, s: State, ops: seq<Op>, id: nat, pid: int, due: int)
    requires c.Consistent() && Inv(c, s) && LegalOps(c, s, ops) && Bides(s, id, pid, due) && Unretimed(pid, ops)
    ensures Bides(Perform(c, s, ops), id, pid, due)
  {
    hide Step, Inv, Bides, Structure, Legal;
    if ops != [] {
      var front := ops[..|ops| - 1];
      var u := Perform(c, s, front);
      PerformKeeps(c, s, front);
      InvStructure(c, u);
      PerformBides(c, s, front, id, pid, due);
      StepBides(c, u, ops[|ops| - 1], id, pid, due);
    }
  }

  lemma RunHeadBides(c: Db, s: State, script: seq<Op>, id: nat, pid: int, due: int)
    requires s.pq != [] && c.Consistent() && Inv(c, s) && Bides(s, id, pid, due) && Unretimed(pid, script)
    requires Runs(s) ==> LegalOps(c, Launch(c, s), script)
    ensures Bides(RunHead(c, s, script), id, pid, due)
  {
    hide Inv, Launch, Runs, LegalOps, Perform, Pop, Aside, Unretimed;
    var u := Launch(c, s);
    LaunchPast(c, s, id);
    HeadFate(c, s);
    if Runs(s) {
      LaunchKeeps(c, s);
      PerformBides(c, u, script, id, pid, due);
    }
    var t := if Runs(s) then Perform(c, u, script) else u;
    if t.pq != [] {
      PopAside(t, id);
      PopFrame(t);
    }
  }

  lemma {:induction false} TopBides(c: Db, s: State, n: nat, scripts: seq<seq<Op>>, id: nat, pid: int, due: int)
    requires c.Consistent() && Inv(c, s) && LegalTop(c, s, n, scripts) && Bides(s, id, pid, due)
    requires forall i :: 0 <= i < |scripts| ==> Unretimed(pid, scripts[i])
    ensures Bides(TopLoop(c, s, n, scripts), id, pid, due)
    decreases n
  {
    hide RunHead, Inv, Launch, Runs, TopLoop, LegalTop, LegalOps, Bides, RanOk;
    TopStep(c, s, n, scripts);
    if n != 0 && s.pq != [] {
      assert Unretimed(pid, []);
      RunHeadKeeps(c, s, Head(scripts));
      RunHeadBides(c, s, Head(scripts), id, pid, due);
      TopBides(c, RunHead(c, s, Head(scripts)), n - 1, Tail(scripts), id, pid, due);
    }
  }

  lemma SecondBides(c: Db, s: State, now: int, id: nat, pid: int, due: int)
    requires Inv(c, s) && Bides(s, id, pid, due) && now < due
    ensures Bides(SecondPass(c, s, now), id, pid, due)
  {
    InvStructure(c, s);
    if s.env.dequeue {
      SecondIs(c, s, now);
      hide Inv, SecondPass, Aside, Sift, Given, Freed;
      SiftMembers(s.wq, (e: Entry) => e.waittime > now);
      forall x | x in s.wq[..DueCount(s.wq, now)]
        ensures x.id != id
      {
        assert x in s.wq && x.waittime <= now;
      }
      SecondAside(c, s, now, id);
    } else {
      SecondIdle(c, s, now);
    }
  }

  lemma ActBides(c: Db, s: State, a: Act, id: nat, pid: int, due: int)
    requires c.Consistent() && Inv(c, s) && LegalAct(c, s, a) && Bides(s, id, pid, due) && ActBefore(pid, due, a)
    ensures Bides(Apply(c, s, a), id, pid, due)
  {
    InvStructure(c, s);
    hide Inv, Bides, SecondPass, Step, TopLoop, Legal, LegalTop, Structure, Unretimed;
    match a
    case Do(op) => StepBides(c, s, op, id, pid, due);
    case Second(now) => SecondBides(c, s, now, id, pid, due);
    case Top(n, scripts) =>
      if s.env.dequeue {
        TopBides(c, s, n, scripts, id, pid, due);
      }
  }

  lemma {:induction false} RunBides(c: Db, s: State, acts: seq<Act>, id: nat, pid: int, due: int)
    requires c.Consistent() && Inv(c, s) && LegalRun(c, s, acts) && Bides(s, id, pid, due) && AllBefore(pid, due, acts)
    ensures Inv(c, Run(c, s, acts)) && Bides(Run(c, s, acts), id, pid, due)
  {
    hide Inv, Bides, Apply, LegalAct, ActBefore, RanOk;
    if acts != [] {
      var front, a := acts[..|acts| - 1], acts[|acts| - 1];
      RunBides(c, s, front, id, pid, due);
      ApplyKeeps(c, Run(c, s, front), a);
      ActBides(c, Run(c, s, front), a, id, pid, due);
    }
  }

  // ---- the theorem

  lemma WaitInv(c: Db, s: State, player: Dbref, cause: Dbref, w: int, attr: int, now: int, luck: Luck)
    requires c.Consistent() && Inv(c, s) && c.good(player) && IsInt(w) && IsTime(now)
    ensures Inv(c, WaitQue(c, s, player, cause, w, NOTHING, attr, now, luck))
  {
    hide Inv, WaitQue;
    StepKeeps(c, s, Wait(player, cause, w, attr, now, luck));
  }

  lemma TableOf(c: Db, s: State)
    requires Structure(c, s)
    ensures TableOk(c, s.pids)
  {
  }

  /** The entry a wait makes bides its time. */
  lemma WaitBides(c: Db, s: State, player: Dbref, cause: Dbref, w: int, attr: int, now: int, luck: Luck)
    requires c.Consistent() && Inv(c, s) && c.good(player) && Enqueues(c, s, player, luck)
    requires 0 < w <= INT_MAX && IsTime(now)
    ensures Setup(c, s, player, cause, luck).1.Some?
    ensures var u := WaitQue(c, s, player, cause, w, NOTHING, attr, now, luck);
      var pid := Setup(c, s, player, cause, luck).1.value.pid;
      && Inv(c, u) && Bides(u, s.pids.nextId, pid, DueAt(w, now))
      && exists e :: e in u.wq && e.id == s.pids.nextId
  {
    hide Inv, WaitQue, Enqueues, Setup, Aside, Structure;
    WaitInv(c, s, player, cause, w, attr, now, luck);
    InvStructure(c, s);
    assert TableOk(c, s.pids) by { TableOf(c, s); }
    hide TableOk;
    var u := WaitQue(c, s, player, cause, w, NOTHING, attr, now, luck);
    WaitEnrolls(c, s, player, cause, w, attr, now, luck);
    Fresh(c, s);
    var e := Entry(s.pids.nextId, player, cause, Setup(c, s, player, cause, luck).1.value.pid, DueAt(w, now), NOTHING, attr);
    assert e in multiset(u.wq);
    WaitsAside(c, u, e);
    forall x | x in u.wq && x.id == e.id
      ensures x == e
    {
      assert x in multiset(u.wq);
    }
  }

  /** A command that is to wait `w` seconds, and gets an entry, is not made runnable by any
      run in which it is not retimed and every second pass comes before now + w (or the end
      of time). The first pass that comes no earlier makes it runnable, unless it was halted
      meanwhile. */
  lemma RunsWhenDue(c: Db, s: State, player: Dbref, cause: Dbref, w: int, attr: int, now: int, luck: Luck,
                    acts: seq<Act>, later: int)
    requires c.Consistent() && Inv(c, s) && c.good(player) && Enqueues(c, s, player, luck)
    requires 0 < w <= INT_MAX && IsTime(now)
    requires Setup(c, s, player, cause, luck).1.Some?
    requires var u := WaitQue(c, s, player, cause, w, NOTHING, attr, now, luck);
      LegalRun(c, u, acts) && AllBefore(Setup(c, s, player, cause, luck).1.value.pid, DueAt(w, now), acts)
    ensures var id := s.pids.nextId;
      var v := Run(c, WaitQue(c, s, player, cause, w, NOTHING, attr, now, luck), acts);
      var t := SecondPass(c, v, later);
      && id !in v.hist.entered && id !in v.hist.toObject
      && (id in v.hist.refunded || (exists e :: e in v.wq && e.id == id && e.waittime == DueAt(w, now)))
      && (v.env.dequeue && later >= DueAt(w, now) && id !in v.hist.refunded ==>
            id in t.hist.entered || id in t.hist.toObject)
  {
    hide Inv, WaitQue, Run, Enqueues, Setup, SecondPass;
    WaitBides(c, s, player, cause, w, attr, now, luck);
    var u := WaitQue(c, s, player, cause, w, NOTHING, attr, now, luck);
    var id, pid := s.pids.nextId, Setup(c, s, player, cause, luck).1.value.pid;
    RunBides(c, u, acts, id, pid, DueAt(w, now));
    var v := Run(c, u, acts);
    AsideWaits(c, v, id);
    if id !in v.hist.refunded {
      var e :| e in v.wq && e.id == id;
      if v.env.dequeue && later >= DueAt(w, now) {
        DueReleased(c, v, later, e);
      }
    }
  }
}
