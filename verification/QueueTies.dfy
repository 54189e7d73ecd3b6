/** The wait queue among entries due at the same time: first threaded, first in line. */
module QueueTies {
  import opened QueueTypes
  import opened QueueSpec
  import opened QueueLists
  import opened QueueFrames
  import opened QueueStructure
  import opened QueueRuns

  /** When `id` was last threaded: its last place in the log, or -1. */
  function LastAt(log: seq<nat>, id: nat): (i: int)
    ensures -1 <= i < |log|
    ensures i >= 0 ==> log[i] == id
    ensures forall j :: i < j < |log| ==> log[j] != id
  {
    if log == [] then -1
    else if log[|log| - 1] == id then |log| - 1
    else LastAt(log[..|log| - 1], id)
  }

  /** Entries due at the same time stand in the order they were last threaded. */
  ghost predicate InTurn(q: seq<Entry>, log: seq<nat>) {
    forall i, j :: 0 <= i < j < |q| && q[i].waittime == q[j].waittime ==> LastAt(log, q[i].id) < LastAt(log, q[j].id)
  }

  ghost predicate TiesOk(s: State) {
    InTurn(s.wq, s.hist.threaded)
  }

  lemma {:induction false} InsertTurn(q: seq<Entry>, e: Entry, log: seq<nat>)
    requires Sorted(q) && InTurn(q, log) && forall x :: x in q ==> x.id != e.id
    ensures InTurn(Insert(q, e), log + [e.id])
  {
    var n := DueCount(q, e.waittime);
    var r := Insert(q, e);
    assert (log + [e.id])[..|log|] == log;
    assert forall id :: id != e.id ==> LastAt(log + [e.id], id) == LastAt(log, id);
    hide DueFrom, LastAt;
    forall i, j | 0 <= i < j < |r| && r[i].waittime == r[j].waittime
      ensures LastAt(log + [e.id], r[i].id) < LastAt(log + [e.id], r[j].id)
    {
      if i == n {
        assert false;
      } else if j == n {
        assert r[i] == q[i] && LastAt(log + [e.id], e.id) == |log|;
      } else {
        var i0, j0 := if i < n then i else i - 1, if j < n then j else j - 1;
        assert r[i] == q[i0] && r[j] == q[j0] && q[i0] in q && q[j0] in q;
      }
    }
  }

  lemma {:induction false} KeptTurn(c: Db, q: seq<Entry>, f: Filter, n: nat, log: seq<nat>)
    requires InTurn(q, log)
    ensures InTurn(Kept(c, q, f, n), log)
  {
    if q != [] {
      var q0 := q[..|q| - 1];
      KeptTurn(c, q0, f, n, log);
      Members(c, q0, f, n);
      var e := q[|q| - 1];
      hide Taken, Filter.Picks, LastAt;
      var r := Kept(c, q0, f, n);
      assert Kept(c, q, f, n) == r || Kept(c, q, f, n) == r + [e];
      hide Kept;
      forall i | 0 <= i < |r| && r[i].waittime == e.waittime
        ensures LastAt(log, r[i].id) < LastAt(log, e.id)
      {
        assert r[i] in q0;
        var j :| 0 <= j < |q0| && q0[j] == r[i];
        assert q[j] == r[i];
      }
    }
  }

  lemma WithoutTurn(q: seq<Entry>, pid: int, log: seq<nat>)
    requires InTurn(q, log)
    ensures InTurn(Without(q, pid), log)
  {
    hide LastAt, Find;
  }

  // ---- one operation

  lemma HaltTurn(c: Db, s: State, ptarg: Dbref, otarg: Dbref)
    requires TiesOk(s)
    ensures TiesOk(HaltQue(c, s, ptarg, otarg))
  {
    HaltQueFrame(c, s, ptarg, otarg);
    KeptTurn(c, s.wq, Wanted(ptarg, otarg), |s.wq|, s.hist.threaded);
    hide HaltQue, InTurn, Kept, Taken;
  }

  /** A serial number not given out yet is no waiting entry's. */
  lemma Fresh(c: Db, s: State)
    requires Structure(c, s)
    ensures forall e :: e in s.wq ==> e.id < s.pids.nextId
  {
    hide Count;
    TableIsExact(c, s);
    forall e | e in s.wq
      ensures e.id < s.pids.nextId
    {
      var i :| 0 <= i < |s.wq| && s.wq[i] == e;
      assert Linkeds(s)[i] == e;
    }
  }

  lemma WaitTurn(c: Db, s: State, player: Dbref, cause: Dbref, wait: int, sem: Dbref, attr: int, now: int, luck: Luck)
    requires Structure(c, s) && TiesOk(s)
    ensures TiesOk(WaitQue(c, s, player, cause, wait, sem, attr, now, luck))
  {
    hide InTurn, Insert, PidScan, HaltQue, Wasted, Bought, LinksOk;
    if s.env.interp {
      AccountsOnly(c, s, player, luck);
      match CaseOf(c, s, player, luck)
      case Refused =>
      case OverQuota => HaltTurn(c, Wasted(c, s, player, luck), c.owner(player), NOTHING);
      case Failed => SetupFailed(c, s, player, cause, luck);
      case Done =>
        SetupDone(c, s, player, cause, luck);
        var e := Setup(c, s, player, cause, luck).1.value;
        Fresh(c, s);
        InsertTurn(s.wq, e.(waittime := WaitTime(wait, now), sem := sem, attr := attr), s.hist.threaded);
    }
  }

  lemma NotifyTurn(c: Db, s: State, thing: Dbref, attr: int, key: NotifyKey, count: int)
    requires TiesOk(s)
    ensures TiesOk(NotifySem(c, s, thing, attr, key, count))
  {
    hide Taken, Kept, DrainAll, GiveAll, InTurn;
    var es := Taken(c, s.sq, OnSem(thing, attr), Limit(s.sq, key, count));
    DrainAllFrame(c, s, es);
    DrainAllLog(c, s, es);
    GiveAllFrame(c, s, es);
  }

  lemma HaltOneTurn(c: Db, s: State, pid: int, allowed: bool)
    requires TiesOk(s)
    ensures TiesOk(HaltOne(c, s, pid, allowed))
  {
    WithoutTurn(s.wq, pid, s.hist.threaded);
    hide InTurn, Lookup, MarkHalted, Without;
  }

  /** No other waiting entry has the serial number of one that is retimed. */
  lemma OthersTurn(c: Db, s: State, pid: int)
    requires Structure(c, s) && Find(s.wq, pid) < |s.wq|
    ensures forall x :: x in Without(s.wq, pid) ==> x.id != s.wq[Find(s.wq, pid)].id
  {
    hide Count, Find;
    TableIsExact(c, s);
    var k := Find(s.wq, pid);
    forall i | 0 <= i < |s.wq| && i != k
      ensures s.wq[i].id != s.wq[k].id
    {
      assert Linkeds(s)[i] == s.wq[i] && Linkeds(s)[k] == s.wq[k];
    }
  }

  lemma RetimeTurn(c: Db, s: State, pid: int, mode: TimeMode, val: int, now: int, allowed: bool)
    requires Structure(c, s) && c.Consistent() && NotRunnable(s, pid) && TiesOk(s)
    ensures TiesOk(RetimeOne(c, s, pid, mode, val, now, allowed))
  {
    if pid in s.pids.table && allowed {
      LookupFinds(c, s, pid);
      RetimeFrame(c, s, pid, mode, val, now);
      var e := Lookup(s, pid).value;
      if e.sem == NOTHING {
        OthersTurn(c, s, pid);
        WithoutTurn(s.wq, pid, s.hist.threaded);
        WithoutKeeps(s.wq, pid);
        InsertTurn(Without(s.wq, pid), e.(waittime := NewTime(e.waittime, mode, val, now)), s.hist.threaded);
      }
      hide InTurn, RetimeOne, Lookup, Without, Insert;
    }
  }

  lemma StepTurn(c: Db, s: State, op: Op)
    requires c.Consistent() && Structure(c, s) && Legal(c, s, op) && TiesOk(s)
    ensures TiesOk(Step(c, s, op))
  {
    hide TiesOk, WaitQue, NotifySem, HaltQue, HaltOne, RetimeOne, Structure;
    match op
    case Wait(player, cause, wait, attr, now, luck) =>
      WaitTurn(c, s, player, cause, wait, NOTHING, attr, now, luck);
    case WaitOn(player, cause, thing, attr, wait, now, luck) =>
      var s1 := AddSem(s, thing, attr, 1);
      SameStructure(c, s, s1);
      SameTurn(s, s1);
      WaitTurn(c, s1, player, cause, 0, NOTHING, attr, now, luck);
      WaitTurn(c, s1, player, cause, wait, thing, attr, now, luck);
    case Notify(thing, attr, key, count) => NotifyTurn(c, s, thing, attr, key, count);
    case Halt(p, o) => HaltTurn(c, s, p, o);
    case HaltPid(pid, allowed) => HaltOneTurn(c, s, pid, allowed);
    case Retime(pid, mode, val, now, allowed) => RetimeTurn(c, s, pid, mode, val, now, allowed);
    case SetHalted(_, _) => SameTurn(s, Step(c, s, op));
    case SetGoing(_, _) => SameTurn(s, Step(c, s, op));
    case SetFlags(_, _) => SameTurn(s, Step(c, s, op));
    case Income(_, _) => SameTurn(s, Step(c, s, op));
  }

  lemma SameTurn(s: State, t: State)
    requires t.wq == s.wq && t.hist.threaded == s.hist.threaded
    ensures TiesOk(s) ==> TiesOk(t)
  {
  }

  lemma SecondTurn(c: Db, s: State, now: int)
    requires TiesOk(s)
    ensures TiesOk(SecondPass(c, s, now))
  {
    if s.env.dequeue {
      var n := DueCount(s.wq, now);
      var s1 := Promote(s).(wq := s.wq[n..]);
      var s2 := GiveAll(c, s1, s.wq[..n]);
      assert InTurn(s.wq[n..], s.hist.threaded);
      hide InTurn, Taken, Kept, GiveAll, ExpireAll, DueFrom, Ids;
      GiveAllFrame(c, s1, s.wq[..n]);
      var es := All(c, s.sq, TimedOut(now));
      ExpireAllFrame(c, s2, es);
      GiveAllFrame(c, s2, Freed(es));
    }
  }
}
