/** Which fields each fold touches, and how entries flow between the four queues. */
module QueueFrames {
  import opened QueueTypes
  import opened QueueSpec
  import opened QueueLists

  /** Entries in the four queues that `g` picks. */
  ghost function Total(c: Db, s: State, g: Filter): nat {
    Count(c, s.pq, g) + Count(c, s.oq, g) + Count(c, s.wq, g) + Count(c, s.sq, g)
  }

  // ---- giving

  lemma {:induction false} GiveAllFrame(c: Db, s: State, es: seq<Entry>)
    ensures var t := GiveAll(c, s, es);
      && t.wq == s.wq && t.sq == s.sq && t.pids == s.pids && t.sem == s.sem && t.acct == s.acct && t.env == s.env
      && t.hist == s.hist.(entered := t.hist.entered, toObject := t.hist.toObject)
  {
    if es != [] {
      GiveAllFrame(c, s, es[..|es| - 1]);
    }
  }

  /** The entries of `es` caused by players (or by objects), as they are threaded. */
  function Given(c: Db, es: seq<Entry>, byPlayer: bool): (r: seq<Entry>)
    ensures |r| <= |es|
    ensures forall e :: e in r ==> e.waittime == 0 && c.isPlayer(e.cause) == byPlayer
  {
    if es == [] then [] else
    var r := Given(c, es[..|es| - 1], byPlayer);
    var e := es[|es| - 1];
    if c.isPlayer(e.cause) == byPlayer then r + [e.(waittime := 0)] else r
  }

  lemma {:induction false} GiveAllQueues(c: Db, s: State, es: seq<Entry>)
    ensures GiveAll(c, s, es).pq == s.pq + Given(c, es, true)
    ensures GiveAll(c, s, es).oq == s.oq + Given(c, es, false)
  {
    if es != [] {
      GiveAllQueues(c, s, es[..|es| - 1]);
    }
  }

  /** The record of entries joining the run queue, or the object queue. */
  function JoinLog(h: History, byPlayer: bool): seq<nat> {
    if byPlayer then h.entered else h.toObject
  }

  lemma GiveAllLogStep(c: Db, s: State, es: seq<Entry>, byPlayer: bool)
    requires es != []
    ensures var es0, e := es[..|es| - 1], es[|es| - 1];
      && JoinLog(GiveAll(c, s, es).hist, byPlayer) == JoinLog(GiveAll(c, s, es0).hist, byPlayer)
           + (if c.isPlayer(e.cause) == byPlayer then [e.id] else [])
      && Given(c, es, byPlayer) == Given(c, es0, byPlayer)
           + (if c.isPlayer(e.cause) == byPlayer then [e.(waittime := 0)] else [])
  {
  }

  lemma Regroup<T>(a: seq<T>, b: seq<T>, d: seq<T>)
    ensures a + b + d == a + (b + d)
    ensures a + [] == a
  {
  }

  lemma {:induction false} GiveAllLog(c: Db, s: State, es: seq<Entry>, byPlayer: bool)
    ensures JoinLog(GiveAll(c, s, es).hist, byPlayer) == JoinLog(s.hist, byPlayer) + Ids(Given(c, es, byPlayer))
  {
    if es == [] {
    } else {
      hide Ids, Given, GiveAll, JoinLog;
      var es0, e := es[..|es| - 1], es[|es| - 1];
      GiveAllLog(c, s, es0, byPlayer);
      GiveAllLogStep(c, s, es, byPlayer);
      SnocIds(Given(c, es0, byPlayer), e.(waittime := 0));
      Regroup(JoinLog(s.hist, byPlayer), Ids(Given(c, es0, byPlayer)), [e.id]);
    }
  }

  ghost predicate Steady(g: Filter) {
    g.Alive() || g.Fixed()
  }

  lemma GivenStep(c: Db, es: seq<Entry>, byPlayer: bool)
    requires es != []
    ensures var es0, e := es[..|es| - 1], es[|es| - 1];
      && es == es0 + [e]
      && Given(c, es, byPlayer) ==
           if c.isPlayer(e.cause) == byPlayer then Given(c, es0, byPlayer) + [e.(waittime := 0)] else Given(c, es0, byPlayer)
  {
  }

  /** Counts do not depend on wait times. */
  lemma AnyTime(c: Db, e: Entry, t: int, g: Filter)
    requires Steady(g)
    ensures g.Picks(c, e.(waittime := t)) == g.Picks(c, e)
  {
  }

  lemma {:induction false} GivenCount(c: Db, es: seq<Entry>, g: Filter)
    requires Steady(g)
    ensures Count(c, es, g) == Count(c, Given(c, es, true), g) + Count(c, Given(c, es, false), g)
  {
    NilCount(c);
    assert Given(c, [], true) == [] == Given(c, [], false);
    hide Count, Given, Filter.Picks, Steady;
    if es != [] {
      var es0, e := es[..|es| - 1], es[|es| - 1];
      GivenCount(c, es0, g);
      GivenStep(c, es, true);
      GivenStep(c, es, false);
      AnyTime(c, e, 0, g);
      Snoc(c, Given(c, es0, c.isPlayer(e.cause)), e.(waittime := 0), g);
      Snoc(c, es0, e, g);
    }
  }

  lemma {:induction false} GivenMembers(c: Db, es: seq<Entry>, byPlayer: bool)
    ensures forall x :: x in Given(c, es, byPlayer) ==> exists e :: e in es && x == e.(waittime := 0)
  {
    if es != [] {
      GivenMembers(c, es[..|es| - 1], byPlayer);
      forall x | x in Given(c, es, byPlayer)
        ensures exists e :: e in es && x == e.(waittime := 0)
      {
        if x in Given(c, es[..|es| - 1], byPlayer) {
          var e :| e in es[..|es| - 1] && x == e.(waittime := 0);
          assert e in es;
        } else {
          assert es[|es| - 1] in es;
        }
      }
    }
  }

  lemma GiveAllTotal(c: Db, s: State, es: seq<Entry>, g: Filter)
    requires Steady(g)
    ensures Total(c, GiveAll(c, s, es), g) == Total(c, s, g) + Count(c, es, g)
  {
    hide Count, Given;
    GiveAllFrame(c, s, es);
    GiveAllQueues(c, s, es);
    GivenCount(c, es, g);
    Append(c, s.pq, Given(c, es, true), g);
    Append(c, s.oq, Given(c, es, false), g);
  }

  lemma GiveTotal(c: Db, s: State, e: Entry, g: Filter)
    requires Steady(g)
    ensures Total(c, Give(c, s, e), g) == Total(c, s, g) + One(g.Picks(c, e))
  {
    hide Count;
    Snoc(c, if c.isPlayer(e.cause) then s.pq else s.oq, e.(waittime := 0), g);
  }

  /** An entry after its semaphore timed out. */
  function Freed(es: seq<Entry>): (r: seq<Entry>)
    ensures |r| == |es|
  {
    if es == [] then [] else Freed(es[..|es| - 1]) + [es[|es| - 1].(sem := NOTHING)]
  }

  lemma {:induction false} FreedCount(c: Db, es: seq<Entry>, g: Filter)
    requires Steady(g)
    ensures Count(c, Freed(es), g) == Count(c, es, g)
  {
    if es != [] {
      FreedCount(c, es[..|es| - 1], g);
      Snoc(c, Freed(es[..|es| - 1]), es[|es| - 1].(sem := NOTHING), g);
    }
  }

  lemma {:induction false} FreedMembers(es: seq<Entry>)
    ensures forall x :: x in Freed(es) ==> exists e :: e in es && x == e.(sem := NOTHING)
  {
    if es != [] {
      FreedMembers(es[..|es| - 1]);
      forall x | x in Freed(es)
        ensures exists e :: e in es && x == e.(sem := NOTHING)
      {
        if x in Freed(es[..|es| - 1]) {
          var e :| e in es[..|es| - 1] && x == e.(sem := NOTHING);
          assert e in es;
        } else {
          assert es[|es| - 1] in es;
        }
      }
    }
  }

  /** Expiring is giving, apart from the semaphore counters. */
  lemma {:induction false} ExpireAllFrame(c: Db, s: State, es: seq<Entry>)
    ensures var t, u := ExpireAll(c, s, es), GiveAll(c, s, Freed(es));
      && t.pq == u.pq && t.oq == u.oq && t.hist == u.hist
      && t.wq == s.wq && t.sq == s.sq && t.pids == s.pids && t.acct == s.acct && t.env == s.env
  {
    if es != [] {
      ExpireAllFrame(c, s, es[..|es| - 1]);
      assert Freed(es)[..|es| - 1] == Freed(es[..|es| - 1]);
      GiveAllFrame(c, s, Freed(es[..|es| - 1]));
    }
  }

  // ---- deleting

  function Unlist(table: map<int, nat>, es: seq<Entry>): map<int, nat> {
    if es == [] then table else Unlist(table, es[..|es| - 1]) - {es[|es| - 1].pid}
  }

  lemma {:induction false} UnlistKeys(table: map<int, nat>, es: seq<Entry>)
    ensures forall p :: p in Unlist(table, es) <==> p in table && forall e :: e in es ==> e.pid != p
    ensures forall p :: p in Unlist(table, es) ==> Unlist(table, es)[p] == table[p]
  {
    if es != [] {
      var es0 := es[..|es| - 1];
      UnlistKeys(table, es0);
      assert forall e :: e in es <==> e in es0 || e == es[|es| - 1];
    }
  }

  lemma {:induction false} UnlistAppend(table: map<int, nat>, a: seq<Entry>, b: seq<Entry>)
    ensures Unlist(Unlist(table, a), b) == Unlist(table, a + b)
  {
    if b == [] {
      assert a + b == a;
    } else {
      assert (a + b)[..|a + b| - 1] == a + b[..|b| - 1];
      UnlistAppend(table, a, b[..|b| - 1]);
    }
  }

  lemma {:induction false} DeleteAllFrame(s: State, es: seq<Entry>)
    ensures DeleteAll(s, es) == s.(pids := s.pids.(table := Unlist(s.pids.table, es)))
  {
    if es != [] {
      DeleteAllFrame(s, es[..|es| - 1]);
    }
  }

  lemma {:induction false} HaltSemsFrame(s: State, es: seq<Entry>)
    ensures HaltSems(s, es) == s.(pids := s.pids.(table := Unlist(s.pids.table, es)), sem := HaltSems(s, es).sem)
  {
    if es != [] {
      HaltSemsFrame(s, es[..|es| - 1]);
    }
  }

  lemma {:induction false} DrainAllFrame(c: Db, s: State, es: seq<Entry>)
    ensures var t := DrainAll(c, s, es);
      && t.pq == s.pq && t.oq == s.oq && t.wq == s.wq && t.sq == s.sq && t.sem == s.sem && t.env == s.env
      && t.pids == s.pids.(table := Unlist(s.pids.table, es))
      && t.acct == s.acct.(queue := t.acct.queue, money := t.acct.money)
  {
    if es != [] {
      DrainAllFrame(c, s, es[..|es| - 1]);
    }
  }

  lemma {:induction false} DrainAllLog(c: Db, s: State, es: seq<Entry>)
    ensures DrainAll(c, s, es).hist == s.hist.(refunded := s.hist.refunded + Ids(es))
  {
    if es == [] {
      assert s.hist.refunded + Ids(es) == s.hist.refunded;
    } else {
      DrainAllLog(c, s, es[..|es| - 1]);
      assert s.hist.refunded + Ids(es) == s.hist.refunded + Ids(es[..|es| - 1]) + [es[|es| - 1].id];
    }
  }

  // ---- halting

  lemma {:induction false} CreditOwnersFrame(c: Db, s: State, es: seq<Entry>, n: nat)
    ensures var t := CreditOwners(c, s, es, n);
      && t.pq == s.pq && t.oq == s.oq && t.wq == s.wq && t.sq == s.sq && t.pids == s.pids && t.sem == s.sem
      && t.env == s.env && t.hist == s.hist && t.acct.endow == s.acct.endow && t.acct.burnt == s.acct.burnt
  {
    if n != 0 {
      CreditOwnersFrame(c, s, es, n - 1);
    }
  }

  /** Account operations touch one map each. */
  lemma AccountFrame(c: Db, s: State, o: Dbref, n: int)
    ensures Giveto(c, s, o, n) == s.(acct := s.acct.(money := Giveto(c, s, o, n).acct.money))
    ensures AQueue(c, s, o, n) == s.(acct := s.acct.(queue := AQueue(c, s, o, n).acct.queue))
    ensures var t := SQueueZero(c, s, o); t == s.(acct := s.acct.(queue := t.acct.queue, leaked := t.acct.leaked))
  {
  }

  lemma LossFrame(c: Db, s: State, who: Dbref, n: int)
    ensures Burn(c, s, who, n) == s.(acct := Burn(c, s, who, n).acct)
    ensures forall o: Dbref :: Leak(c, s, o) == s.(acct := Leak(c, s, o).acct)
  {
  }

  lemma HaltCreditFrame(c: Db, s: State, es: seq<Entry>, ptarg: Dbref, otarg: Dbref)
    ensures var t := HaltCredit(c, s, es, ptarg, otarg);
      && t.pq == s.pq && t.oq == s.oq && t.wq == s.wq && t.sq == s.sq && t.pids == s.pids && t.sem == s.sem
      && t.env == s.env && t.hist == s.hist && t.acct.endow == s.acct.endow && t.acct.burnt == s.acct.burnt
  {
    hide CreditOwners, Deposit, Giveto, AQueue, SQueueZero;
    CreditOwnersFrame(c, s, es, c.dbTop);
    if ptarg != NOTHING || otarg != NOTHING {
      var p := if ptarg == NOTHING then c.owner(otarg) else ptarg;
      var t := Giveto(c, s, p, Deposit(c, |es|));
      AccountFrame(c, s, p, Deposit(c, |es|));
      AccountFrame(c, t, p, -|es|);
    }
  }

  lemma HaltListsFrame(c: Db, s: State, f: Filter)
    ensures var t := HaltLists(c, s, f);
      && t.pq == Tombed(c, s.pq, f) && t.oq == Tombed(c, s.oq, f)
      && t.wq == Others(c, s.wq, f) && t.sq == Others(c, s.sq, f)
      && t.pids == s.pids.(table := Unlist(s.pids.table, All(c, s.wq, f) + All(c, s.sq, f)))
      && t.env == s.env && t.hist == s.hist && t.acct == s.acct
  {
    DeleteAllFrame(s, All(c, s.wq, f));
    HaltSemsFrame(DeleteAll(s, All(c, s.wq, f)), All(c, s.sq, f));
    UnlistAppend(s.pids.table, All(c, s.wq, f), All(c, s.sq, f));
  }

  lemma HaltQueFrame(c: Db, s: State, ptarg: Dbref, otarg: Dbref)
    ensures var f := Wanted(ptarg, otarg);
      var t := HaltQue(c, s, ptarg, otarg);
      && t.pq == Tombed(c, s.pq, f) && t.oq == Tombed(c, s.oq, f)
      && t.wq == Others(c, s.wq, f) && t.sq == Others(c, s.sq, f)
      && t.pids == s.pids.(table := Unlist(s.pids.table, All(c, s.wq, f) + All(c, s.sq, f)))
      && t.sem == HaltLists(c, s, f).sem && t.env == s.env
      && t.acct.endow == s.acct.endow && t.acct.burnt == s.acct.burnt
      && t.hist == s.hist.(refunded := s.hist.refunded + Ids(HaltedEntries(c, s, f)))
  {
    var f := Wanted(ptarg, otarg);
    HaltListsFrame(c, s, f);
    var es := HaltedEntries(c, s, f);
    HaltCreditFrame(c, Refunded(HaltLists(c, s, f), Ids(es)), es, ptarg, otarg);
  }

  lemma HaltedCount(c: Db, s: State, f: Filter, g: Filter)
    ensures Count(c, HaltedEntries(c, s, f), g)
         == Count(c, All(c, s.pq, f), g) + Count(c, All(c, s.oq, f), g)
          + Count(c, All(c, s.wq, f), g) + Count(c, All(c, s.sq, f), g)
  {
    hide Count, Taken;
    var a, b, d, e := All(c, s.pq, f), All(c, s.oq, f), All(c, s.wq, f), All(c, s.sq, f);
    Append(c, a, b, g);
    Append(c, a + b, d, g);
    Append(c, a + b + d, e, g);
  }

  /** Halting takes the picked entries out of every count of live ones; run-queue
      entries stay linked. */
  lemma HaltTotal(c: Db, s: State, ptarg: Dbref, otarg: Dbref, g: Filter)
    ensures var f := Wanted(ptarg, otarg);
      var t := HaltQue(c, s, ptarg, otarg);
      && (g.Alive() ==> Total(c, s, g) == Total(c, t, g) + Count(c, HaltedEntries(c, s, f), g))
      && (g.Fixed() ==>
            Total(c, s, g) == Total(c, t, g) + Count(c, All(c, s.wq, f) + All(c, s.sq, f), g))
  {
    hide Count, Taken, Kept, Tombed;
    var f := Wanted(ptarg, otarg);
    HaltQueFrame(c, s, ptarg, otarg);
    HaltedCount(c, s, f, g);
    Append(c, All(c, s.wq, f), All(c, s.sq, f), g);
    TombedCount(c, s.pq, f, g, |s.pq|);
    TombedCount(c, s.oq, f, g, |s.oq|);
    Split(c, s.wq, f, |s.wq|, g);
    Split(c, s.sq, f, |s.sq|, g);
  }

  /** Every halted entry is one the filter wants, in some queue. */
  lemma HaltedMembers(c: Db, s: State, f: Filter)
    ensures forall e :: e in HaltedEntries(c, s, f) ==> f.Picks(c, e) && e in s.pq + s.oq + s.wq + s.sq
  {
    hide Taken;
    Members(c, s.pq, f, |s.pq|);
    Members(c, s.oq, f, |s.oq|);
    Members(c, s.wq, f, |s.wq|);
    Members(c, s.sq, f, |s.sq|);
  }

  // ---- setting up

  datatype SetupCase = Refused | OverQuota | Failed | Done

  /** How cque_setup_que ends. */
  function CaseOf(c: Db, s: State, player: Dbref, luck: Luck): SetupCase {
    var o := c.owner(player);
    if player in s.env.halted || !Payfor(c, s, player, Cost(c, luck)).1 then Refused
    else if NextQueue(c, s, o) > c.queueMax(o) then OverQuota
    else if PidScan(c, s.pids.table, s.pids.top, c.maxPid) == 0 || !luck.fits then Failed
    else Done
  }

  lemma AccountsOnly(c: Db, s: State, player: Dbref, luck: Luck)
    ensures Wasted(c, s, player, luck) == s.(acct := Wasted(c, s, player, luck).acct)
    ensures Bought(c, s, player, luck) == s.(acct := Bought(c, s, player, luck).acct)
  {
  }

  /** The part of a state that paying and counting leave alone. */
  ghost predicate SameQueues(s: State, t: State) {
    t.pq == s.pq && t.oq == s.oq && t.wq == s.wq && t.sq == s.sq && t.sem == s.sem && t.env == s.env && t.hist == s.hist
  }

  lemma SetupFailed(c: Db, s: State, player: Dbref, cause: Dbref, luck: Luck)
    requires CaseOf(c, s, player, luck).Failed?
    ensures var pid := PidScan(c, s.pids.table, s.pids.top, c.maxPid);
      var t := Setup(c, s, player, cause, luck).0;
      && Setup(c, s, player, cause, luck).1 == None && SameQueues(s, t)
      && t.pids == s.pids.(top := if pid == 0 then s.pids.top else NextPid(c, pid))
      && t.acct == Wasted(c, s, player, luck).acct
  {
    AccountsOnly(c, s, player, luck);
  }

  lemma SetupDone(c: Db, s: State, player: Dbref, cause: Dbref, luck: Luck)
    requires CaseOf(c, s, player, luck).Done?
    ensures var pid := PidScan(c, s.pids.table, s.pids.top, c.maxPid);
      var t := Setup(c, s, player, cause, luck).0;
      && Setup(c, s, player, cause, luck).1 == Some(Entry(s.pids.nextId, player, cause, pid, 0, NOTHING, 0))
      && SameQueues(s, t)
      && t.pids == Pids(s.pids.table[pid := s.pids.nextId], NextPid(c, pid), s.pids.nextId + 1)
      && t.acct == Bought(c, s, player, luck).acct
  {
    AccountsOnly(c, s, player, luck);
  }
}
