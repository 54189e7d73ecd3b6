/** The main results about the command queue, for every reachable state. */
module QueueTheorems {
  import opened QueueTypes
  import opened QueueSpec
  import opened QueueLists
  import opened QueueFrames
  import opened QueueStructure
  import opened QueueSemaphores
  import opened QueueLedger
  import opened QueueHistory
  import opened QueueRuns
  import opened QueueTies
  import opened QueueConduct

  /** In every reachable state the PID table holds exactly the linked entries, no entry or
      PID is linked twice, only run-queue entries can be tombstones, and the wait queue is
      sorted. */
  lemma ReachableQueues(c: Db, acts: seq<Act>)
    requires c.Consistent() && LegalRun(c, Empty, acts)
    ensures var s := Run(c, Empty, acts);
      var q := Linkeds(s);
      && (forall i :: 0 <= i < |q| ==> q[i].pid in s.pids.table && s.pids.table[q[i].pid] == q[i].id)
      && (forall i, j :: 0 <= i < j < |q| ==> q[i].pid != q[j].pid && q[i].id != q[j].id)
      && (forall pid :: pid in s.pids.table ==> exists i :: 0 <= i < |q| && q[i].pid == pid)
      && (forall e :: e in s.wq || e in s.sq ==> c.good(e.player))
      && Sorted(s.wq)
  {
    hide Run, Count, SemOk, QuotaOk, LedgerOk, HistoryOk;
    RunKeeps(c, acts);
    TableIsExact(c, Run(c, Empty, acts));
  }

  /** In every reachable state no owner has more live entries than the fixed QueueMax, nor
      more than the queue counter shows. */
  lemma ReachableQuota(c: Db, acts: seq<Act>, o: Dbref)
    requires c.Consistent() && LegalRun(c, Empty, acts) && c.goodOwner(o)
    ensures var s := Run(c, Empty, acts);
      && Live(c, s, o) <= Get(s.acct.queue, o)
      && (Live(c, s, o) > 0 ==> Live(c, s, o) <= c.queueMax(o))
  {
    hide Run, Live, Held, Structure, SemOk, LedgerOk, HistoryOk;
    RunKeeps(c, acts);
    var s := Run(c, Empty, acts);
    assert QuotaAt(c, BookOf(c, s, o), o);
  }

  /** In every reachable state no more entries wait on a semaphore than its counter says. */
  lemma ReachableSemaphores(c: Db, acts: seq<Act>, t: Dbref, a: int)
    requires c.Consistent() && LegalRun(c, Empty, acts) && a != 0
    ensures var s := Run(c, Empty, acts);
      Waiters(c, s, t, a) <= Above(Counter(s, t, a))
  {
    hide Run, Waiters, Counter, Structure, QuotaOk, LedgerOk, HistoryOk;
    RunKeeps(c, acts);
  }

  /** In every reachable state, each entry ever set up is exactly one of live, refunded
      once, or dropped with its Going object. */
  lemma RefundedOnce(c: Db, acts: seq<Act>, id: nat)
    requires c.Consistent() && LegalRun(c, Empty, acts)
    ensures var s := Run(c, Empty, acts);
      Num(s.hist.refunded, id) + Num(s.hist.lost, id) + Count(c, Linkeds(s), LiveIs(id)) == One(id < s.pids.nextId)
  {
    RunKeeps(c, acts);
    hide Run, Num, Count;
    LinkedsCount(c, Run(c, Empty, acts), LiveIs(id));
  }

  /** In every reachable state, waiting entries due at the same time stand in the order in
      which they were last threaded, by their wait or by a retiming. */
  lemma ReachableTies(c: Db, acts: seq<Act>)
    requires c.Consistent() && LegalRun(c, Empty, acts)
    ensures var s := Run(c, Empty, acts);
      forall i, j :: 0 <= i < j < |s.wq| && s.wq[i].waittime == s.wq[j].waittime ==>
        LastAt(s.hist.threaded, s.wq[i].id) < LastAt(s.hist.threaded, s.wq[j].id)
  {
    hide Run, LastAt, Check.OnActs;
    HeededActs(c, Empty, acts);
    RunHolds(c, FirstComeFirst, acts);
    assert FirstComeFirst.Holds(c, Run(c, Empty, acts));
  }

  // ---- first in, first out

  lemma EnteredOnce(c: Db, s: State, id: nat)
    requires HistoryOk(c, s)
    ensures Num(s.hist.entered, id) <= 1
    ensures Num(s.hist.popped, id) >= 1 ==> Num(Ids(s.oq), id) == 0
  {
    hide Count, Num, Ids, Subseq;
    NumAppend(s.hist.popped, Ids(s.pq), id);
    IsCount(c, s.pq, id);
    IsCount(c, s.oq, id);
    assert Num(s.hist.popped, id) + Total(c, s, Is(id)) <= 1;
  }

  /** Entries that were run, in the order they entered the run queue. */
  lemma RunOrder(c: Db, s: State, i: nat, j: nat, p: nat, q: nat)
    requires HistoryOk(c, s) && RanOk(s)
    requires i < |s.hist.ran| && j < |s.hist.ran| && p < q < |s.hist.entered|
    requires s.hist.ran[i] == s.hist.entered[p] && s.hist.ran[j] == s.hist.entered[q]
    ensures i < j
  {
    hide Count, Num, Ids, Subseq;
    SubseqMore(s.hist.ran, s.hist.popped, Ids(s.pq));
    var at := SubseqSpots(s.hist.ran, s.hist.entered);
    EnteredOnce(c, s, s.hist.ran[i]);
    EnteredOnce(c, s, s.hist.ran[j]);
    OnceOnly(s.hist.entered, at[i], p);
    OnceOnly(s.hist.entered, at[j], q);
  }

  /** Elements of `ran` that stand in `record` stand in the same order in both. */
  ghost predicate InOrder(ran: seq<nat>, record: seq<nat>) {
    forall i, j, p, q |
      0 <= i < |ran| && 0 <= j < |ran| && 0 <= p < q < |record| && ran[i] == record[p] && ran[j] == record[q] ::
      i < j
  }

  /** In every reachable state: no entry was run twice; entries were run in the order in
      which they joined the run queue; and those that joined the object queue were run in
      the order in which they joined that, however promotion interleaved them. */
  lemma RunsOnceInOrder(c: Db, acts: seq<Act>)
    requires c.Consistent() && LegalRun(c, Empty, acts)
    ensures var h := Run(c, Empty, acts).hist;
      && (forall i, j :: 0 <= i < j < |h.ran| ==> h.ran[i] != h.ran[j])
      && InOrder(h.ran, h.entered) && InOrder(h.ran, h.toObject)
  {
    RunKeeps(c, acts);
    var s := Run(c, Empty, acts);
    var h := s.hist;
    hide Run, Count, Num, Ids, Subseq;
    forall i, j | 0 <= i < j < |h.ran|
      ensures h.ran[i] != h.ran[j]
    {
      if h.ran[i] == h.ran[j] {
        RanTwice(c, s, i, j);
      }
    }
    forall i, j, p, q | 0 <= i < |h.ran| && 0 <= j < |h.ran| && 0 <= p < q < |h.entered|
      && h.ran[i] == h.entered[p] && h.ran[j] == h.entered[q]
      ensures i < j
    {
      RunOrder(c, s, i, j, p, q);
    }
    forall i, j, p, q | 0 <= i < |h.ran| && 0 <= j < |h.ran| && 0 <= p < q < |h.toObject|
      && h.ran[i] == h.toObject[p] && h.ran[j] == h.toObject[q]
      ensures i < j
    {
      ObjectOrder(c, s, i, j, p, q);
    }
  }

  lemma RanTwice(c: Db, s: State, i: nat, j: nat)
    requires HistoryOk(c, s) && RanOk(s)
    requires i < j < |s.hist.ran|
    ensures s.hist.ran[i] != s.hist.ran[j]
  {
    hide Count, Num, Ids, Subseq;
    SubseqMore(s.hist.ran, s.hist.popped, Ids(s.pq));
    var at := SubseqSpots(s.hist.ran, s.hist.entered);
    EnteredOnce(c, s, s.hist.ran[i]);
    if s.hist.ran[i] == s.hist.ran[j] {
      OnceOnly(s.hist.entered, at[i], at[j]);
    }
  }

  lemma ObjectOrder(c: Db, s: State, i: nat, j: nat, p: nat, q: nat)
    requires HistoryOk(c, s) && RanOk(s)
    requires i < |s.hist.ran| && j < |s.hist.ran| && p < q < |s.hist.toObject|
    requires s.hist.ran[i] == s.hist.toObject[p] && s.hist.ran[j] == s.hist.toObject[q]
    ensures i < j
  {
    hide Count, Num, Ids, Subseq;
    var at := SubseqSpots(s.hist.ran, s.hist.popped);
    NumIn(s.hist.popped, at[j]);
    EnteredOnce(c, s, s.hist.ran[j]);
    if q >= |s.hist.promoted| {
      NumIn(Ids(s.oq), q - |s.hist.promoted|);
    }
    var bt := SubseqSpots(s.hist.promoted, s.hist.entered);
    RunOrder(c, s, i, j, bt[p], bt[q]);
  }

  // ---- money

  /** Conservation of money: in every reachable state, each account's money, standing
      deposits and recorded losses add up to what it got from outside the queue. */
  lemma MoneyConserved(c: Db, acts: seq<Act>)
    requires c.Consistent() && Fair(c) && LegalRun(c, Empty, acts)
    ensures LedgerOk(c, Run(c, Empty, acts))
  {
    RunKeeps(c, acts);
  }

  /** Three acts that break conservation: fund the owner, queue a command of `p` for one
      second later, halt everything the owner queued. */
  function HaltOnce(c: Db, p: Dbref): seq<Act> {
    [Do(Income(c.owner(p), c.waitCost)),
     Do(Wait(p, p, 1, 0, 0, Luck(false, true))),
     Do(Halt(c.owner(p), NOTHING))]
  }

  function Queued(c: Db, p: Dbref): State {
    Step(c, Funded(c, p), Wait(p, p, 1, 0, 0, Luck(false, true)))
  }

  lemma QueuedIs(c: Db, p: Dbref)
    requires c.Consistent() && c.good(p) && c.maxPid > 0 && c.queueMax(c.owner(p)) >= 1
    ensures var s := Queued(c, p);
      var o := c.owner(p);
      && s.pq == [] && s.oq == [] && s.sq == [] && s.wq == [Entry(0, p, p, 1, 1, NOTHING, 0)]
      && Get(s.acct.money, o) == (if c.Free(p) then c.waitCost else 0)
      && (forall a :: a != o ==> Get(s.acct.money, a) == 0)
      && Get(s.acct.endow, o) == c.waitCost && (forall a :: a != o ==> Get(s.acct.endow, a) == 0)
      && (forall a :: Get(s.acct.burnt, a) == 0)
  {
    hide Funded, Setup, Bought, Payfor, Cost, Db.Consistent, Db.Free, Insert, SameQueues, WaitQue;
    var s, luck := Funded(c, p), Luck(false, true);
    FundedSetup(c, p);
    FundedEmpty(c, p);
    FundedMoney(c, p);
    var t := Setup(c, s, p, p, luck).0;
    WaitSecond(c, s, t, p, luck);
    InsertFirst(Entry(0, p, p, 1, 1, NOTHING, 0));
    assert Queued(c, p).wq == [Entry(0, p, p, 1, 1, NOTHING, 0)];
    assert Queued(c, p).acct == Bought(c, s, p, luck).acct;
  }

  lemma InsertFirst(e: Entry)
    ensures Insert([], e) == [e]
  {
  }

  /** A command queued for one second past the epoch. */
  lemma WaitSecond(c: Db, s: State, t: State, p: Dbref, luck: Luck)
    requires Setup(c, s, p, p, luck) == (t, Some(Entry(0, p, p, 1, 0, NOTHING, 0)))
    requires s.env.interp && SameQueues(s, t)
    ensures var u := WaitQue(c, s, p, p, 1, NOTHING, 0, 0, luck);
      && u.wq == Insert(s.wq, Entry(0, p, p, 1, 1, NOTHING, 0)) && u.acct == t.acct
      && u.pq == s.pq && u.oq == s.oq && u.sq == s.sq
  {
    hide Setup, Insert;
  }

  /** What the accounts say once the entry is paid for. */
  lemma FundedMoney(c: Db, p: Dbref)
    requires c.Consistent() && c.good(p)
    requires Payfor(c, Funded(c, p), p, Cost(c, Luck(false, true))).1
    ensures var t := Bought(c, Funded(c, p), p, Luck(false, true)).acct;
      var o := c.owner(p);
      && Get(t.money, o) == (if c.Free(p) then c.waitCost else 0)
      && (forall a :: a != o ==> Get(t.money, a) == 0)
      && Get(t.endow, o) == c.waitCost && (forall a :: a != o ==> Get(t.endow, a) == 0)
      && (forall a :: Get(t.burnt, a) == 0)
  {
    var luck := Luck(false, true);
    assert Cost(c, luck) == c.waitCost;
    forall a: Dbref
      ensures var t := Bought(c, Funded(c, p), p, luck).acct;
        var mine := a == c.owner(p);
        && Get(t.money, a) == (if mine && c.Free(p) then c.waitCost else 0)
        && Get(t.endow, a) == (if mine then c.waitCost else 0) && Get(t.burnt, a) == 0
    {
      ChargedBook(c, Funded(c, p), p, luck, a, 0, 0);
      hide Bought, Payfor, Db.Free, Cost;
    }
  }

  lemma HaltOnceRun(c: Db, p: Dbref)
    requires c.good(p)
    ensures LegalRun(c, Empty, HaltOnce(c, p))
    ensures Run(c, Empty, HaltOnce(c, p)) == HaltQue(c, Queued(c, p), c.owner(p), NOTHING)
  {
    hide WaitQue, HaltQue;
    var acts := HaltOnce(c, p);
    assert acts[..2][..1][..0] == [] && acts[..2][..1] == acts[..1];
    assert acts[..3][..2] == acts[..2];
    assert Run(c, Empty, acts[..1]) == Funded(c, p);
    assert Run(c, Empty, acts[..2]) == Queued(c, p);
    assert LegalRun(c, Empty, acts[..1]);
    assert LegalRun(c, Empty, acts[..2]);
  }

  lemma UnfairBreaks(c: Db, p: Dbref)
    requires c.Consistent() && c.good(p) && !FairTo(c, p)
    requires c.waitCost > 0 && c.maxPid > 0 && c.queueMax(c.owner(p)) >= 1
    ensures LegalRun(c, Empty, HaltOnce(c, p)) && !LedgerOk(c, Run(c, Empty, HaltOnce(c, p)))
  {
    HaltOnceRun(c, p);
    hide Run, Funded, Queued, HaltOnce, LegalRun, HaltQue;
    QueuedIs(c, p);
    HaltUnfair(c, Queued(c, p), p);
  }

  lemma HaltUnfair(c: Db, s: State, p: Dbref)
    requires c.Consistent() && c.good(p) && !FairTo(c, p) && c.waitCost > 0
    requires var o := c.owner(p);
      && s.pq == [] && s.oq == [] && s.sq == [] && s.wq == [Entry(0, p, p, 1, 1, NOTHING, 0)]
      && Get(s.acct.money, o) == (if c.Free(p) then c.waitCost else 0)
      && (forall a :: a != o ==> Get(s.acct.money, a) == 0)
      && Get(s.acct.endow, o) == c.waitCost && (forall a :: a != o ==> Get(s.acct.endow, a) == 0)
      && (forall a :: Get(s.acct.burnt, a) == 0)
    ensures !LedgerOk(c, HaltQue(c, s, c.owner(p), NOTHING))
  {
    var o := c.owner(p);
    var t := HaltQue(c, s, o, NOTHING);
    var a := if c.Free(p) then c.owner(o) else o;
    HaltOnly(c, s, p);
    hide HaltQue, Giveto, SQueueZero;
    GivetoBook(c, s, o, c.waitCost, a, 0, 0);
    SQueueBook(c, Giveto(c, s, o, c.waitCost), o, a, 0, 0);
    assert Held(c, t, a) == 0 == Live(c, t, a) && Deposit(c, 0) == 0;
    hide Held, Live;
    assert !BookOf(c, t, a).Balanced(c);
  }

  /** Halting the owner of the only entry. */
  lemma HaltOnly(c: Db, s: State, p: Dbref)
    requires c.Consistent() && c.good(p)
    requires s.pq == [] && s.oq == [] && s.sq == [] && s.wq == [Entry(0, p, p, 1, 1, NOTHING, 0)]
    ensures var o := c.owner(p);
      var t := HaltQue(c, s, o, NOTHING);
      && t.pq == [] && t.oq == [] && t.wq == [] && t.sq == []
      && t.acct == SQueueZero(c, Giveto(c, s, o, c.waitCost), o).acct
  {
    var o := c.owner(p);
    var f := Wanted(o, NOTHING);
    assert o != NOTHING by { assert c.good(p); }
    HaltPicks(c, s, p);
    HaltQueFrame(c, s, o, NOTHING);
    HaltListsFrame(c, s, f);
    assert Deposit(c, 1) == Deposit(c, 0) + c.waitCost && Deposit(c, 0) == 0;
    hide HaltLists, HaltedEntries, Deposit, Ids, Taken, Kept, Unlist;
    assert Tombed(c, s.pq, f) == [];
  }

  lemma HaltPicks(c: Db, s: State, p: Dbref)
    requires c.Consistent() && c.good(p)
    requires s.pq == [] && s.oq == [] && s.sq == [] && s.wq == [Entry(0, p, p, 1, 1, NOTHING, 0)]
    ensures var f := Wanted(c.owner(p), NOTHING);
      HaltedEntries(c, s, f) == s.wq && Others(c, s.wq, f) == [] && Others(c, s.sq, f) == []
  {
    var f := Wanted(c.owner(p), NOTHING);
    assert s.wq[..0] == [] && f.Picks(c, s.wq[0]);
    assert All(c, s.wq, f) == s.wq && All(c, [], f) == [];
  }

  /** Money is conserved on every run if and only if halting is fair to every object:
      payfor and giveto must agree on the exemption of an object and of its owner, and an
      owner that pays must own itself. */
  lemma ConservedIffFair(c: Db)
    requires c.Consistent() && c.waitCost > 0 && c.maxPid > 0
    requires forall o :: c.goodOwner(o) ==> c.queueMax(o) >= 1
    ensures Fair(c) <==> forall acts :: LegalRun(c, Empty, acts) ==> LedgerOk(c, Run(c, Empty, acts))
  {
    hide LegalRun, LedgerOk, Run;
    if Fair(c) {
      forall acts | LegalRun(c, Empty, acts)
        ensures LedgerOk(c, Run(c, Empty, acts))
      {
        MoneyConserved(c, acts);
      }
    } else {
      var p :| c.good(p) && !FairTo(c, p);
      UnfairBreaks(c, p);
    }
  }

  // ---- equalities

  /** On every legal run, semaphore counters are exact after every operation if and only if
      every operation is orderly where it is performed, those of running commands
      included; the counter is then the number of waiters, or not positive. */
  lemma ExactIffOrderly(c: Db, acts: seq<Act>)
    requires c.Consistent() && LegalRun(c, Empty, acts)
    ensures Heeded.OnActs(c, ExactCounters, Empty, acts) <==> Reached.OnActs(c, ExactCounters, Empty, acts)
    ensures Heeded.OnActs(c, ExactCounters, Empty, acts) ==>
      forall t: Dbref, a: int :: a != 0 ==>
        Waiters(c, Run(c, Empty, acts), t, a) == Above(Counter(Run(c, Empty, acts), t, a))
  {
    hide Run, Waiters, Counter, Check.OnActs;
    RunHolds(c, ExactCounters, acts);
  }

  /** On every legal run, nothing is lost if and only if every set-up is thrifty and no
      Going object's entry is dropped; the queue counter is then exactly the number of the
      owner's live entries. Under fair halting an account's money and standing deposits are
      exactly what it got from outside. */
  lemma NothingLostIff(c: Db, acts: seq<Act>)
    requires c.Consistent() && LegalRun(c, Empty, acts)
    ensures Heeded.OnActs(c, NothingLost, Empty, acts) <==> Reached.OnActs(c, NothingLost, Empty, acts)
    ensures Heeded.OnActs(c, NothingLost, Empty, acts) ==>
      var s := Run(c, Empty, acts);
      && (forall o: Dbref :: c.goodOwner(o) ==> Get(s.acct.queue, o) == Live(c, s, o))
      && (Fair(c) ==> forall a: Dbref :: Get(s.acct.money, a) + Deposit(c, Held(c, s, a)) == Get(s.acct.endow, a))
  {
    hide Run, Live, Held, Deposit, Structure, SemOk, HistoryOk, Check.OnActs;
    RunHolds(c, NothingLost, acts);
    RunKeeps(c, acts);
    var s := Run(c, Empty, acts);
    if Heeded.OnActs(c, NothingLost, Empty, acts) {
      forall o: Dbref
        ensures c.goodOwner(o) ==> Get(s.acct.queue, o) == Live(c, s, o)
        ensures Fair(c) ==> Get(s.acct.money, o) + Deposit(c, Held(c, s, o)) == Get(s.acct.endow, o)
      {
        var b := BookOf(c, s, o);
        assert QuotaAt(c, b, o) && (Fair(c) ==> b.Balanced(c));
      }
    }
  }

  // ---- halting by PID

  /** cque_do_halt_pid leaves the table and the queues in agreement exactly when it does
      not delete an entry that a run queue still holds. */
  lemma HaltPidKeepsLinks(c: Db, s: State, pid: int, allowed: bool)
    requires c.Consistent() && Structure(c, s) && pid in s.pids.table
    ensures Lookup(s, pid).Some?
    ensures LinksOk(c, HaltOne(c, s, pid, allowed), [])
       <==> NotRunnable(s, pid) || !allowed || Lookup(s, pid).value.player == NOTHING
  {
    hide Count, Structure;
    LookupSome(c, s, pid);
    var e := Lookup(s, pid).value;
    if NotRunnable(s, pid) {
      HaltOneStructure(c, s, pid, allowed);
      StructureLinks(c, HaltOne(c, s, pid, allowed));
    } else if !allowed || e.player == NOTHING {
      StructureLinks(c, s);
    } else {
      StillLinked(c, s, pid);
    }
  }

  lemma StructureLinks(c: Db, s: State)
    requires Structure(c, s)
    ensures LinksOk(c, s, [])
  {
  }

  lemma LookupSome(c: Db, s: State, pid: int)
    requires Structure(c, s) && pid in s.pids.table
    ensures Lookup(s, pid).Some? && Lookup(s, pid).value.pid == pid
  {
    hide Count;
    TableIsExact(c, s);
    var i :| 0 <= i < |Linkeds(s)| && Linkeds(s)[i].pid == pid;
    assert Find(Linkeds(s), pid) <= i;
  }

  lemma HaltOneMarks(c: Db, s: State, pid: int)
    requires pid in s.pids.table
    requires Lookup(s, pid).Some? && Lookup(s, pid).value.player != NOTHING && Lookup(s, pid).value.pid == pid
    ensures var t := HaltOne(c, s, pid, true);
      pid !in t.pids.table && t.pq == MarkHalted(s.pq, pid) && t.oq == MarkHalted(s.oq, pid)
  {
    hide Lookup, MarkHalted, Without;
  }

  lemma StillLinked(c: Db, s: State, pid: int)
    requires Structure(c, s) && pid in s.pids.table && !NotRunnable(s, pid)
    requires Lookup(s, pid).Some? && Lookup(s, pid).value.player != NOTHING && Lookup(s, pid).value.pid == pid
    ensures !LinksOk(c, HaltOne(c, s, pid, true), [])
  {
    hide Count, HaltOne, Structure, Lookup;
    var t := HaltOne(c, s, pid, true);
    HaltOneMarks(c, s, pid);
    NilCount(c);
    var i, j := Find(s.pq, pid), Find(s.oq, pid);
    var id := if i < |s.pq| then s.pq[i].id else s.oq[j].id;
    var g := Linked(pid, id);
    if i < |s.pq| {
      Positive(c, t.pq, i, g);
    } else {
      Positive(c, t.oq, j, g);
    }
    assert Total(c, t, g) + Count(c, [], g) >= 1;
  }

  // ---- retiming by PID

  /** An entry with the PID of a run-queue entry is that one, linked nowhere else. */
  lemma RunnableFound(c: Db, s: State, pid: int)
    requires Structure(c, s) && pid in s.pids.table && !NotRunnable(s, pid)
    requires Lookup(s, pid).Some? && Lookup(s, pid).value.pid == pid
    ensures var e := Lookup(s, pid).value;
      (e in s.pq || e in s.oq) && e.waittime == 0 && Without(s.wq, pid) == s.wq
  {
    hide Count, Find, LinksOk, TableOk;
    TableIsExact(c, s);
    FindLinked(s, pid);
    var q := Linkeds(s);
    var i, j, k := Find(s.pq, pid), Find(s.oq, pid), Find(s.wq, pid);
    var at := |s.wq| + |s.sq| + if i < |s.pq| then i else |s.pq| + j;
    assert q[at] == (if i < |s.pq| then s.pq[i] else s.oq[j]) && q[at].pid == pid;
    if k < |s.wq| {
      assert false;
    }
    var l := Find(s.sq, pid);
    if l < |s.sq| {
      assert false;
    }
    assert Lookup(s, pid).value == q[at];
    assert q[at] in s.pq || q[at] in s.oq;
  }

  /** cque_do_wait_pid leaves the table and the queues in agreement exactly when it does
      not link an entry into the wait queue that a run queue still holds. One that waited
      on a semaphore before is left alone there. */
  lemma RetimePidKeepsLinks(c: Db, s: State, pid: int, mode: TimeMode, val: int, now: int, allowed: bool)
    requires c.Consistent() && Structure(c, s) && pid in s.pids.table && IsInt(val) && IsTime(now)
    ensures Lookup(s, pid).Some?
    ensures LinksOk(c, RetimeOne(c, s, pid, mode, val, now, allowed), [])
       <==> NotRunnable(s, pid) || !allowed || Lookup(s, pid).value.player == NOTHING
            || Lookup(s, pid).value.sem != NOTHING
  {
    hide Count, Structure, LinksOk, NotRunnable, Without, Insert, Replaced, NewTime;
    LookupSome(c, s, pid);
    StructureLinks(c, s);
    var e := Lookup(s, pid).value;
    if NotRunnable(s, pid) {
      RetimeStructure(c, s, pid, mode, val, now, allowed);
      StructureLinks(c, RetimeOne(c, s, pid, mode, val, now, allowed));
    } else if allowed && e.player != NOTHING {
      RunnableFound(c, s, pid);
      if e.sem == NOTHING {
        var e0 := e.(waittime := NewTime(e.waittime, mode, val, now));
        InsertMembers(Without(s.wq, pid), e0);
        LinkedTwice(c, s, Thread(s.(wq := Without(s.wq, pid)), e0), e, e0);
      }
    }
  }

  /** An entry in a run queue and in the wait queue is linked once too often. */
  lemma LinkedTwice(c: Db, s: State, t: State, e: Entry, e0: Entry)
    requires e in s.pq || e in s.oq
    requires t.pq == s.pq && t.oq == s.oq && e0 in t.wq && e0.pid == e.pid && e0.id == e.id
    ensures !LinksOk(c, t, [])
  {
    hide Count;
    NilCount(c);
    var g := Linked(e.pid, e.id);
    var k :| 0 <= k < |t.wq| && t.wq[k] == e0;
    Positive(c, t.wq, k, g);
    if e in s.pq {
      var i :| 0 <= i < |s.pq| && s.pq[i] == e;
      Positive(c, t.pq, i, g);
    } else {
      var i :| 0 <= i < |s.oq| && s.oq[i] == e;
      Positive(c, t.oq, i, g);
    }
    assert Total(c, t, g) + Count(c, [], g) >= 2;
  }

  /** Fund an owner and queue a command of `p` to be run at once. */
  function AtOnce(c: Db, p: Dbref): seq<Act> {
    [Do(Income(c.owner(p), c.waitCost)), Do(Wait(p, p, 0, 0, 0, Luck(false, true)))]
  }

  lemma AtOnceRun(c: Db, p: Dbref)
    requires c.Consistent() && c.good(p) && c.maxPid > 0 && c.queueMax(c.owner(p)) >= 1
    ensures var acts := AtOnce(c, p);
      var s := Run(c, Empty, acts);
      && LegalRun(c, Empty, acts) && s.wq == [] && s.sq == []
      && s.pq + s.oq == [Entry(0, p, p, 1, 0, NOTHING, 0)]
  {
    hide Funded, Setup, Bought;
    FundedSetup(c, p);
    var acts := AtOnce(c, p);
    FundedRun(c, p, acts);
    assert acts[..2] == acts && acts[..2][..1] == acts[..1] && acts[..1][..0] == [];
    assert LegalRun(c, Empty, acts[..1]);
    FundedEmpty(c, p);
  }

  lemma FundedEmpty(c: Db, p: Dbref)
    ensures var s := Funded(c, p); s.pq == [] && s.oq == [] && s.wq == [] && s.sq == [] && s.env == Empty.env
  {
  }

  /** After it, halting or retiming that command by its PID breaks the agreement. */
  lemma PidBreaks(c: Db, p: Dbref, mode: TimeMode, val: int, now: int)
    requires c.Consistent() && c.good(p) && c.maxPid > 0 && c.queueMax(c.owner(p)) >= 1 && IsInt(val) && IsTime(now)
    ensures var s := Run(c, Empty, AtOnce(c, p));
      && LegalRun(c, Empty, AtOnce(c, p)) && 1 in s.pids.table
      && !LinksOk(c, HaltOne(c, s, 1, true), []) && !LinksOk(c, RetimeOne(c, s, 1, mode, val, now, true), [])
  {
    hide Run, LegalRun, AtOnce, HaltOne, RetimeOne, LinksOk, Inv, RanOk;
    AtOnceRun(c, p);
    RunKeeps(c, AtOnce(c, p));
    var s := Run(c, Empty, AtOnce(c, p));
    InvStructure(c, s);
    OnlyEntry(c, s, p);
    hide Structure;
    HaltPidKeepsLinks(c, s, 1, true);
    RetimePidKeepsLinks(c, s, 1, mode, val, now, true);
  }

  lemma OnlyEntry(c: Db, s: State, p: Dbref)
    requires Structure(c, s) && c.Consistent() && c.good(p)
    requires s.wq == [] && s.sq == [] && s.pq + s.oq == [Entry(0, p, p, 1, 0, NOTHING, 0)]
    ensures 1 in s.pids.table && !NotRunnable(s, 1) && Lookup(s, 1) == Some(Entry(0, p, p, 1, 0, NOTHING, 0))
    ensures p != NOTHING
  {
    hide Count, Shape;
    TableIsExact(c, s);
    assert c.good(p);
    assert Linkeds(s) == s.pq + s.oq;
    assert Linkeds(s)[0].pid == 1;
  }
}
