/** Whole runs: every state the scheduler can reach keeps all the invariants. */
module QueueRuns {
  import opened QueueTypes
  import opened QueueSpec
  import opened QueueLists
  import opened QueueFrames
  import opened QueuePids
  import opened QueueStructure
  import opened QueueSemaphores
  import opened QueueLedger
  import opened QueueHistory

  ghost predicate Inv(c: Db, s: State) {
    && Structure(c, s)
    && SemOk(c, s)
    && QuotaOk(c, s)
    && (Fair(c) ==> LedgerOk(c, s))
    && HistoryOk(c, s)
  }

  predicate IsInt(x: int) {
    INT_MIN <= x <= INT_MAX
  }

  predicate IsTime(now: int) {
    0 <= now <= INT_MAX
  }

  /** What the callers of an operation guarantee. The PID operations are used on waiting
      entries; a notify that counts names an attribute and a positive count. */
  ghost predicate Legal(c: Db, s: State, op: Op) {
    match op
    case Wait(player, _, wait, _, now, _) => c.good(player) && IsInt(wait) && IsTime(now)
    case WaitOn(player, _, thing, attr, wait, now, _) =>
      c.good(player) && thing != NOTHING && attr != 0 && IsInt(wait) && IsTime(now)
    case Notify(_, attr, key, count) => key == NFY_NFY ==> attr != 0 && count > 0
    case HaltPid(pid, _) => NotRunnable(s, pid)
    case Retime(pid, _, val, now, _) => NotRunnable(s, pid) && IsInt(val) && IsTime(now)
    case _ => true
  }

  ghost predicate LegalOps(c: Db, s: State, ops: seq<Op>) {
    ops == [] || (LegalOps(c, s, ops[..|ops| - 1]) && Legal(c, Perform(c, s, ops[..|ops| - 1]), ops[|ops| - 1]))
  }

  ghost predicate LegalTop(c: Db, s: State, n: nat, scripts: seq<seq<Op>>)
    decreases n
  {
    n == 0 || s.pq == [] ||
    var script := if scripts != [] then scripts[0] else [];
    && (Runs(s) ==> LegalOps(c, Launch(c, s), script))
    && LegalTop(c, RunHead(c, s, script), n - 1, if scripts != [] then scripts[1..] else [])
  }

  ghost predicate LegalAct(c: Db, s: State, a: Act) {
    match a
    case Do(op) => Legal(c, s, op)
    case Second(_) => true
    case Top(n, scripts) => s.env.dequeue ==> LegalTop(c, s, n, scripts)
  }

  ghost predicate LegalRun(c: Db, s: State, acts: seq<Act>) {
    acts == [] || (LegalRun(c, s, acts[..|acts| - 1]) && LegalAct(c, Run(c, s, acts[..|acts| - 1]), acts[|acts| - 1]))
  }

  // ---- one operation

  lemma SameInv(c: Db, s: State, t: State)
    requires Inv(c, s)
    requires t.pq == s.pq && t.oq == s.oq && t.wq == s.wq && t.sq == s.sq
    requires t.pids == s.pids && t.sem == s.sem && t.hist == s.hist
    requires t.acct == s.acct
    ensures Inv(c, t)
  {
    hide Structure, HistoryOk, QuotaOk, LedgerOk, SemOk;
    SameStructure(c, s, t);
    SameHistory(c, s, t);
    SameLiveQueues(c, s, t);
    MovedKeeps(c, s, t);
    assert FallTogether(c, s, t);
    FallingKeeps(c, s, t);
  }

  lemma IncomeBook(c: Db, s: State, a: Dbref, n: int, o: Dbref)
    ensures var b, b' := BookOf(c, s, o), BookOf(c, Step(c, s, Income(a, n)), o);
      b' == b.(money := b.money + (if o == a then n else 0), endow := b.endow + (if o == a then n else 0))
  {
    hide Count;
    var t := Step(c, s, Income(a, n));
    SameLiveQueues(c, s, t);
    assert Live(c, t, o) == Live(c, s, o) && Held(c, t, o) == Held(c, s, o);
  }

  lemma IncomeKeeps(c: Db, s: State, a: Dbref, n: int)
    requires Inv(c, s)
    ensures Inv(c, Step(c, s, Income(a, n)))
  {
    hide Structure, HistoryOk, SemOk;
    var t := Step(c, s, Income(a, n));
    SameStructure(c, s, t);
    SameHistory(c, s, t);
    SameLiveQueues(c, s, t);
    assert FallTogether(c, s, t);
    FallingKeeps(c, s, t);
    hide Live, Held, Deposit, BookOf, Step;
    forall o: Dbref
      ensures var b, b' := BookOf(c, s, o), BookOf(c, t, o);
        && (QuotaAt(c, b, o) ==> QuotaAt(c, b', o))
        && (b.Balanced(c) ==> b'.Balanced(c))
    {
      IncomeBook(c, s, a, n, o);
    }
  }

  lemma StepKeeps(c: Db, s: State, op: Op)
    requires c.Consistent() && Inv(c, s) && Legal(c, s, op)
    ensures Inv(c, Step(c, s, op))
  {
    hide HistoryOk, QuotaOk, LedgerOk, SemOk, WaitQue, WaitOnSem, NotifySem, HaltQue, HaltOne, RetimeOne;
    match op
    case Wait(player, cause, wait, attr, now, luck) =>
      WaitStructure(c, s, player, cause, wait, NOTHING, attr, now, luck);
      WaitBoth(c, s, player, cause, wait, NOTHING, attr, now, luck);
      WaitHistory(c, s, player, cause, wait, NOTHING, attr, now, luck);
      PlainWaitFalls(c, s, player, cause, wait, attr, now, luck);
      FallingKeeps(c, s, Step(c, s, op));
    case WaitOn(player, cause, thing, attr, wait, now, luck) =>
      WaitOnKeeps(c, s, player, cause, thing, attr, wait, now, luck);
    case Notify(thing, attr, key, count) =>
      NotifyStructure(c, s, thing, attr, key, count);
      NotifyKeeps(c, s, thing, attr, key, count);
      NotifyBoth(c, s, thing, attr, key, count);
      NotifyHistory(c, s, thing, attr, key, count);
    case Halt(p, o) =>
      HaltStructure(c, s, p, o);
      HaltFalls(c, s, p, o);
      FallingKeeps(c, s, HaltQue(c, s, p, o));
      HaltBoth(c, s, p, o);
      HaltHistory(c, s, p, o);
    case HaltPid(pid, allowed) =>
      HaltOneStructure(c, s, pid, allowed);
      HaltOneFalls(c, s, pid, allowed);
      FallingKeeps(c, s, HaltOne(c, s, pid, allowed));
      HaltOneBoth(c, s, pid, allowed);
      HaltOneHistory(c, s, pid, allowed);
    case Retime(pid, mode, val, now, allowed) =>
      RetimeStructure(c, s, pid, mode, val, now, allowed);
      RetimeFalls(c, s, pid, mode, val, now, allowed);
      FallingKeeps(c, s, RetimeOne(c, s, pid, mode, val, now, allowed));
      RetimeBoth(c, s, pid, mode, val, now, allowed);
      RetimeHistory(c, s, pid, mode, val, now, allowed);
    case SetHalted(_, _) => SameInv(c, s, Step(c, s, op));
    case SetGoing(_, _) => SameInv(c, s, Step(c, s, op));
    case SetFlags(_, _) => SameInv(c, s, Step(c, s, op));
    case Income(a, n) => IncomeKeeps(c, s, a, n);
  }

  lemma WaitOnKeeps(c: Db, s: State, player: Dbref, cause: Dbref, thing: Dbref, attr: int, wait: int, now: int, luck: Luck)
    requires c.Consistent() && Inv(c, s)
    requires c.good(player) && thing != NOTHING && attr != 0 && IsInt(wait) && IsTime(now)
    ensures Inv(c, WaitOnSem(c, s, player, cause, thing, attr, wait, now, luck))
  {
    InvStructure(c, s);
    WaitOnSemCounts(c, s, player, cause, thing, attr, wait, now, luck);
    hide HistoryOk, QuotaOk, LedgerOk, SemOk, WaitQue;
    var s1 := AddSem(s, thing, attr, 1);
    SameStructure(c, s, s1);
    SameHistory(c, s, s1);
    SameLiveQueues(c, s, s1);
    MovedKeeps(c, s, s1);
    var w, on := if Get(s1.sem, (thing, attr)) <= 0 then 0 else wait, if Get(s1.sem, (thing, attr)) <= 0 then NOTHING else thing;
    WaitStructure(c, s1, player, cause, w, on, attr, now, luck);
    WaitBoth(c, s1, player, cause, w, on, attr, now, luck);
    WaitHistory(c, s1, player, cause, w, on, attr, now, luck);
  }

  // ---- the entry being run

  /** What an operation cannot do to the entry being run, the tombstone at the head of
      the run queue, nor to the records of what left the queue. */
  ghost predicate HeadStays(s: State, t: State) {
    && t.hist.popped == s.hist.popped && t.hist.ran == s.hist.ran
    && (s.pq != [] && s.pq[0].player == NOTHING ==> t.pq != [] && t.pq[0] == s.pq[0])
  }

  lemma HaltHead(c: Db, s: State, ptarg: Dbref, otarg: Dbref)
    requires c.Consistent()
    ensures HeadStays(s, HaltQue(c, s, ptarg, otarg))
  {
    hide Tombed, HaltQue, Taken, Kept, Unlist, Ids;
    HaltQueFrame(c, s, ptarg, otarg);
    TombedAt(c, s.pq, Wanted(ptarg, otarg));
  }

  lemma WaitHead(c: Db, s: State, player: Dbref, cause: Dbref, wait: int, sem: Dbref, attr: int, now: int, luck: Luck)
    requires c.Consistent()
    ensures HeadStays(s, WaitQue(c, s, player, cause, wait, sem, attr, now, luck))
  {
    hide HaltQue, Wasted, Bought, PidScan;
    if s.env.interp {
      var u := Setup(c, s, player, cause, luck).0;
      assert HeadStays(s, u) by {
        AccountsOnly(c, s, player, luck);
        match CaseOf(c, s, player, luck)
        case Refused =>
        case OverQuota => HaltHead(c, Wasted(c, s, player, luck), c.owner(player), NOTHING);
        case Failed => SetupFailed(c, s, player, cause, luck);
        case Done => SetupDone(c, s, player, cause, luck);
      }
      hide Setup;
    }
  }

  lemma NotifyHead(c: Db, s: State, thing: Dbref, attr: int, key: NotifyKey, count: int)
    ensures HeadStays(s, NotifySem(c, s, thing, attr, key, count))
  {
    hide Taken, Kept, DrainAll, GiveAll, Given, Unlist;
    var es := Taken(c, s.sq, OnSem(thing, attr), Limit(s.sq, key, count));
    DrainAllFrame(c, s, es);
    DrainAllLog(c, s, es);
    GiveAllFrame(c, s, es);
    GiveAllQueues(c, s, es);
  }

  lemma StepHead(c: Db, s: State, op: Op)
    requires c.Consistent() && Structure(c, s) && Legal(c, s, op)
    ensures HeadStays(s, Step(c, s, op))
  {
    hide WaitQue, NotifySem, HaltQue, HaltOne, RetimeOne, Lookup, Without, Insert, Replaced, Structure;
    match op
    case Wait(player, cause, wait, attr, now, luck) =>
      WaitHead(c, s, player, cause, wait, NOTHING, attr, now, luck);
    case WaitOn(player, cause, thing, attr, wait, now, luck) =>
      WaitHead(c, AddSem(s, thing, attr, 1), player, cause, 0, NOTHING, attr, now, luck);
      WaitHead(c, AddSem(s, thing, attr, 1), player, cause, wait, thing, attr, now, luck);
    case Notify(thing, attr, key, count) => NotifyHead(c, s, thing, attr, key, count);
    case Halt(p, o) => HaltHead(c, s, p, o);
    case HaltPid(pid, allowed) => HaltOneHead(c, s, pid, allowed);
    case Retime(pid, mode, val, now, allowed) => RetimeHead(c, s, pid, mode, val, now, allowed);
    case _ =>
  }

  lemma HaltOneHead(c: Db, s: State, pid: int, allowed: bool)
    requires c.Consistent() && Structure(c, s) && NotRunnable(s, pid)
    ensures HeadStays(s, HaltOne(c, s, pid, allowed))
  {
    if pid in s.pids.table && allowed {
      hide HaltOne, Lookup, Without, Structure;
      HaltOneFrame(c, s, pid);
    }
  }

  lemma RetimeHead(c: Db, s: State, pid: int, mode: TimeMode, val: int, now: int, allowed: bool)
    requires c.Consistent() && Structure(c, s) && NotRunnable(s, pid)
    ensures HeadStays(s, RetimeOne(c, s, pid, mode, val, now, allowed))
  {
    if pid in s.pids.table && allowed {
      hide RetimeOne, Lookup, Without, Insert, Replaced, Structure;
      RetimeFrame(c, s, pid, mode, val, now);
    }
  }

  lemma {:induction false} PerformKeeps(c: Db, s: State, ops: seq<Op>)
    requires c.Consistent() && Inv(c, s) && LegalOps(c, s, ops)
    ensures Inv(c, Perform(c, s, ops)) && HeadStays(s, Perform(c, s, ops))
  {
    if ops != [] {
      var u := Perform(c, s, ops[..|ops| - 1]);
      hide Step, SemOk, QuotaOk, LedgerOk, HistoryOk, Structure;
      PerformKeeps(c, s, ops[..|ops| - 1]);
      StepKeeps(c, u, ops[|ops| - 1]);
      StepHead(c, u, ops[|ops| - 1]);
    }
  }

  // ---- running the head of the queue

  /** Turning the head into a tombstone takes it out of the live counts and out of no
      other. */
  lemma TombHead(c: Db, q: seq<Entry>, g: Filter)
    requires q != []
    ensures Count(c, q[0 := q[0].(player := NOTHING)], g)
         == Count(c, q, g) - if g.Fixed() then 0 else One(g.Picks(c, q[0]))
    requires Steady(g)
  {
    hide Count;
    ReplaceAt(c, q, 0, q[0].(player := NOTHING), g);
  }

  lemma {:induction false} TombHeadIds(q: seq<Entry>)
    requires q != []
    ensures Ids(q[0 := q[0].(player := NOTHING)]) == Ids(q)
  {
    hide Ids;
    var r := q[0 := q[0].(player := NOTHING)];
    IdsAt(q);
    IdsAt(r);
    assert Ids(q) == Ids(r);
  }

  /** The state with the head refunded, uncounted and halted. */
  function Settled(c: Db, s: State): State
    requires s.pq != []
  {
    var e := s.pq[0];
    var t := Refunded(AQueue(c, Giveto(c, s, e.player, c.waitCost), c.owner(e.player), -1), [e.id]);
    t.(pq := s.pq[0 := e.(player := NOTHING)])
  }

  lemma SettledTotal(c: Db, s: State, g: Filter)
    requires s.pq != [] && Steady(g)
    ensures Total(c, Settled(c, s), g) == Total(c, s, g) - if g.Fixed() then 0 else One(g.Picks(c, s.pq[0]))
  {
    hide Count;
    TombHead(c, s.pq, g);
  }

  lemma SettledStructure(c: Db, s: State)
    requires s.pq != [] && Structure(c, s) && c.Consistent()
    ensures Structure(c, Settled(c, s))
  {
    var t := Settled(c, s);
    assert t.pids == s.pids && t.oq == s.oq && t.wq == s.wq && t.sq == s.sq;
    assert InRunQueue(c, s.pq[0]);
    hide Count, Settled;
    NilCount(c);
    forall pid: int, id: nat {:trigger Linked(pid, id)}
      ensures Total(c, t, Linked(pid, id)) == Total(c, s, Linked(pid, id))
    {
      SettledTotal(c, s, Linked(pid, id));
    }
  }

  lemma SettledAccounts(c: Db, s: State)
    requires s.pq != []
    ensures var p := s.pq[0].player;
      Settled(c, s).acct == AQueue(c, Giveto(c, s, p, c.waitCost), c.owner(p), -1).acct
  {
  }

  lemma SettledBook(c: Db, s: State, a: Dbref)
    requires s.pq != [] && c.Consistent() && c.good(s.pq[0].player)
    ensures var b, b' := BookOf(c, s, a), BookOf(c, Settled(c, s), a);
      && (QuotaAt(c, b, a) ==> QuotaAt(c, b', a))
      && (b.Balanced(c) ==> b'.Balanced(c))
  {
    hide Count, Settled, AQueue, Giveto, Live, Held, Deposit, Book.Counted, Book.Balanced, Db.Free;
    var e, t := s.pq[0], Settled(c, s);
    SettledAccounts(c, s);
    SettledLive(c, s, a);
    GivetoBook(c, s, e.player, c.waitCost, a, Live(c, t, a), Held(c, t, a));
    AQueueBook(c, Giveto(c, s, e.player, c.waitCost), c.owner(e.player), -1, a, Live(c, t, a), Held(c, t, a));
    OneSettled(c, BookOf(c, s, a), BookOf(c, t, a), e.player, a);
  }

  lemma SettledLive(c: Db, s: State, a: Dbref)
    requires s.pq != [] && s.pq[0].player != NOTHING
    ensures var p, t := s.pq[0].player, Settled(c, s);
      && Live(c, s, a) == Live(c, t, a) + One(a == c.owner(p))
      && Held(c, s, a) == Held(c, t, a) + One(a == c.owner(p) && !c.Free(p))
  {
    hide Count, Settled;
    SettledTotal(c, s, LiveOf(a));
    SettledTotal(c, s, PaidBy(a));
  }

  /** One entry of `p` fewer, with its own refund. */
  lemma OneSettled(c: Db, b: Book, b': Book, p: Dbref, a: Dbref)
    requires c.Consistent() && c.good(p)
    requires var mine := a == c.owner(p);
      && b.live == b'.live + One(mine) && b.held == b'.held + One(mine && !c.Free(p))
      && b' == b.(live := b'.live, held := b'.held, queue := b.queue - One(mine),
                  money := b.money + if mine && !c.Free(p) then c.waitCost else 0)
    ensures QuotaAt(c, b, a) ==> QuotaAt(c, b', a)
    ensures b.Balanced(c) ==> b'.Balanced(c)
  {
    assert Deposit(c, b'.held + 1) == Deposit(c, b'.held) + c.waitCost;
    hide Deposit, Db.Free;
  }

  lemma SettledHistory(c: Db, s: State)
    requires s.pq != [] && c.Consistent() && c.good(s.pq[0].player) && HistoryOk(c, s)
    ensures HistoryOk(c, Settled(c, s))
  {
    var e, t := s.pq[0], Settled(c, s);
    assert t.hist == s.hist.(refunded := s.hist.refunded + [e.id]) && t.pids == s.pids && t.oq == s.oq;
    hide Count, Num, Ids, Subseq, Settled;
    TombHeadIds(s.pq);
    assert t.pq == s.pq[0 := e.(player := NOTHING)] by { SettledPq(c, s); }
    forall id: nat {:trigger LiveIs(id)}
      ensures Num(t.hist.refunded, id) + Total(c, t, LiveIs(id)) == Num(s.hist.refunded, id) + Total(c, s, LiveIs(id))
      ensures Total(c, t, Is(id)) == Total(c, s, Is(id))
    {
      SettledTotal(c, s, LiveIs(id));
      SettledTotal(c, s, Is(id));
      NumSnoc(s.hist.refunded, e.id, id);
    }
    forall id: nat {:trigger Is(id)}
      ensures Total(c, t, Is(id)) == Total(c, s, Is(id))
    {
      SettledTotal(c, s, Is(id));
    }
  }

  lemma SettledPq(c: Db, s: State)
    requires s.pq != []
    ensures Settled(c, s).pq == s.pq[0 := s.pq[0].(player := NOTHING)]
  {
  }

  lemma SettledKeeps(c: Db, s: State)
    requires s.pq != [] && c.Consistent() && c.good(s.pq[0].player) && Inv(c, s)
    ensures Inv(c, Settled(c, s))
  {
    var t := Settled(c, s);
    assert t.sq == s.sq && t.sem == s.sem;
    hide Count, Settled, HistoryOk, Structure, Deposit, BookOf;
    SettledStructure(c, s);
    SettledHistory(c, s);
    forall a: Dbref
      ensures var b, b' := BookOf(c, s, a), BookOf(c, t, a);
        && (QuotaAt(c, b, a) ==> QuotaAt(c, b', a))
        && (b.Balanced(c) ==> b'.Balanced(c))
    {
      SettledBook(c, s, a);
    }
    assert FallTogether(c, s, t);
    FallingKeeps(c, s, t);
  }

  /** Unlinking the head: a tombstone, or an entry recorded as lost. */
  lemma PopTotal(c: Db, s: State, g: Filter)
    requires s.pq != []
    ensures Total(c, Pop(s), g) == Total(c, s, g) - One(g.Picks(c, s.pq[0]))
  {
    hide Count;
    RemoveAt(c, s.pq, 0, g);
    assert s.pq[..0] + s.pq[1..] == s.pq[1..];
  }

  lemma PopStructure(c: Db, s: State)
    requires s.pq != [] && Structure(c, s)
    ensures Structure(c, Pop(s))
  {
    var e, t := s.pq[0], Pop(s);
    var u := t.(pids := s.pids);
    assert t.pids == s.pids.(table := Unlist(s.pids.table, [e])) by { assert [e][..0] == []; }
    assert t.pq == s.pq[1..] && t.oq == s.oq && t.wq == s.wq && t.sq == s.sq;
    hide Count, Unlist, Pop;
    NilCount(c);
    forall pid: int, id: nat {:trigger Linked(pid, id)}
      ensures Total(c, u, Linked(pid, id)) + Count(c, [e], Linked(pid, id))
           == Total(c, s, Linked(pid, id)) + Count(c, [], Linked(pid, id))
    {
      PopTotal(c, s, Linked(pid, id));
      Single(c, e, Linked(pid, id));
      assert Total(c, u, Linked(pid, id)) == Total(c, t, Linked(pid, id));
    }
    UnlistLinks(c, u, [e], t);
    UnlistTable(c, s.pids, [e]);
  }

  lemma PopThreads(s: State)
    requires s.pq != [] && Threads(s)
    ensures Threads(Pop(s))
  {
    hide Ids, Subseq, Pop;
    PopFrame(s);
    var e := s.pq[0];
    assert s.pq == [e] + s.pq[1..];
    AppendIds([e], s.pq[1..]);
    IdsAt([e]);
    assert Ids([e]) == [e.id];
    assert s.hist.popped + ([e.id] + Ids(s.pq[1..])) == s.hist.popped + [e.id] + Ids(s.pq[1..]);
  }

  lemma PopFrame(s: State)
    requires s.pq != []
    ensures var t := Pop(s);
      && t.hist == s.hist.(popped := s.hist.popped + [s.pq[0].id]) && t.acct == s.acct
      && t.pids.nextId == s.pids.nextId && t.sem == s.sem
      && t.pq == s.pq[1..] && t.oq == s.oq && t.wq == s.wq && t.sq == s.sq
  {
  }

  lemma PopTombHistory(c: Db, s: State)
    requires s.pq != [] && s.pq[0].player == NOTHING && Fate(c, s) && Once(c, s)
    ensures Fate(c, Pop(s)) && Once(c, Pop(s))
  {
    hide Count, Num, Pop, Total;
    PopFrame(s);
    var e, t := s.pq[0], Pop(s);
    forall id: nat {:trigger LiveIs(id)}
      ensures Total(c, t, LiveIs(id)) == Total(c, s, LiveIs(id))
    {
      PopTotal(c, s, LiveIs(id));
    }
    forall id: nat {:trigger Is(id)}
      ensures Num(t.hist.popped, id) + Total(c, t, Is(id)) == Num(s.hist.popped, id) + Total(c, s, Is(id))
    {
      PopTotal(c, s, Is(id));
      NumSnoc(s.hist.popped, e.id, id);
    }
  }

  lemma PopTombLive(c: Db, s: State)
    requires s.pq != [] && s.pq[0].player == NOTHING
    ensures SameLive(c, s, Pop(s))
  {
    hide Count, Pop;
    forall o: Dbref
      ensures Live(c, Pop(s), o) == Live(c, s, o) && Held(c, Pop(s), o) == Held(c, s, o)
    {
      PopTotal(c, s, LiveOf(o));
      PopTotal(c, s, PaidBy(o));
    }
  }

  lemma PopTombKeeps(c: Db, s: State)
    requires s.pq != [] && s.pq[0].player == NOTHING && c.Consistent() && Inv(c, s)
    ensures Inv(c, Pop(s))
  {
    hide Count, Num, Ids, Subseq, Pop, Structure, Threads, Deposit, Fate, Once, SameLive;
    PopFrame(s);
    PopStructure(c, s);
    PopThreads(s);
    PopTombHistory(c, s);
    PopTombLive(c, s);
    MovedKeeps(c, s, Pop(s));
    assert FallTogether(c, s, Pop(s));
    FallingKeeps(c, s, Pop(s));
  }

  /** cque_do_top dropping the entry of a Going object. */
  function Dropped(c: Db, s: State): State
    requires s.pq != []
  {
    Pop(Launch(c, s))
  }

  lemma DroppedBook(c: Db, s: State, a: Dbref)
    requires s.pq != [] && s.pq[0].player in s.env.going && c.good(s.pq[0].player) && c.Consistent()
    ensures var b, b' := BookOf(c, s, a), BookOf(c, Dropped(c, s), a);
      && (QuotaAt(c, b, a) ==> QuotaAt(c, b', a))
      && (b.Balanced(c) ==> b'.Balanced(c))
  {
    hide Count, Launch, Dropped, Live, Held, Deposit, Book.Counted, Book.Balanced, Burn, Leak, Db.Free;
    var e, t := s.pq[0], Dropped(c, s);
    DroppedFrame(c, s);
    DroppedLive(c, s, a);
    LostBook(c, s, e.player, a, Live(c, t, a), Held(c, t, a));
    OneDropped(c, BookOf(c, s, a), BookOf(c, t, a), e.player, a);
  }

  lemma DroppedLive(c: Db, s: State, a: Dbref)
    requires s.pq != [] && s.pq[0].player in s.env.going && s.pq[0].player >= 0
    ensures var p, t := s.pq[0].player, Dropped(c, s);
      && Live(c, s, a) == Live(c, t, a) + One(a == c.owner(p))
      && Held(c, s, a) == Held(c, t, a) + One(a == c.owner(p) && !c.Free(p))
  {
    hide Count, Dropped;
    DroppedTotal(c, s, LiveOf(a));
    DroppedTotal(c, s, PaidBy(a));
  }

  /** What dropping an entry of `p` writes off. */
  lemma LostBook(c: Db, s: State, p: Dbref, a: Dbref, live: nat, held: nat)
    ensures var b, mine := Numbers(s.acct, live, held, a), a == c.owner(p);
      Numbers(Burn(c, Leak(c, s, c.owner(p)), p, c.waitCost).acct, live, held, a)
      == b.(leaked := b.leaked + One(mine), burnt := b.burnt + if mine && !c.Free(p) then c.waitCost else 0)
  {
    hide Db.Free;
  }

  /** One entry of `p` fewer, written off. */
  lemma OneDropped(c: Db, b: Book, b': Book, p: Dbref, a: Dbref)
    requires c.Consistent() && c.good(p)
    requires var mine := a == c.owner(p);
      && b.live == b'.live + One(mine) && b.held == b'.held + One(mine && !c.Free(p))
      && b' == b.(live := b'.live, held := b'.held, leaked := b.leaked + One(mine),
                  burnt := b.burnt + if mine && !c.Free(p) then c.waitCost else 0)
    ensures QuotaAt(c, b, a) ==> QuotaAt(c, b', a)
    ensures b.Balanced(c) ==> b'.Balanced(c)
  {
    assert Deposit(c, b'.held + 1) == Deposit(c, b'.held) + c.waitCost;
    hide Deposit, Db.Free;
  }

  lemma DroppedKeeps(c: Db, s: State)
    requires s.pq != [] && s.pq[0].player in s.env.going && c.good(s.pq[0].player) && c.Consistent() && Inv(c, s)
    ensures Inv(c, Dropped(c, s))
  {
    DroppedThreads(c, s);
    hide Count, Num, Ids, Subseq, Threads, Deposit, Launch, Dropped, Pop, BookOf;
    var u, t := Launch(c, s), Dropped(c, s);
    DroppedFrame(c, s);
    SameStructure(c, s, u);
    PopStructure(c, u);
    PopFrame(u);
    hide Structure;
    DroppedFate(c, s);
    DroppedOnce(c, s);
    forall a: Dbref
      ensures var b, b' := BookOf(c, s, a), BookOf(c, t, a);
        && (QuotaAt(c, b, a) ==> QuotaAt(c, b', a))
        && (b.Balanced(c) ==> b'.Balanced(c))
    {
      DroppedBook(c, s, a);
    }
    assert FallTogether(c, s, t);
    FallingKeeps(c, s, t);
  }

  lemma DroppedThreads(c: Db, s: State)
    requires s.pq != [] && s.pq[0].player in s.env.going && s.pq[0].player >= 0 && Threads(s)
    ensures Threads(Dropped(c, s))
  {
    hide Ids, Subseq, Pop;
    var u := Launch(c, s);
    assert Threads(u);
    PopThreads(u);
  }

  lemma DroppedFrame(c: Db, s: State)
    requires s.pq != [] && s.pq[0].player in s.env.going && s.pq[0].player >= 0
    ensures var e, u, t := s.pq[0], Launch(c, s), Dropped(c, s);
      && t.hist == s.hist.(lost := s.hist.lost + [e.id], popped := s.hist.popped + [e.id])
      && t.pids.nextId == s.pids.nextId
      && u.pq == s.pq && u.oq == s.oq && u.wq == s.wq && u.sq == s.sq && u.pids == s.pids && u.sem == s.sem
      && t == Pop(u)
      && t.acct == Burn(c, Leak(c, s, c.owner(e.player)), e.player, c.waitCost).acct
  {
  }

  lemma DroppedTotal(c: Db, s: State, g: Filter)
    requires s.pq != [] && s.pq[0].player in s.env.going && s.pq[0].player >= 0
    ensures Total(c, Dropped(c, s), g) == Total(c, s, g) - One(g.Picks(c, s.pq[0]))
  {
    hide Count, Dropped, Launch, Pop;
    DroppedFrame(c, s);
    PopTotal(c, Launch(c, s), g);
  }

  lemma DroppedFate(c: Db, s: State)
    requires s.pq != [] && s.pq[0].player in s.env.going && s.pq[0].player >= 0
    requires Fate(c, s)
    ensures Fate(c, Dropped(c, s))
  {
    hide Count, Num, Launch, Dropped, Total, Pop;
    DroppedFrame(c, s);
    forall id: nat {:trigger LiveIs(id)}
      ensures Num(Dropped(c, s).hist.lost, id) + Total(c, Dropped(c, s), LiveIs(id)) == Num(s.hist.lost, id) + Total(c, s, LiveIs(id))
    {
      DroppedTotal(c, s, LiveIs(id));
      NumSnoc(s.hist.lost, s.pq[0].id, id);
    }
  }

  lemma DroppedOnce(c: Db, s: State)
    requires s.pq != [] && s.pq[0].player in s.env.going && s.pq[0].player >= 0
    requires Once(c, s)
    ensures Once(c, Dropped(c, s))
  {
    hide Count, Num, Launch, Dropped, Total, Pop;
    DroppedFrame(c, s);
    forall id: nat {:trigger Is(id)}
      ensures Num(Dropped(c, s).hist.popped, id) + Total(c, Dropped(c, s), Is(id)) == Num(s.hist.popped, id) + Total(c, s, Is(id))
    {
      DroppedTotal(c, s, Is(id));
      NumSnoc(s.hist.popped, s.pq[0].id, id);
    }
  }

  /** What was run is what left the run queue, minus tombstones, drops and halted objects. */
  ghost predicate RanOk(s: State) {
    Subseq(s.hist.ran, s.hist.popped)
  }

  lemma RunHeadKeeps(c: Db, s: State, script: seq<Op>)
    requires s.pq != [] && c.Consistent() && Inv(c, s)
    requires Runs(s) ==> LegalOps(c, Launch(c, s), script)
    ensures Inv(c, RunHead(c, s, script))
    ensures RanOk(s) ==> RanOk(RunHead(c, s, script))
  {
    HeadInQueue(c, s);
    hide Inv, Launch, Perform, Pop, Settled, Subseq, LegalOps;
    var e := s.pq[0];
    if e.player >= 0 && e.player !in s.env.going {
      SettledHeadKeeps(c, s, script);
    } else if e.player >= 0 {
      DroppedKeeps(c, s);
      DroppedIs(c, s);
      RanSnoc(s.hist.ran, s.hist.popped, e.id);
    } else {
      PopTombKeeps(c, s);
      PopFrame(s);
      TombIs(c, s);
      RanSnoc(s.hist.ran, s.hist.popped, e.id);
    }
  }

  lemma HeadInQueue(c: Db, s: State)
    requires s.pq != [] && Inv(c, s)
    ensures InRunQueue(c, s.pq[0])
  {
    InvStructure(c, s);
    hide Inv;
  }

  /** The head of the run queue when it is settled, and its command has been run. */
  lemma SettledHeadKeeps(c: Db, s: State, script: seq<Op>)
    requires s.pq != [] && c.Consistent() && Inv(c, s)
    requires Runs(s) ==> LegalOps(c, Launch(c, s), script)
    requires c.good(s.pq[0].player) && s.pq[0].player >= 0 && s.pq[0].player !in s.env.going
    ensures Inv(c, RunHead(c, s, script))
    ensures RanOk(s) ==> RanOk(RunHead(c, s, script))
  {
    LaunchIs(c, s);
    hide Inv, Launch, Perform, Pop, Settled, Subseq, LegalOps;
    var e, u, v := s.pq[0], Launch(c, s), Settled(c, s);
    SettledKeeps(c, s);
    RanAside(c, v, u);
    if Runs(s) {
      PerformKeeps(c, u, script);
    }
    var t := if Runs(s) then Perform(c, u, script) else u;
    PopTombKeeps(c, t);
    PopFrame(t);
    RanSnoc(s.hist.ran, s.hist.popped, e.id);
  }

  /** A head that is settled becomes a tombstone, and is recorded if its command is run. */
  lemma LaunchIs(c: Db, s: State)
    requires s.pq != [] && s.pq[0].player >= 0 && s.pq[0].player !in s.env.going
    ensures var u, v := Launch(c, s), Settled(c, s);
      && u == v.(hist := v.hist.(ran := u.hist.ran)) && u.hist.popped == s.hist.popped
      && u.hist.ran == s.hist.ran + (if Runs(s) then [s.pq[0].id] else [])
      && u.pq != [] && u.pq[0].player == NOTHING && u.pq[0].id == s.pq[0].id
  {
  }

  lemma DroppedIs(c: Db, s: State)
    requires s.pq != [] && s.pq[0].player >= 0 && s.pq[0].player in s.env.going
    ensures !Runs(s) && Launch(c, s).pq == s.pq
    ensures Dropped(c, s).hist.popped == s.hist.popped + [s.pq[0].id] && Dropped(c, s).hist.ran == s.hist.ran
  {
  }

  lemma TombIs(c: Db, s: State)
    requires s.pq != [] && s.pq[0].player < 0
    ensures !Runs(s) && Launch(c, s) == s
  {
  }

  /** Every turn of the loop of cque_do_top takes one entry off the run queue, whatever its
      command does. */
  lemma RunHeadPops(c: Db, s: State, script: seq<Op>)
    requires s.pq != [] && c.Consistent() && Inv(c, s)
    requires Runs(s) ==> LegalOps(c, Launch(c, s), script)
    ensures RunHead(c, s, script).hist.popped == s.hist.popped + [s.pq[0].id]
  {
    var u := Launch(c, s);
    assert u.pq != [] && u.pq[0].id == s.pq[0].id && u.hist.popped == s.hist.popped;
    if Runs(s) {
      assert u.pq[0].player == NOTHING;
      LaunchKeeps(c, s);
      hide Launch, Perform, Inv, LegalOps;
      PerformKeeps(c, u, script);
    }
  }

  lemma RanSnoc(ran: seq<nat>, popped: seq<nat>, id: nat)
    ensures Subseq(ran, popped) ==> Subseq(ran, popped + [id]) && Subseq(ran + [id], popped + [id])
  {
    hide Subseq;
    if Subseq(ran, popped) {
      SubseqMore(ran, popped, [id]);
      SubseqSnoc(ran, popped, id);
    }
  }

  lemma RanAside(c: Db, s: State, t: State)
    requires Inv(c, s)
    requires t == s.(hist := s.hist.(ran := t.hist.ran))
    ensures Inv(c, t)
  {
    hide Count, Num, Ids, Subseq, Structure, SemOk, BookOf;
    SameStructure(c, s, t);
    SameLiveQueues(c, s, t);
    MovedKeeps(c, s, t);
    assert FallTogether(c, s, t);
    FallingKeeps(c, s, t);
    assert forall g: Filter :: Total(c, t, g) == Total(c, s, g);
  }

  lemma LaunchKeeps(c: Db, s: State)
    requires s.pq != [] && c.Consistent() && Inv(c, s) && Runs(s)
    ensures Inv(c, Launch(c, s))
  {
    assert Structure(c, s) by { InvStructure(c, s); }
    assert InRunQueue(c, s.pq[0]);
    hide Inv, Structure;
    SettledKeeps(c, s);
    RanAside(c, Settled(c, s), Launch(c, s));
  }

  function Head(scripts: seq<seq<Op>>): seq<Op> {
    if scripts != [] then scripts[0] else []
  }

  function Tail(scripts: seq<seq<Op>>): seq<seq<Op>> {
    if scripts != [] then scripts[1..] else []
  }

  lemma TopStep(c: Db, s: State, n: nat, scripts: seq<seq<Op>>)
    ensures TopLoop(c, s, n, scripts) ==
      if n == 0 || s.pq == [] then s else TopLoop(c, RunHead(c, s, Head(scripts)), n - 1, Tail(scripts))
    ensures LegalTop(c, s, n, scripts) && n != 0 && s.pq != [] ==>
      && (Runs(s) ==> LegalOps(c, Launch(c, s), Head(scripts)))
      && LegalTop(c, RunHead(c, s, Head(scripts)), n - 1, Tail(scripts))
  {
    hide RunHead, Runs, Launch, LegalOps;
  }

  lemma {:induction false} TopKeeps(c: Db, s: State, n: nat, scripts: seq<seq<Op>>)
    requires c.Consistent() && Inv(c, s) && LegalTop(c, s, n, scripts)
    ensures Inv(c, TopLoop(c, s, n, scripts))
    ensures RanOk(s) ==> RanOk(TopLoop(c, s, n, scripts))
    decreases n
  {
    hide RunHead, Inv, RanOk, Launch, Runs, TopLoop, LegalTop, LegalOps;
    TopStep(c, s, n, scripts);
    if n != 0 && s.pq != [] {
      RunHeadKeeps(c, s, Head(scripts));
      TopKeeps(c, RunHead(c, s, Head(scripts)), n - 1, Tail(scripts));
    }
  }

  lemma SecondKeeps(c: Db, s: State, now: int)
    requires Inv(c, s)
    ensures Inv(c, SecondPass(c, s, now))
    ensures RanOk(s) ==> RanOk(SecondPass(c, s, now))
  {
    SecondStructure(c, s, now);
    SecondFalls(c, s, now);
    if s.env.dequeue { SecondThreads(c, s, now); }
    hide SecondPass, SemOk, QuotaOk, LedgerOk, HistoryOk;
    FallingKeeps(c, s, SecondPass(c, s, now));
    SecondBoth(c, s, now);
    SecondHistory(c, s, now);
  }

  lemma ApplyKeeps(c: Db, s: State, a: Act)
    requires c.Consistent() && Inv(c, s) && LegalAct(c, s, a)
    ensures Inv(c, Apply(c, s, a))
    ensures RanOk(s) ==> RanOk(Apply(c, s, a))
  {
    hide Inv, Subseq, Step, SecondPass, TopLoop;
    match a
    case Do(op) =>
      StepKeeps(c, s, op);
      assert Structure(c, s) by { InvStructure(c, s); }
      hide Structure;
      StepHead(c, s, op);
    case Second(now) => SecondKeeps(c, s, now);
    case Top(n, scripts) =>
      if s.env.dequeue { TopKeeps(c, s, n, scripts); }
  }

  lemma InvStructure(c: Db, s: State)
    requires Inv(c, s)
    ensures Structure(c, s)
  {
  }

  lemma EmptyInv(c: Db)
    ensures Inv(c, Empty) && RanOk(Empty)
  {
    assert forall a: Dbref :: BookOf(c, Empty, a) == Book(0, 0, 0, 0, 0, 0, 0);
    assert forall g: Filter :: Total(c, Empty, g) == 0;
  }

  /** Every state of every legal run keeps all the invariants. */
  lemma {:induction false} RunKeeps(c: Db, acts: seq<Act>)
    requires c.Consistent() && LegalRun(c, Empty, acts)
    ensures Inv(c, Run(c, Empty, acts)) && RanOk(Run(c, Empty, acts))
  {
    if acts == [] {
      EmptyInv(c);
    } else {
      hide Inv, RanOk, Apply;
      RunKeeps(c, acts[..|acts| - 1]);
      ApplyKeeps(c, Run(c, Empty, acts[..|acts| - 1]), acts[|acts| - 1]);
    }
  }

  // ---- a first entry

  /** The empty queue once the owner of `p` can pay for an entry. */
  function Funded(c: Db, p: Dbref): State {
    Step(c, Empty, Income(c.owner(p), c.waitCost))
  }

  lemma FundedSetup(c: Db, p: Dbref)
    requires c.Consistent() && c.good(p) && c.maxPid > 0 && c.queueMax(c.owner(p)) >= 1
    ensures var s := Funded(c, p);
      var (t, r) := Setup(c, s, p, p, Luck(false, true));
      && SameQueues(s, t) && r == Some(Entry(0, p, p, 1, 0, NOTHING, 0))
      && t.acct == Bought(c, s, p, Luck(false, true)).acct && Payfor(c, s, p, Cost(c, Luck(false, true))).1
  {
    var s := Funded(c, p);
    var luck := Luck(false, true);
    assert PidScan(c, s.pids.table, s.pids.top, c.maxPid) == 1;
    assert Cost(c, luck) == c.waitCost;
    assert Payfor(c, s, p, c.waitCost).1;
    assert NextQueue(c, s, c.owner(p)) == 1;
    assert CaseOf(c, s, p, luck).Done?;
    SetupDone(c, s, p, p, luck);
  }

  lemma FundedRun(c: Db, p: Dbref, acts: seq<Act>)
    requires acts != [] && acts[0] == Do(Income(c.owner(p), c.waitCost))
    ensures Run(c, Empty, acts[..1]) == Funded(c, p)
  {
    assert acts[..1][..0] == [];
  }

  lemma NothingIsBad(c: Db)
    requires c.Consistent()
    ensures !c.good(NOTHING)
  {
  }
}
