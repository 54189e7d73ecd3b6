/** Runs on which the inequalities are equalities: what operations must respect for a
    semaphore's counter to be the number of its waiters, and for nothing to be lost. */
module QueueConduct {
  import opened QueueTypes
  import opened QueueSpec
  import opened QueueLists
  import opened QueueFrames
  import opened QueuePids
  import opened QueueStructure
  import opened QueueSemaphores
  import opened QueueLedger
  import opened QueueHistory
  import opened QueueRuns
  import opened QueueTies

  /** No increment of a queue counter stands for no entry, and no account lost a coin. */
  ghost predicate NoLoss(t: Accounts) {
    forall a: Dbref :: Get(t.leaked, a) == 0 && Get(t.burnt, a) == 0
  }

  /** What one may want to hold of every state. */
  datatype Aim = ExactCounters | NothingLost | FirstComeFirst {
    ghost predicate Holds(c: Db, s: State) {
      match this
      case ExactCounters => SemExact(c, s)
      case NothingLost => NoLoss(s.acct)
      case FirstComeFirst => TiesOk(s)
    }
  }

  // ---- one operation

  /** Exact counters: a wait that should block has what it needs to be queued, and an
      attribute-0 notify finds no other attribute waiting. */
  ghost predicate Orderly(c: Db, s: State, op: Op) {
    match op
    case WaitOn(player, _, thing, attr, _, _, luck) =>
      Counter(s, thing, attr) < 0 || Enqueues(c, s, player, luck)
    case Notify(thing, attr, _, _) => attr != 0 || OnlyDefault(s, thing)
    case _ => true
  }

  /** Nothing lost: a set-up that gets as far as paying finds a PID and fits, and charges
      no surcharge. One over the quota must be free of charge, because the halt that
      follows clears the counter, but returns no deposit for it. */
  ghost predicate Thrifty(c: Db, s: State, player: Dbref, luck: Luck) {
    s.env.interp && player !in s.env.halted && CanPay(c, s, player, luck) ==>
      if UnderQuota(c, s, player) then
        PidFree(c, s) && luck.fits && (c.Free(player) || Cost(c, luck) == c.waitCost)
      else c.Free(player) || Cost(c, luck) == 0
  }

  ghost predicate Careful(c: Db, aim: Aim, s: State, op: Op) {
    match aim
    case ExactCounters => Orderly(c, s, op)
    case FirstComeFirst => true
    case NothingLost =>
      match op
      case Wait(player, _, _, _, _, luck) => Thrifty(c, s, player, luck)
      case WaitOn(player, _, _, _, _, _, luck) => Thrifty(c, s, player, luck)
      case _ => true
  }

  /** Exact counters stay exact exactly under orderly operations. */
  lemma CountersStayExact(c: Db, s: State, op: Op)
    requires c.Consistent() && Structure(c, s) && Legal(c, s, op) && SemExact(c, s)
    ensures SemExact(c, Step(c, s, op)) <==> Orderly(c, s, op)
  {
    hide SemExact, WaitQue, WaitOnSem, NotifySem, HaltQue, HaltOne, RetimeOne, OnlyDefault, Enqueues;
    match op
    case Wait(player, cause, wait, attr, now, luck) =>
      PlainWaitFalls(c, s, player, cause, wait, attr, now, luck);
      FallingKeeps(c, s, Step(c, s, op));
    case WaitOn(player, cause, thing, attr, wait, now, luck) =>
      WaitOnSemCounts(c, s, player, cause, thing, attr, wait, now, luck);
    case Notify(thing, attr, key, count) =>
      NotifyKeeps(c, s, thing, attr, key, count);
    case Halt(p, o) =>
      HaltFalls(c, s, p, o);
      FallingKeeps(c, s, Step(c, s, op));
    case HaltPid(pid, allowed) =>
      HaltOneFalls(c, s, pid, allowed);
      FallingKeeps(c, s, Step(c, s, op));
    case Retime(pid, mode, val, now, allowed) =>
      RetimeFalls(c, s, pid, mode, val, now, allowed);
      FallingKeeps(c, s, Step(c, s, op));
    case SetHalted(_, _) => Untouched(c, s, op);
    case SetGoing(_, _) => Untouched(c, s, op);
    case SetFlags(_, _) => Untouched(c, s, op);
    case Income(_, _) => Untouched(c, s, op);
  }

  lemma Untouched(c: Db, s: State, op: Op)
    requires op.SetHalted? || op.SetGoing? || op.SetFlags? || op.Income?
    ensures SemExact(c, s) ==> SemExact(c, Step(c, s, op))
  {
    assert FallTogether(c, s, Step(c, s, op));
    FallingKeeps(c, s, Step(c, s, op));
  }

  // ---- losses, operation by operation

  lemma {:induction false} CreditOwnersLose(c: Db, s: State, es: seq<Entry>, n: nat)
    requires NoLoss(s.acct)
    ensures NoLoss(CreditOwners(c, s, es, n).acct)
  {
    hide Count, Deposit, CreditOwner, CreditOwners;
    CreditStep(c, s, es, n);
    if n != 0 {
      CreditOwnersLose(c, s, es, n - 1);
      var t := CreditOwners(c, s, es, n - 1);
      forall a: Dbref
        ensures Get(CreditOwners(c, s, es, n).acct.leaked, a) == 0 == Get(CreditOwners(c, s, es, n).acct.burnt, a)
      {
        CreditOwnerBook(c, t, n - 1, Count(c, es, LiveOf(n - 1)), a, 0, 0);
      }
    }
  }

  /** Halting clears losses of counters or leaves them, and loses no money. */
  lemma HaltLoses(c: Db, s: State, ptarg: Dbref, otarg: Dbref)
    requires NoLoss(s.acct)
    ensures NoLoss(HaltQue(c, s, ptarg, otarg).acct)
  {
    var f := Wanted(ptarg, otarg);
    var es := HaltedEntries(c, s, f);
    HaltListsFrame(c, s, f);
    hide HaltedEntries, HaltLists, HaltCredit, Ids, NoLoss, Taken, Kept, Tombed, Unlist, Count;
    CreditLoses(c, Refunded(HaltLists(c, s, f), Ids(es)), es, ptarg, otarg);
  }

  lemma CreditLoses(c: Db, s: State, es: seq<Entry>, ptarg: Dbref, otarg: Dbref)
    requires NoLoss(s.acct)
    ensures NoLoss(HaltCredit(c, s, es, ptarg, otarg).acct)
  {
    CreditOwnersLose(c, s, es, c.dbTop);
    hide CreditOwners, Deposit, Giveto, AQueue, SQueueZero;
    if ptarg != NOTHING || otarg != NOTHING {
      var p := if ptarg == NOTHING then c.owner(otarg) else ptarg;
      var t := Giveto(c, s, p, Deposit(c, |es|));
      forall a: Dbref
        ensures var u := HaltCredit(c, s, es, ptarg, otarg); Get(u.acct.leaked, a) == 0 == Get(u.acct.burnt, a)
      {
        GivetoBook(c, s, p, Deposit(c, |es|), a, 0, 0);
        SQueueBook(c, t, p, a, 0, 0);
        AQueueBook(c, t, p, -|es|, a, 0, 0);
      }
    }
  }

  lemma {:induction false} DrainLoses(c: Db, s: State, es: seq<Entry>)
    requires NoLoss(s.acct)
    ensures NoLoss(DrainAll(c, s, es).acct)
  {
    if es != [] {
      DrainLoses(c, s, es[..|es| - 1]);
    }
  }

  lemma NotifyLoses(c: Db, s: State, thing: Dbref, attr: int, key: NotifyKey, count: int)
    requires NoLoss(s.acct)
    ensures NoLoss(NotifySem(c, s, thing, attr, key, count).acct)
  {
    hide Taken, Kept, DrainAll, GiveAll, NoLoss;
    var es := Taken(c, s.sq, OnSem(thing, attr), Limit(s.sq, key, count));
    DrainLoses(c, s, es);
    GiveAllFrame(c, s, es);
  }

  lemma HaltOneLoses(c: Db, s: State, pid: int, allowed: bool)
    requires NoLoss(s.acct)
    ensures NoLoss(HaltOne(c, s, pid, allowed).acct)
  {
    hide Lookup, MarkHalted, Without;
  }

  lemma RetimeLoses(c: Db, s: State, pid: int, mode: TimeMode, val: int, now: int, allowed: bool)
    ensures RetimeOne(c, s, pid, mode, val, now, allowed).acct == s.acct
  {
    hide Lookup, Without, Insert, Replaced, NewTime;
  }

  /** A payment that buys no entry is a loss, but for what the halt over the quota clears. */
  lemma WastedLoses(c: Db, s: State, player: Dbref, luck: Luck)
    requires c.Consistent() && c.good(player) && NoLoss(s.acct) && Payfor(c, s, player, Cost(c, luck)).1
    ensures var o := c.owner(player);
      var w := Wasted(c, s, player, luck);
      && Get(w.acct.leaked, o) == 1
      && Get(w.acct.burnt, o) == (if c.Free(player) then 0 else Cost(c, luck))
      && forall a :: a != o ==> Get(w.acct.leaked, a) == 0 == Get(w.acct.burnt, a)
  {
    var o := c.owner(player);
    ChargedBook(c, s, player, luck, o, 0, 0);
    forall a | a != o
      ensures Get(Wasted(c, s, player, luck).acct.leaked, a) == 0 == Get(Wasted(c, s, player, luck).acct.burnt, a)
    {
      ChargedBook(c, s, player, luck, a, 0, 0);
    }
  }

  lemma BoughtLoses(c: Db, s: State, player: Dbref, luck: Luck)
    requires c.Consistent() && c.good(player) && NoLoss(s.acct) && Payfor(c, s, player, Cost(c, luck)).1
    ensures NoLoss(Bought(c, s, player, luck).acct) <==> c.Free(player) || Cost(c, luck) == c.waitCost
  {
    var o := c.owner(player);
    ChargedBook(c, s, player, luck, o, 0, 0);
    forall a | a != o
      ensures Get(Bought(c, s, player, luck).acct.leaked, a) == 0 == Get(Bought(c, s, player, luck).acct.burnt, a)
    {
      ChargedBook(c, s, player, luck, a, 0, 0);
    }
    hide Bought, Numbers;
    assert Numbers(Bought(c, s, player, luck).acct, 0, 0, o).burnt
        == if c.Free(player) then 0 else Cost(c, luck) - c.waitCost;
  }

  /** A full halt of an owner clears the owner's counters and touches no other's. */
  lemma FullHaltLoses(c: Db, s: State, o: Dbref)
    requires o != NOTHING
    ensures var t := HaltQue(c, s, o, NOTHING);
      && t.acct.burnt == s.acct.burnt
      && t.acct.leaked == if c.goodOwner(o) then s.acct.leaked[o := 0] else s.acct.leaked
  {
    HaltListsFrame(c, s, Wanted(o, NOTHING));
    hide HaltedEntries, HaltLists, Ids, Deposit, Taken, Kept, Unlist, Tombed, Count, CreditOwners, AQueue;
  }

  lemma ClearedLoses(w: Accounts, t: Accounts, o: Dbref)
    requires t.burnt == w.burnt && t.leaked == w.leaked[o := 0]
    requires forall a :: a != o ==> Get(w.leaked, a) == 0 == Get(w.burnt, a)
    ensures NoLoss(t) <==> Get(w.burnt, o) == 0
  {
    forall a | a != o
      ensures Get(t.leaked, a) == Get(w.leaked, a)
    {
    }
  }

  lemma SetupLoses(c: Db, s: State, player: Dbref, cause: Dbref, luck: Luck)
    requires c.Consistent() && c.good(player) && TableOk(c, s.pids) && NoLoss(s.acct) && s.env.interp
    ensures NoLoss(Setup(c, s, player, cause, luck).0.acct) <==> Thrifty(c, s, player, luck)
  {
    CaseIff(c, s, player, luck);
    var t := Setup(c, s, player, cause, luck).0;
    var o := c.owner(player);
    assert c.goodOwner(o) && o != NOTHING by { assert c.good(player); }
    if !CaseOf(c, s, player, luck).Refused? {
      WastedLoses(c, s, player, luck);
      BoughtLoses(c, s, player, luck);
    }
    hide PidScan, CanPay, UnderQuota, PidFree, TableOk, HaltQue, Wasted, Bought, Cost;
    match CaseOf(c, s, player, luck)
    case Refused =>
    case OverQuota =>
      var w := Wasted(c, s, player, luck);
      FullHaltLoses(c, w, o);
      ClearedLoses(w.acct, t.acct, o);
    case Failed => SetupFailed(c, s, player, cause, luck);
    case Done => SetupDone(c, s, player, cause, luck);
  }

  lemma WaitLoses(c: Db, s: State, player: Dbref, cause: Dbref, wait: int, sem: Dbref, attr: int, now: int, luck: Luck)
    requires c.Consistent() && c.good(player) && TableOk(c, s.pids) && NoLoss(s.acct)
    ensures NoLoss(WaitQue(c, s, player, cause, wait, sem, attr, now, luck).acct) <==> Thrifty(c, s, player, luck)
  {
    if s.env.interp {
      SetupLoses(c, s, player, cause, luck);
      hide Setup, Thrifty, NoLoss, TableOk, Insert;
    }
  }

  /** Nothing stays lost exactly under thrifty operations. */
  lemma LossesStayOut(c: Db, s: State, op: Op)
    requires c.Consistent() && Structure(c, s) && Legal(c, s, op) && NoLoss(s.acct)
    ensures NoLoss(Step(c, s, op).acct) <==> Careful(c, NothingLost, s, op)
  {
    hide NoLoss, Thrifty, WaitQue, NotifySem, HaltQue, HaltOne, RetimeOne, LinksOk, TableOk, Shape;
    match op
    case Wait(player, cause, wait, attr, now, luck) =>
      WaitLoses(c, s, player, cause, wait, NOTHING, attr, now, luck);
    case WaitOn(player, cause, thing, attr, wait, now, luck) =>
      var s1 := AddSem(s, thing, attr, 1);
      ThriftyAside(c, s, s1, player, luck);
      WaitLoses(c, s1, player, cause, 0, NOTHING, attr, now, luck);
      WaitLoses(c, s1, player, cause, wait, thing, attr, now, luck);
    case Notify(thing, attr, key, count) => NotifyLoses(c, s, thing, attr, key, count);
    case Halt(p, o) => HaltLoses(c, s, p, o);
    case HaltPid(pid, allowed) => HaltOneLoses(c, s, pid, allowed);
    case Retime(pid, mode, val, now, allowed) => RetimeLoses(c, s, pid, mode, val, now, allowed);
    case SetHalted(_, _) =>
    case SetGoing(_, _) =>
    case SetFlags(_, _) =>
    case Income(a, n) => assert NoLoss(Step(c, s, op).acct) by { IncomeLoses(c, s, a, n); }
  }

  lemma IncomeLoses(c: Db, s: State, a: Dbref, n: int)
    requires NoLoss(s.acct)
    ensures NoLoss(Step(c, s, Income(a, n)).acct)
  {
  }

  lemma ThriftyAside(c: Db, s: State, t: State, player: Dbref, luck: Luck)
    requires t == s.(sem := t.sem)
    ensures Thrifty(c, t, player, luck) <==> Thrifty(c, s, player, luck)
  {
  }

  /** What the aim asks of an operation is exactly what keeps it. */
  lemma StepHolds(c: Db, aim: Aim, s: State, op: Op)
    requires c.Consistent() && Structure(c, s) && Legal(c, s, op) && aim.Holds(c, s)
    ensures aim.Holds(c, Step(c, s, op)) <==> Careful(c, aim, s, op)
  {
    match aim
    case ExactCounters => CountersStayExact(c, s, op);
    case NothingLost => LossesStayOut(c, s, op);
    case FirstComeFirst => StepTurn(c, s, op);
  }

  // ---- the head of the run queue

  /** The entry at the head does not belong to a Going object. */
  predicate CarefulHead(aim: Aim, s: State)
    requires s.pq != []
  {
    aim.NothingLost? && s.pq[0].player >= 0 ==> s.pq[0].player !in s.env.going
  }

  lemma LaunchHolds(c: Db, aim: Aim, s: State)
    requires s.pq != [] && aim.Holds(c, s)
    ensures aim.Holds(c, Launch(c, s)) <==> CarefulHead(aim, s)
  {
    match aim
    case ExactCounters => LaunchAside(c, s);
    case FirstComeFirst => LaunchAside(c, s);
    case NothingLost => LaunchLoses(c, s);
  }

  lemma LaunchFrame(c: Db, s: State)
    requires s.pq != []
    ensures var u := Launch(c, s);
      u.sq == s.sq && u.sem == s.sem && u.wq == s.wq && u.hist.threaded == s.hist.threaded
  {
    var e := s.pq[0];
    hide Giveto, AQueue, Burn, Leak;
    AccountFrame(c, s, e.player, c.waitCost);
    AccountFrame(c, Giveto(c, s, e.player, c.waitCost), c.owner(e.player), -1);
    LossFrame(c, s, e.player, c.waitCost);
    LossFrame(c, Leak(c, s, c.owner(e.player)), e.player, c.waitCost);
  }

  lemma LaunchAside(c: Db, s: State)
    requires s.pq != []
    ensures SemExact(c, s) ==> SemExact(c, Launch(c, s))
    ensures TiesOk(s) ==> TiesOk(Launch(c, s))
  {
    LaunchFrame(c, s);
    hide Launch, InTurn, SemExact, Count;
    var u := Launch(c, s);
    assert FallTogether(c, s, u);
    FallingKeeps(c, s, u);
  }

  lemma LaunchLoses(c: Db, s: State)
    requires s.pq != [] && NoLoss(s.acct)
    ensures NoLoss(Launch(c, s).acct) <==> CarefulHead(NothingLost, s)
  {
    if !CarefulHead(NothingLost, s) {
      var o := c.owner(s.pq[0].player);
      assert Get(Launch(c, s).acct.leaked, o) == Get(s.acct.leaked, o) + 1;
    }
  }

  lemma PopHolds(c: Db, aim: Aim, s: State)
    requires s.pq != []
    ensures aim.Holds(c, s) ==> aim.Holds(c, Pop(s))
  {
    PopFrame(s);
    assert FallTogether(c, s, Pop(s));
    FallingKeeps(c, s, Pop(s));
  }

  // ---- runs

  /** A demand on the operations of a run: that they heed what the aim asks before they
      are performed, or that it holds afterwards. */
  datatype Check = Heeded | Reached {
    ghost predicate OnOp(c: Db, aim: Aim, s: State, op: Op) {
      if Heeded? then Careful(c, aim, s, op) else aim.Holds(c, Step(c, s, op))
    }

    ghost predicate OnHead(c: Db, aim: Aim, s: State)
      requires s.pq != []
    {
      if Heeded? then CarefulHead(aim, s) else aim.Holds(c, Launch(c, s))
    }

    ghost predicate OnOps(c: Db, aim: Aim, s: State, ops: seq<Op>) {
      ops == []
      || (OnOps(c, aim, s, ops[..|ops| - 1]) && OnOp(c, aim, Perform(c, s, ops[..|ops| - 1]), ops[|ops| - 1]))
    }

    ghost predicate OnTop(c: Db, aim: Aim, s: State, n: nat, scripts: seq<seq<Op>>)
      decreases n
    {
      n == 0 || s.pq == [] ||
      (OnHead(c, aim, s)
       && (Runs(s) ==> OnOps(c, aim, Launch(c, s), Head(scripts)))
       && OnTop(c, aim, RunHead(c, s, Head(scripts)), n - 1, Tail(scripts)))
    }

    ghost predicate OnAct(c: Db, aim: Aim, s: State, a: Act) {
      match a
      case Do(op) => OnOp(c, aim, s, op)
      case Second(_) => true
      case Top(n, scripts) => s.env.dequeue ==> OnTop(c, aim, s, n, scripts)
    }

    ghost predicate OnActs(c: Db, aim: Aim, s: State, acts: seq<Act>) {
      acts == []
      || (OnActs(c, aim, s, acts[..|acts| - 1]) && OnAct(c, aim, Run(c, s, acts[..|acts| - 1]), acts[|acts| - 1]))
    }
  }

  lemma {:induction false} OpsHold(c: Db, aim: Aim, s: State, ops: seq<Op>)
    requires c.Consistent() && Inv(c, s) && LegalOps(c, s, ops) && aim.Holds(c, s)
    ensures Heeded.OnOps(c, aim, s, ops) <==> Reached.OnOps(c, aim, s, ops)
    ensures Heeded.OnOps(c, aim, s, ops) ==> aim.Holds(c, Perform(c, s, ops))
  {
    hide Aim.Holds, Careful, Legal, Inv, Step;
    if ops != [] {
      var u := Perform(c, s, ops[..|ops| - 1]);
      OpsHold(c, aim, s, ops[..|ops| - 1]);
      PerformKeeps(c, s, ops[..|ops| - 1]);
      InvStructure(c, u);
      hide Structure;
      if aim.Holds(c, u) {
        StepHolds(c, aim, u, ops[|ops| - 1]);
      }
    }
  }

  /** One turn of the loop of cque_do_top. */
  lemma HeadHolds(c: Db, aim: Aim, s: State, script: seq<Op>)
    requires s.pq != [] && c.Consistent() && Inv(c, s) && aim.Holds(c, s)
    requires Runs(s) ==> LegalOps(c, Launch(c, s), script)
    ensures Heeded.OnHead(c, aim, s) <==> Reached.OnHead(c, aim, s)
    ensures Heeded.OnHead(c, aim, s) && Runs(s) ==>
      (Heeded.OnOps(c, aim, Launch(c, s), script) <==> Reached.OnOps(c, aim, Launch(c, s), script))
    ensures Heeded.OnHead(c, aim, s) && (Runs(s) ==> Heeded.OnOps(c, aim, Launch(c, s), script)) ==>
      aim.Holds(c, RunHead(c, s, script))
  {
    LaunchHolds(c, aim, s);
    hide Aim.Holds, CarefulHead, Careful, Inv, Launch, Pop, Perform, LegalOps, Check.OnOps;
    if Heeded.OnHead(c, aim, s) {
      var u := Launch(c, s);
      if Runs(s) {
        LaunchKeeps(c, s);
        OpsHold(c, aim, u, script);
      }
      var t := if Runs(s) then Perform(c, u, script) else u;
      if t.pq != [] {
        PopHolds(c, aim, t);
      }
    }
  }

  lemma {:induction false} TopHolds(c: Db, aim: Aim, s: State, n: nat, scripts: seq<seq<Op>>)
    requires c.Consistent() && Inv(c, s) && LegalTop(c, s, n, scripts) && aim.Holds(c, s)
    ensures Heeded.OnTop(c, aim, s, n, scripts) <==> Reached.OnTop(c, aim, s, n, scripts)
    ensures Heeded.OnTop(c, aim, s, n, scripts) ==> aim.Holds(c, TopLoop(c, s, n, scripts))
    decreases n
  {
    hide Aim.Holds, Check.OnHead, Check.OnOps, RunHead, Inv, RanOk, Launch, Runs, TopLoop, LegalTop, LegalOps;
    TopStep(c, s, n, scripts);
    if n != 0 && s.pq != [] {
      var script := Head(scripts);
      HeadHolds(c, aim, s, script);
      RunHeadKeeps(c, s, script);
      if aim.Holds(c, RunHead(c, s, script)) {
        TopHolds(c, aim, RunHead(c, s, script), n - 1, Tail(scripts));
      }
    }
  }

  lemma SecondHolds(c: Db, aim: Aim, s: State, now: int)
    requires Inv(c, s) && aim.Holds(c, s)
    ensures aim.Holds(c, SecondPass(c, s, now))
  {
    InvStructure(c, s);
    SecondFalls(c, s, now);
    SecondAccounts(c, s, now);
    if aim.FirstComeFirst? { SecondTurn(c, s, now); }
    hide SecondPass, SemExact, TiesOk;
    FallingKeeps(c, s, SecondPass(c, s, now));
  }

  lemma ActHolds(c: Db, aim: Aim, s: State, a: Act)
    requires c.Consistent() && Inv(c, s) && LegalAct(c, s, a) && aim.Holds(c, s)
    ensures Heeded.OnAct(c, aim, s, a) <==> Reached.OnAct(c, aim, s, a)
    ensures Heeded.OnAct(c, aim, s, a) ==> aim.Holds(c, Apply(c, s, a))
  {
    hide Aim.Holds, Careful, Inv, Step, SecondPass, TopLoop, Check.OnTop, LegalTop;
    match a
    case Do(op) =>
      InvStructure(c, s);
      hide Structure;
      StepHolds(c, aim, s, op);
    case Second(now) => SecondHolds(c, aim, s, now);
    case Top(n, scripts) =>
      if s.env.dequeue { TopHolds(c, aim, s, n, scripts); }
  }

  lemma EmptyHolds(c: Db, aim: Aim)
    ensures aim.Holds(c, Empty)
  {
  }

  /** On every legal run, heeding what the aim asks is the same as reaching it after every
      operation. */
  lemma {:induction false} RunHolds(c: Db, aim: Aim, acts: seq<Act>)
    requires c.Consistent() && LegalRun(c, Empty, acts)
    ensures Heeded.OnActs(c, aim, Empty, acts) <==> Reached.OnActs(c, aim, Empty, acts)
    ensures Heeded.OnActs(c, aim, Empty, acts) ==> aim.Holds(c, Run(c, Empty, acts))
  {
    hide Aim.Holds, Check.OnAct, Inv, Apply, LegalAct;
    if acts == [] {
      EmptyHolds(c, aim);
    } else {
      var front, a := acts[..|acts| - 1], acts[|acts| - 1];
      RunHolds(c, aim, front);
      RunKeeps(c, front);
      if Heeded.OnActs(c, aim, Empty, front) {
        ActHolds(c, aim, Run(c, Empty, front), a);
      }
    }
  }

  // ---- an aim that asks for nothing

  lemma {:induction false} HeededOps(c: Db, s: State, ops: seq<Op>)
    ensures Heeded.OnOps(c, FirstComeFirst, s, ops)
  {
    if ops != [] {
      HeededOps(c, s, ops[..|ops| - 1]);
    }
  }

  lemma {:induction false} HeededTop(c: Db, s: State, n: nat, scripts: seq<seq<Op>>)
    ensures Heeded.OnTop(c, FirstComeFirst, s, n, scripts)
    decreases n
  {
    hide RunHead, Launch, Check.OnOps;
    if n != 0 && s.pq != [] {
      if Runs(s) { HeededOps(c, Launch(c, s), Head(scripts)); }
      HeededTop(c, RunHead(c, s, Head(scripts)), n - 1, Tail(scripts));
    }
  }

  lemma {:induction false} HeededActs(c: Db, s: State, acts: seq<Act>)
    ensures Heeded.OnActs(c, FirstComeFirst, s, acts)
  {
    if acts != [] {
      var front := acts[..|acts| - 1];
      HeededActs(c, s, front);
      var a, u := acts[|acts| - 1], Run(c, s, front);
      hide Run;
      if a.Top? { HeededTop(c, u, a.ncmds, a.scripts); }
    }
  }
}
