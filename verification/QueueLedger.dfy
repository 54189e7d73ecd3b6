/** Quotas and money. Every owner's queue counter covers the owner's live entries, and
    the deposits of live entries are exactly what is missing from the payers' money, as
    long as halting returns a deposit to the account it came from. */
module QueueLedger {
  import opened QueueTypes
  import opened QueueSpec
  import opened QueueLists
  import opened QueueFrames
  import opened QueueStructure

  /** Everything the queue knows about one account. */
  datatype Book = Book(
    queue: int,    // the queue counter
    leaked: int,   // increments of setups that failed after counting and of Going drops
    live: nat,     // live entries of the owner
    money: int,
    held: nat,     // live entries whose deposit the account paid
    burnt: int,    // what the account lost for good
    endow: int)    // what it got from outside the queue
  {
    /** The counter covers the live entries, so there are never more than QueueMax. */
    predicate Counted(max: int) {
      queue == live + leaked && 0 <= leaked && (live <= max || live == 0)
    }

    /** Money, standing deposits and losses add up to what came from outside. */
    predicate Balanced(c: Db) {
      money + Deposit(c, held) + burnt == endow && 0 <= burnt
    }
  }

  function Live(c: Db, s: State, o: Dbref): nat {
    Count(c, s.pq, LiveOf(o)) + Count(c, s.oq, LiveOf(o)) + Count(c, s.wq, LiveOf(o)) + Count(c, s.sq, LiveOf(o))
  }

  function Held(c: Db, s: State, a: Dbref): nat {
    Count(c, s.pq, PaidBy(a)) + Count(c, s.oq, PaidBy(a)) + Count(c, s.wq, PaidBy(a)) + Count(c, s.sq, PaidBy(a))
  }

  function Numbers(t: Accounts, live: nat, held: nat, a: Dbref): Book {
    Book(Get(t.queue, a), Get(t.leaked, a), live, Get(t.money, a), held, Get(t.burnt, a), Get(t.endow, a))
  }

  function BookOf(c: Db, s: State, a: Dbref): Book {
    Numbers(s.acct, Live(c, s, a), Held(c, s, a), a)
  }

  predicate QuotaAt(c: Db, b: Book, o: Dbref) {
    c.goodOwner(o) ==> b.Counted(c.queueMax(o))
  }

  ghost predicate QuotaOk(c: Db, s: State) {
    forall o: Dbref :: QuotaAt(c, BookOf(c, s, o), o)
  }

  ghost predicate LedgerOk(c: Db, s: State) {
    forall a: Dbref :: BookOf(c, s, a).Balanced(c)
  }

  /** Halting an entry of `p` pays the deposit to the account it came from: payfor is
      asked about the object, the refund about its owner. */
  predicate FairTo(c: Db, p: Dbref) {
    var o := c.owner(p);
    c.Free(p) == c.Free(o) && (c.Free(p) || c.owner(o) == o)
  }

  ghost predicate Fair(c: Db) {
    forall p: Dbref {:trigger c.good(p)} :: c.good(p) ==> FairTo(c, p)
  }

  lemma {:induction false} Additive(c: Db, n: nat, k: nat)
    ensures Deposit(c, n + k) == Deposit(c, n) + Deposit(c, k)
  {
    if k != 0 {
      Additive(c, n, k - 1);
    }
  }

  lemma {:induction false} DepositIs(c: Db, n: nat)
    ensures Deposit(c, n) == c.waitCost * n
  {
    if n != 0 {
      DepositIs(c, n - 1);
    }
  }

  // ---- single account operations

  lemma GivetoBook(c: Db, s: State, who: Dbref, n: int, a: Dbref, live: nat, held: nat)
    ensures var b := Numbers(s.acct, live, held, a);
      Numbers(Giveto(c, s, who, n).acct, live, held, a)
      == b.(money := b.money + if !c.Free(who) && a == c.owner(who) then n else 0)
  {
  }

  lemma AQueueBook(c: Db, s: State, o: Dbref, adj: int, a: Dbref, live: nat, held: nat)
    ensures var b := Numbers(s.acct, live, held, a);
      Numbers(AQueue(c, s, o, adj).acct, live, held, a)
      == b.(queue := b.queue + if c.goodOwner(o) && a == o then adj else 0)
  {
  }

  lemma SQueueBook(c: Db, s: State, o: Dbref, a: Dbref, live: nat, held: nat)
    ensures var b := Numbers(s.acct, live, held, a);
      Numbers(SQueueZero(c, s, o).acct, live, held, a)
      == if c.goodOwner(o) && a == o then b.(queue := 0, leaked := 0) else b
  {
  }

  // ---- halting

  /** The entries a halt picks, by owner. */
  lemma HaltedOwners(c: Db, s: State, ptarg: Dbref, otarg: Dbref)
    requires c.Consistent()
    ensures var es := HaltedEntries(c, s, Wanted(ptarg, otarg));
      && (forall e :: e in es ==> c.good(e.player))
      && (ptarg != NOTHING || otarg != NOTHING ==>
            forall e :: e in es ==> c.owner(e.player) == if ptarg == NOTHING then c.owner(otarg) else ptarg)
  {
    hide Count, Taken;
    HaltedMembers(c, s, Wanted(ptarg, otarg));
  }

  lemma OneOwner(c: Db, es: seq<Entry>, p: Dbref, o: Dbref)
    requires c.Consistent()
    requires forall e :: e in es ==> c.good(e.player) && c.owner(e.player) == p
    ensures Count(c, es, LiveOf(o)) == if o == p then |es| else 0
    ensures o != p ==> Count(c, es, PaidBy(o)) == 0
  {
    hide Count;
    if o == p {
      CountAll(c, es, LiveOf(o));
    } else {
      CountNone(c, es, LiveOf(o));
      CountNone(c, es, PaidBy(o));
    }
  }

  lemma LiveHalt(c: Db, s: State, ptarg: Dbref, otarg: Dbref, o: Dbref)
    ensures var es := HaltedEntries(c, s, Wanted(ptarg, otarg));
      var t := HaltQue(c, s, ptarg, otarg);
      && Live(c, s, o) == Live(c, t, o) + Count(c, es, LiveOf(o))
      && Held(c, s, o) == Held(c, t, o) + Count(c, es, PaidBy(o))
  {
    hide Count, Taken, HaltQue;
    HaltTotal(c, s, ptarg, otarg, LiveOf(o));
    HaltTotal(c, s, ptarg, otarg, PaidBy(o));
  }

  /** A full halt of an owner leaves the owner no live entry. */
  lemma NoneLeft(c: Db, s: State, ptarg: Dbref, o: Dbref)
    requires Shape(c, s) && c.Consistent() && (ptarg == NOTHING || ptarg == o)
    ensures Live(c, HaltQue(c, s, ptarg, NOTHING), o) == 0
  {
    hide Count, Taken, Kept, Tombed, HaltQue;
    var f := Wanted(ptarg, NOTHING);
    var t := HaltQue(c, s, ptarg, NOTHING);
    HaltQueFrame(c, s, ptarg, NOTHING);
    TombedAt(c, s.pq, f);
    TombedAt(c, s.oq, f);
    Members(c, s.wq, f, |s.wq|);
    Members(c, s.sq, f, |s.sq|);
    assert forall i :: 0 <= i < |s.pq| ==> s.pq[i] in s.pq;
    assert forall i :: 0 <= i < |s.oq| ==> s.oq[i] in s.oq;
    CountNone(c, t.pq, LiveOf(o));
    CountNone(c, t.oq, LiveOf(o));
    CountNone(c, t.wq, LiveOf(o));
    CountNone(c, t.sq, LiveOf(o));
  }

  /** Under fair halting the owner's exemption decides for all of the owner's entries. */
  lemma {:induction false} SamePayer(c: Db, es: seq<Entry>, o: Dbref)
    requires c.Consistent() && Fair(c)
    requires forall e :: e in es ==> c.good(e.player)
    ensures Count(c, es, PaidBy(o)) == if c.Free(o) then 0 else Count(c, es, LiveOf(o))
    ensures Count(c, es, LiveOf(o)) != 0 && !c.Free(o) ==> c.owner(o) == o
  {
    if es != [] {
      assert c.good(es[|es| - 1].player);
      SamePayer(c, es[..|es| - 1], o);
    }
  }

  /** One turn of the halt-all credit loop. */
  function CreditOwner(c: Db, s: State, i: nat, k: nat): State {
    if k != 0 then SQueueZero(c, Giveto(c, s, i, Deposit(c, k)), i) else s
  }

  lemma CreditOwnerBook(c: Db, s: State, i: nat, k: nat, a: Dbref, live: nat, held: nat)
    ensures var b := Numbers(s.acct, live, held, a);
      var b' := b.(money := b.money + if k != 0 && !c.Free(i) && a == c.owner(i) then Deposit(c, k) else 0);
      Numbers(CreditOwner(c, s, i, k).acct, live, held, a)
      == if k != 0 && c.goodOwner(i) && a == i then b'.(queue := 0, leaked := 0) else b'
  {
    hide Deposit, Giveto, SQueueZero, Numbers;
    if k != 0 {
      GivetoBook(c, s, i, Deposit(c, k), a, live, held);
      SQueueBook(c, Giveto(c, s, i, Deposit(c, k)), i, a, live, held);
    }
  }

  lemma CreditStep(c: Db, s: State, es: seq<Entry>, n: nat)
    ensures CreditOwners(c, s, es, n) ==
      if n == 0 then s
      else CreditOwner(c, CreditOwners(c, s, es, n - 1), n - 1, Count(c, es, LiveOf(n - 1)))
    ensures Deposit(c, 0) == 0
  {
  }

  /** What the credit loop of halt-all does to an owner's counter, after owners below n. */
  lemma {:induction false} CreditOwnersQueue(c: Db, s: State, es: seq<Entry>, n: nat, a: Dbref, live: nat, held: nat)
    requires c.goodOwner(a)
    ensures var b := Numbers(s.acct, live, held, a);
      var b' := Numbers(CreditOwners(c, s, es, n).acct, live, held, a);
      if 0 <= a < n && Count(c, es, LiveOf(a)) != 0 then b'.queue == 0 && b'.leaked == 0
      else b'.queue == b.queue && b'.leaked == b.leaked
  {
    hide Count, CreditOwner, CreditOwners, Deposit, Numbers;
    CreditStep(c, s, es, n);
    if n != 0 {
      CreditOwnersQueue(c, s, es, n - 1, a, live, held);
      CreditOwnerBook(c, CreditOwners(c, s, es, n - 1), n - 1, Count(c, es, LiveOf(n - 1)), a, live, held);
    }
  }

  /** What it does to an account's money. */
  lemma {:induction false} CreditOwnersMoney(c: Db, s: State, es: seq<Entry>, n: nat, a: Dbref, live: nat, held: nat)
    requires c.Consistent() && Fair(c)
    requires forall e :: e in es ==> c.good(e.player)
    ensures Numbers(CreditOwners(c, s, es, n).acct, live, held, a).money
         == Numbers(s.acct, live, held, a).money + if 0 <= a < n then Deposit(c, Count(c, es, PaidBy(a))) else 0
  {
    hide Count, CreditOwner, CreditOwners, Deposit, Numbers;
    CreditStep(c, s, es, n);
    if n != 0 {
      CreditOwnersMoney(c, s, es, n - 1, a, live, held);
      CreditOwnerBook(c, CreditOwners(c, s, es, n - 1), n - 1, Count(c, es, LiveOf(n - 1)), a, live, held);
      SamePayer(c, es, n - 1);
    }
  }

  /** What the end of halt_que does to an owner's counter. */
  lemma HaltCreditQueue(c: Db, s: State, es: seq<Entry>, ptarg: Dbref, otarg: Dbref, a: Dbref, live: nat, held: nat)
    requires c.Consistent() && c.goodOwner(a)
    requires forall e :: e in es ==> c.good(e.player)
    requires ptarg != NOTHING || otarg != NOTHING ==>
      forall e :: e in es ==> c.owner(e.player) == if ptarg == NOTHING then c.owner(otarg) else ptarg
    ensures var b := Numbers(s.acct, live, held, a);
      var b' := Numbers(HaltCredit(c, s, es, ptarg, otarg).acct, live, held, a);
      var k := Count(c, es, LiveOf(a));
      if otarg != NOTHING then b'.queue == b.queue - k && b'.leaked == b.leaked
      else if ptarg == a || (ptarg == NOTHING && k != 0) then b'.queue == 0 && b'.leaked == 0
      else b'.queue == b.queue && b'.leaked == b.leaked
  {
    hide Count, CreditOwners, Deposit, Numbers, Giveto, AQueue, SQueueZero;
    if ptarg == NOTHING && otarg == NOTHING {
      OwnersInRange(c, es, a);
      CreditOwnersQueue(c, s, es, c.dbTop, a, live, held);
    } else {
      var p := if ptarg == NOTHING then c.owner(otarg) else ptarg;
      var t := Giveto(c, s, p, Deposit(c, |es|));
      GivetoBook(c, s, p, Deposit(c, |es|), a, live, held);
      SQueueBook(c, t, p, a, live, held);
      AQueueBook(c, t, p, -|es|, a, live, held);
      OneOwner(c, es, p, a);
      GoodOwners(c, es, p);
    }
  }

  /** What it does to an account's money. */
  lemma HaltCreditMoney(c: Db, s: State, es: seq<Entry>, ptarg: Dbref, otarg: Dbref, a: Dbref, live: nat, held: nat)
    requires c.Consistent() && Fair(c)
    requires forall e :: e in es ==> c.good(e.player)
    requires ptarg != NOTHING || otarg != NOTHING ==>
      forall e :: e in es ==> c.owner(e.player) == if ptarg == NOTHING then c.owner(otarg) else ptarg
    ensures Numbers(HaltCredit(c, s, es, ptarg, otarg).acct, live, held, a).money
         == Numbers(s.acct, live, held, a).money + Deposit(c, Count(c, es, PaidBy(a)))
  {
    DepositIs(c, 0);
    hide Count, CreditOwners, Deposit, Numbers, Giveto, AQueue, SQueueZero;
    if ptarg == NOTHING && otarg == NOTHING {
      OwnersInRange(c, es, a);
      CreditOwnersMoney(c, s, es, c.dbTop, a, live, held);
    } else {
      var p := if ptarg == NOTHING then c.owner(otarg) else ptarg;
      var t := Giveto(c, s, p, Deposit(c, |es|));
      GivetoBook(c, s, p, Deposit(c, |es|), a, live, held);
      SQueueBook(c, t, p, a, live, held);
      AQueueBook(c, t, p, -|es|, a, live, held);
      OneOwner(c, es, p, a);
      OneOwner(c, es, p, p);
      SamePayer(c, es, p);
    }
  }

  lemma GoodOwners(c: Db, es: seq<Entry>, p: Dbref)
    requires c.Consistent()
    requires forall e :: e in es ==> c.good(e.player) && c.owner(e.player) == p
    ensures es != [] ==> c.goodOwner(p)
  {
    if es != [] {
      assert c.good(es[0].player);
    }
  }

  lemma OwnersInRange(c: Db, es: seq<Entry>, a: Dbref)
    requires c.Consistent()
    requires forall e :: e in es ==> c.good(e.player)
    ensures !(0 <= a < c.dbTop) ==> Count(c, es, LiveOf(a)) == 0 && Count(c, es, PaidBy(a)) == 0
    ensures c.goodOwner(a) ==> 0 <= a < c.dbTop
  {
    hide Count;
    if !(0 <= a < c.dbTop) {
      forall e | e in es
        ensures c.owner(e.player) != a
      {
        assert c.good(e.player);
        assert c.goodOwner(c.owner(e.player));
      }
      CountNone(c, es, LiveOf(a));
      CountNone(c, es, PaidBy(a));
    }
  }

  /** A halt's effect on one account: `k` live entries of the owner and `h` deposits of
      the account go. */
  ghost predicate HaltEffect(c: Db, b: Book, b': Book, k: nat, h: nat, ptarg: Dbref, otarg: Dbref, a: Dbref) {
    && b.live == b'.live + k && b.held == b'.held + h && b'.burnt == b.burnt && b'.endow == b.endow
    && (c.goodOwner(a) ==>
          if otarg != NOTHING then b'.queue == b.queue - k && b'.leaked == b.leaked
          else if ptarg == a || (ptarg == NOTHING && k != 0) then b'.queue == 0 && b'.leaked == 0 && b'.live == 0
          else b'.queue == b.queue && b'.leaked == b.leaked && k == 0)
    && (Fair(c) ==> b'.money == b.money + Deposit(c, h))
  }

  lemma HaltNumbers(c: Db, s: State, ptarg: Dbref, otarg: Dbref, a: Dbref, live: nat, held: nat)
    requires c.Consistent()
    ensures var es := HaltedEntries(c, s, Wanted(ptarg, otarg));
      var b := Numbers(s.acct, live, held, a);
      var b' := Numbers(HaltQue(c, s, ptarg, otarg).acct, live, held, a);
      var k := Count(c, es, LiveOf(a));
      && (c.goodOwner(a) ==>
            if otarg != NOTHING then b'.queue == b.queue - k && b'.leaked == b.leaked
            else if ptarg == a || (ptarg == NOTHING && k != 0) then b'.queue == 0 && b'.leaked == 0
            else b'.queue == b.queue && b'.leaked == b.leaked && k == 0)
      && (Fair(c) ==> b'.money == b.money + Deposit(c, Count(c, es, PaidBy(a))))
  {
    var f := Wanted(ptarg, otarg);
    var es := HaltedEntries(c, s, f);
    var u := Refunded(HaltLists(c, s, f), Ids(es));
    HaltListsFrame(c, s, f);
    assert HaltQue(c, s, ptarg, otarg) == HaltCredit(c, u, es, ptarg, otarg);
    hide Count, Taken, Kept, Tombed, Ids, CreditOwners, HaltLists, HaltCredit, Deposit, Numbers, HaltQue;
    HaltedOwners(c, s, ptarg, otarg);
    if c.goodOwner(a) { HaltCreditQueue(c, u, es, ptarg, otarg, a, live, held); }
    if Fair(c) { HaltCreditMoney(c, u, es, ptarg, otarg, a, live, held); }
    if otarg == NOTHING && ptarg != NOTHING {
      OneOwner(c, es, ptarg, a);
    }
  }

  lemma HaltAccounts(c: Db, s: State, ptarg: Dbref, otarg: Dbref)
    ensures var t := HaltQue(c, s, ptarg, otarg);
      t.acct.burnt == s.acct.burnt && t.acct.endow == s.acct.endow && t.env == s.env
  {
    HaltQueFrame(c, s, ptarg, otarg);
  }

  lemma NumbersKept(s: Accounts, t: Accounts, live: nat, held: nat, a: Dbref)
    requires t.burnt == s.burnt && t.endow == s.endow
    ensures var b, b' := Numbers(s, live, held, a), Numbers(t, live, held, a);
      b'.burnt == b.burnt && b'.endow == b.endow && b'.live == live && b'.held == held
  {
  }

  lemma NumbersMove(t: Accounts, live: nat, held: nat, more: nat, kept: nat, a: Dbref)
    ensures Numbers(t, more, kept, a) == Numbers(t, live, held, a).(live := more, held := kept)
  {
  }

  lemma HaltHasEffect(c: Db, s: State, ptarg: Dbref, otarg: Dbref, a: Dbref)
    requires Shape(c, s) && c.Consistent()
    ensures var es := HaltedEntries(c, s, Wanted(ptarg, otarg));
      HaltEffect(c, BookOf(c, s, a), BookOf(c, HaltQue(c, s, ptarg, otarg), a),
                 Count(c, es, LiveOf(a)), Count(c, es, PaidBy(a)), ptarg, otarg, a)
  {
    hide Count, Taken, Kept, Tombed, HaltQue, Deposit, HaltedEntries, Live, Held, Unlist, HaltLists, Ids, Numbers;
    var t := HaltQue(c, s, ptarg, otarg);
    HaltAccounts(c, s, ptarg, otarg);
    NumbersKept(s.acct, t.acct, Live(c, t, a), Held(c, t, a), a);
    NumbersMove(s.acct, Live(c, t, a), Held(c, t, a), Live(c, s, a), Held(c, s, a), a);
    HaltNumbers(c, s, ptarg, otarg, a, Live(c, t, a), Held(c, t, a));
    LiveHalt(c, s, ptarg, otarg, a);
    if otarg == NOTHING && (ptarg == NOTHING || ptarg == a) {
      NoneLeft(c, s, ptarg, a);
    }
  }

  lemma HaltBook(c: Db, s: State, ptarg: Dbref, otarg: Dbref, a: Dbref)
    requires Shape(c, s) && c.Consistent()
    ensures var b, b' := BookOf(c, s, a), BookOf(c, HaltQue(c, s, ptarg, otarg), a);
      && (QuotaAt(c, b, a) ==> QuotaAt(c, b', a))
      && (Fair(c) && b.Balanced(c) ==> b'.Balanced(c))
  {
    hide Count, HaltQue, BookOf, HaltedEntries, Deposit;
    var es := HaltedEntries(c, s, Wanted(ptarg, otarg));
    HaltHasEffect(c, s, ptarg, otarg, a);
    Additive(c, BookOf(c, HaltQue(c, s, ptarg, otarg), a).held, Count(c, es, PaidBy(a)));
  }

  lemma HaltBoth(c: Db, s: State, ptarg: Dbref, otarg: Dbref)
    requires Shape(c, s) && c.Consistent()
    ensures var t := HaltQue(c, s, ptarg, otarg);
      && (QuotaOk(c, s) ==> QuotaOk(c, t))
      && (Fair(c) && LedgerOk(c, s) ==> LedgerOk(c, t))
  {
    hide HaltQue, BookOf, Deposit;
    forall a: Dbref
      ensures var b, b' := BookOf(c, s, a), BookOf(c, HaltQue(c, s, ptarg, otarg), a);
        && (QuotaAt(c, b, a) ==> QuotaAt(c, b', a))
        && (Fair(c) && b.Balanced(c) ==> b'.Balanced(c))
    {
      HaltBook(c, s, ptarg, otarg, a);
    }
  }

  // ---- setting up

  /** What paying and counting do to one account. */
  lemma ChargedBook(c: Db, s: State, player: Dbref, luck: Luck, a: Dbref, live: nat, held: nat)
    requires c.Consistent() && c.good(player) && Payfor(c, s, player, Cost(c, luck)).1
    ensures var b := Numbers(s.acct, live, held, a);
      var mine := One(a == c.owner(player));
      var pays := a == c.owner(player) && !c.Free(player);
      var cost := if pays then Cost(c, luck) else 0;
      && Numbers(Wasted(c, s, player, luck).acct, live, held, a)
         == b.(queue := b.queue + mine, leaked := b.leaked + mine, money := b.money - cost, burnt := b.burnt + cost)
      && Numbers(Bought(c, s, player, luck).acct, live, held, a)
         == b.(queue := b.queue + mine, money := b.money - cost,
               burnt := b.burnt + if pays then Cost(c, luck) - c.waitCost else 0)
  {
  }

  ghost predicate SameLive(c: Db, s: State, t: State) {
    forall o: Dbref {:trigger BookOf(c, t, o)} :: Live(c, t, o) == Live(c, s, o) && Held(c, t, o) == Held(c, s, o)
  }

  lemma SameLiveQueues(c: Db, s: State, t: State)
    requires t.pq == s.pq && t.oq == s.oq && t.wq == s.wq && t.sq == s.sq
    ensures SameLive(c, s, t)
  {
    forall o: Dbref
      ensures Live(c, t, o) == Live(c, s, o) && Held(c, t, o) == Held(c, s, o)
    {
    }
  }

  /** Moving entries between queues touches no account. */
  lemma MovedKeeps(c: Db, s: State, t: State)
    requires t.acct == s.acct && SameLive(c, s, t)
    ensures QuotaOk(c, s) ==> QuotaOk(c, t)
    ensures LedgerOk(c, s) ==> LedgerOk(c, t)
  {
    hide Live, Held, Deposit;
    assert forall o: Dbref :: BookOf(c, t, o) == BookOf(c, s, o);
  }

  /** A payment that buys no entry. */
  lemma WastedBoth(c: Db, s: State, t: State, player: Dbref, luck: Luck)
    requires c.Consistent() && c.good(player) && Payfor(c, s, player, Cost(c, luck)).1
    requires t.acct == Wasted(c, s, player, luck).acct && SameLive(c, s, t)
    ensures QuotaOk(c, s) ==> QuotaOk(c, t)
    ensures LedgerOk(c, s) ==> LedgerOk(c, t)
  {
    hide Wasted, Deposit, Live, Held;
    forall a: Dbref
      ensures var b, b' := BookOf(c, s, a), BookOf(c, t, a);
        && (QuotaAt(c, b, a) ==> QuotaAt(c, b', a))
        && (b.Balanced(c) ==> b'.Balanced(c))
    {
      ChargedBook(c, s, player, luck, a, Live(c, s, a), Held(c, s, a));
    }
  }

  /** A setup that yields no entry keeps both invariants. */
  lemma SetupNone(c: Db, s: State, player: Dbref, cause: Dbref, luck: Luck)
    requires Shape(c, s) && c.Consistent() && c.good(player)
    requires Setup(c, s, player, cause, luck).1.None?
    ensures var t := Setup(c, s, player, cause, luck).0;
      && (QuotaOk(c, s) ==> QuotaOk(c, t))
      && (Fair(c) && LedgerOk(c, s) ==> LedgerOk(c, t))
  {
    hide Count, Deposit, HaltQue, BookOf, Wasted, PidScan;
    var b := Wasted(c, s, player, luck);
    AccountsOnly(c, s, player, luck);
    SameLiveQueues(c, s, b);
    match CaseOf(c, s, player, luck)
    case Refused =>
    case OverQuota =>
      WastedBoth(c, s, b, player, luck);
      HaltBoth(c, b, c.owner(player), NOTHING);
      var h := HaltQue(c, b, c.owner(player), NOTHING);
      var t := Setup(c, s, player, cause, luck).0;
      SameLiveQueues(c, h, t);
      MovedKeeps(c, h, t);
    case Failed =>
      SetupFailed(c, s, player, cause, luck);
      var t := Setup(c, s, player, cause, luck).0;
      SameLiveQueues(c, s, t);
      WastedBoth(c, s, t, player, luck);
  }

  /** A setup that yields an entry has paid for it and counted it. */
  lemma BoughtBook(c: Db, s: State, player: Dbref, luck: Luck, a: Dbref, live: nat, held: nat)
    requires c.Consistent() && c.good(player) && Payfor(c, s, player, Cost(c, luck)).1
    requires NextQueue(c, s, c.owner(player)) <= c.queueMax(c.owner(player))
    ensures var b := Numbers(s.acct, live, held, a);
      var b' := Numbers(Bought(c, s, player, luck).acct, live + One(a == c.owner(player)),
                        held + One(a == c.owner(player) && !c.Free(player)), a);
      && (QuotaAt(c, b, a) ==> QuotaAt(c, b', a))
      && (b.Balanced(c) ==> b'.Balanced(c))
  {
    NextIs(c, s, player);
    hide Bought, Payfor, NextQueue, Cost, Deposit, Book.Counted, Book.Balanced, Db.Free;
    ChargedBook(c, s, player, luck, a, live, held);
    var b := Numbers(s.acct, live, held, a);
    var b' := Numbers(Bought(c, s, player, luck).acct, live + One(a == c.owner(player)),
                      held + One(a == c.owner(player) && !c.Free(player)), a);
    var low := Numbers(Bought(c, s, player, luck).acct, live, held, a);
    assert b' == low.(live := b'.live, held := b'.held);
    OneBought(c, b, b', player, Cost(c, luck), a);
  }

  lemma NextIs(c: Db, s: State, player: Dbref)
    requires c.Consistent() && c.good(player)
    ensures NextQueue(c, s, c.owner(player)) == Get(s.acct.queue, c.owner(player)) + 1
  {
    assert c.goodOwner(c.owner(player));
  }

  /** One entry of `p` more, counted and paid for; what it cost above the deposit is lost. */
  lemma OneBought(c: Db, b: Book, b': Book, p: Dbref, cost: nat, a: Dbref)
    requires var mine := a == c.owner(p);
      var pays := mine && !c.Free(p);
      b' == b.(live := b.live + One(mine), held := b.held + One(pays), queue := b.queue + One(mine),
               money := b.money - if pays then cost else 0, burnt := b.burnt + if pays then cost - c.waitCost else 0)
    requires cost >= c.waitCost && (a == c.owner(p) ==> b'.queue <= c.queueMax(a))
    ensures QuotaAt(c, b, a) ==> QuotaAt(c, b', a)
    ensures b.Balanced(c) ==> b'.Balanced(c)
  {
    assert Deposit(c, b.held + 1) == Deposit(c, b.held) + c.waitCost;
    hide Deposit, Db.Free;
  }

  // ---- waiting

  /** The new entry is one more live entry of its owner, paid for by its payer. */
  lemma WaitNumbers(c: Db, s: State, player: Dbref, cause: Dbref, wait: int, sem: Dbref, attr: int, now: int, luck: Luck, a: Dbref)
    requires c.Consistent() && c.good(player)
    requires CaseOf(c, s, player, luck).Done? && s.env.interp
    ensures var t := WaitQue(c, s, player, cause, wait, sem, attr, now, luck);
      && t.acct == Bought(c, s, player, luck).acct
      && Live(c, t, a) == Live(c, s, a) + One(a == c.owner(player))
      && Held(c, t, a) == Held(c, s, a) + One(a == c.owner(player) && !c.Free(player))
  {
    hide Count, Setup, Bought, PidScan, HaltQue, Insert;
    SetupDone(c, s, player, cause, luck);
    var u, r := Setup(c, s, player, cause, luck).0, Setup(c, s, player, cause, luck).1;
    var e := r.value.(waittime := WaitTime(wait, now), sem := sem, attr := attr);
    assert WaitQue(c, s, player, cause, wait, sem, attr, now, luck) == Route(c, u, e, wait);
    assert Route(c, u, e, wait).acct == u.acct;
    hide Route, WaitQue;
    RouteTotal(c, u, e, wait, LiveOf(a));
    RouteTotal(c, u, e, wait, PaidBy(a));
  }

  lemma WaitBook(c: Db, s: State, player: Dbref, cause: Dbref, wait: int, sem: Dbref, attr: int, now: int, luck: Luck, a: Dbref)
    requires c.Consistent() && c.good(player)
    requires CaseOf(c, s, player, luck).Done? && s.env.interp
    ensures var b, b' := BookOf(c, s, a), BookOf(c, WaitQue(c, s, player, cause, wait, sem, attr, now, luck), a);
      && (QuotaAt(c, b, a) ==> QuotaAt(c, b', a))
      && (b.Balanced(c) ==> b'.Balanced(c))
  {
    hide WaitQue, Bought, Deposit, Live, Held, Numbers, PidScan, QuotaAt;
    WaitNumbers(c, s, player, cause, wait, sem, attr, now, luck, a);
    BoughtBook(c, s, player, luck, a, Live(c, s, a), Held(c, s, a));
  }

  lemma WaitBoth(c: Db, s: State, player: Dbref, cause: Dbref, wait: int, sem: Dbref, attr: int, now: int, luck: Luck)
    requires Shape(c, s) && c.Consistent() && c.good(player)
    ensures var t := WaitQue(c, s, player, cause, wait, sem, attr, now, luck);
      && (QuotaOk(c, s) ==> QuotaOk(c, t))
      && (Fair(c) && LedgerOk(c, s) ==> LedgerOk(c, t))
  {
    hide Deposit, BookOf, Wasted, Bought, PidScan, HaltQue, Route;
    if s.env.interp {
      if CaseOf(c, s, player, luck).Done? {
        hide WaitQue;
        forall a: Dbref
          ensures var b, b' := BookOf(c, s, a), BookOf(c, WaitQue(c, s, player, cause, wait, sem, attr, now, luck), a);
            && (QuotaAt(c, b, a) ==> QuotaAt(c, b', a))
            && (b.Balanced(c) ==> b'.Balanced(c))
        {
          WaitBook(c, s, player, cause, wait, sem, attr, now, luck, a);
        }
      } else {
        SetupNone(c, s, player, cause, luck);
      }
    }
  }

  // ---- notifying

  lemma DrainOneBook(c: Db, s: State, e: Entry, a: Dbref, live: nat, held: nat)
    requires c.Consistent() && c.good(e.player)
    ensures var b := Numbers(s.acct, live, held, a);
      Numbers(DrainOne(c, s, e).acct, live, held, a)
      == b.(queue := b.queue - One(LiveOf(a).Picks(c, e)), money := b.money + if PaidBy(a).Picks(c, e) then c.waitCost else 0)
  {
    GivetoBook(c, s, e.player, c.waitCost, a, live, held);
    AQueueBook(c, Giveto(c, s, e.player, c.waitCost), c.owner(e.player), -1, a, live, held);
    hide Giveto, AQueue, Numbers;
  }

  lemma DrainNone(c: Db, s: State, a: Dbref)
    ensures DrainAll(c, s, []) == s && Deposit(c, 0) == 0
    ensures Count(c, [], LiveOf(a)) == 0 == Count(c, [], PaidBy(a))
  {
  }

  lemma DrainStep(c: Db, s: State, es: seq<Entry>, a: Dbref)
    requires es != []
    ensures var es0, e := es[..|es| - 1], es[|es| - 1];
      && DrainAll(c, s, es) == DrainOne(c, DrainAll(c, s, es0), e)
      && Count(c, es, LiveOf(a)) == Count(c, es0, LiveOf(a)) + One(LiveOf(a).Picks(c, e))
      && Count(c, es, PaidBy(a)) == Count(c, es0, PaidBy(a)) + One(PaidBy(a).Picks(c, e))
  {
  }

  lemma {:induction false} DrainBook(c: Db, s: State, es: seq<Entry>, a: Dbref, live: nat, held: nat)
    requires c.Consistent()
    requires forall e :: e in es ==> c.good(e.player)
    ensures var b := Numbers(s.acct, live, held, a);
      Numbers(DrainAll(c, s, es).acct, live, held, a)
      == b.(queue := b.queue - Count(c, es, LiveOf(a)), money := b.money + Deposit(c, Count(c, es, PaidBy(a))))
  {
    hide Numbers, DrainOne, Deposit, DrainAll, Count;
    if es == [] {
      DrainNone(c, s, a);
    } else {
      var es0, e := es[..|es| - 1], es[|es| - 1];
      assert c.good(e.player);
      DrainStep(c, s, es, a);
      Additive(c, Count(c, es0, PaidBy(a)), One(PaidBy(a).Picks(c, e)));
      DepositIs(c, 0);
      DepositIs(c, 1);
      DrainBook(c, s, es0, a, live, held);
      DrainOneBook(c, DrainAll(c, s, es0), e, a, live, held);
    }
  }

  lemma DrainBoth(c: Db, s: State, f: Filter, n: nat)
    requires Shape(c, s) && c.Consistent()
    ensures var t := DrainAll(c, s, Taken(c, s.sq, f, n)).(sq := Kept(c, s.sq, f, n));
      && (QuotaOk(c, s) ==> QuotaOk(c, t))
      && (LedgerOk(c, s) ==> LedgerOk(c, t))
  {
    hide Count, Taken, Kept, DrainAll, Deposit;
    var es := Taken(c, s.sq, f, n);
    var d := DrainAll(c, s, es);
    var t := d.(sq := Kept(c, s.sq, f, n));
    Members(c, s.sq, f, n);
    DrainAllFrame(c, s, es);
    forall a: Dbref
      ensures var b, b' := BookOf(c, s, a), BookOf(c, t, a);
        && (QuotaAt(c, b, a) ==> QuotaAt(c, b', a))
        && (b.Balanced(c) ==> b'.Balanced(c))
    {
      Split(c, s.sq, f, n, LiveOf(a));
      Split(c, s.sq, f, n, PaidBy(a));
      DrainBook(c, s, es, a, Live(c, t, a), Held(c, t, a));
      Additive(c, Held(c, t, a), Count(c, es, PaidBy(a)));
    }
  }

  lemma ReleaseBoth(c: Db, s: State, f: Filter, n: nat)
    ensures var t := GiveAll(c, s, Taken(c, s.sq, f, n)).(sq := Kept(c, s.sq, f, n));
      && (QuotaOk(c, s) ==> QuotaOk(c, t))
      && (LedgerOk(c, s) ==> LedgerOk(c, t))
  {
    hide Count, Taken, Kept, GiveAll;
    var es := Taken(c, s.sq, f, n);
    var t := GiveAll(c, s, es).(sq := Kept(c, s.sq, f, n));
    GiveAllFrame(c, s, es);
    forall o: Dbref
      ensures Live(c, t, o) == Live(c, s, o) && Held(c, t, o) == Held(c, s, o)
    {
      Split(c, s.sq, f, n, LiveOf(o));
      Split(c, s.sq, f, n, PaidBy(o));
      GiveAllTotal(c, s, es, LiveOf(o));
      GiveAllTotal(c, s, es, PaidBy(o));
    }
    MovedKeeps(c, s, t);
  }

  lemma NotifyBoth(c: Db, s: State, thing: Dbref, attr: int, key: NotifyKey, count: int)
    requires Shape(c, s) && c.Consistent()
    ensures var t := NotifySem(c, s, thing, attr, key, count);
      && (QuotaOk(c, s) ==> QuotaOk(c, t))
      && (LedgerOk(c, s) ==> LedgerOk(c, t))
  {
    hide Count, Taken, Kept, DrainAll, GiveAll, BookOf, Deposit;
    var f, n := OnSem(thing, attr), Limit(s.sq, key, count);
    var num := if attr != 0 then Get(s.sem, (thing, attr)) else 1;
    var es := Taken(c, s.sq, f, n);
    var u := if num <= 0 then s
             else (if key == NFY_DRAIN then DrainAll(c, s, es) else GiveAll(c, s, es)).(sq := Kept(c, s.sq, f, n));
    if num > 0 {
      DrainBoth(c, s, f, n);
      ReleaseBoth(c, s, f, n);
    }
    var t := NotifySem(c, s, thing, attr, key, count);
    SameLiveQueues(c, u, t);
    MovedKeeps(c, u, t);
  }

  // ---- the once-a-second pass

  /** The second pass neither links nor unlinks entries, whatever they are counted by. */
  lemma SecondTotal(c: Db, s: State, now: int, g: Filter)
    requires Steady(g)
    ensures Total(c, SecondPass(c, s, now), g) == Total(c, s, g)
  {
    if s.env.dequeue {
      var f := TimedOut(now);
      var n := DueCount(s.wq, now);
      var due := s.wq[..n];
      var s1 := Promote(s).(wq := s.wq[n..]);
      var s2 := GiveAll(c, s1, due);
      var es := All(c, s.sq, f);
      assert SecondPass(c, s, now) == ExpireAll(c, s2, es).(sq := Others(c, s.sq, f));
      hide Count, Taken, Kept, Given, GiveAll, ExpireAll, Freed, DueFrom, Ids, SecondPass;
      assert s.wq == due + s.wq[n..];
      NilCount(c);
      Append(c, s.pq, s.oq, g);
      Append(c, due, s.wq[n..], g);
      GiveAllFrame(c, s1, due);
      GiveAllTotal(c, s1, due, g);
      ExpireAllFrame(c, s2, es);
      FreedCount(c, es, g);
      GiveAllFrame(c, s2, Freed(es));
      GiveAllTotal(c, s2, Freed(es), g);
      Split(c, s.sq, f, |s.sq|, g);
    }
  }

  lemma SecondAccounts(c: Db, s: State, now: int)
    ensures SecondPass(c, s, now).acct == s.acct && SecondPass(c, s, now).env == s.env
  {
    hide Taken, Kept, Given, GiveAll, ExpireAll, DueFrom, Ids;
    if s.env.dequeue {
      var n := DueCount(s.wq, now);
      var s1 := Promote(s).(wq := s.wq[n..]);
      GiveAllFrame(c, s1, s.wq[..n]);
      ExpireAllFrame(c, GiveAll(c, s1, s.wq[..n]), All(c, s.sq, TimedOut(now)));
    }
  }

  lemma SecondBoth(c: Db, s: State, now: int)
    ensures var t := SecondPass(c, s, now);
      && (QuotaOk(c, s) ==> QuotaOk(c, t))
      && (LedgerOk(c, s) ==> LedgerOk(c, t))
  {
    hide Count, SecondPass;
    var t := SecondPass(c, s, now);
    SecondAccounts(c, s, now);
    forall o: Dbref
      ensures Live(c, t, o) == Live(c, s, o) && Held(c, t, o) == Held(c, s, o)
    {
      SecondTotal(c, s, now, LiveOf(o));
      SecondTotal(c, s, now, PaidBy(o));
    }
    MovedKeeps(c, s, t);
  }

  // ---- single entries by PID

  lemma HaltOneNumbers(c: Db, s: State, pid: int, a: Dbref)
    requires Structure(c, s) && c.Consistent() && NotRunnable(s, pid) && pid in s.pids.table
    ensures Lookup(s, pid).Some?
    ensures var e := Lookup(s, pid).value;
      var b, b' := BookOf(c, s, a), BookOf(c, HaltOne(c, s, pid, true), a);
      var o := c.owner(e.player);
      && c.good(e.player)
      && b.live == b'.live + One(a == o) && b.held == b'.held + One(a == o && !c.Free(e.player))
      && b'.queue == b.queue - One(a == o) && b'.leaked == b.leaked && b'.burnt == b.burnt && b'.endow == b.endow
      && b'.money == b.money + if !c.Free(o) && a == c.owner(o) then c.waitCost else 0
  {
    hide Count, HaltOne, Lookup, Giveto, AQueue, Deposit;
    LookupFinds(c, s, pid);
    HaltOneFrame(c, s, pid);
    HaltOneTotal(c, s, pid, LiveOf(a));
    HaltOneTotal(c, s, pid, PaidBy(a));
    var e := Lookup(s, pid).value;
    var t := HaltOne(c, s, pid, true);
    var o := c.owner(e.player);
    GivetoBook(c, s, o, c.waitCost, a, Live(c, t, a), Held(c, t, a));
    AQueueBook(c, Giveto(c, s, o, c.waitCost), o, -1, a, Live(c, t, a), Held(c, t, a));
  }

  /** One entry of `p` fewer, with its owner refunded. */
  lemma OneFewer(c: Db, b: Book, b': Book, p: Dbref, a: Dbref)
    requires c.good(p)
    requires var o := c.owner(p);
      && b.live == b'.live + One(a == o) && b.held == b'.held + One(a == o && !c.Free(p))
      && b'.queue == b.queue - One(a == o) && b'.leaked == b.leaked && b'.burnt == b.burnt && b'.endow == b.endow
      && b'.money == b.money + if !c.Free(o) && a == c.owner(o) then c.waitCost else 0
    ensures QuotaAt(c, b, a) ==> QuotaAt(c, b', a)
    ensures Fair(c) && b.Balanced(c) ==> b'.Balanced(c)
  {
    assert Deposit(c, b'.held + 1) == Deposit(c, b'.held) + c.waitCost;
    hide Deposit;
    assert Fair(c) ==> FairTo(c, p);
  }

  lemma HaltOneBook(c: Db, s: State, pid: int, a: Dbref)
    requires Structure(c, s) && c.Consistent() && NotRunnable(s, pid) && pid in s.pids.table
    ensures var b, b' := BookOf(c, s, a), BookOf(c, HaltOne(c, s, pid, true), a);
      && (QuotaAt(c, b, a) ==> QuotaAt(c, b', a))
      && (Fair(c) && b.Balanced(c) ==> b'.Balanced(c))
  {
    hide HaltOne, BookOf, Lookup, Deposit, QuotaAt;
    HaltOneNumbers(c, s, pid, a);
    OneFewer(c, BookOf(c, s, a), BookOf(c, HaltOne(c, s, pid, true), a), Lookup(s, pid).value.player, a);
  }

  lemma HaltOneBoth(c: Db, s: State, pid: int, allowed: bool)
    requires Structure(c, s) && c.Consistent() && NotRunnable(s, pid)
    ensures var t := HaltOne(c, s, pid, allowed);
      && (QuotaOk(c, s) ==> QuotaOk(c, t))
      && (Fair(c) && LedgerOk(c, s) ==> LedgerOk(c, t))
  {
    if pid in s.pids.table && allowed {
      hide HaltOne, BookOf, Deposit;
      forall a: Dbref
        ensures var b, b' := BookOf(c, s, a), BookOf(c, HaltOne(c, s, pid, true), a);
          && (QuotaAt(c, b, a) ==> QuotaAt(c, b', a))
          && (Fair(c) && b.Balanced(c) ==> b'.Balanced(c))
      {
        HaltOneBook(c, s, pid, a);
      }
    }
  }

  lemma RetimeBoth(c: Db, s: State, pid: int, mode: TimeMode, val: int, now: int, allowed: bool)
    requires Structure(c, s) && c.Consistent() && NotRunnable(s, pid)
    ensures var t := RetimeOne(c, s, pid, mode, val, now, allowed);
      && (QuotaOk(c, s) ==> QuotaOk(c, t))
      && (LedgerOk(c, s) ==> LedgerOk(c, t))
  {
    if pid in s.pids.table && allowed {
      RetimeFrame(c, s, pid, mode, val, now);
      hide Count, RetimeOne, Lookup, Insert;
      var t := RetimeOne(c, s, pid, mode, val, now, true);
      forall o: Dbref
        ensures Live(c, t, o) == Live(c, s, o) && Held(c, t, o) == Held(c, s, o)
      {
        RetimeTotal(c, s, pid, mode, val, now, LiveOf(o));
        RetimeTotal(c, s, pid, mode, val, now, PaidBy(o));
      }
      MovedKeeps(c, s, t);
    }
  }
}
