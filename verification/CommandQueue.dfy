/** The command queue as the server keeps it: four intrusive lists of records, a PID table
    and counters. Each method does to the abstract state `St()` what the function of the
    same purpose in QueueSpec says; `Serve` puts them together for a whole run. */
module CommandQueue {
  import opened CText
  import opened QueueTypes
  import opened QueueSpec
  import opened QueueLists
  import opened QueueFrames
  import opened QueueLedger
  import opened QueueStructure
  import opened QueueSemaphores
  import opened QueueRuns
  import opened QueueSchedule
  import opened QueueLaws
  import opened EntryLists
  import opened QueueSteps

  class CommandQueue {
    const db: Db
    const pq: EntryList           // qfirst, qlast
    const oq: EntryList           // qlfirst, qllast
    const wq: EntryList           // qwait
    const sq: EntryList           // qsemfirst, qsemlast
    var qpidTop: int
    var htab: map<int, BQUE>
    var semCounter: map<(Dbref, int), int>
    var queueCount: map<Dbref, int>
    var money: map<Dbref, int>
    var env: Env
    ghost var ids: map<int, nat>
    var nextId: nat               // the next serial number, for the model only
    ghost var endow: map<Dbref, int>
    ghost var burnt: map<Dbref, int>
    ghost var leaked: map<Dbref, int>
    ghost var hist: History
    ghost var Repr: set<BQUE>

    /** The abstract state. */
    ghost function St(): State
      reads this, pq, oq, wq, sq
    {
      State(pq.vals, oq.vals, wq.vals, sq.vals, Pids(ids, qpidTop, nextId), semCounter,
            Accounts(queueCount, money, endow, burnt, leaked), env, hist)
    }

    ghost predicate Wired() {
      && db.Consistent()
      && pq != oq && pq != wq && pq != sq && oq != wq && oq != sq && wq != sq
      && pq.tailed && oq.tailed && !wq.tailed && sq.tailed
    }

    ghost predicate Lists()
      reads pq, oq, wq, sq, pq.Repr, oq.Repr, wq.Repr, sq.Repr
    {
      pq.Valid() && oq.Valid() && wq.Valid() && sq.Valid()
    }

    ghost predicate Apart()
      reads this`Repr, pq`Repr, oq`Repr, wq`Repr, sq`Repr
    {
      && pq.Repr !! oq.Repr && pq.Repr !! wq.Repr && pq.Repr !! sq.Repr
      && oq.Repr !! wq.Repr && oq.Repr !! sq.Repr && wq.Repr !! sq.Repr
      && pq.Repr <= Repr && oq.Repr <= Repr && wq.Repr <= Repr && sq.Repr <= Repr
    }

    ghost predicate Table()
      reads this`htab, this`ids, this`qpidTop, pq`nodes, pq`vals, oq`nodes, oq`vals, wq`nodes, wq`vals, sq`nodes, sq`vals
    {
      && 1 <= qpidTop
      && htab.Keys == ids.Keys
      && Indexed(pq.nodes, pq.vals, htab) && Indexed(oq.nodes, oq.vals, htab)
      && Indexed(wq.nodes, wq.vals, htab) && Indexed(sq.nodes, sq.vals, htab)
    }

    ghost predicate Valid()
      reads this, pq, oq, wq, sq, pq.Repr, oq.Repr, wq.Repr, sq.Repr
    {
      Wired() && Lists() && Apart() && Table()
    }

    /** In the PID table, and linked into no queue. */
    ghost predicate Loose(n: BQUE)
      reads this, pq, oq, wq, sq, n
    {
      && n in Repr && n !in pq.Repr && n !in oq.Repr && n !in wq.Repr && n !in sq.Repr
      && n.e.pid in htab && htab[n.e.pid] == n
    }

    constructor (db: Db)
      requires db.Consistent()
      ensures Valid() && this.db == db && St() == Empty && Repr == {}
      ensures fresh(pq) && fresh(oq) && fresh(wq) && fresh(sq)
    {
      hide EntryList.Valid, Db.Consistent;
      this.db := db;
      pq := new EntryList(true);
      oq := new EntryList(true);
      wq := new EntryList(false);
      sq := new EntryList(true);
      qpidTop := 1;
      htab, semCounter, queueCount, money := map[], map[], map[], map[];
      env := Env({}, {}, true, true);
      ids, nextId := map[], 0;
      endow, burnt, leaked := map[], map[], map[];
      hist := History([], [], [], [], [], [], [], []);
      Repr := {};
    }

    // ---- counters

    /** a_Queue: a good owner's counter moves and is returned; anyone else's reads 0. */
    method AQueueCount(o: Dbref, adj: int) returns (n: int)
      modifies this`queueCount
      ensures St() == AQueue(db, old(St()), o, adj)
      ensures n == if db.goodOwner(o) then Get(queueCount, o) else 0
    {
      if db.goodOwner(o) {
        queueCount := Plus(queueCount, o, adj);
        n := Get(queueCount, o);
      } else {
        n := 0;
      }
    }

    method SQueueCount(o: Dbref)
      modifies this`queueCount, this`leaked
      ensures St() == SQueueZero(db, old(St()), o)
    {
      if db.goodOwner(o) {
        queueCount := queueCount[o := 0];
        leaked := leaked[o := 0];
      }
    }

    method GivetoWho(who: Dbref, pennies: int)
      modifies this`money
      ensures St() == Giveto(db, old(St()), who, pennies)
    {
      if !db.Free(who) {
        money := Plus(money, db.owner(who), pennies);
      }
    }

    method PayforWho(who: Dbref, cost: int) returns (ok: bool)
      modifies this`money
      ensures (St(), ok) == Payfor(db, old(St()), who, cost)
    {
      if db.Free(who) {
        return true;
      }
      var tmp := Get(money, db.owner(who));
      if tmp < 0 {
        return false;
      }
      if tmp >= cost {
        money := Plus(money, db.owner(who), -cost);
        return true;
      }
      return false;
    }

    /** cque_add_to. */
    method AddTo(thing: Dbref, am: int, attrnum: int) returns (num: int)
      modifies this`semCounter
      ensures St() == AddSem(old(St()), thing, attrnum, am)
      ensures num == Get(semCounter, (thing, attrnum))
    {
      num := Get(semCounter, (thing, attrnum)) + am;
      semCounter := semCounter[(thing, attrnum) := num];
    }

    // ---- single records

    /** cque_delete_qentry: the record leaves the PID table. */
    method DeleteQentry(n: BQUE)
      requires Valid() && Loose(n)
      modifies this`htab, this`ids
      ensures Valid() && St() == Delete(old(St()), n.e)
    {
      hide EntryList.Valid, Indexed;
      pq.Outside(n);
      oq.Outside(n);
      wq.Outside(n);
      sq.Outside(n);
      IndexedWithout(pq.nodes, pq.vals, htab, n.e.pid);
      IndexedWithout(oq.nodes, oq.vals, htab, n.e.pid);
      IndexedWithout(wq.nodes, wq.vals, htab, n.e.pid);
      IndexedWithout(sq.nodes, sq.vals, htab, n.e.pid);
      htab := htab - {n.e.pid};
      ids := ids - {n.e.pid};
    }

    /** Onto the end of the run queue. */
    method EnterPlayer(n: BQUE)
      requires Valid() && Loose(n) && n.next == null
      modifies this`hist, pq, pq.Repr, n
      ensures Valid() && n.e == old(n.e) && pq.Repr == old(pq.Repr) + {n}
      ensures var s := old(St());
        St() == s.(pq := s.pq + [n.e], hist := s.hist.(entered := s.hist.entered + [n.e.id]))
    {
      hide EntryList.Valid, Indexed;
      IndexedSnoc(pq.nodes, pq.vals, htab, n, n.e);
      pq.Append(n);
      hist := hist.(entered := hist.entered + [n.e.id]);
    }

    /** Onto the end of the object queue. */
    method EnterObject(n: BQUE)
      requires Valid() && Loose(n) && n.next == null
      modifies this`hist, oq, oq.Repr, n
      ensures Valid() && n.e == old(n.e) && oq.Repr == old(oq.Repr) + {n}
      ensures var s := old(St());
        St() == s.(oq := s.oq + [n.e], hist := s.hist.(toObject := s.hist.toObject + [n.e.id]))
    {
      hide EntryList.Valid, Indexed;
      IndexedSnoc(oq.nodes, oq.vals, htab, n, n.e);
      oq.Append(n);
      hist := hist.(toObject := hist.toObject + [n.e.id]);
    }

    /** cque_give_que. */
    method GiveQue(n: BQUE)
      requires Valid() && Loose(n)
      modifies this`hist, pq, oq, pq.Repr, oq.Repr, n
      ensures Valid() && St() == Give(db, old(St()), old(n.e))
      ensures pq.Repr + oq.Repr == old(pq.Repr + oq.Repr) + {n}
    {
      hide EntryList.Valid, Indexed;
      n.next := null;
      n.e := n.e.(waittime := 0);
      if db.isPlayer(n.e.cause) {
        EnterPlayer(n);
      } else {
        EnterObject(n);
      }
    }

    /** Takes the k-th record out of the wait queue; `trail` is the one before it. */
    method UnlinkWait(trail: BQUE?, point: BQUE, ghost k: nat)
      requires Valid() && k < |wq.nodes| && point == wq.nodes[k] && trail == At(wq.nodes, k - 1)
      modifies wq, wq.Repr
      ensures Valid() && Loose(point) && k < |old(wq.vals)| && St() == old(St()).(wq := OmitAt(old(wq.vals), k))
      ensures wq.nodes == OmitAt(old(wq.nodes), k) && wq.Repr == old(wq.Repr) - {point}
      ensures point.e == old(point.e) == old(wq.vals)[k] && point.next == old(point.next)
    {
      wq.Here(k);
      hide EntryList.Valid, Indexed, OmitAt;
      IndexedOmit(wq.nodes, wq.vals, htab, k);
      wq.Unlink(trail, point, k);
    }

    /** Takes the k-th record out of the semaphore queue. */
    method UnlinkSem(trail: BQUE?, point: BQUE, ghost k: nat)
      requires Valid() && k < |sq.nodes| && point == sq.nodes[k] && trail == At(sq.nodes, k - 1)
      modifies sq, sq.Repr
      ensures Valid() && Loose(point) && k < |old(sq.vals)| && St() == old(St()).(sq := OmitAt(old(sq.vals), k))
      ensures sq.nodes == OmitAt(old(sq.nodes), k) && sq.Repr == old(sq.Repr) - {point}
      ensures point.e == old(point.e) == old(sq.vals)[k] && point.next == old(point.next)
    {
      sq.Here(k);
      hide EntryList.Valid, Indexed, OmitAt;
      IndexedOmit(sq.nodes, sq.vals, htab, k);
      sq.Unlink(trail, point, k);
    }

    /** Takes the record a walk has come to out of the wait queue. */
    method TakeWait(ghost f: Filter, ghost q: seq<Entry>, ghost k: nat, trail: BQUE?, point: BQUE)
      requires Valid() && wq.Walk(db, f, q, k, trail, point) && k < |q| && f.Picks(db, q[k])
      modifies wq, wq.Repr
      ensures Valid() && Loose(point) && St() == old(St()).(wq := wq.vals)
      ensures wq.Walk(db, f, q, k + 1, trail, old(point.next)) && wq.Repr <= old(wq.Repr)
      ensures point.e == old(point.e)
    {
      hide EntryList.Valid, Indexed, OmitAt, Others;
      wq.WalkTaken(db, f, q, k, trail, point);
      UnlinkWait(trail, point, |Others(db, q[..k], f)|);
    }

    /** Takes the record a walk has come to out of the semaphore queue. */
    method TakeSem(ghost f: Filter, ghost q: seq<Entry>, ghost k: nat, trail: BQUE?, point: BQUE)
      requires Valid() && sq.Walk(db, f, q, k, trail, point) && k < |q| && f.Picks(db, q[k])
      modifies sq, sq.Repr
      ensures Valid() && Loose(point) && St() == old(St()).(sq := sq.vals)
      ensures sq.Walk(db, f, q, k + 1, trail, old(point.next)) && sq.Repr <= old(sq.Repr)
      ensures point.e == old(point.e)
    {
      hide EntryList.Valid, Indexed, OmitAt, Others;
      sq.WalkTaken(db, f, q, k, trail, point);
      UnlinkSem(trail, point, |Others(db, q[..k], f)|);
    }

    // ---- halt_que

    /** The walks over the two run queues. */
    method HaltRunQueues(f: Filter, tally: array?<int>) returns (num: nat)
      requires Valid() && f.Wanted? && Tallied(db, tally, [])
      modifies pq, oq, pq.Repr, oq.Repr, tally
      ensures Valid() && pq.Repr == old(pq.Repr) && oq.Repr == old(oq.Repr)
      ensures var s := old(St());
        && St() == s.(pq := Tombed(db, s.pq, f), oq := Tombed(db, s.oq, f))
        && num == |All(db, s.pq, f) + All(db, s.oq, f)| && Tallied(db, tally, All(db, s.pq, f) + All(db, s.oq, f))
    {
      hide EntryList.Valid, Indexed, Tallied, Db.Consistent, All, Tombed;
      ghost var p, o := All(db, pq.vals, f), All(db, oq.vals, f);
      IndexedTombed(db, pq.nodes, pq.vals, htab, f);
      IndexedTombed(db, oq.nodes, oq.vals, htab, f);
      var n := pq.HaltWanted(db, f, tally, []);
      assert [] + p == p;
      var m := oq.HaltWanted(db, f, tally, p);
      num := n + m;
    }

    /** Halts the waiting record a walk has come to. */
    method HaltWaiter(ghost f: Filter, ghost q: seq<Entry>, ghost k: nat, trail: BQUE?, point: BQUE,
                      tally: array?<int>, ghost es: seq<Entry>)
      requires Valid() && wq.Walk(db, f, q, k, trail, point) && k < |q| && f.Picks(db, q[k]) && point.e == q[k]
      requires f.Wanted? && Tallied(db, tally, es)
      modifies this`htab, this`ids, wq, wq.Repr, tally
      ensures Valid() && St() == Delete(old(St()), q[k]).(wq := wq.vals) && Tallied(db, tally, es + [q[k]])
      ensures wq.Walk(db, f, q, k + 1, trail, old(point.next)) && wq.Repr <= old(wq.Repr)
    {
      hide EntryList.Valid, EntryList.Walk, Indexed, Db.Consistent, Tallied;
      HaltRecord(db, tally, point.e, es);
      TakeWait(f, q, k, trail, point);
      DeleteQentry(point);
    }

    /** Halts the semaphore record a walk has come to, and uncounts it. */
    method HaltSleeper(ghost f: Filter, ghost q: seq<Entry>, ghost k: nat, trail: BQUE?, point: BQUE,
                       tally: array?<int>, ghost es: seq<Entry>)
      requires Valid() && sq.Walk(db, f, q, k, trail, point) && k < |q| && f.Picks(db, q[k]) && point.e == q[k]
      requires f.Wanted? && Tallied(db, tally, es)
      modifies this`htab, this`ids, this`semCounter, sq, sq.Repr, tally
      ensures Valid() && St() == HaltSem(old(St()), q[k]).(sq := sq.vals) && Tallied(db, tally, es + [q[k]])
      ensures sq.Walk(db, f, q, k + 1, trail, old(point.next)) && sq.Repr <= old(sq.Repr)
    {
      hide EntryList.Valid, EntryList.Walk, Indexed, Db.Consistent, Tallied;
      HaltRecord(db, tally, point.e, es);
      TakeSem(f, q, k, trail, point);
      var _ := AddTo(point.e.sem, -1, point.e.attr);
      DeleteQentry(point);
    }

    /** The wait-queue walk. */
    method HaltWaitQueue(f: Filter, tally: array?<int>, ghost es: seq<Entry>) returns (num: nat)
      requires Valid() && f.Wanted? && Tallied(db, tally, es)
      modifies this`htab, this`ids, wq, wq.Repr, tally
      ensures Valid() && wq.Repr <= old(wq.Repr)
      ensures var s := old(St()); St() == DeleteAll(s, All(db, s.wq, f)).(wq := Others(db, s.wq, f))
      ensures num == |All(db, old(wq.vals), f)| && Tallied(db, tally, es + All(db, old(wq.vals), f))
    {
      hide Wired, Apart, Table, EntryList.Valid, EntryList.Walk, Tallied, All, Others, Delete;
      ghost var q, s := wq.vals, St();
      ghost var k := 0;
      var trail: BQUE? := null;
      var point := wq.Begin(db, f);
      num := 0;
      WalkStarts(db, q, f, es);
      while point != null
        invariant Valid() && wq.Repr <= old(wq.Repr)
        invariant k <= |q| && wq.Walk(db, f, q, k, trail, point)
        invariant St() == DeleteAll(s, All(db, q[..k], f)).(wq := wq.vals)
        invariant num == |All(db, q[..k], f)| && Tallied(db, tally, es + All(db, q[..k], f))
        decreases |q| - k
      {
        wq.WalkHere(db, f, q, k, trail, point);
        NextTaken(db, q, f, k, es);
        var next := point.next;
        if f.Picks(db, point.e) {
          DeleteAllSnoc(s, All(db, q[..k], f), wq.vals, q[k]);
          HaltWaiter(f, q, k, trail, point, tally, es + All(db, q[..k], f));
          num := num + 1;
        } else {
          trail := point;
        }
        point := next;
        k := k + 1;
      }
      wq.WalkDone(db, f, q, k, trail);
    }

    /** The semaphore-queue walk. */
    method HaltSemQueue(f: Filter, tally: array?<int>, ghost es: seq<Entry>) returns (num: nat)
      requires Valid() && f.Wanted? && Tallied(db, tally, es)
      modifies this`htab, this`ids, this`semCounter, sq, sq.Repr, tally
      ensures Valid() && sq.Repr <= old(sq.Repr)
      ensures var s := old(St()); St() == HaltSems(s, All(db, s.sq, f)).(sq := Others(db, s.sq, f))
      ensures num == |All(db, old(sq.vals), f)| && Tallied(db, tally, es + All(db, old(sq.vals), f))
    {
      hide Wired, Apart, Table, EntryList.Valid, EntryList.Walk, Tallied, All, Others, HaltSem;
      ghost var q, s := sq.vals, St();
      ghost var k := 0;
      var trail: BQUE? := null;
      var point := sq.Begin(db, f);
      num := 0;
      WalkStarts(db, q, f, es);
      while point != null
        invariant Valid() && sq.Repr <= old(sq.Repr)
        invariant k <= |q| && sq.Walk(db, f, q, k, trail, point)
        invariant St() == HaltSems(s, All(db, q[..k], f)).(sq := sq.vals)
        invariant num == |All(db, q[..k], f)| && Tallied(db, tally, es + All(db, q[..k], f))
        decreases |q| - k
      {
        sq.WalkHere(db, f, q, k, trail, point);
        NextTaken(db, q, f, k, es);
        var next := point.next;
        if f.Picks(db, point.e) {
          HaltSemsSnoc(s, All(db, q[..k], f), sq.vals, q[k]);
          HaltSleeper(f, q, k, trail, point, tally, es + All(db, q[..k], f));
          num := num + 1;
        } else {
          trail := point;
        }
        point := next;
        k := k + 1;
      }
      sq.WalkDone(db, f, q, k, trail);
    }

    /** The four walks. */
    method HaltWalks(f: Filter, tally: array?<int>) returns (num: nat)
      requires Valid() && f.Wanted? && Tallied(db, tally, [])
      modifies this`htab, this`ids, this`semCounter, pq, oq, wq, sq, Repr, tally
      ensures Valid() && St() == HaltLists(db, old(St()), f)
      ensures num == |HaltedEntries(db, old(St()), f)| && Tallied(db, tally, HaltedEntries(db, old(St()), f))
    {
      hide EntryList.Valid, EntryList.Walk, Indexed, Tallied, Db.Consistent, All, Others, Tombed, HaltLists;
      ghost var s := St();
      var n := HaltRunQueues(f, tally);
      ghost var s1 := St();
      var m := HaltWaitQueue(f, tally, All(db, s.pq, f) + All(db, s.oq, f));
      ghost var s2 := St();
      var k := HaltSemQueue(f, tally, All(db, s.pq, f) + All(db, s.oq, f) + All(db, s.wq, f));
      HaltListsSteps(db, s, f, s1, s2);
      num := n + m + k;
    }

    /** The end of a global halt. */
    method CreditEach(tally: array<int>, ghost es: seq<Entry>)
      requires Tallied(db, tally, es)
      modifies this`queueCount, this`leaked, this`money
      ensures St() == CreditOwners(db, old(St()), es, db.dbTop)
    {
      hide Count, Deposit;
      ghost var s := St();
      for i := 0 to tally.Length
        invariant St() == CreditOwners(db, s, es, i)
      {
        if tally[i] != 0 {
          DepositIs(db, tally[i]);
          GivetoWho(i, db.waitCost * tally[i]);
          SQueueCount(i);
        }
      }
    }

    /** The end of halt_que: deposits and queue counters. */
    method HaltCredits(ptarg: Dbref, otarg: Dbref, tally: array?<int>, numhalted: int, ghost es: seq<Entry>)
      requires numhalted == |es| && Tallied(db, tally, es)
      requires ptarg == NOTHING && otarg == NOTHING ==> tally != null
      modifies this`hist, this`queueCount, this`leaked, this`money
      ensures St() == HaltCredit(db, Refunded(old(St()), Ids(es)), es, ptarg, otarg)
    {
      hide Count, Deposit, CreditOwners, Ids;
      hist := hist.(refunded := hist.refunded + Ids(es));
      if ptarg == NOTHING && otarg == NOTHING {
        CreditEach(tally, es);
      } else {
        var p := if ptarg == NOTHING then db.owner(otarg) else ptarg;
        DepositIs(db, numhalted);
        GivetoWho(p, db.waitCost * numhalted);
        if otarg == NOTHING {
          SQueueCount(p);
        } else {
          var _ := AQueueCount(p, -numhalted);
        }
      }
    }

    /** halt_que. */
    method HaltQueue(ptarg: Dbref, otarg: Dbref) returns (numhalted: nat)
      requires Valid()
      modifies this`htab, this`ids, this`semCounter, this`hist, this`queueCount, this`leaked, this`money
      modifies pq, oq, wq, sq, Repr
      ensures Valid() && St() == HaltQue(db, old(St()), ptarg, otarg)
      ensures numhalted == Reach(db, old(St()), ptarg, otarg)
    {
      hide Wired, Lists, Apart, Table, HaltLists, HaltCredit, HaltedEntries, Tallied, Reach;
      HaltReaches(db, St(), ptarg, otarg);
      var tally: array?<int> := null;
      NoTally(db);
      if ptarg == NOTHING && otarg == NOTHING {
        tally := new int[db.dbTop](_ => 0);
        TallyStarts(db, tally);
      }
      numhalted := HaltWalks(Wanted(ptarg, otarg), tally);
      HaltCredits(ptarg, otarg, tally, numhalted, HaltedEntries(db, old(St()), Wanted(ptarg, otarg)));
    }

    // ---- setting up and routing

    /** cque_qpid_next. */
    method QpidNext() returns (qpid: int)
      requires Valid()
      modifies this`qpidTop
      ensures Valid()
      ensures qpid == PidScan(db, old(ids), old(qpidTop), db.maxPid)
      ensures qpidTop == if qpid == 0 then old(qpidTop) else NextPid(db, qpid)
    {
      hide Wired, Lists, Apart, Indexed;
      qpid := qpidTop;
      for i := 0 to db.maxPid
        invariant Valid() && qpid >= 1 && qpidTop == old(qpidTop)
        invariant PidScan(db, ids, qpidTop, db.maxPid) == PidScan(db, ids, qpid, db.maxPid - i)
      {
        if qpid !in htab {
          qpidTop := NextPid(db, qpid);
          return qpid;
        }
        qpid := NextPid(db, qpid);
      }
      return 0;
    }

    /** Paying and counting; `ok` says whether the payer could. */
    method Charge(player: Dbref, luck: Luck) returns (ok: bool, queued: int)
      modifies this`money, this`queueCount
      ensures ok == Payfor(db, old(St()), player, Cost(db, luck)).1
      ensures St() == if ok then Charged(db, old(St()), player, luck) else old(St())
      ensures ok ==> queued == NextQueue(db, old(St()), db.owner(player))
    {
      var a := db.waitCost;
      if a != 0 && luck.surcharge {
        a := a + 1;
      }
      ok := PayforWho(player, a);
      queued := 0;
      if ok {
        queued := AQueueCount(db.owner(player), 1);
      }
    }

    /** The accounts of a charge that leads to no entry. */
    ghost method NoteWasted(player: Dbref, luck: Luck)
      modifies this`burnt, this`leaked
      ensures St() == Burn(db, Leak(db, old(St()), db.owner(player)), player, Cost(db, luck))
    {
      var s := Burn(db, Leak(db, St(), db.owner(player)), player, Cost(db, luck));
      burnt, leaked := s.acct.burnt, s.acct.leaked;
    }

    ghost method NoteBought(player: Dbref, luck: Luck)
      modifies this`burnt
      ensures St() == Burn(db, old(St()), player, Cost(db, luck) - db.waitCost)
    {
      burnt := Burn(db, St(), player, Cost(db, luck) - db.waitCost).acct.burnt;
    }

    /** The PID table gets a new record. */
    method Register(player: Dbref, cause: Dbref, qpid: int) returns (n: BQUE)
      requires Valid() && qpid !in htab
      modifies this`htab, this`ids, this`nextId, this`Repr
      ensures Valid() && fresh(n) && Repr == old(Repr) + {n} && Loose(n)
      ensures n.e == Entry(old(nextId), player, cause, qpid, 0, NOTHING, 0)
      ensures St() == old(St()).(pids := Pids(old(ids)[qpid := old(nextId)], qpidTop, old(nextId) + 1))
    {
      hide Wired, Lists, Indexed;
      n := new BQUE(Entry(nextId, player, cause, qpid, 0, NOTHING, 0));
      IndexedMore(pq.nodes, pq.vals, htab, qpid, n);
      IndexedMore(oq.nodes, oq.vals, htab, qpid, n);
      IndexedMore(wq.nodes, wq.vals, htab, qpid, n);
      IndexedMore(sq.nodes, sq.vals, htab, qpid, n);
      htab := htab[qpid := n];
      ids := ids[qpid := nextId];
      nextId := nextId + 1;
      Repr := Repr + {n};
    }

    /** Too many entries: the owner's are halted, and the object may run no more. */
    method RunAway(player: Dbref, luck: Luck)
      requires Valid()
      modifies this`burnt, this`leaked, this`htab, this`ids, this`semCounter, this`hist, this`queueCount, this`money, this`env
      modifies pq, oq, wq, sq, Repr
      ensures Valid()
      ensures var w := Burn(db, Leak(db, old(St()), db.owner(player)), player, Cost(db, luck));
        var h := HaltQue(db, w, db.owner(player), NOTHING);
        St() == h.(env := h.env.(halted := h.env.halted + {player}))
    {
      hide Wired, Lists, Apart, Table, HaltQue, Burn, Leak;
      NoteWasted(player, luck);
      var _ := HaltQueue(db.owner(player), NOTHING);
      env := env.(halted := env.halted + {player});
    }

    /** The new record, if there is a PID and room for it. */
    method Enroll(player: Dbref, cause: Dbref, luck: Luck) returns (n: BQUE?)
      requires Valid()
      modifies this`qpidTop, this`burnt, this`leaked, this`htab, this`ids, this`nextId, this`Repr
      ensures Valid() && (if n == null then Repr == old(Repr) else fresh(n) && Repr == old(Repr) + {n} && Loose(n))
      ensures var s, pid := old(St()), PidScan(db, old(ids), old(qpidTop), db.maxPid);
        var w := Burn(db, Leak(db, s, db.owner(player)), player, Cost(db, luck));
        var b := Burn(db, s, player, Cost(db, luck) - db.waitCost);
        if pid == 0 then n == null && St() == w
        else if !luck.fits then n == null && St() == w.(pids := s.pids.(top := NextPid(db, pid)))
        else
          && n != null && n.e == Entry(s.pids.nextId, player, cause, pid, 0, NOTHING, 0)
          && St() == b.(pids := Pids(s.pids.table[pid := s.pids.nextId], NextPid(db, pid), s.pids.nextId + 1))
    {
      hide Wired, Lists, Apart, Indexed, PidScan, Burn, Leak, Cost, NextPid;
      ScanFree(db, ids, qpidTop, db.maxPid);
      n := null;
      if PidScan(db, ids, qpidTop, db.maxPid) == 0 || !luck.fits {
        NoteWasted(player, luck);
      } else {
        NoteBought(player, luck);
      }
      var qpid := QpidNext();
      if qpid != 0 && luck.fits {
        n := Register(player, cause, qpid);
      }
    }

    /** cque_setup_que. */
    method SetupQue(player: Dbref, cause: Dbref, luck: Luck) returns (n: BQUE?)
      requires Valid()
      modifies this, pq, oq, wq, sq, Repr
      ensures Valid() && fresh(Repr - old(Repr))
      ensures var (t, r) := Setup(db, old(St()), player, cause, luck);
        St() == t && if n == null then r == None else Loose(n) && r == Some(n.e)
    {
      hide Wired, Lists, Apart, Table, PidScan, HaltQue, Charged, Payfor, Cost, Burn, Leak, NextQueue, Setup;
      SetupUnfolds(db, St(), player, cause, luck);
      n := null;
      if player in env.halted {
        return;
      }
      var ok, queued := Charge(player, luck);
      if !ok {
        return;
      }
      if queued > db.queueMax(db.owner(player)) {
        RunAway(player, luck);
        return;
      }
      n := Enroll(player, cause, luck);
    }

    /** Into the sorted wait queue, behind every entry due no later. */
    method ThreadWait(n: BQUE)
      requires Valid() && Loose(n)
      modifies this`hist, wq, wq.Repr, n
      ensures Valid() && St() == Thread(old(St()), old(n.e)) && wq.Repr == old(wq.Repr) + {n}
    {
      hide EntryList.Valid, Indexed, Insert;
      var trail, k := wq.FindLater(n.e.waittime);
      InsertIs(wq.vals, n.e, k);
      IndexedAdded(wq.nodes, wq.vals, htab, k, n, n.e);
      wq.InsertAt(trail, n, k);
      hist := hist.(threaded := hist.threaded + [n.e.id]);
    }

    /** Onto the end of the semaphore queue. */
    method AppendSem(n: BQUE)
      requires Valid() && Loose(n)
      modifies sq, sq.Repr, n
      ensures Valid() && St() == old(St()).(sq := old(sq.vals) + [old(n.e)])
    {
      hide EntryList.Valid, Indexed;
      IndexedSnoc(sq.nodes, sq.vals, htab, n, n.e);
      n.next := null;
      sq.Append(n);
    }

    /** The routing at the end of cque_wait_que. */
    method RouteEntry(n: BQUE, wait: int)
      requires Valid() && Loose(n)
      modifies this`hist, pq, oq, wq, sq, Repr
      ensures Valid() && St() == Route(db, old(St()), old(n.e), wait)
    {
      hide Wired, Lists, Table, Give, Insert;
      if n.e.sem == NOTHING {
        if wait <= 0 {
          GiveQue(n);
        } else {
          ThreadWait(n);
        }
      } else {
        AppendSem(n);
      }
    }

    /** cque_wait_que. */
    method WaitQueue(player: Dbref, cause: Dbref, wait: int, sem: Dbref, attr: int, now: int, luck: Luck)
      requires Valid()
      modifies this, pq, oq, wq, sq, Repr
      ensures Valid() && fresh(Repr - old(Repr))
      ensures St() == WaitQue(db, old(St()), player, cause, wait, sem, attr, now, luck)
    {
      hide Wired, Lists, Table, Setup, Route;
      if !env.interp {
        return;
      }
      SetupUntimed(db, St(), player, cause, luck);
      var n := SetupQue(player, cause, luck);
      if n == null {
        return;
      }
      var e := n.e.(sem := sem, attr := attr);
      if wait > 0 {
        e := e.(waittime := if wait > INT_MAX - now then INT_MAX else now + wait);
      } else if wait < 0 {
        e := e.(waittime := if wait < INT_MIN - now then INT_MIN else now + wait);
      }
      n.e := e;
      RouteEntry(n, wait);
    }

    /** The semaphore branch of cque_do_wait. */
    method WaitSem(player: Dbref, cause: Dbref, thing: Dbref, attr: int, wait: int, now: int, luck: Luck)
      requires Valid()
      modifies this, pq, oq, wq, sq, Repr
      ensures Valid() && fresh(Repr - old(Repr))
      ensures St() == WaitOnSem(db, old(St()), player, cause, thing, attr, wait, now, luck)
    {
      hide Wired, Lists, Apart, Table, WaitQue;
      var num := AddTo(thing, 1, attr);
      if num <= 0 {
        WaitQueue(player, cause, 0, NOTHING, attr, now, luck);
      } else {
        WaitQueue(player, cause, wait, thing, attr, now, luck);
      }
    }

    // ---- notifying

    /** Discards the semaphore record a walk has come to, with a refund. */
    method DrainRecord(point: BQUE)
      requires Valid() && Loose(point)
      modifies this`money, this`queueCount, this`htab, this`ids, this`hist
      ensures Valid() && St() == DrainOne(db, old(St()), point.e)
    {
      hide Wired, Lists, Apart, Table, Indexed, Giveto, AQueue;
      GivetoWho(point.e.player, db.waitCost);
      var _ := AQueueCount(db.owner(point.e.player), -1);
      DeleteQentry(point);
      hist := hist.(refunded := hist.refunded + [point.e.id]);
    }

    /** Releases the semaphore record a walk has come to. */
    method ReleaseRecord(ghost f: Filter, ghost q: seq<Entry>, ghost k: nat, trail: BQUE?, point: BQUE)
      requires Valid() && sq.Walk(db, f, q, k, trail, point) && k < |q| && f.Picks(db, q[k]) && point.e == q[k]
      modifies this`hist, pq, oq, sq, Repr
      ensures Valid() && sq.Walk(db, f, q, k + 1, trail, old(point.next))
      ensures St() == Give(db, old(St()), q[k]).(sq := sq.vals)
    {
      hide EntryList.Valid, EntryList.Walk, Indexed, Db.Consistent;
      TakeSem(f, q, k, trail, point);
      GiveQue(point);
    }

    /** Unlinks the semaphore record a walk has come to and discards it. */
    method DiscardRecord(ghost f: Filter, ghost q: seq<Entry>, ghost k: nat, trail: BQUE?, point: BQUE)
      requires Valid() && sq.Walk(db, f, q, k, trail, point) && k < |q| && f.Picks(db, q[k]) && point.e == q[k]
      modifies this`money, this`queueCount, this`htab, this`ids, this`hist, sq, Repr
      ensures Valid() && sq.Walk(db, f, q, k + 1, trail, old(point.next))
      ensures St() == DrainOne(db, old(St()), q[k]).(sq := sq.vals)
    {
      hide Wired, Lists, Table, EntryList.Walk, DrainOne;
      DrainAside(db, St(), q[k]);
      TakeSem(f, q, k, trail, point);
      DrainRecord(point);
    }

    /** Releases or discards the record a walk has come to. */
    method NotifyRecord(drain: bool, ghost f: Filter, ghost q: seq<Entry>, ghost k: nat, trail: BQUE?, point: BQUE,
                        ghost s: State, ghost es: seq<Entry>)
      requires Valid() && sq.Walk(db, f, q, k, trail, point) && k < |q| && f.Picks(db, q[k]) && point.e == q[k]
      requires St() == Let(db, s, drain, es).(sq := sq.vals)
      modifies this`money, this`queueCount, this`htab, this`ids, this`hist, pq, oq, sq, Repr
      ensures Valid() && sq.Walk(db, f, q, k + 1, trail, old(point.next))
      ensures St() == Let(db, s, drain, es + [q[k]]).(sq := sq.vals)
    {
      hide Wired, Apart, Table, EntryList.Valid, EntryList.Walk, Let;
      LetSnoc(db, s, drain, es, sq.vals, q[k]);
      if drain {
        DiscardRecord(f, q, k, trail, point);
      } else {
        ReleaseRecord(f, q, k, trail, point);
      }
    }

    /** Lets go the record a walk has come to, if it matches. */
    method NotifyNext(thing: Dbref, attr: int, drain: bool, ghost q: seq<Entry>, ghost k: nat,
                      trail: BQUE?, point: BQUE, ghost s: State)
      returns (hit: bool, last: BQUE?, next: BQUE?)
      requires Valid() && sq.Walk(db, OnSem(thing, attr), q, k, trail, point)
      requires St() == Let(db, s, drain, All(db, q[..k], OnSem(thing, attr))).(sq := sq.vals)
      modifies this`money, this`queueCount, this`htab, this`ids, this`hist, pq, oq, sq, Repr
      ensures Valid() && k < |q| && sq.Walk(db, OnSem(thing, attr), q, k + 1, last, next)
      ensures St() == Let(db, s, drain, All(db, q[..k + 1], OnSem(thing, attr))).(sq := sq.vals)
      ensures |All(db, q[..k + 1], OnSem(thing, attr))| == |All(db, q[..k], OnSem(thing, attr))| + if hit then 1 else 0
      ensures |All(db, q[..k + 1], OnSem(thing, attr))| <= |q|
      ensures sq.vals == Others(db, q[..k + 1], OnSem(thing, attr)) + q[k + 1..]
    {
      hide Wired, Apart, Table, EntryList.Valid, EntryList.Walk, Let, All, Others, Taken, Kept;
      ghost var f := OnSem(thing, attr);
      sq.WalkHere(db, f, q, k, trail, point);
      NextTaken(db, q, f, k, []);
      hide Lists;
      last, next := trail, point.next;
      hit := point.e.sem == thing && (point.e.attr == attr || attr == 0);
      if hit {
        NotifyRecord(drain, f, q, k, trail, point, s, All(db, q[..k], f));
      } else {
        last := point;
      }
      sq.WalkVals(db, f, q, k + 1, last, next);
    }

    /** The walk of cque_nfy_que. */
    method NotifyWalk(thing: Dbref, attr: int, key: NotifyKey, count: int) returns (num: nat)
      requires Valid()
      modifies this`money, this`queueCount, this`htab, this`ids, this`hist, pq, oq, sq, Repr
      ensures Valid()
      ensures var s, f := old(St()), OnSem(thing, attr);
        var n := Limit(s.sq, key, count);
        && St() == Let(db, s, key == NFY_DRAIN, Taken(db, s.sq, f, n)).(sq := Kept(db, s.sq, f, n))
        && num == |Taken(db, s.sq, f, n)|
    {
      hide Wired, Apart, Table, EntryList.Valid, EntryList.Walk, Let, All, Others, Taken, Kept;
      ghost var q, s, f := sq.vals, St(), OnSem(thing, attr);
      ghost var n := Limit(q, key, count);
      ghost var k := 0;
      ghost var stopped := false;
      num := 0;
      var trail: BQUE? := null;
      var point := sq.Begin(db, f);
      WalkStarts(db, q, f, []);
      LetNone(db, s, key == NFY_DRAIN);
      while point != null
        invariant Valid() && k <= |q|
        invariant !stopped ==> sq.Walk(db, f, q, k, trail, point)
        invariant num == |All(db, q[..k], f)| <= n && (stopped ==> point == null && num == n)
        invariant !stopped && key == NFY_NFY ==> num < n
        invariant sq.vals == Others(db, q[..k], f) + q[k..]
        invariant St() == Let(db, s, key == NFY_DRAIN, All(db, q[..k], f)).(sq := sq.vals)
        decreases |q| - k, point != null
      {
        var hit: bool;
        hit, trail, point := NotifyNext(thing, attr, key == NFY_DRAIN, q, k, trail, point, s);
        k := k + 1;
        if hit {
          num := num + 1;
          if key == NFY_NFY && num >= count {
            point := null;
            stopped := true;
          }
        }
      }
      if !stopped {
        sq.WalkDone(db, f, q, k, trail);
      }
      StopTaken(db, q, f, n, k);
    }

    /** cque_nfy_que. It returns how many entries were notified, but the counter itself
        where that is not positive. */
    method NotifyQueue(thing: Dbref, attr: int, key: NotifyKey, count: int) returns (num: int)
      requires Valid()
      modifies this`semCounter, this`money, this`queueCount, this`htab, this`ids, this`hist, pq, oq, sq, Repr
      ensures Valid() && St() == NotifySem(db, old(St()), thing, attr, key, count)
      ensures attr != 0 && Counter(old(St()), thing, attr) <= 0 ==> num == Counter(old(St()), thing, attr)
      ensures attr == 0 || Counter(old(St()), thing, attr) > 0 ==>
        var w, most := Waiters(db, old(St()), thing, attr), if count < 1 then 1 else count;
        num == if key == NFY_NFY && most < w then most else w
    {
      hide Wired, Lists, Apart, Table, DrainAll, GiveAll, Taken, Kept, Count;
      var attrnum := if attr != 0 then attr else A_SEMAPHORE;
      TakenLimit(db, sq.vals, OnSem(thing, attr), key, count);
      num := if attr != 0 then Get(semCounter, (thing, attr)) else 1;
      if num > 0 {
        num := NotifyWalk(thing, attr, key, count);
      }
      if key == NFY_NFY {
        var _ := AddTo(thing, -count, attrnum);
      } else {
        semCounter := semCounter[(thing, attrnum) := 0];
      }
    }

    // ---- single entries by PID

    /** Changes an entry of the wait queue in place. */
    method SetWaiter(n: BQUE, e: Entry, ghost k: nat)
      requires Valid() && k < |wq.nodes| && n == wq.nodes[k] && e.pid == n.e.pid
      modifies wq`vals, n`e
      ensures Valid() && n.e == e && |wq.nodes| == |old(wq.vals)| && St() == old(St()).(wq := old(wq.vals)[k := e])
    {
      wq.Here(k);
      hide EntryList.Valid, Indexed;
      IndexedSet(wq.nodes, wq.vals, htab, k, e);
      assert n in wq.Repr;
      wq.SetEntry(n, e, k);
    }

    /** Changes an entry of the semaphore queue in place. */
    method SetSleeper(n: BQUE, e: Entry, ghost k: nat)
      requires Valid() && k < |sq.nodes| && n == sq.nodes[k] && e.pid == n.e.pid
      modifies sq`vals, n`e
      ensures Valid() && n.e == e && |sq.nodes| == |old(sq.vals)| && St() == old(St()).(sq := old(sq.vals)[k := e])
    {
      sq.Here(k);
      hide EntryList.Valid, Indexed;
      IndexedSet(sq.nodes, sq.vals, htab, k, e);
      assert n in sq.Repr;
      sq.SetEntry(n, e, k);
    }

    /** cque_remove_waitq. */
    method RemoveWaitq(n: BQUE, ghost k: nat)
      requires Valid() && k < |wq.nodes| && n == wq.nodes[k]
      modifies wq, wq.Repr
      ensures Valid() && Loose(n) && n.e == old(n.e)
      ensures k < |old(wq.vals)| && St() == old(St()).(wq := OmitAt(old(wq.vals), k)) && wq.Repr == old(wq.Repr) - {n}
    {
      hide EntryList.Valid, Indexed, OmitAt;
      var trail := wq.FindRecord(n, k);
      UnlinkWait(trail, n, k);
    }

    method RemoveSemq(n: BQUE, ghost k: nat)
      requires Valid() && k < |sq.nodes| && n == sq.nodes[k]
      modifies sq, sq.Repr
      ensures Valid() && Loose(n) && n.e == old(n.e)
      ensures k < |old(sq.vals)| && St() == old(St()).(sq := OmitAt(old(sq.vals), k)) && sq.Repr == old(sq.Repr) - {n}
    {
      hide EntryList.Valid, Indexed, OmitAt;
      var trail := sq.FindRecord(n, k);
      UnlinkSem(trail, n, k);
    }

    /** The record with this PID is where the abstract look-up finds its entry. */
    lemma RecordOf(pid: int)
      requires Valid() && Structure(db, St()) && NotRunnable(St(), pid) && pid in htab
      ensures Lookup(St(), pid).Some? && htab[pid].e == Lookup(St(), pid).value
      ensures htab[pid].e.player != NOTHING && htab[pid].e.pid == pid
      ensures htab[pid].e.sem == NOTHING ==>
        var k := Find(wq.vals, pid); k < |wq.nodes| == |wq.vals| && wq.nodes[k] == htab[pid] && htab[pid] in wq.Repr
      ensures htab[pid].e.sem != NOTHING ==>
        var k := Find(sq.vals, pid); k < |sq.nodes| == |sq.vals| && sq.nodes[k] == htab[pid] && htab[pid] in sq.Repr
    {
      hide Structure, NotRunnable, Find, Lookup, Db.Consistent;
      LookupFinds(db, St(), pid);
      var e := Lookup(St(), pid).value;
      if e.sem == NOTHING {
        wq.Here(Find(wq.vals, pid));
      } else {
        sq.Here(Find(sq.vals, pid));
      }
    }

    /** Halts the waiting record of this PID and takes it out of the wait queue. */
    method RemoveWaiter(n: BQUE, pid: int)
      requires Valid() && n.e.pid == pid && n.e.sem == NOTHING
      requires var k := Find(wq.vals, pid); k < |wq.nodes| == |wq.vals| && wq.nodes[k] == n && n in wq.Repr
      modifies wq, wq.Repr
      ensures Valid() && Loose(n) && n.e == old(n.e).(player := NOTHING)
      ensures var s := old(St()); St() == s.(wq := Without(s.wq, pid))
    {
      hide EntryList.Valid, Indexed, Find, Db.Consistent, Without, OmitAt;
      var e := n.e.(player := NOTHING);
      ghost var k := Find(wq.vals, pid);
      DroppedSet(wq.vals, pid, e);
      SetWaiter(n, e, k);
      RemoveWaitq(n, k);
    }

    /** The same for a semaphore queue entry, which is uncounted as well. */
    method RemoveSleeper(n: BQUE, pid: int)
      requires Valid() && n.e.pid == pid && n.e.sem != NOTHING
      requires var k := Find(sq.vals, pid); k < |sq.nodes| == |sq.vals| && sq.nodes[k] == n && n in sq.Repr
      modifies this`semCounter, sq, sq.Repr
      ensures Valid() && Loose(n) && n.e == old(n.e).(player := NOTHING)
      ensures var s := old(St()); St() == AddSem(s.(sq := Without(s.sq, pid)), n.e.sem, n.e.attr, -1)
    {
      hide EntryList.Valid, Indexed, Find, Db.Consistent, Without, OmitAt;
      var e := n.e.(player := NOTHING);
      ghost var k := Find(sq.vals, pid);
      DroppedSet(sq.vals, pid, e);
      SetSleeper(n, e, k);
      RemoveSemq(n, k);
      var _ := AddTo(e.sem, -1, e.attr);
    }

    /** A halted record out of its queue is deleted and its deposit returned. */
    method RefundRecord(n: BQUE, victim: Dbref)
      requires Valid() && Loose(n)
      modifies this`htab, this`ids, this`money, this`queueCount, this`hist
      ensures Valid()
      ensures St() == Refunded(AQueue(db, Giveto(db, Delete(old(St()), n.e), victim, db.waitCost), victim, -1), [n.e.id])
    {
      hide Wired, Lists, Apart, Table, Giveto, AQueue, Delete;
      DeleteQentry(n);
      GivetoWho(victim, db.waitCost);
      var _ := AQueueCount(victim, -1);
      hist := hist.(refunded := hist.refunded + [n.e.id]);
    }

    /** What halting a waiting PID comes to. */
    lemma HaltOneIs(pid: int, allowed: bool)
      requires Valid() && Structure(db, St()) && NotRunnable(St(), pid)
      ensures pid in htab && allowed ==>
        var s, e := St(), htab[pid].e;
        var v := db.owner(e.player);
        var t := if e.sem == NOTHING then s.(wq := Without(s.wq, pid)) else AddSem(s.(sq := Without(s.sq, pid)), e.sem, e.attr, -1);
        HaltOne(db, s, pid, allowed) == Refunded(AQueue(db, Giveto(db, Delete(t, e), v, db.waitCost), v, -1), [e.id])
      ensures pid !in htab || !allowed ==> HaltOne(db, St(), pid, allowed) == St()
    {
      hide Structure, NotRunnable, Lists, Apart, Indexed, Find, Without, Db.Consistent;
      if pid in htab {
        RecordOf(pid);
        hide Lookup;
        if allowed {
          HaltOneFrame(db, St(), pid);
          hide HaltOne;
        }
      }
    }

    /** cque_do_halt_pid, for a PID that waits. */
    method HaltPidEntry(pid: int, allowed: bool)
      requires Valid() && Structure(db, St()) && NotRunnable(St(), pid)
      modifies this`htab, this`ids, this`money, this`queueCount, this`hist, this`semCounter, wq, sq, Repr
      ensures Valid() && St() == HaltOne(db, old(St()), pid, allowed)
    {
      hide Wired, EntryList.Valid, Table, Structure, NotRunnable, Find, Db.Consistent, HaltOne, Without;
      HaltOneIs(pid, allowed);
      if pid !in htab {
        return;
      }
      RecordOf(pid);
      hide Lookup;
      var n := htab[pid];
      if n.e.player == NOTHING || !allowed {
        return;
      }
      var victim := db.owner(n.e.player);
      if n.e.sem == NOTHING {
        RemoveWaiter(n, pid);
      } else {
        RemoveSleeper(n, pid);
      }
      RefundRecord(n, victim);
    }

    /** cque_do_wait_pid for a wait-queue record: it is re-threaded. */
    method RethreadWaiter(n: BQUE, pid: int, e: Entry)
      requires Valid() && n.e.pid == pid == e.pid
      requires var k := Find(wq.vals, pid); k < |wq.nodes| == |wq.vals| && wq.nodes[k] == n && n in wq.Repr
      modifies this`hist, wq, wq.Repr
      ensures Valid()
      ensures var s := old(St()); St() == Thread(s.(wq := Without(s.wq, pid)), e)
    {
      hide EntryList.Valid, Indexed, Find, Db.Consistent, Without, Insert, OmitAt;
      ghost var k := Find(wq.vals, pid);
      DroppedSet(wq.vals, pid, e);
      SetWaiter(n, e, k);
      RemoveWaitq(n, k);
      ThreadWait(n);
    }

    /** The new wait time, as cque_do_wait_pid finds it: the sum, at most INT_MAX. A time
        before the epoch becomes now for a decrement, and the end of time for the rest. */
    method AdjustTime(was: int, mode: TimeMode, val: int, now: int) returns (t: int)
      ensures t == NewTime(was, mode, val, now)
      ensures IsInt(was) && IsInt(val) && IsTime(now) ==> IsTime(t)
      ensures IsInt(was) && IsInt(val) && IsTime(now) && mode != Until ==>
        var sum := (if mode == Plain then now else was) + val;
        t == if sum > INT_MAX then INT_MAX else if sum >= 0 then sum else if mode == Decrement then now else INT_MAX
    {
      if mode == Until {
        return if val < 0 then now else val;
      }
      var base := if mode == Plain then now else was;
      if (val > 0 && base > INT_MAX - val) || (val < 0 && base < INT_MIN - val) {
        t := if val > 0 then INT_MAX else INT_MIN;
      } else {
        t := base + val;
      }
      if t < 0 {
        t := if mode == Decrement then now else INT_MAX;
      }
    }

    /** cque_do_wait_pid, for a PID that waits. */
    method WaitPid(pid: int, mode: TimeMode, val: int, now: int, allowed: bool)
      requires Valid() && Structure(db, St()) && NotRunnable(St(), pid)
      modifies this`hist, wq, sq, Repr
      ensures Valid() && St() == RetimeOne(db, old(St()), pid, mode, val, now, allowed)
    {
      hide Wired, EntryList.Valid, Indexed, Structure, NotRunnable, Find, Db.Consistent, Lookup, Without, Insert, Replaced, NewTime;
      if pid !in htab {
        return;
      }
      RecordOf(pid);
      var n := htab[pid];
      if n.e.player == NOTHING || !allowed || (n.e.sem != NOTHING && n.e.waittime == 0) {
        return;
      }
      var t := AdjustTime(n.e.waittime, mode, val, now);
      var e := n.e.(waittime := t);
      if n.e.sem == NOTHING {
        RethreadWaiter(n, pid, e);
      } else {
        ReplacedSet(sq.vals, e);
        SetSleeper(n, e, Find(sq.vals, pid));
      }
    }

    // ---- the once-a-second pass

    /** The object queue goes to the end of the run queue. */
    method PromoteObjects()
      requires Valid()
      modifies this`hist, pq, oq, Repr
      ensures Valid() && St() == Promote(old(St()))
    {
      hide EntryList.Valid, Indexed;
      IndexedBoth(pq.nodes, pq.vals, oq.nodes, oq.vals, htab);
      hist := hist.(entered := hist.entered + Ids(oq.vals), promoted := hist.promoted + Ids(oq.vals));
      pq.Splice(oq);
    }

    /** Gives the first waiting record to the run queues. */
    method GiveFirst(point: BQUE)
      requires Valid() && wq.nodes != [] && point == wq.nodes[0] && wq.vals != []
      modifies this`hist, pq, oq, wq, Repr
      ensures Valid() && St() == Give(db, old(St()), old(wq.vals)[0]).(wq := old(wq.vals)[1..])
    {
      hide EntryList.Valid, Indexed;
      assert OmitAt(wq.vals, 0) == wq.vals[1..];
      hide OmitAt;
      UnlinkWait(null, point, 0);
      GiveQue(point);
    }

    /** The wait-queue loop of cque_do_second. */
    method GiveDue(now: int)
      requires Valid()
      modifies this`hist, pq, oq, wq, Repr
      ensures Valid()
      ensures var s := old(St()); var n := DueCount(s.wq, now);
        St() == GiveAll(db, s, s.wq[..n]).(wq := s.wq[n..])
    {
      hide Wired, EntryList.Valid, Apart, Table, GiveAll, Give;
      ghost var s, q := St(), wq.vals;
      ghost var k := 0;
      var point := wq.Start();
      GiveNone(db, s);
      while point != null && point.e.waittime <= now
        invariant Valid() && k <= |q| && |wq.nodes| == |wq.vals| && point == At(wq.nodes, 0)
        invariant forall j :: 0 <= j < k ==> q[j].waittime <= now
        invariant wq.vals == q[k..] && St() == GiveAll(db, s, q[..k]).(wq := wq.vals)
        decreases |q| - k
      {
        wq.Here(0);
        GiveSnoc(db, s, q, k);
        GiveFirst(point);
        point := wq.Start();
        k := k + 1;
      }
      if point != null {
        wq.Here(0);
      }
      assert DueCount(q, now) == k;
    }

    /** Expires a timed semaphore record just unlinked. */
    method ExpireUnlinked(point: BQUE)
      requires Valid() && Loose(point)
      modifies this`semCounter, this`hist, pq, oq, pq.Repr, oq.Repr, point
      ensures Valid() && St() == ExpireOne(db, old(St()), old(point.e))
    {
      hide EntryList.Valid, Indexed, Db.Consistent, Give;
      var _ := AddTo(point.e.sem, -1, if point.e.attr != 0 then point.e.attr else A_SEMAPHORE);
      point.e := point.e.(sem := NOTHING);
      GiveQue(point);
    }

    /** Expires the timed semaphore record a walk has come to. */
    method ExpireRecord(ghost f: Filter, ghost q: seq<Entry>, ghost k: nat, trail: BQUE?, point: BQUE)
      requires Valid() && sq.Walk(db, f, q, k, trail, point) && k < |q| && f.Picks(db, q[k]) && point.e == q[k]
      modifies this`semCounter, this`hist, pq, oq, sq, Repr
      ensures Valid() && sq.Walk(db, f, q, k + 1, trail, old(point.next))
      ensures St() == ExpireOne(db, old(St()), q[k]).(sq := sq.vals)
    {
      hide EntryList.Valid, EntryList.Walk, Indexed, Db.Consistent;
      TakeSem(f, q, k, trail, point);
      ExpireUnlinked(point);
    }

    /** The semaphore loop of cque_do_second. */
    method ExpireDue(now: int)
      requires Valid()
      modifies this`semCounter, this`hist, pq, oq, sq, Repr
      ensures Valid()
      ensures var s, f := old(St()), TimedOut(now);
        St() == ExpireAll(db, s, All(db, s.sq, f)).(sq := Others(db, s.sq, f))
    {
      hide Wired, EntryList.Valid, EntryList.Walk, Apart, Table, ExpireAll, ExpireOne, All, Others;
      ghost var q, s, f := sq.vals, St(), TimedOut(now);
      ghost var k := 0;
      var trail: BQUE? := null;
      var point := sq.Begin(db, f);
      WalkStarts(db, q, f, []);
      ExpireNone(db, s);
      while point != null
        invariant Valid() && k <= |q| && sq.Walk(db, f, q, k, trail, point)
        invariant St() == ExpireAll(db, s, All(db, q[..k], f)).(sq := sq.vals)
        decreases |q| - k
      {
        sq.WalkHere(db, f, q, k, trail, point);
        NextTaken(db, q, f, k, []);
        var next := point.next;
        if point.e.waittime == 0 {
          trail := point;
        } else if point.e.waittime <= now {
          ExpireSnoc(db, s, All(db, q[..k], f), sq.vals, q[k]);
          ExpireRecord(f, q, k, trail, point);
        } else {
          trail := point;
        }
        point := next;
        k := k + 1;
      }
      sq.WalkDone(db, f, q, k, trail);
    }

    /** cque_do_second. */
    method DoSecond(now: int)
      requires Valid()
      modifies this`semCounter, this`hist, pq, oq, wq, sq, Repr
      ensures Valid() && St() == SecondPass(db, old(St()), now)
    {
      hide Wired, Lists, Apart, Table, GiveAll, ExpireAll, All, Others, Promote;
      if !env.dequeue {
        return;
      }
      SecondSteps(db, St(), now);
      PromoteObjects();
      GiveDue(now);
      ExpireDue(now);
    }

    // ---- how long to sleep

    /** One scan of cque_que_next; None once an entry is imminent. */
    static method ScanList(q: EntryList, now: int, least: int, timed: bool) returns (r: Option<int>)
      requires q.Valid()
      ensures r == Soonest(q.vals, now, least, timed, |q.vals|)
    {
      hide EntryList.Valid, ToInt;
      var point := q.Start();
      ghost var k := 0;
      var min := least;
      while point != null
        invariant k <= |q.vals| == |q.nodes| && point == At(q.nodes, k)
        invariant Soonest(q.vals, now, least, timed, k) == Some(min)
        decreases |q.vals| - k
      {
        q.Here(k);
        var t := ToInt(point.e.waittime - now);
        if !(timed && point.e.waittime == 0) {
          if t <= 2 {
            ImminentStays(q.vals, now, least, timed, k + 1, |q.vals|);
            return None;
          }
          if t < min {
            min := t;
          }
        }
        point := point.next;
        k := k + 1;
      }
      return Some(min);
    }

    /** cque_que_next. */
    method NextDue(now: int) returns (r: int)
      requires Valid()
      ensures r == QueNext(St(), now)
    {
      hide EntryList.Valid, Indexed, Soonest;
      var p := pq.Start();
      if p != null {
        return 0;
      }
      var o := oq.Start();
      if o != null {
        return 1;
      }
      var min := ScanList(wq, now, 1000, false);
      if min.None? {
        return 1;
      }
      min := ScanList(sq, now, min.value, true);
      return if min.None? then 1 else min.value - 1;
    }

    // ---- running commands

    /** Whatever a running command, or the rest of the server, does to the queue. */
    method Operate(op: Op)
      requires Valid() && Structure(db, St()) && Legal(db, St(), op)
      modifies this, pq, oq, wq, sq, Repr
      ensures Valid() && fresh(Repr - old(Repr)) && St() == Step(db, old(St()), op)
    {
      hide Wired, Lists, Apart, Table, Structure, NotRunnable, Db.Consistent;
      hide Waiters, Counter, WaitQue, WaitOnSem, NotifySem, HaltQue, HaltOne, RetimeOne;
      match op
      case Wait(player, cause, wait, attr, now, luck) => WaitQueue(player, cause, wait, NOTHING, attr, now, luck);
      case WaitOn(player, cause, thing, attr, wait, now, luck) => WaitSem(player, cause, thing, attr, wait, now, luck);
      case Notify(thing, attr, key, count) => var _ := NotifyQueue(thing, attr, key, count);
      case Halt(p, o) => var _ := HaltQueue(p, o);
      case HaltPid(pid, allowed) => HaltPidEntry(pid, allowed);
      case Retime(pid, mode, val, now, allowed) => WaitPid(pid, mode, val, now, allowed);
      case SetHalted(_, _) => Adjust(op);
      case SetGoing(_, _) => Adjust(op);
      case SetFlags(_, _) => Adjust(op);
      case Income(account, amount) => Earn(account, amount);
    }

    /** Money from outside the queue. */
    method Earn(account: Dbref, amount: int)
      requires Valid()
      modifies this`money, this`endow
      ensures Valid() && St() == Step(db, old(St()), Income(account, amount))
    {
      hide Wired, Lists, Apart, Table, Plus;
      money := Plus(money, account, amount);
      endow := Plus(endow, account, amount);
    }

    /** What the rest of the server changes of what the queue reads. */
    method Adjust(op: Op)
      requires Valid() && (op.SetHalted? || op.SetGoing? || op.SetFlags?)
      modifies this`env
      ensures Valid() && St() == Step(db, old(St()), op)
    {
      hide Wired, Lists, Apart, Table;
      match op
      case SetHalted(obj, on) => env := env.(halted := if on then env.halted + {obj} else env.halted - {obj});
      case SetGoing(obj, on) => env := env.(going := if on then env.going + {obj} else env.going - {obj});
      case SetFlags(interp, dequeue) => env := env.(interp := interp, dequeue := dequeue);
    }

    /** What a running command does to the queue. */
    method RunScript(ops: seq<Op>)
      requires Valid() && Inv(db, St()) && LegalOps(db, St(), ops)
      modifies this, pq, oq, wq, sq, Repr
      ensures Valid() && fresh(Repr - old(Repr)) && St() == Perform(db, old(St()), ops)
    {
      hide Lists, Apart, Table, Inv, Legal, Step, Db.Consistent;
      ghost var s := St();
      for i := 0 to |ops|
        invariant Valid() && fresh(Repr - old(Repr))
        invariant St() == Perform(db, s, ops[..i])
      {
        PerformNext(db, s, ops, i);
        Operate(ops[i]);
      }
      assert ops[..|ops|] == ops;
    }

    /** Turns the head of the run queue into a tombstone. */
    method TombHead(head: BQUE)
      requires Valid() && pq.vals != [] && pq.nodes != [] && head == pq.nodes[0]
      modifies pq`vals, head`e
      ensures Valid() && pq.vals != [] && head.e == old(pq.vals)[0].(player := NOTHING)
      ensures St() == old(St()).(pq := old(pq.vals)[0 := head.e])
    {
      pq.Here(0);
      hide EntryList.Valid, Indexed, Db.Consistent;
      var e := head.e.(player := NOTHING);
      IndexedSet(pq.nodes, pq.vals, htab, 0, e);
      assert head in pq.Repr;
      pq.SetEntry(head, e, 0);
    }

    /** Returns the deposit of the head of the run queue and makes it a tombstone. */
    method SettleHead(head: BQUE, e: Entry)
      requires Valid() && pq.vals != [] && pq.nodes != [] && head == pq.nodes[0] && e == pq.vals[0]
      modifies this`money, this`queueCount, this`hist, pq`vals, head`e
      ensures Valid() && pq.vals != [] && St() == Settled(db, old(St()))
    {
      hide Wired, Lists, Apart, Table, Giveto, AQueue;
      GivetoWho(e.player, db.waitCost);
      var _ := AQueueCount(db.owner(e.player), -1);
      hist := hist.(refunded := hist.refunded + [e.id]);
      TombHead(head);
    }

    /** The accounts of an entry dropped because its object is going. */
    ghost method NoteDropped(e: Entry)
      modifies this`burnt, this`leaked, this`hist
      ensures var t := Burn(db, Leak(db, old(St()), db.owner(e.player)), e.player, db.waitCost);
        St() == t.(hist := t.hist.(lost := t.hist.lost + [e.id]))
    {
      var s := Burn(db, Leak(db, St(), db.owner(e.player)), e.player, db.waitCost);
      burnt, leaked := s.acct.burnt, s.acct.leaked;
      hist := hist.(lost := hist.lost + [e.id]);
    }

    /** The first part of an iteration of cque_do_top; `runs` says whether the command is run. */
    method LaunchHead() returns (runs: bool)
      requires Valid() && pq.vals != []
      modifies this`money, this`queueCount, this`hist, this`burnt, this`leaked, pq`vals, pq.Repr
      ensures Valid() && St() == Launch(db, old(St())) && runs == Runs(old(St()))
    {
      hide Wired, EntryList.Valid, Apart, Table, Settled, Burn, Leak;
      var head := pq.Start();
      pq.Here(0);
      var e := head.e;
      SettledIs(db, St());
      runs := false;
      var player := e.player;
      if player >= 0 && player !in env.going {
        SettleHead(head, e);
        if player !in env.halted {
          hist := hist.(ran := hist.ran + [e.id]);
          runs := true;
        }
      } else if player >= 0 {
        NoteDropped(e);
      }
    }

    /** Takes the head out of the run queue. */
    method UnlinkHead(head: BQUE)
      requires Valid() && pq.nodes != [] && pq.vals != [] && head == pq.nodes[0]
      modifies pq, pq.Repr
      ensures Valid() && Loose(head) && head.e == old(pq.vals)[0] && St() == old(St()).(pq := old(pq.vals)[1..])
    {
      pq.Here(0);
      assert OmitAt(pq.vals, 0) == pq.vals[1..];
      hide EntryList.Valid, Indexed, OmitAt;
      IndexedOmit(pq.nodes, pq.vals, htab, 0);
      pq.Unlink(null, head, 0);
    }

    /** The end of an iteration of cque_do_top. */
    method PopHead()
      requires Valid()
      modifies this`htab, this`ids, this`hist, pq, Repr
      ensures Valid() && St() == if old(pq.vals) != [] then Pop(old(St())) else old(St())
    {
      hide Wired, EntryList.Valid, Table;
      var head := pq.Start();
      if head != null {
        pq.Here(0);
        UnlinkHead(head);
        hide Lists, Apart;
        DeleteQentry(head);
        hist := hist.(popped := hist.popped + [head.e.id]);
      }
    }

    /** One iteration of cque_do_top, whose command performs the operations in `script`. */
    method RunFirst(script: seq<Op>)
      requires Valid() && Inv(db, St()) && pq.vals != []
      requires Runs(St()) ==> LegalOps(db, Launch(db, St()), script)
      modifies this, pq, oq, wq, sq, Repr
      ensures Valid() && fresh(Repr - old(Repr)) && Inv(db, St()) && St() == RunHead(db, old(St()), script)
      ensures hist.popped == old(hist.popped) + [old(pq.vals)[0].id]
    {
      hide Lists, Table, Inv, Db.Consistent, Launch, Runs, LegalOps, Perform, Pop;
      RunHeadKeeps(db, St(), script);
      RunHeadPops(db, St(), script);
      var runs := LaunchHead();
      if runs {
        LaunchKeeps(db, old(St()));
        RunScript(script);
      }
      PopHead();
    }

    /** cque_do_top: the k-th command run performs the operations in scripts[k]. */
    method DoTop(ncmds: nat, scripts: seq<seq<Op>>) returns (count: nat)
      requires Valid() && Inv(db, St()) && (env.dequeue ==> LegalTop(db, St(), ncmds, scripts))
      modifies this, pq, oq, wq, sq, Repr
      ensures Valid() && fresh(Repr - old(Repr))
      ensures St() == if old(env.dequeue) then TopLoop(db, old(St()), ncmds, scripts) else old(St())
      ensures |St().hist.popped| == |old(St()).hist.popped| + count
      ensures count <= ncmds && (old(env.dequeue) && count < ncmds ==> St().pq == [])
    {
      hide Wired, EntryList.Valid, Apart, Table, Inv, LegalOps, TopLoop, LegalTop, RunHead, Runs, Launch;
      count := 0;
      if !env.dequeue {
        return;
      }
      var rest := scripts;
      while count < ncmds
        invariant Valid() && fresh(Repr - old(Repr)) && Inv(db, St()) && count <= ncmds
        invariant |hist.popped| == |old(hist.popped)| + count
        invariant TopLoop(db, St(), ncmds - count, rest) == TopLoop(db, old(St()), ncmds, scripts)
        invariant LegalTop(db, St(), ncmds - count, rest)
      {
        TopStep(db, St(), ncmds - count, rest);
        var first := pq.Start();
        if first == null {
          return;
        }
        RunFirst(Head(rest));
        rest := Tail(rest);
        count := count + 1;
      }
      TopStep(db, St(), 0, rest);
    }

    // ---- the main loop

    /** One turn of the main loop. */
    method Turn(a: Act)
      requires Valid() && Inv(db, St()) && LegalAct(db, St(), a)
      modifies this, pq, oq, wq, sq, Repr
      ensures Valid() && fresh(Repr - old(Repr)) && St() == Apply(db, old(St()), a)
    {
      hide Wired, Lists, Apart, Table, Legal, LegalTop, Structure, Inv;
      hide Step, SecondPass, TopLoop;
      InvStructure(db, St());
      match a
      case Do(op) => Operate(op);
      case Second(now) => DoSecond(now);
      case Top(n, scripts) => var _ := DoTop(n, scripts);
    }

    /** A whole run of the server. What is proved about the state `Run` reaches holds of
        the linked records. */
    method Serve(acts: seq<Act>)
      requires Valid() && St() == Empty && LegalRun(db, Empty, acts)
      modifies this, pq, oq, wq, sq, Repr
      ensures Valid() && fresh(Repr - old(Repr)) && St() == Run(db, Empty, acts) && Inv(db, St())
    {
      hide Lists, Apart, Table, LegalAct, Inv, Apply, Db.Consistent, RanOk;
      EmptyInv(db);
      for i := 0 to |acts|
        invariant Valid() && fresh(Repr - old(Repr))
        invariant St() == Run(db, Empty, acts[..i]) && Inv(db, St())
      {
        RunNext(db, acts, i);
        ApplyKeeps(db, St(), acts[i]);
        Turn(acts[i]);
      }
      assert acts[..|acts|] == acts;
    }
  }
}
