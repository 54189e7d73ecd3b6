/** The structure every run keeps: the PID table holds exactly the linked entries, no
    entry is linked twice, and each queue holds only its own kind of entry. */
module QueueStructure {
  import opened QueueTypes
  import opened QueueSpec
  import opened QueueLists
  import opened QueueFrames
  import opened QueuePids

  /** The table against the linked entries and those in `hand`: unlinked or not yet
      linked, but still in the table. */
  ghost predicate LinksOk(c: Db, s: State, hand: seq<Entry>) {
    forall pid: int, id: nat {:trigger Linked(pid, id)} ::
      Total(c, s, Linked(pid, id)) + Count(c, hand, Linked(pid, id))
      == One(pid in s.pids.table && s.pids.table[pid] == id)
  }

  ghost predicate TableOk(c: Db, p: Pids) {
    && (forall pid :: pid in p.table ==> InRange(c, pid) && p.table[pid] < p.nextId)
    && (forall x, y :: x in p.table && y in p.table && p.table[x] == p.table[y] ==> x == y)
    && (p.top == 1 || InRange(c, p.top))
  }

  ghost predicate InRunQueue(c: Db, e: Entry) {
    (e.player == NOTHING || c.good(e.player)) && e.waittime == 0
  }

  ghost predicate InWaitQueue(c: Db, e: Entry) {
    c.good(e.player) && e.sem == NOTHING && 0 <= e.waittime <= INT_MAX
  }

  ghost predicate InSemQueue(c: Db, e: Entry) {
    c.good(e.player) && e.sem != NOTHING && e.attr != 0 && INT_MIN <= e.waittime <= INT_MAX
  }

  /** Only run-queue entries can be tombstones, and the wait queue is sorted. */
  ghost predicate Shape(c: Db, s: State) {
    && (forall e :: e in s.pq ==> InRunQueue(c, e))
    && (forall e :: e in s.oq ==> InRunQueue(c, e) && !c.isPlayer(e.cause))
    && (forall e :: e in s.wq ==> InWaitQueue(c, e))
    && (forall e :: e in s.sq ==> InSemQueue(c, e))
    && Sorted(s.wq)
  }

  ghost predicate Structure(c: Db, s: State) {
    LinksOk(c, s, []) && TableOk(c, s.pids) && Shape(c, s)
  }

  // ---- what the invariant means

  function Linkeds(s: State): seq<Entry> {
    s.wq + s.sq + s.pq + s.oq
  }

  lemma LinkedsCount(c: Db, s: State, g: Filter)
    ensures Count(c, Linkeds(s), g) == Total(c, s, g)
  {
    hide Count;
    NilCount(c);
    Append(c, s.wq, s.sq, g);
    Append(c, s.wq + s.sq, s.pq, g);
    Append(c, s.wq + s.sq + s.pq, s.oq, g);
  }

  /** Two positions in the queues never hold the same PID or the same entry, and the PID
      table maps exactly the PIDs of linked entries, each to its entry. */
  lemma TableIsExact(c: Db, s: State)
    requires LinksOk(c, s, []) && TableOk(c, s.pids)
    ensures var q := Linkeds(s);
      && (forall i :: 0 <= i < |q| ==> q[i].pid in s.pids.table && s.pids.table[q[i].pid] == q[i].id)
      && (forall i, j :: 0 <= i < j < |q| ==> q[i].pid != q[j].pid && q[i].id != q[j].id)
      && (forall pid :: pid in s.pids.table ==> exists i :: 0 <= i < |q| && q[i].pid == pid)
  {
    hide Count;
    NilCount(c);
    var q := Linkeds(s);
    forall i | 0 <= i < |q|
      ensures q[i].pid in s.pids.table && s.pids.table[q[i].pid] == q[i].id
    {
      LinkedsCount(c, s, Linked(q[i].pid, q[i].id));
      Positive(c, q, i, Linked(q[i].pid, q[i].id));
    }
    forall i, j | 0 <= i < j < |q|
      ensures q[i].pid != q[j].pid && q[i].id != q[j].id
    {
      if q[i].pid == q[j].pid || q[i].id == q[j].id {
        var g := Linked(q[i].pid, q[i].id);
        LinkedsCount(c, s, g);
        RemoveAt(c, q, i, g);
        var r := q[..i] + q[i + 1..];
        assert r[j - 1] == q[j];
        Positive(c, r, j - 1, g);
      }
    }
    forall pid | pid in s.pids.table
      ensures exists i :: 0 <= i < |q| && q[i].pid == pid
    {
      LinkedsCount(c, s, Linked(pid, s.pids.table[pid]));
      var i := Witness(c, q, Linked(pid, s.pids.table[pid]));
    }
  }

  // ---- deleting and giving the entries in hand

  lemma HandInTable(c: Db, s: State, hand: seq<Entry>, i: nat)
    requires LinksOk(c, s, hand) && i < |hand|
    ensures hand[i].pid in s.pids.table && s.pids.table[hand[i].pid] == hand[i].id
  {
    hide Count;
    NilCount(c);
    var g := Linked(hand[i].pid, hand[i].id);
    Positive(c, hand, i, g);
    assert Total(c, s, g) + Count(c, hand, g) >= 1;
  }

  lemma UnlistLinks(c: Db, s: State, hand: seq<Entry>, t: State)
    requires LinksOk(c, s, hand)
    requires t.pids == s.pids.(table := Unlist(s.pids.table, hand))
    requires t.pq == s.pq && t.oq == s.oq && t.wq == s.wq && t.sq == s.sq
    ensures LinksOk(c, t, [])
  {
    hide Count, Unlist;
    NilCount(c);
    UnlistKeys(s.pids.table, hand);
    forall pid: int, id: nat {:trigger Linked(pid, id)}
      ensures Total(c, t, Linked(pid, id)) == One(pid in t.pids.table && t.pids.table[pid] == id)
    {
      var g := Linked(pid, id);
      assert Total(c, s, g) + Count(c, hand, g) == One(pid in s.pids.table && s.pids.table[pid] == id);
      if Count(c, hand, g) >= 1 {
        var i := Witness(c, hand, g);
        assert hand[i] in hand && hand[i].pid == pid;
      } else {
        NonePicked(c, hand, g);
        forall e | e in hand && e.pid == pid
          ensures pid in s.pids.table && s.pids.table[pid] == e.id
        {
          var i :| 0 <= i < |hand| && hand[i] == e;
          HandInTable(c, s, hand, i);
        }
      }
    }
  }

  lemma UnlistTable(c: Db, p: Pids, es: seq<Entry>)
    requires TableOk(c, p)
    ensures TableOk(c, p.(table := Unlist(p.table, es)))
  {
    UnlistKeys(p.table, es);
  }

  lemma GiveAllLinks(c: Db, s: State, hand: seq<Entry>)
    requires LinksOk(c, s, hand)
    ensures LinksOk(c, GiveAll(c, s, hand), [])
  {
    hide Count, GiveAll;
    NilCount(c);
    GiveAllFrame(c, s, hand);
    forall pid: int, id: nat {:trigger Linked(pid, id)}
      ensures Total(c, GiveAll(c, s, hand), Linked(pid, id)) == Total(c, s, Linked(pid, id)) + Count(c, hand, Linked(pid, id))
    {
      GiveAllTotal(c, s, hand, Linked(pid, id));
    }
  }

  lemma GiveAllShape(c: Db, s: State, hand: seq<Entry>)
    requires Shape(c, s)
    requires forall e :: e in hand ==> c.good(e.player)
    ensures Shape(c, GiveAll(c, s, hand))
  {
    hide GiveAll, Given;
    GiveAllFrame(c, s, hand);
    GiveAllQueues(c, s, hand);
    GivenMembers(c, hand, true);
    GivenMembers(c, hand, false);
  }

  // ---- halting

  lemma {:induction false} SortedKept(c: Db, q: seq<Entry>, f: Filter, n: nat)
    requires Sorted(q)
    ensures Sorted(Kept(c, q, f, n))
  {
    if q != [] {
      assert Sorted(q[..|q| - 1]);
      SortedKept(c, q[..|q| - 1], f, n);
      Members(c, q[..|q| - 1], f, n);
      assert forall x :: x in Kept(c, q[..|q| - 1], f, n) ==> x.waittime <= q[|q| - 1].waittime;
    }
  }

  lemma HaltStructure(c: Db, s: State, ptarg: Dbref, otarg: Dbref)
    requires Structure(c, s)
    ensures Structure(c, HaltQue(c, s, ptarg, otarg))
  {
    hide Count, Taken, Kept, Tombed, HaltQue, Unlist;
    NilCount(c);
    var f := Wanted(ptarg, otarg);
    var t := HaltQue(c, s, ptarg, otarg);
    var hand := All(c, s.wq, f) + All(c, s.sq, f);
    HaltQueFrame(c, s, ptarg, otarg);
    var u := t.(pids := s.pids);
    forall pid: int, id: nat {:trigger Linked(pid, id)}
      ensures Total(c, u, Linked(pid, id)) + Count(c, hand, Linked(pid, id))
           == Total(c, s, Linked(pid, id)) + Count(c, [], Linked(pid, id))
    {
      HaltTotal(c, s, ptarg, otarg, Linked(pid, id));
    }
    UnlistLinks(c, u, hand, t);
    UnlistTable(c, s.pids, hand);
    HaltShape(c, s, f);
  }

  lemma HaltShape(c: Db, s: State, f: Filter)
    requires Shape(c, s)
    ensures Shape(c, s.(pq := Tombed(c, s.pq, f), oq := Tombed(c, s.oq, f),
                        wq := Others(c, s.wq, f), sq := Others(c, s.sq, f)))
  {
    hide Taken, Kept, Tombed;
    TombedAt(c, s.pq, f);
    TombedAt(c, s.oq, f);
    Members(c, s.wq, f, |s.wq|);
    Members(c, s.sq, f, |s.sq|);
    SortedKept(c, s.wq, f, |s.wq|);
    assert forall i :: 0 <= i < |s.pq| ==> s.pq[i] in s.pq;
    assert forall i :: 0 <= i < |s.oq| ==> s.oq[i] in s.oq;
  }

  // ---- setting up and routing

  function Hand(r: Option<Entry>): seq<Entry> {
    if r.Some? then [r.value] else []
  }

  /** Registering a new PID puts one entry in hand. */
  lemma RegisterLinks(c: Db, s: State, t: State, e: Entry)
    requires LinksOk(c, s, []) && SameQueues(s, t)
    requires e.pid !in s.pids.table && e.id == s.pids.nextId
    requires t.pids.table == s.pids.table[e.pid := e.id]
    ensures LinksOk(c, t, [e])
  {
    hide Count;
    NilCount(c);
    forall pid: int, id: nat {:trigger Linked(pid, id)}
      ensures Total(c, t, Linked(pid, id)) + Count(c, [e], Linked(pid, id))
           == One(pid in t.pids.table && t.pids.table[pid] == id)
    {
      Single(c, e, Linked(pid, id));
      assert Total(c, s, Linked(pid, id)) + Count(c, [], Linked(pid, id))
          == One(pid in s.pids.table && s.pids.table[pid] == id);
    }
  }

  lemma SameStructure(c: Db, s: State, t: State)
    requires Structure(c, s)
    requires t.pq == s.pq && t.oq == s.oq && t.wq == s.wq && t.sq == s.sq && t.pids.table == s.pids.table
    requires t.pids.nextId == s.pids.nextId && (t.pids.top == s.pids.top || InRange(c, t.pids.top))
    ensures Structure(c, t)
  {
    hide Count;
    assert forall g: Filter :: Total(c, t, g) == Total(c, s, g);
  }

  lemma SetupStructure(c: Db, s: State, player: Dbref, cause: Dbref, luck: Luck)
    requires Structure(c, s)
    ensures var t, r := Setup(c, s, player, cause, luck).0, Setup(c, s, player, cause, luck).1;
      LinksOk(c, t, Hand(r)) && TableOk(c, t.pids) && Shape(c, t)
      && (r.Some? ==> r.value.player == player && r.value.cause == cause)
  {
    hide Count, Taken, Kept, Tombed, HaltQue, PidScan;
    var t, r := Setup(c, s, player, cause, luck).0, Setup(c, s, player, cause, luck).1;
    ScanResult(c, s.pids.table, s.pids.top);
    match CaseOf(c, s, player, luck)
    case Refused =>
    case OverQuota =>
      AccountsOnly(c, s, player, luck);
      var b := Wasted(c, s, player, luck);
      SameStructure(c, s, b);
      HaltStructure(c, b, c.owner(player), NOTHING);
      SameStructure(c, HaltQue(c, b, c.owner(player), NOTHING), t);
    case Failed =>
      SetupFailed(c, s, player, cause, luck);
      SameStructure(c, s, t);
    case Done =>
      SetupDone(c, s, player, cause, luck);
      RegisterLinks(c, s, t, r.value);
  }

  lemma Single(c: Db, e: Entry, g: Filter)
    ensures Count(c, [e], g) == One(g.Picks(c, e))
  {
    assert [e][..0] == [];
  }

  lemma RouteTotal(c: Db, s: State, e: Entry, wait: int, g: Filter)
    requires Steady(g)
    ensures Total(c, Route(c, s, e, wait), g) == Total(c, s, g) + One(g.Picks(c, e))
  {
    hide Count, Insert;
    NilCount(c);
    if e.sem != NOTHING {
      Snoc(c, s.sq, e, g);
    } else if wait <= 0 {
      GiveTotal(c, s, e, g);
    } else {
      InsertCount(c, s.wq, e, g);
    }
  }

  lemma RouteShape(c: Db, s: State, e: Entry, wait: int)
    requires Shape(c, s)
    requires c.good(e.player) && INT_MIN <= e.waittime <= INT_MAX
    requires e.sem == NOTHING && wait > 0 ==> 0 <= e.waittime
    requires e.sem != NOTHING ==> e.attr != 0
    ensures Shape(c, Route(c, s, e, wait))
  {
    hide Insert;
    if e.sem == NOTHING && wait > 0 {
      InsertSorted(s.wq, e);
      InsertMembers(s.wq, e);
    }
  }

  lemma RouteStructure(c: Db, s: State, e: Entry, wait: int, e0: Entry)
    requires LinksOk(c, s, [e0]) && TableOk(c, s.pids) && Shape(c, s)
    requires e0.pid == e.pid && e0.id == e.id
    requires c.good(e.player) && INT_MIN <= e.waittime <= INT_MAX
    requires e.sem == NOTHING && wait > 0 ==> 0 <= e.waittime
    requires e.sem != NOTHING ==> e.attr != 0
    ensures Structure(c, Route(c, s, e, wait))
  {
    hide Count, Insert;
    NilCount(c);
    var t := Route(c, s, e, wait);
    forall pid: int, id: nat {:trigger Linked(pid, id)}
      ensures Total(c, t, Linked(pid, id)) + Count(c, [], Linked(pid, id))
           == Total(c, s, Linked(pid, id)) + Count(c, [e0], Linked(pid, id))
    {
      Single(c, e0, Linked(pid, id));
      RouteTotal(c, s, e, wait, Linked(pid, id));
    }
    assert t.pids == s.pids;
    RouteShape(c, s, e, wait);
  }

  lemma WaitTimeRange(wait: int, now: int)
    requires INT_MIN <= wait <= INT_MAX && 0 <= now <= INT_MAX
    ensures INT_MIN <= WaitTime(wait, now) <= INT_MAX
    ensures wait > 0 ==> now < WaitTime(wait, now) || WaitTime(wait, now) == INT_MAX
    ensures wait > 0 ==> 0 <= WaitTime(wait, now)
  {
  }

  lemma WaitStructure(c: Db, s: State, player: Dbref, cause: Dbref, wait: int, sem: Dbref, attr: int, now: int, luck: Luck)
    requires Structure(c, s) && c.good(player)
    requires 0 <= now <= INT_MAX && INT_MIN <= wait <= INT_MAX
    requires sem != NOTHING ==> attr != 0
    ensures Structure(c, WaitQue(c, s, player, cause, wait, sem, attr, now, luck))
  {
    hide Count, Setup, Route;
    NilCount(c);
    if s.env.interp {
      SetupStructure(c, s, player, cause, luck);
      var r := Setup(c, s, player, cause, luck).1;
      if r.Some? {
        WaitTimeRange(wait, now);
        RouteStructure(c, Setup(c, s, player, cause, luck).0,
                       r.value.(waittime := WaitTime(wait, now), sem := sem, attr := attr), wait, r.value);
      }
    }
  }

  // ---- notifying

  lemma TakeLinks(c: Db, s: State, f: Filter, n: nat)
    requires LinksOk(c, s, [])
    ensures LinksOk(c, s.(sq := Kept(c, s.sq, f, n)), Taken(c, s.sq, f, n))
  {
    hide Count, Taken, Kept;
    NilCount(c);
    forall pid: int, id: nat {:trigger Linked(pid, id)}
      ensures Total(c, s.(sq := Kept(c, s.sq, f, n)), Linked(pid, id)) + Count(c, Taken(c, s.sq, f, n), Linked(pid, id))
           == Total(c, s, Linked(pid, id)) + Count(c, [], Linked(pid, id))
    {
      Split(c, s.sq, f, n, Linked(pid, id));
    }
  }

  lemma {:induction false} GiveAllSq(c: Db, s: State, es: seq<Entry>, sq: seq<Entry>)
    ensures GiveAll(c, s, es).(sq := sq) == GiveAll(c, s.(sq := sq), es)
  {
    if es != [] {
      GiveAllSq(c, s, es[..|es| - 1], sq);
    }
  }

  lemma NotifyStructure(c: Db, s: State, thing: Dbref, attr: int, key: NotifyKey, count: int)
    requires Structure(c, s)
    ensures Structure(c, NotifySem(c, s, thing, attr, key, count))
  {
    hide Count, Taken, Kept, DrainAll, GiveAll, Unlist;
    NilCount(c);
    var num := if attr != 0 then Get(s.sem, (thing, attr)) else 1;
    if num > 0 {
      var n := Limit(s.sq, key, count);
      var f := OnSem(thing, attr);
      var es := Taken(c, s.sq, f, n);
      var s0 := s.(sq := Kept(c, s.sq, f, n));
      TakeLinks(c, s, f, n);
      Members(c, s.sq, f, n);
      assert Shape(c, s0);
      if key == NFY_DRAIN {
        DrainAllFrame(c, s, es);
        UnlistLinks(c, s0, es, DrainAll(c, s, es).(sq := s0.sq));
        UnlistTable(c, s.pids, es);
      } else {
        GiveAllSq(c, s, es, s0.sq);
        GiveAllLinks(c, s0, es);
        GiveAllShape(c, s0, es);
        GiveAllFrame(c, s0, es);
      }
    }
  }

  // ---- single entries by PID

  lemma FindAppend(a: seq<Entry>, b: seq<Entry>, pid: int)
    ensures Find(a + b, pid) == if Find(a, pid) < |a| then Find(a, pid) else |a| + Find(b, pid)
  {
    hide FindFrom;
    var q := a + b;
    var i := Find(q, pid);
    var j := if Find(a, pid) < |a| then Find(a, pid) else |a| + Find(b, pid);
    if j < |q| {
      assert q[j].pid == pid;
    }
    if i < |q| {
      assert i < |a| ==> a[i].pid == pid;
      assert i >= |a| ==> b[i - |a|].pid == pid;
    }
  }

  /** The PID is not that of a run-queue entry. */
  ghost predicate NotRunnable(s: State, pid: int) {
    Find(s.pq, pid) == |s.pq| && Find(s.oq, pid) == |s.oq|
  }

  lemma FindLinked(s: State, pid: int)
    ensures Find(Linkeds(s), pid) ==
      if Find(s.wq, pid) < |s.wq| then Find(s.wq, pid)
      else if Find(s.sq, pid) < |s.sq| then |s.wq| + Find(s.sq, pid)
      else if Find(s.pq, pid) < |s.pq| then |s.wq| + |s.sq| + Find(s.pq, pid)
      else |s.wq| + |s.sq| + |s.pq| + Find(s.oq, pid)
  {
    hide Find;
    FindAppend(s.wq + s.sq + s.pq, s.oq, pid);
    FindAppend(s.wq + s.sq, s.pq, pid);
    FindAppend(s.wq, s.sq, pid);
  }

  /** A PID in the table but not in a run queue is that of a waiting entry. */
  lemma LookupFinds(c: Db, s: State, pid: int)
    requires Structure(c, s) && c.Consistent() && pid in s.pids.table && NotRunnable(s, pid)
    ensures Lookup(s, pid).Some?
    ensures var e := Lookup(s, pid).value;
      && e.pid == pid && e.id == s.pids.table[pid] && e.player != NOTHING
      && c.good(e.player) && INT_MIN <= e.waittime <= INT_MAX
      && (e.sem == NOTHING ==> Find(s.wq, pid) < |s.wq| && s.wq[Find(s.wq, pid)] == e)
      && (e.sem != NOTHING ==> Find(s.sq, pid) < |s.sq| && s.sq[Find(s.sq, pid)] == e && e.attr != 0)
  {
    hide Find;
    TableIsExact(c, s);
    var q := Linkeds(s);
    var i :| 0 <= i < |q| && q[i].pid == pid;
    assert Find(q, pid) <= i;
    FindLinked(s, pid);
    assert Lookup(s, pid) == Some(q[Find(q, pid)]);
    if Find(s.wq, pid) < |s.wq| {
      assert q[Find(q, pid)] == s.wq[Find(s.wq, pid)] && s.wq[Find(s.wq, pid)] in s.wq;
    } else {
      assert q[Find(q, pid)] == s.sq[Find(s.sq, pid)] && s.sq[Find(s.sq, pid)] in s.sq;
    }
  }

  /** What cque_do_halt_pid does to the queues when the entry waits. */
  lemma HaltOneFrame(c: Db, s: State, pid: int)
    requires Structure(c, s) && c.Consistent() && pid in s.pids.table && NotRunnable(s, pid)
    ensures Lookup(s, pid).Some?
    ensures var e := Lookup(s, pid).value;
      var t := HaltOne(c, s, pid, true);
      && t.pq == s.pq && t.oq == s.oq && t.env == s.env
      && t.wq == (if e.sem == NOTHING then Without(s.wq, pid) else s.wq)
      && t.sq == (if e.sem == NOTHING then s.sq else Without(s.sq, pid))
      && t.sem == (if e.sem == NOTHING then s.sem else Plus(s.sem, (e.sem, e.attr), -1))
      && t.pids == s.pids.(table := s.pids.table - {pid})
      && t.hist == s.hist.(refunded := s.hist.refunded + [e.id])
      && t.acct == AQueue(c, Giveto(c, s, c.owner(e.player), c.waitCost), c.owner(e.player), -1).acct
  {
    hide Lookup, Structure, Find, Without;
    LookupFinds(c, s, pid);
    NotMarked(s, pid);
  }

  lemma NotMarked(s: State, pid: int)
    requires NotRunnable(s, pid)
    ensures MarkHalted(s.pq, pid) == s.pq && MarkHalted(s.oq, pid) == s.oq
  {
  }

  lemma HaltOneTotal(c: Db, s: State, pid: int, g: Filter)
    requires Structure(c, s) && c.Consistent() && pid in s.pids.table && NotRunnable(s, pid)
    ensures Lookup(s, pid).Some?
    ensures Total(c, s, g) == Total(c, HaltOne(c, s, pid, true), g) + One(g.Picks(c, Lookup(s, pid).value))
  {
    hide Count, HaltOne, Lookup;
    NilCount(c);
    LookupFinds(c, s, pid);
    HaltOneFrame(c, s, pid);
    if Lookup(s, pid).value.sem == NOTHING {
      RemoveAt(c, s.wq, Find(s.wq, pid), g);
    } else {
      RemoveAt(c, s.sq, Find(s.sq, pid), g);
    }
  }

  lemma HaltOneShape(c: Db, s: State, pid: int)
    requires Structure(c, s) && c.Consistent() && pid in s.pids.table && NotRunnable(s, pid)
    ensures Shape(c, HaltOne(c, s, pid, true))
  {
    hide HaltOne, Without, Lookup;
    HaltOneFrame(c, s, pid);
    WithoutKeeps(s.wq, pid);
    WithoutKeeps(s.sq, pid);
  }

  lemma HaltOneStructure(c: Db, s: State, pid: int, allowed: bool)
    requires Structure(c, s) && c.Consistent() && NotRunnable(s, pid)
    ensures Structure(c, HaltOne(c, s, pid, allowed))
  {
    if pid in s.pids.table && allowed {
      hide Count, HaltOne, Lookup;
      NilCount(c);
      LookupFinds(c, s, pid);
      HaltOneFrame(c, s, pid);
      var e := Lookup(s, pid).value;
      var t := HaltOne(c, s, pid, true);
      var u := t.(pids := s.pids);
      assert t.pids.table == Unlist(s.pids.table, [e]) by {
        assert [e][..0] == [];
      }
      forall pid': int, id: nat {:trigger Linked(pid', id)}
        ensures Total(c, u, Linked(pid', id)) + Count(c, [e], Linked(pid', id))
             == Total(c, s, Linked(pid', id)) + Count(c, [], Linked(pid', id))
      {
        Single(c, e, Linked(pid', id));
        HaltOneTotal(c, s, pid, Linked(pid', id));
      }
      UnlistLinks(c, u, [e], t);
      UnlistTable(c, s.pids, [e]);
      HaltOneShape(c, s, pid);
    }
  }

  lemma NewTimeRange(old_: int, mode: TimeMode, val: int, now: int)
    requires INT_MIN <= old_ <= INT_MAX && INT_MIN <= val <= INT_MAX && 0 <= now <= INT_MAX
    ensures 0 <= NewTime(old_, mode, val, now) <= INT_MAX
  {
  }

  /** What cque_do_wait_pid does to a waiting entry it may change. */
  lemma RetimeFrame(c: Db, s: State, pid: int, mode: TimeMode, val: int, now: int)
    requires Structure(c, s) && c.Consistent() && pid in s.pids.table && NotRunnable(s, pid)
    ensures Lookup(s, pid).Some?
    ensures var e := Lookup(s, pid).value;
      var e' := e.(waittime := NewTime(e.waittime, mode, val, now));
      var t := RetimeOne(c, s, pid, mode, val, now, true);
      && (e.sem != NOTHING && e.waittime == 0 ==> t == s)
      && (e.sem == NOTHING ==> t == Thread(s.(wq := Without(s.wq, pid)), e'))
      && (e.sem != NOTHING && e.waittime != 0 ==> t == s.(sq := Replaced(s.sq, e')))
  {
    LookupFinds(c, s, pid);
  }

  lemma RetimeTotal(c: Db, s: State, pid: int, mode: TimeMode, val: int, now: int, g: Filter)
    requires Structure(c, s) && c.Consistent() && pid in s.pids.table && NotRunnable(s, pid)
    requires Steady(g)
    ensures Total(c, RetimeOne(c, s, pid, mode, val, now, true), g) == Total(c, s, g)
  {
    hide Count, RetimeOne, Insert, Lookup, NotRunnable, Structure, NewTime, Find, Filter.Picks, Steady;
    LookupFinds(c, s, pid);
    RetimeFrame(c, s, pid, mode, val, now);
    var e := Lookup(s, pid).value;
    var t := NewTime(e.waittime, mode, val, now);
    AnyTime(c, e, t, g);
    if e.sem == NOTHING {
      RemoveAt(c, s.wq, Find(s.wq, pid), g);
      InsertCount(c, Without(s.wq, pid), e.(waittime := t), g);
    } else {
      ReplaceAt(c, s.sq, Find(s.sq, pid), e.(waittime := t), g);
    }
  }

  lemma RetimeStructure(c: Db, s: State, pid: int, mode: TimeMode, val: int, now: int, allowed: bool)
    requires Structure(c, s) && c.Consistent() && NotRunnable(s, pid)
    requires INT_MIN <= val <= INT_MAX && 0 <= now <= INT_MAX
    ensures Structure(c, RetimeOne(c, s, pid, mode, val, now, allowed))
  {
    if pid in s.pids.table && allowed {
      hide Count, RetimeOne, Lookup, Without, Insert, Replaced, Find, NotRunnable, NewTime, Shape, TableOk;
      NilCount(c);
      RetimeFrame(c, s, pid, mode, val, now);
      RetimeShape(c, s, pid, mode, val, now);
      hide Total;
      forall pid': int, id: nat {:trigger Linked(pid', id)}
        ensures Total(c, RetimeOne(c, s, pid, mode, val, now, true), Linked(pid', id)) == Total(c, s, Linked(pid', id))
      {
        RetimeTotal(c, s, pid, mode, val, now, Linked(pid', id));
      }
    }
  }

  lemma RetimeShape(c: Db, s: State, pid: int, mode: TimeMode, val: int, now: int)
    requires Structure(c, s) && c.Consistent() && pid in s.pids.table && NotRunnable(s, pid)
    requires INT_MIN <= val <= INT_MAX && 0 <= now <= INT_MAX
    ensures Shape(c, RetimeOne(c, s, pid, mode, val, now, true))
  {
    hide LinksOk, TableOk, RetimeOne, Insert, Lookup, Without, Replaced, NotRunnable, Find;
    LookupFinds(c, s, pid);
    RetimeFrame(c, s, pid, mode, val, now);
    var e := Lookup(s, pid).value;
    var e' := e.(waittime := NewTime(e.waittime, mode, val, now));
    NewTimeRange(e.waittime, mode, val, now);
    WithoutKeeps(s.wq, pid);
    InsertMembers(Without(s.wq, pid), e');
    InsertSorted(Without(s.wq, pid), e');
    ReplacedMembers(s.sq, e');
  }

  // ---- the once-a-second pass

  /** Up to the due entries: promotion, and unlinking what is due. */
  lemma DueLinks(c: Db, s: State, n: nat)
    requires Structure(c, s) && n <= |s.wq|
    ensures var t := Promote(s).(wq := s.wq[n..]);
      LinksOk(c, t, s.wq[..n]) && Shape(c, t) && forall e :: e in s.wq[..n] ==> e in s.wq
  {
    hide Count, Ids;
    NilCount(c);
    var t := Promote(s).(wq := s.wq[n..]);
    var due := s.wq[..n];
    assert s.wq == due + s.wq[n..];
    forall pid: int, id: nat {:trigger Linked(pid, id)}
      ensures Total(c, t, Linked(pid, id)) + Count(c, due, Linked(pid, id))
           == Total(c, s, Linked(pid, id)) + Count(c, [], Linked(pid, id))
    {
      Append(c, s.pq, s.oq, Linked(pid, id));
      Append(c, due, s.wq[n..], Linked(pid, id));
    }
  }

  /** The semaphore loop of cque_do_second. */
  lemma ExpireStructure(c: Db, s: State, now: int)
    requires Structure(c, s)
    ensures var f := TimedOut(now); Structure(c, ExpireAll(c, s, All(c, s.sq, f)).(sq := Others(c, s.sq, f)))
  {
    hide Count, Taken, Kept, Given, GiveAll, ExpireAll, Freed;
    var f := TimedOut(now);
    var es, rest := All(c, s.sq, f), Others(c, s.sq, f);
    NilCount(c);
    TakeLinks(c, s, f, |s.sq|);
    Members(c, s.sq, f, |s.sq|);
    var t := s.(sq := rest);
    forall pid: int, id: nat {:trigger Linked(pid, id)}
      ensures Count(c, Freed(es), Linked(pid, id)) == Count(c, es, Linked(pid, id))
    {
      FreedCount(c, es, Linked(pid, id));
    }
    FreedMembers(es);
    GiveAllLinks(c, t, Freed(es));
    GiveAllShape(c, t, Freed(es));
    GiveAllSq(c, s, Freed(es), rest);
    ExpireAllFrame(c, s, es);
    GiveAllFrame(c, s, Freed(es));
  }

  lemma SecondStructure(c: Db, s: State, now: int)
    requires Structure(c, s)
    ensures Structure(c, SecondPass(c, s, now))
  {
    hide Count, Given, GiveAll, ExpireAll, DueFrom, Ids, All, Others, LinksOk;
    if s.env.dequeue {
      var n := DueCount(s.wq, now);
      var t := Promote(s).(wq := s.wq[n..]);
      DueLinks(c, s, n);
      GiveAllLinks(c, t, s.wq[..n]);
      GiveAllShape(c, t, s.wq[..n]);
      GiveAllFrame(c, t, s.wq[..n]);
      hide DueCount;
      ExpireStructure(c, GiveAll(c, t, s.wq[..n]), now);
    }
  }
}
