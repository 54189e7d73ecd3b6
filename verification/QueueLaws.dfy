/** What each queue operation does, said of the entries' own fields. */
module QueueLaws {
  import opened CText
  import opened QueueTypes
  import opened QueueSpec
  import opened QueueLists
  import opened QueueFrames
  import opened QueuePids
  import opened QueueStructure
  import opened QueueSemaphores
  import opened QueueLedger
  import opened QueueRuns
  import opened QueueSchedule

  // ---- choosing entries

  /** The entries of `q` with a property, in order. */
  function Sift(q: seq<Entry>, keep: Entry -> bool): (r: seq<Entry>)
    ensures |r| <= |q|
  {
    if q == [] then [] else (if keep(q[0]) then [q[0]] else []) + Sift(q[1..], keep)
  }

  /** `q` without the first `n` entries with a property. */
  function Past(q: seq<Entry>, skip: Entry -> bool, n: nat): (r: seq<Entry>)
    ensures |r| <= |q|
  {
    if q == [] then []
    else if n > 0 && skip(q[0]) then Past(q[1..], skip, n - 1)
    else [q[0]] + Past(q[1..], skip, n)
  }

  function First(q: seq<Entry>, n: nat): (r: seq<Entry>) {
    if |q| <= n then q else q[..n]
  }

  function IdList(q: seq<Entry>): seq<nat> {
    seq(|q|, i requires 0 <= i < |q| => q[i].id)
  }

  lemma {:induction false} SiftSnoc(q: seq<Entry>, e: Entry, keep: Entry -> bool)
    ensures Sift(q + [e], keep) == Sift(q, keep) + (if keep(e) then [e] else [])
  {
    if q == [] {
      assert [e][1..] == [];
    } else {
      assert (q + [e])[1..] == q[1..] + [e];
      SiftSnoc(q[1..], e, keep);
    }
  }

  lemma {:induction false} PastSnoc(q: seq<Entry>, e: Entry, skip: Entry -> bool, n: nat)
    ensures Past(q + [e], skip, n) == Past(q, skip, n) + (if skip(e) && |Sift(q, skip)| < n then [] else [e])
  {
    if q == [] {
      assert [e][1..] == [];
    } else {
      assert (q + [e])[1..] == q[1..] + [e];
      PastSnoc(q[1..], e, skip, if n > 0 && skip(q[0]) then n - 1 else n);
    }
  }

  /** Taking the first `n` entries a filter picks. */
  lemma {:induction false} TakenIs(c: Db, q: seq<Entry>, f: Filter, pick: Entry -> bool, n: nat)
    requires forall e :: e in q ==> pick(e) == f.Picks(c, e)
    ensures Taken(c, q, f, n) == First(Sift(q, pick), n) && Kept(c, q, f, n) == Past(q, pick, n)
  {
    hide Sift, Past, Taken, Kept, Filter.Picks;
    NoneTaken(c, f, pick, n);
    if q != [] {
      var q0, e := q[..|q| - 1], q[|q| - 1];
      assert q == q0 + [e];
      TakenIs(c, q0, f, pick, n);
      SiftSnoc(q0, e, pick);
      PastSnoc(q0, e, pick, n);
      TakenSnoc(c, q, f, n);
    }
  }

  lemma NoneTaken(c: Db, f: Filter, pick: Entry -> bool, n: nat)
    ensures Taken(c, [], f, n) == Kept(c, [], f, n) == [] == Sift([], pick) == Past([], pick, n)
  {
  }

  lemma TakenSnoc(c: Db, q: seq<Entry>, f: Filter, n: nat)
    requires q != []
    ensures var q0, e := q[..|q| - 1], q[|q| - 1];
      var hit := f.Picks(c, e) && |Taken(c, q0, f, n)| < n;
      && Taken(c, q, f, n) == Taken(c, q0, f, n) + (if hit then [e] else [])
      && Kept(c, q, f, n) == Kept(c, q0, f, n) + (if hit then [] else [e])
  {
  }

  lemma {:induction false} PastAll(q: seq<Entry>, skip: Entry -> bool, keep: Entry -> bool, n: nat)
    requires n >= |q| && forall e :: e in q ==> keep(e) == !skip(e)
    ensures Past(q, skip, n) == Sift(q, keep)
  {
    if q != [] {
      PastAll(q[1..], skip, keep, if n > 0 && skip(q[0]) then n - 1 else n);
    }
  }

  /** Taking every entry a filter picks. */
  lemma AllIs(c: Db, q: seq<Entry>, f: Filter, pick: Entry -> bool, keep: Entry -> bool)
    requires forall e :: e in q ==> pick(e) == f.Picks(c, e) && keep(e) == !pick(e)
    ensures All(c, q, f) == Sift(q, pick) && Others(c, q, f) == Sift(q, keep)
  {
    TakenIs(c, q, f, pick, |q|);
    PastAll(q, pick, keep, |q|);
  }

  lemma IdsList(q: seq<Entry>)
    ensures Ids(q) == IdList(q)
  {
    IdsAt(q);
    hide Ids;
  }

  // ---- halting

  /** The entries a halt of player `p` or object `o` reaches; NOTHING stands for any. */
  predicate Reached(c: Db, p: Dbref, o: Dbref, e: Entry) {
    c.good(e.player) && (p == NOTHING || c.owner(e.player) == p) && (o == NOTHING || e.player == o)
  }

  function ReachedIn(c: Db, p: Dbref, o: Dbref, q: seq<Entry>): (r: seq<Entry>) {
    Sift(q, e => Reached(c, p, o, e))
  }

  function Unreached(c: Db, p: Dbref, o: Dbref, q: seq<Entry>): (r: seq<Entry>) {
    Sift(q, e => !Reached(c, p, o, e))
  }

  lemma ReachedIs(c: Db, p: Dbref, o: Dbref, q: seq<Entry>)
    ensures All(c, q, Wanted(p, o)) == ReachedIn(c, p, o, q) && Others(c, q, Wanted(p, o)) == Unreached(c, p, o, q)
    ensures forall i :: 0 <= i < |q| ==>
      Tombed(c, q, Wanted(p, o))[i] == if Reached(c, p, o, q[i]) then q[i].(player := NOTHING) else q[i]
  {
    TombedAt(c, q, Wanted(p, o));
    AllIs(c, q, Wanted(p, o), e => Reached(c, p, o, e), e => !Reached(c, p, o, e));
  }

  /** How many entries a halt reaches. */
  function Reach(c: Db, s: State, p: Dbref, o: Dbref): nat {
    |ReachedIn(c, p, o, s.pq)| + |ReachedIn(c, p, o, s.oq)| + |ReachedIn(c, p, o, s.wq)| + |ReachedIn(c, p, o, s.sq)|
  }

  /** halt_que takes exactly the entries it reaches off the wait and the semaphore queue,
      leaves them as tombstones in the run queues, and returns exactly their deposits. */
  lemma HaltReaches(c: Db, s: State, p: Dbref, o: Dbref)
    ensures var t := HaltQue(c, s, p, o);
      && t.wq == Unreached(c, p, o, s.wq) && t.sq == Unreached(c, p, o, s.sq)
      && |t.pq| == |s.pq| && |t.oq| == |s.oq|
      && (forall i :: 0 <= i < |s.pq| ==>
            t.pq[i] == if Reached(c, p, o, s.pq[i]) then s.pq[i].(player := NOTHING) else s.pq[i])
      && (forall i :: 0 <= i < |s.oq| ==>
            t.oq[i] == if Reached(c, p, o, s.oq[i]) then s.oq[i].(player := NOTHING) else s.oq[i])
      && t.hist.refunded == s.hist.refunded
         + IdList(ReachedIn(c, p, o, s.pq) + ReachedIn(c, p, o, s.oq) + ReachedIn(c, p, o, s.wq) + ReachedIn(c, p, o, s.sq))
      && t.hist.lost == s.hist.lost && t.env == s.env
    ensures |HaltedEntries(c, s, Wanted(p, o))| == Reach(c, s, p, o)
  {
    hide HaltQue, Tombed, Taken, Kept, Unlist, HaltLists, Ids, Sift, Reached;
    HaltQueFrame(c, s, p, o);
    ReachedIs(c, p, o, s.pq);
    ReachedIs(c, p, o, s.oq);
    ReachedIs(c, p, o, s.wq);
    ReachedIs(c, p, o, s.sq);
    IdsList(HaltedEntries(c, s, Wanted(p, o)));
  }

  lemma {:induction false} SiftMembers(q: seq<Entry>, keep: Entry -> bool)
    ensures forall e :: e in Sift(q, keep) <==> e in q && keep(e)
  {
    if q != [] {
      SiftMembers(q[1..], keep);
    }
  }

  // ---- waiting

  /** When a command that is to wait `w` seconds at `now` is due. */
  function DueAt(w: int, now: int): int {
    if w > 0 then (if now + w <= 0x7fff_ffff then now + w else 0x7fff_ffff)
    else if w < 0 then (if now + w >= -0x8000_0000 then now + w else -0x8000_0000)
    else 0
  }

  /** The entry a set-up makes: the next serial number, and the first free PID in cyclic
      order from the hint, which moves behind it. */
  lemma EntryMade(c: Db, s: State, player: Dbref, cause: Dbref, luck: Luck)
    requires c.Consistent() && c.good(player) && TableOk(c, s.pids) && Enqueues(c, s, player, luck)
    ensures var (u, r) := Setup(c, s, player, cause, luck);
      && r.Some? && r.value == Entry(s.pids.nextId, player, cause, r.value.pid, 0, NOTHING, 0)
      && InRange(c, r.value.pid) && r.value.pid !in s.pids.table
      && (forall k: nat :: Visited(c, s.pids.top, k) == r.value.pid ==>
            exists i: nat :: i <= k && Visited(c, s.pids.top, i) == r.value.pid
                             && forall j: nat :: j < i ==> Visited(c, s.pids.top, j) in s.pids.table)
      && u.pids == Pids(s.pids.table[r.value.pid := s.pids.nextId],
                        if r.value.pid == c.maxPid then 1 else r.value.pid + 1, s.pids.nextId + 1)
      && SameQueues(s, u) && u.acct == Bought(c, s, player, luck).acct
  {
    CaseIff(c, s, player, luck);
    SetupDone(c, s, player, cause, luck);
    hide Setup, PidScan, Bought, CanPay;
    var pid := PidScan(c, s.pids.table, s.pids.top, c.maxPid);
    var i := ScanIsFirstFree(c, s.pids.table, s.pids.top);
    forall k: nat | Visited(c, s.pids.top, k) == pid
      ensures exists i: nat :: i <= k && Visited(c, s.pids.top, i) == pid
                               && forall j: nat :: j < i ==> Visited(c, s.pids.top, j) in s.pids.table
    {
      assert i <= k;
    }
  }

  lemma InsertedSet(q: seq<Entry>, e: Entry)
    ensures multiset(Insert(q, e)) == multiset(q) + multiset{e}
  {
    var i := DueCount(q, e.waittime);
    assert q == q[..i] + q[i..];
  }

  /** A command that is to wait, and gets an entry, joins the wait queue with the time it
      is due; one that is not to wait joins the run queue its cause selects. */
  lemma WaitEnrolls(c: Db, s: State, player: Dbref, cause: Dbref, w: int, attr: int, now: int, luck: Luck)
    requires c.Consistent() && c.good(player) && TableOk(c, s.pids) && Enqueues(c, s, player, luck)
    requires IsInt(w) && IsTime(now)
    ensures Setup(c, s, player, cause, luck).1.Some?
    ensures var u := WaitQue(c, s, player, cause, w, NOTHING, attr, now, luck);
      var e := Entry(s.pids.nextId, player, cause, Setup(c, s, player, cause, luck).1.value.pid, 0, NOTHING, attr);
      && u.sq == s.sq && u.sem == s.sem
      && (w > 0 ==> multiset(u.wq) == multiset(s.wq) + multiset{e.(waittime := DueAt(w, now))})
      && (w > 0 ==> u.pq == s.pq && u.oq == s.oq)
      && (w <= 0 ==> u.wq == s.wq)
      && (w <= 0 ==> u.pq == s.pq + (if c.isPlayer(cause) then [e] else []))
      && (w <= 0 ==> u.oq == s.oq + (if c.isPlayer(cause) then [] else [e]))
  {
    EntryMade(c, s, player, cause, luck);
    hide Setup, Enqueues, Bought, Insert;
    var (u, r) := Setup(c, s, player, cause, luck);
    InsertedSet(s.wq, r.value.(waittime := WaitTime(w, now), sem := NOTHING, attr := attr));
  }

  /** One that is to wait on a semaphore joins the semaphore queue, with its timeout if it
      has one. */
  lemma SemEnrolls(c: Db, s: State, player: Dbref, cause: Dbref, w: int, thing: Dbref, attr: int, now: int, luck: Luck)
    requires c.Consistent() && c.good(player) && TableOk(c, s.pids) && Enqueues(c, s, player, luck)
    requires IsInt(w) && IsTime(now) && thing != NOTHING
    ensures Setup(c, s, player, cause, luck).1.Some?
    ensures var u := WaitQue(c, s, player, cause, w, thing, attr, now, luck);
      var pid := Setup(c, s, player, cause, luck).1.value.pid;
      && u.sq == s.sq + [Entry(s.pids.nextId, player, cause, pid, DueAt(w, now), thing, attr)]
      && u.pq == s.pq && u.oq == s.oq && u.wq == s.wq && u.sem == s.sem
  {
    EntryMade(c, s, player, cause, luck);
    hide Setup, Enqueues, Bought;
  }

  /** Waiting on a semaphore counts it up. Where notifies ran ahead the command runs at
      once, otherwise it waits on the semaphore. */
  lemma SemWaitIs(c: Db, s: State, player: Dbref, cause: Dbref, thing: Dbref, attr: int, w: int, now: int, luck: Luck)
    ensures var u := WaitOnSem(c, s, player, cause, thing, attr, w, now, luck);
      var s1 := s.(sem := s.sem[(thing, attr) := Counter(s, thing, attr) + 1]);
      u == if Counter(s, thing, attr) < 0 then WaitQue(c, s1, player, cause, 0, NOTHING, attr, now, luck)
           else WaitQue(c, s1, player, cause, w, thing, attr, now, luck)
  {
    hide WaitQue;
  }

  /** A set-up over the quota halts the object and everything the owner has queued. */
  lemma OverQuotaHalts(c: Db, s: State, player: Dbref, cause: Dbref, luck: Luck)
    requires c.Consistent() && c.good(player) && Structure(c, s)
    requires player !in s.env.halted && CanPay(c, s, player, luck) && !UnderQuota(c, s, player)
    ensures var (t, r) := Setup(c, s, player, cause, luck);
      && r.None? && t.env == s.env.(halted := s.env.halted + {player})
      && Live(c, t, c.owner(player)) == 0 && Get(t.acct.queue, c.owner(player)) == 0
      && t.pids.nextId == s.pids.nextId
  {
    CaseIff(c, s, player, luck);
    AccountsOnly(c, s, player, luck);
    var w, o := Wasted(c, s, player, luck), c.owner(player);
    assert c.goodOwner(o) && o != NOTHING by { assert c.good(player); }
    hide CanPay, UnderQuota, PidFree, Wasted, HaltQue, PidScan, Live;
    SameStructure(c, s, w);
    hide Structure, TableOk;
    ShapeOf(c, w);
    var t := Setup(c, s, player, cause, luck).0;
    var h := HaltQue(c, w, o, NOTHING);
    HaltAccounts(c, w, o, NOTHING);
    HaltNumbers(c, w, o, NOTHING, o, 0, 0);
    NoneLeft(c, w, o, o);
    HaltReaches(c, w, o, NOTHING);
    HaltSerials(c, w, o);
    SameLiveQueues(c, h, t);
    assert Live(c, t, o) == Live(c, h, o) by { assert BookOf(c, t, o) == BookOf(c, t, o); }
  }

  lemma ShapeOf(c: Db, s: State)
    requires Structure(c, s)
    ensures Shape(c, s)
  {
  }

  lemma HaltSerials(c: Db, s: State, o: Dbref)
    ensures HaltQue(c, s, o, NOTHING).pids.nextId == s.pids.nextId
  {
    HaltQueFrame(c, s, o, NOTHING);
  }

  // ---- halting by PID

  predicate Distinct(q: seq<Entry>) {
    forall i, j :: 0 <= i < j < |q| ==> q[i].pid != q[j].pid
  }

  lemma DistinctPart(a: seq<Entry>, p: seq<Entry>, b: seq<Entry>)
    requires Distinct(a + p + b)
    ensures Distinct(p)
  {
    var q := a + p + b;
    forall i, j | 0 <= i < j < |p|
      ensures p[i].pid != p[j].pid
    {
      assert q[|a| + i] == p[i] && q[|a| + j] == p[j];
    }
  }

  /** A PID stands in one place only. */
  lemma AllDistinct(c: Db, s: State)
    requires Structure(c, s)
    ensures Distinct(s.wq + s.sq) && Distinct(s.wq) && Distinct(s.sq) && Distinct(s.pq) && Distinct(s.oq)
  {
    hide Count, Shape, Distinct;
    TableIsExact(c, s);
    var q := Linkeds(s);
    assert Distinct(q) by { PidsDistinct(q); }
    assert q == [] + s.wq + (s.sq + s.pq + s.oq) == s.wq + s.sq + (s.pq + s.oq);
    assert q == (s.wq + s.sq) + s.pq + s.oq == (s.wq + s.sq + s.pq) + s.oq + [] == [] + (s.wq + s.sq) + (s.pq + s.oq);
    DistinctPart([], s.wq, s.sq + s.pq + s.oq);
    DistinctPart(s.wq, s.sq, s.pq + s.oq);
    DistinctPart(s.wq + s.sq, s.pq, s.oq);
    DistinctPart(s.wq + s.sq + s.pq, s.oq, []);
    DistinctPart([], s.wq + s.sq, s.pq + s.oq);
  }

  lemma PidsDistinct(q: seq<Entry>)
    requires forall i, j :: 0 <= i < j < |q| ==> q[i].pid != q[j].pid && q[i].id != q[j].id
    ensures Distinct(q)
  {
  }

  lemma MarkedAt(q: seq<Entry>, pid: int)
    requires Distinct(q)
    ensures |MarkHalted(q, pid)| == |q|
    ensures forall i :: 0 <= i < |q| ==> MarkHalted(q, pid)[i] == if q[i].pid == pid then q[i].(player := NOTHING) else q[i]
  {
  }

  lemma WithoutSift(q: seq<Entry>, pid: int)
    requires Distinct(q)
    ensures Without(q, pid) == Sift(q, (e: Entry) => e.pid != pid)
  {
    hide Sift;
    var k := Find(q, pid);
    if k == |q| {
      SiftBoth(q, [], (e: Entry) => e.pid != pid);
      assert q + [] == q;
    } else {
      SiftAround(q, k, pid);
    }
  }

  lemma {:induction false} SiftAround(q: seq<Entry>, k: nat, pid: int)
    requires k < |q| && q[k].pid == pid && forall i :: 0 <= i < |q| && i != k ==> q[i].pid != pid
    ensures Sift(q, (e: Entry) => e.pid != pid) == q[..k] + q[k + 1..]
  {
    if k > 0 {
      SiftAround(q[1..], k - 1, pid);
      assert q[1..][..k - 1] == q[1..k] && q[1..][k..] == q[k + 1..];
    } else {
      SiftBoth(q[1..], [], (e: Entry) => e.pid != pid);
      assert q[1..] + [] == q[1..];
    }
  }

  /** Halting a live entry by its PID marks it wherever it may run, takes it off the queue
      it waits in, counts its semaphore down, returns the deposit, and frees the PID. */
  lemma HaltPidIs(c: Db, s: State, pid: int)
    requires Structure(c, s) && pid in s.pids.table
    requires Lookup(s, pid).Some? && Lookup(s, pid).value.player != NOTHING && Lookup(s, pid).value.pid == pid
    ensures var e, t := Lookup(s, pid).value, HaltOne(c, s, pid, true);
      && |t.pq| == |s.pq| && |t.oq| == |s.oq|
      && (forall i :: 0 <= i < |s.pq| ==> t.pq[i] == if s.pq[i].pid == pid then s.pq[i].(player := NOTHING) else s.pq[i])
      && (forall i :: 0 <= i < |s.oq| ==> t.oq[i] == if s.oq[i].pid == pid then s.oq[i].(player := NOTHING) else s.oq[i])
      && t.wq == (if e.sem == NOTHING then Sift(s.wq, (x: Entry) => x.pid != pid) else s.wq)
      && t.sq == (if e.sem == NOTHING then s.sq else Sift(s.sq, (x: Entry) => x.pid != pid))
      && (forall k :: Get(t.sem, k) == Get(s.sem, k) - if e.sem != NOTHING && k == (e.sem, e.attr) then 1 else 0)
      && t.hist.refunded == s.hist.refunded + [e.id]
      && pid !in t.pids.table
  {
    hide Lookup, MarkHalted, Without, Sift, Structure, AQueue, Giveto;
    AllDistinct(c, s);
    MarkedAt(s.pq, pid);
    MarkedAt(s.oq, pid);
    WithoutSift(s.wq, pid);
    WithoutSift(s.sq, pid);
    HaltOneParts(c, s, pid);
  }

  lemma HaltOneParts(c: Db, s: State, pid: int)
    requires pid in s.pids.table
    requires Lookup(s, pid).Some? && Lookup(s, pid).value.player != NOTHING && Lookup(s, pid).value.pid == pid
    ensures var e, t := Lookup(s, pid).value, HaltOne(c, s, pid, true);
      && t.pq == MarkHalted(s.pq, pid) && t.oq == MarkHalted(s.oq, pid)
      && t.wq == (if e.sem == NOTHING then Without(s.wq, pid) else s.wq)
      && t.sq == (if e.sem == NOTHING then s.sq else Without(s.sq, pid))
      && t.sem == (if e.sem == NOTHING then s.sem else Plus(s.sem, (e.sem, e.attr), -1))
      && t.hist == s.hist.(refunded := s.hist.refunded + [e.id]) && t.pids.table == s.pids.table - {pid}
  {
    hide Lookup, MarkHalted, Without, Plus, AQueue, Giveto;
    var e := Lookup(s, pid).value;
    var v := c.owner(e.player);
    var s1 := s.(pq := MarkHalted(s.pq, pid), oq := MarkHalted(s.oq, pid));
    var s2 := if e.sem == NOTHING then s1.(wq := Without(s1.wq, pid))
              else AddSem(s1.(sq := Without(s1.sq, pid)), e.sem, e.attr, -1);
    var d := Delete(s2, e);
    AccountFrame(c, d, v, c.waitCost);
    AccountFrame(c, Giveto(c, d, v, c.waitCost), v, -1);
  }

  // ---- retiming

  /** The time a retiming at `now` asks for: a time of day, or a number of seconds from now,
      or before or after the old time. */
  function AskedFor(was: int, mode: TimeMode, val: int, now: int): int {
    match mode
    case Until => val
    case Plain => now + val
    case Increment => was + val
    case Decrement => was + val
  }

  /** What it comes to: that time, or the end of time beyond it. Before the epoch it is now
      for a time of day and for a decrement, and the end of time for the others. */
  lemma RetimedTo(was: int, mode: TimeMode, val: int, now: int)
    requires IsInt(was) && IsInt(val) && IsTime(now)
    ensures var t := AskedFor(was, mode, val, now);
      NewTime(was, mode, val, now) ==
        if 0 <= t <= 0x7fff_ffff then t
        else if t < 0 && (mode == Until || mode == Decrement) then now
        else 0x7fff_ffff
  {
  }

  /** A retimed entry gets that time and stays in its queue; one that waits on a semaphore
      without a timeout stays as it is. */
  lemma RetimeIs(c: Db, s: State, pid: int, mode: TimeMode, val: int, now: int)
    requires Structure(c, s) && c.Consistent() && NotRunnable(s, pid) && pid in s.pids.table
    ensures exists e :: (e in s.wq || e in s.sq) && e.pid == pid && e.player != NOTHING && Lookup(s, pid) == Some(e)
    ensures var e := Lookup(s, pid).value;
      var e' := e.(waittime := NewTime(e.waittime, mode, val, now));
      var t := RetimeOne(c, s, pid, mode, val, now, true);
      && (e in s.wq ==> multiset(t.wq) == multiset(s.wq) - multiset{e} + multiset{e'} && t.sq == s.sq)
      && (e in s.sq ==> t.wq == s.wq && |t.sq| == |s.sq|)
      && (e in s.sq ==> forall i :: 0 <= i < |s.sq| ==>
            t.sq[i] == if s.sq[i].pid == pid && e.waittime != 0 then e' else s.sq[i])
      && t.pq == s.pq && t.oq == s.oq && t.sem == s.sem && t.acct == s.acct && t.pids == s.pids
  {
    hide RetimeOne, Lookup, Structure, NotRunnable, Insert, NewTime, FindFrom;
    LookupFinds(c, s, pid);
    RetimeFrame(c, s, pid, mode, val, now);
    var e := Lookup(s, pid).value;
    AllDistinct(c, s);
    OnlyOne(s.wq, s.sq);
    assert e.sem == NOTHING ==> e in s.wq;
    assert e.sem != NOTHING ==> e in s.sq;
    if e.sem == NOTHING {
      InsertedSet(Without(s.wq, pid), e.(waittime := NewTime(e.waittime, mode, val, now)));
      WithoutSet(s.wq, pid);
    }
  }

  lemma WithoutSet(q: seq<Entry>, pid: int)
    requires Find(q, pid) < |q|
    ensures multiset(Without(q, pid)) == multiset(q) - multiset{q[Find(q, pid)]}
  {
    hide FindFrom;
    var k := Find(q, pid);
    assert q == q[..k] + [q[k]] + q[k + 1..];
  }

  /** No entry waits in both queues. */
  lemma OnlyOne(p: seq<Entry>, q: seq<Entry>)
    requires Distinct(p + q)
    ensures forall e :: e in p ==> e !in q
  {
    forall i, j | 0 <= i < |p| && 0 <= j < |q|
      ensures p[i].pid != q[j].pid
    {
      assert (p + q)[i] == p[i] && (p + q)[|p| + j] == q[j];
    }
    assert forall j :: 0 <= j < |q| ==> q[j] !in p;
  }

  // ---- the rest of the server

  lemma Surroundings(c: Db, s: State, x: Dbref, on: bool, interp: bool, dequeue: bool)
    ensures forall y :: y in Step(c, s, SetHalted(x, on)).env.halted <==> if y == x then on else y in s.env.halted
    ensures forall y :: y in Step(c, s, SetGoing(x, on)).env.going <==> if y == x then on else y in s.env.going
    ensures Step(c, s, SetFlags(interp, dequeue)).env == Env(s.env.halted, s.env.going, interp, dequeue)
  {
  }

  // ---- money

  /** The cost of a command: the deposit, and a coin more if the surcharge hits. */
  lemma CostIs(c: Db, luck: Luck)
    ensures Cost(c, luck) == if luck.surcharge && c.waitCost > 0 then c.waitCost + 1 else c.waitCost
  {
  }

  /** Only objects that are not exempt, nor their owners, pay and are paid, out of and into
      the owner's money. */
  lemma MoneyMoves(c: Db, s: State, who: Dbref, n: nat, a: Dbref)
    ensures var pays := !c.exempt(who) && !c.exempt(c.owner(who));
      var (t, ok) := Payfor(c, s, who, n);
      && (ok <==> !pays || Get(s.acct.money, c.owner(who)) >= n)
      && Get(t.acct.money, a) == Get(s.acct.money, a) - (if ok && pays && a == c.owner(who) then n else 0)
      && Get(Giveto(c, s, who, n).acct.money, a) == Get(s.acct.money, a) + (if pays && a == c.owner(who) then n else 0)
  {
  }

  // ---- notifying

  /** What cque_nfy_que lets go: the first matching entries, at least one and at most
      `count` of them for NFY_NFY, all for the others. A drain returns their deposits, the
      others make them runnable. */
  lemma NotifyIs(c: Db, s: State, thing: Dbref, attr: int, key: NotifyKey, count: int)
    ensures var t := NotifySem(c, s, thing, attr, key, count);
      var hits := (e: Entry) => e.sem == thing && (attr == 0 || e.attr == attr);
      var n := if key != NFY_NFY then |s.sq| else if count > 1 then count else 1;
      var es := if attr != 0 && Counter(s, thing, attr) <= 0 then [] else First(Sift(s.sq, hits), n);
      && t.sq == (if attr != 0 && Counter(s, thing, attr) <= 0 then s.sq else Past(s.sq, hits, n))
      && t.wq == s.wq && t.env == s.env
      && (key != NFY_DRAIN ==> t.pq == s.pq + Given(c, es, true) && t.oq == s.oq + Given(c, es, false))
      && (key != NFY_DRAIN ==> t.hist.refunded == s.hist.refunded && t.pids == s.pids && t.acct == s.acct)
      && (key == NFY_DRAIN ==> t.pq == s.pq && t.oq == s.oq && t.hist == s.hist.(refunded := s.hist.refunded + IdList(es)))
      && (key == NFY_DRAIN ==> t.pids == s.pids.(table := s.pids.table - (set e | e in es :: e.pid)))
  {
    hide Taken, Kept, Sift, Past, GiveAll, DrainAll, Given, Ids, Unlist;
    var f, n := OnSem(thing, attr), Limit(s.sq, key, count);
    var hits := (e: Entry) => e.sem == thing && (attr == 0 || e.attr == attr);
    TakenIs(c, s.sq, f, hits, n);
    var es := Taken(c, s.sq, f, n);
    GiveAllFrame(c, s, es);
    GiveAllQueues(c, s, es);
    GiveAllLog(c, s, es, true);
    DrainAllFrame(c, s, es);
    DrainAllLog(c, s, es);
    IdsList(es);
    UnlistIs(s.pids.table, es);
    GivenNone(c);
    var none: seq<Entry> := [];
    assert IdList(none) == [] && s.pids.table - (set e | e in none :: e.pid) == s.pids.table;
  }

  lemma GivenNone(c: Db)
    ensures Given(c, [], true) == [] == Given(c, [], false)
  {
  }

  lemma {:induction false} UnlistIs(table: map<int, nat>, es: seq<Entry>)
    ensures Unlist(table, es) == table - (set e | e in es :: e.pid)
  {
    if es != [] {
      var es0, e := es[..|es| - 1], es[|es| - 1];
      UnlistIs(table, es0);
      assert es == es0 + [e];
      assert (set x | x in es :: x.pid) == (set x | x in es0 :: x.pid) + {e.pid};
    }
  }

  // ---- the second pass

  /** cque_do_second, with the entries due and expired by their own times. */
  lemma SecondIs(c: Db, s: State, now: int)
    requires Sorted(s.wq) && s.env.dequeue
    ensures var t := SecondPass(c, s, now);
      var due := Sift(s.wq, (e: Entry) => e.waittime <= now);
      var expired := Freed(Sift(s.sq, (e: Entry) => e.waittime != 0 && e.waittime <= now));
      && t.pq == s.pq + s.oq + Given(c, due, true) + Given(c, expired, true)
      && t.oq == Given(c, due, false) + Given(c, expired, false)
      && t.wq == Sift(s.wq, (e: Entry) => e.waittime > now)
      && t.sq == Sift(s.sq, (e: Entry) => e.waittime == 0 || e.waittime > now)
      && t.pids == s.pids && t.acct == s.acct && t.env == s.env
      && t.hist.refunded == s.hist.refunded && t.hist.lost == s.hist.lost
  {
    hide Taken, Kept, Sift, Given, Freed, GiveAll, ExpireAll, DueFrom, Ids;
    var n := DueCount(s.wq, now);
    var s1 := Promote(s).(wq := s.wq[n..]);
    var s2 := GiveAll(c, s1, s.wq[..n]);
    var es := All(c, s.sq, TimedOut(now));
    DueSift(s.wq, now);
    AllIs(c, s.sq, TimedOut(now), (e: Entry) => e.waittime != 0 && e.waittime <= now, (e: Entry) => e.waittime == 0 || e.waittime > now);
    GiveAllFrame(c, s1, s.wq[..n]);
    GiveAllQueues(c, s1, s.wq[..n]);
    ExpireAllFrame(c, s2, es);
    GiveAllFrame(c, s2, Freed(es));
    GiveAllQueues(c, s2, Freed(es));
    assert [] + Given(c, s.wq[..n], false) == Given(c, s.wq[..n], false);
  }

  lemma {:induction false} SiftBoth(p: seq<Entry>, q: seq<Entry>, keep: Entry -> bool)
    requires (forall e :: e in p ==> keep(e)) && (forall e :: e in q ==> !keep(e))
    ensures Sift(p + q, keep) == p
  {
    if p != [] {
      assert (p + q)[1..] == p[1..] + q;
      SiftBoth(p[1..], q, keep);
    } else if q != [] {
      assert p + q == q;
      SiftBoth([], q[1..], keep);
      assert [] + q[1..] == q[1..];
    } else {
      assert p + q == [];
    }
  }

  lemma {:induction false} SiftBehind(p: seq<Entry>, q: seq<Entry>, keep: Entry -> bool)
    requires (forall e :: e in p ==> !keep(e)) && (forall e :: e in q ==> keep(e))
    ensures Sift(p + q, keep) == q
  {
    if p != [] {
      assert (p + q)[1..] == p[1..] + q;
      SiftBehind(p[1..], q, keep);
    } else {
      SiftBoth(q, [], keep);
      assert p + q == q && q + [] == q;
    }
  }

  lemma DueSift(q: seq<Entry>, now: int)
    requires Sorted(q)
    ensures var n := DueCount(q, now);
      && q[..n] == Sift(q, (e: Entry) => e.waittime <= now)
      && q[n..] == Sift(q, (e: Entry) => e.waittime > now)
  {
    hide Sift, DueFrom;
    var n := DueCount(q, now);
    assert q == q[..n] + q[n..];
    SiftBoth(q[..n], q[n..], (e: Entry) => e.waittime <= now);
    SiftBehind(q[..n], q[n..], (e: Entry) => e.waittime > now);
  }

  // ---- running

  /** What becomes of the head of the run queue. A tombstone is only passed over. The entry
      of a Going object is lost. Any other entry's deposit is returned, and its command is
      run unless its object is halted. */
  lemma HeadFate(c: Db, s: State)
    requires s.pq != []
    ensures var e, u := s.pq[0], Launch(c, s);
      var live, going := e.player >= 0, e.player in s.env.going;
      && u.hist.refunded == s.hist.refunded + (if live && !going then [e.id] else [])
      && u.hist.lost == s.hist.lost + (if live && going then [e.id] else [])
      && u.hist.ran == s.hist.ran + (if live && !going && e.player !in s.env.halted then [e.id] else [])
      && (Runs(s) <==> live && !going && e.player !in s.env.halted)
      && u.pq == s.pq[0 := if live && !going then e.(player := NOTHING) else e]
      && u.oq == s.oq && u.wq == s.wq && u.sq == s.sq && u.pids == s.pids && u.sem == s.sem && u.env == s.env
  {
    var e := s.pq[0];
    hide Giveto, AQueue, Burn, Leak;
    AccountFrame(c, s, e.player, c.waitCost);
    AccountFrame(c, Giveto(c, s, e.player, c.waitCost), c.owner(e.player), -1);
    LossFrame(c, s, e.player, c.waitCost);
    LossFrame(c, Leak(c, s, c.owner(e.player)), e.player, c.waitCost);
  }

  /** cque_do_top takes one entry off the run queue for each of `n` turns, unless it runs
      empty before. */
  lemma {:induction false} TopPops(c: Db, s: State, n: nat, scripts: seq<seq<Op>>) returns (k: nat)
    requires c.Consistent() && Inv(c, s) && LegalTop(c, s, n, scripts)
    ensures var t := TopLoop(c, s, n, scripts);
      k <= n && |t.hist.popped| == |s.hist.popped| + k && (k < n ==> t.pq == [])
    decreases n
  {
    hide RunHead, Inv, RanOk, Launch, Runs, TopLoop, LegalTop, LegalOps;
    TopStep(c, s, n, scripts);
    k := 0;
    if n != 0 && s.pq != [] {
      RunHeadKeeps(c, s, Head(scripts));
      RunHeadPops(c, s, Head(scripts));
      k := TopPops(c, RunHead(c, s, Head(scripts)), n - 1, Tail(scripts));
      k := k + 1;
    }
  }

  // ---- sleeping

  /** The time left until an entry is due, as an int. */
  function TimeLeft(e: Entry, now: int): int {
    var d := e.waittime - now;
    if d < INT_MIN then d + 0x1_0000_0000 else if d > INT_MAX then d - 0x1_0000_0000 else d
  }

  predicate Timed(s: State, e: Entry) {
    e in s.wq || (e in s.sq && e.waittime != 0)
  }

  /** How long the server may sleep: not at all with a command to run, a second with one in
      the object queue or anything due within two; otherwise until a second before the
      first timed entry is due, but never longer than 999 seconds. */
  lemma NextIs(c: Db, s: State, now: int)
    requires Shape(c, s) && IsTime(now)
    ensures var r := QueNext(s, now);
      var near := exists e :: Timed(s, e) && TimeLeft(e, now) <= 2;
      && (s.pq != [] ==> r == 0)
      && (s.pq == [] && (s.oq != [] || near) ==> r == 1)
      && (s.pq == [] && s.oq == [] && !near ==>
            && (forall e :: Timed(s, e) ==> r + 1 <= TimeLeft(e, now))
            && (r == 999 || exists e :: Timed(s, e) && r + 1 == TimeLeft(e, now))
            && r <= 999)
  {
    hide Soonest, ToInt, Shape;
    SoonestIs(s.wq, now, 1000, false, |s.wq|);
    var r := Soonest(s.wq, now, 1000, false, |s.wq|);
    if r.Some? {
      SoonestIs(s.sq, now, r.value, true, |s.sq|);
    }
    forall e | Timed(s, e)
      ensures ToInt(e.waittime - now) == TimeLeft(e, now)
    {
      TimeLeftIs(c, s, e, now);
    }
    assert forall i :: 0 <= i < |s.wq| ==> Timed(s, s.wq[i]);
    assert forall i :: 0 <= i < |s.sq| && s.sq[i].waittime != 0 ==> Timed(s, s.sq[i]);
  }

  lemma TimeLeftIs(c: Db, s: State, e: Entry, now: int)
    requires Shape(c, s) && IsTime(now) && Timed(s, e)
    ensures ToInt(e.waittime - now) == TimeLeft(e, now)
  {
  }
}
