/** How the functions of QueueSpec follow the steps of the methods of class CommandQueue,
    and how the PID table follows the lists. */
module QueueSteps {
  import opened CText
  import opened QueueTypes
  import opened QueueSpec
  import opened QueueLists
  import opened QueueFrames
  import opened QueueLedger
  import opened QueueStructure
  import opened QueueRuns
  import opened QueueSchedule
  import opened EntryLists

  /** Every record is in the PID table under its PID. */
  ghost predicate Indexed(q: seq<BQUE>, es: seq<Entry>, htab: map<int, BQUE>) {
    && |q| == |es|
    && (forall i {:trigger q[i]} {:trigger es[i]} :: 0 <= i < |q| ==> es[i].pid in htab && htab[es[i].pid] == q[i])
  }

  lemma IndexedWithout(q: seq<BQUE>, es: seq<Entry>, htab: map<int, BQUE>, pid: int)
    requires Indexed(q, es, htab) && pid in htab && htab[pid] !in q
    ensures Indexed(q, es, htab - {pid})
  {
  }

  lemma IndexedSnoc(q: seq<BQUE>, es: seq<Entry>, htab: map<int, BQUE>, n: BQUE, e: Entry)
    requires Indexed(q, es, htab) && e.pid in htab && htab[e.pid] == n
    ensures Indexed(q + [n], es + [e], htab)
  {
  }

  lemma IndexedOmit(q: seq<BQUE>, es: seq<Entry>, htab: map<int, BQUE>, k: nat)
    requires Indexed(q, es, htab) && k < |q|
    ensures Indexed(OmitAt(q, k), OmitAt(es, k), htab)
    ensures es[k].pid in htab && htab[es[k].pid] == q[k]
  {
  }

  lemma {:induction false} IndexedTombed(c: Db, q: seq<BQUE>, es: seq<Entry>, htab: map<int, BQUE>, f: Filter)
    requires Indexed(q, es, htab)
    ensures Indexed(q, Tombed(c, es, f), htab)
  {
    TombedAt(c, es, f);
    hide Tombed;
    forall i | 0 <= i < |q|
      ensures Tombed(c, es, f)[i].pid == es[i].pid
    {
    }
  }

  lemma DeleteAllSnoc(s: State, es: seq<Entry>, wq: seq<Entry>, e: Entry)
    ensures Delete(DeleteAll(s, es).(wq := wq), e).(wq := []) == DeleteAll(s, es + [e]).(wq := [])
  {
    assert (es + [e])[..|es|] == es;
  }

  lemma IndexedAdded(q: seq<BQUE>, es: seq<Entry>, htab: map<int, BQUE>, k: nat, n: BQUE, e: Entry)
    requires Indexed(q, es, htab) && k <= |q| && e.pid in htab && htab[e.pid] == n
    ensures Indexed(AddAt(q, k, n), AddAt(es, k, e), htab)
  {
  }

  lemma InsertIs(q: seq<Entry>, e: Entry, k: nat)
    requires k <= |q| && forall j :: 0 <= j < k ==> q[j].waittime <= e.waittime
    requires k < |q| ==> q[k].waittime > e.waittime
    ensures AddAt(q, k, e) == Insert(q, e)
  {
    InsertAt(q, e, k);
  }

  lemma SetupUntimed(c: Db, s: State, player: Dbref, cause: Dbref, luck: Luck)
    ensures var r := Setup(c, s, player, cause, luck).1; r.Some? ==> r.value.waittime == 0
  {
  }

  /** Releasing or discarding entries. */
  function Let(c: Db, s: State, drain: bool, es: seq<Entry>): State {
    if drain then DrainAll(c, s, es) else GiveAll(c, s, es)
  }

  lemma LetNone(c: Db, s: State, drain: bool)
    ensures Let(c, s, drain, []) == s
  {
  }

  lemma LetSnoc(c: Db, s: State, drain: bool, es: seq<Entry>, sq: seq<Entry>, e: Entry)
    ensures var t := Let(c, s, drain, es).(sq := sq);
      Let(c, s, drain, es + [e]).(sq := sq) == if drain then DrainOne(c, t, e) else Give(c, t, e)
  {
    assert (es + [e])[..|es|] == es;
  }

  /** A bound not reached takes all, and one reached stops the taking. */
  lemma {:induction false} StopTaken(c: Db, q: seq<Entry>, f: Filter, n: nat, k: nat)
    requires k <= |q| && |All(c, q[..k], f)| <= n && (k == |q| || |All(c, q[..k], f)| == n)
    ensures Taken(c, q, f, n) == All(c, q[..k], f)
    ensures Kept(c, q, f, n) == Others(c, q[..k], f) + q[k..]
  {
    if k == |q| {
      assert q[..k] == q;
      Unreached(c, q, f, n, |q|);
    } else {
      var q0 := q[..|q| - 1];
      assert q0[..k] == q[..k];
      StopTaken(c, q0, f, n, k);
      assert q0[k..] + [q[|q| - 1]] == q[k..];
    }
  }

  lemma {:induction false} Unreached(c: Db, q: seq<Entry>, f: Filter, n: nat, m: nat)
    requires |Taken(c, q, f, m)| <= n && |q| <= m
    ensures Taken(c, q, f, n) == Taken(c, q, f, m) && Kept(c, q, f, n) == Kept(c, q, f, m)
  {
    if q != [] {
      Unreached(c, q[..|q| - 1], f, n, m);
    }
  }

  lemma IndexedSet(q: seq<BQUE>, es: seq<Entry>, htab: map<int, BQUE>, k: nat, e: Entry)
    requires Indexed(q, es, htab) && k < |q| && e.pid == es[k].pid
    ensures Indexed(q, es[k := e], htab)
  {
  }

  lemma IndexedBoth(a: seq<BQUE>, ea: seq<Entry>, b: seq<BQUE>, eb: seq<Entry>, htab: map<int, BQUE>)
    requires Indexed(a, ea, htab) && Indexed(b, eb, htab)
    ensures Indexed(a + b, ea + eb, htab) && Indexed([], [], htab)
  {
  }

  lemma DroppedSet(q: seq<Entry>, pid: int, e: Entry)
    requires Find(q, pid) < |q|
    ensures var k := Find(q, pid); OmitAt(q[k := e], k) == Without(q, pid)
  {
    hide Find;
  }

  lemma ReplacedSet(q: seq<Entry>, e: Entry)
    requires Find(q, e.pid) < |q|
    ensures q[Find(q, e.pid) := e] == Replaced(q, e)
  {
  }

  lemma GiveNone(c: Db, s: State)
    ensures GiveAll(c, s, s.wq[..0]) == s
  {
  }

  lemma GiveSnoc(c: Db, s: State, q: seq<Entry>, k: nat)
    requires k < |q|
    ensures Give(c, GiveAll(c, s, q[..k]).(wq := q[k..]), q[k]).(wq := q[k + 1..])
         == GiveAll(c, s, q[..k + 1]).(wq := q[k + 1..])
  {
    assert q[..k + 1][..k] == q[..k];
  }

  lemma ExpireNone(c: Db, s: State)
    ensures ExpireAll(c, s, []) == s
  {
  }

  lemma ExpireSnoc(c: Db, s: State, es: seq<Entry>, sq: seq<Entry>, e: Entry)
    ensures ExpireOne(c, ExpireAll(c, s, es).(sq := sq), e).(sq := [])
         == ExpireAll(c, s, es + [e]).(sq := [])
  {
    assert (es + [e])[..|es|] == es;
  }

  lemma {:induction false} GiveAllAside(c: Db, s: State, es: seq<Entry>, w: seq<Entry>)
    ensures GiveAll(c, s.(wq := w), es) == GiveAll(c, s, es).(wq := w)
  {
    if es != [] {
      GiveAllAside(c, s, es[..|es| - 1], w);
    }
  }

  /** The passes of cque_do_second one after the other. */
  lemma SecondSteps(c: Db, s: State, now: int)
    requires s.env.dequeue
    ensures var s1 := Promote(s);
      var n := DueCount(s1.wq, now);
      var s2 := GiveAll(c, s1, s1.wq[..n]).(wq := s1.wq[n..]);
      SecondPass(c, s, now) == ExpireAll(c, s2, All(c, s2.sq, TimedOut(now))).(sq := Others(c, s2.sq, TimedOut(now)))
  {
    hide GiveAll, ExpireAll, All, Others;
    var s1 := Promote(s);
    var n := DueCount(s1.wq, now);
    GiveAllAside(c, s1, s.wq[..n], s.wq[n..]);
    GiveAllFrame(c, s1, s.wq[..n]);
  }

  lemma {:induction false} ImminentStays(q: seq<Entry>, now: int, least: int, timed: bool, k: nat, n: nat)
    requires k <= n <= |q| && Soonest(q, now, least, timed, k).None?
    ensures Soonest(q, now, least, timed, n).None?
  {
    if k < n {
      ImminentStays(q, now, least, timed, k, n - 1);
    }
  }

  lemma {:induction false} LegalPrefix(c: Db, s: State, ops: seq<Op>, i: nat)
    requires LegalOps(c, s, ops) && i <= |ops|
    ensures LegalOps(c, s, ops[..i])
  {
    if i == |ops| {
      assert ops[..i] == ops;
    } else {
      assert ops[..|ops| - 1][..i] == ops[..i];
      LegalPrefix(c, s, ops[..|ops| - 1], i);
    }
  }

  /** The next operation of a legal script is legal where it is performed. */
  lemma PerformNext(c: Db, s: State, ops: seq<Op>, i: nat)
    requires c.Consistent() && Inv(c, s) && LegalOps(c, s, ops) && i < |ops|
    ensures var u := Perform(c, s, ops[..i]);
      Structure(c, u) && Legal(c, u, ops[i]) && Perform(c, s, ops[..i + 1]) == Step(c, u, ops[i])
  {
    hide Inv, Legal, Step;
    LegalPrefix(c, s, ops, i + 1);
    assert ops[..i + 1][..i] == ops[..i];
    PerformKeeps(c, s, ops[..i]);
    InvStructure(c, Perform(c, s, ops[..i]));
  }

  lemma SettledIs(c: Db, s: State)
    requires s.pq != []
    ensures s.pq[0].player >= 0 && s.pq[0].player !in s.env.going ==>
      var u := Settled(c, s);
      u.hist.ran == s.hist.ran &&
      Launch(c, s) == if s.pq[0].player in s.env.halted then u else u.(hist := u.hist.(ran := u.hist.ran + [s.pq[0].id]))
  {
  }

  lemma {:induction false} LegalRunPrefix(c: Db, acts: seq<Act>, i: nat)
    requires LegalRun(c, Empty, acts) && i <= |acts|
    ensures LegalRun(c, Empty, acts[..i])
  {
    if i == |acts| {
      assert acts[..i] == acts;
    } else {
      assert acts[..|acts| - 1][..i] == acts[..i];
      LegalRunPrefix(c, acts[..|acts| - 1], i);
    }
  }

  /** The next act of a legal run is legal where it happens. */
  lemma RunNext(c: Db, acts: seq<Act>, i: nat)
    requires LegalRun(c, Empty, acts) && i < |acts|
    ensures var u := Run(c, Empty, acts[..i]);
      LegalAct(c, u, acts[i]) && Run(c, Empty, acts[..i + 1]) == Apply(c, u, acts[i])
  {
    hide LegalAct, Apply;
    LegalRunPrefix(c, acts, i + 1);
    assert acts[..i + 1][..i] == acts[..i];
  }

  lemma IndexedMore(q: seq<BQUE>, es: seq<Entry>, htab: map<int, BQUE>, pid: int, n: BQUE)
    requires Indexed(q, es, htab) && pid !in htab
    ensures Indexed(q, es, htab[pid := n])
  {
  }

  /** A PID found is free. */
  lemma {:induction false} ScanFree(c: Db, table: map<int, nat>, pid: int, n: nat)
    ensures PidScan(c, table, pid, n) == 0 || PidScan(c, table, pid, n) !in table
    decreases n
  {
    if n != 0 {
      ScanFree(c, table, NextPid(c, pid), n - 1);
    }
  }

  lemma HaltSemsSnoc(s: State, es: seq<Entry>, sq: seq<Entry>, e: Entry)
    ensures HaltSem(HaltSems(s, es).(sq := sq), e).(sq := []) == HaltSems(s, es + [e]).(sq := [])
  {
    assert (es + [e])[..|es|] == es;
  }

  lemma {:induction false} HaltSemsAside(s: State, es: seq<Entry>, t: State)
    requires t == s.(pq := t.pq, oq := t.oq, wq := t.wq)
    ensures HaltSems(t, es) == HaltSems(s, es).(pq := t.pq, oq := t.oq, wq := t.wq)
  {
    if es != [] {
      HaltSemsAside(s, es[..|es| - 1], t);
    }
  }

  /** The four walks one after the other. */
  lemma HaltListsSteps(c: Db, s: State, f: Filter, s1: State, s2: State)
    requires s1 == s.(pq := Tombed(c, s.pq, f), oq := Tombed(c, s.oq, f))
    requires s2 == DeleteAll(s1, All(c, s.wq, f)).(wq := Others(c, s.wq, f))
    ensures HaltSems(s2, All(c, s.sq, f)).(sq := Others(c, s.sq, f)) == HaltLists(c, s, f)
  {
    hide Tombed, All, Others, HaltSems, DeleteAll;
    DeleteAllFrame(s, All(c, s.wq, f));
    DeleteAllFrame(s1, All(c, s.wq, f));
    HaltSemsFrame(DeleteAll(s, All(c, s.wq, f)), All(c, s.sq, f));
    HaltSemsAside(DeleteAll(s, All(c, s.wq, f)), All(c, s.sq, f), s2);
  }

  lemma TallyStarts(c: Db, tally: array<int>)
    requires tally.Length == c.dbTop && forall o :: 0 <= o < tally.Length ==> tally[o] == 0
    ensures Tallied(c, tally, [])
  {
  }

  lemma NoTally(c: Db)
    ensures Tallied(c, null, [])
  {
  }

  /** Draining an entry does not look at the semaphore queue. */
  lemma DrainAside(c: Db, s: State, e: Entry)
    ensures forall q: seq<Entry> :: DrainOne(c, s.(sq := q), e) == DrainOne(c, s, e).(sq := q)
  {
  }

  /** How cque_setup_que ends, in terms of the state after it has paid and counted. */
  lemma SetupUnfolds(c: Db, s: State, player: Dbref, cause: Dbref, luck: Luck)
    ensures var o, pid := c.owner(player), PidScan(c, s.pids.table, s.pids.top, c.maxPid);
      var u := Charged(c, s, player, luck);
      var w := Burn(c, Leak(c, u, o), player, Cost(c, luck));
      var h := HaltQue(c, w, o, NOTHING);
      && u.pids == s.pids
      && Setup(c, s, player, cause, luck) ==
           if player in s.env.halted || !Payfor(c, s, player, Cost(c, luck)).1 then (s, None)
           else if NextQueue(c, s, o) > c.queueMax(o) then (h.(env := h.env.(halted := h.env.halted + {player})), None)
           else if pid == 0 then (w, None)
           else if !luck.fits then (w.(pids := u.pids.(top := NextPid(c, pid))), None)
           else
             (Burn(c, u, player, Cost(c, luck) - c.waitCost).(
                pids := Pids(u.pids.table[pid := u.pids.nextId], NextPid(c, pid), u.pids.nextId + 1)),
              Some(Entry(u.pids.nextId, player, cause, pid, 0, NOTHING, 0)))
  {
    hide HaltQue, PidScan;
    AccountsOnly(c, s, player, luck);
  }

  /** How many matching entries a notify takes. */
  lemma TakenLimit(c: Db, q: seq<Entry>, f: Filter, key: NotifyKey, count: int)
    ensures var w, most := Count(c, q, f), if count < 1 then 1 else count;
      |Taken(c, q, f, Limit(q, key, count))| == if key == NFY_NFY && most < w then most else w
  {
    hide Taken, Count;
    TakenCount(c, q, f, Limit(q, key, count));
    TakenCount(c, q, f, |q| + 1);
  }
}
