/** What each queue operation does to the scheduler's state, as functions. The methods
    of class CommandQueue are proved against them; the other Queue modules prove what
    every run keeps. Folds take the last element off, as the loops meet the elements. */
module QueueSpec {
  import opened QueueTypes

  // ---- lists of entries

  /** The first `n` entries of `q` that `f` picks. */
  function Taken(c: Db, q: seq<Entry>, f: Filter, n: nat): (r: seq<Entry>)
    ensures |r| <= |q| && |r| <= n
  {
    if q == [] then [] else
    var r := Taken(c, q[..|q| - 1], f, n);
    if f.Picks(c, q[|q| - 1]) && |r| < n then r + [q[|q| - 1]] else r
  }

  /** `q` without the entries `Taken` takes. */
  function Kept(c: Db, q: seq<Entry>, f: Filter, n: nat): (r: seq<Entry>)
    ensures |r| == |q| - |Taken(c, q, f, n)|
  {
    if q == [] then [] else
    var r := Kept(c, q[..|q| - 1], f, n);
    if f.Picks(c, q[|q| - 1]) && |Taken(c, q[..|q| - 1], f, n)| < n then r else r + [q[|q| - 1]]
  }

  function All(c: Db, q: seq<Entry>, f: Filter): seq<Entry> {
    Taken(c, q, f, |q|)
  }

  function Others(c: Db, q: seq<Entry>, f: Filter): seq<Entry> {
    Kept(c, q, f, |q|)
  }

  /** Entries picked by `f` become tombstones; they stay linked. */
  function Tombed(c: Db, q: seq<Entry>, f: Filter): (r: seq<Entry>)
    ensures |r| == |q|
  {
    if q == [] then [] else
    var e := q[|q| - 1];
    Tombed(c, q[..|q| - 1], f) + [if f.Picks(c, e) then e.(player := NOTHING) else e]
  }

  function Ids(q: seq<Entry>): (r: seq<nat>)
    ensures |r| == |q|
  {
    if q == [] then [] else Ids(q[..|q| - 1]) + [q[|q| - 1].id]
  }

  function Count(c: Db, q: seq<Entry>, f: Filter): nat {
    if q == [] then 0 else Count(c, q[..|q| - 1], f) + if f.Picks(c, q[|q| - 1]) then 1 else 0
  }

  /** The length of the longest prefix due at `now`, given that `i` entries are. */
  function DueFrom(q: seq<Entry>, now: int, i: nat): (n: nat)
    requires i <= |q|
    ensures i <= n <= |q|
    ensures forall j :: i <= j < n ==> q[j].waittime <= now
    ensures n < |q| ==> q[n].waittime > now
    decreases |q| - i
  {
    if i < |q| && q[i].waittime <= now then DueFrom(q, now, i + 1) else i
  }

  function DueCount(q: seq<Entry>, now: int): (n: nat)
    ensures n <= |q|
    ensures forall j :: 0 <= j < n ==> q[j].waittime <= now
    ensures n < |q| ==> q[n].waittime > now
  {
    DueFrom(q, now, 0)
  }

  /** Insertion into the wait queue: after every entry due no later. */
  function Insert(q: seq<Entry>, e: Entry): (r: seq<Entry>)
    ensures |r| == |q| + 1
  {
    var i := DueCount(q, e.waittime);
    q[..i] + [e] + q[i..]
  }

  function FindFrom(q: seq<Entry>, pid: int, i: nat): (n: nat)
    requires i <= |q|
    ensures i <= n <= |q|
    ensures n < |q| ==> q[n].pid == pid
    ensures forall j :: i <= j < n ==> q[j].pid != pid
    decreases |q| - i
  {
    if i == |q| || q[i].pid == pid then i else FindFrom(q, pid, i + 1)
  }

  /** The position of the entry with this PID, or |q|. */
  function Find(q: seq<Entry>, pid: int): (i: nat)
    ensures i <= |q|
    ensures i < |q| ==> q[i].pid == pid
    ensures forall j :: 0 <= j < i ==> q[j].pid != pid
  {
    FindFrom(q, pid, 0)
  }

  function Without(q: seq<Entry>, pid: int): (r: seq<Entry>) {
    var i := Find(q, pid);
    if i < |q| then q[..i] + q[i + 1..] else q
  }

  function Replaced(q: seq<Entry>, e: Entry): (r: seq<Entry>) {
    var i := Find(q, e.pid);
    if i < |q| then q[i := e] else q
  }

  // ---- counters and money

  /** The deposits of `n` entries: waitCost times n, by repeated addition. */
  function Deposit(c: Db, n: nat): nat {
    if n == 0 then 0 else Deposit(c, n - 1) + c.waitCost
  }

  function AQueue(c: Db, s: State, o: Dbref, adj: int): State {
    if c.goodOwner(o) then s.(acct := s.acct.(queue := Plus(s.acct.queue, o, adj))) else s
  }

  function SQueueZero(c: Db, s: State, o: Dbref): State {
    if c.goodOwner(o) then s.(acct := s.acct.(queue := s.acct.queue[o := 0], leaked := s.acct.leaked[o := 0])) else s
  }

  function Giveto(c: Db, s: State, who: Dbref, n: int): State {
    if c.Free(who) then s else s.(acct := s.acct.(money := Plus(s.acct.money, c.owner(who), n)))
  }

  function Payfor(c: Db, s: State, who: Dbref, n: int): (r: (State, bool)) {
    if c.Free(who) then (s, true)
    else if Get(s.acct.money, c.owner(who)) < 0 || Get(s.acct.money, c.owner(who)) < n then (s, false)
    else (s.(acct := s.acct.(money := Plus(s.acct.money, c.owner(who), -n))), true)
  }

  function AddSem(s: State, thing: Dbref, attr: int, am: int): State {
    s.(sem := Plus(s.sem, (thing, attr), am))
  }

  // history only
  function Burn(c: Db, s: State, who: Dbref, n: int): State {
    if c.Free(who) then s else s.(acct := s.acct.(burnt := Plus(s.acct.burnt, c.owner(who), n)))
  }

  function Leak(c: Db, s: State, o: Dbref): State {
    s.(acct := s.acct.(leaked := Plus(s.acct.leaked, o, 1)))
  }

  function Refunded(s: State, ids: seq<nat>): State {
    s.(hist := s.hist.(refunded := s.hist.refunded + ids))
  }

  // ---- threading entries

  /** cque_give_que: onto the run queue, or the object queue for object-caused entries. */
  function Give(c: Db, s: State, e: Entry): State {
    var g := e.(waittime := 0);
    if c.isPlayer(e.cause) then
      s.(pq := s.pq + [g], hist := s.hist.(entered := s.hist.entered + [e.id]))
    else
      s.(oq := s.oq + [g], hist := s.hist.(toObject := s.hist.toObject + [e.id]))
  }

  /** Into the wait queue. */
  function Thread(s: State, e: Entry): State {
    s.(wq := Insert(s.wq, e), hist := s.hist.(threaded := s.hist.threaded + [e.id]))
  }

  function GiveAll(c: Db, s: State, es: seq<Entry>): State {
    if es == [] then s else Give(c, GiveAll(c, s, es[..|es| - 1]), es[|es| - 1])
  }

  /** cque_delete_qentry, for an entry already unlinked. */
  function Delete(s: State, e: Entry): State {
    s.(pids := s.pids.(table := s.pids.table - {e.pid}))
  }

  // ---- PIDs

  function NextPid(c: Db, pid: int): int {
    if pid < c.maxPid then pid + 1 else 1
  }

  /** The scan of cque_qpid_next: `n` PIDs left to try, starting at `pid`. */
  function PidScan(c: Db, table: map<int, nat>, pid: int, n: nat): int
    decreases n
  {
    if n == 0 then 0
    else if pid !in table then pid
    else PidScan(c, table, NextPid(c, pid), n - 1)
  }

  // ---- halting

  function DeleteAll(s: State, es: seq<Entry>): State {
    if es == [] then s else Delete(DeleteAll(s, es[..|es| - 1]), es[|es| - 1])
  }

  function HaltSem(s: State, e: Entry): State {
    Delete(AddSem(s, e.sem, e.attr, -1), e)
  }

  function HaltSems(s: State, es: seq<Entry>): State {
    if es == [] then s else HaltSem(HaltSems(s, es[..|es| - 1]), es[|es| - 1])
  }

  function HaltedEntries(c: Db, s: State, f: Filter): seq<Entry> {
    All(c, s.pq, f) + All(c, s.oq, f) + All(c, s.wq, f) + All(c, s.sq, f)
  }

  /** The four list walks of halt_que. */
  function HaltLists(c: Db, s: State, f: Filter): State {
    var s1 := DeleteAll(s, All(c, s.wq, f));
    HaltSems(s1, All(c, s.sq, f)).(
      pq := Tombed(c, s.pq, f), oq := Tombed(c, s.oq, f),
      wq := Others(c, s.wq, f), sq := Others(c, s.sq, f))
  }

  /** Halt-all credits the owners one by one, for owners below `n`. */
  function CreditOwners(c: Db, s: State, es: seq<Entry>, n: nat): State {
    if n == 0 then s else
    var t := CreditOwners(c, s, es, n - 1);
    var k := Count(c, es, LiveOf(n - 1));
    if k != 0 then SQueueZero(c, Giveto(c, t, n - 1, Deposit(c, k)), n - 1) else t
  }

  /** The end of halt_que: deposits and queue counters. */
  function HaltCredit(c: Db, s: State, es: seq<Entry>, ptarg: Dbref, otarg: Dbref): State {
    if ptarg == NOTHING && otarg == NOTHING then CreditOwners(c, s, es, c.dbTop)
    else
      var p := if ptarg == NOTHING then c.owner(otarg) else ptarg;
      var t := Giveto(c, s, p, Deposit(c, |es|));
      if otarg == NOTHING then SQueueZero(c, t, p) else AQueue(c, t, p, -|es|)
  }

  function HaltQue(c: Db, s: State, ptarg: Dbref, otarg: Dbref): State {
    var f := Wanted(ptarg, otarg);
    var es := HaltedEntries(c, s, f);
    HaltCredit(c, Refunded(HaltLists(c, s, f), Ids(es)), es, ptarg, otarg)
  }

  // ---- setting up and routing

  function Cost(c: Db, luck: Luck): nat {
    c.waitCost + if c.waitCost != 0 && luck.surcharge then 1 else 0
  }

  /** Paying and counting, by cque_setup_que up to the quota test. */
  function Charged(c: Db, s: State, player: Dbref, luck: Luck): State {
    AQueue(c, Payfor(c, s, player, Cost(c, luck)).0, c.owner(player), 1)
  }

  /** The same when no entry comes of it: the accounts record the loss. */
  function Wasted(c: Db, s: State, player: Dbref, luck: Luck): State {
    Burn(c, Leak(c, Charged(c, s, player, luck), c.owner(player)), player, Cost(c, luck))
  }

  /** The same when an entry comes of it: only the surcharge is lost. */
  function Bought(c: Db, s: State, player: Dbref, luck: Luck): State {
    Burn(c, Charged(c, s, player, luck), player, Cost(c, luck) - c.waitCost)
  }

  /** What a_Queue(o, 1) would return. */
  function NextQueue(c: Db, s: State, o: Dbref): int {
    if c.goodOwner(o) then Get(s.acct.queue, o) + 1 else 0
  }

  /** cque_setup_que: the new state and, if it succeeds, the entry (not yet threaded). */
  function Setup(c: Db, s: State, player: Dbref, cause: Dbref, luck: Luck): (State, Option<Entry>) {
    var o := c.owner(player);
    if player in s.env.halted || !Payfor(c, s, player, Cost(c, luck)).1 then (s, None)
    else if NextQueue(c, s, o) > c.queueMax(o) then
      var h := HaltQue(c, Wasted(c, s, player, luck), o, NOTHING);
      (h.(env := h.env.(halted := h.env.halted + {player})), None)
    else
      var pid := PidScan(c, s.pids.table, s.pids.top, c.maxPid);
      if pid == 0 then (Wasted(c, s, player, luck), None)
      else if !luck.fits then (Wasted(c, s, player, luck).(pids := s.pids.(top := NextPid(c, pid))), None)
      else
        (Bought(c, s, player, luck).(
           pids := Pids(s.pids.table[pid := s.pids.nextId], NextPid(c, pid), s.pids.nextId + 1)),
         Some(Entry(s.pids.nextId, player, cause, pid, 0, NOTHING, 0)))
  }

  /** The wait time of a new entry, clamped to the range of an int. */
  function WaitTime(wait: int, now: int): int {
    if wait > 0 then (if wait > INT_MAX - now then INT_MAX else now + wait)
    else if wait < 0 then (if wait < INT_MIN - now then INT_MIN else now + wait)
    else 0
  }

  /** The routing at the end of cque_wait_que. */
  function Route(c: Db, s: State, e: Entry, wait: int): State {
    if e.sem != NOTHING then s.(sq := s.sq + [e])
    else if wait <= 0 then Give(c, s, e)
    else Thread(s, e)
  }

  function WaitQue(c: Db, s: State, player: Dbref, cause: Dbref, wait: int, sem: Dbref, attr: int,
                   now: int, luck: Luck): State
  {
    if !s.env.interp then s else
    var (s1, r) := Setup(c, s, player, cause, luck);
    if r.None? then s1
    else Route(c, s1, r.value.(waittime := WaitTime(wait, now), sem := sem, attr := attr), wait)
  }

  /** The semaphore branch of cque_do_wait, after name matching. */
  function WaitOnSem(c: Db, s: State, player: Dbref, cause: Dbref, thing: Dbref, attr: int, wait: int,
                     now: int, luck: Luck): State
  {
    var s1 := AddSem(s, thing, attr, 1);
    if Get(s1.sem, (thing, attr)) <= 0 then WaitQue(c, s1, player, cause, 0, NOTHING, attr, now, luck)
    else WaitQue(c, s1, player, cause, wait, thing, attr, now, luck)
  }

  // ---- notifying

  function DrainOne(c: Db, s: State, e: Entry): State {
    Refunded(Delete(AQueue(c, Giveto(c, s, e.player, c.waitCost), c.owner(e.player), -1), e), [e.id])
  }

  function DrainAll(c: Db, s: State, es: seq<Entry>): State {
    if es == [] then s else DrainOne(c, DrainAll(c, s, es[..|es| - 1]), es[|es| - 1])
  }

  function Limit(q: seq<Entry>, key: NotifyKey, count: int): nat {
    if key == NFY_NFY then (if count < 1 then 1 else count) else |q|
  }

  /** cque_nfy_que. */
  function NotifySem(c: Db, s: State, thing: Dbref, attr: int, key: NotifyKey, count: int): State {
    var attrnum := if attr != 0 then attr else A_SEMAPHORE;
    var num := if attr != 0 then Get(s.sem, (thing, attr)) else 1;
    var n := Limit(s.sq, key, count);
    var f := OnSem(thing, attr);
    var s1 :=
      if num <= 0 then s
      else
        var es := Taken(c, s.sq, f, n);
        var s0 := if key == NFY_DRAIN then DrainAll(c, s, es) else GiveAll(c, s, es);
        s0.(sq := Kept(c, s.sq, f, n));
    if key == NFY_NFY then AddSem(s1, thing, attrnum, -count)
    else s1.(sem := s1.sem[(thing, attrnum) := 0])
  }

  // ---- single entries by PID

  function Lookup(s: State, pid: int): Option<Entry> {
    var q := s.wq + s.sq + s.pq + s.oq;
    var i := Find(q, pid);
    if i < |q| then Some(q[i]) else None
  }

  function MarkHalted(q: seq<Entry>, pid: int): seq<Entry> {
    var i := Find(q, pid);
    if i < |q| then q[i := q[i].(player := NOTHING)] else q
  }

  /** cque_do_halt_pid. It unlinks from the wait or the semaphore queue only. */
  function HaltOne(c: Db, s: State, pid: int, allowed: bool): State {
    var r := Lookup(s, pid);
    if pid !in s.pids.table || r.None? || r.value.player == NOTHING || !allowed then s else
    var e := r.value;
    var victim := c.owner(e.player);
    var s1 := s.(pq := MarkHalted(s.pq, pid), oq := MarkHalted(s.oq, pid));
    var s2 := if e.sem == NOTHING then s1.(wq := Without(s1.wq, pid))
              else AddSem(s1.(sq := Without(s1.sq, pid)), e.sem, e.attr, -1);
    Refunded(AQueue(c, Giveto(c, Delete(s2, e), victim, c.waitCost), victim, -1), [e.id])
  }

  /** The new wait time of a retimed entry. */
  function NewTime(old_: int, mode: TimeMode, val: int, now: int): int {
    if mode == Until then (if val < 0 then now else val) else
    var base := if mode == Plain then now else old_;
    var t := if (val > 0 && base > INT_MAX - val) || (val < 0 && base < INT_MIN - val)
             then (if val > 0 then INT_MAX else INT_MIN)
             else base + val;
    if t < 0 then (if mode == Decrement then now else INT_MAX) else t
  }

  /** cque_do_wait_pid. */
  function RetimeOne(c: Db, s: State, pid: int, mode: TimeMode, val: int, now: int, allowed: bool): State {
    var r := Lookup(s, pid);
    if pid !in s.pids.table || r.None? || r.value.player == NOTHING || !allowed then s else
    var e := r.value;
    if e.sem != NOTHING && e.waittime == 0 then s else
    var e' := e.(waittime := NewTime(e.waittime, mode, val, now));
    if e.sem == NOTHING then Thread(s.(wq := Without(s.wq, pid)), e')
    else s.(sq := Replaced(s.sq, e'))
  }

  // ---- the once-a-second pass

  function Promote(s: State): State {
    s.(pq := s.pq + s.oq, oq := [],
       hist := s.hist.(entered := s.hist.entered + Ids(s.oq), promoted := s.hist.promoted + Ids(s.oq)))
  }

  function ExpireOne(c: Db, s: State, e: Entry): State {
    Give(c, AddSem(s, e.sem, if e.attr != 0 then e.attr else A_SEMAPHORE, -1), e.(sem := NOTHING))
  }

  function ExpireAll(c: Db, s: State, es: seq<Entry>): State {
    if es == [] then s else ExpireOne(c, ExpireAll(c, s, es[..|es| - 1]), es[|es| - 1])
  }

  /** cque_do_second. */
  function SecondPass(c: Db, s: State, now: int): State {
    if !s.env.dequeue then s else
    var s1 := Promote(s);
    var n := DueCount(s.wq, now);
    var s2 := GiveAll(c, s1.(wq := s.wq[n..]), s.wq[..n]);
    ExpireAll(c, s2, All(c, s.sq, TimedOut(now))).(sq := Others(c, s.sq, TimedOut(now)))
  }

  // ---- running commands

  function Step(c: Db, s: State, op: Op): State {
    match op
    case Wait(player, cause, wait, attr, now, luck) =>
      WaitQue(c, s, player, cause, wait, NOTHING, attr, now, luck)
    case WaitOn(player, cause, thing, attr, wait, now, luck) =>
      WaitOnSem(c, s, player, cause, thing, attr, wait, now, luck)
    case Notify(thing, attr, key, count) => NotifySem(c, s, thing, attr, key, count)
    case Halt(p, o) => HaltQue(c, s, p, o)
    case HaltPid(pid, allowed) => HaltOne(c, s, pid, allowed)
    case Retime(pid, mode, val, now, allowed) => RetimeOne(c, s, pid, mode, val, now, allowed)
    case SetHalted(obj, on) => s.(env := s.env.(halted := if on then s.env.halted + {obj} else s.env.halted - {obj}))
    case SetGoing(obj, on) => s.(env := s.env.(going := if on then s.env.going + {obj} else s.env.going - {obj}))
    case SetFlags(interp, dequeue) => s.(env := s.env.(interp := interp, dequeue := dequeue))
    case Income(a, n) => 
      s.(acct := s.acct.(money := Plus(s.acct.money, a, n), endow := Plus(s.acct.endow, a, n)))
  }

  function Perform(c: Db, s: State, ops: seq<Op>): State {
    if ops == [] then s else Step(c, Perform(c, s, ops[..|ops| - 1]), ops[|ops| - 1])
  }

  /** The part of one iteration of cque_do_top before the head is unlinked. */
  function Launch(c: Db, s: State): State
    requires s.pq != []
  {
    var e := s.pq[0];
    if e.player >= 0 && e.player !in s.env.going then
      var t := Refunded(AQueue(c, Giveto(c, s, e.player, c.waitCost), c.owner(e.player), -1), [e.id]);
      var u := t.(pq := t.pq[0 := e.(player := NOTHING)]);
      if e.player in s.env.halted then u else u.(hist := u.hist.(ran := u.hist.ran + [e.id]))
    else if e.player >= 0 then
      var t := Burn(c, Leak(c, s, c.owner(e.player)), e.player, c.waitCost);
      t.(hist := t.hist.(lost := t.hist.lost + [e.id]))
    else s
  }

  predicate Runs(s: State)
    requires s.pq != []
  {
    s.pq[0].player >= 0 && s.pq[0].player !in s.env.going && s.pq[0].player !in s.env.halted
  }

  /** Unlinking and deleting the head of the run queue. */
  function Pop(s: State): State
    requires s.pq != []
  {
    Delete(s, s.pq[0]).(pq := s.pq[1..], hist := s.hist.(popped := s.hist.popped + [s.pq[0].id]))
  }

  function RunHead(c: Db, s: State, script: seq<Op>): State
    requires s.pq != []
  {
    var u := Launch(c, s);
    var t := if Runs(s) then Perform(c, u, script) else u;
    if t.pq != [] then Pop(t) else t
  }

  /** cque_do_top; a command without a script does nothing to the queue. */
  function TopLoop(c: Db, s: State, n: nat, scripts: seq<seq<Op>>): State
    decreases n
  {
    if n == 0 || s.pq == [] then s
    else
      TopLoop(c, RunHead(c, s, if scripts != [] then scripts[0] else []), n - 1,
              if scripts != [] then scripts[1..] else [])
  }

  function Apply(c: Db, s: State, a: Act): State {
    match a
    case Do(op) => Step(c, s, op)
    case Second(now) => SecondPass(c, s, now)
    case Top(n, scripts) => if s.env.dequeue then TopLoop(c, s, n, scripts) else s
  }

  function Run(c: Db, s: State, acts: seq<Act>): State {
    if acts == [] then s else Apply(c, Run(c, s, acts[..|acts| - 1]), acts[|acts| - 1])
  }

  const Empty: State :=
    State([], [], [], [], Pids(map[], 1, 0), map[], Accounts(map[], map[], map[], map[], map[]),
          Env({}, {}, true, true), History([], [], [], [], [], [], [], []))
}
