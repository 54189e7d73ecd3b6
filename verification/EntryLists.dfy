/** The linked lists the queues are made of: records, the list that holds them, and the
    steps by which the program links and unlinks them. */
module EntryLists {
  import opened QueueTypes
  import opened QueueSpec
  import opened QueueLists

  class BQUE {
    var next: BQUE?
    var e: Entry

    constructor (e: Entry)
      ensures this.e == e && next == null
    {
      this.e := e;
      this.next := null;
    }
  }

  function At(q: seq<BQUE>, i: int): BQUE? {
    if 0 <= i < |q| then q[i] else null
  }

  function OmitAt<T>(q: seq<T>, k: nat): (r: seq<T>)
    requires k < |q|
    ensures |r| == |q| - 1
    ensures forall i {:trigger r[i]} :: 0 <= i < k ==> r[i] == q[i]
    ensures forall i {:trigger r[i]} :: k <= i < |r| ==> r[i] == q[i + 1]
  {
    q[..k] + q[k + 1..]
  }

  function AddAt<T>(q: seq<T>, k: nat, x: T): (r: seq<T>)
    requires k <= |q|
    ensures |r| == |q| + 1
    ensures r[k] == x
    ensures forall i {:trigger r[i]} :: 0 <= i < k ==> r[i] == q[i]
    ensures forall i {:trigger r[i]} :: k < i < |r| ==> r[i] == q[i - 1]
  {
    q[..k] + [x] + q[k..]
  }

  /** Whether `tally`, which only a global halt has, holds what each owner had in `es`. */
  ghost predicate Tallied(c: Db, tally: array?<int>, es: seq<Entry>)
    reads tally
  {
    tally != null ==>
      tally.Length == c.dbTop && forall o :: 0 <= o < c.dbTop ==> tally[o] == Count(c, es, LiveOf(o))
  }

  lemma CountSnoc(c: Db, es: seq<Entry>, e: Entry)
    requires e.player != NOTHING
    ensures forall o: Dbref :: Count(c, es + [e], LiveOf(o)) == Count(c, es, LiveOf(o)) + if o == c.owner(e.player) then 1 else 0
  {
    forall o: Dbref
      ensures Count(c, es + [e], LiveOf(o)) == Count(c, es, LiveOf(o)) + if o == c.owner(e.player) then 1 else 0
    {
      Snoc(c, es, e, LiveOf(o));
    }
  }

  /** _cque_halt_record. */
  method HaltRecord(c: Db, tally: array?<int>, e: Entry, ghost es: seq<Entry>)
    requires c.Consistent() && c.good(e.player) && Tallied(c, tally, es)
    modifies tally
    ensures Tallied(c, tally, es + [e])
  {
    CountSnoc(c, es, e);
    hide Count;
    if tally != null {
      var o := c.owner(e.player);
      assert c.goodOwner(o) && c.good(o);
      tally[o] := tally[o] + 1;
    }
  }

  /** The entries `f` picks among the first k + 1, and the others, from those among the first k. */
  lemma NextPicked(c: Db, q: seq<Entry>, f: Filter, k: nat)
    requires k < |q|
    ensures var e := q[k];
      && All(c, q[..k + 1], f) == (if f.Picks(c, e) then All(c, q[..k], f) + [e] else All(c, q[..k], f))
      && Others(c, q[..k + 1], f) == (if f.Picks(c, e) then Others(c, q[..k], f) else Others(c, q[..k], f) + [e])
      && Tombed(c, q[..k + 1], f) == Tombed(c, q[..k], f) + [if f.Picks(c, e) then e.(player := NOTHING) else e]
  {
    assert q[..k + 1][..k] == q[..k];
    Bound(c, q[..k], f, k, k + 1);
  }

  /** One step of a walk that leaves `done` behind it. */
  lemma WalkStep<T>(now: seq<T>, done: seq<T>, q: seq<T>, k: nat)
    requires k < |q| && now == done + q[k..]
    ensures |done| < |now| && now[|done|] == q[k]
    ensures now == (done + [q[k]]) + q[k + 1..]
    ensures forall x :: now[|done| := x] == (done + [x]) + q[k + 1..]
    ensures OmitAt(now, |done|) == done + q[k + 1..]
  {
  }

  /** One step of a walk that takes out the entries `f` picks; `now` is the list so far. */
  lemma WalkOn(c: Db, now: seq<Entry>, q: seq<Entry>, f: Filter, k: nat)
    requires k < |q| && now == Others(c, q[..k], f) + q[k..]
    ensures |Others(c, q[..k], f)| < |now| && now[|Others(c, q[..k], f)|] == q[k]
    ensures f.Picks(c, q[k]) ==>
      && OmitAt(now, |Others(c, q[..k], f)|) == Others(c, q[..k + 1], f) + q[k + 1..]
      && |Others(c, q[..k + 1], f)| == |Others(c, q[..k], f)|
    ensures !f.Picks(c, q[k]) ==>
      && now == Others(c, q[..k + 1], f) + q[k + 1..]
      && |Others(c, q[..k + 1], f)| == |Others(c, q[..k], f)| + 1
  {
    NextPicked(c, q, f, k);
    hide Taken, Kept, Tombed;
    WalkStep(now, Others(c, q[..k], f), q, k);
  }

  lemma NextTaken(c: Db, q: seq<Entry>, f: Filter, k: nat, es: seq<Entry>)
    requires k < |q|
    ensures f.Picks(c, q[k]) ==>
      && All(c, q[..k + 1], f) == All(c, q[..k], f) + [q[k]]
      && es + All(c, q[..k], f) + [q[k]] == es + All(c, q[..k + 1], f)
    ensures !f.Picks(c, q[k]) ==> All(c, q[..k + 1], f) == All(c, q[..k], f)
    ensures |All(c, q[..k + 1], f)| <= |q|
  {
    NextPicked(c, q, f, k);
    hide Taken, Kept, Tombed;
    assert es + All(c, q[..k], f) + [q[k]] == es + (All(c, q[..k], f) + [q[k]]);
  }

  lemma WalkStarts(c: Db, q: seq<Entry>, f: Filter, es: seq<Entry>)
    ensures All(c, q[..0], f) == [] && Others(c, q[..0], f) == [] && Tombed(c, q[..0], f) == []
    ensures q[0..] == q && es + All(c, q[..0], f) == es
  {
  }

  class EntryList {
    const tailed: bool
    var head: BQUE?
    var tail: BQUE?
    ghost var nodes: seq<BQUE>
    ghost var vals: seq<Entry>
    ghost var Repr: set<BQUE>

    ghost predicate Valid()
      reads this, Repr
    {
      && |nodes| == |vals|
      && head == At(nodes, 0)
      && (tailed ==> tail == At(nodes, |nodes| - 1))
      && (forall i {:trigger nodes[i]} :: 0 <= i < |nodes| ==> nodes[i] in Repr && nodes[i].e == vals[i])
      && (forall i {:trigger nodes[i].next} :: 0 <= i < |nodes| ==> nodes[i].next == At(nodes, i + 1))
      && (forall i, j {:trigger nodes[i], nodes[j]} :: 0 <= i < j < |nodes| ==> nodes[i] != nodes[j])
    }

    constructor (tailed: bool)
      ensures Valid() && this.tailed == tailed && nodes == [] && vals == [] && Repr == {}
    {
      this.tailed := tailed;
      head, tail := null, null;
      nodes, vals, Repr := [], [], {};
    }

    lemma Outside(n: BQUE)
      requires Valid() && n !in Repr
      ensures n !in nodes
    {
    }

    lemma Here(k: nat)
      requires Valid() && k < |nodes|
      ensures |nodes| == |vals| && nodes[k].e == vals[k] && nodes[k].next == At(nodes, k + 1) && nodes[k] in Repr
    {
    }

    method Start() returns (point: BQUE?)
      requires Valid()
      ensures |nodes| == |vals| && point == At(nodes, 0)
    {
      point := head;
    }

    /** The walk to the first record due after `t`: the record before it. */
    method FindLater(t: int) returns (trail: BQUE?, ghost k: nat)
      requires Valid()
      ensures k <= |nodes| == |vals| && trail == At(nodes, k - 1)
      ensures forall j :: 0 <= j < k ==> vals[j].waittime <= t
      ensures k < |vals| ==> vals[k].waittime > t
    {
      trail, k := null, 0;
      var point := head;
      while point != null && point.e.waittime <= t
        invariant k <= |nodes| && point == At(nodes, k) && trail == At(nodes, k - 1)
        invariant forall j :: 0 <= j < k ==> vals[j].waittime <= t
        decreases |nodes| - k
      {
        trail, point := point, point.next;
        k := k + 1;
      }
    }

    /** The walk to the record `n`: the record before it. */
    method FindRecord(n: BQUE, ghost k: nat) returns (trail: BQUE?)
      requires Valid() && k < |nodes| && n == nodes[k]
      ensures trail == At(nodes, k - 1)
    {
      trail := null;
      var point := head;
      ghost var i := 0;
      while point != null && point != n
        invariant i <= k && point == At(nodes, i) && trail == At(nodes, i - 1)
        decreases k - i
      {
        trail, point := point, point.next;
        i := i + 1;
      }
    }

    /** A walk over the list, `q` when it began, has come to the k-th entry, and took out
        the entries before it that `f` picks. */
    ghost predicate Walk(c: Db, f: Filter, q: seq<Entry>, k: nat, trail: BQUE?, point: BQUE?)
      reads this
    {
      && k <= |q| && |nodes| == |vals|
      && vals == Others(c, q[..k], f) + q[k..]
      && trail == At(nodes, |Others(c, q[..k], f)| - 1)
      && point == At(nodes, |Others(c, q[..k], f)|)
    }

    method Begin(ghost c: Db, ghost f: Filter) returns (point: BQUE?)
      requires Valid()
      ensures Walk(c, f, vals, 0, null, point)
    {
      point := head;
    }

    lemma WalkHere(c: Db, f: Filter, q: seq<Entry>, k: nat, trail: BQUE?, point: BQUE)
      requires Valid() && Walk(c, f, q, k, trail, point)
      ensures k < |q| && point.e == q[k]
      ensures !f.Picks(c, q[k]) ==> Walk(c, f, q, k + 1, point, point.next)
    {
      hide Kept, Taken, Tombed;
      WalkOn(c, vals, q, f, k);
      Here(|Others(c, q[..k], f)|);
    }

    lemma WalkVals(c: Db, f: Filter, q: seq<Entry>, k: nat, trail: BQUE?, point: BQUE?)
      requires Walk(c, f, q, k, trail, point)
      ensures k <= |q| && vals == Others(c, q[..k], f) + q[k..]
    {
    }

    lemma WalkDone(c: Db, f: Filter, q: seq<Entry>, k: nat, trail: BQUE?)
      requires Valid() && Walk(c, f, q, k, trail, null)
      ensures k == |q| && q[..k] == q && vals == Others(c, q, f)
    {
      hide Kept, Taken, Tombed;
      if k < |q| {
        WalkOn(c, vals, q, f, k);
        assert false;
      }
      assert q[..k] == q;
    }

    method Append(n: BQUE)
      requires Valid() && tailed && n !in Repr && n.next == null
      modifies this, Repr, n
      ensures Valid() && nodes == old(nodes) + [n] && vals == old(vals) + [old(n.e)]
      ensures Repr == old(Repr) + {n}
      ensures n.e == old(n.e)
    {
      if tail != null {
        assert tail == nodes[|nodes| - 1];
        tail.next := n;
        tail := n;
      } else {
        head, tail := n, n;
      }
      nodes := nodes + [n];
      vals := vals + [n.e];
      Repr := Repr + {n};
    }

    method Unlink(trail: BQUE?, point: BQUE, ghost k: nat)
      requires Valid() && k < |nodes| && point == nodes[k] && trail == At(nodes, k - 1)
      modifies this, Repr
      ensures Valid() && nodes == OmitAt(old(nodes), k) && vals == OmitAt(old(vals), k)
      ensures Repr == old(Repr) - {point}
      ensures point.e == old(point.e) && point.next == old(point.next)
    {
      hide OmitAt;
      if trail != null {
        trail.next := point.next;
      } else {
        head := point.next;
      }
      if tailed && point == tail {
        tail := trail;
      }
      nodes := OmitAt(nodes, k);
      vals := OmitAt(vals, k);
      Repr := Repr - {point};
    }

    /** Taking out the record a walk has come to. */
    lemma WalkTaken(c: Db, f: Filter, q: seq<Entry>, k: nat, trail: BQUE?, point: BQUE)
      requires Valid() && Walk(c, f, q, k, trail, point) && k < |q| && f.Picks(c, q[k])
      ensures var d := |Others(c, q[..k], f)|;
        && d < |nodes| == |vals| && nodes[d] == point && trail == At(nodes, d - 1)
        && d == |Others(c, q[..k + 1], f)| && OmitAt(vals, d) == Others(c, q[..k + 1], f) + q[k + 1..]
        && point.next == At(OmitAt(nodes, d), d) && trail == At(OmitAt(nodes, d), d - 1)
    {
      hide Kept, Taken, Tombed;
      WalkOn(c, vals, q, f, k);
      Here(|Others(c, q[..k], f)|);
    }

    method InsertAt(trail: BQUE?, n: BQUE, ghost k: nat)
      requires Valid() && !tailed && k <= |nodes| && n !in Repr && trail == At(nodes, k - 1)
      modifies this, Repr, n
      ensures Valid() && nodes == AddAt(old(nodes), k, n) && vals == AddAt(old(vals), k, old(n.e))
      ensures Repr == old(Repr) + {n}
      ensures n.e == old(n.e)
    {
      hide AddAt;
      if trail != null {
        n.next := trail.next;
        trail.next := n;
      } else {
        n.next := head;
        head := n;
      }
      nodes := AddAt(nodes, k, n);
      vals := AddAt(vals, k, n.e);
      Repr := Repr + {n};
    }

    method SetEntry(n: BQUE, e: Entry, ghost k: nat)
      requires Valid() && k < |nodes| && n == nodes[k]
      modifies this`vals, n`e
      ensures Valid() && vals == old(vals)[k := e] && n.e == e
    {
      n.e := e;
      vals := vals[k := e];
    }
    
    /** Links the records of `other`, of which there are some, behind the last one. */
    method Chain(other: EntryList)
      requires Valid() && tailed && other.Valid() && other.tailed && Repr !! other.Repr && other != this && other.head != null
      modifies this, Repr
      ensures Valid() && nodes == old(nodes) + other.nodes && vals == old(vals) + other.vals
      ensures Repr == old(Repr) + other.Repr
    {
      if tail != null {
        tail.next := other.head;
      } else {
        head := other.head;
      }
      tail := other.tail;
      nodes := nodes + other.nodes;
      vals := vals + other.vals;
      Repr := Repr + other.Repr;
    }

    /** The whole of `other` moves to the end of this list. */
    method Splice(other: EntryList)
      requires Valid() && tailed && other.Valid() && other.tailed && Repr !! other.Repr && other != this
      modifies this, Repr, other
      ensures Valid() && nodes == old(nodes) + old(other.nodes) && vals == old(vals) + old(other.vals)
      ensures other.Valid() && other.nodes == [] && other.vals == []
      ensures Repr == old(Repr) + old(other.Repr) && other.Repr == {}
    {
      if other.head != null {
        Chain(other);
        other.head, other.tail := null, null;
      }
      Repr := Repr + other.Repr;
      other.nodes, other.vals, other.Repr := [], [], {};
    }

    /** A walk over a run queue, `q` when it began, has come to the k-th entry, and made
        tombstones of the entries before it that `f` picks. */
    ghost predicate Tombing(c: Db, f: Filter, q: seq<Entry>, k: nat, point: BQUE?)
      reads this
    {
      && k <= |q| && |nodes| == |vals| == |q|
      && vals == Tombed(c, q[..k], f) + q[k..]
      && point == At(nodes, k)
    }

    lemma TombingHere(c: Db, f: Filter, q: seq<Entry>, k: nat, point: BQUE)
      requires Valid() && Tombing(c, f, q, k, point)
      ensures k < |q| && point.e == q[k] && nodes[k] == point && point in Repr
      ensures vals[k := q[k].(player := NOTHING)] == Tombed(c, q[..k], f) + [q[k].(player := NOTHING)] + q[k + 1..]
      ensures !f.Picks(c, q[k]) ==> Tombing(c, f, q, k + 1, point.next)
    {
      NextPicked(c, q, f, k);
      hide Kept, Taken, Tombed;
      WalkStep(vals, Tombed(c, q[..k], f), q, k);
      Here(k);
    }

    lemma TombingBegins(c: Db, f: Filter)
      requires Valid()
      ensures Tombing(c, f, vals, 0, head)
    {
    }

    lemma TombingDone(c: Db, f: Filter, q: seq<Entry>, k: nat)
      requires Valid() && Tombing(c, f, q, k, null)
      ensures k == |q| && q[..k] == q && vals == Tombed(c, q, f)
    {
      assert q[..|q|] == q;
    }

    /** Makes the record the walk has come to a tombstone. */
    method Halt(c: Db, ghost f: Filter, tally: array?<int>, n: BQUE, ghost q: seq<Entry>, ghost k: nat, ghost es: seq<Entry>)
      requires Valid() && Tombing(c, f, q, k, n) && k < |q| && f.Picks(c, q[k]) && f.Wanted?
      requires c.Consistent() && Tallied(c, tally, es)
      modifies this`vals, Repr, tally
      ensures Valid() && Tombing(c, f, q, k + 1, n.next) && Tallied(c, tally, es + [q[k]])
    {
      TombingHere(c, f, q, k, n);
      NextPicked(c, q, f, k);
      Here(k);
      hide Count, Tallied, Db.Consistent, EntryList.Valid, Tombed, Taken, Kept;
      HaltRecord(c, tally, n.e, es);
      SetEntry(n, n.e.(player := NOTHING), k);
      Here(k);
    }

    /** The walk of halt_que over a run queue: wanted entries become tombstones. */
    method HaltWanted(c: Db, f: Filter, tally: array?<int>, ghost es: seq<Entry>) returns (num: nat)
      requires Valid() && f.Wanted? && c.Consistent() && Tallied(c, tally, es)
      modifies this`vals, Repr, tally
      ensures Valid() && vals == Tombed(c, old(vals), f)
      ensures num == |All(c, old(vals), f)| && Tallied(c, tally, es + All(c, old(vals), f))
    {
      hide All, Others, Tombed, Tallied, Db.Consistent, EntryList.Valid, EntryList.Tombing;
      ghost var q := vals;
      ghost var k := 0;
      var point := head;
      num := 0;
      WalkStarts(c, q, f, es);
      TombingBegins(c, f);
      while point != null
        invariant Valid() && k <= |q| && Tombing(c, f, q, k, point)
        invariant num == |All(c, q[..k], f)| && Tallied(c, tally, es + All(c, q[..k], f))
        decreases |q| - k
      {
        TombingHere(c, f, q, k, point);
        NextTaken(c, q, f, k, es);
        if f.Picks(c, point.e) {
          Halt(c, f, tally, point, q, k, es + All(c, q[..k], f));
          num := num + 1;
        }
        point := point.next;
        k := k + 1;
      }
      TombingDone(c, f, q, k);
    }
  }
}
