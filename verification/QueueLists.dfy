/** Facts about the list functions of QueueSpec. What an operation keeps is stated with
    counts: `Count(c, q, g)` for every filter `g` determines a list up to order. */
module QueueLists {
  import opened QueueTypes
  import opened QueueSpec

  function One(b: bool): nat {
    if b then 1 else 0
  }

  lemma {:induction false} Append(c: Db, a: seq<Entry>, b: seq<Entry>, g: Filter)
    ensures Count(c, a + b, g) == Count(c, a, g) + Count(c, b, g)
  {
    if b == [] {
      assert a + b == a;
    } else {
      assert (a + b)[..|a + b| - 1] == a + b[..|b| - 1];
      Append(c, a, b[..|b| - 1], g);
    }
  }

  lemma NilCount(c: Db)
    ensures forall g: Filter :: Count(c, [], g) == 0
  {
  }

  lemma {:induction false} AppendIds(a: seq<Entry>, b: seq<Entry>)
    ensures Ids(a + b) == Ids(a) + Ids(b)
  {
    if b == [] {
      assert a + b == a;
    } else {
      assert (a + b)[..|a + b| - 1] == a + b[..|b| - 1];
      AppendIds(a, b[..|b| - 1]);
    }
  }

  lemma SnocIds(q: seq<Entry>, e: Entry)
    ensures Ids(q + [e]) == Ids(q) + [e.id]
  {
    assert (q + [e])[..|q|] == q;
  }

  lemma Snoc(c: Db, q: seq<Entry>, e: Entry, g: Filter)
    ensures Count(c, q + [e], g) == Count(c, q, g) + One(g.Picks(c, e))
  {
    assert (q + [e])[..|q|] == q;
  }

  lemma {:induction false} Split(c: Db, q: seq<Entry>, f: Filter, n: nat, g: Filter)
    ensures Count(c, q, g) == Count(c, Taken(c, q, f, n), g) + Count(c, Kept(c, q, f, n), g)
  {
    if q != [] {
      var q0, e := q[..|q| - 1], q[|q| - 1];
      Split(c, q0, f, n, g);
      Snoc(c, Taken(c, q0, f, n), e, g);
      Snoc(c, Kept(c, q0, f, n), e, g);
    }
  }

  lemma {:induction false} Members(c: Db, q: seq<Entry>, f: Filter, n: nat)
    ensures forall e :: e in Taken(c, q, f, n) ==> e in q && f.Picks(c, e)
    ensures forall e :: e in Kept(c, q, f, n) ==> e in q
    ensures n >= |q| ==> forall e :: e in Kept(c, q, f, n) ==> !f.Picks(c, e)
  {
    if q != [] {
      Members(c, q[..|q| - 1], f, n);
    }
  }

  lemma {:induction false} TakenCount(c: Db, q: seq<Entry>, f: Filter, n: nat)
    ensures |Taken(c, q, f, n)| == if Count(c, q, f) < n then Count(c, q, f) else n
  {
    if q != [] {
      TakenCount(c, q[..|q| - 1], f, n);
    }
  }

  lemma {:induction false} CountAll(c: Db, q: seq<Entry>, f: Filter)
    requires forall e :: e in q ==> f.Picks(c, e)
    ensures Count(c, q, f) == |q|
  {
    if q != [] {
      CountAll(c, q[..|q| - 1], f);
    }
  }

  lemma {:induction false} CountNone(c: Db, q: seq<Entry>, f: Filter)
    requires forall e :: e in q ==> !f.Picks(c, e)
    ensures Count(c, q, f) == 0
  {
    if q != [] {
      CountNone(c, q[..|q| - 1], f);
    }
  }

  lemma {:induction false} CountSame(c: Db, q: seq<Entry>, f: Filter, g: Filter)
    requires forall e :: e in q ==> (f.Picks(c, e) <==> g.Picks(c, e))
    ensures Count(c, q, f) == Count(c, q, g)
  {
    if q != [] {
      CountSame(c, q[..|q| - 1], f, g);
    }
  }

  /** A bound no smaller than the list never bites. */
  lemma {:induction false} Bound(c: Db, q: seq<Entry>, f: Filter, n: nat, m: nat)
    requires |q| <= n && |q| <= m
    ensures Taken(c, q, f, n) == Taken(c, q, f, m)
    ensures Kept(c, q, f, n) == Kept(c, q, f, m)
  {
    if q != [] {
      Bound(c, q[..|q| - 1], f, n, m);
    }
  }

  lemma {:induction false} Positive(c: Db, q: seq<Entry>, i: nat, g: Filter)
    requires i < |q| && g.Picks(c, q[i])
    ensures Count(c, q, g) >= 1
  {
    if i < |q| - 1 {
      Positive(c, q[..|q| - 1], i, g);
    }
  }

  lemma {:induction false} NonePicked(c: Db, q: seq<Entry>, g: Filter)
    requires Count(c, q, g) == 0
    ensures forall e :: e in q ==> !g.Picks(c, e)
  {
    if q != [] {
      NonePicked(c, q[..|q| - 1], g);
    }
  }

  lemma {:induction false} Witness(c: Db, q: seq<Entry>, g: Filter) returns (i: nat)
    requires Count(c, q, g) >= 1
    ensures i < |q| && g.Picks(c, q[i])
  {
    if g.Picks(c, q[|q| - 1]) {
      i := |q| - 1;
    } else {
      i := Witness(c, q[..|q| - 1], g);
    }
  }

  // ---- tombstones

  lemma {:induction false} TombedAt(c: Db, q: seq<Entry>, f: Filter)
    ensures forall i :: 0 <= i < |q| ==>
      Tombed(c, q, f)[i] == if f.Picks(c, q[i]) then q[i].(player := NOTHING) else q[i]
  {
    if q != [] {
      TombedAt(c, q[..|q| - 1], f);
    }
  }

  lemma TombedStep(c: Db, q: seq<Entry>, f: Filter, g: Filter)
    requires q != []
    ensures var q0, e := q[..|q| - 1], q[|q| - 1];
      Count(c, Tombed(c, q, f), g)
      == Count(c, Tombed(c, q0, f), g) + One(g.Picks(c, if f.Picks(c, e) then e.(player := NOTHING) else e))
  {
    var q0, e := q[..|q| - 1], q[|q| - 1];
    Snoc(c, Tombed(c, q0, f), if f.Picks(c, e) then e.(player := NOTHING) else e, g);
  }

  lemma TakenStep(c: Db, q: seq<Entry>, f: Filter, n: nat, g: Filter)
    requires q != [] && n >= |q|
    ensures var q0, e := q[..|q| - 1], q[|q| - 1];
      Count(c, Taken(c, q, f, n), g) == Count(c, Taken(c, q0, f, n), g) + One(f.Picks(c, e) && g.Picks(c, e))
  {
    Snoc(c, Taken(c, q[..|q| - 1], f, n), q[|q| - 1], g);
  }

  /** Making tombstones takes exactly the picked entries out of every count of live
      entries, and unlinks nothing. */
  lemma {:induction false} TombedCount(c: Db, q: seq<Entry>, f: Filter, g: Filter, n: nat)
    requires n >= |q|
    ensures g.Alive() ==> Count(c, q, g) == Count(c, Tombed(c, q, f), g) + Count(c, Taken(c, q, f, n), g)
    ensures g.Fixed() ==> Count(c, q, g) == Count(c, Tombed(c, q, f), g)
  {
    if q != [] {
      TombedCount(c, q[..|q| - 1], f, g, n);
      TombedStep(c, q, f, g);
      TakenStep(c, q, f, n, g);
      hide Tombed, Taken;
    }
  }

  lemma {:induction false} TombedIds(c: Db, q: seq<Entry>, f: Filter)
    ensures Ids(Tombed(c, q, f)) == Ids(q)
  {
    if q != [] {
      TombedIds(c, q[..|q| - 1], f);
      assert Tombed(c, q, f)[..|q| - 1] == Tombed(c, q[..|q| - 1], f);
    }
  }

  /** How often a serial number occurs in a record. */
  function Num(q: seq<nat>, id: nat): nat {
    if q == [] then 0 else Num(q[..|q| - 1], id) + One(q[|q| - 1] == id)
  }

  lemma {:induction false} NumAppend(a: seq<nat>, b: seq<nat>, id: nat)
    ensures Num(a + b, id) == Num(a, id) + Num(b, id)
  {
    if b == [] {
      assert a + b == a;
    } else {
      assert (a + b)[..|a + b| - 1] == a + b[..|b| - 1];
      NumAppend(a, b[..|b| - 1], id);
    }
  }

  lemma {:induction false} IsCount(c: Db, q: seq<Entry>, id: nat)
    ensures Count(c, q, Is(id)) == Num(Ids(q), id)
  {
    if q != [] {
      IsCount(c, q[..|q| - 1], id);
    }
  }

  lemma {:induction false} IdsCount(c: Db, q: seq<Entry>, id: nat)
    requires forall e :: e in q ==> e.player != NOTHING
    ensures Count(c, q, LiveIs(id)) == Num(Ids(q), id)
  {
    if q != [] {
      IdsCount(c, q[..|q| - 1], id);
    }
  }

  lemma {:induction false} IdsAt(q: seq<Entry>)
    ensures forall i :: 0 <= i < |q| ==> Ids(q)[i] == q[i].id
  {
    if q != [] {
      IdsAt(q[..|q| - 1]);
    }
  }

  // ---- the sorted list

  ghost predicate Sorted(q: seq<Entry>) {
    forall i, j :: 0 <= i < j < |q| ==> q[i].waittime <= q[j].waittime
  }

  /** `Insert` puts an entry at the only split with nothing later before it and nothing
      due by then after it. */
  lemma InsertAt(q: seq<Entry>, e: Entry, i: nat)
    requires i <= |q|
    requires forall j :: 0 <= j < i ==> q[j].waittime <= e.waittime
    requires i < |q| ==> q[i].waittime > e.waittime
    ensures Insert(q, e) == q[..i] + [e] + q[i..]
  {
    assert DueCount(q, e.waittime) == i;
  }

  lemma InsertSorted(q: seq<Entry>, e: Entry)
    requires Sorted(q)
    ensures Sorted(Insert(q, e))
  {
    var i := DueCount(q, e.waittime);
  }

  lemma InsertMembers(q: seq<Entry>, e: Entry)
    ensures forall x :: x in Insert(q, e) <==> x in q || x == e
  {
    var i := DueCount(q, e.waittime);
    assert q == q[..i] + q[i..];
  }

  lemma InsertCount(c: Db, q: seq<Entry>, e: Entry, g: Filter)
    ensures Count(c, Insert(q, e), g) == Count(c, q, g) + One(g.Picks(c, e))
  {
    hide Count;
    var i := DueCount(q, e.waittime);
    assert q == q[..i] + q[i..];
    Append(c, q[..i], q[i..], g);
    Snoc(c, q[..i], e, g);
    Append(c, q[..i] + [e], q[i..], g);
  }

  // ---- single entries

  lemma RemoveAt(c: Db, q: seq<Entry>, i: nat, g: Filter)
    requires i < |q|
    ensures Count(c, q, g) == Count(c, q[..i] + q[i + 1..], g) + One(g.Picks(c, q[i]))
  {
    assert q == q[..i] + [q[i]] + q[i + 1..];
    hide Count;
    Snoc(c, q[..i], q[i], g);
    Append(c, q[..i] + [q[i]], q[i + 1..], g);
    Append(c, q[..i], q[i + 1..], g);
  }

  lemma ReplaceAt(c: Db, q: seq<Entry>, i: nat, e: Entry, g: Filter)
    requires i < |q|
    ensures Count(c, q[i := e], g) + One(g.Picks(c, q[i])) == Count(c, q, g) + One(g.Picks(c, e))
  {
    hide Count;
    RemoveAt(c, q, i, g);
    RemoveAt(c, q[i := e], i, g);
    assert q[i := e][..i] == q[..i] && q[i := e][i + 1..] == q[i + 1..];
  }

  lemma WithoutKeeps(q: seq<Entry>, pid: int)
    ensures forall e :: e in Without(q, pid) ==> e in q
    ensures Sorted(q) ==> Sorted(Without(q, pid))
  {
  }

  lemma ReplacedMembers(q: seq<Entry>, e: Entry)
    ensures forall x :: x in Replaced(q, e) ==> x in q || x == e
  {
  }
}
