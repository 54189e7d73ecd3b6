/** PID allocation: the scan of cque_qpid_next. */
module QueuePids {
  import opened QueueTypes
  import opened QueueSpec

  /** The k-th PID the scan looks at when it starts at `start`. */
  function Visited(c: Db, start: int, k: nat): int
    requires c.maxPid > 0
  {
    (start - 1 + k) % c.maxPid + 1
  }

  ghost predicate InRange(c: Db, pid: int) {
    1 <= pid <= c.maxPid
  }

  /** The wrap-around scan visits every PID exactly once in maxPid steps. */
  lemma VisitsAllOnce(c: Db, start: int, pid: int) returns (k: nat)
    requires InRange(c, start) && InRange(c, pid)
    ensures k < c.maxPid && Visited(c, start, k) == pid
    ensures forall j: nat :: j < c.maxPid && Visited(c, start, j) == pid ==> j == k
    ensures forall j: nat :: j < c.maxPid ==> InRange(c, Visited(c, start, j))
  {
    k := if pid >= start then pid - start else pid - start + c.maxPid;
    forall j: nat | j < c.maxPid
      ensures Visited(c, start, j) == if start + j <= c.maxPid then start + j else start + j - c.maxPid
    {
      Wrap(start - 1 + j, c.maxPid);
    }
  }

  lemma Wrap(x: nat, m: nat)
    requires m > 0 && x < 2 * m
    ensures x % m == if x < m then x else x - m
  {
    if x >= m {
      assert x == m * 1 + (x - m);
    }
  }

  lemma NextIsNext(c: Db, start: int, k: nat)
    requires InRange(c, start) && k + 1 < 2 * c.maxPid - (start - 1)
    ensures Visited(c, start, k + 1) == NextPid(c, Visited(c, start, k))
  {
    Wrap(start - 1 + k, c.maxPid);
    Wrap(start + k, c.maxPid);
  }

  lemma {:induction false} ScanFrom(c: Db, table: map<int, nat>, start: int, k: nat) returns (i: nat)
    requires InRange(c, start) && k < c.maxPid
    ensures k <= i <= c.maxPid
    ensures forall j: nat :: k <= j < i ==> Visited(c, start, j) in table
    ensures i < c.maxPid ==> Visited(c, start, i) !in table
    ensures PidScan(c, table, Visited(c, start, k), c.maxPid - k) == if i < c.maxPid then Visited(c, start, i) else 0
    decreases c.maxPid - k
  {
    if Visited(c, start, k) !in table {
      i := k;
    } else if k + 1 == c.maxPid {
      i := k + 1;
    } else {
      NextIsNext(c, start, k);
      i := ScanFrom(c, table, start, k + 1);
    }
  }

  /** The scan fails exactly when every PID is in use; otherwise it returns the first
      free PID in cyclic order from `start`. */
  lemma ScanIsFirstFree(c: Db, table: map<int, nat>, start: int) returns (i: nat)
    requires InRange(c, start)
    ensures var r := PidScan(c, table, start, c.maxPid);
      && (r == 0 <==> forall p :: InRange(c, p) ==> p in table)
      && (r != 0 ==> InRange(c, r) && r !in table && i < c.maxPid && r == Visited(c, start, i)
                     && forall j: nat :: j < i ==> Visited(c, start, j) in table)
  {
    assert Visited(c, start, 0) == start by { Wrap(start - 1, c.maxPid); }
    i := ScanFrom(c, table, start, 0);
    if i < c.maxPid {
      var k := VisitsAllOnce(c, start, start);
      assert InRange(c, Visited(c, start, i));
    } else {
      forall p | InRange(c, p)
        ensures p in table
      {
        var k := VisitsAllOnce(c, start, p);
      }
    }
  }

  /** Whatever the scan returns can be used: 0, or a free PID in range. */
  lemma ScanResult(c: Db, table: map<int, nat>, start: int)
    requires start == 1 || InRange(c, start)
    ensures var r := PidScan(c, table, start, c.maxPid);
      r == 0 || (InRange(c, r) && r !in table && InRange(c, NextPid(c, r)))
  {
    if c.maxPid > 0 {
      var _ := ScanIsFirstFree(c, table, start);
    }
  }
}
