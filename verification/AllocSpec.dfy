/** Tracked blocks in one flat memory: where they lie, the guard after each, and what the
    string functions make of the bytes. */
module AllocSpec {
  newtype byte = x: int | 0 <= x < 256

  /** XMAGIC as it lies in memory, lowest byte first. */
  const MAGIC: seq<byte> := [0x00, 0xad, 0xba, 0xef, 0xbe, 0xad, 0xde, 0x00]
  const GUARD: nat := 8
  const HEADER: nat := 64         // sizeof(MEMTRACK)
  const SIZE_MAX: nat := 0xffff_ffff_ffff_ffff

  /** MEMTRACK, but for what it keeps for reports. */
  class Track {
    const bptr: nat
    const size: nat
    var next: Track?

    constructor (bptr: nat, size: nat, next: Track?)
      ensures this.bptr == bptr && this.size == size && this.next == next
    {
      this.bptr := bptr;
      this.size := size;
      this.next := next;
    }

    /** The address of the guard. */
    function Magic(): nat {
      bptr + size
    }

    predicate Holds(p: nat) {
      bptr <= p < Magic()
    }

    /** The bytes of the block with its header and its guard. */
    predicate Covers(p: nat) {
      bptr - HEADER <= p < Magic() + GUARD
    }
  }

  /** The block, header and guard included, lies within `n` bytes and not at address 0. */
  ghost predicate Fits(t: Track, n: nat) {
    HEADER < t.bptr && t.size > 0 && t.Magic() + GUARD <= n
  }

  ghost predicate Separate(a: Track, b: Track) {
    a.Magic() + GUARD <= b.bptr - HEADER || b.Magic() + GUARD <= a.bptr - HEADER
  }

  ghost predicate Placed(ts: seq<Track>, n: nat) {
    && (forall i :: 0 <= i < |ts| ==> Fits(ts[i], n))
    && (forall i, j :: 0 <= i < j < |ts| ==> Separate(ts[i], ts[j]))
  }

  ghost predicate Intact(m: seq<byte>, t: Track) {
    t.Magic() + GUARD <= |m| && m[t.Magic()..t.Magic() + GUARD] == MAGIC
  }

  ghost predicate AllIntact(m: seq<byte>, ts: seq<Track>) {
    forall i :: 0 <= i < |ts| ==> Intact(m, ts[i])
  }

  function Put(m: seq<byte>, at: nat, bytes: seq<byte>): (r: seq<byte>)
    requires at + |bytes| <= |m|
    ensures |r| == |m|
    ensures forall i {:trigger r[i]} :: 0 <= i < |m| ==> r[i] == if at <= i < at + |bytes| then bytes[i - at] else m[i]
  {
    m[..at] + bytes + m[at + |bytes|..]
  }

  lemma PutSlice(m: seq<byte>, at: nat, bytes: seq<byte>)
    requires at + |bytes| <= |m|
    ensures Put(m, at, bytes)[at..at + |bytes|] == bytes
  {
  }

  ghost function Total(ts: seq<Track>): nat {
    if ts == [] then 0 else ts[0].size + Total(ts[1..])
  }

  // ---- strings

  function StrLen(m: seq<byte>, p: nat): (n: nat)
    requires p <= |m|
    ensures p + n <= |m|
    ensures p + n < |m| ==> m[p + n] == 0
    ensures forall i :: p <= i < p + n ==> m[i] != 0
    decreases |m| - p
  {
    if p == |m| || m[p] == 0 then 0 else 1 + StrLen(m, p + 1)
  }

  /** The string at an address. */
  function Text(m: seq<byte>, p: nat): seq<byte>
    requires p <= |m|
  {
    m[p..p + StrLen(m, p)]
  }

  function Take(s: seq<byte>, n: nat): (r: seq<byte>)
    ensures |r| <= n && r <= s && (r == s || |r| == n)
  {
    if |s| <= n then s else s[..n]
  }

  /** What strncpy writes. */
  function Padded(s: seq<byte>, n: nat): (r: seq<byte>)
    ensures |r| == n && forall i :: 0 <= i < n ==> r[i] == if i < |s| then s[i] else 0
  {
    Take(s, n) + seq(n - |Take(s, n)|, _ => 0)
  }

  predicate NonZero(s: seq<byte>) {
    forall i :: 0 <= i < |s| ==> s[i] != 0
  }

  // ---- facts

  lemma TakeNonZero(s: seq<byte>, n: nat)
    ensures |Take(s, n)| <= n && (NonZero(s) ==> NonZero(Take(s, n)))
  {
  }

  lemma TextNonZero(m: seq<byte>, p: nat)
    requires p <= |m|
    ensures NonZero(Text(m, p))
  {
  }

  /** A string is what stands before the first zero. */
  lemma TextIs(m: seq<byte>, p: nat, s: seq<byte>)
    requires p + |s| < |m| && m[p..p + |s|] == s && NonZero(s) && m[p + |s|] == 0
    ensures Text(m, p) == s && StrLen(m, p) == |s|
  {
    forall i | 0 <= i < |s|
      ensures m[p + i] == s[i]
    {
      assert m[p..p + |s|][i] == m[p + i];
    }
  }

  /** Every string in a block ends at or before its guard. */
  lemma StringEnds(m: seq<byte>, t: Track, p: nat)
    requires Intact(m, t) && t.Holds(p)
    ensures p + StrLen(m, p) <= t.Magic()
  {
    assert m[t.Magic()..t.Magic() + GUARD][0] == 0;
  }

  /** The block that holds an address is the only one. */
  lemma OnlyHolder(ts: seq<Track>, n: nat, i: nat, j: nat, p: nat)
    requires Placed(ts, n) && i < |ts| && j < |ts| && ts[i].Covers(p) && ts[j].Covers(p)
    ensures i == j
  {
  }

  /** Bytes put inside a block, and a zero on the first byte of its guard, leave every
      guard as it was and touch no other block. */
  lemma PutKeeps(m: seq<byte>, ts: seq<Track>, k: nat, at: nat, bytes: seq<byte>)
    requires Placed(ts, |m|) && AllIntact(m, ts) && k < |ts|
    requires ts[k].bptr <= at && at + |bytes| <= ts[k].Magic() + 1
    requires at + |bytes| == ts[k].Magic() + 1 && bytes != [] ==> bytes[|bytes| - 1] == 0
    ensures AllIntact(Put(m, at, bytes), ts)
    ensures forall i :: 0 <= i < |m| && !(at <= i < ts[k].Magic()) ==> Put(m, at, bytes)[i] == m[i]
  {
    hide Put;
    var r := Put(m, at, bytes);
    assert m[ts[k].Magic()..ts[k].Magic() + GUARD][0] == 0;
    forall i | 0 <= i < |m| && !(at <= i < ts[k].Magic())
      ensures r[i] == m[i]
    {
    }
    forall j | 0 <= j < |ts|
      ensures Intact(r, ts[j])
    {
      GuardKept(m, r, ts, k, j, at);
    }
  }

  lemma GuardKept(m: seq<byte>, r: seq<byte>, ts: seq<Track>, k: nat, j: nat, at: nat)
    requires Placed(ts, |m|) && AllIntact(m, ts) && k < |ts| && j < |ts| && ts[k].bptr <= at && |r| == |m|
    requires forall i :: 0 <= i < |m| && !(at <= i < ts[k].Magic()) ==> r[i] == m[i]
    ensures Intact(r, ts[j])
  {
    var g := ts[j].Magic();
    assert Fits(ts[j], |m|) && Fits(ts[k], |m|);
    assert j < k ==> Separate(ts[j], ts[k]);
    assert k < j ==> Separate(ts[k], ts[j]);
    assert Intact(m, ts[j]);
    assert r[g..g + GUARD] == m[g..g + GUARD];
  }

  lemma {:induction false} TotalAt(ts: seq<Track>, k: nat)
    requires k < |ts|
    ensures Total(ts) == Total(ts[..k] + ts[k + 1..]) + ts[k].size
  {
    var us := ts[..k] + ts[k + 1..];
    if k == 0 {
      assert us == ts[1..];
    } else {
      assert us[1..] == ts[1..][..k - 1] + ts[1..][k..];
      TotalAt(ts[1..], k - 1);
    }
  }

  /** A padded copy reads back as what fits of the source. */
  lemma TextPadded(m: seq<byte>, t: Track, at: nat, s: seq<byte>)
    requires t.Holds(at) && t.Magic() < |m| && NonZero(s) && m[t.Magic()] == 0
    requires m[at..t.Magic()] == Padded(s, t.Magic() - at)
    ensures Text(m, at) == Take(s, t.Magic() - at)
  {
    var n := t.Magic() - at;
    var u := Take(s, n);
    var p := Padded(s, n);
    forall i | 0 <= i < n
      ensures m[at + i] == p[i]
    {
      assert m[at..t.Magic()][i] == m[at + i];
    }
    assert forall i :: 0 <= i < |u| ==> p[i] == u[i];
    assert m[at..at + |u|] == u;
    TextIs(m, at, u);
  }

  /** A string with a piece and a zero put at its end. */
  lemma TextAppended(m: seq<byte>, r: seq<byte>, dest: nat, s: seq<byte>)
    requires dest <= |m| && NonZero(s)
    requires var e := dest + StrLen(m, dest); e + |s| < |m| && r == Put(m, e, s + [0])
    ensures Text(r, dest) == Text(m, dest) + s
  {
    hide Put;
    var e := dest + StrLen(m, dest);
    var w := Text(m, dest) + s;
    forall i | 0 <= i < |w|
      ensures r[dest..dest + |w|][i] == w[i] && w[i] != 0
    {
    }
    assert r[dest..dest + |w|] == w;
    assert r[dest + |w|] == (s + [0])[|s|];
    TextIs(r, dest, w);
  }

  lemma PaddedText(m: seq<byte>, at: nat, s: seq<byte>, size: nat)
    requires NonZero(s) && |s| < size && at + size <= |m| && m[at..at + size] == Padded(s, size)
    ensures Text(m, at) == s
  {
    forall i | 0 <= i < size
      ensures m[at + i] == Padded(s, size)[i]
    {
      assert m[at..at + size][i] == m[at + i];
    }
    assert forall i :: 0 <= i < |s| ==> Padded(s, size)[i] == s[i];
    assert m[at..at + |s|] == s;
    TextIs(m, at, s);
  }

  lemma TakeTwice(s: seq<byte>, n: nat, room: nat)
    ensures Take(Take(s, n), room) == Take(s, if room > n then n else room)
  {
  }

  lemma PutPadded(m: seq<byte>, at: nat, size: nat, s: seq<byte>)
    requires at + size <= |m| && m[at..at + size] == seq(size, _ => 0)
    ensures Put(m, at, Take(s, size))[at..at + size] == Padded(s, size)
  {
    hide Put;
    var r, u := Put(m, at, Take(s, size)), Take(s, size);
    forall i | 0 <= i < size
      ensures r[at..at + size][i] == Padded(s, size)[i]
    {
      assert m[at..at + size][i] == m[at + i] == 0;
    }
  }

  lemma TakeNone(d: seq<byte>, s: seq<byte>)
    ensures d + Take(s, 0) == d
  {
  }

  lemma AppendedChar(m: seq<byte>, r: seq<byte>, dest: nat, ch: byte)
    requires dest <= |m| && dest + StrLen(m, dest) + 1 < |m| && r == Put(m, dest + StrLen(m, dest), [ch, 0])
    ensures Text(r, dest) == if ch != 0 then Text(m, dest) + [ch] else Text(m, dest)
  {
    if ch != 0 {
      TextAppended(m, r, dest, [ch]);
    } else {
      hide Put;
      var w := Text(m, dest);
      assert r[dest..dest + |w|] == w;
      TextIs(r, dest, w);
    }
  }
}
