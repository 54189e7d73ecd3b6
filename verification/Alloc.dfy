/** The tracked allocator: a linked list of blocks in one flat memory, and writers that
    stop at a block's guard. Addresses are indices of the memory; 0 is the null pointer. */
module Alloc {
  import opened AllocSpec

  function At(q: seq<Track>, i: int): Track? {
    if 0 <= i < |q| then q[i] else null
  }

  class Allocator {
    const mem: array<byte>
    var rawAllocs: Track?
    ghost var nodes: seq<Track>

    ghost predicate Linked()
      reads this, nodes
    {
      && rawAllocs == At(nodes, 0)
      && (forall i {:trigger nodes[i].next} :: 0 <= i < |nodes| ==> nodes[i].next == At(nodes, i + 1))
      && (forall i, j :: 0 <= i < j < |nodes| ==> nodes[i] != nodes[j])
    }

    /** The list is in order and the blocks lie apart, whatever is in them. */
    ghost predicate Sound()
      reads this, nodes
    {
      Linked() && Placed(nodes, mem.Length)
    }

    /** And every guard is intact. */
    ghost predicate Valid()
      reads this, nodes, mem
    {
      Linked() && Placed(nodes, mem.Length) && AllIntact(mem[..], nodes)
    }

    constructor (n: nat)
      ensures Valid() && nodes == [] && mem.Length == n && fresh(mem)
    {
      mem := new byte[n](_ => 0);
      rawAllocs := null;
      nodes := [];
    }

    /** The live block, if any, that holds an address. */
    ghost predicate Tracked(p: nat)
      reads this
    {
      exists k :: 0 <= k < |nodes| && nodes[k].Holds(p)
    }

    lemma NullUntracked()
      requires Sound()
      ensures !Tracked(0)
    {
      assert forall i :: 0 <= i < |nodes| ==> Fits(nodes[i], mem.Length);
    }

    // ---- finding

    /** __xfind: the one block that holds the address. */
    method XFind(ptr: nat) returns (t: Track?, ghost k: nat)
      requires Sound()
      ensures t == null <==> !Tracked(ptr)
      ensures t != null ==> k < |nodes| && t == nodes[k] && t.Holds(ptr)
      ensures t != null ==> forall j :: 0 <= j < |nodes| && nodes[j].Covers(ptr) ==> j == k
    {
      k := 0;
      if ptr != 0 {
        t := rawAllocs;
        while t != null
          invariant k <= |nodes| && t == At(nodes, k)
          invariant forall j :: 0 <= j < k ==> !nodes[j].Holds(ptr)
          decreases |nodes| - k
        {
          if t.bptr <= ptr < t.Magic() {
            forall j | 0 <= j < |nodes| && nodes[j].Covers(ptr)
              ensures j == k
            {
              OnlyHolder(nodes, mem.Length, k, j, ptr);
            }
            return;
          }
          t := t.next;
          k := k + 1;
        }
      } else {
        t := null;
        NullUntracked();
      }
    }

    /** The guard word, as a number would be compared: all of its bytes. */
    method GuardIs(magic: nat) returns (r: bool)
      requires magic + GUARD <= mem.Length
      ensures r <==> mem[magic..magic + GUARD] == MAGIC
    {
      r := mem[magic..magic + GUARD] == MAGIC;
    }

    /** __xcheck: 1 for an address in a block whose guard is intact, 0 for one in a block
        whose guard is not, and 2 for any other. */
    method XCheck(ptr: nat) returns (r: int)
      requires Sound()
      ensures !Tracked(ptr) ==> r == 2
      ensures forall k :: 0 <= k < |nodes| && nodes[k].Holds(ptr) ==> r == if Intact(mem[..], nodes[k]) then 1 else 0
      ensures Valid() ==> r == if Tracked(ptr) then 1 else 2
    {
      var t, k := XFind(ptr);
      if t != null {
        assert Fits(t, mem.Length);
        assert forall j :: 0 <= j < |nodes| && nodes[j].Holds(ptr) ==> nodes[j].Covers(ptr);
        var ok := GuardIs(t.Magic());
        assert mem[..][t.Magic()..t.Magic() + GUARD] == mem[t.Magic()..t.Magic() + GUARD];
        return if ok then 1 else 0;
      }
      return 2;
    }

    /** total_rawmemory. */
    method TotalRawMemory() returns (total: nat)
      requires Valid()
      ensures total == Total(nodes)
    {
      total := 0;
      var t := rawAllocs;
      ghost var k := 0;
      assert nodes[0..] == nodes;
      while t != null
        invariant k <= |nodes| && t == At(nodes, k) && total + Total(nodes[k..]) == Total(nodes)
        decreases |nodes| - k
      {
        assert nodes[k..][1..] == nodes[k + 1..];
        total := total + t.size;
        t := t.next;
        k := k + 1;
      }
      assert nodes[k..] == [];
    }

    // ---- writing

    /** Overwrites a stretch of memory. */
    method Store(at: nat, bytes: seq<byte>)
      requires at + |bytes| <= mem.Length
      modifies mem
      ensures mem[..] == Put(old(mem[..]), at, bytes)
    {
      forall i | 0 <= i < |bytes| {
        mem[at + i] := bytes[i];
      }
    }

    /** A write that stays inside the k-th block, but for a zero on its guard's first byte. */
    method StoreIn(t: Track, at: nat, bytes: seq<byte>, ghost k: nat)
      requires Valid() && k < |nodes| && t == nodes[k] && t.bptr <= at && at + |bytes| <= t.Magic() + 1
      requires at + |bytes| == t.Magic() + 1 && bytes != [] ==> bytes[|bytes| - 1] == 0
      modifies mem
      ensures Valid() && at + |bytes| <= mem.Length && mem[..] == Put(old(mem[..]), at, bytes)
      ensures forall i :: 0 <= i < mem.Length && !(at <= i < t.Magic()) ==> mem[i] == old(mem[i])
    {
      assert Fits(nodes[k], mem.Length);
      PutKeeps(mem[..], nodes, k, at, bytes);
      ghost var m := mem[..];
      hide Put, Placed, AllIntact;
      Store(at, bytes);
      forall i | 0 <= i < mem.Length && !(at <= i < t.Magic())
        ensures mem[i] == m[i]
      {
        assert mem[..][i] == mem[i];
      }
    }

    /** The source of a string copy: a string in memory that ends before what is written
        to, or starts behind it. */
    ghost predicate Source(src: nat, dest: nat, limit: nat)
      reads mem
    {
      src < mem.Length && src + StrLen(mem[..], src) < mem.Length && (src + StrLen(mem[..], src) < dest || limit <= src)
    }

    /** __xfind on an address in the k-th block. */
    method Holder(p: nat, ghost k: nat) returns (t: Track)
      requires Valid() && k < |nodes| && nodes[k].Holds(p)
      ensures t == nodes[k] && Fits(t, mem.Length) && Intact(mem[..], t) && mem[..][t.Magic()] == 0
      ensures p + StrLen(mem[..], p) <= t.Magic()
    {
      assert Fits(nodes[k], mem.Length) && Intact(mem[..], nodes[k]);
      assert nodes[k].Covers(p) && Tracked(p);
      var u, j := XFind(p);
      t := u;
      assert mem[..][t.Magic()..t.Magic() + GUARD][0] == mem[..][t.Magic()];
      StringEnds(mem[..], t, p);
    }

    /** strncpy of `size` bytes, which fit before the guard. */
    method Strncpy(t: Track, dest: nat, src: nat, size: nat, ghost k: nat)
      requires Valid() && k < |nodes| && t == nodes[k] && t.Holds(dest) && Source(src, dest, t.Magic())
      requires dest + size <= t.Magic()
      modifies mem
      ensures Valid() && dest + size <= mem.Length
      ensures forall i :: 0 <= i < mem.Length && !(dest <= i < t.Magic()) ==> mem[i] == old(mem[i])
      ensures var p := Padded(Text(old(mem[..]), src), size);
        mem[..] == Put(old(mem[..]), dest, p) && mem[..][dest..dest + size] == p
    {
      hide Linked, Placed, AllIntact, Put, Padded;
      NodeFacts(k);
      PutSlice(mem[..], dest, Padded(Text(mem[..], src), size));
      StoreIn(t, dest, Padded(Text(mem[..], src), size), k);
    }

    /** __xstrcpy into the k-th block: what fits, padded with zeros up to the guard. */
    method XStrcpy(dest: nat, src: nat, ghost k: nat) returns (ptr: nat)
      requires Valid() && dest != 0 && k < |nodes| && nodes[k].Holds(dest) && Source(src, dest, nodes[k].Magic())
      modifies mem
      ensures Valid() && ptr == dest
      ensures forall i :: 0 <= i < mem.Length && !(dest <= i < nodes[k].Magic()) ==> mem[i] == old(mem[i])
      ensures var s := Text(old(mem[..]), src);
        && Text(mem[..], dest) == Take(s, nodes[k].Magic() - dest)
        && mem[..] == Put(old(mem[..]), dest, Padded(s, nodes[k].Magic() - dest))
    {
      hide Linked, Placed, AllIntact, Put, Padded, Text, Take, StrLen;
      var t := Holder(dest, k);
      ghost var s := Text(mem[..], src);
      TextNonZero(mem[..], src);
      assert mem[t.Magic()] == mem[..][t.Magic()] == 0;
      Strncpy(t, dest, src, t.Magic() - dest, k);
      assert mem[..][t.Magic()] == mem[t.Magic()];
      TextPadded(mem[..], t, dest, s);
      ptr := dest;
    }

    /** __xstrncpy into the k-th block: at most `n` bytes, zeros included. */
    method XStrncpy(dest: nat, src: nat, n: nat, ghost k: nat) returns (ptr: nat)
      requires Valid() && dest != 0 && src != 0 && k < |nodes| && nodes[k].Holds(dest) && Source(src, dest, nodes[k].Magic())
      modifies mem
      ensures Valid() && ptr == if n > 0 then dest else 0
      ensures forall i :: 0 <= i < mem.Length && !(dest <= i < nodes[k].Magic()) ==> mem[i] == old(mem[i])
      ensures var s := Text(old(mem[..]), src);
        var size := if n < nodes[k].Magic() - dest then n else nodes[k].Magic() - dest;
        && mem[..] == Put(old(mem[..]), dest, Padded(s, size))
        && (|s| < size ==> Text(mem[..], dest) == s)
    {
      hide Linked, Placed, AllIntact, Put, Padded;
      var t := Holder(dest, k);
      var size := t.Magic() - dest;
      if n < size {
        size := n;
      }
      ghost var s := Text(mem[..], src);
      ptr := 0;
      Strncpy(t, dest, src, size, k);
      if size > 0 {
        ptr := dest;
      }
      if |s| < size {
        PaddedText(mem[..], dest, s, size);
      }
    }

    /** strncat of `size` bytes at most, which fit before the guard. */
    method Strncat(t: Track, dest: nat, src: nat, size: nat, ghost k: nat)
      requires Valid() && k < |nodes| && t == nodes[k] && t.Holds(dest) && Source(src, dest, t.Magic())
      requires dest + StrLen(mem[..], dest) + size <= t.Magic()
      modifies mem
      ensures Valid()
      ensures forall i :: 0 <= i < mem.Length && !(dest <= i < t.Magic()) ==> mem[i] == old(mem[i])
      ensures Text(mem[..], dest) == Text(old(mem[..]), dest) + Take(Text(old(mem[..]), src), size)
    {
      assert Fits(nodes[k], mem.Length);
      hide Linked, Placed, AllIntact, Put, Text, Take, NonZero;
      ghost var m := mem[..];
      TextNonZero(m, src);
      TakeNonZero(Text(m, src), size);
      var piece := Take(Text(mem[..], src), size);
      var e := dest + StrLen(mem[..], dest);
      StoreIn(t, e, piece + [0], k);
      TextAppended(m, mem[..], dest, piece);
    }

    /** __xstrncat to the string at `dest` in the k-th block: what fits before the guard,
        and at most `n` bytes. The zero behind it may be the guard's own. */
    method XStrncat(dest: nat, src: nat, n: nat, ghost k: nat) returns (ptr: nat)
      requires Valid() && dest != 0 && k < |nodes| && nodes[k].Holds(dest) && Source(src, dest, nodes[k].Magic())
      modifies mem
      ensures Valid()
      ensures forall i :: 0 <= i < mem.Length && !(dest <= i < nodes[k].Magic()) ==> mem[i] == old(mem[i])
      ensures var d, s := Text(old(mem[..]), dest), Text(old(mem[..]), src);
        && |d| <= nodes[k].Magic() - dest
        && Text(mem[..], dest) == d + Take(Take(s, n), nodes[k].Magic() - dest - |d|)
        && ptr == if n > 0 && |d| < nodes[k].Magic() - dest then dest else 0
    {
      hide Linked, Placed, AllIntact, Take;
      var t := Holder(dest, k);
      var size := t.Magic() - (dest + StrLen(mem[..], dest));
      TakeTwice(Text(mem[..], src), n, size);
      if size > n {
        size := n;
      }
      ptr := 0;
      if size > 0 {
        Strncat(t, dest, src, size, k);
        ptr := dest;
      } else {
        TakeNone(Text(mem[..], dest), Text(mem[..], src));
      }
    }

    /** __xstrcat: the same without a bound of its own. */
    method XStrcat(dest: nat, src: nat, ghost k: nat) returns (ptr: nat)
      requires Valid() && dest != 0 && k < |nodes| && nodes[k].Holds(dest) && Source(src, dest, nodes[k].Magic())
      modifies mem
      ensures Valid()
      ensures forall i :: 0 <= i < mem.Length && !(dest <= i < nodes[k].Magic()) ==> mem[i] == old(mem[i])
      ensures var d, s := Text(old(mem[..]), dest), Text(old(mem[..]), src);
        && |d| <= nodes[k].Magic() - dest
        && Text(mem[..], dest) == d + Take(s, nodes[k].Magic() - dest - |d|)
        && ptr == if |d| < nodes[k].Magic() - dest then dest else 0
    {
      hide Linked, Placed, AllIntact, Take;
      var t := Holder(dest, k);
      var size := t.Magic() - (dest + StrLen(mem[..], dest));
      ptr := 0;
      if size > 0 {
        Strncat(t, dest, src, size, k);
        ptr := dest;
      } else {
        TakeNone(Text(mem[..], dest), Text(mem[..], src));
      }
    }

    /** __xstrnccat: one character more, unless the string would be longer than `n` or the
        block has no room for it and a zero. */
    method XStrnccat(dest: nat, ch: byte, n: nat, ghost k: nat) returns (ptr: nat)
      requires Valid() && dest != 0 && k < |nodes| && nodes[k].Holds(dest)
      modifies mem
      ensures Valid()
      ensures forall i :: 0 <= i < mem.Length && !(dest <= i < nodes[k].Magic()) ==> mem[i] == old(mem[i])
      ensures var d := Text(old(mem[..]), dest);
        var fits := |d| + 2 <= nodes[k].Magic() - dest && |d| + 1 <= n;
        && Text(mem[..], dest) == (if fits && ch != 0 then d + [ch] else d)
        && ptr == dest + |d| + if fits then 1 else 0
    {
      hide Linked, Placed, AllIntact, Put;
      var t := Holder(dest, k);
      ghost var m := mem[..];
      ptr := dest + StrLen(mem[..], dest);
      var size := t.Magic() - ptr;
      if size < 2 {
        return;
      }
      if StrLen(mem[..], dest) + 1 <= n {
        StoreIn(t, ptr, [ch, 0], k);
        AppendedChar(m, mem[..], dest, ch);
        ptr := ptr + 1;
      }
    }

    /** __xstrccat. */
    method XStrccat(dest: nat, ch: byte, ghost k: nat) returns (ptr: nat)
      requires Valid() && dest != 0 && k < |nodes| && nodes[k].Holds(dest)
      modifies mem
      ensures Valid()
      ensures forall i :: 0 <= i < mem.Length && !(dest <= i < nodes[k].Magic()) ==> mem[i] == old(mem[i])
      ensures var d := Text(old(mem[..]), dest);
        var fits := |d| + 2 <= nodes[k].Magic() - dest;
        && Text(mem[..], dest) == (if fits && ch != 0 then d + [ch] else d)
        && ptr == dest + |d| + if fits then 1 else 0
    {
      hide Linked, Placed, AllIntact, Put;
      var t := Holder(dest, k);
      ghost var m := mem[..];
      ptr := dest + StrLen(mem[..], dest);
      var size := t.Magic() - ptr;
      if size < 2 {
        return;
      }
      StoreIn(t, ptr, [ch, 0], k);
      AppendedChar(m, mem[..], dest, ch);
      ptr := ptr + 1;
    }

    /** __xmemmove into the k-th block; the bytes moved may overlap. */
    method XMemmove(dest: nat, src: nat, n: nat, ghost k: nat) returns (ptr: nat)
      requires Valid() && dest != 0 && k < |nodes| && nodes[k].Holds(dest) && src + n <= mem.Length
      modifies mem
      ensures Valid() && ptr == if n > 0 then dest else 0
      ensures forall i :: 0 <= i < mem.Length && !(dest <= i < nodes[k].Magic()) ==> mem[i] == old(mem[i])
      ensures var size := if n < nodes[k].Magic() - dest then n else nodes[k].Magic() - dest;
        dest + size <= mem.Length && mem[..] == Put(old(mem[..]), dest, old(mem[..])[src..src + size])
    {
      hide Linked, Placed, AllIntact, Put;
      var t := Holder(dest, k);
      var size := t.Magic() - dest;
      if n < size {
        size := n;
      }
      ptr := 0;
      StoreIn(t, dest, mem[..][src..src + size], k);
      if size > 0 {
        ptr := dest;
      }
    }

    /** __xmempcpy: the same, returning the address behind the last byte written. */
    method XMempcpy(dest: nat, src: nat, n: nat, ghost k: nat) returns (ptr: nat)
      requires Valid() && dest != 0 && k < |nodes| && nodes[k].Holds(dest) && src + n <= mem.Length
      modifies mem
      ensures Valid()
      ensures forall i :: 0 <= i < mem.Length && !(dest <= i < nodes[k].Magic()) ==> mem[i] == old(mem[i])
      ensures var size := if n < nodes[k].Magic() - dest then n else nodes[k].Magic() - dest;
        && ptr == (if size > 0 then dest + size else 0)
        && dest + size <= mem.Length && mem[..] == Put(old(mem[..]), dest, old(mem[..])[src..src + size])
    {
      hide Linked, Placed, AllIntact, Put;
      var t := Holder(dest, k);
      var size := t.Magic() - dest;
      if n < size {
        size := n;
      }
      ptr := XMemmove(dest, src, n, k);
      if size > 0 {
        ptr := dest + size;
      }
    }

    /** __xmemset. */
    method XMemset(s: nat, ch: byte, n: nat, ghost k: nat) returns (ptr: nat)
      requires Valid() && s != 0 && k < |nodes| && nodes[k].Holds(s)
      modifies mem
      ensures Valid() && ptr == s
      ensures forall i :: 0 <= i < mem.Length ==>
        mem[i] == if s <= i < s + n && i < nodes[k].Magic() then ch else old(mem[i])
    {
      hide Linked, Placed, AllIntact, Put;
      var t := Holder(s, k);
      var size := t.Magic() - s;
      var count := if size < n then size else n;
      ghost var m := mem[..];
      StoreIn(t, s, seq(count, _ => ch), k);
      forall i | 0 <= i < mem.Length
        ensures mem[i] == if s <= i < s + n && i < t.Magic() then ch else m[i]
      {
        assert mem[..][i] == mem[i];
      }
      ptr := s;
    }

    // ---- allocating

    /** The system's allocator found room here. */
    ghost predicate Free(at: nat, size: nat)
      reads this
    {
      && HEADER < at && at + size + GUARD <= mem.Length
      && forall i :: 0 <= i < |nodes| ==>
        at + size + GUARD <= nodes[i].bptr - HEADER || nodes[i].Magic() + GUARD <= at - HEADER
    }

    /** A new record at the head of the list. */
    method Prepend(bptr: nat, size: nat) returns (track: Track)
      requires Linked()
      modifies this
      ensures Linked() && nodes == [track] + old(nodes) && fresh(track) && track.bptr == bptr && track.size == size
    {
      track := new Track(bptr, size, rawAllocs);
      rawAllocs := track;
      nodes := [track] + nodes;
    }

    /** The bytes of a new block: all zero, and the guard. */
    method LayOut(at: nat, size: nat)
      requires HEADER < at && at + size + GUARD <= mem.Length
      modifies mem
      ensures mem[..] == Put(old(mem[..]), at - HEADER, seq(HEADER + size, _ => 0) + MAGIC)
      ensures forall i :: at <= i < at + size ==> mem[i] == 0
      ensures forall i :: 0 <= i < mem.Length && !(at - HEADER <= i < at + size + GUARD) ==> mem[i] == old(mem[i])
    {
      ghost var m := mem[..];
      ghost var r := Put(m, at - HEADER, seq(HEADER + size, _ => 0) + MAGIC);
      hide Put;
      Store(at - HEADER, seq(HEADER + size, _ => 0) + MAGIC);
      forall i | 0 <= i < mem.Length
        ensures at <= i < at + size ==> mem[i] == 0
        ensures !(at - HEADER <= i < at + size + GUARD) ==> mem[i] == m[i]
      {
        assert mem[..][i] == mem[i] && r[i] == mem[i];
      }
    }

    /** __xmalloc of a tracked block, where the system finds room. */
    method XMalloc(size: nat, at: nat) returns (ptr: nat)
      requires Valid() && (size > 0 ==> Free(at, size))
      modifies this, mem
      ensures Valid()
      ensures size == 0 ==> ptr == 0 && nodes == old(nodes) && mem[..] == old(mem[..])
      ensures size > 0 ==> ptr == at && |nodes| == |old(nodes)| + 1 && nodes[1..] == old(nodes)
      ensures size > 0 ==> fresh(nodes[0]) && nodes[0].bptr == at && nodes[0].size == size
      ensures size > 0 ==> forall i :: at <= i < at + size ==> mem[i] == 0
      ensures size > 0 ==> forall i :: 0 <= i < mem.Length && !nodes[0].Covers(i) ==> mem[i] == old(mem[i])
    {
      if size == 0 {
        return 0;
      }
      hide Put, Placed, AllIntact, Linked;
      ghost var was := nodes;
      var track := Prepend(at, size);
      LayOut(at, size);
      MallocKeeps(old(mem[..]), mem[..], was, track);
      ptr := at;
    }

    /** __xcalloc. */
    method XCalloc(nmemb: nat, size: nat, at: nat) returns (ptr: nat)
      requires Valid() && (0 < nmemb * size <= SIZE_MAX ==> Free(at, nmemb * size))
      modifies this, mem
      ensures Valid()
      ensures 0 < nmemb * size <= SIZE_MAX ==> ptr == at && |nodes| == |old(nodes)| + 1 && nodes[1..] == old(nodes)
      ensures 0 < nmemb * size <= SIZE_MAX ==>
        fresh(nodes[0]) && nodes[0].bptr == at && nodes[0].size == nmemb * size
      ensures !(0 < nmemb * size <= SIZE_MAX) ==> ptr == 0 && nodes == old(nodes) && mem[..] == old(mem[..])
    {
      hide Linked, Placed, AllIntact, Free;
      Overflows(nmemb, size);
      if nmemb > 0 && size > 0 {
        if nmemb > SIZE_MAX / size {
          return 0;
        }
        ptr := XMalloc(nmemb * size, at);
        return;
      }
      return 0;
    }

    /** The walk of __xfree to the block that holds the address. */
    method Seek(ptr: nat) returns (prev: Track?, curr: Track?, ghost k: nat)
      requires Linked()
      ensures k <= |nodes| && curr == At(nodes, k) && prev == At(nodes, k - 1)
      ensures curr != null ==> curr.Holds(ptr)
      ensures curr == null ==> !Tracked(ptr)
    {
      prev, curr, k := null, rawAllocs, 0;
      while curr != null && !(curr.bptr <= ptr < curr.Magic())
        invariant k <= |nodes| && curr == At(nodes, k) && prev == At(nodes, k - 1)
        invariant forall j :: 0 <= j < k ==> !nodes[j].Holds(ptr)
        decreases |nodes| - k
      {
        prev, curr := curr, curr.next;
        k := k + 1;
      }
    }

    /** __xfree: unlinks the one block that holds the address, if there is one, and tells
        whether its guard was broken. */
    method XFree(ptr: nat) returns (overrun: bool, ghost k: nat)
      requires Sound()
      modifies this, nodes
      ensures Sound() && (old(Valid()) ==> Valid() && !overrun)
      ensures overrun ==> old(Tracked(ptr))
      ensures old(Tracked(ptr)) && k < |old(nodes)| ==> (overrun <==> !Intact(mem[..], old(nodes)[k]))
      ensures if old(Tracked(ptr)) then
          k < |old(nodes)| && old(nodes)[k].Holds(ptr) && nodes == old(nodes)[..k] + old(nodes)[k + 1..]
        else nodes == old(nodes)
    {
      hide Placed, AllIntact, Linked;
      overrun, k := false, 0;
      if ptr == 0 {
        NullUntracked();
        return;
      }
      var prev, curr, j := Seek(ptr);
      k := j;
      if curr != null {
        FreeKeeps(mem[..], nodes, k);
        GuardFacts(k);
        var ok := GuardIs(curr.Magic());
        if !ok {
          overrun := true;
        }
        Unlink(prev, curr, k);
      }
    }

    method Unlink(prev: Track?, curr: Track, ghost k: nat)
      requires Linked() && k < |nodes| && curr == nodes[k] && prev == At(nodes, k - 1)
      modifies this, nodes
      ensures Linked() && nodes == old(nodes)[..k] + old(nodes)[k + 1..]
    {
      if rawAllocs == curr {
        rawAllocs := curr.next;
      } else {
        prev.next := curr.next;
      }
      nodes := nodes[..k] + nodes[k + 1..];
    }

    /** The move of __xrealloc: the bytes of the old block that fit the new one. */
    method MoveBytes(from: Track, ptr: nat, size: nat, at: nat)
      requires Valid() && |nodes| > 0 && nodes[0].bptr == at && nodes[0].size == size && size > 0
      requires ptr == from.bptr && ptr + from.size <= mem.Length && at + size <= mem.Length
      requires mem[at..at + size] == seq(size, _ => 0)
      modifies mem
      ensures Valid() && mem[at..at + size] == Padded(old(mem[..])[ptr..ptr + from.size], size)
      ensures forall i :: 0 <= i < mem.Length && !(at <= i < at + size) ==> mem[i] == old(mem[i])
    {
      hide Linked, Placed, AllIntact, Put, Padded;
      var n := if from.size < size then from.size else size;
      ghost var m := mem[..];
      var t := Holder(at, 0);
      assert m[at..at + size] == mem[at..at + size];
      PutPadded(m, at, size, m[ptr..ptr + from.size]);
      assert m[ptr..ptr + n] == Take(m[ptr..ptr + from.size], size);
      StoreIn(t, at, mem[..][ptr..ptr + n], 0);
      assert mem[..][at..at + size] == mem[at..at + size];
    }

    /** The first half of __xrealloc: the new block with the bytes it keeps. */
    method Regrow(ptr: nat, size: nat, at: nat, ghost k: nat) returns (nptr: nat)
      requires Valid() && k < |nodes| && ptr == nodes[k].bptr && size > 0 && Free(at, size)
      modifies this, mem
      ensures Valid() && nptr == at && |nodes| == |old(nodes)| + 1 && nodes[1..] == old(nodes)
      ensures nodes[0].bptr == at && nodes[0].size == size && fresh(nodes[0])
      ensures at + size <= mem.Length && ptr + old(nodes)[k].size <= mem.Length
      ensures mem[at..at + size] == Padded(old(mem[..])[ptr..ptr + old(nodes)[k].size], size)
      ensures forall i :: 0 <= i < mem.Length && !nodes[0].Covers(i) ==> mem[i] == old(mem[i])
    {
      hide Linked, Placed, AllIntact, Free, Put, Padded;
      NodeFacts(k);
      FreeFacts(k, at, size);
      var t := Holder(ptr, k);
      nptr := XMalloc(size, at);
      assert mem[..][ptr..ptr + t.size] == old(mem[..])[ptr..ptr + t.size];
      assert mem[at..at + size] == seq(size, _ => 0);
      MoveBytes(t, ptr, size, at);
    }

    /** __xrealloc of the k-th block: a new block with the old bytes that fit and zeros
        behind them takes its place, and nothing else changes. */
    method XRealloc(ptr: nat, size: nat, at: nat, ghost k: nat) returns (nptr: nat)
      requires Valid() && k < |nodes| && ptr == nodes[k].bptr && size > 0 && Free(at, size)
      modifies this, nodes, mem
      ensures Valid() && nptr == at && |nodes| == |old(nodes)|
      ensures fresh(nodes[0]) && nodes[0].bptr == at && nodes[0].size == size
      ensures nodes[1..] == old(nodes)[..k] + old(nodes)[k + 1..]
      ensures at + size <= mem.Length && ptr + old(nodes)[k].size <= mem.Length
      ensures mem[at..at + size] == Padded(old(mem[..])[ptr..ptr + old(nodes)[k].size], size)
      ensures forall i :: 0 <= i < mem.Length && !nodes[0].Covers(i) ==> mem[i] == old(mem[i])
    {
      hide Linked, Placed, AllIntact, Free, Padded;
      NodeFacts(k);
      ghost var was := nodes;
      nptr := Regrow(ptr, size, at, k);
      ghost var now := nodes;
      OneAhead(now, was, k);
      HolderIndex(ptr, k + 1);
      var _, j := XFree(ptr);
    }

    lemma GuardFacts(k: nat)
      requires Sound() && k < |nodes|
      ensures nodes[k].Magic() + GUARD <= mem.Length
      ensures Intact(mem[..], nodes[k]) <==> mem[nodes[k].Magic()..nodes[k].Magic() + GUARD] == MAGIC
    {
      assert Fits(nodes[k], mem.Length);
      assert mem[..][nodes[k].Magic()..nodes[k].Magic() + GUARD] == mem[nodes[k].Magic()..nodes[k].Magic() + GUARD];
    }

    lemma NodeFacts(k: nat)
      requires Valid() && k < |nodes|
      ensures Fits(nodes[k], mem.Length) && mem[nodes[k].Magic()..nodes[k].Magic() + GUARD] == MAGIC
      ensures nodes[k].Holds(nodes[k].bptr)
    {
      assert Fits(nodes[k], mem.Length) && Intact(mem[..], nodes[k]);
      assert mem[..][nodes[k].Magic()..nodes[k].Magic() + GUARD] == mem[nodes[k].Magic()..nodes[k].Magic() + GUARD];
    }

    lemma FreeFacts(k: nat, at: nat, size: nat)
      requires Free(at, size) && k < |nodes|
      ensures HEADER < at && at + size + GUARD <= mem.Length
      ensures at + size + GUARD <= nodes[k].bptr - HEADER || nodes[k].Magic() + GUARD <= at - HEADER
    {
    }

    lemma HolderIndex(p: nat, k: nat)
      requires Valid() && k < |nodes| && nodes[k].Holds(p)
      ensures forall j :: 0 <= j < |nodes| && nodes[j].Holds(p) ==> j == k
    {
      forall j | 0 <= j < |nodes| && nodes[j].Holds(p)
        ensures j == k
      {
        OnlyHolder(nodes, mem.Length, j, k, p);
      }
    }

    // ---- any run

    /** Whether a source string ends in memory, clear of what is written to. */
    predicate Readable(src: nat, dest: nat, limit: nat)
      reads mem
    {
      src != 0 && src < mem.Length && src + StrLen(mem[..], src) < mem.Length
      && (src + StrLen(mem[..], src) < dest || limit <= src)
    }

    /** Whether the system could have found room here. */
    method IsFree(at: nat, size: nat) returns (r: bool)
      requires Valid()
      ensures r <==> Free(at, size)
    {
      if !(HEADER < at && at + size + GUARD <= mem.Length) {
        return false;
      }
      var t := rawAllocs;
      ghost var k := 0;
      while t != null
        invariant k <= |nodes| && t == At(nodes, k)
        invariant forall i :: 0 <= i < k ==>
          at + size + GUARD <= nodes[i].bptr - HEADER || nodes[i].Magic() + GUARD <= at - HEADER
        decreases |nodes| - k
      {
        if !(at + size + GUARD <= t.bptr - HEADER || t.Magic() + GUARD <= at - HEADER) {
          return false;
        }
        t := t.next;
        k := k + 1;
      }
      return true;
    }

    /** A clamped string copy; if its caller breaks its part, it is not made. */
    method CopyString(kind: TextKind, dest: nat, src: nat, n: nat)
      requires Valid()
      modifies mem
      ensures Valid()
    {
      hide Linked, Placed, AllIntact, Put, Text, Take, Padded;
      var t, k := XFind(dest);
      if t == null || dest == 0 || !Readable(src, dest, t.Magic()) {
        return;
      }
      hide Valid;
      if kind.Strcpy? {
        var _ := XStrcpy(dest, src, k);
      } else if kind.Strncpy? {
        var _ := XStrncpy(dest, src, n, k);
      } else if kind.Strcat? {
        var _ := XStrcat(dest, src, k);
      } else {
        var _ := XStrncat(dest, src, n, k);
      }
    }

    /** A clamped write of bytes. */
    method WriteBytes(op: MemOp)
      requires Valid() && (op.AddChar? || op.Move? || op.Fill?)
      modifies mem
      ensures Valid()
    {
      hide Linked, Placed, AllIntact, Put, Text;
      var t, k := XFind(op.dest);
      if t == null || op.dest == 0 {
        return;
      }
      hide Valid;
      if op.Fill? {
        var _ := XMemset(op.dest, op.ch, op.n, k);
      } else if op.AddChar? {
        if op.bounded {
          var _ := XStrnccat(op.dest, op.ch, op.n, k);
        } else {
          var _ := XStrccat(op.dest, op.ch, k);
        }
      } else if op.src + op.n <= mem.Length {
        if op.counted {
          var _ := XMempcpy(op.dest, op.src, op.n, k);
        } else {
          var _ := XMemmove(op.dest, op.src, op.n, k);
        }
      }
    }

    /** A new block, where there is room for it. */
    method Grant(size: nat, at: nat, ghost all: set<Track>) returns (ghost grown: set<Track>)
      requires Valid() && size > 0 && Free(at, size) && forall i :: 0 <= i < |nodes| ==> nodes[i] in all
      modifies this, mem
      ensures Valid() && all <= grown && fresh(grown - all) && forall i :: 0 <= i < |nodes| ==> nodes[i] in grown
      ensures Layout() == [(at, size)] + old(Layout())
    {
      hide Linked, Placed, AllIntact, Put, Free;
      var _ := XMalloc(size, at);
      grown := all + {nodes[0]};
      assert forall i :: 0 < i < |nodes| ==> nodes[i] == nodes[1..][i - 1];
    }

    /** An array, where there is room for it. */
    method GrantArray(nmemb: nat, size: nat, at: nat, ghost all: set<Track>) returns (ghost grown: set<Track>)
      requires Valid() && Free(at, nmemb * size) && forall i :: 0 <= i < |nodes| ==> nodes[i] in all
      modifies this, mem
      ensures Valid() && all <= grown && fresh(grown - all) && forall i :: 0 <= i < |nodes| ==> nodes[i] in grown
      ensures Layout() == if 0 < nmemb * size <= SIZE_MAX then [(at, nmemb * size)] + old(Layout()) else old(Layout())
    {
      hide Linked, Placed, AllIntact, Put, Free;
      ghost var n := nmemb * size;
      grown := all;
      var ptr := XCalloc(nmemb, size, at);
      if 0 < nmemb * size <= SIZE_MAX {
        grown := all + {nodes[0]};
        assert forall i :: 0 < i < |nodes| ==> nodes[i] == nodes[1..][i - 1];
      }
    }

    /** A release. */
    method Discard(p: nat)
      requires Valid()
      modifies this, nodes
      ensures Valid() && Layout() == Omit(old(Layout()), HolderOf(old(Layout()), p))
      ensures forall t :: t in nodes ==> t in old(nodes)
    {
      hide Linked, Placed, AllIntact, HolderOf;
      HolderLayout(p);
      var _, k := XFree(p);
    }

    /** An allocation or a release. */
    method Manage(op: MemOp, ghost all: set<Track>) returns (ghost grown: set<Track>)
      requires Valid() && forall i :: 0 <= i < |nodes| ==> nodes[i] in all
      requires op.Malloc? || op.Calloc? || op.Release?
      modifies this, all, mem
      ensures Valid() && all <= grown && fresh(grown - all) && forall i :: 0 <= i < |nodes| ==> nodes[i] in grown
      ensures Layout() == After(old(Layout()), mem.Length, op)
    {
      hide Valid, Free, FreeIn, HolderOf, Omit, Layout;
      grown := all;
      match op
      case Malloc(size, at) =>
        FreeLayout(at, size);
        var ok := IsFree(at, size);
        if ok && size > 0 {
          grown := Grant(size, at, all);
        }
      case Calloc(nmemb, size, at) =>
        FreeLayout(at, nmemb * size);
        var ok := IsFree(at, nmemb * size);
        if ok {
          grown := GrantArray(nmemb, size, at, all);
        }
      case Release(p) =>
        Discard(p);
        assert forall i :: 0 <= i < |nodes| ==> nodes[i] in nodes;
    }

    /** The blocks as the list has them: where each lies, and its size. */
    ghost function Layout(): seq<(nat, nat)>
      reads this
    {
      Spans(nodes)
    }

    lemma FreeLayout(at: nat, size: nat)
      ensures Free(at, size) <==> FreeIn(Layout(), mem.Length, at, size)
    {
      assert forall i :: 0 <= i < |nodes| ==> Layout()[i] == (nodes[i].bptr, nodes[i].size);
    }

    /** At most one block holds an address, and the layout tells which. */
    lemma HolderLayout(p: nat)
      requires Sound()
      ensures Tracked(p) <==> HolderOf(Layout(), p) < |nodes|
      ensures forall k :: 0 <= k < |nodes| && nodes[k].Holds(p) ==> k == HolderOf(Layout(), p)
    {
      var i := HolderOf(Layout(), p);
      assert forall j :: 0 <= j < |nodes| ==> Layout()[j] == (nodes[j].bptr, nodes[j].size);
      forall k | 0 <= k < |nodes| && nodes[k].Holds(p)
        ensures k == i
      {
        assert Layout()[k].0 <= p < Layout()[k].0 + Layout()[k].1;
        assert i <= k && nodes[i].Holds(p);
        assert nodes[k].Covers(p);
        OnlyHolder(nodes, mem.Length, i, k, p);
      }
      if i < |nodes| {
        assert nodes[i].Holds(p);
      }
    }

    lemma HoldsLayout(p: nat, k: nat)
      requires k < |nodes|
      ensures Layout()[k] == (nodes[k].bptr, nodes[k].size)
    {
    }

    /** The case of a block's start, a positive size and a place for it. */
    method Renew(p: nat, size: nat, at: nat, ghost k: nat, ghost all: set<Track>) returns (ghost grown: set<Track>)
      requires Valid() && forall i :: 0 <= i < |nodes| ==> nodes[i] in all
      requires k < |nodes| && nodes[k].bptr == p && size > 0 && Free(at, size)
      modifies this, all, mem
      ensures Valid() && all <= grown && fresh(grown - all) && forall i :: 0 <= i < |nodes| ==> nodes[i] in grown
      ensures Layout() == [(at, size)] + Omit(old(Layout()), k)
    {
      hide Linked, Placed, AllIntact, Put, Free, Padded;
      hide Spans, Omit;
      ghost var was := nodes;
      var _ := XRealloc(p, size, at, k);
      grown := all + {nodes[0]};
      RenewedSpans(nodes, was, k);
      RenewedNodes(nodes, was, k, all);
    }

    /** __xrealloc in all its cases but for an address inside a block or in none. */
    method Resize(p: nat, size: nat, at: nat, ghost all: set<Track>) returns (ghost grown: set<Track>)
      requires Valid() && forall i :: 0 <= i < |nodes| ==> nodes[i] in all
      modifies this, all, mem
      ensures Valid() && all <= grown && fresh(grown - all) && forall i :: 0 <= i < |nodes| ==> nodes[i] in grown
      ensures Layout() == After(old(Layout()), mem.Length, Realloc(p, size, at))
    {
      hide Linked, Placed, AllIntact, Put, Free, Padded, FreeIn, HolderOf;
      if size == 0 {
        grown := Manage(Release(p), all);
        return;
      }
      if p == 0 {
        grown := Manage(Malloc(size, at), all);
        return;
      }
      grown := all;
      FreeLayout(at, size);
      var ok := IsFree(at, size);
      var t, k := XFind(p);
      HolderLayout(p);
      if ok && t != null && t.bptr == p {
        HoldsLayout(p, k);
        grown := Renew(p, size, at, k, all);
      } else if t != null {
        HoldsLayout(p, k);
      }
    }

    /** One operation; if its caller breaks its part, it is not made. */
    method Perform(op: MemOp, ghost all: set<Track>) returns (ghost grown: set<Track>)
      requires Valid() && forall i :: 0 <= i < |nodes| ==> nodes[i] in all
      modifies this, all, mem
      ensures Valid() && all <= grown && fresh(grown - all) && forall i :: 0 <= i < |nodes| ==> nodes[i] in grown
      ensures Layout() == After(old(Layout()), mem.Length, op)
    {
      hide Linked, Placed, AllIntact, Put, Free;
      grown := all;
      match op
      case Malloc(_, _) => grown := Manage(op, all);
      case Calloc(_, _, _) => grown := Manage(op, all);
      case Realloc(p, size, at) => grown := Resize(p, size, at, all);
      case Release(_) => grown := Manage(op, all);
      case CopyText(kind, dest, src, n) => CopyString(kind, dest, src, n);
      case AddChar(_, _, _, _) => WriteBytes(op);
      case Move(_, _, _, _) => WriteBytes(op);
      case Fill(_, _, _) => WriteBytes(op);
    }

    /** After any sequence of operations the list is sound, the blocks lie apart, every
        live block's guard is intact, and the blocks are those the operations make. */
    method Run(ops: seq<MemOp>)
      requires Valid()
      modifies this, nodes, mem
      ensures Valid() && Layout() == AfterAll(old(Layout()), mem.Length, ops)
    {
      hide Valid, After;
      ghost var all := set t | t in nodes;
      for i := 0 to |ops|
        invariant Valid() && fresh(all - (set t | t in old(nodes))) && forall i :: 0 <= i < |nodes| ==> nodes[i] in all
        invariant Layout() == AfterAll(old(Layout()), mem.Length, ops[..i])
      {
        assert ops[..i + 1][..i] == ops[..i];
        all := Perform(ops[i], all);
      }
      assert ops[..|ops|] == ops;
    }
  }

  datatype TextKind = Strcpy | Strncpy | Strcat | Strncat

  /** Allocations, frees and clamped writes. */
  datatype MemOp =
    | Malloc(size: nat, at: nat)
    | Calloc(nmemb: nat, size: nat, at: nat)
    | Realloc(p: nat, size: nat, at: nat)
    | Release(p: nat)
    | CopyText(kind: TextKind, dest: nat, src: nat, n: nat)
    | AddChar(bounded: bool, dest: nat, ch: byte, n: nat)
    | Move(counted: bool, dest: nat, src: nat, n: nat)
    | Fill(dest: nat, ch: byte, n: nat)

  // ---- what operations make of the blocks

  function Spans(ts: seq<Track>): (l: seq<(nat, nat)>)
    ensures |l| == |ts| && forall i :: 0 <= i < |ts| ==> l[i] == (ts[i].bptr, ts[i].size)
  {
    seq(|ts|, i requires 0 <= i < |ts| => (ts[i].bptr, ts[i].size))
  }

  lemma RenewedSpans(now: seq<Track>, was: seq<Track>, k: nat)
    requires k < |was| && |now| == |was| && now[1..] == was[..k] + was[k + 1..]
    ensures Spans(now) == [(now[0].bptr, now[0].size)] + Omit(Spans(was), k)
  {
    forall i | 0 < i < |now|
      ensures now[i] == if i <= k then was[i - 1] else was[i]
    {
      assert now[i] == now[1..][i - 1];
    }
  }

  lemma RenewedNodes(now: seq<Track>, was: seq<Track>, k: nat, all: set<Track>)
    requires k < |was| && |now| == |was| && now[1..] == was[..k] + was[k + 1..]
    requires forall i :: 0 <= i < |was| ==> was[i] in all
    ensures forall i :: 0 <= i < |now| ==> now[i] in all + {now[0]}
  {
    forall i | 0 < i < |now|
      ensures now[i] in all
    {
      assert now[i] == now[1..][i - 1];
    }
  }

  /** There is room for a block between the others, header and guard included. */
  ghost predicate FreeIn(l: seq<(nat, nat)>, n: nat, at: nat, size: nat) {
    && HEADER < at && at + size + GUARD <= n
    && forall i :: 0 <= i < |l| ==> at + size + GUARD <= l[i].0 - HEADER || l[i].0 + l[i].1 + GUARD <= at - HEADER
  }

  /** The first block that holds an address, or none. */
  function HolderOf(l: seq<(nat, nat)>, p: nat): (i: nat)
    ensures i <= |l| && (i < |l| ==> l[i].0 <= p < l[i].0 + l[i].1)
    ensures forall j :: 0 <= j < i ==> !(l[j].0 <= p < l[j].0 + l[j].1)
  {
    if l == [] || l[0].0 <= p < l[0].0 + l[0].1 then 0 else 1 + HolderOf(l[1..], p)
  }

  function Omit(l: seq<(nat, nat)>, i: nat): seq<(nat, nat)> {
    if i < |l| then l[..i] + l[i + 1..] else l
  }

  /** The blocks after one operation, as far as its caller plays its part. */
  ghost function After(l: seq<(nat, nat)>, n: nat, op: MemOp): seq<(nat, nat)> {
    match op
    case Malloc(size, at) => if size > 0 && FreeIn(l, n, at, size) then [(at, size)] + l else l
    case Calloc(nmemb, size, at) =>
      if 0 < nmemb * size <= SIZE_MAX && FreeIn(l, n, at, nmemb * size) then [(at, nmemb * size)] + l else l
    case Realloc(p, size, at) =>
      if size == 0 then Omit(l, HolderOf(l, p))
      else if p == 0 then (if FreeIn(l, n, at, size) then [(at, size)] + l else l)
      else
        var i := HolderOf(l, p);
        if i < |l| && l[i].0 == p && FreeIn(l, n, at, size) then [(at, size)] + Omit(l, i) else l
    case Release(p) => Omit(l, HolderOf(l, p))
    case _ => l
  }

  ghost function AfterAll(l: seq<(nat, nat)>, n: nat, ops: seq<MemOp>): seq<(nat, nat)> {
    if ops == [] then l else After(AfterAll(l, n, ops[..|ops| - 1]), n, ops[|ops| - 1])
  }

  lemma OneAhead(now: seq<Track>, was: seq<Track>, k: nat)
    requires |now| == |was| + 1 && now[1..] == was && k < |was|
    ensures now[k + 1] == was[k]
    ensures var r := now[..k + 1] + now[k + 2..]; r[0] == now[0] && r[1..] == was[..k] + was[k + 1..]
  {
    assert now[k + 1] == now[1..][k];
    assert (now[..k + 1] + now[k + 2..])[1..] == now[1..][..k] + now[1..][k + 1..];
  }

  lemma MallocKeeps(m: seq<byte>, r: seq<byte>, ts: seq<Track>, t: Track)
    requires Placed(ts, |m|) && AllIntact(m, ts) && t.size > 0
    requires HEADER < t.bptr && t.Magic() + GUARD <= |m|
    requires forall i :: 0 <= i < |ts| ==> Separate(t, ts[i])
    requires r == Put(m, t.bptr - HEADER, seq(HEADER + t.size, _ => 0) + MAGIC)
    ensures Placed([t] + ts, |m|) && AllIntact(r, [t] + ts)
  {
    hide Put;
    assert r[t.Magic()..t.Magic() + GUARD] == MAGIC;
    forall i | 0 <= i < |ts|
      ensures Intact(r, ts[i])
    {
      assert Separate(t, ts[i]) && Intact(m, ts[i]);
      var g := ts[i].Magic();
      assert r[g..g + GUARD] == m[g..g + GUARD];
    }
  }

  lemma FreeKeeps(m: seq<byte>, ts: seq<Track>, k: nat)
    requires Placed(ts, |m|) && k < |ts|
    ensures Placed(ts[..k] + ts[k + 1..], |m|)
    ensures AllIntact(m, ts) ==> Intact(m, ts[k]) && AllIntact(m, ts[..k] + ts[k + 1..])
  {
  }

  lemma Overflows(nmemb: nat, size: nat)
    ensures nmemb > 0 && size > 0 ==> (nmemb > SIZE_MAX / size <==> nmemb * size > SIZE_MAX)
    ensures nmemb == 0 || size == 0 ==> nmemb * size == 0
    ensures nmemb > 0 && size > 0 ==> nmemb * size > 0
  {
    if nmemb > 0 && size > 0 {
      var q := SIZE_MAX / size;
      assert q * size <= SIZE_MAX < (q + 1) * size;
      if nmemb > q {
        assert nmemb * size >= (q + 1) * size;
      } else {
        assert nmemb * size <= q * size;
      }
    }
  }
}
