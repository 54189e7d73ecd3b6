/** How a queue entry saves its command, arguments and registers in one block: a first pass
    adds up the lengths, a second copies the pieces one behind the other. */
module Packing {
  import opened AllocSpec

  const INT_MAX: nat := 0x7fff_ffff
  const NUM_ENV_VARS: nat := 10

  datatype Option<+T> = None | Some(value: T)

  /** A named register; it is saved if it has both. */
  datatype XReg = XReg(name: Option<seq<byte>>, value: Option<seq<byte>>)

  /** What an entry saves: the command, the arguments, the q-registers and the x-registers. */
  datatype Saved = Saved(
    comm: Option<seq<byte>>,
    args: seq<Option<seq<byte>>>,
    qRegs: seq<Option<seq<byte>>>,
    xRegs: seq<XReg>)

  predicate IsText(o: Option<seq<byte>>) {
    o.Some? ==> NonZero(o.value)
  }

  /** The strings hold no zero bytes, so the lengths kept with registers are right. */
  predicate Texts(s: Saved) {
    && IsText(s.comm)
    && (forall i :: 0 <= i < |s.args| ==> IsText(s.args[i]))
    && (forall i :: 0 <= i < |s.qRegs| ==> IsText(s.qRegs[i]))
    && (forall i :: 0 <= i < |s.xRegs| ==> IsText(s.xRegs[i].name) && IsText(s.xRegs[i].value))
  }

  // ---- what has to be saved, piece by piece

  function PieceOf(o: Option<seq<byte>>): seq<seq<byte>> {
    if o.Some? then [o.value] else []
  }

  function XPieces(x: XReg): seq<seq<byte>> {
    if x.name.Some? && x.value.Some? then [x.name.value, x.value.value] else []
  }

  function PiecesOf(os: seq<Option<seq<byte>>>): seq<seq<byte>> {
    if os == [] then [] else PiecesOf(os[..|os| - 1]) + PieceOf(os[|os| - 1])
  }

  function AllXPieces(xs: seq<XReg>): seq<seq<byte>> {
    if xs == [] then [] else AllXPieces(xs[..|xs| - 1]) + XPieces(xs[|xs| - 1])
  }

  function Pieces(s: Saved): seq<seq<byte>> {
    PieceOf(s.comm) + PiecesOf(s.args) + PiecesOf(s.qRegs) + AllXPieces(s.xRegs)
  }

  /** The block: every piece with its zero. */
  function Packed(ps: seq<seq<byte>>): seq<byte> {
    if ps == [] then [] else Packed(ps[..|ps| - 1]) + (ps[|ps| - 1] + [0])
  }

  lemma {:induction false} PackedAppend(a: seq<seq<byte>>, b: seq<seq<byte>>)
    ensures Packed(a + b) == Packed(a) + Packed(b)
  {
    if b == [] {
      assert a + b == a;
    } else {
      assert (a + b)[..|a + b| - 1] == a + b[..|b| - 1];
      PackedAppend(a, b[..|b| - 1]);
    }
  }

  lemma PackedOne(ps: seq<seq<byte>>, p: seq<byte>)
    ensures Packed(ps + [p]) == Packed(ps) + (p + [0])
    ensures |Packed(ps + [p])| == |Packed(ps)| + |p| + 1
  {
    assert (ps + [p])[..|ps|] == ps;
  }

  /** A string of the block, found at `at`. */
  predicate Kept(m: seq<byte>, at: nat, s: seq<byte>) {
    at + |s| < |m| && m[at..at + |s|] == s && m[at + |s|] == 0
  }

  lemma KeptLater(m: seq<byte>, more: seq<byte>, at: nat, s: seq<byte>)
    requires Kept(m, at, s)
    ensures Kept(m + more, at, s)
  {
  }

  lemma KeptReads(m: seq<byte>, at: nat, s: seq<byte>)
    requires Kept(m, at, s) && NonZero(s)
    ensures Text(m, at) == s
  {
    TextIs(m, at, s);
  }

  // ---- the first pass

  lemma {:induction false} PiecesSplit(os: seq<Option<seq<byte>>>, i: nat)
    requires i <= |os|
    ensures PiecesOf(os) == PiecesOf(os[..i]) + PiecesOf(os[i..])
  {
    if i == |os| {
      assert os[..i] == os && os[i..] == [];
    } else {
      assert os[..|os| - 1][..i] == os[..i] && os[i..][..|os| - i - 1] == os[..|os| - 1][i..];
      PiecesSplit(os[..|os| - 1], i);
    }
  }

  lemma {:induction false} XSplit(xs: seq<XReg>, i: nat)
    requires i <= |xs|
    ensures AllXPieces(xs) == AllXPieces(xs[..i]) + AllXPieces(xs[i..])
  {
    if i == |xs| {
      assert xs[..i] == xs && xs[i..] == [];
    } else {
      assert xs[..|xs| - 1][..i] == xs[..i] && xs[i..][..|xs| - i - 1] == xs[..|xs| - 1][i..];
      XSplit(xs[..|xs| - 1], i);
    }
  }

  lemma PieceSize(ps: seq<seq<byte>>, o: Option<seq<byte>>)
    ensures |Packed(ps + PieceOf(o))| == |Packed(ps)| + if o.Some? then |o.value| + 1 else 0
  {
    if o.Some? {
      PackedOne(ps, o.value);
    } else {
      assert ps + PieceOf(o) == ps;
    }
  }

  lemma XSize(ps: seq<seq<byte>>, x: XReg)
    ensures |Packed(ps + XPieces(x))| ==
      |Packed(ps)| + if x.name.Some? && x.value.Some? then |x.name.value| + |x.value.value| + 2 else 0
  {
    if x.name.Some? && x.value.Some? {
      PackedOne(ps, x.name.value);
      PackedOne(ps + [x.name.value], x.value.value);
      assert ps + XPieces(x) == ps + [x.name.value] + [x.value.value];
    } else {
      assert ps + XPieces(x) == ps;
    }
  }

  /** What is counted, or copied, when `a` of the strings are dealt with. */
  function Upto(ps: seq<seq<byte>>, os: seq<Option<seq<byte>>>, a: nat): seq<seq<byte>>
    requires a <= |os|
  {
    ps + PiecesOf(os[..a])
  }

  lemma UptoEnds(ps: seq<seq<byte>>, os: seq<Option<seq<byte>>>)
    ensures Upto(ps, os, 0) == ps && Upto(ps, os, |os|) == ps + PiecesOf(os)
  {
    assert os[..|os|] == os;
    assert PiecesOf(os[..0]) == [];
  }

  lemma UptoNext(ps: seq<seq<byte>>, os: seq<Option<seq<byte>>>, a: nat)
    requires a < |os|
    ensures Upto(ps, os, a + 1) == Upto(ps, os, a) + PieceOf(os[a])
    ensures |Packed(Upto(ps, os, a + 1))| == |Packed(Upto(ps, os, a))| + if os[a].Some? then |os[a].value| + 1 else 0
  {
    hide Packed;
    assert os[..a + 1][..a] == os[..a];
    var x, y := PiecesOf(os[..a]), PieceOf(os[a]);
    assert ps + (x + y) == ps + x + y;
    PieceSize(ps + x, os[a]);
  }

  lemma UptoLess(ps: seq<seq<byte>>, os: seq<Option<seq<byte>>>, a: nat)
    requires a <= |os|
    ensures |Packed(Upto(ps, os, a))| <= |Packed(ps + PiecesOf(os))|
  {
    hide Packed;
    PiecesSplit(os, a);
    hide PiecesOf;
    MorePieces(ps + PiecesOf(os[..a]), PiecesOf(os[a..]));
    assert ps + (PiecesOf(os[..a]) + PiecesOf(os[a..])) == ps + PiecesOf(os[..a]) + PiecesOf(os[a..]);
  }

  function XUpto(ps: seq<seq<byte>>, xs: seq<XReg>, a: nat): seq<seq<byte>>
    requires a <= |xs|
  {
    ps + AllXPieces(xs[..a])
  }

  lemma XUptoEnds(ps: seq<seq<byte>>, xs: seq<XReg>)
    ensures XUpto(ps, xs, 0) == ps && XUpto(ps, xs, |xs|) == ps + AllXPieces(xs)
  {
    assert xs[..|xs|] == xs;
    assert AllXPieces(xs[..0]) == [];
  }

  lemma XUptoNext(ps: seq<seq<byte>>, xs: seq<XReg>, a: nat)
    requires a < |xs|
    ensures XUpto(ps, xs, a + 1) == XUpto(ps, xs, a) + XPieces(xs[a])
    ensures |Packed(XUpto(ps, xs, a + 1))| == |Packed(XUpto(ps, xs, a))|
      + if xs[a].name.Some? && xs[a].value.Some? then |xs[a].name.value| + |xs[a].value.value| + 2 else 0
  {
    hide Packed;
    assert xs[..a + 1][..a] == xs[..a];
    var x, y := AllXPieces(xs[..a]), XPieces(xs[a]);
    assert ps + (x + y) == ps + x + y;
    XSize(ps + x, xs[a]);
  }

  lemma XUptoLess(ps: seq<seq<byte>>, xs: seq<XReg>, a: nat)
    requires a <= |xs|
    ensures |Packed(XUpto(ps, xs, a))| <= |Packed(ps + AllXPieces(xs))|
  {
    hide Packed;
    XSplit(xs, a);
    hide AllXPieces;
    MorePieces(ps + AllXPieces(xs[..a]), AllXPieces(xs[a..]));
    assert ps + (AllXPieces(xs[..a]) + AllXPieces(xs[a..])) == ps + AllXPieces(xs[..a]) + AllXPieces(xs[a..]);
  }

  /** Adds up what the strings in `os` take, if the sum still fits an int. */
  method AddStrings(tlen0: nat, os: seq<Option<seq<byte>>>, ghost ps: seq<seq<byte>>) returns (tlen: Option<nat>)
    requires tlen0 <= INT_MAX && tlen0 == |Packed(ps)|
    ensures var n := |Packed(ps + PiecesOf(os))|; tlen == if n <= INT_MAX then Some(n) else None
  {
    hide Packed, Upto, PiecesOf;
    var t := tlen0;
    UptoEnds(ps, os);
    for a := 0 to |os|
      invariant t == |Packed(Upto(ps, os, a))| <= INT_MAX
    {
      UptoNext(ps, os, a);
      UptoLess(ps, os, a + 1);
      if os[a].Some? {
        var len := |os[a].value| + 1;
        if len > INT_MAX || t > INT_MAX - len {
          return None;
        }
        t := t + len;
      }
    }
    return Some(t);
  }

  method AddXRegs(tlen0: nat, xs: seq<XReg>, ghost ps: seq<seq<byte>>) returns (tlen: Option<nat>)
    requires tlen0 <= INT_MAX && tlen0 == |Packed(ps)|
    ensures var n := |Packed(ps + AllXPieces(xs))|; tlen == if n <= INT_MAX then Some(n) else None
  {
    hide Packed, XUpto, AllXPieces;
    var t := tlen0;
    XUptoEnds(ps, xs);
    for a := 0 to |xs|
      invariant t == |Packed(XUpto(ps, xs, a))| <= INT_MAX
    {
      XUptoNext(ps, xs, a);
      XUptoLess(ps, xs, a + 1);
      if xs[a].name.Some? && xs[a].value.Some? {
        var len := |xs[a].name.value| + |xs[a].value.value| + 2;
        if len > INT_MAX || t > INT_MAX - len {
          return None;
        }
        t := t + len;
      }
    }
    return Some(t);
  }

  lemma {:induction false} MorePieces(a: seq<seq<byte>>, b: seq<seq<byte>>)
    ensures |Packed(a + b)| >= |Packed(a)|
  {
    PackedAppend(a, b);
  }

  /** The length of the save string, or nothing if it is no int. */
  method AddUp(s: Saved) returns (tlen: Option<nat>)
    ensures var n := |Packed(Pieces(s))|; tlen == if n <= INT_MAX then Some(n) else None
  {
    hide Packed, PiecesOf, AllXPieces;
    var c, a, q, x := PieceOf(s.comm), PiecesOf(s.args), PiecesOf(s.qRegs), AllXPieces(s.xRegs);
    MorePieces(c, a);
    MorePieces(c + a, q);
    MorePieces(c + a + q, x);
    PackedNone();
    tlen := AddStrings(0, [s.comm], []);
    OnePiece(s.comm);
    if tlen.None? {
      return;
    }
    tlen := AddStrings(tlen.value, s.args, c);
    if tlen.None? {
      return;
    }
    tlen := AddStrings(tlen.value, s.qRegs, c + a);
    if tlen.None? {
      return;
    }
    tlen := AddXRegs(tlen.value, s.xRegs, c + a + q);
  }

  lemma PackedNone()
    ensures Packed([]) == []
  {
  }

  lemma OnePiece(o: Option<seq<byte>>)
    ensures [] + PiecesOf([o]) == PieceOf(o) && PiecesOf([o]) == PieceOf(o)
  {
    assert [o][..0] == [];
    assert PiecesOf([]) == [];
  }

  // ---- the second pass

  /** The pointers of an entry into its block. */
  predicate PointTo(m: seq<byte>, ptrs: seq<Option<nat>>, os: seq<Option<seq<byte>>>) {
    && |ptrs| == |os|
    && forall i :: 0 <= i < |os| ==> ptrs[i].Some? == os[i].Some? && (os[i].Some? ==> Kept(m, ptrs[i].value, os[i].value))
  }

  lemma PointLater(m: seq<byte>, more: seq<byte>, ptrs: seq<Option<nat>>, os: seq<Option<seq<byte>>>)
    requires PointTo(m, ptrs, os)
    ensures PointTo(m + more, ptrs, os)
  {
    forall i | 0 <= i < |os| && os[i].Some?
      ensures Kept(m + more, ptrs[i].value, os[i].value)
    {
      KeptLater(m, more, ptrs[i].value, os[i].value);
    }
  }

  lemma PointSnoc(m: seq<byte>, more: seq<byte>, ptrs: seq<Option<nat>>, os: seq<Option<seq<byte>>>, p: Option<nat>, o: Option<seq<byte>>)
    requires PointTo(m, ptrs, os) && p.Some? == o.Some? && (o.Some? ==> Kept(m + more, p.value, o.value))
    ensures PointTo(m + more, ptrs + [p], os + [o])
  {
    PointLater(m, more, ptrs, os);
    hide Kept;
  }

  class Block {
    const text: array<byte>       // tmp->text
    var tptr: nat
    ghost var done: seq<seq<byte>>

    /** What is copied so far. */
    ghost predicate Valid()
      reads this, text
    {
      tptr <= text.Length && text[..tptr] == Packed(done)
    }

    constructor (tlen: nat)
      ensures Valid() && fresh(text) && text.Length == tlen && tptr == 0 && done == []
    {
      text := new byte[tlen](_ => 0);
      tptr := 0;
      done := [];
    }

    /** XSTRCPY, which pads with zeros to the end of the block. */
    method Strcpy(s: seq<byte>) returns (ptr: nat)
      requires Valid() && NonZero(s) && tptr + |s| + 1 <= text.Length
      modifies this, text
      ensures Valid() && done == old(done) + [s] && tptr == old(tptr) + |s| + 1
      ensures text[..tptr] == old(text[..tptr]) + (s + [0]) && Kept(text[..tptr], ptr, s)
    {
      var room := text.Length - tptr;
      ghost var m := text[..];
      forall i | 0 <= i < room {
        text[tptr + i] := Padded(s, room)[i];
      }
      ptr := tptr;
      assert Padded(s, room)[..|s|] == s && Padded(s, room)[|s|] == 0;
      assert text[..tptr + |s| + 1] == m[..tptr] + (s + [0]);
      assert m[..tptr] == old(text[..tptr]);
      PackedOne(done, s);
      done := done + [s];
      tptr := tptr + |s| + 1;
    }

    /** XMEMCPY of a register and its zero, by its length. */
    method Memcpy(s: seq<byte>, len: nat) returns (ptr: nat)
      requires Valid() && len == |s| && tptr + len + 1 <= text.Length
      modifies this, text
      ensures Valid() && done == old(done) + [s] && tptr == old(tptr) + |s| + 1
      ensures text[..tptr] == old(text[..tptr]) + (s + [0]) && Kept(text[..tptr], ptr, s)
    {
      ghost var m := text[..];
      forall i | 0 <= i < len + 1 {
        text[tptr + i] := (s + [0])[i];
      }
      ptr := tptr;
      assert text[..tptr + len + 1] == m[..tptr] + (s + [0]);
      assert m[..tptr] == old(text[..tptr]);
      PackedOne(done, s);
      done := done + [s];
      tptr := tptr + len + 1;
    }
  }

  lemma PointNone(m: seq<byte>)
    ensures PointTo(m, [], [])
  {
  }

  /** Copies one string if it is there. */
  method CopyOne(b: Block, o: Option<seq<byte>>, counted: bool) returns (ptr: Option<nat>)
    requires b.Valid() && IsText(o) && (o.Some? ==> b.tptr + |o.value| + 1 <= b.text.Length)
    modifies b, b.text
    ensures b.Valid() && b.done == old(b.done) + PieceOf(o) && old(b.tptr) <= b.tptr
    ensures b.text[..old(b.tptr)] == old(b.text[..b.tptr]) && b.text[..old(b.tptr)] <= b.text[..b.tptr]
    ensures ptr.Some? == o.Some? && (o.Some? ==> Kept(b.text[..b.tptr], ptr.value, o.value))
  {
    if o.None? {
      assert b.done + PieceOf(o) == b.done;
      return None;
    }
    ghost var m := b.text[..b.tptr];
    var p: nat;
    hide Packed, Kept;
    if counted {
      p := b.Memcpy(o.value, |o.value|);
    } else {
      p := b.Strcpy(o.value);
    }
    assert b.text[..old(b.tptr)] == b.text[..b.tptr][..|m|];
    return Some(p);
  }

  /** The loop over arguments, or the one over q-registers. */
  method CopyAll(b: Block, os: seq<Option<seq<byte>>>, counted: bool) returns (ptrs: seq<Option<nat>>)
    requires b.Valid() && forall i :: 0 <= i < |os| ==> IsText(os[i])
    requires |Packed(b.done + PiecesOf(os))| <= b.text.Length
    modifies b, b.text
    ensures b.Valid() && b.done == old(b.done) + PiecesOf(os) && old(b.tptr) <= b.tptr
    ensures b.text[..old(b.tptr)] == old(b.text[..b.tptr])
    ensures PointTo(b.text[..b.tptr], ptrs, os)
  {
    hide Packed, Kept, PointTo, Upto, PiecesOf;
    ghost var d, m0 := b.done, b.text[..b.tptr];
    ptrs := [];
    UptoEnds(d, os);
    assert os[..0] == [];
    PointNone(m0);
    for a := 0 to |os|
      invariant b.Valid() && b.done == Upto(d, os, a) && |m0| <= b.tptr && b.text[..|m0|] == m0
      invariant PointTo(b.text[..b.tptr], ptrs, os[..a])
    {
      UptoNext(d, os, a);
      UptoLess(d, os, a + 1);
      ghost var m := b.text[..b.tptr];
      var ptr := CopyOne(b, os[a], counted);
      ghost var r := b.text[..b.tptr];
      assert r == m + r[|m|..];
      PointSnoc(m, r[|m|..], ptrs, os[..a], ptr, os[a]);
      assert os[..a] + [os[a]] == os[..a + 1];
      assert b.text[..|m0|] == m[..|m0|] == m0;
      ptrs := ptrs + [ptr];
    }
    assert os[..|os|] == os;
  }

  function XNames(xs: seq<XReg>): (r: seq<Option<seq<byte>>>)
    ensures |r| == |xs|
  {
    seq(|xs|, i requires 0 <= i < |xs| => if xs[i].value.Some? then xs[i].name else None)
  }

  function XValues(xs: seq<XReg>): (r: seq<Option<seq<byte>>>)
    ensures |r| == |xs|
  {
    seq(|xs|, i requires 0 <= i < |xs| => if xs[i].name.Some? then xs[i].value else None)
  }

  /** Copies one x-register, its name and its value, if it has both. */
  method CopyX(b: Block, x: XReg) returns (name: Option<nat>, value: Option<nat>)
    requires b.Valid() && IsText(x.name) && IsText(x.value)
    requires x.name.Some? && x.value.Some? ==> b.tptr + |x.name.value| + |x.value.value| + 2 <= b.text.Length
    modifies b, b.text
    ensures b.Valid() && b.done == old(b.done) + XPieces(x) && old(b.tptr) <= b.tptr
    ensures b.text[..old(b.tptr)] == old(b.text[..b.tptr])
    ensures name.Some? == value.Some? == (x.name.Some? && x.value.Some?)
    ensures name.Some? ==> Kept(b.text[..b.tptr], name.value, x.name.value) && Kept(b.text[..b.tptr], value.value, x.value.value)
  {
    hide Packed, Kept;
    if x.name.None? || x.value.None? {
      assert b.done + XPieces(x) == b.done;
      return None, None;
    }
    ghost var m0 := b.text[..b.tptr];
    var n := b.Strcpy(x.name.value);
    ghost var m := b.text[..b.tptr];
    var v := b.Memcpy(x.value.value, |x.value.value|);
    assert b.text[..b.tptr] == m + (x.value.value + [0]);
    KeptLater(m, x.value.value + [0], n, x.name.value);
    assert b.text[..|m0|] == b.text[..b.tptr][..|m0|] == m0;
    assert old(b.done) + XPieces(x) == old(b.done) + [x.name.value] + [x.value.value];
    return Some(n), Some(v);
  }

  /** The loop over x-registers. */
  method CopyXRegs(b: Block, xs: seq<XReg>) returns (names: seq<Option<nat>>, values: seq<Option<nat>>)
    requires b.Valid() && forall i :: 0 <= i < |xs| ==> IsText(xs[i].name) && IsText(xs[i].value)
    requires |Packed(b.done + AllXPieces(xs))| <= b.text.Length
    modifies b, b.text
    ensures b.Valid() && b.done == old(b.done) + AllXPieces(xs) && old(b.tptr) <= b.tptr
    ensures b.text[..old(b.tptr)] == old(b.text[..b.tptr])
    ensures PointTo(b.text[..b.tptr], names, XNames(xs)) && PointTo(b.text[..b.tptr], values, XValues(xs))
  {
    hide Packed, Kept, PointTo, XUpto, AllXPieces;
    ghost var d, m0 := b.done, b.text[..b.tptr];
    names, values := [], [];
    XUptoEnds(d, xs);
    assert XNames(xs)[..0] == [] && XValues(xs)[..0] == [];
    PointNone(m0);
    for a := 0 to |xs|
      invariant b.Valid() && b.done == XUpto(d, xs, a) && |m0| <= b.tptr && b.text[..|m0|] == m0
      invariant PointTo(b.text[..b.tptr], names, XNames(xs)[..a]) && PointTo(b.text[..b.tptr], values, XValues(xs)[..a])
    {
      XUptoNext(d, xs, a);
      XUptoLess(d, xs, a + 1);
      ghost var m := b.text[..b.tptr];
      var n, v := CopyX(b, xs[a]);
      ghost var r := b.text[..b.tptr];
      assert r == m + r[|m|..];
      PointSnoc(m, r[|m|..], names, XNames(xs)[..a], n, XNames(xs)[a]);
      PointSnoc(m, r[|m|..], values, XValues(xs)[..a], v, XValues(xs)[a]);
      assert XNames(xs)[..a] + [XNames(xs)[a]] == XNames(xs)[..a + 1];
      assert XValues(xs)[..a] + [XValues(xs)[a]] == XValues(xs)[..a + 1];
      assert b.text[..|m0|] == m[..|m0|] == m0;
      names, values := names + [n], values + [v];
    }
    assert XNames(xs)[..|xs|] == XNames(xs) && XValues(xs)[..|xs|] == XValues(xs);
  }

  /** The pointers of an entry. */
  datatype Pointers = Pointers(
    comm: Option<nat>,
    env: seq<Option<nat>>,
    qRegs: seq<Option<nat>>,
    xNames: seq<Option<nat>>,
    xRegs: seq<Option<nat>>)

  /** Every pointer leads to the string it was set for. */
  predicate Decodes(m: seq<byte>, ptrs: seq<Option<nat>>, os: seq<Option<seq<byte>>>) {
    && |ptrs| == |os|
    && forall i :: 0 <= i < |os| ==>
      ptrs[i].Some? == os[i].Some? && (os[i].Some? ==> ptrs[i].value <= |m| && Text(m, ptrs[i].value) == os[i].value)
  }

  predicate DecodesAll(m: seq<byte>, p: Pointers, s: Saved) {
    && Decodes(m, [p.comm], [s.comm]) && Decodes(m, p.env, s.args) && Decodes(m, p.qRegs, s.qRegs)
    && Decodes(m, p.xNames, XNames(s.xRegs)) && Decodes(m, p.xRegs, XValues(s.xRegs))
  }

  lemma PointsDecode(m: seq<byte>, ptrs: seq<Option<nat>>, os: seq<Option<seq<byte>>>)
    requires PointTo(m, ptrs, os) && forall i :: 0 <= i < |os| ==> IsText(os[i])
    ensures Decodes(m, ptrs, os)
  {
    forall i | 0 <= i < |os| && os[i].Some?
      ensures ptrs[i].Some? && Text(m, ptrs[i].value) == os[i].value
    {
      KeptReads(m, ptrs[i].value, os[i].value);
    }
  }

  /** The copies of the second pass, into a block as long as the first pass found. */
  method CopyPieces(b: Block, s: Saved) returns (p: Pointers)
    requires b.Valid() && b.done == [] && b.tptr == 0 && Texts(s) && b.text.Length == |Packed(Pieces(s))|
    modifies b, b.text
    ensures b.tptr == b.text.Length && b.text[..] == Packed(Pieces(s)) && DecodesAll(b.text[..], p, s)
  {
    hide Packed, PiecesOf, AllXPieces, PointTo, Kept, Text, Decodes, XNames, XValues;
    var c, a, q, x := PieceOf(s.comm), PiecesOf(s.args), PiecesOf(s.qRegs), AllXPieces(s.xRegs);
    MorePieces(c, a);
    MorePieces(c + a, q);
    MorePieces(c + a + q, x);
    OnePiece(s.comm);
    var comm := CopyAll(b, [s.comm], false);
    ghost var m1 := b.text[..b.tptr];
    var env := CopyAll(b, s.args, false);
    ghost var m2 := b.text[..b.tptr];
    var qRegs := CopyAll(b, s.qRegs, true);
    ghost var m3 := b.text[..b.tptr];
    var xNames, xRegs := CopyXRegs(b, s.xRegs);
    ghost var m := b.text[..b.tptr];
    assert b.done == Pieces(s);
    assert m == b.text[..];
    PointOn(m1, m2, comm, [s.comm]);
    PointOn(m2, m3, comm, [s.comm]);
    PointOn(m3, m, comm, [s.comm]);
    PointOn(m2, m3, env, s.args);
    PointOn(m3, m, env, s.args);
    PointOn(m3, m, qRegs, s.qRegs);
    XTexts(s);
    PointsDecode(m, comm, [s.comm]);
    PointsDecode(m, env, s.args);
    PointsDecode(m, qRegs, s.qRegs);
    PointsDecode(m, xNames, XNames(s.xRegs));
    PointsDecode(m, xRegs, XValues(s.xRegs));
    PointSize(m, comm, [s.comm]);
    p := Pointers(comm[0], env, qRegs, xNames, xRegs);
    assert [comm[0]] == comm;
  }

  lemma PointSize(m: seq<byte>, ptrs: seq<Option<nat>>, os: seq<Option<seq<byte>>>)
    requires PointTo(m, ptrs, os)
    ensures |ptrs| == |os|
  {
  }

  lemma PointOn(m: seq<byte>, r: seq<byte>, ptrs: seq<Option<nat>>, os: seq<Option<seq<byte>>>)
    requires PointTo(m, ptrs, os) && |m| <= |r| && r[..|m|] == m
    ensures PointTo(r, ptrs, os)
  {
    assert r == m + r[|m|..];
    PointLater(m, r[|m|..], ptrs, os);
  }

  lemma XTexts(s: Saved)
    requires Texts(s)
    ensures forall i :: 0 <= i < |s.xRegs| ==> IsText(XNames(s.xRegs)[i]) && IsText(XValues(s.xRegs)[i])
  {
  }

  /** The two passes of cque_setup_que: the block holds exactly the pieces, one behind the
      other, and every pointer into it leads to its string. Nothing comes of an entry with
      nothing to save, or with more than an int can count. */
  method SaveText(s0: Saved, nargs: int) returns (b: Block?, p: Pointers)
    requires nargs <= |s0.args| && Texts(s0)
    ensures var n := if nargs < 0 then 0 else if nargs > NUM_ENV_VARS then NUM_ENV_VARS else nargs;
      var s := s0.(args := s0.args[..n]);
      && (b == null <==> |Packed(Pieces(s))| == 0 || |Packed(Pieces(s))| > INT_MAX)
      && (b != null ==> b.tptr == b.text.Length && b.text[..] == Packed(Pieces(s)) && DecodesAll(b.text[..], p, s))
  {
    hide Packed, Pieces, DecodesAll, IsText;
    p := Pointers(None, [], [], [], []);
    var n := nargs;
    if n > NUM_ENV_VARS {
      n := NUM_ENV_VARS;
    } else if n < 0 {
      n := 0;
    }
    var s := s0.(args := s0.args[..n]);
    b := null;
    var tlen := AddUp(s);
    if tlen.None? || tlen.value == 0 {
      return;
    }
    b := new Block(tlen.value);
    p := CopyPieces(b, s);
  }
}
