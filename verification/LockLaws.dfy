/** What the leaves of a lock let through, and how freely a lock may be typed. */
module LockLaws {
  import opened CText
  import opened LockSyntax
  import opened LockTheorems
  import opened LockMeaning

  // ---- leaves

  /** A reference is passed by the object itself and by whoever carries it. */
  lemma ReferencePasses(sc: Scene, lev: nat, player: int, thing: int, from: int, n: int)
    ensures Passes(sc, lev, player, thing, from, Const(n))
       <==> Passes(sc, lev, player, thing, from, Is(Const(n))) || Passes(sc, lev, player, thing, from, Carry(Const(n)))
    ensures Passes(sc, lev, player, thing, from, Is(Const(n))) <==> player == n
    ensures Passes(sc, lev, player, thing, from, Carry(Const(n))) <==> n in sc.contents(player)
  {
  }

  /** An attribute is passed by whoever has a matching one, and by whoever carries an object
      that has; nobody passes one that does not exist. */
  lemma AttributePasses(sc: Scene, lev: nat, player: int, thing: int, from: int, n: int, v: string)
    ensures Passes(sc, lev, player, thing, from, Attr(n, v))
       <==> Passes(sc, lev, player, thing, from, Is(Attr(n, v))) || Passes(sc, lev, player, thing, from, Carry(Attr(n, v)))
    ensures Passes(sc, lev, player, thing, from, Is(Attr(n, v))) <==> sc.attrExists(n) && sc.matches(player, from, n, v)
    ensures Passes(sc, lev, player, thing, from, Carry(Attr(n, v)))
       <==> sc.attrExists(n) && exists o :: o in sc.contents(player) && sc.matches(o, from, n, v)
  {
    SomeMatches(sc, sc.contents(player), from, n, v);
  }

  lemma SomeMatches(sc: Scene, objs: seq<int>, from: int, n: int, v: string)
    ensures AnyMatches(sc, objs, from, n, v) <==> exists o :: o in objs && sc.matches(o, from, n, v)
  {
    if AnyMatches(sc, objs, from, n, v) {
      var i :| 0 <= i < |objs| && sc.matches(objs[i], from, n, v);
      var o := objs[i];
      assert o in objs && sc.matches(o, from, n, v);
    } else {
      forall o | o in objs
        ensures !sc.matches(o, from, n, v)
      {
        var i :| 0 <= i < |objs| && objs[i] == o;
        assert !sc.matches(objs[i], from, n, v);
      }
    }
  }

  /** An owner lock opens to every player with the same owner, the object itself among
      them, and to no other. */
  lemma OwnerPasses(sc: Scene, lev: nat, player: int, other: int, thing: int, from: int, x: int)
    ensures Passes(sc, lev, x, thing, from, Owner(Const(x)))
    ensures sc.owner(player) == sc.owner(other) ==>
      (Passes(sc, lev, player, thing, from, Owner(Const(x))) <==> Passes(sc, lev, other, thing, from, Owner(Const(x))))
    ensures Passes(sc, lev, player, thing, from, Owner(Const(x))) && Passes(sc, lev, other, thing, from, Owner(Const(x)))
      ==> sc.owner(player) == sc.owner(other)
  {
  }

  /** An evaluation lock on an attribute that does not exist lets nobody pass; otherwise
      the softcode decides. */
  lemma EvaluationPasses(sc: Scene, lev: nat, player: int, thing: int, from: int, n: int, v: string)
    ensures Passes(sc, lev, player, thing, from, Eval(n, v)) ==> sc.attrExists(n)
    ensures sc.attrExists(n) ==>
      (Passes(sc, lev, player, thing, from, Eval(n, v)) <==> sc.evaluates(player, thing, from, n, v))
  {
  }

  /** The scene once `player` also carries `o`. */
  function Handed(sc: Scene, player: int, o: int): Scene {
    sc.(contents := p => if p == player then sc.contents(p) + [o] else sc.contents(p))
  }

  /** Carrying one more object opens exactly the leaves the object opens. */
  lemma HandedLeaf(sc: Scene, lev: nat, player: int, o: int, thing: int, from: int, n: int, v: string)
    ensures var sd := Handed(sc, player, o);
      && (Passes(sd, lev, player, thing, from, Const(n))
          <==> Passes(sc, lev, player, thing, from, Const(n)) || n == o)
      && (Passes(sd, lev, player, thing, from, Attr(n, v))
          <==> Passes(sc, lev, player, thing, from, Attr(n, v)) || (sc.attrExists(n) && sc.matches(o, from, n, v)))
      && (Passes(sd, lev, player, thing, from, Is(Const(n))) <==> Passes(sc, lev, player, thing, from, Is(Const(n))))
      && (Passes(sd, lev, player, thing, from, Is(Attr(n, v))) <==> Passes(sc, lev, player, thing, from, Is(Attr(n, v))))
      && (Passes(sd, lev, player, thing, from, Owner(Const(n))) <==> Passes(sc, lev, player, thing, from, Owner(Const(n))))
  {
    var sd := Handed(sc, player, o);
    AttributePasses(sc, lev, player, thing, from, n, v);
    AttributePasses(sd, lev, player, thing, from, n, v);
    assert sd.contents(player) == sc.contents(player) + [o];
    assert o in sd.contents(player);
  }

  /** Built of leaves, & and | alone. */
  predicate Positive(b: Lock) {
    match b
    case And(l, r) => Positive(l) && Positive(r)
    case Or(l, r) => Positive(l) && Positive(r)
    case Not(_) => false
    case Indir(_) => false
    case Is(x) => x.Const? || x.Attr?
    case Carry(x) => x.Const? || x.Attr?
    case Owner(x) => x.Const?
    case Const(_) => true
    case Attr(_, _) => true
    case Eval(_, _) => true
  }

  /** So carrying more never shuts such a lock. */
  lemma {:induction false} HandedOpens(sc: Scene, lev: nat, player: int, o: int, thing: int, from: int, b: Lock)
    requires Positive(b) && Passes(sc, lev, player, thing, from, b)
    ensures Passes(Handed(sc, player, o), lev, player, thing, from, b)
    decreases b
  {
    var sd := Handed(sc, player, o);
    match b
    case And(l, r) =>
      HandedOpens(sc, lev, player, o, thing, from, l);
      HandedOpens(sc, lev, player, o, thing, from, r);
    case Or(l, r) =>
      if Passes(sc, lev, player, thing, from, l) {
        HandedOpens(sc, lev, player, o, thing, from, l);
      } else {
        HandedOpens(sc, lev, player, o, thing, from, r);
      }
    case Is(x) => if x.Attr? { HandedLeaf(sc, lev, player, o, thing, from, x.num, x.value); }
    case Carry(x) =>
      if x.Attr? {
        AttributePasses(sc, lev, player, thing, from, x.num, x.value);
        AttributePasses(sd, lev, player, thing, from, x.num, x.value);
        assert forall y :: y in sc.contents(player) ==> y in sd.contents(player);
      }
    case Owner(x) =>
    case Const(n) => HandedLeaf(sc, lev, player, o, thing, from, n, "");
    case Attr(n, v) => HandedLeaf(sc, lev, player, o, thing, from, n, v);
    case Eval(_, _) =>
  }

  // ---- references to other locks

  /** Below the limit a reference lets through whom the other object's lock does, one level
      down and for that object; at the limit, and for no object, it lets nobody through. */
  lemma ReferencedPasses(sc: Scene, lev: nat, player: int, thing: int, from: int, x: int, b: Lock)
    requires sc.w.Consistent() && Printable(sc.w, b) && sc.lockText(x) == Unparse(sc.w, b, Elsewhere)
    requires |sc.lockText(x)| <= LBUF_SIZE && DepthE(Norm(b)) <= sc.w.maxDepth
    ensures Passes(sc, lev, player, thing, from, Indir(Const(x)))
       <==> lev + 1 < sc.nestLim && x >= 0 && Passes(sc, lev + 1, player, x, from, b)
  {
    hide Parse, Unparse, Printable, DepthE, Norm, World.Consistent;
    WriteRead(sc.w, b);
    if lev + 1 < sc.nestLim && x >= 0 {
      NormPasses(sc, lev + 1, player, x, from, b);
      assert PassesText(sc, lev + 1, player, x, from, sc.lockText(x)) == Passes(sc, lev + 1, player, x, from, Norm(b));
    }
  }

  /** A lock without references never comes to the limit, nor does a reference below it to
      an object without a lock. */
  lemma {:induction false} LimitFar(sc: Scene, lev: nat, player: int, thing: int, from: int, b: Lock, x: int)
    ensures Positive(b) ==> !HitsLimit(sc, lev, player, thing, from, b)
    ensures lev + 1 < sc.nestLim && sc.lockText(x) == "" ==> !HitsLimit(sc, lev, player, thing, from, Indir(Const(x)))
  {
    match b
    case And(l, r) =>
      LimitFar(sc, lev, player, thing, from, l, x);
      LimitFar(sc, lev, player, thing, from, r, x);
    case Or(l, r) =>
      LimitFar(sc, lev, player, thing, from, l, x);
      LimitFar(sc, lev, player, thing, from, r, x);
    case Not(_) =>
    case Indir(_) =>
    case Is(_) =>
    case Carry(_) =>
    case Owner(_) =>
    case Const(_) =>
    case Attr(_, _) =>
    case Eval(_, _) =>
  }

  /** No lock lets everyone pass. */
  lemma NoLockPasses(sc: Scene, lev: nat, player: int, thing: int, from: int)
    ensures PassesText(sc, lev, player, thing, from, "")
  {
  }

  // ---- blanks

  predicate Blank(s: string) {
    forall i :: 0 <= i < |s| ==> White(s[i])
  }

  lemma {:induction false} BlankSkipped(sp: string, s: string)
    requires Blank(sp)
    ensures SkipSpace(sp + s) == SkipSpace(s)
  {
    if sp == "" {
      assert sp + s == s;
    } else {
      assert (sp + s)[1..] == sp[1..] + s;
      BlankSkipped(sp[1..], s);
    }
  }

  lemma {:induction false} BlankTrimmed(s: string, sp: string)
    requires Blank(sp)
    ensures Trim(s + sp) == Trim(s)
  {
    if sp == "" {
      assert s + sp == s;
    } else {
      var n := |sp| - 1;
      assert (s + sp)[..|s + sp| - 1] == s + sp[..n];
      BlankTrimmed(s, sp[..n]);
    }
  }

  /** Nothing else is skipped. */
  lemma NothingSkipped(s: string)
    requires s == "" || !White(s[0])
    ensures SkipSpace(s) == s
  {
  }

  /** The same tree, and the same rest if there is one. */
  predicate Alike(p: Parsed, q: Parsed) {
    p.0 == q.0 && (p.0.Some? ==> p.1 == q.1)
  }

  /** Blanks may stand in front of any part of a lock. */
  lemma BlankFront(w: World, sp: string, s: string, lev: nat)
    requires Blank(sp) && lev <= w.maxDepth
    ensures ParseL(w, sp + s, lev) == ParseL(w, s, lev)
    ensures Alike(ParseF(w, sp + s, lev), ParseF(w, s, lev))
    ensures Alike(ParseT(w, sp + s, lev), ParseT(w, s, lev))
    ensures Alike(ParseE(w, sp + s, lev), ParseE(w, s, lev))
  {
    FrontL(w, sp, s, lev);
    FrontF(w, sp, s, lev);
    FrontT(w, sp, s, lev);
    FrontE(w, sp, s, lev);
    hide ParseL, ParseF, ParseT, ParseE;
  }

  lemma FrontL(w: World, sp: string, s: string, lev: nat)
    requires Blank(sp) && lev <= w.maxDepth
    ensures ParseL(w, sp + s, lev) == ParseL(w, s, lev)
  {
    hide ParseL, ParseE, Identifier, SkipSpace, Trim, LeafEnd;
    BlankSkipped(sp, s);
    LeafSplits(w, sp + s, lev);
    LeafSplits(w, s, lev);
  }

  lemma FrontF(w: World, sp: string, s: string, lev: nat)
    requires Blank(sp) && lev <= w.maxDepth
    ensures Alike(ParseF(w, sp + s, lev), ParseF(w, s, lev))
  {
    hide ParseL, SkipSpace;
    BlankSkipped(sp, s);
  }

  lemma FrontT(w: World, sp: string, s: string, lev: nat)
    requires Blank(sp) && lev <= w.maxDepth
    ensures Alike(ParseT(w, sp + s, lev), ParseT(w, s, lev))
  {
    hide ParseF, SkipSpace;
    if lev < w.maxDepth {
      FrontF(w, sp, s, lev + 1);
    }
  }

  lemma FrontE(w: World, sp: string, s: string, lev: nat)
    requires Blank(sp) && lev <= w.maxDepth
    ensures Alike(ParseE(w, sp + s, lev), ParseE(w, s, lev))
  {
    hide ParseT, SkipSpace;
    if lev < w.maxDepth {
      FrontT(w, sp, s, lev + 1);
    }
  }

  /** Blanks in front of a lock do not matter, if it still fits. */
  lemma BlankLock(w: World, sp: string, s: string)
    requires Blank(sp) && s != "" && |sp + s| <= LBUF_SIZE
    ensures Parse(w, sp + s) == Parse(w, s)
  {
    hide ParseE;
    FrontE(w, sp, s, 0);
  }

  /** Nor do blanks between a leaf and what follows it. */
  lemma BlankBehindLeaf(w: World, b: Lock, sp: string, tail: string, lev: nat)
    requires w.Consistent() && (b.Attr? || b.Eval?) && CleanAttr(w, b.num, b.value)
    requires Blank(sp) && EndsF(tail) && lev <= w.maxDepth
    ensures ParseL(w, LeafText(w, b) + sp + tail, lev) == (Some(b), tail)
  {
    LeafTested(w, b);
    LeafShape(w, b);
    hide LeafText, TestAttr, CleanAttr, World.Consistent, Trim, LeafEnd, ParseL, ParseE;
    var s := LeafText(w, b);
    var u := s + sp;
    SkipNothing(u + tail);
    forall i | 0 <= i < |u|
      ensures !Stops(u[i])
    {
      assert i >= |s| ==> u[i] == sp[i - |s|] && IsSpace(sp[i - |s|]);
    }
    LeafEndIs(u, tail);
    BlankTrimmed(s, sp);
    LeafSplits(w, u + tail, lev);
  }

  /** Nor in front of &, | and a closing parenthesis. */
  lemma BlankBefore(w: World, s: string, sp: string, rest: string, l: Lock, lev: nat)
    requires Blank(sp) && lev < w.maxDepth
    ensures ParseF(w, s, lev + 1) == (Some(l), sp + "&" + rest) ==>
      var q := ParseT(w, rest, lev + 1);
      ParseT(w, s, lev) == (if q.0.None? then None else Some(And(l, q.0.value)), q.1)
    ensures ParseT(w, s, lev + 1) == (Some(l), sp + "|" + rest) ==>
      var q := ParseE(w, rest, lev + 1);
      ParseE(w, s, lev) == (if q.0.None? then None else Some(Or(l, q.0.value)), q.1)
    ensures ParseE(w, s, lev) == (Some(l), sp + ")" + rest) ==> ParseL(w, "(" + s, lev) == (Some(l), rest)
  {
    BeforeAnd(w, s, sp, rest, l, lev);
    BeforeOr(w, s, sp, rest, l, lev);
    BeforeParen(w, s, sp, rest, l, lev);
    hide ParseF, ParseT, ParseE, ParseL;
  }

  lemma SignNext(sp: string, ch: char, rest: string)
    requires Blank(sp) && !IsSpace(ch)
    ensures var t := SkipSpace(sp + [ch] + rest); t != "" && t[0] == ch && t[1..] == rest
  {
    var u := [ch] + rest;
    assert sp + [ch] + rest == sp + u;
    BlankSkipped(sp, u);
    SkipNothing(u);
  }

  lemma BeforeAnd(w: World, s: string, sp: string, rest: string, l: Lock, lev: nat)
    requires Blank(sp) && lev < w.maxDepth
    ensures ParseF(w, s, lev + 1) == (Some(l), sp + "&" + rest) ==>
      var q := ParseT(w, rest, lev + 1);
      ParseT(w, s, lev) == (if q.0.None? then None else Some(And(l, q.0.value)), q.1)
  {
    hide ParseF, SkipSpace, Blank;
    SignNext(sp, '&', rest);
  }

  lemma BeforeOr(w: World, s: string, sp: string, rest: string, l: Lock, lev: nat)
    requires Blank(sp) && lev < w.maxDepth
    ensures ParseT(w, s, lev + 1) == (Some(l), sp + "|" + rest) ==>
      var q := ParseE(w, rest, lev + 1);
      ParseE(w, s, lev) == (if q.0.None? then None else Some(Or(l, q.0.value)), q.1)
  {
    hide ParseT, SkipSpace, Blank;
    SignNext(sp, '|', rest);
  }

  lemma BeforeParen(w: World, s: string, sp: string, rest: string, l: Lock, lev: nat)
    requires Blank(sp) && lev <= w.maxDepth
    ensures ParseE(w, s, lev) == (Some(l), sp + ")" + rest) ==> ParseL(w, "(" + s, lev) == (Some(l), rest)
  {
    var u := "(" + s;
    assert u[0] == '(' && u[1..] == s;
    SkipNothing(u);
    LeafSplits(w, u, lev);
    SignNext(sp, ')', rest);
    hide ParseL, ParseE, SkipSpace, Blank, Identifier, Trim, LeafEnd;
  }

  // ---- what is read and what is not

  /** What follows a complete lock and a closing parenthesis is not read, nor what does not
      fit the buffer. */
  lemma RestIgnored(w: World, b: Lock, junk: string)
    requires w.Consistent() && Printable(w, b) && |Unparse(w, b, Elsewhere) + ")" + junk| <= LBUF_SIZE
    requires DepthE(Norm(b)) <= w.maxDepth
    ensures Parse(w, Unparse(w, b, Elsewhere) + ")" + junk) == Parse(w, Unparse(w, b, Elsewhere)) == Some(Norm(b))
  {
    hide ParseE, Unparse, DepthE, Printable, Norm, World.Consistent;
    NormText(w, b, Elsewhere);
    NormNested(b);
    ReadE(w, Norm(b), ")" + junk, 0);
    WriteRead(w, b);
    var s := Unparse(w, b, Elsewhere);
    assert s + (")" + junk) == s + ")" + junk;
  }

  lemma LongCut(w: World, s: string, more: string)
    requires |s| == LBUF_SIZE
    ensures Parse(w, s + more) == Parse(w, s)
  {
    hide ParseE;
    assert (s + more)[..LBUF_SIZE] == s;
    assert more == "" ==> s + more == s;
  }

  /** A number is read as a long, which stops at its ends, and cut to an int. */
  lemma NumberCut(n: int)
    ensures -0x8000_0000 <= n <= 0x7fff_ffff ==> ToDbref(n) == n
    ensures -0x8000_0000_0000_0000 <= n && n + 0x1_0000_0000 <= 0x7fff_ffff_ffff_ffff ==>
      ToDbref(n + 0x1_0000_0000) == ToDbref(n)
    ensures n >= 0x7fff_ffff_ffff_ffff ==> ToDbref(n) == -1
    ensures n <= -0x8000_0000_0000_0000 ==> ToDbref(n) == 0
  {
  }

  /** A reference by number: to the object the number is cut to, if there is one. */
  lemma NumberReadAs(w: World, n: nat, tail: string, lev: nat)
    requires w.Consistent() && EndsF(tail) && lev <= w.maxDepth
    ensures ParseL(w, "#" + Decimal(n) + tail, lev) ==
      (if w.good(ToDbref(n)) then Some(Const(ToDbref(n))) else None, tail)
  {
    DecimalDigits(n);
    var s := "#" + Decimal(n);
    hide Decimal, Atoi, ToDbref;
    assert s[0] == '#' && s[1..] == Decimal(n);
    SkipNothing(s + tail);
    LeafEndIs(s, tail);
    assert Trim(s) == s;
    SepNone(s);
  }
}
