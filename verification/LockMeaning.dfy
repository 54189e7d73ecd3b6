/** What a lock means for a player: evaluation, with the locks of other objects read and
    evaluated in place, down to a nesting limit. */
module LockMeaning {
  import opened CText
  import opened LockSyntax
  import opened LockTheorems

  /** What evaluation reads of the server. */
  datatype Scene = Scene(
    w: World,
    nestLim: int,                                     // lock_nest_lim
    lockText: int -> string,                          // A_LOCK of an object
    contents: int -> seq<int>,                        // the objects carried
    owner: int -> int,
    attrExists: int -> bool,                          // atr_num
    matches: (int, int, int, string) -> bool,         // object, lock holder, attribute, pattern
    evaluates: (int, int, int, int, string) -> bool)  // player, thing, lock holder, attribute, value

  function Left(sc: Scene, lev: nat): nat {
    if lev < sc.nestLim then sc.nestLim - lev else 0
  }

  /** Whether one of `objs` has a matching attribute. */
  predicate AnyMatches(sc: Scene, objs: seq<int>, from: int, num: int, key: string) {
    exists i :: 0 <= i < |objs| && sc.matches(objs[i], from, num, key)
  }

  /** boolexp_eval at nesting level `lev`. */
  predicate Passes(sc: Scene, lev: nat, player: int, thing: int, from: int, b: Lock)
    decreases Left(sc, lev), 0, b
  {
    match b
    case And(l, r) => Passes(sc, lev, player, thing, from, l) && Passes(sc, lev, player, thing, from, r)
    case Or(l, r) => Passes(sc, lev, player, thing, from, l) || Passes(sc, lev, player, thing, from, r)
    case Not(x) => !Passes(sc, lev, player, thing, from, x)
    case Indir(x) =>
      lev + 1 < sc.nestLim && x.Const? && x.thing >= 0
      && PassesText(sc, lev + 1, player, x.thing, from, sc.lockText(x.thing))
    case Is(x) =>
      if x.Const? then x.thing == player
      else x.Attr? && sc.attrExists(x.num) && sc.matches(player, from, x.num, x.value)
    case Carry(x) =>
      if x.Const? then x.thing in sc.contents(player)
      else x.Attr? && sc.attrExists(x.num) && AnyMatches(sc, sc.contents(player), from, x.num, x.value)
    case Owner(x) => x.Const? && sc.owner(x.thing) == sc.owner(player)
    case Const(n) => n == player || n in sc.contents(player)
    case Attr(n, v) =>
      sc.attrExists(n) && (sc.matches(player, from, n, v) || AnyMatches(sc, sc.contents(player), from, n, v))
    case Eval(n, v) => sc.attrExists(n) && sc.evaluates(player, thing, from, n, v)
  }

  /** boolexp_eval_atr: a text that is no lock lets everyone pass. */
  predicate PassesText(sc: Scene, lev: nat, player: int, thing: int, from: int, key: string)
    decreases Left(sc, lev), 1
  {
    var b := Parse(sc.w, key);
    b.None? || Passes(sc, lev, player, thing, from, b.value)
  }

  // ---- association does not matter

  lemma {:induction false} AndOntoPasses(sc: Scene, lev: nat, player: int, thing: int, from: int, a: Lock, b: Lock)
    ensures Passes(sc, lev, player, thing, from, AndOnto(a, b))
       <==> Passes(sc, lev, player, thing, from, a) && Passes(sc, lev, player, thing, from, b)
  {
    if a.And? {
      AndOntoPasses(sc, lev, player, thing, from, a.r, b);
    }
  }

  lemma {:induction false} OrOntoPasses(sc: Scene, lev: nat, player: int, thing: int, from: int, a: Lock, b: Lock)
    ensures Passes(sc, lev, player, thing, from, OrOnto(a, b))
       <==> Passes(sc, lev, player, thing, from, a) || Passes(sc, lev, player, thing, from, b)
  {
    if a.Or? {
      OrOntoPasses(sc, lev, player, thing, from, a.r, b);
    }
  }

  lemma {:induction false} NormPasses(sc: Scene, lev: nat, player: int, thing: int, from: int, b: Lock)
    ensures Passes(sc, lev, player, thing, from, Norm(b)) <==> Passes(sc, lev, player, thing, from, b)
    decreases b
  {
    match b
    case And(l, r) =>
      NormPasses(sc, lev, player, thing, from, l);
      NormPasses(sc, lev, player, thing, from, r);
      AndOntoPasses(sc, lev, player, thing, from, Norm(l), Norm(r));
    case Or(l, r) =>
      NormPasses(sc, lev, player, thing, from, l);
      NormPasses(sc, lev, player, thing, from, r);
      OrOntoPasses(sc, lev, player, thing, from, Norm(l), Norm(r));
    case Not(x) => NormPasses(sc, lev, player, thing, from, x);
    case Indir(_) =>
    case Is(_) =>
    case Carry(_) =>
    case Owner(_) =>
    case Const(_) =>
    case Attr(_, _) =>
    case Eval(_, _) =>
  }

  /** A lock text read, written and read again locks the same, if the names of its
      attributes can be read back and it fits. */
  lemma RewritingKeeps(sc: Scene, lev: nat, player: int, thing: int, from: int, key: string)
    requires sc.w.Consistent() && Parse(sc.w, key).Some?
    requires var b := Parse(sc.w, key).value;
      CleanNames(sc.w, b) && |Unparse(sc.w, b, Elsewhere)| <= LBUF_SIZE && DepthE(Norm(b)) <= sc.w.maxDepth
    ensures PassesText(sc, lev, player, thing, from, Unparse(sc.w, Parse(sc.w, key).value, Elsewhere))
       <==> PassesText(sc, lev, player, thing, from, key)
  {
    hide Parse, Unparse, Norm, DepthE, Passes, Printable, CleanNames, WellFormed;
    ParsedWellFormed(sc.w, key);
    WriteRead(sc.w, Parse(sc.w, key).value);
    NormPasses(sc, lev, player, thing, from, Parse(sc.w, key).value);
  }

  /** One that names an attribute with an asterisk lets everyone pass from then on. */
  lemma StarredOpens(sc: Scene, lev: nat, player: int, thing: int, from: int, n: int, v: string)
    requires sc.w.Consistent() && sc.w.atrName(n).Some? && Starred(sc.w.atrName(n).value)
    ensures PassesText(sc, lev, player, thing, from, Unparse(sc.w, Attr(n, v), Elsewhere))
  {
    hide Parse, Unparse;
    StarredLost(sc.w, n, v);
  }

  // ---- the nesting limit

  /** Evaluation comes to a reference the limit cuts off. */
  predicate HitsLimit(sc: Scene, lev: nat, player: int, thing: int, from: int, b: Lock)
    decreases Left(sc, lev), 0, b
  {
    match b
    case And(l, r) =>
      HitsLimit(sc, lev, player, thing, from, l)
      || (Passes(sc, lev, player, thing, from, l) && HitsLimit(sc, lev, player, thing, from, r))
    case Or(l, r) =>
      HitsLimit(sc, lev, player, thing, from, l)
      || (!Passes(sc, lev, player, thing, from, l) && HitsLimit(sc, lev, player, thing, from, r))
    case Not(x) => HitsLimit(sc, lev, player, thing, from, x)
    case Indir(x) =>
      lev + 1 >= sc.nestLim
      || (x.Const? && x.thing >= 0 && HitsText(sc, lev + 1, player, x.thing, from, sc.lockText(x.thing)))
    case Is(_) => false
    case Carry(_) => false
    case Owner(_) => false
    case Const(_) => false
    case Attr(_, _) => false
    case Eval(_, _) => false
  }

  predicate HitsText(sc: Scene, lev: nat, player: int, thing: int, from: int, key: string)
    decreases Left(sc, lev), 1
  {
    var b := Parse(sc.w, key);
    b.Some? && HitsLimit(sc, lev, player, thing, from, b.value)
  }

  /** A higher limit changes nothing for a lock that does not hit the limit. */
  lemma {:induction false} LimitIrrelevant(sc: Scene, lim: int, lev: nat, player: int, thing: int, from: int, b: Lock)
    requires sc.nestLim <= lim && !HitsLimit(sc, lev, player, thing, from, b)
    ensures var sc' := sc.(nestLim := lim);
      && (Passes(sc', lev, player, thing, from, b) <==> Passes(sc, lev, player, thing, from, b))
      && !HitsLimit(sc', lev, player, thing, from, b)
    decreases Left(sc, lev), b
  {
    hide Parse;
    match b
    case And(l, r) =>
      LimitIrrelevant(sc, lim, lev, player, thing, from, l);
      if Passes(sc, lev, player, thing, from, l) {
        LimitIrrelevant(sc, lim, lev, player, thing, from, r);
      }
    case Or(l, r) =>
      LimitIrrelevant(sc, lim, lev, player, thing, from, l);
      if !Passes(sc, lev, player, thing, from, l) {
        LimitIrrelevant(sc, lim, lev, player, thing, from, r);
      }
    case Not(x) => LimitIrrelevant(sc, lim, lev, player, thing, from, x);
    case Indir(x) =>
      if x.Const? && x.thing >= 0 {
        var c := Parse(sc.w, sc.lockText(x.thing));
        if c.Some? {
          LimitIrrelevant(sc, lim, lev + 1, player, x.thing, from, c.value);
        }
      }
    case Is(_) =>
    case Carry(_) =>
    case Owner(_) =>
    case Const(_) =>
    case Attr(_, _) =>
    case Eval(_, _) =>
  }

  /** The lock "not what my own lock says" on object `x`. */
  function Liar(x: int): Lock {
    Not(Indir(Const(x)))
  }

  lemma LiarRead(w: World, x: int)
    requires w.Consistent() && w.good(x) && w.maxDepth >= 7 && |Unparse(w, Liar(x), Elsewhere)| <= LBUF_SIZE
    ensures Parse(w, Unparse(w, Liar(x), Elsewhere)) == Some(Liar(x))
  {
    var b := Liar(x);
    assert DepthF(Indir(Const(x))) == 4;
    assert DepthF(b) == 5 && DepthT(b) == 6 && DepthE(b) == 7;
    SurvivesIff(w, b);
  }

  /** A lock that hits the limit may depend on it: this one lets everyone pass or nobody,
      by whether the levels left are odd. */
  lemma {:induction false} LiarAlternates(sc: Scene, lev: nat, player: int, thing: int, from: int, x: int)
    requires sc.w.Consistent() && sc.w.good(x) && sc.w.maxDepth >= 7 && lev < sc.nestLim
    requires sc.lockText(x) == Unparse(sc.w, Liar(x), Elsewhere) && |sc.lockText(x)| <= LBUF_SIZE
    ensures Passes(sc, lev, player, thing, from, Liar(x)) <==> (sc.nestLim - lev) % 2 == 1
    ensures HitsLimit(sc, lev, player, thing, from, Liar(x))
    decreases sc.nestLim - lev
  {
    hide Parse, Unparse;
    LiarRead(sc.w, x);
    assert sc.w.good(x) && x >= 0;
    if lev + 1 < sc.nestLim {
      LiarAlternates(sc, lev + 1, player, x, from, x);
      assert Parse(sc.w, sc.lockText(x)) == Some(Liar(x));
      assert PassesText(sc, lev + 1, player, x, from, sc.lockText(x)) == Passes(sc, lev + 1, player, x, from, Liar(x));
      assert HitsText(sc, lev + 1, player, x, from, sc.lockText(x));
    }
    assert Passes(sc, lev, player, thing, from, Liar(x)) == !Passes(sc, lev, player, thing, from, Indir(Const(x)));
  }
}
