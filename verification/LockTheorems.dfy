/** Reading back a written lock gives the same lock up to the association of & and |,
    exactly if its nesting fits the depth limit. */
module LockTheorems {
  import opened CText
  import opened LockSyntax

  // ---- association

  function AndOnto(a: Lock, b: Lock): Lock {
    if a.And? then And(a.l, AndOnto(a.r, b)) else And(a, b)
  }

  function OrOnto(a: Lock, b: Lock): Lock {
    if a.Or? then Or(a.l, OrOnto(a.r, b)) else Or(a, b)
  }

  /** The tree with every chain of & and every chain of | nested to the right. */
  function Norm(b: Lock): Lock {
    match b
    case And(l, r) => AndOnto(Norm(l), Norm(r))
    case Or(l, r) => OrOnto(Norm(l), Norm(r))
    case Not(x) => Not(Norm(x))
    case Indir(_) => b
    case Is(_) => b
    case Carry(_) => b
    case Owner(_) => b
    case Const(_) => b
    case Attr(_, _) => b
    case Eval(_, _) => b
  }

  predicate RightNested(b: Lock) {
    match b
    case And(l, r) => !l.And? && RightNested(l) && RightNested(r)
    case Or(l, r) => !l.Or? && RightNested(l) && RightNested(r)
    case Not(x) => RightNested(x)
    case Indir(_) => true
    case Is(_) => true
    case Carry(_) => true
    case Owner(_) => true
    case Const(_) => true
    case Attr(_, _) => true
    case Eval(_, _) => true
  }

  lemma {:induction false} AndOntoNested(a: Lock, b: Lock)
    requires RightNested(a) && RightNested(b)
    ensures RightNested(AndOnto(a, b)) && AndOnto(a, b).And?
  {
    if a.And? {
      AndOntoNested(a.r, b);
    }
  }

  lemma {:induction false} OrOntoNested(a: Lock, b: Lock)
    requires RightNested(a) && RightNested(b)
    ensures RightNested(OrOnto(a, b)) && OrOnto(a, b).Or?
  {
    if a.Or? {
      OrOntoNested(a.r, b);
    }
  }

  /** Normal trees are the right-nested ones, and they are what they normalise to. */
  lemma {:induction false} NormNested(b: Lock)
    ensures RightNested(Norm(b))
    ensures RightNested(b) <==> Norm(b) == b
  {
    match b
    case And(l, r) =>
      NormNested(l);
      NormNested(r);
      AndOntoNested(Norm(l), Norm(r));
    case Or(l, r) =>
      NormNested(l);
      NormNested(r);
      OrOntoNested(Norm(l), Norm(r));
    case Not(x) => NormNested(x);
    case Indir(_) =>
    case Is(_) =>
    case Carry(_) =>
    case Owner(_) =>
    case Const(_) =>
    case Attr(_, _) =>
    case Eval(_, _) =>
  }

  // ---- what can be written

  predicate CleanName(s: string) {
    forall i :: 0 <= i < |s| ==> s[i] != '/' && s[i] != '&' && s[i] != ')'
  }

  /** The attribute's name leads back to it and holds no character of the grammar. */
  predicate CleanlyNamed(w: World, n: int) {
    0 < n <= INT_MAX && w.Findable(n) && CleanName(AttrText(w, n))
  }

  predicate CleanValue(v: string) {
    && (forall i :: 0 <= i < |v| ==> !Stops(v[i]))
    && (v == "" || !IsSpace(v[|v| - 1]))
  }

  predicate CleanAttr(w: World, n: int, v: string) {
    CleanlyNamed(w, n) && CleanValue(v)
  }

  /** Well-formed, and free of the characters the grammar uses. */
  predicate Printable(w: World, b: Lock) {
    match b
    case And(l, r) => Printable(w, l) && Printable(w, r)
    case Or(l, r) => Printable(w, l) && Printable(w, r)
    case Not(x) => Printable(w, x)
    case Indir(x) => x.Const? && w.good(x.thing)
    case Owner(x) => x.Const? && w.good(x.thing)
    case Is(x) => (x.Const? && w.good(x.thing)) || (x.Attr? && CleanAttr(w, x.num, x.value))
    case Carry(x) => (x.Const? && w.good(x.thing)) || (x.Attr? && CleanAttr(w, x.num, x.value))
    case Const(n) => w.good(n)
    case Attr(n, v) => CleanAttr(w, n, v)
    case Eval(n, v) => CleanAttr(w, n, v)
  }

  lemma {:induction false} AndOntoText(w: World, a: Lock, b: Lock)
    ensures Unparse(w, AndOnto(a, b), InAnd) == Unparse(w, a, InAnd) + "&" + Unparse(w, b, InAnd)
    ensures Printable(w, a) && Printable(w, b) ==> Printable(w, AndOnto(a, b))
  {
    if a.And? {
      AndOntoText(w, a.r, b);
      var x, y, z := Unparse(w, a.l, InAnd), Unparse(w, a.r, InAnd), Unparse(w, b, InAnd);
      assert x + "&" + (y + "&" + z) == x + "&" + y + "&" + z;
    }
  }

  lemma {:induction false} OrOntoText(w: World, a: Lock, b: Lock)
    ensures Unparse(w, OrOnto(a, b), Elsewhere) == Unparse(w, a, Elsewhere) + "|" + Unparse(w, b, Elsewhere)
    ensures Printable(w, a) && Printable(w, b) ==> Printable(w, OrOnto(a, b))
  {
    if a.Or? {
      OrOntoText(w, a.r, b);
      var x, y, z := Unparse(w, a.l, Elsewhere), Unparse(w, a.r, Elsewhere), Unparse(w, b, Elsewhere);
      assert x + "|" + (y + "|" + z) == x + "|" + y + "|" + z;
    }
  }

  lemma AndText(w: World, b: Lock, outer: Outer)
    requires b.And?
    ensures Unparse(w, b, outer) == Wrapped(outer == InNot, Unparse(w, b, InAnd))
  {
  }

  lemma OrText(w: World, b: Lock, outer: Outer)
    requires b.Or?
    ensures Unparse(w, b, outer) == Wrapped(outer != Elsewhere, Unparse(w, b, Elsewhere))
  {
  }

  /** The text does not tell how chains are nested. */
  lemma {:induction false} NormText(w: World, b: Lock, outer: Outer)
    ensures Unparse(w, Norm(b), outer) == Unparse(w, b, outer)
    ensures Printable(w, b) ==> Printable(w, Norm(b))
  {
    match b
    case And(l, r) =>
      NormText(w, l, InAnd);
      NormText(w, r, InAnd);
      NormNested(l);
      NormNested(r);
      AndOntoNested(Norm(l), Norm(r));
      AndOntoText(w, Norm(l), Norm(r));
      hide AndOnto;
      AndText(w, b, outer);
      AndText(w, Norm(b), outer);
    case Or(l, r) =>
      NormText(w, l, Elsewhere);
      NormText(w, r, Elsewhere);
      NormNested(l);
      NormNested(r);
      OrOntoNested(Norm(l), Norm(r));
      OrOntoText(w, Norm(l), Norm(r));
      hide OrOnto;
      OrText(w, b, outer);
      OrText(w, Norm(b), outer);
    case Not(x) => NormText(w, x, InNot);
    case Indir(_) =>
    case Is(_) =>
    case Carry(_) =>
    case Owner(_) =>
    case Const(_) =>
    case Attr(_, _) =>
    case Eval(_, _) =>
  }

  // ---- how deep the parser goes

  function Max(a: nat, b: nat): nat {
    if a < b then b else a
  }

  function LeafDepth(b: Lock): nat {
    if b.Const? then 4 else 1
  }

  /** Levels an expression, a term and a factor take. A reference is written in
      parentheses, so it takes an expression's three levels more than an attribute. */
  function DepthE(b: Lock): nat
    decreases b, if b.And? || b.Or? then 1 else 5
  {
    if b.Or? then 1 + Max(DepthT(b.l), DepthE(b.r)) else 1 + DepthT(b)
  }

  function DepthT(b: Lock): nat
    decreases b, if b.And? then 0 else if b.Or? then 3 else 4
  {
    if b.And? then 1 + Max(DepthF(b.l), DepthT(b.r)) else 1 + DepthF(b)
  }

  function DepthF(b: Lock): nat
    decreases b, if b.And? || b.Or? then 2 else 3
  {
    match b
    case And(_, _) => 1 + DepthE(b)
    case Or(_, _) => 1 + DepthE(b)
    case Not(x) => 1 + DepthF(x)
    case Indir(x) => LeafDepth(x)
    case Is(x) => LeafDepth(x)
    case Carry(x) => LeafDepth(x)
    case Owner(x) => LeafDepth(x)
    case Const(_) => LeafDepth(b)
    case Attr(_, _) => LeafDepth(b)
    case Eval(_, _) => LeafDepth(b)
  }

  // ---- leaves

  predicate EndsF(tail: string) {
    tail == "" || Stops(tail[0])
  }

  predicate EndsT(tail: string) {
    tail == "" || tail[0] == ')' || tail[0] == '|'
  }

  predicate EndsE(tail: string) {
    tail == "" || tail[0] == ')'
  }

  lemma SkipNothing(s: string)
    requires s == "" || !IsSpace(s[0])
    ensures SkipSpace(s) == s
  {
  }

  lemma {:induction false} LeafEndIs(s: string, tail: string)
    requires (forall i :: 0 <= i < |s| ==> !Stops(s[i])) && EndsF(tail)
    ensures LeafEnd(s + tail) == |s| && (s + tail)[..|s|] == s && (s + tail)[|s|..] == tail
  {
    if s == "" {
      assert s + tail == tail;
    } else {
      assert (s + tail)[1..] == s[1..] + tail;
      LeafEndIs(s[1..], tail);
    }
  }

  lemma {:induction false} SepAtIs(s: string, sep: char, v: string)
    requires (forall i :: 0 <= i < |s| ==> s[i] != ':' && s[i] != '/') && (sep == ':' || sep == '/')
    ensures SepAt(s + [sep] + v) == |s|
  {
    var t := s + [sep] + v;
    if s != "" {
      assert t[1..] == s[1..] + [sep] + v;
      SepAtIs(s[1..], sep, v);
    }
  }

  lemma {:induction false} SepNone(s: string)
    requires forall i :: 0 <= i < |s| ==> s[i] != ':' && s[i] != '/'
    ensures SepAt(s) == |s|
  {
    if s != "" {
      SepNone(s[1..]);
    }
  }

  lemma DecimalDigits(n: nat)
    ensures forall i :: 0 <= i < |Decimal(n)| ==> IsDigit(Decimal(n)[i])
    ensures Atoi(Decimal(n)) == n
  {
    DigitsRead(n);
    DecimalRead(n);
  }

  lemma NameStart(s: string)
    ensures s != "" && (IsDigit(s[0]) || s[0] == '*') ==> !OkName(Clipped(s))
  {
  }

  /** The name or number written for an attribute finds it again. */
  lemma AttrTextRead(w: World, n: int)
    requires w.Consistent() && 0 < n <= INT_MAX
    ensures var s := AttrText(w, n);
      && s != "" && (IsAlpha(s[0]) || s[0] == '_' || s[0] == '*' || IsDigit(s[0]))
      && (forall i :: 0 <= i < |s| ==> s[i] != ':' && s[i] != '|')
      && (AttrNumber(w, s) == Some(n) <==> w.Findable(n))
  {
    var s := AttrText(w, n);
    if w.atrName(n).Some? {
      assert TableName(s);
      assert Atoi(s) == 0;
    } else {
      DecimalDigits(n);
      hide Decimal, Atoi;
      assert IsDigit(s[0]);
      NameStart(s);
    }
  }

  function LeafText(w: World, b: Lock): string
    requires b.Attr? || b.Eval?
  {
    AttrText(w, b.num) + [if b.Attr? then ':' else '/'] + b.value
  }

  lemma LeafTextIs(w: World, b: Lock, outer: Outer)
    requires b.Attr? || b.Eval?
    ensures Unparse(w, b, outer) == LeafText(w, b)
  {
  }

  lemma LeafTested(w: World, b: Lock)
    requires w.Consistent() && (b.Attr? || b.Eval?) && CleanlyNamed(w, b.num)
    ensures TestAttr(w, LeafText(w, b)) == Some(b)
  {
    var name := AttrText(w, b.num);
    var s := LeafText(w, b);
    AttrTextRead(w, b.num);
    hide AttrText, AttrNumber;
    SepAtIs(name, if b.Attr? then ':' else '/', b.value);
    assert s[..|name|] == name && s[|name| + 1..] == b.value;
  }

  lemma LeafShape(w: World, b: Lock)
    requires w.Consistent() && (b.Attr? || b.Eval?) && CleanAttr(w, b.num, b.value)
    ensures var s := LeafText(w, b);
      && s != "" && !IsSpace(s[0]) && s[0] != '(' && Trim(s) == s
      && forall i :: 0 <= i < |s| ==> !Stops(s[i])
  {
    hide AttrText, AttrNumber, World.Consistent, World.Findable;
    AttrTextRead(w, b.num);
    var s, name := LeafText(w, b), AttrText(w, b.num);
    assert s[0] == name[0];
    assert b.value != "" ==> s[|s| - 1] == b.value[|b.value| - 1];
    assert b.value == "" ==> s[|s| - 1] == s[|name|];
  }

  /** What a leaf comes to: an expression in parentheses, or the identifier in front. */
  lemma LeafSplits(w: World, s: string, lev: nat)
    requires lev <= w.maxDepth
    ensures var t := SkipSpace(s);
      ParseL(w, s, lev) ==
        if t != "" && t[0] == '(' then
          var r := ParseE(w, t[1..], lev);
          var u := SkipSpace(r.1);
          if r.0.None? || u == "" || u[0] != ')' then (None, u) else (r.0, u[1..])
        else (Identifier(w, Trim(t[..LeafEnd(t)])), t[LeafEnd(t)..])
  {
    hide ParseE, Identifier, Trim, LeafEnd, SkipSpace;
  }

  /** The text of a leaf reads back as the leaf. */
  lemma LeafRead(w: World, b: Lock, tail: string, lev: nat)
    requires w.Consistent() && (b.Attr? || b.Eval?) && CleanAttr(w, b.num, b.value) && EndsF(tail) && lev <= w.maxDepth
    ensures ParseL(w, LeafText(w, b) + tail, lev) == (Some(b), tail)
  {
    LeafTested(w, b);
    LeafShape(w, b);
    hide LeafText, TestAttr, CleanAttr;
    var s := LeafText(w, b);
    SkipNothing(s + tail);
    LeafEndIs(s, tail);
  }

  /** A reference in parentheses, or the text inside them. */
  lemma NumberRead(w: World, n: int, tail: string, lev: nat)
    requires w.Consistent() && w.good(n) && EndsF(tail) && lev <= w.maxDepth
    ensures ParseL(w, "#" + Decimal(n) + tail, lev) == (Some(Const(n)), tail)
  {
    DecimalDigits(n);
    var s := "#" + Decimal(n);
    hide Decimal, Atoi;
    assert s[0] == '#' && s[1..] == Decimal(n);
    SkipNothing(s + tail);
    LeafEndIs(s, tail);
    assert Trim(s) == s;
    SepNone(s);
  }

  /** A factor without an operator is a leaf. */
  lemma FactorIsLeaf(w: World, s: string, lev: nat)
    requires lev < w.maxDepth && (s == "" || !(IsSpace(s[0]) || s[0] == '!' || IsPrefix(s[0])))
    ensures ParseF(w, s, lev) == ParseL(w, s, lev + 1)
  {
    SkipNothing(s);
    hide ParseL;
  }

  /** A term of one factor. */
  lemma TermIsFactor(w: World, s: string, rest: string, b: Lock, lev: nat)
    requires lev < w.maxDepth && ParseF(w, s, lev + 1) == (Some(b), rest) && EndsT(rest)
    ensures ParseT(w, s, lev) == (Some(b), rest)
  {
    SkipNothing(rest);
    hide ParseF;
  }

  /** An expression of one term. */
  lemma ExpressionIsTerm(w: World, s: string, rest: string, b: Lock, lev: nat)
    requires lev < w.maxDepth && ParseT(w, s, lev + 1) == (Some(b), rest) && EndsE(rest)
    ensures ParseE(w, s, lev) == (Some(b), rest)
  {
    SkipNothing(rest);
    hide ParseT;
  }

  lemma Failures(w: World, s: string, lev: nat)
    requires lev <= w.maxDepth
    ensures lev == w.maxDepth ==> ParseF(w, s, lev).0.None? && ParseT(w, s, lev).0.None? && ParseE(w, s, lev).0.None?
    ensures lev < w.maxDepth && ParseF(w, s, lev + 1).0.None? ==> ParseT(w, s, lev).0.None?
    ensures lev < w.maxDepth && ParseT(w, s, lev + 1).0.None? ==> ParseE(w, s, lev).0.None?
  {
  }

  lemma NumberExpression(w: World, n: int, tail: string, lev: nat)
    requires w.Consistent() && w.good(n) && EndsE(tail) && lev <= w.maxDepth
    ensures var r := ParseE(w, "#" + Decimal(n) + tail, lev);
      if lev + 3 <= w.maxDepth then r == (Some(Const(n)), tail) else r.0 == None
  {
    hide ParseE, ParseT, ParseF, ParseL, Decimal;
    var s := "#" + Decimal(n) + tail;
    assert s[0] == '#';
    Failures(w, s, lev);
    if lev < w.maxDepth {
      Failures(w, s, lev + 1);
      if lev + 1 < w.maxDepth {
        Failures(w, s, lev + 2);
        if lev + 2 < w.maxDepth {
          NumberRead(w, n, tail, lev + 3);
          FactorIsLeaf(w, s, lev + 2);
          TermIsFactor(w, s, tail, Const(n), lev + 1);
          ExpressionIsTerm(w, s, tail, Const(n), lev);
        }
      }
    }
  }

  /** Parentheses around an expression whose reading is known. */
  lemma ParensRead(w: World, inner: string, tail: string, b: Option<Lock>, lev: nat)
    requires lev <= w.maxDepth
    requires var r := ParseE(w, inner + (")" + tail), lev);
      if b.Some? then r == (b, ")" + tail) else r.0 == None
    ensures var r := ParseL(w, "(" + inner + ")" + tail, lev);
      if b.Some? then r == (b, tail) else r.0 == None
  {
    var s := "(" + inner + ")" + tail;
    assert s[0] == '(' && s[1..] == inner + (")" + tail);
    SkipNothing(s);
    SkipNothing(")" + tail);
    assert (")" + tail)[1..] == tail;
    hide ParseE;
  }

  lemma ConstRead(w: World, n: int, tail: string, lev: nat)
    requires w.Consistent() && w.good(n) && lev <= w.maxDepth
    ensures var r := ParseL(w, "(#" + Decimal(n) + ")" + tail, lev);
      if lev + 3 <= w.maxDepth then r == (Some(Const(n)), tail) else r.0 == None
  {
    hide ParseE, ParseL, Decimal;
    NumberExpression(w, n, ")" + tail, lev);
    ParensRead(w, "#" + Decimal(n), tail, if lev + 3 <= w.maxDepth then Some(Const(n)) else None, lev);
    assert "(" + ("#" + Decimal(n)) + ")" + tail == "(#" + Decimal(n) + ")" + tail;
  }

  // ---- reading back what is written

  /** What reading the text of `b` comes to: `b` and what follows, or nothing at all. */
  predicate Reads(r: Parsed, b: Lock, tail: string, fits: bool) {
    if fits then r == (Some(b), tail) else r.0 == None
  }

  /** The operand of @, =, + or $. */
  lemma OperandRead(w: World, x: Lock, tail: string, lev: nat)
    requires w.Consistent() && EndsF(tail) && lev <= w.maxDepth
    requires (x.Const? && w.good(x.thing)) || (x.Attr? && CleanAttr(w, x.num, x.value))
    ensures Reads(ParseL(w, Unparse(w, x, Elsewhere) + tail, lev), x, tail, lev + LeafDepth(x) <= w.maxDepth + 1)
  {
    hide ParseL, Decimal;
    if x.Const? {
      ConstRead(w, x.thing, tail, lev);
    } else {
      LeafRead(w, x, tail, lev);
      LeafTextIs(w, x, Elsewhere);
    }
  }

  lemma PrefixRead(w: World, op: char, x: Lock, tail: string, lev: nat)
    requires w.Consistent() && EndsF(tail) && lev <= w.maxDepth && IsPrefix(op) && Takes(op, x)
    requires (x.Const? && w.good(x.thing)) || (x.Attr? && CleanAttr(w, x.num, x.value))
    ensures Reads(ParseF(w, [op] + Unparse(w, x, Elsewhere) + tail, lev), Prefixed(op, x), tail,
                  lev + LeafDepth(x) <= w.maxDepth)
  {
    hide ParseL, Unparse, CleanAttr, World.Consistent, SkipSpace;
    var s := [op] + Unparse(w, x, Elsewhere) + tail;
    assert s[0] == op && s[1..] == Unparse(w, x, Elsewhere) + tail;
    SkipNothing(s);
    if lev < w.maxDepth {
      OperandRead(w, x, tail, lev + 1);
    }
  }

  lemma NotRead(w: World, x: Lock, tail: string, lev: nat, fits: bool)
    requires lev < w.maxDepth && Reads(ParseF(w, Unparse(w, x, InNot) + tail, lev + 1), x, tail, fits)
    ensures Reads(ParseF(w, Unparse(w, Not(x), InNot) + tail, lev), Not(x), tail, fits)
  {
    var s := "!" + Unparse(w, x, InNot) + tail;
    assert s[1..] == Unparse(w, x, InNot) + tail;
    SkipNothing(s);
  }

  lemma {:induction false} ReadF(w: World, b: Lock, tail: string, lev: nat)
    requires w.Consistent() && RightNested(b) && Printable(w, b) && EndsF(tail) && lev <= w.maxDepth
    ensures Reads(ParseF(w, Unparse(w, b, InNot) + tail, lev), b, tail, lev + DepthF(b) <= w.maxDepth)
    decreases b, if b.And? || b.Or? then 2 else 3
  {
    hide ParseL, ParseT, ParseE;
    if lev == w.maxDepth {
      Failures(w, Unparse(w, b, InNot) + tail, lev);
    } else {
      match b
      case And(_, _) => ReadGroup(w, b, tail, lev);
      case Or(_, _) => ReadGroup(w, b, tail, lev);
      case Not(x) =>
        ReadF(w, x, tail, lev + 1);
        NotRead(w, x, tail, lev, lev + 1 + DepthF(x) <= w.maxDepth);
      case Indir(x) => PrefixRead(w, '@', x, tail, lev);
      case Is(x) => PrefixRead(w, '=', x, tail, lev);
      case Carry(x) => PrefixRead(w, '+', x, tail, lev);
      case Owner(x) => PrefixRead(w, '$', x, tail, lev);
      case Const(n) =>
        FactorIsLeaf(w, Unparse(w, b, InNot) + tail, lev);
        ConstRead(w, n, tail, lev + 1);
      case Attr(n, _) => ReadAttr(w, b, tail, lev);
      case Eval(n, _) => ReadAttr(w, b, tail, lev);
    }
  }

  lemma ReadAttr(w: World, b: Lock, tail: string, lev: nat)
    requires w.Consistent() && (b.Attr? || b.Eval?) && CleanAttr(w, b.num, b.value) && EndsF(tail) && lev < w.maxDepth
    ensures ParseF(w, Unparse(w, b, InNot) + tail, lev) == (Some(b), tail)
  {
    hide ParseF, ParseL;
    LeafTextIs(w, b, InNot);
    AttrTextRead(w, b.num);
    FactorIsLeaf(w, LeafText(w, b) + tail, lev);
    LeafRead(w, b, tail, lev + 1);
  }

  /** A factor in parentheses. */
  lemma {:induction false} ReadGroup(w: World, b: Lock, tail: string, lev: nat)
    requires w.Consistent() && RightNested(b) && Printable(w, b) && EndsF(tail) && lev < w.maxDepth
    requires b.And? || b.Or?
    ensures Reads(ParseF(w, Unparse(w, b, InNot) + tail, lev), b, tail, lev + DepthF(b) <= w.maxDepth)
    decreases b, 1, 1
  {
    hide ParseF, ParseL, ParseT, ParseE, RightNested, Printable, DepthE, DepthT;
    var inner := Unparse(w, b, Elsewhere);
    assert Unparse(w, b, InNot) == Wrapped(true, inner);
    hide Unparse;
    ReadE(w, b, ")" + tail, lev + 1);
    var fits := lev + 1 + DepthE(b) <= w.maxDepth;
    ParensRead(w, inner, tail, if fits then Some(b) else None, lev + 1);
    FactorIsLeaf(w, "(" + inner + ")" + tail, lev);
  }

  lemma {:induction false} ReadT(w: World, b: Lock, tail: string, lev: nat)
    requires w.Consistent() && RightNested(b) && Printable(w, b) && EndsT(tail) && lev <= w.maxDepth
    ensures Reads(ParseT(w, Unparse(w, b, InAnd) + tail, lev), b, tail, lev + DepthT(b) <= w.maxDepth)
    decreases b, if b.And? then 0 else if b.Or? then 3 else 4
  {
    ChainText(w, b);
    hide Unparse, ParseE, ParseL, ParseF, ParseT, CleanAttr, World.Consistent;
    var s := Unparse(w, b, InAnd) + tail;
    Failures(w, s, lev);
    if lev < w.maxDepth {
      if b.And? {
        var l, r := Unparse(w, b.l, InAnd), Unparse(w, b.r, InAnd);
        var rest := "&" + r + tail;
        assert s == l + rest;
        NotAndText(w, b.l);
        ReadF(w, b.l, rest, lev + 1);
        ReadT(w, b.r, tail, lev + 1);
        TermSplits(w, s, rest, b.l, lev);
        assert rest[1..] == r + tail;
      } else {
        NotAndText(w, b);
        ReadF(w, b, tail, lev + 1);
        if lev + 1 + DepthF(b) <= w.maxDepth {
          TermIsFactor(w, s, tail, b, lev);
        }
      }
    }
  }

  /** How a chain is written where it needs no parentheses. */
  lemma ChainText(w: World, b: Lock)
    ensures b.And? ==> Unparse(w, b, InAnd) == Unparse(w, b.l, InAnd) + "&" + Unparse(w, b.r, InAnd)
    ensures b.Or? ==> Unparse(w, b, Elsewhere) == Unparse(w, b.l, Elsewhere) + "|" + Unparse(w, b.r, Elsewhere)
  {
  }

  lemma NotAndText(w: World, b: Lock)
    requires !b.And?
    ensures Unparse(w, b, InAnd) == Unparse(w, b, InNot)
  {
  }

  lemma NotOrText(w: World, b: Lock)
    requires !b.Or?
    ensures Unparse(w, b, Elsewhere) == Unparse(w, b, InAnd)
  {
  }

  lemma TermSplits(w: World, s: string, rest: string, l: Lock, lev: nat)
    requires lev < w.maxDepth && rest != "" && rest[0] == '&' && ParseF(w, s, lev + 1).0.Some? ==> ParseF(w, s, lev + 1) == (Some(l), rest)
    ensures lev < w.maxDepth && rest != "" && rest[0] == '&' && ParseF(w, s, lev + 1).0.Some? ==>
      var q := ParseT(w, rest[1..], lev + 1);
      ParseT(w, s, lev) == (if q.0.None? then None else Some(And(l, q.0.value)), q.1)
  {
    if lev < w.maxDepth && rest != "" && rest[0] == '&' && ParseF(w, s, lev + 1).0.Some? {
      SkipNothing(rest);
      hide ParseF;
    }
  }

  lemma ExpressionSplits(w: World, s: string, rest: string, l: Lock, lev: nat)
    requires lev < w.maxDepth && rest != "" && rest[0] == '|' && ParseT(w, s, lev + 1).0.Some? ==> ParseT(w, s, lev + 1) == (Some(l), rest)
    ensures lev < w.maxDepth && rest != "" && rest[0] == '|' && ParseT(w, s, lev + 1).0.Some? ==>
      var q := ParseE(w, rest[1..], lev + 1);
      ParseE(w, s, lev) == (if q.0.None? then None else Some(Or(l, q.0.value)), q.1)
  {
    if lev < w.maxDepth && rest != "" && rest[0] == '|' && ParseT(w, s, lev + 1).0.Some? {
      SkipNothing(rest);
      hide ParseT;
    }
  }

  lemma {:induction false} ReadE(w: World, b: Lock, tail: string, lev: nat)
    requires w.Consistent() && RightNested(b) && Printable(w, b) && EndsE(tail) && lev <= w.maxDepth
    ensures Reads(ParseE(w, Unparse(w, b, Elsewhere) + tail, lev), b, tail, lev + DepthE(b) <= w.maxDepth)
    decreases b, if b.And? || b.Or? then 1 else 5, 0
  {
    ChainText(w, b);
    hide Unparse, ParseE, ParseL, ParseF, ParseT, CleanAttr, World.Consistent, Stops;
    var s := Unparse(w, b, Elsewhere) + tail;
    Failures(w, s, lev);
    if lev < w.maxDepth {
      if b.Or? {
        var l, r := Unparse(w, b.l, Elsewhere), Unparse(w, b.r, Elsewhere);
        var rest := "|" + r + tail;
        assert s == l + rest;
        NotOrText(w, b.l);
        ReadT(w, b.l, rest, lev + 1);
        ReadE(w, b.r, tail, lev + 1);
        ExpressionSplits(w, s, rest, b.l, lev);
        assert rest[1..] == r + tail;
      } else {
        NotOrText(w, b);
        ReadT(w, b, tail, lev + 1);
        if lev + 1 + DepthT(b) <= w.maxDepth {
          ExpressionIsTerm(w, s, tail, b, lev);
        }
      }
    }
  }

  /** Writing a lock and reading it back: the same lock with its chains nested to the
      right if the nesting fits the limit, and nothing if it does not. */
  lemma WriteRead(w: World, b: Lock)
    requires w.Consistent() && Printable(w, b) && |Unparse(w, b, Elsewhere)| <= LBUF_SIZE
    ensures Parse(w, Unparse(w, b, Elsewhere)) == if DepthE(Norm(b)) <= w.maxDepth then Some(Norm(b)) else None
  {
    hide ParseE, Unparse, DepthE, Printable, Norm;
    NormText(w, b, Elsewhere);
    NormNested(b);
    var s := Unparse(w, b, Elsewhere);
    ReadE(w, Norm(b), "", 0);
    assert s + "" == s;
    NeverEmpty(w, b);
  }

  lemma NeverEmpty(w: World, b: Lock)
    ensures Unparse(w, b, Elsewhere) != ""
  {
  }

  /** A lock survives being written and read exactly if it is nested to the right and not
      too deeply. */
  lemma SurvivesIff(w: World, b: Lock)
    requires w.Consistent() && Printable(w, b) && |Unparse(w, b, Elsewhere)| <= LBUF_SIZE
    ensures Parse(w, Unparse(w, b, Elsewhere)) == Some(b) <==> RightNested(b) && DepthE(b) <= w.maxDepth
  {
    hide Parse, Unparse, DepthE, Printable, Norm, RightNested;
    WriteRead(w, b);
    NormNested(b);
  }

  // ---- what the parser returns

  /** The attributes of a tree are cleanly named. */
  predicate CleanNames(w: World, b: Lock) {
    match b
    case And(l, r) => CleanNames(w, l) && CleanNames(w, r)
    case Or(l, r) => CleanNames(w, l) && CleanNames(w, r)
    case Not(x) => CleanNames(w, x)
    case Indir(_) => true
    case Owner(_) => true
    case Is(x) => x.Attr? ==> CleanlyNamed(w, x.num)
    case Carry(x) => x.Attr? ==> CleanlyNamed(w, x.num)
    case Const(_) => true
    case Attr(n, _) => CleanlyNamed(w, n)
    case Eval(n, _) => CleanlyNamed(w, n)
  }

  /** What the parser sees to whatever the attribute table is like, and the rest. */
  ghost predicate GoodTree(w: World, b: Lock) {
    && Shaped(b)
    && (w.Consistent() ==> WellFormed(w, b) && (Printable(w, b) <==> CleanNames(w, b)))
  }

  ghost predicate Good(w: World, r: Parsed) {
    r.0.Some? ==> GoodTree(w, r.0.value)
  }

  lemma IdentifierGood(w: World, s: string)
    requires forall i :: 0 <= i < |s| ==> !Stops(s[i])
    requires s == "" || !IsSpace(s[|s| - 1])
    ensures Identifier(w, s).Some? ==>
      var b := Identifier(w, s).value; (b.Const? || b.Attr? || b.Eval?) && GoodTree(w, b)
  {
    hide Atoi, ToDbref, TestAttr, CleanlyNamed, World.Consistent;
    AttrGood(w, s);
  }

  lemma AttrGood(w: World, s: string)
    requires forall i :: 0 <= i < |s| ==> !Stops(s[i])
    requires s == "" || !IsSpace(s[|s| - 1])
    ensures TestAttr(w, s).Some? ==> var b := TestAttr(w, s).value; (b.Attr? || b.Eval?) && GoodTree(w, b)
  {
    hide Atoi, CleanlyNamed, AttrNumber;
    var n := SepAt(s);
    if n < |s| {
      NumberInRange(w, s[..n]);
      assert CleanValue(s[n + 1..]);
    }
  }

  lemma NumberInRange(w: World, name: string)
    ensures w.Consistent() && AttrNumber(w, name).Some? ==> 0 < AttrNumber(w, name).value <= INT_MAX
  {
  }

  lemma {:induction false} GoodL(w: World, s: string, lev: nat)
    requires lev <= w.maxDepth
    ensures Good(w, ParseL(w, s, lev))
    decreases w.maxDepth - lev, 1
  {
    hide ParseE, Identifier, WellFormed, Printable, SkipSpace;
    var t := SkipSpace(s);
    if t != "" && t[0] == '(' {
      GoodE(w, t[1..], lev);
    } else {
      var u := t[..LeafEnd(t)];
      IdentifierGood(w, Trim(u));
    }
  }

  lemma {:induction false} GoodF(w: World, s: string, lev: nat)
    requires lev <= w.maxDepth
    ensures Good(w, ParseF(w, s, lev))
    decreases w.maxDepth - lev, 0
  {
    hide ParseL, CleanAttr, SkipSpace;
    if lev < w.maxDepth {
      var t := SkipSpace(s);
      if t != "" {
        GoodF(w, t[1..], lev + 1);
        GoodL(w, t[1..], lev + 1);
      }
      GoodL(w, t, lev + 1);
    }
  }

  lemma {:induction false} GoodT(w: World, s: string, lev: nat)
    requires lev <= w.maxDepth
    ensures Good(w, ParseT(w, s, lev))
    decreases w.maxDepth - lev, 0
  {
    hide ParseF, SkipSpace;
    if lev < w.maxDepth {
      GoodF(w, s, lev + 1);
      var t := SkipSpace(ParseF(w, s, lev + 1).1);
      if t != "" {
        GoodT(w, t[1..], lev + 1);
      }
    }
  }

  lemma {:induction false} GoodE(w: World, s: string, lev: nat)
    requires lev <= w.maxDepth
    ensures Good(w, ParseE(w, s, lev))
    decreases w.maxDepth - lev, 0
  {
    hide ParseT, SkipSpace;
    if lev < w.maxDepth {
      GoodT(w, s, lev + 1);
      var t := SkipSpace(ParseT(w, s, lev + 1).1);
      if t != "" {
        GoodE(w, t[1..], lev + 1);
      }
    }
  }

  /** Every tree the parser returns is one the evaluator can walk, whatever the attribute
      table; it can be printed and read back if the names of its attributes allow it. */
  lemma ParsedWellFormed(w: World, s: string)
    requires Parse(w, s).Some?
    ensures Shaped(Parse(w, s).value)
    ensures w.Consistent() ==> WellFormed(w, Parse(w, s).value)
    ensures w.Consistent() ==> (Printable(w, Parse(w, s).value) <==> CleanNames(w, Parse(w, s).value))
  {
    hide ParseE, Shaped, WellFormed, Printable, CleanNames;
    GoodE(w, if |s| > LBUF_SIZE then s[..LBUF_SIZE] else s, 0);
  }

  /** An attribute leaf survives exactly if its name leads back to it, and neither the name
      nor the value holds a character of the grammar; the server has names that do not. */
  lemma AttrSurvivesIff(w: World, n: int, v: string)
    requires w.Consistent() && 0 < n <= INT_MAX && w.maxDepth >= 3 && |LeafText(w, Attr(n, v))| <= LBUF_SIZE
    ensures Parse(w, Unparse(w, Attr(n, v), Elsewhere)) == Some(Attr(n, v)) <==> CleanAttr(w, n, v)
  {
    var b := Attr(n, v);
    var s := LeafText(w, b);
    LeafTextIs(w, b, Elsewhere);
    if CleanAttr(w, n, v) {
      AttrDepth(b);
      hide DepthE;
      SurvivesIff(w, b);
    } else {
      hide ParseE, ParseL, Identifier;
      AttrTextRead(w, n);
      if ParseE(w, s, 0).0 == Some(b) {
        LeafOnly(w, s, b);
        LeafClean(w, n, v);
      }
    }
  }

  lemma AttrDepth(b: Lock)
    requires b.Attr?
    ensures DepthE(b) == 3
  {
    assert DepthF(b) == 1;
    assert DepthT(b) == 2;
  }

  /** An attribute leaf comes from the identifier the text starts with. */
  lemma LeafOnly(w: World, s: string, b: Lock)
    requires w.maxDepth >= 3 && s != "" && !(IsSpace(s[0]) || s[0] == '!' || s[0] == '(' || IsPrefix(s[0]))
    requires b.Attr? && ParseE(w, s, 0).0 == Some(b)
    ensures Identifier(w, Trim(s[..LeafEnd(s)])) == Some(b)
  {
    SkipNothing(s);
    assert ParseT(w, s, 1).0 == Some(b);
    assert ParseF(w, s, 2).0 == Some(b);
    assert ParseL(w, s, 3).0 == Some(b);
  }

  lemma LeafClean(w: World, n: int, v: string)
    requires w.Consistent() && 0 < n <= INT_MAX
    requires var s := LeafText(w, Attr(n, v)); Identifier(w, Trim(s[..LeafEnd(s)])) == Some(Attr(n, v))
    ensures CleanAttr(w, n, v)
  {
    hide AttrNumber, Atoi, ToDbref, AttrText, World.Consistent, World.Findable, CleanName, CleanValue;
    AttrTextRead(w, n);
    var name := AttrText(w, n);
    var s := LeafText(w, Attr(n, v));
    var u := Trim(s[..LeafEnd(s)]);
    var k := SepAt(u);
    assert u == s[..|u|];
    assert k < |u| && u[k] == ':' && u[k + 1..] == v && s[k] == ':';
    assert s[|name|] == ':' && forall i :: 0 <= i < |name| ==> s[i] == name[i] && s[i] != ':';
    assert k == |name|;
    assert u == s;
    assert u[..k] == name;
    assert AttrNumber(w, name) == Some(n);
    NameClean(s, name, v);
  }

  /** No character of the grammar ends the text early, so none is in it. */
  lemma NameClean(s: string, name: string, v: string)
    requires s == name + ":" + v && SepAt(s) == |name| && Trim(s[..LeafEnd(s)]) == s
    ensures CleanName(name) && CleanValue(v)
  {
    forall i | 0 <= i < |name|
      ensures name[i] != '/' && name[i] != '&' && name[i] != ')'
    {
      assert s[i] == name[i];
    }
    forall i | 0 <= i < |v|
      ensures !Stops(v[i])
    {
      assert s[|name| + 1 + i] == v[i];
    }
  }

  /** A text that starts with an asterisk is no lock. */
  lemma StarUnread(w: World, s: string)
    requires w.Consistent() && s != "" && s[0] == '*'
    ensures Parse(w, s) == None
  {
    var t := if |s| > LBUF_SIZE then s[..LBUF_SIZE] else s;
    var u := t[..LeafEnd(t)];
    assert t[0] == '*' && |u| > 0 && u[0] == '*';
    TrimStart(u);
    StarNoName(w, Trim(u));
    SkipNothing(t);
    hide Identifier, ParseE, ParseT, ParseF;
    Failures(w, t, 0);
    if w.maxDepth > 0 {
      Failures(w, t, 1);
      if w.maxDepth > 1 {
        Failures(w, t, 2);
        if w.maxDepth > 2 {
          FactorIsLeaf(w, t, 2);
        }
      }
    }
  }

  lemma {:induction false} TrimStart(s: string)
    requires s != "" && !IsSpace(s[0])
    ensures Trim(s) != "" && Trim(s)[0] == s[0]
  {
    if IsSpace(s[|s| - 1]) {
      TrimStart(s[..|s| - 1]);
    }
  }

  lemma StarNoName(w: World, s: string)
    requires w.Consistent() && s != "" && s[0] == '*'
    ensures Identifier(w, s) == None
  {
    var n := SepAt(s);
    NameStart(s[..n]);
    assert n > 0 && s[..n][0] == '*' && Atoi(s[..n]) == 0;
  }

  /** A lock on an attribute whose name starts with an asterisk can be given by number, and
      is lost when written. */
  lemma StarredLost(w: World, n: int, v: string)
    requires w.Consistent() && w.atrName(n).Some? && Starred(w.atrName(n).value)
    ensures !w.Findable(n) && Parse(w, Unparse(w, Attr(n, v), Elsewhere)) == None
  {
    StarUnread(w, LeafText(w, Attr(n, v)));
    NameStart(w.atrName(n).value);
  }

  /** For instance a lock on the password. */
  lemma PasswordLost(w: World)
    requires w.Consistent() && w.maxDepth >= 3 && w.atrName(5) == Some("*Password")
    ensures Parse(w, "5:foo") == Some(Attr(5, "foo"))
    ensures Unparse(w, Attr(5, "foo"), Elsewhere) == "*Password:foo" && Parse(w, "*Password:foo") == None
  {
    hide ParseL, ParseE, ParseF, ParseT;
    var s := "5:foo";
    FiveRead(w);
    FactorIsLeaf(w, s, 2);
    TermIsFactor(w, s, "", Attr(5, "foo"), 1);
    ExpressionIsTerm(w, s, "", Attr(5, "foo"), 0);
    assert Parse(w, s) == ParseE(w, s, 0).0;
    StarredLost(w, 5, "foo");
  }

  lemma FiveRead(w: World)
    requires w.Consistent() && w.maxDepth >= 3
    ensures ParseL(w, "5:foo", 3) == (Some(Attr(5, "foo")), "")
  {
    var s := "5:foo";
    FiveIdentified(w);
    LeafEndIs(s, "");
    assert s + "" == s && Trim(s) == s && s[..5] == s && s[5..] == "";
    SkipNothing(s);
    LeafSplits(w, s, 3);
    hide ParseL, ParseE, Identifier, Trim, LeafEnd, SkipSpace;
  }

  lemma FiveIdentified(w: World)
    requires w.Consistent()
    ensures Identifier(w, "5:foo") == Some(Attr(5, "foo"))
  {
    var s := "5:foo";
    NameStart("5");
    assert SepAt(s) == 1 && s[..1] == "5" && s[2..] == "foo" && Atoi("5") == 5;
  }
}
