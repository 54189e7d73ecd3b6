/** Lock expressions: their trees, the depth-limited recursive descent that reads them, and
    the quiet form in which the server writes them. */
module LockSyntax {
  import opened CText

  const INT_MAX: int := 0x7fff_ffff
  const LBUF_SIZE: nat := 16384
  const VNAME_SIZE: nat := 32

  datatype Option<+T> = None | Some(value: T)

  /** BOOLEXP; `Attr` and `Eval` are leaves with an attribute number and a value. */
  datatype Lock =
    | And(l: Lock, r: Lock)
    | Or(l: Lock, r: Lock)
    | Not(sub: Lock)
    | Indir(sub: Lock)
    | Is(sub: Lock)
    | Carry(sub: Lock)
    | Owner(sub: Lock)
    | Const(thing: int)
    | Attr(num: int, value: string)
    | Eval(num: int, value: string)

  /** What parsing and printing read of the server. */
  datatype World = World(
    good: int -> bool,                     // Good_obj
    atrStr: string -> Option<int>,         // the number of the attribute found by name
    atrName: int -> Option<string>,        // the name of an attribute with a nonzero number
    maxDepth: nat)                         // MAX_BOOLEXP_PARSE_DEPTH
  {
    /** What the attribute table guarantees. A name is looked up by its first characters,
        if they make an acceptable name. All names are acceptable but for those of four
        internal attributes, which start with an asterisk. */
    ghost predicate Consistent() {
      && (forall x {:trigger good(x)} :: good(x) ==> 0 <= x <= INT_MAX)
      && (forall s {:trigger atrStr(s)} :: atrStr(s).Some? ==> OkName(Clipped(s)) && 0 < atrStr(s).value <= INT_MAX)
      && (forall n {:trigger atrName(n)} :: atrName(n).Some? ==> 0 < n <= INT_MAX && TableName(atrName(n).value))
    }

    /** The attribute's name, if it has one, leads back to it. */
    predicate Findable(n: int) {
      atrName(n).Some? ==> atrStr(atrName(n).value) == Some(n)
    }
  }

  predicate IsAlpha(ch: char) {
    'a' <= ch <= 'z' || 'A' <= ch <= 'Z'
  }

  /** ok_attr_name. */
  predicate OkName(s: string) {
    && s != "" && (IsAlpha(s[0]) || s[0] == '_')
    && forall i :: 0 <= i < |s| ==> IsAlpha(s[i]) || IsDigit(s[i]) || s[i] in "'?!`/-_.@#$^&~=+<>()%"
  }

  function Clipped(s: string): string {
    if |s| >= VNAME_SIZE then s[..VNAME_SIZE - 1] else s
  }

  predicate Starred(s: string) {
    s != "" && s[0] == '*' && OkName(s[1..])
  }

  predicate TableName(s: string) {
    |s| < VNAME_SIZE && (OkName(s) || Starred(s))
  }

  // ---- reading

  function SkipSpace(s: string): (r: string)
    ensures |r| <= |s|
    ensures r == "" || !IsSpace(r[0])
  {
    if s != "" && IsSpace(s[0]) then SkipSpace(s[1..]) else s
  }

  predicate Stops(ch: char) {
    ch == '&' || ch == '|' || ch == ')'
  }

  /** The length of the part of `s` a leaf reads. */
  function LeafEnd(s: string): (n: nat)
    ensures n <= |s|
    ensures forall i :: 0 <= i < n ==> !Stops(s[i])
    ensures n < |s| ==> Stops(s[n])
  {
    if s == "" || Stops(s[0]) then 0 else 1 + LeafEnd(s[1..])
  }

  function Trim(s: string): (r: string)
    ensures |r| <= |s| && r == s[..|r|]
    ensures r == "" || !IsSpace(r[|r| - 1])
  {
    if s != "" && IsSpace(s[|s| - 1]) then Trim(s[..|s| - 1]) else s
  }

  function SepAt(s: string): (n: nat)
    ensures n <= |s|
    ensures forall i :: 0 <= i < n ==> s[i] != ':' && s[i] != '/'
    ensures n < |s| ==> s[n] == ':' || s[n] == '/'
  {
    if s == "" || s[0] == ':' || s[0] == '/' then 0 else 1 + SepAt(s[1..])
  }

  /** An attribute by name, or by a number that is one. */
  function AttrNumber(w: World, name: string): Option<int> {
    if w.atrStr(name).Some? then w.atrStr(name)
    else if 0 < Atoi(name) <= INT_MAX then Some(Atoi(name))
    else None
  }

  /** _boolexp_test_atr, parsing internally. */
  function TestAttr(w: World, s: string): Option<Lock> {
    var n := SepAt(s);
    if n == |s| then None
    else
      var a := AttrNumber(w, s[..n]);
      if a.None? then None
      else if s[n] == '/' then Some(Eval(a.value, s[n + 1..]))
      else Some(Attr(a.value, s[n + 1..]))
  }

  /** strtol clamps to a long, of which a dbref keeps the low 32 bits. */
  function ToDbref(n: int): int {
    ToInt(if n > 0x7fff_ffff_ffff_ffff then 0x7fff_ffff_ffff_ffff
          else if n < -0x8000_0000_0000_0000 then -0x8000_0000_0000_0000 else n)
  }

  /** The identifier branch of _boolexp_parse_L. */
  function Identifier(w: World, s: string): Option<Lock> {
    var a := TestAttr(w, s);
    if a.Some? then a
    else if s == "" || s[0] != '#' then None
    else if !w.good(ToDbref(Atoi(s[1..]))) then None
    else Some(Const(ToDbref(Atoi(s[1..]))))
  }

  /** A tree or TRUE_BOOLEXP, and the text left. */
  type Parsed = (Option<Lock>, string)

  /** Which operators may stand in front of what. */
  predicate Takes(op: char, b: Lock) {
    if op == '@' || op == '$' then b.Const? else b.Const? || b.Attr?
  }

  predicate IsPrefix(ch: char) {
    ch == '@' || ch == '=' || ch == '+' || ch == '$'
  }

  function Prefixed(op: char, b: Lock): Lock {
    if op == '@' then Indir(b) else if op == '=' then Is(b) else if op == '+' then Carry(b) else Owner(b)
  }

  /** _boolexp_parse_L at depth `lev`. */
  function ParseL(w: World, s: string, lev: nat): Parsed
    requires lev <= w.maxDepth
    decreases w.maxDepth - lev, 1
  {
    var t := SkipSpace(s);
    if t != "" && t[0] == '(' then
      var r := ParseE(w, t[1..], lev);
      var u := SkipSpace(r.1);
      if r.0.None? || u == "" || u[0] != ')' then (None, u) else (r.0, u[1..])
    else
      (Identifier(w, Trim(t[..LeafEnd(t)])), t[LeafEnd(t)..])
  }

  function ParseF(w: World, s: string, lev: nat): Parsed
    requires lev <= w.maxDepth
    decreases w.maxDepth - lev, 0
  {
    if lev == w.maxDepth then (None, s)
    else
      var t := SkipSpace(s);
      if t != "" && t[0] == '!' then
        var r := ParseF(w, t[1..], lev + 1);
        (if r.0.None? then None else Some(Not(r.0.value)), r.1)
      else if t != "" && IsPrefix(t[0]) then
        var r := ParseL(w, t[1..], lev + 1);
        (if r.0.None? || !Takes(t[0], r.0.value) then None else Some(Prefixed(t[0], r.0.value)), r.1)
      else ParseL(w, t, lev + 1)
  }

  function ParseT(w: World, s: string, lev: nat): Parsed
    requires lev <= w.maxDepth
    decreases w.maxDepth - lev, 0
  {
    if lev == w.maxDepth then (None, s)
    else
      var r := ParseF(w, s, lev + 1);
      if r.0.None? then r
      else
        var t := SkipSpace(r.1);
        if t == "" || t[0] != '&' then (r.0, t)
        else
          var q := ParseT(w, t[1..], lev + 1);
          (if q.0.None? then None else Some(And(r.0.value, q.0.value)), q.1)
  }

  function ParseE(w: World, s: string, lev: nat): Parsed
    requires lev <= w.maxDepth
    decreases w.maxDepth - lev, 0
  {
    if lev == w.maxDepth then (None, s)
    else
      var r := ParseT(w, s, lev + 1);
      if r.0.None? then r
      else
        var t := SkipSpace(r.1);
        if t == "" || t[0] != '|' then (r.0, t)
        else
          var q := ParseE(w, t[1..], lev + 1);
          (if q.0.None? then None else Some(Or(r.0.value, q.0.value)), q.1)
  }

  /** boolexp_parse, parsing internally: None is TRUE_BOOLEXP. What follows a complete
      expression is ignored. */
  function Parse(w: World, s: string): Option<Lock> {
    if s == "" then None else ParseE(w, if |s| > LBUF_SIZE then s[..LBUF_SIZE] else s, 0).0
  }

  // ---- well-formed trees

  /** What the evaluator relies on. */
  predicate Shaped(b: Lock) {
    match b
    case And(l, r) => Shaped(l) && Shaped(r)
    case Or(l, r) => Shaped(l) && Shaped(r)
    case Not(x) => Shaped(x)
    case Indir(x) => x.Const?
    case Owner(x) => x.Const?
    case Is(x) => x.Const? || x.Attr?
    case Carry(x) => x.Const? || x.Attr?
    case Const(_) => true
    case Attr(_, _) => true
    case Eval(_, _) => true
  }

  /** The same, of valid objects and attribute numbers. */
  predicate WellFormed(w: World, b: Lock) {
    match b
    case And(l, r) => WellFormed(w, l) && WellFormed(w, r)
    case Or(l, r) => WellFormed(w, l) && WellFormed(w, r)
    case Not(x) => WellFormed(w, x)
    case Indir(x) => x.Const? && WellFormed(w, x)
    case Owner(x) => x.Const? && WellFormed(w, x)
    case Is(x) => (x.Const? || x.Attr?) && WellFormed(w, x)
    case Carry(x) => (x.Const? || x.Attr?) && WellFormed(w, x)
    case Const(n) => w.good(n)
    case Attr(n, v) => 0 < n <= INT_MAX
    case Eval(n, v) => 0 < n <= INT_MAX
  }

  // ---- writing

  /** The type of the node around the one being written. */
  datatype Outer = InNot | InAnd | Elsewhere

  function AttrText(w: World, n: int): string {
    if w.atrName(n).Some? then w.atrName(n).value else Decimal(n)
  }

  function Wrapped(inParens: bool, s: string): string {
    if inParens then "(" + s + ")" else s
  }

  /** unparse_boolexp1 in quiet form, when the text fits its buffer. */
  function Unparse(w: World, b: Lock, outer: Outer): string {
    match b
    case And(l, r) => Wrapped(outer == InNot, Unparse(w, l, InAnd) + "&" + Unparse(w, r, InAnd))
    case Or(l, r) => Wrapped(outer != Elsewhere, Unparse(w, l, Elsewhere) + "|" + Unparse(w, r, Elsewhere))
    case Not(x) => "!" + Unparse(w, x, InNot)
    case Indir(x) => "@" + Unparse(w, x, Elsewhere)
    case Is(x) => "=" + Unparse(w, x, Elsewhere)
    case Carry(x) => "+" + Unparse(w, x, Elsewhere)
    case Owner(x) => "$" + Unparse(w, x, Elsewhere)
    case Const(n) => "(#" + Decimal(n) + ")"
    case Attr(n, v) => AttrText(w, n) + ":" + v
    case Eval(n, v) => AttrText(w, n) + "/" + v
  }
}
