/** The lock parser and evaluator as the server runs them: a cursor and a depth counter
    shared by four mutually recursive procedures, and a nesting counter shared by two. */
module Locks {
  import opened CText
  import opened LockSyntax
  import opened LockTheorems
  import opened LockMeaning

  class LockParser {
    const w: World
    var depth: nat                // boolexp_parse_depth
    var buf: string               // what *pBuf points to

    constructor (w: World, text: string)
      ensures this.w == w && depth == 0 && buf == text
    {
      this.w := w;
      depth := 0;
      buf := text;
    }

    /** skip_whitespace. */
    method SkipWhitespace()
      modifies this`buf
      ensures buf == SkipSpace(old(buf))
    {
      while buf != "" && IsSpace(buf[0])
        invariant SkipSpace(buf) == SkipSpace(old(buf))
        decreases |buf|
      {
        buf := buf[1..];
      }
    }

    /** Copies up to the next delimiter. */
    method CopyIdentifier() returns (id: string)
      modifies this`buf
      ensures id + buf == old(buf) && |id| == LeafEnd(old(buf))
    {
      id := "";
      while buf != "" && !Stops(buf[0])
        invariant old(buf) == id + buf && forall i :: 0 <= i < |id| ==> !Stops(id[i])
        decreases |buf|
      {
        id := id + [buf[0]];
        buf := buf[1..];
      }
      LeafEndIs(id, buf);
    }

    /** Trims trailing whitespace. */
    method TrimEnd(s: string) returns (id: string)
      ensures id == Trim(s)
    {
      id := s;
      while id != "" && IsSpace(id[|id| - 1])
        invariant Trim(id) == Trim(s)
        decreases |id|
      {
        id := id[..|id| - 1];
      }
    }

    /** The identifier at the cursor. */
    method ReadIdentifier() returns (id: string)
      modifies this`buf
      ensures id == Trim(old(buf)[..LeafEnd(old(buf))]) && buf == old(buf)[LeafEnd(old(buf))..]
    {
      hide LeafEnd, Trim;
      var whole := CopyIdentifier();
      id := TrimEnd(whole);
      assert old(buf)[..|whole|] == whole && old(buf)[|whole|..] == buf;
    }

    /** _boolexp_test_atr, parsing internally. */
    method TestAtr(s: string) returns (b: Option<Lock>)
      ensures b == TestAttr(w, s)
    {
      hide Atoi;
      var sep := 0;
      while sep < |s| && s[sep] != ':' && s[sep] != '/'
        invariant sep <= |s| && SepAt(s) == sep + SepAt(s[sep..])
      {
        assert s[sep..][1..] == s[sep + 1..];
        sep := sep + 1;
      }
      assert SepAt(s[sep..]) == 0;
      if sep == |s| {
        return None;
      }
      var anum: int;
      var attrib := w.atrStr(s[..sep]);
      if attrib.Some? {
        anum := attrib.value;
      } else {
        var temp := Atoi(s[..sep]);
        if temp <= 0 || temp > INT_MAX {
          return None;
        }
        anum := temp;
      }
      return Some(if s[sep] == '/' then Eval(anum, s[sep + 1..]) else Attr(anum, s[sep + 1..]));
    }

    /** _boolexp_parse_L. */
    method ParseLeaf() returns (b: Option<Lock>)
      requires depth <= w.maxDepth
      modifies this
      ensures depth == old(depth) && (b, buf) == ParseL(w, old(buf), depth)
      decreases w.maxDepth - depth, 1
    {
      LeafSplits(w, buf, depth);
      hide ParseL, ParseE, TestAttr, ToDbref, Atoi, Trim, LeafEnd, SkipSpace;
      SkipWhitespace();
      if buf != "" && buf[0] == '(' {
        buf := buf[1..];
        b := ParseExpression();
        SkipWhitespace();
        if b.None? || buf == "" || buf[0] != ')' {
          return None;
        }
        buf := buf[1..];
      } else {
        var id := ReadIdentifier();
        b := TestAtr(id);
        if b.Some? {
          return;
        }
        if id == "" || id[0] != '#' {
          return None;
        }
        var thing := ToDbref(Atoi(id[1..]));
        if !w.good(thing) {
          return None;
        }
        b := Some(Const(thing));
      }
    }

    /** _boolexp_parse_F. */
    method ParseFactor() returns (b: Option<Lock>)
      requires depth <= w.maxDepth
      modifies this
      ensures depth == old(depth) && (b, buf) == ParseF(w, old(buf), depth)
      decreases w.maxDepth - depth, 0
    {
      hide ParseL;
      depth := depth + 1;
      if depth > w.maxDepth {
        depth := depth - 1;
        return None;
      }
      SkipWhitespace();
      if buf != "" && buf[0] == '!' {
        buf := buf[1..];
        b := ParseFactor();
        if b.None? {
          depth := depth - 1;
          return None;
        }
        b := Some(Not(b.value));
      } else if buf != "" && IsPrefix(buf[0]) {
        var op := buf[0];
        buf := buf[1..];
        b := ParseLeaf();
        if b.None? || !Takes(op, b.value) {
          depth := depth - 1;
          return None;
        }
        b := Some(Prefixed(op, b.value));
      } else {
        SkipNothing(buf);
        b := ParseLeaf();
      }
      depth := depth - 1;
    }

    /** _boolexp_parse_T. */
    method ParseTerm() returns (b: Option<Lock>)
      requires depth <= w.maxDepth
      modifies this
      ensures depth == old(depth) && (b, buf) == ParseT(w, old(buf), depth)
      decreases w.maxDepth - depth, 0
    {
      hide ParseF;
      depth := depth + 1;
      if depth > w.maxDepth {
        depth := depth - 1;
        return None;
      }
      b := ParseFactor();
      if b.None? {
        depth := depth - 1;
        return None;
      }
      SkipWhitespace();
      if buf == "" || buf[0] != '&' {
        depth := depth - 1;
        return b;
      }
      buf := buf[1..];
      var b2 := ParseTerm();
      if b2.None? {
        depth := depth - 1;
        return None;
      }
      depth := depth - 1;
      return Some(And(b.value, b2.value));
    }

    /** _boolexp_parse_E. */
    method ParseExpression() returns (b: Option<Lock>)
      requires depth <= w.maxDepth
      modifies this
      ensures depth == old(depth) && (b, buf) == ParseE(w, old(buf), depth)
      decreases w.maxDepth - depth, 0
    {
      hide ParseT;
      depth := depth + 1;
      if depth > w.maxDepth {
        depth := depth - 1;
        return None;
      }
      b := ParseTerm();
      if b.None? {
        depth := depth - 1;
        return None;
      }
      SkipWhitespace();
      if buf == "" || buf[0] != '|' {
        depth := depth - 1;
        return b;
      }
      buf := buf[1..];
      var b2 := ParseExpression();
      if b2.None? {
        depth := depth - 1;
        return None;
      }
      depth := depth - 1;
      return Some(Or(b.value, b2.value));
    }
  }

  /** boolexp_parse, parsing internally. */
  method ParseLock(w: World, text: string) returns (b: Option<Lock>)
    ensures b == Parse(w, text)
  {
    if text == "" {
      return None;
    }
    var parser := new LockParser(w, if |text| > LBUF_SIZE then text[..LBUF_SIZE] else text);
    b := parser.ParseExpression();
  }

  class LockKeeper {
    const scene: Scene
    var nestLev: nat              // lock_nest_lev

    constructor (scene: Scene)
      ensures this.scene == scene && nestLev == 0
    {
      this.scene := scene;
      nestLev := 0;
    }

    /** The walk over the objects carried. */
    method CheckContents(objs: seq<int>, from: int, num: int, key: string) returns (r: bool)
      ensures r <==> AnyMatches(scene, objs, from, num, key)
    {
      for i := 0 to |objs|
        invariant forall j :: 0 <= j < i ==> !scene.matches(objs[j], from, num, key)
      {
        if scene.matches(objs[i], from, num, key) {
          return true;
        }
      }
      return false;
    }

    /** _boolexp_check_attr_lock. */
    method CheckAttrLock(x: Lock, player: int, from: int, inventory: bool) returns (r: bool)
      requires x.Attr?
      ensures inventory ==>
        (r <==> scene.attrExists(x.num) && AnyMatches(scene, scene.contents(player), from, x.num, x.value))
      ensures !inventory ==>
        (r <==> scene.attrExists(x.num) && scene.matches(player, from, x.num, x.value))
    {
      if !scene.attrExists(x.num) {
        return false;
      }
      if !inventory && scene.matches(player, from, x.num, x.value) {
        return true;
      }
      if inventory {
        r := CheckContents(scene.contents(player), from, x.num, x.value);
        return;
      }
      return false;
    }

    /** boolexp_eval, for the trees the parser makes. */
    method EvalLock(player: int, thing: int, from: int, b: Lock) returns (r: bool)
      requires Shaped(b)
      modifies this
      ensures nestLev == old(nestLev)
      ensures r <==> Passes(scene, nestLev, player, thing, from, b)
      decreases Left(scene, nestLev), 0, b
    {
      hide Parse;
      match b
      case And(x, y) =>
        r := EvalLock(player, thing, from, x);
        if r {
          r := EvalLock(player, thing, from, y);
        }
      case Or(x, y) =>
        r := EvalLock(player, thing, from, x);
        if !r {
          r := EvalLock(player, thing, from, y);
        }
      case Not(x) =>
        r := EvalLock(player, thing, from, x);
        r := !r;
      case Indir(x) =>
        nestLev := nestLev + 1;
        if nestLev >= scene.nestLim || x.thing < 0 {
          nestLev := nestLev - 1;
          return false;
        }
        r := EvalText(player, x.thing, from, scene.lockText(x.thing));
        nestLev := nestLev - 1;
      case Is(x) =>
        if x.Const? {
          r := x.thing == player;
        } else {
          r := CheckAttrLock(x, player, from, false);
        }
      case Carry(x) =>
        if x.Const? {
          r := x.thing in scene.contents(player);
        } else {
          r := CheckAttrLock(x, player, from, true);
        }
      case Owner(x) => r := scene.owner(x.thing) == scene.owner(player);
      case Const(n) => r := n == player || n in scene.contents(player);
      case Attr(n, v) =>
        if !scene.attrExists(n) {
          return false;
        }
        if scene.matches(player, from, n, v) {
          return true;
        }
        r := CheckContents(scene.contents(player), from, n, v);
      case Eval(n, v) => r := scene.attrExists(n) && scene.evaluates(player, thing, from, n, v);
    }

    /** boolexp_eval_atr. */
    method EvalText(player: int, thing: int, from: int, key: string) returns (r: bool)
      modifies this
      ensures nestLev == old(nestLev)
      ensures r <==> PassesText(scene, nestLev, player, thing, from, key)
      decreases Left(scene, nestLev), 1
    {
      hide Parse, Passes, Shaped;
      var b := ParseLock(scene.w, key);
      if b.None? {
        return true;
      }
      ParsedWellFormed(scene.w, key);
      r := EvalLock(player, thing, from, b.value);
    }
  }
}
