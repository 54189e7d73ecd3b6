/** The parser undoes the writer: parameters survive being written out, a transition takes
    whatever looks like its origin to something that looks like its target, and a text
    painted character by character reads back character by character. */
module SgrTheorems {
  import opened CText
  import opened SgrSpec

  // ---- tokens

  lemma TokensWhole(d: string)
    requires d != "" && forall i :: 0 <= i < |d| ==> d[i] != ';'
    ensures Tokens(d) == [d]
  {
    assert TokenEnd(d, 0) == |d|;
    assert d[..|d|] == d && Tokens(d[|d|..]) == [];
  }

  lemma {:induction false} TokensSnoc(s: string, d: string)
    requires d != "" && forall i :: 0 <= i < |d| ==> d[i] != ';'
    ensures Tokens(s + ";" + d) == Tokens(s) + [d]
    decreases |s|
  {
    var w := s + ";" + d;
    if s == "" {
      assert w[1..] == d;
      TokensWhole(d);
    } else if s[0] == ';' {
      assert w[1..] == s[1..] + ";" + d;
      TokensSnoc(s[1..], d);
    } else {
      var n := TokenEnd(s, 0);
      EndFound(w, 0, n);
      assert w[..n] == s[..n] && w[n..] == s[n..] + ";" + d;
      TokensSnoc(s[n..], d);
    }
  }

  lemma {:induction false} EndFound(w: string, i: nat, n: nat)
    requires i <= n < |w| && w[n] == ';' && forall j :: i <= j < n ==> w[j] != ';'
    ensures TokenEnd(w, i) == n
    decreases n - i
  {
    if i < n {
      EndFound(w, i + 1, n);
    }
  }

  lemma {:induction false} IntsSnoc(ts: seq<string>, d: string)
    ensures Ints(ts + [d]) == Ints(ts) + [Atoi(d)]
  {
    if ts == [] {
      assert ts + [d] == [d];
    } else {
      assert (ts + [d])[1..] == ts[1..] + [d];
      IntsSnoc(ts[1..], d);
    }
  }

  /** Parameters written out and read back are the same parameters. */
  lemma {:induction false} ParametersRead(codes: seq<int>)
    ensures Ints(Tokens(Joined(codes))) == codes
    ensures forall i :: 0 <= i < |Joined(codes)| ==> Joined(codes)[i] != 'm'
    ensures codes != [] ==> Joined(codes) != ""
  {
    hide Tokens, Ints, Decimal, Atoi;
    if codes == [] {
      NoParameter();
    } else if |codes| == 1 {
      OneParameter(codes[0]);
    } else {
      var front, n := codes[..|codes| - 1], codes[|codes| - 1];
      ParametersRead(front);
      DecimalRead(n);
      TokensSnoc(Joined(front), Decimal(n));
      IntsSnoc(Tokens(Joined(front)), Decimal(n));
      assert codes == front + [n];
    }
  }

  lemma NoParameter()
    ensures Ints(Tokens("")) == []
  {
  }

  lemma OneParameter(n: int)
    ensures Ints(Tokens(Decimal(n))) == [n]
    ensures forall i :: 0 <= i < |Decimal(n)| ==> Decimal(n)[i] != 'm'
  {
    hide Decimal, Tokens, Atoi;
    DecimalRead(n);
    TokensWhole(Decimal(n));
    assert [Decimal(n)][1..] == [];
  }

  // ---- parameters and states

  function After(was: Status, s: Status): Status {
    if s == Unset then was else s
  }

  function ColorAfter(t: Table, was: ColorInfo, i: ColorInfo, highlight: Status): ColorInfo {
    if i.isSet == Unset then was else if i.isSet == Reset then RESET_COLOR else IndexColor(t, Shown(t, i, highlight))
  }

  /** What the parser holds after reading the parameters written for `s`, if it held `p`. */
  function Written(t: Table, p: ColorState, s: ColorState): ColorState {
    var q := if s.reset == Reset then DEFAULT.(reset := Reset) else p;
    ColorState(ColorAfter(t, q.fg, s.fg, s.highlight), ColorAfter(t, q.bg, s.bg, s.highlight), q.reset,
               After(q.flash, s.flash), After(q.highlight, s.highlight), After(q.underline, s.underline),
               After(q.inverse, s.inverse))
  }

  predicate Simple(n: int) {
    n != 38 && n != 48
  }

  lemma SgrOne(t: Table, p: ColorState, ns: seq<int>, rest: seq<int>)
    requires |ns| == 1 && Simple(ns[0])
    ensures Sgr(t, p, ns + rest) == Sgr(t, One(t, p, ns[0]), rest)
  {
    assert (ns + rest)[1..] == rest;
  }

  lemma SgrAttr(t: Table, p: ColorState, s: Status, on: nat, off: nat, rest: seq<int>)
    requires Simple(on) && Simple(off)
    ensures Sgr(t, p, AttrCode(s, on, off) + rest)
         == Sgr(t, if s == Unset then p else if s == Reset then One(t, p, off) else One(t, p, on), rest)
  {
    if s == Unset {
      assert AttrCode(s, on, off) + rest == rest;
    } else {
      SgrOne(t, p, AttrCode(s, on, off), rest);
    }
  }

  lemma SgrColor(t: Table, p: ColorState, i: ColorInfo, highlight: Status, front: bool, rest: seq<int>)
    ensures var base := if front then 38 else 48;
      Sgr(t, p, ColorCode(t, i, highlight, base) + rest)
      == Sgr(t, Paint(p, front, ColorAfter(t, if front then p.fg else p.bg, i, highlight)), rest)
  {
    var base := if front then 38 else 48;
    var ns := ColorCode(t, i, highlight, base);
    if i.isSet == Unset {
      assert ns + rest == rest;
    } else if i.isSet == Reset {
      SgrOne(t, p, ns, rest);
    } else {
      var w := ns + rest;
      assert w[0] == base && w[1..][0] == 5 && w[1..][1] == Shown(t, i, highlight) && w[1..][2..] == rest;
    }
  }

  lemma SgrAttrs(t: Table, p: ColorState, s: ColorState, rest: seq<int>)
    ensures Sgr(t, p, AttrCodes(s) + rest)
         == Sgr(t, Written(t, p, s.(fg := NO_COLOR, bg := NO_COLOR)), rest)
  {
    hide Sgr, AttrCode;
    var z := if s.reset == Reset then [0] else [];
    var h, u := AttrCode(s.highlight, 1, 22), AttrCode(s.underline, 4, 24);
    var f, i := AttrCode(s.flash, 5, 25), AttrCode(s.inverse, 7, 27);
    assert AttrCodes(s) + rest == z + (h + (u + (f + (i + rest))));
    var p0 := if s.reset == Reset then DEFAULT.(reset := Reset) else p;
    if s.reset == Reset {
      SgrOne(t, p, z, h + (u + (f + (i + rest))));
    } else {
      assert z + (h + (u + (f + (i + rest)))) == h + (u + (f + (i + rest)));
    }
    SgrAttr(t, p0, s.highlight, 1, 22, u + (f + (i + rest)));
    var p1 := p0.(highlight := After(p0.highlight, s.highlight));
    SgrAttr(t, p1, s.underline, 4, 24, f + (i + rest));
    var p2 := p1.(underline := After(p1.underline, s.underline));
    SgrAttr(t, p2, s.flash, 5, 25, i + rest);
    var p3 := p2.(flash := After(p2.flash, s.flash));
    SgrAttr(t, p3, s.inverse, 7, 27, rest);
  }

  lemma SgrCodes(t: Table, p: ColorState, s: ColorState)
    ensures Sgr(t, p, Codes(t, s)) == Written(t, p, s)
  {
    hide Sgr, AttrCodes, Shown;
    var f, b := ColorCode(t, s.fg, s.highlight, 38), ColorCode(t, s.bg, s.highlight, 48);
    assert Codes(t, s) == AttrCodes(s) + (f + (b + []));
    SgrAttrs(t, p, s, f + (b + []));
    var q := Written(t, p, s.(fg := NO_COLOR, bg := NO_COLOR));
    SgrColor(t, q, s.fg, s.highlight, true, b + []);
    SgrColor(t, q.(fg := ColorAfter(t, q.fg, s.fg, s.highlight)), s.bg, s.highlight, false, []);
    SgrNil(t, Written(t, p, s));
  }

  lemma SgrNil(t: Table, p: ColorState)
    ensures Sgr(t, p, []) == p
  {
  }

  // ---- looks

  predicate InPalette(i: ColorInfo) {
    i.isSet == Set ==> 0 <= i.xterm < 256
  }

  predicate Valid(s: ColorState) {
    InPalette(s.fg) && InPalette(s.bg)
  }

  /** A highlighted colour whose ANSI index is not one of the first eight must not have a
      palette index whose own ANSI index is: the parser would brighten it. */
  predicate FaithfulColor(t: Table, i: ColorInfo, highlight: Status) {
    i.isSet == Set && highlight == Set && !(0 <= i.ansi < 8) ==> !(0 <= t.ansi(i.xterm) < 8)
  }

  predicate Faithful(t: Table, s: ColorState) {
    FaithfulColor(t, s.fg, s.highlight) && FaithfulColor(t, s.bg, s.highlight)
  }

  /** The parser's state `p` shows the same attributes as `s`, and colours where `s` does. */
  predicate Follows(s: ColorState, p: ColorState) {
    && (s.highlight == Set <==> p.highlight == Set) && (s.underline == Set <==> p.underline == Set)
    && (s.flash == Set <==> p.flash == Set) && (s.inverse == Set <==> p.inverse == Set)
    && (s.fg.isSet == Set <==> p.fg.isSet == Set) && (s.bg.isSet == Set <==> p.bg.isSet == Set)
  }

  /** `p` follows `s`, and looks the same exactly if `s` is faithful. */
  predicate Mirrors(t: Table, s: ColorState, p: ColorState) {
    Follows(s, p) && (LookOf(t, p) == LookOf(t, s) <==> Faithful(t, s))
  }

  lemma ColorRead(t: Table, i: ColorInfo, highlight: Status)
    requires t.Ok() && InPalette(i) && i.isSet == Set
    ensures var r := IndexColor(t, Shown(t, i, highlight));
      Seen(t, r, highlight) == Seen(t, i, highlight) <==> FaithfulColor(t, i, highlight)
  {
    assert 0 <= i.ansi < 8 ==> t.xterm(i.ansi + 8) == i.ansi + 8 && t.ansi(i.ansi + 8) == i.ansi + 8;
    assert t.xterm(i.xterm) == i.xterm;
    assert 0 <= t.ansi(i.xterm) < 16;
    var a := t.ansi(i.xterm);
    assert 0 <= a < 8 ==> t.xterm(a + 8) == a + 8;
    if highlight == Set && !(0 <= i.ansi < 8) && 0 <= a < 8 && i.xterm < 16 {
      assert a == i.xterm;
    }
  }

  /** An attribute comes out as wanted, given that clearing one is preceded by a reset. */
  lemma AttrFollows(from: Status, to: Status, was: Status, cleared: bool)
    requires (from == Set <==> was == Set) && (from == Set && to != Set ==> cleared)
    ensures After(if cleared then Unset else was, to) == Set <==> to == Set
  {
  }

  lemma ColorFollows(t: Table, from: ColorInfo, to: ColorInfo, highlight: Status, was: ColorInfo, cleared: bool)
    requires (from.isSet == Set <==> was.isSet == Set) && (from.isSet == Set && to.isSet != Set ==> cleared)
    ensures var r := ColorAfter(t, if cleared then NO_COLOR else was, to, highlight);
      && (r.isSet == Set <==> to.isSet == Set)
      && (to.isSet == Set ==> r == IndexColor(t, Shown(t, to, highlight)))
  {
  }

  /** Showing a colour depends on whether the highlight is set, not on how it is not. */
  lemma SeenAs(t: Table, i: ColorInfo, h: Status, k: Status)
    requires h == Set <==> k == Set
    ensures Seen(t, i, h) == Seen(t, i, k)
  {
  }

  lemma WrittenFollows(t: Table, from: ColorState, to: ColorState, p: ColorState, s: ColorState)
    requires Follows(from, p) && s == (if Clears(from, to) then to.(reset := Reset) else to)
    ensures var w := Written(t, p, s);
      && Follows(to, w)
      && (to.fg.isSet == Set ==> w.fg == IndexColor(t, Shown(t, to.fg, to.highlight)))
      && (to.bg.isSet == Set ==> w.bg == IndexColor(t, Shown(t, to.bg, to.highlight)))
  {
    var cleared := s.reset == Reset;
    AttrFollows(from.highlight, to.highlight, p.highlight, cleared);
    AttrFollows(from.underline, to.underline, p.underline, cleared);
    AttrFollows(from.flash, to.flash, p.flash, cleared);
    AttrFollows(from.inverse, to.inverse, p.inverse, cleared);
    ColorFollows(t, from.fg, to.fg, to.highlight, p.fg, cleared);
    ColorFollows(t, from.bg, to.bg, to.highlight, p.bg, cleared);
    hide After, ColorAfter, IndexColor, Shown, Clears;
  }

  lemma WrittenMirrors(t: Table, to: ColorState, w: ColorState)
    requires t.Ok() && Valid(to) && Follows(to, w)
    requires to.fg.isSet == Set ==> w.fg == IndexColor(t, Shown(t, to.fg, to.highlight))
    requires to.bg.isSet == Set ==> w.bg == IndexColor(t, Shown(t, to.bg, to.highlight))
    ensures Mirrors(t, to, w)
  {
    if to.fg.isSet == Set {
      ColorRead(t, to.fg, to.highlight);
      SeenAs(t, w.fg, w.highlight, to.highlight);
    }
    if to.bg.isSet == Set {
      ColorRead(t, to.bg, to.highlight);
      SeenAs(t, w.bg, w.highlight, to.highlight);
    }
    hide IndexColor, Shown;
  }

  lemma NoCodes(t: Table, s: ColorState)
    requires Codes(t, s) == []
    ensures s.reset != Reset && s.fg.isSet == Unset && s.bg.isSet == Unset
    ensures s.highlight == Unset && s.underline == Unset && s.flash == Unset && s.inverse == Unset
  {
    assert |AttrCodes(s)| == 0 && |ColorCode(t, s.fg, s.highlight, 38)| == 0 && |ColorCode(t, s.bg, s.highlight, 48)| == 0;
  }

  /** The parser's state after the text of a transition. */
  function AfterChange(t: Table, from: ColorState, to: ColorState, p: ColorState): ColorState {
    if Change(t, from, to) == [] then p else Sgr(t, p.(reset := Unset), Change(t, from, to))
  }

  /** A transition takes a parser that mirrors its origin to one that mirrors its target. */
  lemma TransitionRead(t: Table, from: ColorState, to: ColorState, p: ColorState)
    requires t.Ok() && Valid(to) && Mirrors(t, from, p)
    ensures Mirrors(t, to, AfterChange(t, from, to, p))
  {
    if from != to {
      var s := if Clears(from, to) then to.(reset := Reset) else to;
      var p' := p.(reset := Unset);
      SgrCodes(t, p', s);
      hide Sgr, Codes;
      if Change(t, from, to) == [] {
        NoCodes(t, s);
        assert Follows(to, p);
        WrittenMirrors(t, to, p);
      } else {
        WrittenFollows(t, from, to, p', s);
        WrittenMirrors(t, to, Written(t, p', s));
      }
    }
  }

  // ---- texts

  lemma ScanSeq(t: Table, a: string, st: ColorState, e: nat)
    requires SeqEnd(a) == Some(e)
    ensures Scan(t, a, st) == Scan(t, a[e + 1..], ParseCode(t, st, a[2..e]))
    ensures Clean(a) == Clean(a[e + 1..])
  {
    hide ParseCode;
  }

  lemma ScanVisible(t: Table, a: string, st: ColorState)
    requires a != "" && SeqEnd(a).None?
    ensures var r := Scan(t, a[1..], st);
      Scan(t, a, st) == Scanned([a[0]] + r.text, [st] + r.states, r.last)
    ensures Clean(a) == (a[0] != ESC && Clean(a[1..]))
  {
    hide ParseCode;
  }

  lemma ScanNone(t: Table, st: ColorState)
    ensures Clean("") && Scan(t, "", st) == Scanned("", [], st)
  {
  }

  /** The end of a sequence does not depend on what follows. */
  lemma SeqEndAppend(a: string, b: string)
    requires a != "" && (SeqEnd(a).Some? || a[0] != ESC)
    ensures SeqEnd(a + b) == SeqEnd(a)
  {
    if SeqEnd(a).Some? {
      FoundM(a + b, 2, SeqEnd(a).value);
    }
  }

  /** What is scanned after a complete text does not depend on how the text was scanned. */
  lemma {:induction false} ScanAppend(t: Table, a: string, b: string, st: ColorState)
    requires Clean(a)
    ensures var x := Scan(t, a, st); var y := Scan(t, b, x.last);
      Scan(t, a + b, st) == Scanned(x.text + y.text, x.states + y.states, y.last)
    ensures Clean(b) ==> Clean(a + b)
    decreases |a|
  {
    hide Scan, Clean, ParseCode, SeqEnd;
    if a == "" {
      ScanNone(t, st);
      assert a + b == b;
    } else if SeqEnd(a).Some? {
      var e := SeqEnd(a).value;
      SeqEndAppend(a, b);
      ScanSeq(t, a, st, e);
      ScanSeq(t, a + b, st, e);
      assert (a + b)[2..e] == a[2..e] && (a + b)[e + 1..] == a[e + 1..] + b;
      ScanAppend(t, a[e + 1..], b, ParseCode(t, st, a[2..e]));
    } else {
      ScanVisible(t, a, st);
      SeqEndAppend(a, b);
      ScanVisible(t, a + b, st);
      assert (a + b)[1..] == a[1..] + b;
      ScanAppend(t, a[1..], b, st);
      var x, y := Scan(t, a[1..], st), Scan(t, b, Scan(t, a[1..], st).last);
      assert [a[0]] + (x.text + y.text) == [a[0]] + x.text + y.text;
      assert [st] + (x.states + y.states) == [st] + x.states + y.states;
    }
  }

  lemma {:induction false} FoundM(s: string, i: nat, n: nat)
    requires i <= n < |s| && s[n] == 'm' && forall j :: i <= j < n ==> s[j] != 'm'
    ensures FindM(s, i) == n
    decreases n - i
  {
    if i < n {
      FoundM(s, i + 1, n);
    }
  }

  lemma ScanWrapped(t: Table, codes: seq<int>, st: ColorState)
    ensures Clean(Wrapped(codes))
    ensures Scan(t, Wrapped(codes), st) == Scanned("", [], if codes == [] then st else Sgr(t, st.(reset := Unset), codes))
  {
    if codes != [] {
      ParametersRead(codes);
      hide Joined, Sgr, Tokens, Ints;
      var w, j := Wrapped(codes), Joined(codes);
      assert w[2..2 + |j|] == j;
      FoundM(w, 2, 2 + |j|);
      assert w[2 + |j| + 1..] == "";
    }
  }

  lemma ScanChar(t: Table, ch: char, st: ColorState)
    requires ch != ESC
    ensures Clean([ch]) && Scan(t, [ch], st) == Scanned([ch], [st], st)
  {
    assert [ch][1..] == "";
  }

  lemma ScanTransition(t: Table, from: ColorState, to: ColorState, st: ColorState)
    ensures Clean(Transition(t, from, to))
    ensures Scan(t, Transition(t, from, to), st) == Scanned("", [], AfterChange(t, from, to, st))
  {
    hide Scan, Clean, Wrapped, Sgr, Change;
    ScanWrapped(t, Change(t, from, to), st);
  }

  /** Reading back what ansi_states_to_sequence writes: nothing is visible, after the i-th
      transition the parser mirrors the i-th state, and it ends looking normal. */
  lemma SequenceRead(t: Table, ss: seq<ColorState>)
    requires t.Ok() && forall i :: 0 <= i < |ss| ==> Valid(ss[i])
    ensures forall i :: 0 <= i < |ss| ==>
      Mirrors(t, ss[i], Scan(t, Through(t, ss[..i + 1]), DEFAULT).last)
    ensures var r := Scan(t, Sequence(t, ss), DEFAULT);
      Clean(Sequence(t, ss)) && r.text == "" && LookOf(t, r.last) == LookOf(t, DEFAULT)
  {
    hide Scan, Clean, Through, Transition, AfterChange, Faithful;
    forall i | 0 <= i < |ss|
      ensures Mirrors(t, ss[i], Scan(t, Through(t, ss[..i + 1]), DEFAULT).last)
    {
      ThroughRead(t, ss[..i + 1]);
    }
    ThroughRead(t, ss);
    var p := Scan(t, Through(t, ss), DEFAULT).last;
    ScanAppend(t, Through(t, ss), Transition(t, Previous(ss), NORMAL), DEFAULT);
    ScanTransition(t, Previous(ss), NORMAL, p);
    TransitionRead(t, Previous(ss), NORMAL, p);
    LooksNormal(t, AfterChange(t, Previous(ss), NORMAL, p));
  }

  lemma LooksNormal(t: Table, p: ColorState)
    requires Mirrors(t, NORMAL, p)
    ensures LookOf(t, p) == LookOf(t, DEFAULT)
  {
  }

  lemma {:induction false} ThroughRead(t: Table, ss: seq<ColorState>)
    requires t.Ok() && forall i :: 0 <= i < |ss| ==> Valid(ss[i])
    ensures Clean(Through(t, ss)) && Scan(t, Through(t, ss), DEFAULT).text == ""
    ensures Mirrors(t, Previous(ss), Scan(t, Through(t, ss), DEFAULT).last)
  {
    if ss == [] {
    } else {
      var front, s := ss[..|ss| - 1], ss[|ss| - 1];
      ThroughRead(t, front);
      var p := Scan(t, Through(t, front), DEFAULT).last;
      assert Through(t, ss) == Through(t, front) + Transition(t, Previous(front), s);
      hide Scan, Clean, Through, Transition, AfterChange, Mirrors;
      ScanAppend(t, Through(t, front), Transition(t, Previous(front), s), DEFAULT);
      ScanTransition(t, Previous(front), s, p);
      TransitionRead(t, Previous(front), s, p);
    }
  }

  ghost predicate AllMirror(t: Table, ss: seq<ColorState>, ps: seq<ColorState>) {
    |ss| == |ps| && forall i :: 0 <= i < |ss| ==> Mirrors(t, ss[i], ps[i])
  }

  lemma AllMirrorSnoc(t: Table, ss: seq<ColorState>, ps: seq<ColorState>, s: ColorState, p: ColorState)
    requires AllMirror(t, ss, ps) && Mirrors(t, s, p)
    ensures AllMirror(t, ss + [s], ps + [p])
  {
    hide Mirrors;
  }

  lemma PaintStep(t: Table, w: string, from: ColorState, to: ColorState, ch: char)
    requires Clean(w) && ch != ESC
    ensures var r := Scan(t, w, DEFAULT); var p := AfterChange(t, from, to, r.last);
      var v := w + Transition(t, from, to) + [ch];
      Clean(v) && Scan(t, v, DEFAULT) == Scanned(r.text + [ch], r.states + [p], p)
  {
    hide Scan, Clean, Transition, AfterChange;
    var x := Transition(t, from, to);
    var r := Scan(t, w, DEFAULT);
    ScanAppend(t, w, x, DEFAULT);
    ScanTransition(t, from, to, r.last);
    ScanAppend(t, w + x, [ch], DEFAULT);
    ScanChar(t, ch, AfterChange(t, from, to, r.last));
    assert r.states + [] == r.states && r.text + "" == r.text;
  }

  /** A text painted character by character reads back as that text, each character in a
      state that mirrors its own. */
  lemma {:induction false} PaintedRead(t: Table, text: string, ss: seq<ColorState>)
    requires t.Ok() && |text| == |ss| && forall i :: 0 <= i < |ss| ==> Valid(ss[i]) && text[i] != ESC
    ensures var r := Scan(t, Painted(t, text, ss), DEFAULT);
      && Clean(Painted(t, text, ss)) && r.text == text
      && AllMirror(t, ss, r.states) && Mirrors(t, Previous(ss), r.last)
  {
    hide Scan, Clean, Painted, Transition, AfterChange, Mirrors, AllMirror, Table.Ok, Valid;
    if text == "" {
      PaintedNone(t, ss);
    } else {
      var n := |text| - 1;
      var fs, s := ss[..n], ss[n];
      PaintedRead(t, text[..n], fs);
      PaintedUnfolds(t, text, ss);
      var w := Painted(t, text[..n], fs);
      PaintStep(t, w, Previous(fs), s, text[n]);
      var r := Scan(t, w, DEFAULT);
      TransitionRead(t, Previous(fs), s, r.last);
      AllMirrorSnoc(t, fs, r.states, s, AfterChange(t, Previous(fs), s, r.last));
      assert text[..n] + [text[n]] == text && fs + [s] == ss;
    }
  }

  lemma PaintedNone(t: Table, ss: seq<ColorState>)
    requires ss == []
    ensures Painted(t, "", ss) == "" && Clean("") && Scan(t, "", DEFAULT) == Scanned("", [], DEFAULT)
    ensures AllMirror(t, ss, []) && Mirrors(t, Previous(ss), DEFAULT)
  {
  }

  lemma PaintedUnfolds(t: Table, text: string, ss: seq<ColorState>)
    requires |text| == |ss| && text != ""
    ensures var n := |text| - 1;
      Painted(t, text, ss) == Painted(t, text[..n], ss[..n]) + Transition(t, Previous(ss[..n]), ss[n]) + [text[n]]
  {
  }

  // ---- where a state comes from

  /** The sequences before the i-th visible character. */
  function CodesBefore(s: string, i: nat): seq<string>
    decreases |s|
  {
    if s == "" then []
    else if SeqEnd(s).Some? then
      var e := SeqEnd(s).value;
      [s[2..e]] + CodesBefore(s[e + 1..], i)
    else if i == 0 then []
    else CodesBefore(s[1..], i - 1)
  }

  function Fold(t: Table, st: ColorState, codes: seq<string>): ColorState
    decreases |codes|
  {
    if codes == [] then st else Fold(t, ParseCode(t, st, codes[0]), codes[1..])
  }

  /** The state recorded for a character is what the sequences before it add up to. */
  lemma {:induction false} StateIsFold(t: Table, s: string, st: ColorState, i: nat)
    requires i < |Scan(t, s, st).text|
    ensures Scan(t, s, st).states[i] == Fold(t, st, CodesBefore(s, i))
    decreases |s|
  {
    hide Scan, ParseCode, SeqEnd;
    if s == "" {
      ScanNone(t, st);
    } else if SeqEnd(s).Some? {
      var e := SeqEnd(s).value;
      ScanSeq(t, s, st, e);
      StateIsFold(t, s[e + 1..], ParseCode(t, st, s[2..e]), i);
      assert ([s[2..e]] + CodesBefore(s[e + 1..], i))[1..] == CodesBefore(s[e + 1..], i);
    } else {
      ScanVisible(t, s, st);
      if i > 0 {
        StateIsFold(t, s[1..], st, i - 1);
      }
    }
  }

  /** A highlighted true colour whose two nearest entries disagree: the blue (0, 0, 192) is
      closest to the bright ANSI blue and to palette entry 19, a dark one. The parser makes
      such a state of a sequence, and its own transition reads back brightened. */
  lemma UnfaithfulExample(t: Table)
    requires t.Ok() && t.ansi(19) == 4
    requires t.nearAnsi(Rgb(0, 0, 192)) == 12 && t.nearXterm(Rgb(0, 0, 192)) == 19
    ensures var s := Scan(t, Wrapped([1, 38, 2, 0, 0, 192]), DEFAULT).last;
      && Valid(s) && !Faithful(t, s) && LookOf(t, s).fg == Some(19)
      && LookOf(t, Scan(t, Transition(t, DEFAULT, s), DEFAULT).last).fg == Some(12)
  {
    var s := DEFAULT.(fg := ColorInfo(Set, 12, 19, Rgb(0, 0, 192)), highlight := Set);
    BlueRead(t);
    ScanWrapped(t, [1, 38, 2, 0, 0, 192], DEFAULT);
    ScanTransition(t, DEFAULT, s, DEFAULT);
    SgrCodes(t, DEFAULT, s);
    assert |Change(t, DEFAULT, s)| > 0;
    assert t.xterm(12) == 12;
    hide Sgr, Scan, Change, Codes, Wrapped;
  }

  lemma BlueRead(t: Table)
    requires t.nearAnsi(Rgb(0, 0, 192)) == 12 && t.nearXterm(Rgb(0, 0, 192)) == 19
    ensures Sgr(t, DEFAULT, [1, 38, 2, 0, 0, 192])
         == DEFAULT.(fg := ColorInfo(Set, 12, 19, Rgb(0, 0, 192)), highlight := Set)
  {
    var bold := DEFAULT.(highlight := Set);
    var ns := [2, 0, 0, 192];
    assert [1, 38, 2, 0, 0, 192][1..] == [38] + ns && ([38] + ns)[1..] == ns;
    assert Extended(t, bold, true, ns) == (bold.(fg := TrueColor(t, 0, 0, 192)), []);
  }
}
