/** What single parameters mean to the parser, and what the writer writes, said of what a
    reader sees. */
module SgrForms {
  import opened CText
  import opened SgrSpec
  import opened SgrTheorems

  // ---- parameters

  lemma SgrFirst(t: Table, s: ColorState, n: int, rest: seq<int>)
    requires n != 38 && n != 48
    ensures Sgr(t, s, [n] + rest) == Sgr(t, One(t, s, n), rest)
  {
    hide One;
    assert ([n] + rest)[1..] == rest;
  }

  lemma SgrIndex(t: Table, s: ColorState, front: bool, i: int, rest: seq<int>)
    ensures Sgr(t, s, [if front then 38 else 48, 5, i] + rest) == Sgr(t, Paint(s, front, IndexColor(t, i)), rest)
  {
    hide IndexColor, Paint;
    var ns := [if front then 38 else 48, 5, i] + rest;
    assert ns[1..] == [5, i] + rest && ([5, i] + rest)[2..] == rest;
    assert Extended(t, s, front, ns[1..]) == (Paint(s, front, IndexColor(t, i)), rest);
  }

  /** The sixteen colours have two forms each, and the forms read alike. */
  lemma ShortForms(t: Table, s: ColorState, i: int, rest: seq<int>)
    requires 0 <= i < 8
    ensures Sgr(t, s, [30 + i] + rest) == Sgr(t, s, [38, 5, i] + rest)
    ensures Sgr(t, s, [90 + i] + rest) == Sgr(t, s, [38, 5, 8 + i] + rest)
    ensures Sgr(t, s, [40 + i] + rest) == Sgr(t, s, [48, 5, i] + rest)
    ensures Sgr(t, s, [100 + i] + rest) == Sgr(t, s, [48, 5, 8 + i] + rest)
  {
    hide Sgr;
    SgrIndex(t, s, true, i, rest);
    SgrIndex(t, s, true, 8 + i, rest);
    SgrIndex(t, s, false, i, rest);
    SgrIndex(t, s, false, 8 + i, rest);
    SgrFirst(t, s, 30 + i, rest);
    SgrFirst(t, s, 90 + i, rest);
    SgrFirst(t, s, 40 + i, rest);
    SgrFirst(t, s, 100 + i, rest);
  }

  /** A palette form sets the colour of its ground to that entry of the table, and nothing
      else. */
  lemma PaletteForm(t: Table, s: ColorState, i: int)
    requires t.Ok() && 0 <= i < 256
    ensures var u := Sgr(t, s, [38, 5, i]);
      u == s.(fg := u.fg) && u.fg == ColorInfo(Set, t.ansi(i), i, t.rgb(i))
    ensures var u := Sgr(t, s, [48, 5, i]);
      u == s.(bg := u.bg) && u.bg == ColorInfo(Set, t.ansi(i), i, t.rgb(i))
  {
    SgrIndex(t, s, true, i, []);
    SgrIndex(t, s, false, i, []);
    assert [38, 5, i] + [] == [38, 5, i] && [48, 5, i] + [] == [48, 5, i];
    SgrNil(t, Paint(s, true, IndexColor(t, i)));
    SgrNil(t, Paint(s, false, IndexColor(t, i)));
    assert i < 16 ==> t.ansi(i) == i;
    hide Sgr;
  }

  /** A true colour sets the colour of its ground to red, green and blue in this order,
      each modulo 256, and nothing else. */
  lemma TrueForm(t: Table, s: ColorState, r: int, g: int, b: int, rest: seq<int>)
    ensures var c := Rgb(r % 256, g % 256, b % 256);
      var i := ColorInfo(Set, t.nearAnsi(c), t.nearXterm(c), c);
      && Sgr(t, s, [38, 2, r, g, b] + rest) == Sgr(t, s.(fg := i), rest)
      && Sgr(t, s, [48, 2, r, g, b] + rest) == Sgr(t, s.(bg := i), rest)
  {
    var ns := [2, r, g, b] + rest;
    var f, k := [38, 2, r, g, b] + rest, [48, 2, r, g, b] + rest;
    assert f[1..] == ns && k[1..] == ns;
    assert ns[4..] == rest && (|ns| == 4 ==> rest == []);
    assert Drop(ns, 4) == rest;
    assert Extended(t, s, true, ns) == (Paint(s, true, TrueColor(t, r, g, b)), rest);
    assert Extended(t, s, false, ns) == (Paint(s, false, TrueColor(t, r, g, b)), rest);
  }

  /** Missing components of a true colour are zero. */
  lemma TrueShort(t: Table, s: ColorState, front: bool, r: int, g: int)
    ensures var k := if front then 38 else 48;
      && Sgr(t, s, [k, 2]) == Sgr(t, s, [k, 2, 0, 0, 0])
      && Sgr(t, s, [k, 2, r]) == Sgr(t, s, [k, 2, r, 0, 0])
      && Sgr(t, s, [k, 2, r, g]) == Sgr(t, s, [k, 2, r, g, 0])
  {
    ShortIs(t, s, front, [], 0, 0, 0);
    ShortIs(t, s, front, [r], r, 0, 0);
    ShortIs(t, s, front, [r, g], r, g, 0);
    ShortIs(t, s, front, [0, 0, 0], 0, 0, 0);
    ShortIs(t, s, front, [r, 0, 0], r, 0, 0);
    ShortIs(t, s, front, [r, g, 0], r, g, 0);
    var k := if front then 38 else 48;
    assert [k, 2] + [] == [k, 2] && [k, 2] + [r] == [k, 2, r] && [k, 2] + [r, g] == [k, 2, r, g];
    assert [k, 2] + [0, 0, 0] == [k, 2, 0, 0, 0] && [k, 2] + [r, 0, 0] == [k, 2, r, 0, 0];
    assert [k, 2] + [r, g, 0] == [k, 2, r, g, 0];
    hide Sgr;
  }

  lemma ShortIs(t: Table, s: ColorState, front: bool, given: seq<int>, r: int, g: int, b: int)
    requires |given| <= 3
    requires r == Nth(given, 0) && g == Nth(given, 1) && b == Nth(given, 2)
    ensures Sgr(t, s, [if front then 38 else 48, 2] + given) == Sgr(t, Paint(s, front, TrueColor(t, r, g, b)), [])
  {
    var ns := [2] + given;
    assert ([if front then 38 else 48, 2] + given)[1..] == ns;
    assert Drop(ns, 4) == [];
    assert Nth(ns, 1) == Nth(given, 0) && Nth(ns, 2) == Nth(given, 1) && Nth(ns, 3) == Nth(given, 2);
  }

  lemma OneIs(t: Table, s: ColorState)
    ensures One(t, s, 1) == s.(highlight := Set) && One(t, s, 22) == s.(highlight := Reset)
    ensures One(t, s, 4) == s.(underline := Set) && One(t, s, 24) == s.(underline := Reset)
    ensures One(t, s, 5) == s.(flash := Set) && One(t, s, 25) == s.(flash := Reset)
    ensures One(t, s, 7) == s.(inverse := Set) && One(t, s, 27) == s.(inverse := Reset)
    ensures One(t, s, 39) == s.(fg := RESET_COLOR) && One(t, s, 49) == s.(bg := RESET_COLOR)
    ensures One(t, s, 0) == DEFAULT.(reset := Reset)
  {
  }

  /** What the parameters that stand alone do; all others do nothing. */
  lemma SetForms(t: Table, s: ColorState, rest: seq<int>)
    ensures Sgr(t, s, [1] + rest) == Sgr(t, s.(highlight := Set), rest)
    ensures Sgr(t, s, [4] + rest) == Sgr(t, s.(underline := Set), rest)
    ensures Sgr(t, s, [5] + rest) == Sgr(t, s.(flash := Set), rest)
    ensures Sgr(t, s, [7] + rest) == Sgr(t, s.(inverse := Set), rest)
  {
    hide Sgr, One;
    OneIs(t, s);
    SgrFirst(t, s, 1, rest);
    SgrFirst(t, s, 4, rest);
    SgrFirst(t, s, 5, rest);
    SgrFirst(t, s, 7, rest);
  }

  lemma UnsetForms(t: Table, s: ColorState, rest: seq<int>)
    ensures Sgr(t, s, [22] + rest) == Sgr(t, s.(highlight := Reset), rest)
    ensures Sgr(t, s, [24] + rest) == Sgr(t, s.(underline := Reset), rest)
    ensures Sgr(t, s, [25] + rest) == Sgr(t, s.(flash := Reset), rest)
    ensures Sgr(t, s, [27] + rest) == Sgr(t, s.(inverse := Reset), rest)
  {
    hide Sgr, One;
    OneIs(t, s);
    SgrFirst(t, s, 22, rest);
    SgrFirst(t, s, 24, rest);
    SgrFirst(t, s, 25, rest);
    SgrFirst(t, s, 27, rest);
  }

  lemma ResetForms(t: Table, s: ColorState, rest: seq<int>)
    ensures Sgr(t, s, [0] + rest) == Sgr(t, DEFAULT.(reset := Reset), rest)
    ensures Sgr(t, s, [39] + rest) == Sgr(t, s.(fg := RESET_COLOR), rest)
    ensures Sgr(t, s, [49] + rest) == Sgr(t, s.(bg := RESET_COLOR), rest)
  {
    hide Sgr, One;
    OneIs(t, s);
    SgrFirst(t, s, 0, rest);
    SgrFirst(t, s, 39, rest);
    SgrFirst(t, s, 49, rest);
  }

  predicate Known(n: int) {
    || n == 0 || n == 1 || n == 4 || n == 5 || n == 7 || n == 22 || n == 24 || n == 25 || n == 27
    || 30 <= n <= 49 || 90 <= n <= 97 || 100 <= n <= 107
  }

  lemma UnknownIgnored(t: Table, s: ColorState, n: int, rest: seq<int>)
    requires !Known(n)
    ensures Sgr(t, s, [n] + rest) == Sgr(t, s, rest)
  {
    hide Sgr;
    SgrFirst(t, s, n, rest);
  }

  /** A 38 or 48 without what it needs changes nothing; one followed by neither 5 nor 2
      takes that parameter with it. */
  lemma CutShort(t: Table, s: ColorState, front: bool, x: int, rest: seq<int>)
    ensures Sgr(t, s, [if front then 38 else 48]) == s
    ensures Sgr(t, s, [if front then 38 else 48, 5]) == s
    ensures x != 5 && x != 2 ==> Sgr(t, s, [if front then 38 else 48, x] + rest) == Sgr(t, s, rest)
  {
    var k := if front then 38 else 48;
    assert [k][1..] == [] && [k, 5][1..] == [5];
    assert ([k, x] + rest)[1..] == [x] + rest && ([x] + rest)[1..] == rest;
    SgrNil(t, s);
  }

  /** Empty parameters are none, and a sequence of nothing else changes nothing. */
  lemma EmptySkipped(t: Table, s: ColorState, code: string)
    ensures Tokens(";" + code) == Tokens(code)
    ensures ParseCode(t, s, "") == s
    ensures ParseCode(t, s, ";") == s.(reset := Unset)
  {
    assert (";" + code)[1..] == code;
    assert ";"[1..] == "";
    assert Tokens(";") == [];
    assert Ints([]) == [];
    SgrNil(t, s.(reset := Unset));
  }

  // ---- what is visible

  /** A text without a terminated sequence is all visible, and changes no state. */
  lemma {:induction false} PlainVisible(t: Table, s: string, st: ColorState)
    requires forall i :: 0 <= i <= |s| ==> SeqEnd(s[i..]).None?
    ensures Scan(t, s, st).text == s && Scan(t, s, st).last == st
    ensures forall i :: 0 <= i < |s| ==> Scan(t, s, st).states[i] == st
    decreases |s|
  {
    hide SeqEnd, ParseCode, Scan;
    if s == "" {
      ScanNone(t, st);
    } else {
      assert s[0..] == s;
      forall i | 0 <= i <= |s| - 1
        ensures SeqEnd(s[1..][i..]).None?
      {
        assert s[1..][i..] == s[i + 1..];
      }
      PlainVisible(t, s[1..], st);
      ScanVisible(t, s, st);
    }
  }

  /** What counts as a terminated sequence: ESC, a bracket, and everything up to the first
      m, whatever it is. */
  lemma SequenceIs(d: string, rest: string)
    requires forall i :: 0 <= i < |d| ==> d[i] != 'm'
    ensures SeqEnd([27 as char, '['] + d + "m" + rest) == Some(2 + |d|)
    ensures SeqEnd([27 as char, '['] + d) == None
    ensures forall s: string :: s == "" || s[0] != 27 as char || |s| < 2 || s[1] != '[' ==> SeqEnd(s) == None
  {
    FoundM([ESC, '['] + d + "m" + rest, 2, 2 + |d|);
    var w := [ESC, '['] + d;
    assert FindM(w, 2) == |w| by {
      var k := FindM(w, 2);
      if k < |w| {
        assert false;
      }
    }
  }

  // ---- what is written

  /** Does `from` show something `to` does not? */
  predicate Loses(from: Look, to: Look) {
    || (from.bold && !to.bold) || (from.underlined && !to.underlined) || (from.flashing && !to.flashing)
    || (from.inverse && !to.inverse) || (from.fg.Some? && to.fg.None?) || (from.bg.Some? && to.bg.None?)
  }

  /** Nothing is written between equal states, and a transition starts with a reset exactly
      if the origin shows something the target does not, or the target asks for it. */
  lemma ResetIff(t: Table, from: ColorState, to: ColorState)
    ensures from == to ==> Transition(t, from, to) == ""
    ensures from != to ==>
      ((Change(t, from, to) != [] && Change(t, from, to)[0] == 0)
       <==> Loses(LookOf(t, from), LookOf(t, to)) || to.reset == Reset)
  {
    var s := if Clears(from, to) then to.(reset := Reset) else to;
    CodesStart(t, s);
    hide Codes, Wrapped, Shown;
    assert Wrapped([]) == "" by { NoneWrapped(); }
  }

  lemma NoneWrapped()
    ensures Wrapped([]) == ""
  {
  }

  lemma CodesStart(t: Table, s: ColorState)
    ensures Codes(t, s) != [] && Codes(t, s)[0] == 0 <==> s.reset == Reset
  {
    hide Shown;
  }
}
