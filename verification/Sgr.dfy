/** The writer and the parser of SGR sequences as the server runs them: through a buffer
    and an offset, token by token, byte by byte. */
module Sgr {
  import opened CText
  import opened SgrSpec
  import opened SgrTheorems

  /** What the buffer holds before the final m. */
  function Opened(codes: seq<int>): string {
    [ESC, '['] + Joined(codes)
  }

  /** XSPRINTF at an offset of the buffer. */
  method Write(buffer: array<char>, offset: nat, text: string) returns (o: nat)
    requires offset + |text| < buffer.Length
    modifies buffer
    ensures o == offset + |text| && buffer[..o] == old(buffer[..offset]) + text
  {
    forall i | 0 <= i < |text| {
      buffer[offset + i] := text[i];
    }
    buffer[offset + |text|] := 0 as char;
    o := offset + |text|;
  }

  /** One more parameter, with a semicolon unless it is the first. */
  lemma OpenedSnoc(codes: seq<int>, n: int)
    ensures Opened(codes + [n]) == Opened(codes) + (if |Opened(codes)| > 2 then ";" else "") + Decimal(n)
    ensures |Opened(codes)| > 2 <==> codes != []
  {
    ParametersRead(codes);
    hide Decimal;
    assert (codes + [n])[..|codes|] == codes;
    assert Joined(codes + [n]) == (if codes == [] then "" else Joined(codes) + ";") + Decimal(n);
  }

  lemma DecimalLength(n: int)
    requires 0 <= n < 256
    ensures |Decimal(n)| <= 3
    ensures n < 100 ==> |Decimal(n)| <= 2
    ensures n < 10 ==> |Decimal(n)| == 1
  {
    assert n >= 10 ==> Digits(n) == Digits(n / 10) + [(48 + n % 10) as char];
    assert n >= 100 ==> Digits(n / 10) == Digits(n / 10 / 10) + [(48 + n / 10 % 10) as char];
  }

  /** The codes and prefixes the program has as strings. */
  lemma Constants()
    ensures Decimal(0) == "0" && Decimal(1) == "1" && Decimal(4) == "4" && Decimal(5) == "5" && Decimal(7) == "7"
    ensures Decimal(22) == "22" && Decimal(24) == "24" && Decimal(25) == "25" && Decimal(27) == "27"
    ensures Decimal(38) == "38" && Decimal(39) == "39" && Decimal(48) == "48" && Decimal(49) == "49"
  {
    assert Digits(2) == "2" && Digits(3) == "3" && Digits(4) == "4";
    assert Digits(22) == Digits(2) + "2" && Digits(24) == Digits(2) + "4" && Digits(25) == Digits(2) + "5" && Digits(27) == Digits(2) + "7";
    assert Digits(38) == Digits(3) + "8" && Digits(39) == Digits(3) + "9";
    assert Digits(48) == Digits(4) + "8" && Digits(49) == Digits(4) + "9";
  }

  /** append_attribute. Only the guard on the space left can keep a code out. */
  method AppendAttribute(buffer: array<char>, offset: nat, attr: Status, code: Option<string>,
                         ghost codes: seq<int>, ghost n: int) returns (o: nat)
    requires 8 <= buffer.Length && offset <= buffer.Length && buffer[..offset] == Opened(codes)
    requires code.Some? ==> code.value == Decimal(n) && |code.value| <= 2
    modifies buffer
    ensures offset <= o <= offset + 3 && o <= buffer.Length
    ensures buffer[..o] == Opened(
      if code.Some? && attr != Unset && offset < buffer.Length - (|code.value| + 2) then codes + [n] else codes)
  {
    hide Joined, Decimal, Opened;
    o := offset;
    if code.Some? {
      if offset < buffer.Length - (|code.value| + 2) {
        if attr != Unset {
          OpenedSnoc(codes, n);
          o := Write(buffer, offset, (if offset > 2 then ";" else "") + code.value);
        }
      }
    }
  }

  /** append_color, for the 256-colour form. Only the margin of 20 can keep a colour out. */
  method AppendColor(t: Table, buffer: array<char>, offset: nat, color: ColorState, foreground: bool, ghost codes: seq<int>)
    returns (o: nat)
    requires t.Ok() && InPalette(if foreground then color.fg else color.bg)
    requires 20 <= buffer.Length && offset <= buffer.Length && buffer[..offset] == Opened(codes)
    modifies buffer
    ensures offset <= o <= offset + 9 && o <= buffer.Length
    ensures var c := ColorCode(t, if foreground then color.fg else color.bg, color.highlight, if foreground then 38 else 48);
      buffer[..o] == Opened(if offset >= buffer.Length - 20 then codes else codes + c)
  {
    hide Joined, Decimal, Opened;
    var data := if foreground then color.fg else color.bg;
    ghost var base := if foreground then 38 else 48;
    o := offset;
    if offset >= buffer.Length - 20 || data.isSet == Unset {
      assert codes + [] == codes;
      return;
    }
    Constants();
    o := Write(buffer, o, if o > 2 then ";" else "");
    if data.isSet == Reset {
      OpenedSnoc(codes, base + 1);
      o := Write(buffer, o, if foreground then "39" else "49");
      return;
    }
    var i := data.xterm;
    if 0 <= data.ansi < 8 && color.highlight == Set {
      i := t.xterm(data.ansi + 8);
    }
    assert t.xterm(data.ansi) == t.xterm(data.ansi) && 0 <= i < 256;
    OpenedThree(codes, base, i);
    DecimalLength(i);
    o := Write(buffer, o, (if foreground then "38;5;" else "48;5;") + Decimal(i));
  }

  lemma OpenedThree(codes: seq<int>, base: int, i: int)
    ensures Opened(codes + [base, 5, i]) == Opened(codes) + (if |Opened(codes)| > 2 then ";" else "") + (Decimal(base) + ";5;" + Decimal(i))
  {
    OpenedSnoc(codes, base);
    OpenedSnoc(codes + [base], 5);
    OpenedSnoc(codes + [base, 5], i);
    Constants();
    hide Decimal, Opened;
    assert codes + [base] + [5] == codes + [base, 5] && codes + [base, 5] + [i] == codes + [base, 5, i];
    var z := Opened(codes) + (if |Opened(codes)| > 2 then ";" else "");
    assert z + Decimal(base) + ";" + "5" + ";" + Decimal(i) == z + (Decimal(base) + ";5;" + Decimal(i));
  }

  /** The attributes, through the buffer: no guard keeps one out. */
  method AppendAttributes(buffer: array<char>, offset: nat, to: ColorState) returns (o: nat)
    requires buffer.Length == SBUF_SIZE && offset == 2 && buffer[..2] == Opened([])
    modifies buffer
    ensures offset <= o <= 17 && buffer[..o] == Opened(AttrCodes(to))
  {
    hide Joined, Decimal, Opened;
    Constants();
    ghost var z := if to.reset == Reset then [0] else [];
    ghost var h, u := AttrCode(to.highlight, 1, 22), AttrCode(to.underline, 4, 24);
    ghost var f, i := AttrCode(to.flash, 5, 25), AttrCode(to.inverse, 7, 27);
    o := AppendAttribute(buffer, offset, to.reset, if to.reset == Reset then Some("0") else None, [], 0);
    assert [] + [0] == [0] && buffer[..o] == Opened(z);
    o := AppendAttribute(buffer, o, to.highlight, Some(if to.highlight == Reset then "22" else "1"), z, if to.highlight == Reset then 22 else 1);
    assert z + [] == z && buffer[..o] == Opened(z + h);
    o := AppendAttribute(buffer, o, to.underline, Some(if to.underline == Reset then "24" else "4"), z + h, if to.underline == Reset then 24 else 4);
    assert z + h + [] == z + h && buffer[..o] == Opened(z + h + u);
    o := AppendAttribute(buffer, o, to.flash, Some(if to.flash == Reset then "25" else "5"), z + h + u, if to.flash == Reset then 25 else 5);
    assert z + h + u + [] == z + h + u && buffer[..o] == Opened(z + h + u + f);
    o := AppendAttribute(buffer, o, to.inverse, Some(if to.inverse == Reset then "27" else "7"), z + h + u + f, if to.inverse == Reset then 27 else 7);
    assert z + h + u + f + [] == z + h + u + f && buffer[..o] == Opened(z + h + u + f + i);
  }

  lemma CodesEmpty(t: Table, to: ColorState)
    ensures Codes(t, to) == [] <==>
      to.bg.isSet == Unset && to.fg.isSet == Unset && to.reset != Reset && to.highlight == Unset && to.underline == Unset
      && to.flash == Unset && to.inverse == Unset
  {
    if Codes(t, to) == [] {
      NoCodes(t, to);
    }
  }

  /** to_ansi_escape_sequence. A state that asks for a reset is itself reset. */
  method ToEscape(t: Table, buffer: array<char>, to: ColorState) returns (o: nat, after: ColorState, r: Status)
    requires t.Ok() && Valid(to) && buffer.Length == SBUF_SIZE
    modifies buffer
    ensures o < SBUF_SIZE && buffer[..o] == Wrapped(Codes(t, to))
    ensures r == if to.reset == Reset then Reset else if Codes(t, to) == [] then Unset else Set
    ensures after == if to.reset == Reset then NORMAL.(reset := Unset) else to
  {
    hide AttrCodes, Joined, ColorCode, Opened;
    CodesEmpty(t, to);
    r, after, o := Unset, to, 0;
    var hasBg := to.bg.isSet == Set || to.bg.isSet == Reset;
    var hasFg := to.fg.isSet == Set || to.fg.isSet == Reset;
    var hasAttr := to.reset == Reset || to.highlight != Unset || to.underline != Unset || to.flash != Unset || to.inverse != Unset;
    if hasBg || hasFg || hasAttr {
      hide Codes, Wrapped;
      o := WriteEscape(t, buffer, to, hasFg, hasBg);
      r := Set;
    } else {
      buffer[0] := 0 as char;
    }
    if to.reset == Reset {
      after := ColorState(RESET_COLOR, RESET_COLOR, Unset, Unset, Unset, Unset, Unset);
      r := Reset;
    }
  }

  method WriteEscape(t: Table, buffer: array<char>, to: ColorState, hasFg: bool, hasBg: bool) returns (o: nat)
    requires t.Ok() && Valid(to) && buffer.Length == SBUF_SIZE && Codes(t, to) != []
    requires hasFg == (to.fg.isSet != Unset) && hasBg == (to.bg.isSet != Unset)
    modifies buffer
    ensures o < SBUF_SIZE && buffer[..o] == Wrapped(Codes(t, to))
  {
    hide AttrCodes, Joined, Opened;
    OpenedNone();
    o := Write(buffer, 0, [ESC, '[']);
    o := AppendAttributes(buffer, o, to);
    ghost var a := AttrCodes(to);
    ghost var f, b := ColorCode(t, to.fg, to.highlight, 38), ColorCode(t, to.bg, to.highlight, 48);
    assert !hasFg ==> a + f == a;
    if hasFg {
      o := AppendColor(t, buffer, o, to, true, a);
    }
    assert buffer[..o] == Opened(a + f);
    assert !hasBg ==> a + f + b == a + f;
    if hasBg {
      o := AppendColor(t, buffer, o, to, false, a + f);
    }
    assert buffer[..o] == Opened(Codes(t, to));
    o := Write(buffer, o, "m");
    OpenedWrapped(Codes(t, to));
  }

  lemma OpenedNone()
    ensures Opened([]) == [ESC, '[']
  {
  }

  lemma OpenedWrapped(codes: seq<int>)
    requires codes != []
    ensures Wrapped(codes) == Opened(codes) + "m"
  {
  }

  /** ansi_transition_colorstate, with no_default_bg false. */
  method TransitionText(t: Table, from: ColorState, to: ColorState) returns (text: string)
    requires t.Ok() && Valid(to)
    ensures text == Transition(t, from, to) && |text| < SBUF_SIZE
  {
    hide Codes, Wrapped;
    if from == to {
      WrappedNone();
      return "";
    }
    var buffer := new char[SBUF_SIZE];
    var state := to;
    var clearingAttr := (from.highlight == Set && state.highlight != Set) || (from.underline == Set && state.underline != Set)
      || (from.flash == Set && state.flash != Set) || (from.inverse == Set && state.inverse != Set);
    var clearingFg := from.fg.isSet == Set && state.fg.isSet != Set;
    var clearingBg := from.bg.isSet == Set && state.bg.isSet != Set;
    if clearingAttr || clearingFg || clearingBg {
      state := state.(reset := Reset);
    }
    var o, _, r := ToEscape(t, buffer, state);
    if r == Unset {
      WrappedNone();
      return "";
    }
    return buffer[..o];
  }

  lemma WrappedNone()
    ensures Wrapped([]) == ""
  {
  }

  /** ansi_states_to_sequence: no piece is left out if all of them fit. */
  method StatesToSequence(t: Table, states: seq<ColorState>) returns (r: Option<string>)
    requires t.Ok() && forall i :: 0 <= i < |states| ==> Valid(states[i])
    ensures r.None? <==> states == []
    ensures r.Some? ==> |r.value| < LBUF_SIZE
    ensures r.Some? && |Sequence(t, states)| < LBUF_SIZE - 1 ==> r.value == Sequence(t, states)
  {
    hide Transition;
    if |states| <= 0 {
      return None;
    }
    var buffer := "";
    var current := DEFAULT;
    ghost var whole := true;
    for i := 0 to |states|
      invariant current == Previous(states[..i]) && |buffer| < LBUF_SIZE - 1
      invariant whole ==> buffer == Through(t, states[..i])
      invariant !whole ==> |Through(t, states[..i])| >= LBUF_SIZE - 1
    {
      var piece := TransitionText(t, current, states[i]);
      assert states[..i + 1][..i] == states[..i];
      if |buffer| + |piece| < LBUF_SIZE - 1 {
        buffer := buffer + piece;
      } else {
        whole := false;
      }
      current := states[i];
    }
    assert states[..|states|] == states;
    var piece := TransitionText(t, current, NORMAL);
    if |buffer| + |piece| < LBUF_SIZE - 1 {
      buffer := buffer + piece;
    }
    return Some(buffer);
  }

  // ---- the parser

  /** ansi_parse_ansi_code. */
  method ParseAnsiCode(t: Table, state: ColorState, code: string) returns (s: ColorState)
    ensures s == ParseCode(t, state, code)
  {
    s := state;
    if code == "" {
      return;
    }
    hide One, Tokens, Atoi;
    s := s.(reset := Unset);
    ghost var s0 := s;
    var tokens := Tokens(code);
    var k := 0;
    IntsAt(tokens, 0);
    while k < |tokens|
      invariant k <= |tokens|
      invariant Sgr(t, s, Ints(tokens[k..])) == Sgr(t, s0, Ints(tokens))
      decreases |tokens| - k
    {
      IntsAt(tokens, k);
      var num := Atoi(tokens[k]);
      k := k + 1;
      if num == 38 || num == 48 {
        s, k := ParseExtended(t, s, num == 38, tokens, k);
      } else {
        s := One(t, s, num);
      }
    }
    assert tokens[k..] == [];
  }

  lemma IntsAt(tokens: seq<string>, k: nat)
    requires k <= |tokens|
    ensures k < |tokens| ==> Ints(tokens[k..]) == [Atoi(tokens[k])] + Ints(tokens[k + 1..])
    ensures k < |tokens| ==> Ints(tokens[k..])[1..] == Ints(tokens[k + 1..])
    ensures k == |tokens| ==> Ints(tokens[k..]) == []
    ensures tokens[0..] == tokens
  {
  }

  /** The parameters after a 38 or a 48. */
  method ParseExtended(t: Table, state: ColorState, front: bool, tokens: seq<string>, k0: nat) returns (s: ColorState, k: nat)
    requires k0 <= |tokens|
    ensures k0 <= k <= |tokens| && (s, Ints(tokens[k..])) == Extended(t, state, front, Ints(tokens[k0..]))
  {
    hide Atoi;
    s, k := state, k0;
    IntsAt(tokens, k0);
    if k < |tokens| {
      var mode := Atoi(tokens[k]);
      k := k + 1;
      IntsAt(tokens, k);
      if mode == 5 {
        if k < |tokens| {
          s := Paint(s, front, IndexColor(t, Atoi(tokens[k])));
          k := k + 1;
        }
      } else if mode == 2 {
        var r, g, b := 0, 0, 0;
        if k < |tokens| {
          r := Atoi(tokens[k]);
          k := k + 1;
          IntsAt(tokens, k);
        }
        if k < |tokens| {
          g := Atoi(tokens[k]);
          k := k + 1;
          IntsAt(tokens, k);
        }
        if k < |tokens| {
          b := Atoi(tokens[k]);
          k := k + 1;
          IntsAt(tokens, k);
        }
        s := Paint(s, front, TrueColor(t, r, g, b));
      }
    }
  }

  /** parse_and_apply_ansi_sequence at position `p`. */
  method ParseAndApply(t: Table, str: string, p: nat, state: ColorState) returns (ok: bool, p': nat, s: ColorState)
    requires p <= |str|
    ensures ok <==> SeqEnd(str[p..]).Some?
    ensures if ok then p' == p + SeqEnd(str[p..]).value + 1 && s == ParseCode(t, state, str[p..][2..SeqEnd(str[p..]).value])
            else p' == p && s == state
  {
    hide ParseCode;
    ok, p', s := false, p, state;
    if p >= |str| || str[p] != ESC {
      return;
    }
    if p + 1 >= |str| || str[p + 1] != '[' {
      return;
    }
    var q := p + 2;
    while q < |str| && str[q] != 'm'
      invariant p + 2 <= q <= |str|
      invariant forall j :: p + 2 <= j < q ==> str[j] != 'm'
    {
      q := q + 1;
    }
    if q >= |str| {
      return;
    }
    FoundM(str[p..], 2, q - p);
    assert str[p..][2..q - p] == str[p + 2..q];
    s := ParseAnsiCode(t, state, str[p + 2..q]);
    ok, p' := true, q + 1;
  }

  /** ansi_strip_ansi. */
  method StripAnsi(t: Table, str: string) returns (text: string)
    ensures text == Scan(t, str, DEFAULT).text
  {
    hide ParseCode, SeqEnd, Scan;
    text := "";
    var p := 0;
    var discard := DEFAULT;
    assert str[0..] == str;
    while p < |str|
      invariant p <= |str|
      invariant text + Scan(t, str[p..], discard).text == Scan(t, str, DEFAULT).text
      decreases |str| - p
    {
      ghost var old_ := discard;
      var ok, q, s := ParseAndApply(t, str, p, discard);
      if ok {
        ScanSeq(t, str[p..], discard, SeqEnd(str[p..]).value);
        assert str[p..][SeqEnd(str[p..]).value + 1..] == str[q..];
        p, discard := q, s;
      } else {
        ScanVisible(t, str[p..], discard);
        assert str[p..][1..] == str[p + 1..];
        text := text + [str[p]];
        p := p + 1;
      }
    }
    ScanNone(t, discard);
    assert str[p..] == "";
  }

  /** ansi_strip_ansi_len. */
  method StripAnsiLen(t: Table, str: string) returns (len: nat)
    ensures len == |Scan(t, str, DEFAULT).text|
  {
    hide ParseCode, SeqEnd, Scan;
    len := 0;
    var p := 0;
    var discard := DEFAULT;
    assert str[0..] == str;
    while p < |str|
      invariant p <= |str|
      invariant len + |Scan(t, str[p..], discard).text| == |Scan(t, str, DEFAULT).text|
      decreases |str| - p
    {
      var ok, q, s := ParseAndApply(t, str, p, discard);
      if ok {
        ScanSeq(t, str[p..], discard, SeqEnd(str[p..]).value);
        assert str[p..][SeqEnd(str[p..]).value + 1..] == str[q..];
        p, discard := q, s;
      } else {
        ScanVisible(t, str[p..], discard);
        assert str[p..][1..] == str[p + 1..];
        len := len + 1;
        p := p + 1;
      }
    }
    ScanNone(t, discard);
    assert str[p..] == "";
  }

  /** ansi_map_states_colorstate. On a lone or unterminated ESC it would not come back. */
  method MapStates(t: Table, str: string) returns (n: nat, states: array<ColorState>, stripped: array<char>)
    requires Clean(str) && |Scan(t, str, DEFAULT).text| <= LBUF_SIZE - 1
    ensures states.Length == HBUF_SIZE && stripped.Length == LBUF_SIZE && n < LBUF_SIZE
    ensures Scan(t, str, DEFAULT) == Scanned(stripped[..n], states[..n], states[n])
  {
    hide ParseCode, SeqEnd, Scan, Clean;
    states := new ColorState[HBUF_SIZE](_ => DEFAULT);
    stripped := new char[LBUF_SIZE];
    var current := DEFAULT;
    n := 0;
    if str == "" {
      ScanNone(t, DEFAULT);
      return;
    }
    var p := 0;
    assert str[0..] == str;
    while p < |str| && n < HBUF_SIZE - 1 && n < LBUF_SIZE - 1
      invariant p <= |str| && n <= LBUF_SIZE - 1 && Clean(str[p..])
      invariant Reading(t, str, p, current, stripped[..n], states[..n])
      decreases |str| - p
    {
      if str[p] == ESC {
        CleanEsc(str[p..]);
        p, current := ReadSequence(t, str, p, current, stripped[..n], states[..n]);
      } else {
        ReadChar(t, str, p, current, stripped[..n], states[..n]);
        states[n] := current;
        stripped[n] := str[p];
        assert stripped[..n + 1] == stripped[..n] + [str[p]] && states[..n + 1] == states[..n] + [current];
        n := n + 1;
        p := p + 1;
      }
    }
    while p < |str|
      invariant p <= |str| && Clean(str[p..])
      invariant Reading(t, str, p, current, stripped[..n], states[..n])
      decreases |str| - p
    {
      CleanEsc(str[p..]);
      if str[p] == ESC {
        p, current := ReadSequence(t, str, p, current, stripped[..n], states[..n]);
      } else {
        ReadChar(t, str, p, current, stripped[..n], states[..n]);
        assert false;
      }
    }
    ScanNone(t, current);
    assert str[p..] == "";
    states[n] := current;
  }

  /** `text` and `states` are what was read before position `p`. */
  ghost predicate Reading(t: Table, str: string, p: nat, current: ColorState, text: string, states: seq<ColorState>)
    requires p <= |str|
  {
    var r, rest := Scan(t, str, DEFAULT), Scan(t, str[p..], current);
    r == Scanned(text + rest.text, states + rest.states, rest.last)
  }

  lemma CleanEsc(s: string)
    requires Clean(s) && s != ""
    ensures s[0] == ESC <==> SeqEnd(s).Some?
    ensures SeqEnd(s).Some? ==> Clean(s[SeqEnd(s).value + 1..])
  {
  }

  method ReadSequence(t: Table, str: string, p: nat, current: ColorState, ghost text: string, ghost states: seq<ColorState>)
    returns (q: nat, s: ColorState)
    requires p < |str| && str[p] == ESC && Clean(str[p..]) && SeqEnd(str[p..]).Some? && Reading(t, str, p, current, text, states)
    ensures p < q <= |str| && Clean(str[q..]) && Reading(t, str, q, s, text, states)
  {
    hide ParseCode, SeqEnd, Scan, Clean;
    CleanEsc(str[p..]);
    var _, q', s' := ParseAndApply(t, str, p, current);
    q, s := q', s';
    ScanSeq(t, str[p..], current, SeqEnd(str[p..]).value);
    assert str[p..][SeqEnd(str[p..]).value + 1..] == str[q..];
  }

  lemma ReadChar(t: Table, str: string, p: nat, current: ColorState, text: string, states: seq<ColorState>)
    requires p < |str| && str[p] != ESC && Clean(str[p..]) && Reading(t, str, p, current, text, states)
    ensures Clean(str[p + 1..]) && Reading(t, str, p + 1, current, text + [str[p]], states + [current])
    ensures |text| < |Scan(t, str, DEFAULT).text|
  {
    CleanEsc(str[p..]);
    hide ParseCode, SeqEnd, Scan, Clean;
    ScanVisible(t, str[p..], current);
    assert str[p..][1..] == str[p + 1..];
    var rest := Scan(t, str[p + 1..], current);
    assert text + ([str[p]] + rest.text) == text + [str[p]] + rest.text;
    assert states + ([current] + rest.states) == states + [current] + rest.states;
  }
}
