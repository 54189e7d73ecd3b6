/** Select Graphic Rendition (ECMA-48, section 8.3.117) as the server writes and reads it:
    colour states, the parameters and the text written for one, and what the parser makes
    of a text. Only the 256-colour form of the writer is modelled. */
module SgrSpec {
  import opened CText

  const ESC: char := 27 as char
  const SBUF_SIZE: nat := 64
  const LBUF_SIZE: nat := 16384
  const HBUF_SIZE: nat := 32768

  datatype Option<+T> = None | Some(value: T)

  /** ColorStatusReset, ColorStatusNone, ColorStatusSet. */
  datatype Status = Reset | Unset | Set

  datatype Rgb = Rgb(r: int, g: int, b: int)

  datatype ColorInfo = ColorInfo(isSet: Status, ansi: int, xterm: int, rgb: Rgb)

  datatype ColorState = ColorState(
    fg: ColorInfo,
    bg: ColorInfo,
    reset: Status,
    flash: Status,
    highlight: Status,
    underline: Status,
    inverse: Status)

  /** colorDefinitions by index, and the nearest entries to a true colour, whose search
      is not modelled. */
  datatype Table = Table(
    ansi: int -> int,
    xterm: int -> int,
    rgb: int -> Rgb,
    nearAnsi: Rgb -> int,
    nearXterm: Rgb -> int)
  {
    /** The table's 256 entries are their own xterm index, the first 16 their own ANSI index. */
    ghost predicate Ok() {
      && (forall i {:trigger xterm(i)} :: 0 <= i < 256 ==> xterm(i) == i)
      && (forall i {:trigger ansi(i)} :: 0 <= i < 16 ==> ansi(i) == i)
      && (forall i {:trigger ansi(i)} :: 0 <= i < 256 ==> 0 <= ansi(i) < 16)
    }
  }

  const BLACK: Rgb := Rgb(0, 0, 0)
  const NO_COLOR: ColorInfo := ColorInfo(Unset, 0, 0, BLACK)
  const RESET_COLOR: ColorInfo := ColorInfo(Reset, 0, 0, BLACK)
  const DEFAULT: ColorState := ColorState(NO_COLOR, NO_COLOR, Unset, Unset, Unset, Unset, Unset)
  const NORMAL: ColorState := ColorState(RESET_COLOR, RESET_COLOR, Reset, Unset, Unset, Unset, Unset)

  // ---- writing

  /** The palette entry shown: a set highlight brightens the first eight colours. */
  function Shown(t: Table, i: ColorInfo, highlight: Status): int {
    if 0 <= i.ansi < 8 && highlight == Set then t.xterm(i.ansi + 8) else i.xterm
  }

  function AttrCode(s: Status, on: nat, off: nat): seq<nat> {
    if s == Unset then [] else if s == Reset then [off] else [on]
  }

  function ColorCode(t: Table, i: ColorInfo, highlight: Status, base: nat): seq<int> {
    if i.isSet == Unset then [] else if i.isSet == Reset then [base + 1] else [base, 5, Shown(t, i, highlight)]
  }

  function AttrCodes(s: ColorState): seq<nat> {
    (if s.reset == Reset then [0] else []) + AttrCode(s.highlight, 1, 22) + AttrCode(s.underline, 4, 24)
    + AttrCode(s.flash, 5, 25) + AttrCode(s.inverse, 7, 27)
  }

  /** The parameters to_ansi_escape_sequence writes, in order. */
  function Codes(t: Table, s: ColorState): seq<int> {
    AttrCodes(s) + ColorCode(t, s.fg, s.highlight, 38) + ColorCode(t, s.bg, s.highlight, 48)
  }

  function Joined(codes: seq<int>): string {
    if codes == [] then "" else if |codes| == 1 then Decimal(codes[0])
    else Joined(codes[..|codes| - 1]) + ";" + Decimal(codes[|codes| - 1])
  }

  function Wrapped(codes: seq<int>): string {
    if codes == [] then "" else [ESC, '['] + Joined(codes) + "m"
  }

  /** Whether something shown in `from` is not shown in `to`, so that a reset is needed. */
  predicate Clears(from: ColorState, to: ColorState) {
    || (from.highlight == Set && to.highlight != Set) || (from.underline == Set && to.underline != Set)
    || (from.flash == Set && to.flash != Set) || (from.inverse == Set && to.inverse != Set)
    || (from.fg.isSet == Set && to.fg.isSet != Set) || (from.bg.isSet == Set && to.bg.isSet != Set)
  }

  /** The parameters ansi_transition_colorstate writes to get from one state to another. */
  function Change(t: Table, from: ColorState, to: ColorState): seq<int> {
    if from == to then [] else Codes(t, if Clears(from, to) then to.(reset := Reset) else to)
  }

  function Transition(t: Table, from: ColorState, to: ColorState): string {
    Wrapped(Change(t, from, to))
  }

  function Previous(ss: seq<ColorState>): ColorState {
    if ss == [] then DEFAULT else ss[|ss| - 1]
  }

  /** All transitions through `ss`, from the default state. */
  function Through(t: Table, ss: seq<ColorState>): string {
    if ss == [] then ""
    else Through(t, ss[..|ss| - 1]) + Transition(t, Previous(ss[..|ss| - 1]), ss[|ss| - 1])
  }

  /** ansi_states_to_sequence, when everything fits its buffer. */
  function Sequence(t: Table, ss: seq<ColorState>): string {
    Through(t, ss) + Transition(t, Previous(ss), NORMAL)
  }

  /** A text with each character in its own state. */
  function Painted(t: Table, text: string, ss: seq<ColorState>): string
    requires |text| == |ss|
  {
    if text == "" then "" else
    var n := |text| - 1;
    Painted(t, text[..n], ss[..n]) + Transition(t, Previous(ss[..n]), ss[n]) + [text[n]]
  }

  // ---- reading

  function TokenEnd(s: string, i: nat): (n: nat)
    requires i <= |s|
    ensures i <= n <= |s|
    ensures forall j :: i <= j < n ==> s[j] != ';'
    ensures n < |s| ==> s[n] == ';'
    decreases |s| - i
  {
    if i < |s| && s[i] != ';' then TokenEnd(s, i + 1) else i
  }

  /** The pieces strtok cuts at semicolons; empty pieces are skipped. */
  function Tokens(s: string): seq<string>
    decreases |s|
  {
    if s == "" then []
    else if s[0] == ';' then Tokens(s[1..])
    else [s[..TokenEnd(s, 0)]] + Tokens(s[TokenEnd(s, 0)..])
  }

  function Ints(tokens: seq<string>): (r: seq<int>)
    ensures |r| == |tokens|
  {
    if tokens == [] then [] else [Atoi(tokens[0])] + Ints(tokens[1..])
  }

  /** set_color_by_ansi_index, for indices 0 to 15. */
  function AnsiColor(t: Table, i: int): ColorInfo {
    ColorInfo(Set, i, t.xterm(i), t.rgb(i))
  }

  /** The colour of the parameters 38;5;i or 48;5;i. */
  function IndexColor(t: Table, i: int): ColorInfo {
    if i < 16 then ColorInfo(Set, i, t.xterm(i), t.rgb(i)) else ColorInfo(Set, t.ansi(i), i, t.rgb(i))
  }

  function TrueColor(t: Table, r: int, g: int, b: int): ColorInfo {
    var c := Rgb(r % 256, g % 256, b % 256);
    ColorInfo(Set, t.nearAnsi(c), t.nearXterm(c), c)
  }

  /** One parameter, other than 38 and 48. */
  function One(t: Table, s: ColorState, n: int): ColorState {
    if n == 0 then DEFAULT.(reset := Reset)
    else if n == 1 then s.(highlight := Set)
    else if n == 4 then s.(underline := Set)
    else if n == 5 then s.(flash := Set)
    else if n == 7 then s.(inverse := Set)
    else if n == 22 then s.(highlight := Reset)
    else if n == 24 then s.(underline := Reset)
    else if n == 25 then s.(flash := Reset)
    else if n == 27 then s.(inverse := Reset)
    else if 30 <= n <= 37 then s.(fg := AnsiColor(t, n - 30))
    else if 90 <= n <= 97 then s.(fg := AnsiColor(t, n - 82))
    else if 40 <= n <= 47 then s.(bg := AnsiColor(t, n - 40))
    else if 100 <= n <= 107 then s.(bg := AnsiColor(t, n - 92))
    else if n == 39 then s.(fg := RESET_COLOR)
    else if n == 49 then s.(bg := RESET_COLOR)
    else s
  }

  function Paint(s: ColorState, front: bool, i: ColorInfo): ColorState {
    if front then s.(fg := i) else s.(bg := i)
  }

  function Nth(ns: seq<int>, k: nat): int {
    if k < |ns| then ns[k] else 0
  }

  function Drop(ns: seq<int>, k: nat): seq<int> {
    if k < |ns| then ns[k..] else []
  }

  /** What follows a 38 or 48: the state, and the parameters left. */
  function Extended(t: Table, s: ColorState, front: bool, ns: seq<int>): (r: (ColorState, seq<int>))
    ensures |r.1| <= |ns|
  {
    if ns == [] then (s, [])
    else if ns[0] == 5 then
      if |ns| == 1 then (s, []) else (Paint(s, front, IndexColor(t, ns[1])), ns[2..])
    else if ns[0] == 2 then
      (Paint(s, front, TrueColor(t, Nth(ns, 1), Nth(ns, 2), Nth(ns, 3))), Drop(ns, 4))
    else (s, ns[1..])
  }

  /** The token loop of ansi_parse_ansi_code. */
  function Sgr(t: Table, s: ColorState, ns: seq<int>): ColorState
    decreases |ns|
  {
    if ns == [] then s
    else if ns[0] == 38 || ns[0] == 48 then
      var r := Extended(t, s, ns[0] == 38, ns[1..]);
      Sgr(t, r.0, r.1)
    else Sgr(t, One(t, s, ns[0]), ns[1..])
  }

  /** ansi_parse_ansi_code on the text between "ESC[" and "m". */
  function ParseCode(t: Table, s: ColorState, code: string): ColorState {
    if code == "" then s else Sgr(t, s.(reset := Unset), Ints(Tokens(code)))
  }

  function FindM(s: string, i: nat): (n: nat)
    requires i <= |s|
    ensures i <= n <= |s|
    ensures forall j :: i <= j < n ==> s[j] != 'm'
    ensures n < |s| ==> s[n] == 'm'
    decreases |s| - i
  {
    if i < |s| && s[i] != 'm' then FindM(s, i + 1) else i
  }

  /** A terminated sequence at the start of `s`: the position of its final m. */
  function SeqEnd(s: string): (r: Option<nat>)
    ensures r.Some? ==> 2 <= r.value < |s|
  {
    if |s| >= 2 && s[0] == ESC && s[1] == '[' && FindM(s, 2) < |s| then Some(FindM(s, 2)) else None
  }

  datatype Scanned = Scanned(text: string, states: seq<ColorState>, last: ColorState)

  /** The visible characters of `s`, the state before each, and the state at the end. A
      byte that starts no terminated sequence is visible. */
  function Scan(t: Table, s: string, st: ColorState): (r: Scanned)
    ensures |r.text| == |r.states| <= |s|
    decreases |s|
  {
    if s == "" then Scanned("", [], st)
    else
      var e := SeqEnd(s);
      if e.Some? then Scan(t, s[e.value + 1..], ParseCode(t, st, s[2..e.value]))
      else
        var r := Scan(t, s[1..], st);
        Scanned([s[0]] + r.text, [st] + r.states, r.last)
  }

  /** Every ESC met starts a terminated sequence. */
  predicate Clean(s: string)
    decreases |s|
  {
    s == "" ||
    var e := SeqEnd(s);
    if e.Some? then Clean(s[e.value + 1..]) else s[0] != ESC && Clean(s[1..])
  }

  // ---- looking

  /** What a reader sees of a state. */
  datatype Look = Look(bold: bool, underlined: bool, flashing: bool, inverse: bool, fg: Option<int>, bg: Option<int>)

  function Seen(t: Table, i: ColorInfo, highlight: Status): Option<int> {
    if i.isSet == Set then Some(Shown(t, i, highlight)) else None
  }

  function LookOf(t: Table, s: ColorState): Look {
    Look(s.highlight == Set, s.underline == Set, s.flash == Set, s.inverse == Set,
         Seen(t, s.fg, s.highlight), Seen(t, s.bg, s.highlight))
  }
}
