/** Telnet input (RFC 854, section "TELNET COMMAND STRUCTURE") as three passes: commands
    are taken out, bytes are filtered by a table, and what is left is edited into lines. */
module TelnetSpec {
  newtype byte = x: int | 0 <= x < 256

  const IAC: byte := 0xff
  const WILL: byte := 0xfb
  const WONT: byte := 0xfc
  const DO: byte := 0xfd
  const DONT: byte := 0xfe
  const LF: byte := 0x0a
  const CR: byte := 0x0d
  const BS: byte := 0x08
  const DEL: byte := 0x7f

  // ---- first pass: commands

  /** What the stream consists of. Commands of two bytes leave no trace. */
  datatype Item = Data(b: byte) | Negotiation(cmd: byte, option: byte)

  predicate Negotiates(b: byte) {
    WILL <= b <= DONT
  }

  /** How many bytes the unit at the start of a read takes. A command at the very end of
      a read is cut short: a lone IAC is data, an option not yet there is not waited for. */
  function UnitLength(s: seq<byte>): (n: nat)
    requires s != []
    ensures 1 <= n <= |s|
  {
    if s[0] != IAC || |s| == 1 then 1
    else if Negotiates(s[1]) && |s| > 2 then 3
    else 2
  }

  function UnitItems(s: seq<byte>): seq<Item>
    requires s != []
  {
    if s[0] != IAC || |s| == 1 then [Data(s[0])]
    else if s[1] == IAC then [Data(IAC)]
    else if Negotiates(s[1]) && |s| > 2 then [Negotiation(s[1], s[2])]
    else []
  }

  function Items(s: seq<byte>): seq<Item>
    decreases |s|
  {
    if s == [] then [] else UnitItems(s) + Items(s[UnitLength(s)..])
  }

  function DataOf(items: seq<Item>): seq<byte> {
    if items == [] then []
    else (if items[0].Data? then [items[0].b] else []) + DataOf(items[1..])
  }

  /** The first pass, but for the answers to negotiations. */
  function Strip(s: seq<byte>): seq<byte> {
    DataOf(Items(s))
  }

  // ---- second pass: the table

  /** char_valid_table. */
  predicate InTable(b: byte) {
    0x20 <= b <= 0x7e || b == 0x07 || b == 0x09 || b == 0x0a || b == 0x1b || b == 0x7f
  }

  /** Line ends pass before the table is asked. */
  predicate Passes(b: byte) {
    b == CR || b == LF || InTable(b)
  }

  function Filter(s: seq<byte>): seq<byte> {
    if s == [] then [] else (if Passes(s[0]) then [s[0]] else []) + Filter(s[1..])
  }

  // ---- third pass: lines

  /** The commands entered, and the line being typed. */
  datatype Entry = Entry(commands: seq<seq<byte>>, line: seq<byte>)

  /** One byte of a line that holds at most `cap`. */
  function EditByte(cap: nat, e: Entry, b: byte): Entry {
    if b == CR || b == LF then (if e.line == [] then e else Entry(e.commands + [e.line], []))
    else if b == BS || b == DEL then (if e.line == [] then e else e.(line := e.line[..|e.line| - 1]))
    else if |e.line| < cap then e.(line := e.line + [b])
    else e
  }

  function Edit(cap: nat, e: Entry, s: seq<byte>): Entry
    decreases |s|
  {
    if s == [] then e else Edit(cap, EditByte(cap, e, s[0]), s[1..])
  }

  /** The three passes over one read. */
  function Process(cap: nat, e: Entry, s: seq<byte>): Entry {
    Edit(cap, e, Filter(Strip(s)))
  }

  // ---- answers

  /** The answer to a negotiation: options the server offered are left alone or agreed to,
      others are refused. */
  function Reply(cmd: byte, option: byte): (r: seq<seq<byte>>)
    ensures |r| <= 1 && forall i :: 0 <= i < |r| ==> Answers(r[i], cmd, option)
    ensures r != [] <==> cmd == WILL || (cmd == DO && option != 0x00 && option != 0x03)
  {
    if cmd == DO then
      (if option == 0x03 || option == 0x00 then []
       else if option == 0x22 then [[IAC, WILL, option]]
       else [[IAC, WONT, option]])
    else if cmd == WILL then
      (if option == 0x01 then [[IAC, DO, option]] else [[IAC, DONT, option]])
    else []
  }

  /** A command that takes up or turns down the option asked about. */
  predicate Answers(a: seq<byte>, cmd: byte, option: byte) {
    && |a| == 3 && a[0] == IAC && a[2] == option
    && ((cmd == DO && (a[1] == WILL || a[1] == WONT)) || (cmd == WILL && (a[1] == DO || a[1] == DONT)))
  }

  /** Two ends that answer so do not go on answering each other: the answer to an answer
      ends it. */
  lemma RepliesEnd(cmd: byte, option: byte, first: seq<byte>, second: seq<byte>)
    requires first in Reply(cmd, option) && second in Reply(first[1], first[2])
    ensures Reply(second[1], second[2]) == []
  {
    assert Answers(first, cmd, option) && Answers(second, first[1], first[2]);
  }

  const ERASE: seq<byte> := [0x08, 0x20, 0x08]

  /** What is sent back, in order: answers, and an erasure for every DEL. */
  function Sent(items: seq<Item>): seq<seq<byte>> {
    if items == [] then []
    else
      (if items[0].Negotiation? then Reply(items[0].cmd, items[0].option)
       else if items[0].b == DEL then [ERASE] else [])
      + Sent(items[1..])
  }

  // ---- cutting the stream into reads

  /** The last unit of `s` is complete, whatever follows. */
  predicate Whole(s: seq<byte>)
    decreases |s|
  {
    s == [] ||
    if s[0] == IAC && (|s| == 1 || (|s| == 2 && Negotiates(s[1]))) then false
    else Whole(s[UnitLength(s)..])
  }

  /** A complete unit is the same whatever follows. */
  lemma UnitSame(a: seq<byte>, b: seq<byte>)
    requires a != [] && !(a[0] == IAC && (|a| == 1 || (|a| == 2 && Negotiates(a[1]))))
    ensures UnitLength(a + b) == UnitLength(a) && UnitItems(a + b) == UnitItems(a)
    ensures (a + b)[UnitLength(a)..] == a[UnitLength(a)..] + b
  {
  }

  lemma ItemsUnfold(s: seq<byte>)
    ensures Items(s) == if s == [] then [] else UnitItems(s) + Items(s[UnitLength(s)..])
  {
  }

  lemma WholeUnfolds(a: seq<byte>)
    requires Whole(a) && a != []
    ensures !(a[0] == IAC && (|a| == 1 || (|a| == 2 && Negotiates(a[1])))) && Whole(a[UnitLength(a)..])
  {
  }

  lemma {:induction false} ItemsAppend(a: seq<byte>, b: seq<byte>)
    requires Whole(a)
    ensures Items(a + b) == Items(a) + Items(b)
    decreases |a|
  {
    hide Items, UnitItems, UnitLength, Whole, Negotiates;
    ItemsUnfold(a);
    if a == [] {
      assert a + b == b;
    } else {
      var n := UnitLength(a);
      WholeUnfolds(a);
      UnitSame(a, b);
      ItemsUnfold(a + b);
      ItemsAppend(a[n..], b);
      assert UnitItems(a) + (Items(a[n..]) + Items(b)) == UnitItems(a) + Items(a[n..]) + Items(b);
    }
  }

  lemma LoneIac()
    ensures Items([IAC]) == [Data(IAC)] && Items([IAC, 65]) == []
    ensures Filter([IAC]) == [] && Filter([65]) == [65]
  {
    assert [IAC][1..] == [] && [IAC, 65][2..] == [] && [65 as byte][1..] == [];
  }

  lemma CutOption(c: byte)
    requires Negotiates(c)
    ensures Items([IAC, c]) == [] && Items([IAC, c, 65]) == [Negotiation(c, 65)] && Items([65]) == [Data(65)]
  {
    assert [IAC, c][2..] == [] && [IAC, c, 65][3..] == [] && [65 as byte][1..] == [];
  }

  lemma UnitKept(a: seq<byte>)
    requires a != [] && !(a[0] == IAC && (|a| == 1 || (|a| == 2 && Negotiates(a[1]))))
    ensures UnitLength(a + [65]) == UnitLength(a)
    ensures var w, n, u := a + [65], UnitLength(a), UnitItems(a);
      && w[n..] == a[n..] + [65] && Items(w) == u + Items(w[n..]) && Items(a) == u + Items(a[n..])
  {
    hide Items, UnitItems, UnitLength;
    UnitSame(a, [65]);
    ItemsUnfold(a);
    ItemsUnfold(a + [65]);
  }

  lemma {:induction false} DataAppend(a: seq<Item>, b: seq<Item>)
    ensures DataOf(a + b) == DataOf(a) + DataOf(b)
  {
    if a == [] {
      assert a + b == b;
    } else {
      assert (a + b)[1..] == a[1..] + b;
      DataAppend(a[1..], b);
      var h := if a[0].Data? then [a[0].b] else [];
      assert h + (DataOf(a[1..]) + DataOf(b)) == h + DataOf(a[1..]) + DataOf(b);
    }
  }

  lemma {:induction false} FilterAppend(a: seq<byte>, b: seq<byte>)
    ensures Filter(a + b) == Filter(a) + Filter(b)
  {
    if a == [] {
      assert a + b == b;
    } else {
      assert (a + b)[1..] == a[1..] + b;
      FilterAppend(a[1..], b);
      var h := if Passes(a[0]) then [a[0]] else [];
      assert h + (Filter(a[1..]) + Filter(b)) == h + Filter(a[1..]) + Filter(b);
    }
  }

  lemma {:induction false} EditAppend(cap: nat, e: Entry, a: seq<byte>, b: seq<byte>)
    ensures Edit(cap, e, a + b) == Edit(cap, Edit(cap, e, a), b)
    decreases |a|
  {
    if a == [] {
      assert a + b == b;
    } else {
      assert (a + b)[1..] == a[1..] + b;
      EditAppend(cap, EditByte(cap, e, a[0]), a[1..], b);
    }
  }

  /** Two reads do what one would, unless a command is cut between them; cutting a line
      end in two makes no difference. */
  lemma TwoReads(cap: nat, e: Entry, a: seq<byte>, b: seq<byte>)
    requires Whole(a)
    ensures Process(cap, Process(cap, e, a), b) == Process(cap, e, a + b)
  {
    ItemsAppend(a, b);
    DataAppend(Items(a), Items(b));
    FilterAppend(Strip(a), Strip(b));
    EditAppend(cap, e, Filter(Strip(a)), Filter(Strip(b)));
  }

  /** The byte 'A' after an incomplete unit is taken for a part of it. */
  lemma {:induction false} Dangles(a: seq<byte>)
    requires !Whole(a)
    ensures Filter(Strip(a + [65])) == Filter(Strip(a))
    decreases |a|
  {
    if a == [IAC] {
      LoneIac();
      assert a + [65] == [IAC, 65] && DataOf([Data(IAC)]) == [IAC];
    } else if |a| == 2 && a[0] == IAC && Negotiates(a[1]) {
      CutOption(a[1]);
      assert a == [IAC, a[1]] && a + [65] == [IAC, a[1], 65];
      assert DataOf([Negotiation(a[1], 65)]) == [];
    } else {
      var w, n, u := a + [65], UnitLength(a), UnitItems(a);
      UnitKept(a);
      Dangles(a[n..]);
      hide Items, DataOf, Filter, UnitItems, UnitLength;
      DataAppend(u, Items(w[n..]));
      DataAppend(u, Items(a[n..]));
      FilterAppend(DataOf(u), Strip(w[n..]));
      FilterAppend(DataOf(u), Strip(a[n..]));
    }
  }

  lemma {:induction false} LineGrows(cap: nat, e: Entry, s: seq<byte>)
    ensures |Edit(cap, e, s).line| <= |e.line| + |s|
    decreases |s|
  {
    if s != [] {
      LineGrows(cap, EditByte(cap, e, s[0]), s[1..]);
    }
  }

  /** A stream may be cut after `a`, whatever was typed before and follows, exactly if no
      command is cut. */
  lemma CutIff(a: seq<byte>)
    ensures Whole(a) <==>
      forall cap: nat, e: Entry, b: seq<byte> :: Process(cap, Process(cap, e, a), b) == Process(cap, e, a + b)
  {
    hide Process;
    if Whole(a) {
      forall cap: nat, e: Entry, b: seq<byte>
        ensures Process(cap, Process(cap, e, a), b) == Process(cap, e, a + b)
      {
        TwoReads(cap, e, a, b);
      }
    } else {
      CutShows(a);
    }
  }

  /** On an empty line with room, the byte 'A' shows the cut. */
  lemma CutShows(a: seq<byte>)
    requires !Whole(a)
    ensures var cap, e := |Filter(Strip(a))| + 1, Entry([], []);
      Process(cap, Process(cap, e, a), [65]) != Process(cap, e, a + [65])
  {
    hide Items, DataOf, Filter, Edit, Whole;
    var cap, e := |Filter(Strip(a))| + 1, Entry([], []);
    Dangles(a);
    LineGrows(cap, e, Filter(Strip(a)));
    LoneA();
    TypeA(cap, Process(cap, e, a));
  }

  lemma LoneA()
    ensures Filter(Strip([65])) == [65]
  {
    LoneIac();
    CutOption(WILL);
    assert DataOf([Data(65)]) == [65];
  }

  lemma TypeA(cap: nat, t: Entry)
    requires |t.line| < cap
    ensures Edit(cap, t, [65]) == t.(line := t.line + [65])
  {
    assert [65 as byte][1..] == [];
    assert Edit(cap, t, [65]) == Edit(cap, t.(line := t.line + [65]), []);
  }

  function Joined(parts: seq<seq<byte>>): seq<byte> {
    if parts == [] then [] else Joined(parts[..|parts| - 1]) + parts[|parts| - 1]
  }

  function ProcessAll(cap: nat, e: Entry, parts: seq<seq<byte>>): Entry {
    if parts == [] then e else Process(cap, ProcessAll(cap, e, parts[..|parts| - 1]), parts[|parts| - 1])
  }

  /** No read but the last ends inside a command. */
  predicate CleanCuts(parts: seq<seq<byte>>) {
    parts == [] || (Whole(Joined(parts[..|parts| - 1])) && CleanCuts(parts[..|parts| - 1]))
  }

  /** However a stream is cut into reads, as long as no command is cut, the same commands
      come of it. */
  lemma {:induction false} CutsDoNotMatter(cap: nat, e: Entry, parts: seq<seq<byte>>)
    requires CleanCuts(parts)
    ensures ProcessAll(cap, e, parts) == Process(cap, e, Joined(parts))
  {
    if parts != [] {
      CutsDoNotMatter(cap, e, parts[..|parts| - 1]);
      TwoReads(cap, e, Joined(parts[..|parts| - 1]), parts[|parts| - 1]);
    }
  }

  // ---- what comes out

  predicate LineByte(b: byte) {
    InTable(b) && b != LF && b != DEL
  }

  predicate LineOk(cap: nat, s: seq<byte>) {
    |s| <= cap && forall i :: 0 <= i < |s| ==> LineByte(s[i])
  }

  /** Commands are neither empty nor too long, and hold allowed bytes only. */
  predicate EntryOk(cap: nat, e: Entry) {
    LineOk(cap, e.line) && forall i :: 0 <= i < |e.commands| ==> e.commands[i] != [] && LineOk(cap, e.commands[i])
  }

  predicate AllPass(s: seq<byte>) {
    forall i :: 0 <= i < |s| ==> Passes(s[i])
  }

  lemma {:induction false} FilterPasses(s: seq<byte>)
    ensures AllPass(Filter(s))
  {
    if s != [] {
      FilterPasses(s[1..]);
    }
  }

  lemma {:induction false} EditKeeps(cap: nat, e: Entry, s: seq<byte>)
    requires EntryOk(cap, e) && AllPass(s)
    ensures EntryOk(cap, Edit(cap, e, s)) && e.commands <= Edit(cap, e, s).commands
    decreases |s|
  {
    if s != [] {
      EditKeeps(cap, EditByte(cap, e, s[0]), s[1..]);
    }
  }

  lemma ProcessKeeps(cap: nat, e: Entry, s: seq<byte>)
    requires EntryOk(cap, e)
    ensures EntryOk(cap, Process(cap, e, s)) && e.commands <= Process(cap, e, s).commands
  {
    FilterPasses(Strip(s));
    EditKeeps(cap, e, Filter(Strip(s)));
  }

  lemma BackspaceData(b: seq<byte>)
    ensures Strip([BS] + b) == [BS] + Strip(b)
  {
    assert ([BS] + b)[1..] == b;
    assert Items([BS] + b) == [Data(BS)] + Items(b);
    assert ([Data(BS)] + Items(b))[1..] == Items(b);
  }

  lemma BackspaceFiltered(d: seq<byte>)
    ensures Filter([BS] + d) == Filter(d)
  {
    assert ([BS] + d)[1..] == d;
  }

  /** Backspace is not in the table, so it never gets to edit a line; DEL does. */
  lemma BackspaceIgnored(cap: nat, e: Entry, a: seq<byte>, b: seq<byte>)
    requires Whole(a)
    ensures Process(cap, e, a + ([BS] + b)) == Process(cap, e, a + b)
  {
    hide Items, DataOf, Filter, Edit, Whole;
    ItemsAppend(a, b);
    ItemsAppend(a, [BS] + b);
    DataAppend(Items(a), Items(b));
    DataAppend(Items(a), Items([BS] + b));
    BackspaceData(b);
    FilterAppend(Strip(a), Strip(b));
    FilterAppend(Strip(a), Strip([BS] + b));
    BackspaceFiltered(Strip(b));
  }
}
