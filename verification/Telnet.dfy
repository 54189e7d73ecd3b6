/** The input side of a connection: one pass over the bytes of a read, with the line typed
    so far kept in a buffer between reads. */
module Telnet {
  import opened TelnetSpec

  /** What is left to do, item by item. */
  function EditItems(cap: nat, e: Entry, items: seq<Item>): Entry {
    Edit(cap, e, Filter(DataOf(items)))
  }

  /** One byte of data. */
  function Typed(cap: nat, e: Entry, b: byte): Entry {
    if Passes(b) then EditByte(cap, e, b) else e
  }

  lemma DataOne(item: Item, items: seq<Item>)
    ensures DataOf([item] + items) == (if item.Data? then [item.b] else []) + DataOf(items)
    ensures item.Negotiation? ==> DataOf([item] + items) == DataOf(items)
  {
    assert ([item] + items)[1..] == items;
  }

  lemma EditOne(cap: nat, e: Entry, b: byte, s: seq<byte>)
    ensures Edit(cap, e, Filter([b] + s)) == Edit(cap, Typed(cap, e, b), Filter(s))
  {
    assert ([b] + s)[1..] == s;
    if Passes(b) {
      assert Filter([b] + s) == [b] + Filter(s);
      assert ([b] + Filter(s))[1..] == Filter(s);
    } else {
      assert Filter([b] + s) == Filter(s);
    }
  }

  lemma EditData(cap: nat, e: Entry, b: byte, items: seq<Item>)
    ensures EditItems(cap, e, [Data(b)] + items) == EditItems(cap, Typed(cap, e, b), items)
  {
    hide DataOf, Filter, Edit, Typed;
    DataOne(Data(b), items);
    EditOne(cap, e, b, DataOf(items));
  }

  lemma EditNegotiation(cap: nat, e: Entry, cmd: byte, option: byte, items: seq<Item>)
    ensures EditItems(cap, e, [Negotiation(cmd, option)] + items) == EditItems(cap, e, items)
    ensures Sent([Negotiation(cmd, option)] + items) == Reply(cmd, option) + Sent(items)
  {
    DataOne(Negotiation(cmd, option), items);
    assert ([Negotiation(cmd, option)] + items)[1..] == items;
    hide DataOf, Filter, Edit;
  }

  lemma SentData(b: byte, items: seq<Item>)
    ensures Sent([Data(b)] + items) == (if b == DEL then [ERASE] else []) + Sent(items)
  {
    assert ([Data(b)] + items)[1..] == items;
  }

  class Descriptor {
    const cap: nat                // what a command block holds, less the final zero
    var rawInput: array?<byte>    // the line being typed
    var rawInputAt: nat           // how much of it is typed
    var commands: seq<seq<byte>>  // save_command
    var output: seq<seq<byte>>    // queue_write and queue_string

    ghost predicate Valid()
      reads this
    {
      rawInput != null ==> rawInput.Length == cap + 1 && 0 < rawInputAt <= cap
    }

    /** The line being typed. */
    ghost function Line(): seq<byte>
      requires Valid()
      reads this, rawInput
    {
      if rawInput == null then [] else rawInput[..rawInputAt]
    }

    constructor (cap: nat)
      ensures Valid() && Line() == [] && commands == [] && output == [] && this.cap == cap
    {
      this.cap := cap;
      rawInput := null;
      rawInputAt := 0;
      commands, output := [], [];
    }

    /** The answer to a negotiation. */
    method Answer(cmd: byte, option: byte)
      modifies this`output
      ensures output == old(output) + Reply(cmd, option)
      ensures |old(output)| <= |output| <= |old(output)| + 1
      ensures |output| > |old(output)| ==> Answers(output[|output| - 1], cmd, option)
      ensures cmd == WONT || cmd == DONT ==> output == old(output)
    {
      if cmd == DO {
        if option == 0x03 {
        } else if option == 0x00 {
        } else if option == 0x22 {
          output := output + [[IAC, WILL, option]];
        } else {
          output := output + [[IAC, WONT, option]];
        }
      } else if cmd == WILL {
        if option == 0x01 {
          output := output + [[IAC, DO, option]];
        } else {
          output := output + [[IAC, DONT, option]];
        }
      }
    }

    /** One byte that is no command: line ends, the table, editing. */
    method Type(ch: byte, line: array<byte>, p0: nat) returns (next: array<byte>, p: nat)
      requires line.Length == cap + 1 && p0 <= cap
      modifies this`commands, this`output, line
      ensures next.Length == cap + 1 && p <= cap && (next == line || fresh(next))
      ensures Entry(commands, next[..p]) == Typed(cap, Entry(old(commands), old(line[..p0])), ch)
      ensures output == old(output) + if ch == DEL then [ERASE] else []
    {
      next, p := line, p0;
      if ch == LF || ch == CR {
        line[p] := 0;
        if p > 0 {
          commands := commands + [line[..p]];
          next := new byte[cap + 1];
          p := 0;
        }
      } else if !InTable(ch) {
      } else if ch == BS || ch == DEL {
        output := output + [ERASE];
        if p > 0 {
          p := p - 1;
        }
      } else if p < cap {
        line[p] := ch;
        p := p + 1;
      }
    }

    /** _bsd_io_input_process, on the bytes of one read. */
    method InputProcess(buf: seq<byte>)
      requires Valid()
      modifies this, rawInput
      ensures Valid() && Entry(commands, Line()) == Process(cap, Entry(old(commands), old(Line())), buf)
      ensures output == old(output) + Sent(Items(buf))
      ensures rawInput != old(rawInput) ==> rawInput == null || fresh(rawInput)
    {
      hide Reply, Answers, Process, Items, UnitItems, Edit, Filter, DataOf, Sent, Typed, EditItems;
      if buf == [] {
        NoItems(cap, Entry(commands, Line()));
        return;
      }
      ghost var e0 := Entry(commands, Line());
      var line: array<byte>;
      var p: nat := 0;
      if rawInput == null {
        line := new byte[cap + 1];
      } else {
        line, p := rawInput, rawInputAt;
      }
      assert line[..p] == e0.line;
      var skipNextLf := false;
      var q := 0;
      assert buf[0..] == buf;
      while q < |buf|
        invariant q <= |buf| && line.Length == cap + 1 && p <= cap
        invariant line == old(rawInput) || fresh(line)
        invariant skipNextLf ==> p == 0
        invariant EditItems(cap, Entry(commands, line[..p]), Items(buf[q..])) == EditItems(cap, e0, Items(buf))
        invariant output + Sent(Items(buf[q..])) == old(output) + Sent(Items(buf))
        decreases |buf| - q
      {
        var ch := buf[q];
        NextUnit(buf, q);
        if skipNextLf && ch == LF {
          EditData(cap, Entry(commands, line[..p]), LF, Items(buf[q + 1..]));
          SentData(LF, Items(buf[q + 1..]));
          EmptyLine(cap, Entry(commands, line[..p]), LF);
          skipNextLf := false;
          q := q + 1;
          continue;
        }
        skipNextLf := false;
        if ch == IAC && q + 1 < |buf| {
          var cmd := buf[q + 1];
          if cmd == IAC {
            q := q + 1;
          } else if WILL <= cmd <= DONT && q + 2 < |buf| {
            EditNegotiation(cap, Entry(commands, line[..p]), cmd, buf[q + 2], Items(buf[q + 3..]));
            Regroup(output, Reply(cmd, buf[q + 2]), Sent(Items(buf[q + 3..])));
            Answer(cmd, buf[q + 2]);
            q := q + 3;
            continue;
          } else {
            assert [] + Items(buf[q + 2..]) == Items(buf[q + 2..]);
            q := q + 2;
            continue;
          }
        }
        EditData(cap, Entry(commands, line[..p]), ch, Items(buf[q + 1..]));
        SentData(ch, Items(buf[q + 1..]));
        Regroup(output, if ch == DEL then [ERASE] else [], Sent(Items(buf[q + 1..])));
        line, p := Type(ch, line, p);
        skipNextLf := ch == CR;
        LineEnded(cap, ch);
        q := q + 1;
      }
      assert buf[q..] == [];
      NoItems(cap, Entry(commands, line[..p]));
      ProcessIs(cap, e0, buf);
      if p > 0 {
        rawInput, rawInputAt := line, p;
      } else {
        rawInput := null;
        rawInputAt := 0;
      }
    }

    /** The reads of a connection, one after the other. */
    method InputAll(parts: seq<seq<byte>>)
      requires Valid()
      modifies this, rawInput
      ensures Valid() && Entry(commands, Line()) == ProcessAll(cap, Entry(old(commands), old(Line())), parts)
    {
      hide Process;
      ghost var e0 := Entry(commands, Line());
      for i := 0 to |parts|
        invariant Valid() && (rawInput != old(rawInput) ==> rawInput == null || fresh(rawInput))
        invariant Entry(commands, Line()) == ProcessAll(cap, e0, parts[..i])
      {
        assert parts[..i + 1][..i] == parts[..i];
        InputProcess(parts[i]);
      }
      assert parts[..|parts|] == parts;
    }
  }

  lemma NoItems(cap: nat, e: Entry)
    ensures EditItems(cap, e, Items([])) == e && Process(cap, e, []) == e && Sent(Items([])) == []
  {
  }

  lemma ProcessIs(cap: nat, e: Entry, buf: seq<byte>)
    ensures Process(cap, e, buf) == EditItems(cap, e, Items(buf))
  {
  }

  lemma NextUnit(buf: seq<byte>, q: nat)
    requires q < |buf|
    ensures var s := buf[q..];
      && Items(s) == UnitItems(s) + Items(buf[q + UnitLength(s)..])
      && UnitItems(s) == (if buf[q] != IAC || q + 1 == |buf| then [Data(buf[q])]
                          else if buf[q + 1] == IAC then [Data(IAC)]
                          else if Negotiates(buf[q + 1]) && q + 2 < |buf| then [Negotiation(buf[q + 1], buf[q + 2])]
                          else [])
  {
    assert buf[q..][UnitLength(buf[q..])..] == buf[q + UnitLength(buf[q..])..];
  }

  lemma EmptyLine(cap: nat, e: Entry, b: byte)
    requires e.line == [] && (b == LF || b == CR)
    ensures Typed(cap, e, b) == e
  {
  }

  lemma LineEnded(cap: nat, b: byte)
    ensures b == CR ==> forall e: Entry :: Typed(cap, e, b).line == []
  {
  }

  lemma Regroup(a: seq<seq<byte>>, b: seq<seq<byte>>, d: seq<seq<byte>>)
    ensures a + (b + d) == (a + b) + d
    ensures a + ([] + d) == a + d
  {
  }
}
