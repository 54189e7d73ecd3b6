/** What a user at the other end sees of the input: typing adds to the line, DEL takes the
    last byte back, an end of line enters the command, and nothing else does anything. */
module TelnetTyping {
  import opened TelnetSpec

  /** The bytes a command can hold: those that print, bell, tab and escape. */
  predicate Printing(b: byte) {
    0x20 <= b <= 0x7e || b == 0x07 || b == 0x09 || b == 0x1b
  }

  predicate Typeable(s: seq<byte>) {
    forall i :: 0 <= i < |s| ==> Printing(s[i])
  }

  function Dels(k: nat): (d: seq<byte>) {
    seq(k, _ => 127)
  }

  // ---- one byte

  lemma PlainByte(b: byte)
    requires b != IAC
    ensures Whole([b]) && Items([b]) == [Data(b)] && Strip([b]) == [b]
    ensures Filter([b]) == if Passes(b) then [b] else []
  {
    assert [b][1..] == [];
    assert Items([b]) == [Data(b)] + Items([]);
    assert DataOf([Data(b)]) == [b] + DataOf([]);
  }

  /** What each byte that is no command does. */
  lemma ByteTyped(cap: nat, e: Entry, b: byte)
    requires b != IAC
    ensures Process(cap, e, [b]) ==
      if Printing(b) then (if |e.line| < cap then e.(line := e.line + [b]) else e)
      else if b == 127 then (if e.line == [] then e else e.(line := e.line[..|e.line| - 1]))
      else if b == 13 || b == 10 then (if e.line == [] then e else Entry(e.commands + [e.line], []))
      else e
  {
    PlainByte(b);
    assert Edit(cap, e, []) == e;
    assert [b][1..] == [];
    assert Edit(cap, e, [b]) == EditByte(cap, e, b);
  }

  lemma {:induction false} PlainWhole(s: seq<byte>)
    requires forall i :: 0 <= i < |s| ==> s[i] != IAC
    ensures Whole(s)
    decreases |s|
  {
    if s != [] {
      PlainWhole(s[1..]);
    }
  }

  /** One byte more. */
  lemma TypedOn(cap: nat, e: Entry, s: seq<byte>, b: byte)
    requires forall i :: 0 <= i < |s| ==> s[i] != IAC
    ensures Process(cap, e, s + [b]) == Process(cap, Process(cap, e, s), [b])
  {
    PlainWhole(s);
    TwoReads(cap, e, s, [b]);
  }

  lemma NothingTyped(cap: nat, e: Entry)
    ensures Process(cap, e, []) == e
  {
  }

  // ---- text and erasing

  /** Text is added to the line as far as it fits. */
  lemma {:induction false} TextTyped(cap: nat, e: Entry, s: seq<byte>)
    requires Typeable(s) && |e.line| <= cap
    ensures Process(cap, e, s) == e.(line := e.line + s[..if |s| <= cap - |e.line| then |s| else cap - |e.line|])
    decreases |s|
  {
    hide Process;
    if s == [] {
      NothingTyped(cap, e);
      assert e.line + [] == e.line;
    } else {
      var n := |s| - 1;
      assert s == s[..n] + [s[n]];
      TextTyped(cap, e, s[..n]);
      TypedOn(cap, e, s[..n], s[n]);
      ByteTyped(cap, Process(cap, e, s[..n]), s[n]);
      if n < cap - |e.line| {
        assert s[..n][..n] == s[..n];
        assert e.line + s[..n] + [s[n]] == e.line + s;
        assert s[..|s|] == s;
      } else {
        assert s[..n][..cap - |e.line|] == s[..cap - |e.line|];
      }
    }
  }

  /** DELs take back as many bytes as there are, and never touch a command entered. */
  lemma {:induction false} DelsTyped(cap: nat, e: Entry, k: nat)
    ensures Process(cap, e, Dels(k)) == e.(line := e.line[..if k <= |e.line| then |e.line| - k else 0])
  {
    hide Process;
    if k == 0 {
      NothingTyped(cap, e);
      assert Dels(0) == [] && e.line[..|e.line|] == e.line;
    } else {
      assert Dels(k) == Dels(k - 1) + [DEL];
      DelsTyped(cap, e, k - 1);
      TypedOn(cap, e, Dels(k - 1), DEL);
      ByteTyped(cap, Process(cap, e, Dels(k - 1)), DEL);
      var l := if k - 1 <= |e.line| then |e.line| - (k - 1) else 0;
      if l > 0 {
        assert e.line[..l][..l - 1] == e.line[..l - 1];
      }
    }
  }

  /** Typing text that fits and then DELs leaves the line with what they do not reach. */
  lemma DelsUndo(cap: nat, e: Entry, s: seq<byte>, k: nat)
    requires Typeable(s) && |e.line| + |s| <= cap && k <= |s|
    ensures Process(cap, e, s + Dels(k)) == e.(line := e.line + s[..|s| - k])
  {
    hide Process;
    PlainWhole(s);
    TwoReads(cap, e, s, Dels(k));
    TextTyped(cap, e, s);
    assert s[..|s|] == s;
    DelsTyped(cap, Process(cap, e, s), k);
    assert (e.line + s)[..|e.line| + |s| - k] == e.line + s[..|s| - k];
  }

  /** As many DELs as there are bytes, or more, empty the line. */
  lemma DelsEmpty(cap: nat, e: Entry, k: nat)
    requires k >= |e.line|
    ensures Process(cap, e, Dels(k)) == e.(line := [])
  {
    DelsTyped(cap, e, k);
  }

  predicate LineEnd(s: seq<byte>) {
    s == [13] || s == [10] || s == [13, 10]
  }

  /** A line that is not empty is entered as one command, whichever way it ends. */
  lemma LineEntered(cap: nat, e: Entry, s: seq<byte>, end: seq<byte>)
    requires Typeable(s) && |e.line| + |s| <= cap && LineEnd(end)
    ensures Process(cap, e, s + end) == if e.line + s == [] then e else Entry(e.commands + [e.line + s], [])
  {
    hide Process;
    PlainWhole(s);
    TwoReads(cap, e, s, end);
    TextTyped(cap, e, s);
    assert s[..|s|] == s;
    var t := Process(cap, e, s);
    assert t == e.(line := e.line + s);
    ByteTyped(cap, t, end[0]);
    if |end| == 2 {
      assert end == [CR] + [LF];
      TypedOn(cap, t, [CR], LF);
      ByteTyped(cap, Process(cap, t, [CR]), LF);
    } else {
      assert end == [end[0]];
    }
  }

  // ---- what does nothing

  /** A byte that can neither be typed nor edits leaves no trace. */
  lemma ByteIgnored(cap: nat, e: Entry, b: byte, s: seq<byte>)
    requires !Printing(b) && b != 13 && b != 10 && b != 127 && b != 255
    ensures Process(cap, e, [b] + s) == Process(cap, e, s)
  {
    PlainByte(b);
    TwoReads(cap, e, [b], s);
    ByteTyped(cap, e, b);
  }

  /** Commands leave no trace in the line, the escaped 255 included. */
  lemma CommandIgnored(cap: nat, e: Entry, c: byte, o: byte, s: seq<byte>)
    ensures !(251 <= c <= 254) ==> Process(cap, e, [255, c] + s) == Process(cap, e, s)
    ensures 251 <= c <= 254 ==> Process(cap, e, [255, c, o] + s) == Process(cap, e, s)
  {
    var a := if Negotiates(c) then [IAC, c, o] else [IAC, c];
    assert a[|a|..] == [];
    assert Items(a) == UnitItems(a) + Items([]);
    assert Whole([]) && Whole(a);
    TwoReads(cap, e, a, s);
    assert [IAC][1..] == [];
    assert DataOf([Data(IAC)]) == [IAC] + DataOf([]);
    assert Filter([IAC]) == [];
    assert DataOf([Negotiation(c, o)]) == [];
    assert Filter(Strip(a)) == [];
  }

  // ---- what is sent back

  lemma {:induction false} SentAppend(a: seq<Item>, b: seq<Item>)
    ensures Sent(a + b) == Sent(a) + Sent(b)
  {
    if a == [] {
      assert a + b == b;
    } else {
      assert (a + b)[1..] == a[1..] + b;
      SentAppend(a[1..], b);
      hide Reply;
    }
  }

  /** Two reads are answered like one, unless a command is cut between them. */
  lemma AnswersAppend(a: seq<byte>, b: seq<byte>)
    requires Whole(a)
    ensures Sent(Items(a + b)) == Sent(Items(a)) + Sent(Items(b))
  {
    ItemsAppend(a, b);
    SentAppend(Items(a), Items(b));
  }

  /** A DEL is echoed as an erasure, other bytes are not echoed, and of the commands only a
      negotiation may be answered. */
  lemma AnswersTo(b: byte, c: byte, o: byte)
    ensures b != 255 ==> Sent(Items([b])) == if b == 127 then [[8, 32, 8]] else []
    ensures Sent(Items([255, c, o])) == (if 251 <= c <= 254 then Reply(c, o) else Sent(Items([o])))
  {
    if b != IAC {
      PlainByte(b);
      assert Sent([Data(b)]) == (if b == DEL then [ERASE] else []) + Sent([]);
    }
    var a := [IAC, c, o];
    if Negotiates(c) {
      assert a[3..] == [];
      assert Items(a) == [Negotiation(c, o)] + Items([]);
      assert Sent([Negotiation(c, o)]) == Reply(c, o) + Sent([]);
    } else {
      assert a[2..] == [o];
      var u := UnitItems(a);
      assert Items(a) == u + Items([o]);
      SentAppend(u, Items([o]));
      assert c == IAC ==> Sent([Data(IAC)]) == [] + Sent([]);
    }
  }

  /** An option is taken up exactly if it is line mode, asked of the server, or echo,
      offered by the client. The two the server announced itself need no answer, all
      others are turned down. (WILL, WONT, DO and DONT are 251 to 254.) */
  lemma TakenUp(cmd: byte, option: byte)
    ensures [255, 251, option] in Reply(cmd, option) <==> cmd == 253 && option == 34
    ensures [255, 253, option] in Reply(cmd, option) <==> cmd == 251 && option == 1
    ensures [255, 252, option] in Reply(cmd, option) <==> cmd == 253 && option != 34 && option != 3 && option != 0
    ensures [255, 254, option] in Reply(cmd, option) <==> cmd == 251 && option != 1
  {
    assert [IAC, WILL, option][1] == WILL && [IAC, WONT, option][1] == WONT;
    assert [IAC, DO, option][1] == DO && [IAC, DONT, option][1] == DONT;
  }
}
