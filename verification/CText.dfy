/** Numbers as text, written by "%d" and read by atoi, and the width of an int. */
module CText {
  function Digits(n: nat): (d: string)
    ensures |d| >= 1
  {
    if n < 10 then [(48 + n) as char] else Digits(n / 10) + [(48 + n % 10) as char]
  }

  /** "%d" */
  function Decimal(n: int): (d: string)
    ensures |d| >= 1
  {
    if n >= 0 then Digits(n) else "-" + Digits(-n)
  }

  predicate IsSpace(ch: char) {
    ch == ' ' || 9 as char <= ch <= 13 as char
  }

  predicate IsDigit(ch: char) {
    '0' <= ch <= '9'
  }

  function AtoiDigits(s: string, acc: nat): nat {
    if s == "" || !IsDigit(s[0]) then acc else AtoiDigits(s[1..], 10 * acc + (s[0] as int - 48))
  }

  /** atoi, without its undefined behaviour on overflow. */
  function Atoi(s: string): int {
    if s == "" then 0
    else if IsSpace(s[0]) then Atoi(s[1..])
    else if s[0] == '-' then 0 - AtoiDigits(s[1..], 0)
    else if s[0] == '+' then AtoiDigits(s[1..], 0)
    else AtoiDigits(s, 0)
  }

  predicate AllDigits(s: string) {
    forall i :: 0 <= i < |s| ==> IsDigit(s[i])
  }

  lemma {:induction false} AtoiSnoc(s: string, ch: char, acc: nat)
    requires AllDigits(s) && IsDigit(ch)
    ensures AtoiDigits(s + [ch], acc) == 10 * AtoiDigits(s, acc) + (ch as int - 48)
  {
    if s == "" {
      assert s + [ch] == [ch];
    } else {
      assert (s + [ch])[1..] == s[1..] + [ch];
      AtoiSnoc(s[1..], ch, 10 * acc + (s[0] as int - 48));
    }
  }

  lemma {:induction false} DigitsRead(n: nat)
    ensures AllDigits(Digits(n)) && AtoiDigits(Digits(n), 0) == n
  {
    if n >= 10 {
      DigitsRead(n / 10);
      AtoiSnoc(Digits(n / 10), (48 + n % 10) as char, 0);
    }
  }

  /** Decimal text holds none of the characters that end a parameter or a sequence. */
  lemma DecimalRead(n: int)
    ensures Atoi(Decimal(n)) == n
    ensures forall i :: 0 <= i < |Decimal(n)| ==> Decimal(n)[i] != ';' && Decimal(n)[i] != 'm'
  {
    DigitsRead(if n >= 0 then n else -n);
    if n < 0 {
      assert Decimal(n)[1..] == Digits(-n);
    }
  }

  /** A space, or one of the five control characters from tab to carriage return. */
  predicate White(ch: char) {
    ch as int == 32 || 9 <= ch as int <= 13
  }

  /** What atoi makes of a number with blanks in front, a sign, and anything behind. */
  lemma {:induction false} AtoiBlank(sp: string, s: string)
    requires forall i :: 0 <= i < |sp| ==> White(sp[i])
    ensures Atoi(sp + s) == Atoi(s)
  {
    if sp == "" {
      assert sp + s == s;
    } else {
      assert (sp + s)[1..] == sp[1..] + s;
      AtoiBlank(sp[1..], s);
    }
  }

  lemma {:induction false} DigitsStop(d: string, rest: string, acc: nat)
    requires AllDigits(d) && (rest == "" || !('0' <= rest[0] <= '9'))
    ensures AtoiDigits(d + rest, acc) == AtoiDigits(d, acc)
  {
    if d == "" {
      assert d + rest == rest;
    } else {
      assert (d + rest)[1..] == d[1..] + rest;
      DigitsStop(d[1..], rest, 10 * acc + (d[0] as int - 48));
    }
  }

  lemma AtoiSigned(n: nat, rest: string)
    requires rest == "" || !('0' <= rest[0] <= '9')
    ensures Atoi(Digits(n) + rest) == n
    ensures Atoi("+" + (Digits(n) + rest)) == n && Atoi("-" + (Digits(n) + rest)) == 0 - n
  {
    hide AtoiDigits, Digits;
    var d := Digits(n);
    DigitsRead(n);
    DigitsStop(d, rest, 0);
    var s := d + rest;
    assert s[0] == d[0] && IsDigit(d[0]);
    assert ("+" + s)[1..] == s && ("-" + s)[1..] == s;
  }

  /** A text that starts with none of these is no number. */
  lemma AtoiNone(s: string)
    requires s == "" || !(White(s[0]) || s[0] == '+' || s[0] == '-' || '0' <= s[0] <= '9')
    ensures Atoi(s) == 0
  {
  }

  /** Conversion of a long to an int keeps the low 32 bits. */
  function ToInt(x: int): (r: int)
    ensures -0x8000_0000 <= r <= 0x7fff_ffff
    ensures -0x8000_0000 <= x <= 0x7fff_ffff ==> r == x
  {
    (x + 0x8000_0000) % 0x1_0000_0000 - 0x8000_0000
  }
}
