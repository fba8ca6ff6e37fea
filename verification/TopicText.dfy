/**
 Reading a topic: what its text says, by splitting it into words and taking
 numbers as numbers.  Nothing here knows how topics are made.
 */
module TopicText {

  function DigitValue(c: char): nat {
    if '0' <= c <= '9' then (c - '0') as nat else 0
  }

  function Value(s: string): nat {
    if s == [] then 0 else 10 * Value(s[..|s| - 1]) + DigitValue(s[|s| - 1])
  }

  function IntValue(s: string): int {
    if s != [] && s[0] == '-' then 0 - Value(s[1..]) as int else Value(s)
  }

  /** The pieces of `s` between the separators. */
  function Split(s: string, sep: char): (ws: seq<string>)
    ensures ws != []
  {
    if s == [] then [""]
    else
      var ws := Split(s[1..], sep);
      if s[0] == sep then [""] + ws else [[s[0]] + ws[0]] + ws[1..]
  }

  function Field(a: string, sep: char, rest: string): string {
    a + [sep] + rest
  }

  lemma {:induction false} SplitOne(a: string, sep: char)
    requires sep !in a
    ensures Split(a, sep) == [a]
  {
    if a != [] {
      SplitOne(a[1..], sep);
      assert [a[0]] + a[1..] == a;
    }
  }

  /** What a separator ends is the first piece. */
  lemma {:induction false} SplitField(a: string, sep: char, rest: string)
    requires sep !in a
    ensures Split(Field(a, sep, rest), sep) == [a] + Split(rest, sep)
  {
    var s := Field(a, sep, rest);
    if a == [] {
      assert s[1..] == rest;
    } else {
      SplitField(a[1..], sep, rest);
      assert s[1..] == Field(a[1..], sep, rest);
      assert [a[0]] + a[1..] == a;
    }
  }

  /** What a topic says; addresses are left as they are printed. */
  datatype Reading =
    | UnicastText(dest: string, dstLen: nat, scope: nat, table: nat)
    | MulticastText(iif: int, oif: int, group: string, dstLen: nat, origin: string, srcLen: nat, table: nat)
    | MplsText(lbl: nat)
    | Unreadable

  /** An address, a slash and a length. */
  predicate IsPrefix(w: string) {
    |Split(w, '/')| == 2
  }

  function Address(w: string): string {
    Split(w, '/')[0]
  }

  function Length(w: string): nat
    requires IsPrefix(w)
  {
    Value(Split(w, '/')[1])
  }

  function ReadTopic(s: string): Reading {
    var w := Split(s, ' ');
    if |w| == 4 && w[0] == "r" && IsPrefix(w[1]) then
      UnicastText(Address(w[1]), Length(w[1]), Value(w[2]), Value(w[3]))
    else if |w| == 6 && w[0] == "route" && IsPrefix(w[3]) && IsPrefix(w[4]) then
      MulticastText(IntValue(w[1]), IntValue(w[2]), Address(w[3]), Length(w[3]), Address(w[4]), Length(w[4]), Value(w[5]))
    else if |w| == 2 && w[0] == "route-mpls" then MplsText(Value(w[1]))
    else Unreadable
  }

  /** The numbers between the dots. */
  function Quad(s: string): seq<nat> {
    var ws := Split(s, '.');
    seq(|ws|, i requires 0 <= i < |ws| => Value(ws[i]))
  }
}
