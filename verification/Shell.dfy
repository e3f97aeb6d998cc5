/** The command text of a CRONLINE: what follows its five header fields. */
module Shells {
  import opened CommandLines

  const HASH := '#'

  function BeforeHash(line: string): (r: string)
    ensures HASH !in r
  {
    if line == [] || line[0] == HASH then [] else [line[0]] + BeforeHash(line[1..])
  }

  function TrimStart(s: string): string {
    if s != [] && Blank(s[0]) then TrimStart(s[1..]) else s
  }

  function TrimEnd(s: string): string {
    if s != [] && Blank(s[|s| - 1]) then TrimEnd(s[..|s| - 1]) else s
  }

  function FieldEnd(s: string): (i: nat)
    ensures i <= |s|
  {
    if s == [] || Blank(s[0]) then 0 else 1 + FieldEnd(s[1..])
  }

  /** Without its first `n` fields and the blanks after each. */
  function DropFields(s: string, n: nat): string
    decreases n
  {
    if n == 0 then s else DropFields(TrimStart(s[FieldEnd(s)..]), n - 1)
  }

  function Shell(line: string): string {
    TrimEnd(DropFields(TrimStart(BeforeHash(line)), 5))
  }

  method CommandText(line: string) returns (text: string)
    ensures text == Shell(line)
  {
    var rest := TrimStart(BeforeHash(line));
    for i := 0 to 5
      invariant DropFields(TrimStart(BeforeHash(line)), 5) == DropFields(rest, 5 - i)
    {
      rest := TrimStart(rest[FieldEnd(rest)..]);
    }
    text := TrimEnd(rest);
  }

  /** A header field: a word of its own. */
  predicate Field(s: string) {
    s != [] && !HasBlank(s) && HASH !in s
  }

  /** A command text: no '#', and no blank at its ends. */
  predicate CommandOnly(s: string) {
    HASH !in s && (s != [] ==> !Blank(s[0]) && !Blank(s[|s| - 1]))
  }

  /** Each field with the blanks after it. */
  function Header(fields: seq<string>, gaps: seq<string>): string
    requires |gaps| == |fields|
  {
    if fields == [] then [] else fields[0] + gaps[0] + Header(fields[1..], gaps[1..])
  }

  lemma {:induction false} BeforeHashIs(s: string, comment: string)
    requires HASH !in s && (comment == [] || comment[0] == HASH)
    ensures BeforeHash(s + comment) == s
    decreases s
  {
    if s == [] {
      assert s + comment == comment;
    } else {
      assert (s + comment)[1..] == s[1..] + comment;
      BeforeHashIs(s[1..], comment);
    }
  }

  lemma {:induction false} TrimStartIs(gap: string, s: string)
    requires AllBlank(gap) && (s == [] || !Blank(s[0]))
    ensures TrimStart(gap + s) == s
    decreases gap
  {
    if gap == [] {
      assert gap + s == s;
    } else {
      assert (gap + s)[1..] == gap[1..] + s;
      TrimStartIs(gap[1..], s);
    }
  }

  lemma {:induction false} TrimEndIs(s: string, gap: string)
    requires AllBlank(gap) && (s == [] || !Blank(s[|s| - 1]))
    ensures TrimEnd(s + gap) == s
    decreases gap
  {
    if gap == [] {
      assert s + gap == s;
    } else {
      var n := |gap| - 1;
      assert (s + gap)[..|s + gap| - 1] == s + gap[..n];
      assert (s + gap)[|s + gap| - 1] == gap[n];
      TrimEndIs(s, gap[..n]);
    }
  }

  lemma {:induction false} FieldEndIs(field: string, rest: string)
    requires !HasBlank(field) && (rest == [] || Blank(rest[0]))
    ensures FieldEnd(field + rest) == |field|
    decreases field
  {
    if field == [] {
      assert field + rest == rest;
    } else {
      assert (field + rest)[1..] == field[1..] + rest;
      assert !Blank(field[0]);
      forall i | 0 <= i < |field[1..]|
        ensures !Blank(field[1..][i])
      {
        assert field[1..][i] == field[i + 1];
      }
      FieldEndIs(field[1..], rest);
    }
  }

  /** Fields and the blanks after them, as a header may have them. */
  ghost predicate HeaderOf(fields: seq<string>, gaps: seq<string>, command: string) {
    && |gaps| == |fields|
    && (forall i :: 0 <= i < |fields| ==> Field(fields[i]) && AllBlank(gaps[i]))
    && (forall i :: 0 <= i < |gaps| ==> gaps[i] == [] ==> i == |gaps| - 1 && command == [])
  }

  lemma {:induction false} FieldsDropped(fields: seq<string>, gaps: seq<string>, command: string, trail: string)
    requires HeaderOf(fields, gaps, command) && CommandOnly(command)
    requires AllBlank(trail) && (command == [] ==> trail == [])
    ensures DropFields(Header(fields, gaps) + (command + trail), |fields|) == command + trail
    ensures HASH !in Header(fields, gaps)
    decreases |fields|
  {
    var end := command + trail;
    if fields == [] {
      assert Header(fields, gaps) + end == end;
    } else {
      var rest := Header(fields[1..], gaps[1..]) + end;
      var line := Header(fields, gaps) + end;
      assert line == fields[0] + (gaps[0] + rest);
      if gaps[0] == [] {
        assert |fields| == 1 && rest == [];
        assert gaps[0] + rest == [];
      }
      FieldEndIs(fields[0], gaps[0] + rest);
      assert line[|fields[0]|..] == gaps[0] + rest;
      assert rest == [] || !Blank(rest[0]) by {
        if |fields| > 1 {
          assert Field(fields[1]);
          assert rest[0] == fields[1][0];
          assert !Blank(fields[1][0]);
        } else {
          assert rest == end;
        }
      }
      TrimStartIs(gaps[0], rest);
      FieldsDropped(fields[1..], gaps[1..], command, trail);
      assert HASH !in gaps[0];
    }
  }

  /** Whatever its five header fields, the blanks between them and a comment
      after it, the command text comes back as it was written. */
  lemma ShellInvertsHeader(lead: string, fields: seq<string>, gaps: seq<string>, command: string,
                           trail: string, comment: string)
    requires AllBlank(lead) && |fields| == 5 && HeaderOf(fields, gaps, command) && CommandOnly(command)
    requires AllBlank(trail) && (command == [] ==> trail == [])
    requires comment == [] || comment[0] == HASH
    ensures Shell(lead + Header(fields, gaps) + command + trail + comment) == command
  {
    var body := Header(fields, gaps) + (command + trail);
    var line := lead + Header(fields, gaps) + command + trail;
    assert line == lead + body;
    FieldsDropped(fields, gaps, command, trail);
    assert HASH !in line;
    BeforeHashIs(line, comment);
    assert Field(fields[0]);
    assert body[0] == fields[0][0] && !Blank(fields[0][0]);
    TrimStartIs(lead, body);
    TrimEndIs(command, trail);
  }
}
