/** The controller's input cut into lines, across reads. A line ends at LF or
    CR; the LF or NUL right after a CR belongs to the same line end (RFC 854,
    "The NVT Printer and Keyboard"). A line that still holds a NUL is skipped. */
module LineSplitters {
  import opened Seqs
  import Runs

  const NUL: byte := 0
  const LF: byte := 10
  const CR: byte := 13

  type Line = seq<byte>

  datatype Splitter = Splitter(partial: Line, afterCr: bool)

  const START := Splitter([], false)

  /** The splitter after one byte, and the line that byte completes, if any. */
  function Step(sp: Splitter, b: byte): (Splitter, seq<Line>) {
    if sp.afterCr && (b == LF || b == NUL) then
      (sp.(afterCr := false), [])
    else if b == LF || b == CR then
      (Splitter([], b == CR), if NUL in sp.partial then [] else [sp.partial])
    else
      (Splitter(sp.partial + [b], false), [])
  }

  function Run(sp: Splitter, data: seq<byte>): (Splitter, seq<Line>)
    decreases data
  {
    if data == [] then (sp, []) else
    var (next, first) := Step(sp, data[0]);
    var (end, rest) := Run(next, data[1..]);
    (end, first + rest)
  }

  lemma RunIterates()
    ensures Runs.Iterates(Run, Step)
  {
    forall sp, data: seq<byte> | data != []
      ensures Run(sp, data) == Runs.Joined(Step(sp, data[0]).1, Run(Step(sp, data[0]).0, data[1..]))
    {
    }
  }

  lemma RunAppend(sp: Splitter, a: seq<byte>, b: seq<byte>)
    ensures Run(sp, a + b) ==
            (Run(Run(sp, a).0, b).0, Run(sp, a).1 + Run(Run(sp, a).0, b).1)
  {
    RunIterates();
    Runs.RunsOn(Run, Step, sp, a, b);
  }

  lemma RunOne(sp: Splitter, b: byte)
    ensures Run(sp, [b]) == Step(sp, b)
  {
    assert [b][1..] == [];
    assert Step(sp, b).1 + [] == Step(sp, b).1;
  }

  lemma {:induction false} PendingGrowth(sp: Splitter, data: seq<byte>)
    ensures |Run(sp, data).0.partial| <= |sp.partial| + |data|
    decreases data
  {
    if data != [] {
      PendingGrowth(Step(sp, data[0]).0, data[1..]);
    }
  }

  class LineSplitter {
    var partial: Line
    var afterCr: bool

    function State(): Splitter
      reads this
    {
      Splitter(partial, afterCr)
    }

    constructor ()
      ensures State() == START
    {
      partial, afterCr := [], false;
    }

    method Feed(data: seq<byte>) returns (lines: seq<Line>)
      modifies this
      ensures (State(), lines) == Run(old(State()), data)
    {
      lines := [];
      for i := 0 to |data|
        invariant Run(old(State()), data[..i]) == (State(), lines)
      {
        var b := data[i];
        ghost var before := lines;
        RunAppend(old(State()), data[..i], [b]);
        RunOne(State(), b);
        assert data[..i + 1] == data[..i] + [b];
        assert before + [] == before;
        var endsCr := afterCr;
        afterCr := false;
        if endsCr && (b == LF || b == NUL) {
          continue;
        }
        if b == LF || b == CR {
          afterCr := b == CR;
          var line := partial;
          partial := [];
          if NUL in line {
            continue;
          }
          lines := lines + [line];
        } else {
          partial := partial + [b];
        }
      }
      assert data[..|data|] == data;
    }

    function Pending(): nat
      reads this
    {
      |partial|
    }
  }

  // ---------------------------------------------------------------------
  // The same lines, from the whole stream at once.

  /** Every line end as one LF. */
  function Unify(s: seq<byte>): seq<byte> {
    if s == [] then []
    else if s[0] == CR then
      [LF] + Unify(if |s| > 1 && (s[1] == LF || s[1] == NUL) then s[2..] else s[1..])
    else [s[0]] + Unify(s[1..])
  }

  function FirstLf(s: seq<byte>): (i: nat)
    ensures i <= |s| && LF !in s[..i] && (i < |s| ==> s[i] == LF)
  {
    if s == [] || s[0] == LF then 0 else 1 + FirstLf(s[1..])
  }

  /** The lines of a text whose line ends are LFs: those that have ended. */
  function Ended(s: seq<byte>): seq<Line> {
    var i := FirstLf(s);
    if i == |s| then [] else [s[..i]] + Ended(s[i + 1..])
  }

  /** What follows the last LF. */
  function Open(s: seq<byte>): Line
  {
    var i := FirstLf(s);
    if i == |s| then s else Open(s[i + 1..])
  }

  function WithoutNul(lines: seq<Line>): seq<Line> {
    if lines == [] then []
    else (if NUL in lines[0] then [] else [lines[0]]) + WithoutNul(lines[1..])
  }

  /** What is left of `s` once a line end's second byte is dropped. */
  function AfterCr(afterCr: bool, s: seq<byte>): seq<byte> {
    if afterCr && s != [] && (s[0] == LF || s[0] == NUL) then s[1..] else s
  }

  lemma FirstLfIs(p: Line, s: seq<byte>)
    requires LF !in p
    ensures FirstLf(p + s) == |p| + FirstLf(s)
  {
    if p == [] {
      assert p + s == s;
    } else {
      FirstLfIs(p[1..], s);
      assert (p + s)[1..] == p[1..] + s;
    }
  }

  lemma EndedLine(p: Line, s: seq<byte>)
    requires LF !in p
    ensures Ended(p + [LF] + s) == [p] + Ended(s)
    ensures Open(p + [LF] + s) == Open(s)
  {
    var whole := p + [LF] + s;
    assert whole == p + ([LF] + s);
    FirstLfIs(p, [LF] + s);
    assert FirstLf([LF] + s) == 0;
    assert whole[..|p|] == p && whole[|p| + 1..] == s;
  }

  lemma {:induction false} OpenOnly(p: Line)
    requires LF !in p
    ensures Ended(p) == [] && Open(p) == p
  {
    FirstLfIs(p, []);
    assert p + [] == p;
  }

  /** The unified text the splitter still has to cut: the line it holds, and
      the input to come. */
  function Ahead(sp: Splitter, data: seq<byte>): seq<byte> {
    sp.partial + Unify(AfterCr(sp.afterCr, data))
  }

  lemma UnifyEnd(b: byte, rest: seq<byte>)
    requires b == LF || b == CR
    ensures Unify([b] + rest) == [LF] + Unify(AfterCr(b == CR, rest))
  {
    var data := [b] + rest;
    assert data[1..] == rest;
    if b == CR && rest != [] {
      assert data[2..] == rest[1..];
    }
  }

  lemma AheadAtEnd(sp: Splitter, b: byte, rest: seq<byte>)
    requires LF !in sp.partial && (b == LF || b == CR)
    requires !(sp.afterCr && b == LF)
    ensures Ended(Ahead(sp, [b] + rest)) == [sp.partial] + Ended(Ahead(Splitter([], b == CR), rest))
    ensures Open(Ahead(sp, [b] + rest)) == Open(Ahead(Splitter([], b == CR), rest))
  {
    var next := Splitter([], b == CR);
    UnifyEnd(b, rest);
    assert AfterCr(sp.afterCr, [b] + rest) == [b] + rest;
    assert Ahead(next, rest) == Unify(AfterCr(b == CR, rest));
    assert Ahead(sp, [b] + rest) == sp.partial + [LF] + Ahead(next, rest);
    EndedLine(sp.partial, Ahead(next, rest));
  }

  lemma AheadInside(sp: Splitter, b: byte, rest: seq<byte>)
    requires (sp.afterCr && (b == LF || b == NUL)) || (b != LF && b != CR)
    ensures Ahead(sp, [b] + rest) == Ahead(Step(sp, b).0, rest)
  {
    var data := [b] + rest;
    assert data[1..] == rest;
    var next := Step(sp, b).0;
    assert AfterCr(next.afterCr, rest) == rest;
    if sp.afterCr && (b == LF || b == NUL) {
    } else {
      assert sp.partial + ([b] + Unify(rest)) == next.partial + Unify(rest);
    }
  }

  lemma WithoutNulCons(line: Line, lines: seq<Line>)
    ensures WithoutNul([line] + lines) == (if NUL in line then [] else [line]) + WithoutNul(lines)
  {
    assert ([line] + lines)[1..] == lines;
  }

  /** The splitter gives the lines of the unified stream, less those with a
      NUL in them, and keeps what has not ended. */
  lemma {:induction false} RunIsBatch(sp: Splitter, data: seq<byte>)
    requires LF !in sp.partial
    ensures Run(sp, data).1 == WithoutNul(Ended(Ahead(sp, data)))
    ensures Run(sp, data).0.partial == Open(Ahead(sp, data))
    decreases |data|
  {
    if data == [] {
      assert Ahead(sp, data) == sp.partial;
      OpenOnly(sp.partial);
    } else {
      var b, rest := data[0], data[1..];
      var (next, first) := Step(sp, b);
      RunIsBatch(next, rest);
      assert data == [b] + rest;
      if (sp.afterCr && (b == LF || b == NUL)) || (b != LF && b != CR) {
        AheadInside(sp, b, rest);
        assert first + Run(next, rest).1 == Run(next, rest).1;
      } else {
        AheadAtEnd(sp, b, rest);
        WithoutNulCons(sp.partial, Ended(Ahead(next, rest)));
      }
    }
  }
}
