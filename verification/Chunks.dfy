/** However the network cuts the stream into reads, the controller sees the
    same conversation. */
module Chunks {
  import opened Seqs
  import opened Sessions
  import opened Connections
  import TelnetFilters
  import LineSplitters
  import Runs

  /** A session and its channel as one machine. */
  function Lined(env: Env, s: (State, Channel), lines: seq<string>): ((State, Channel), seq<Event>) {
    var (end, left, log) := ChannelRun(env, s.0, s.1, lines);
    ((end, left), log)
  }

  function OneLined(env: Env, s: (State, Channel), line: string): ((State, Channel), seq<Event>) {
    var (next, left, log) := ChannelStep(env, s.0, s.1, line);
    ((next, left), log)
  }

  lemma LinedIterates(env: Env)
    ensures Runs.Iterates((s, lines) => Lined(env, s, lines), (s, line) => OneLined(env, s, line))
  {
    forall s, lines: seq<string> | lines != []
      ensures Lined(env, s, lines) ==
              Runs.Joined(OneLined(env, s, lines[0]).1, Lined(env, OneLined(env, s, lines[0]).0, lines[1..]))
    {
    }
  }

  lemma ChannelRunAppend(env: Env, st: State, chan: Channel, a: seq<string>, b: seq<string>)
    ensures ChannelRun(env, st, chan, a + b) ==
            Resumed(env, ChannelRun(env, st, chan, a).0, ChannelRun(env, st, chan, a).1, b,
                    ChannelRun(env, st, chan, a).2)
  {
    LinedIterates(env);
    Runs.RunsOn((s, lines) => Lined(env, s, lines), (s, line) => OneLined(env, s, line), (st, chan), a, b);
    assert Lined(env, (st, chan), a + b) ==
           Runs.Joined(Lined(env, (st, chan), a).1, Lined(env, Lined(env, (st, chan), a).0, b));
  }

  lemma ReadStepAppend(env: Env, c: Conn, a: seq<byte>, b: seq<byte>)
    ensures var (mid, out) := ReadStep(env, c, a);
            var (end, more) := ReadStep(env, mid, b);
            ReadStep(env, c, a + b) == (end, out + more)
  {
    var (mid, _) := ReadStep(env, c, a);
    var (filter, bytes) := TelnetFilters.Run(c.filter, a);
    var (_, bytes') := TelnetFilters.Run(filter, b);
    TelnetFilters.RunAppend(c.filter, a, b);
    LineSplitters.RunAppend(c.splitter, bytes, bytes');
    var (splitter, lines) := LineSplitters.Run(c.splitter, bytes);
    var (_, lines') := LineSplitters.Run(splitter, bytes');
    TextsAppend(lines, lines');
    ChannelRunAppend(env, c.session, c.chan, Texts(lines), Texts(lines'));
  }

  lemma LinesAppend(env: Env, c: Conn, a: seq<byte>, b: seq<byte>)
    ensures LinesIn(c, a + b) == LinesIn(c, a) + LinesIn(ReadStep(env, c, a).0, b)
  {
    var (filter, bytes) := TelnetFilters.Run(c.filter, a);
    var (_, bytes') := TelnetFilters.Run(filter, b);
    TelnetFilters.RunAppend(c.filter, a, b);
    LineSplitters.RunAppend(c.splitter, bytes, bytes');
    var (splitter, lines) := LineSplitters.Run(c.splitter, bytes);
    TextsAppend(lines, LineSplitters.Run(splitter, bytes').1);
  }

  lemma ReadNothing(env: Env, c: Conn)
    ensures ReadStep(env, c, []) == (c, []) && LinesIn(c, []) == []
  {
    assert Texts([]) == [];
  }

  lemma ReadClosed(env: Env, c: Conn, data: seq<byte>)
    requires c.session == OVER
    ensures ReadStep(env, c, data).1 == []
  {
    OverRun(env, c.chan, Texts(LineSplitters.Run(c.splitter, TelnetFilters.Run(c.filter, data).1).1));
  }

  lemma {:induction false} ClosedIsOver(env: Env, st: State, chan: Channel, lines: seq<string>)
    requires st.phase == Closed ==> st == OVER
    ensures ChannelRun(env, st, chan, lines).0.phase == Closed ==> ChannelRun(env, st, chan, lines).0 == OVER
    decreases lines
  {
    if lines != [] {
      var (next, left, _) := ChannelStep(env, st, chan, lines[0]);
      ClosedIsOver(env, next, left, lines[1..]);
    }
  }

  // ---------------------------------------------------------------------
  // The stream as a whole

  function Strip(stream: seq<byte>): seq<byte> {
    TelnetFilters.Run(TelnetFilters.Normal, stream).1
  }

  function StreamLines(stream: seq<byte>): seq<string> {
    Texts(LineSplitters.WithoutNul(LineSplitters.Ended(LineSplitters.Unify(Strip(stream)))))
  }

  /** No line of the text is over the limit, ended or not. */
  ghost predicate ShortText(text: seq<byte>) {
    && (forall line :: line in LineSplitters.Ended(text) ==> |line| <= MAX_LINE_LEN)
    && |LineSplitters.Open(text)| <= MAX_LINE_LEN
  }

  ghost predicate ShortLines(stream: seq<byte>) {
    ShortText(LineSplitters.Unify(Strip(stream)))
  }

  lemma ShortBegins(p: LineSplitters.Line, text: seq<byte>)
    requires LineSplitters.LF !in p && ShortText(p + text)
    ensures |p| <= MAX_LINE_LEN
  {
    var whole := p + text;
    var i := LineSplitters.FirstLf(whole);
    LineSplitters.FirstLfIs(p, text);
    if i == |whole| {
      assert LineSplitters.Open(whole) == whole;
    } else {
      assert LineSplitters.Ended(whole)[0] == whole[..i];
      assert whole[..i] in LineSplitters.Ended(whole);
    }
  }

  /** On a stream of short lines the splitter never holds more than the limit. */
  lemma {:induction false} ShortPending(sp: LineSplitters.Splitter, a: seq<byte>, b: seq<byte>)
    requires LineSplitters.LF !in sp.partial && ShortText(LineSplitters.Ahead(sp, a + b))
    ensures |LineSplitters.Run(sp, a).0.partial| <= MAX_LINE_LEN
    ensures LineSplitters.LF !in LineSplitters.Run(sp, a).0.partial
    ensures ShortText(LineSplitters.Ahead(LineSplitters.Run(sp, a).0, b))
    decreases a
  {
    if a == [] {
      assert a + b == b;
      ShortBegins(sp.partial, LineSplitters.Unify(LineSplitters.AfterCr(sp.afterCr, b)));
    } else {
      var c, rest := a[0], a[1..];
      assert a + b == [c] + (rest + b);
      var next := LineSplitters.Step(sp, c).0;
      if (sp.afterCr && (c == LineSplitters.LF || c == LineSplitters.NUL))
         || (c != LineSplitters.LF && c != LineSplitters.CR) {
        LineSplitters.AheadInside(sp, c, rest + b);
      } else {
        LineSplitters.AheadAtEnd(sp, c, rest + b);
        var ended := LineSplitters.Ended(LineSplitters.Ahead(next, rest + b));
        forall line | line in ended
          ensures |line| <= MAX_LINE_LEN
        {
          assert line in [sp.partial] + ended;
        }
      }
      ShortPending(next, rest, b);
    }
  }

  /** The connection `c` can take `stream` without an overlong line. */
  ghost predicate Fits(c: Conn, stream: seq<byte>) {
    && LineSplitters.LF !in c.splitter.partial
    && ShortText(LineSplitters.Ahead(c.splitter, TelnetFilters.Run(c.filter, stream).1))
  }

  lemma FitsOn(env: Env, c: Conn, a: seq<byte>, b: seq<byte>)
    requires Fits(c, a + b)
    ensures var next := ReadStep(env, c, a).0;
            |next.splitter.partial| <= MAX_LINE_LEN && Fits(next, b)
  {
    var (filter, bytes) := TelnetFilters.Run(c.filter, a);
    TelnetFilters.RunAppend(c.filter, a, b);
    ShortPending(c.splitter, bytes, TelnetFilters.Run(filter, b).1);
  }

  /** A read that closes the session is the last that does anything. */
  lemma ReadThenClosed(env: Env, c: Conn, first: seq<byte>, rest: seq<byte>)
    requires c.session.phase != Closed && ReadStep(env, c, first).0.session.phase == Closed
    ensures ReadStep(env, c, first + rest).1 == ReadStep(env, c, first).1
  {
    var (next, log) := ReadStep(env, c, first);
    var lines := Texts(LineSplitters.Run(c.splitter, TelnetFilters.Run(c.filter, first).1).1);
    ClosedIsOver(env, c.session, c.chan, lines);
    ReadStepAppend(env, c, first, rest);
    ReadClosed(env, next, rest);
    assert log + [] == log;
  }

  /** Every chunk of a stream is read, and none is the end of input. */
  ghost predicate NoEmpty(chunks: seq<seq<byte>>) {
    forall i :: 0 <= i < |chunks| ==> chunks[i] != []
  }

  lemma FirstNOfTwo<T>(a: seq<T>, b: seq<T>, n: nat)
    ensures FirstN(a + b, n) == if n < |a| then a[..n] else a + FirstN(b, n - |a|)
  {
  }

  /** The lines a connection takes are the first `left` of its stream's. */
  lemma {:induction false} ServedAsOne(env: Env, c: Conn, chunks: seq<seq<byte>>, left: nat)
    requires NoEmpty(chunks)
    requires Fits(c, Flatten(chunks)) && c.session.phase != Closed
    ensures Served(env, c, chunks, left).1 ==
            ChannelRun(env, c.session, c.chan, FirstN(LinesIn(c, Flatten(chunks)), left)).2
    ensures Served(env, c, chunks, left).2 != Overflow
    decreases chunks
  {
    if chunks == [] {
      ReadNothing(env, c);
      assert FirstN(LinesIn(c, []), left) == [];
    } else {
      var first, rest := chunks[0], Flatten(chunks[1..]);
      var next, got := ReadStep(env, c, first).0, LinesIn(c, first);
      FitsOn(env, c, first, rest);
      LinesAppend(env, c, first, rest);
      FirstNOfTwo(got, LinesIn(next, rest), left);
      if left >= |got| {
        ChannelRunAppend(env, c.session, c.chan, got, FirstN(LinesIn(next, rest), left - |got|));
        if next.session.phase == Closed {
          ClosedIsOver(env, c.session, c.chan, got);
          OverRun(env, next.chan, FirstN(LinesIn(next, rest), left - |got|));
          assert ReadStep(env, c, first).1 + [] == ReadStep(env, c, first).1;
        } else {
          ServedAsOne(env, next, chunks[1..], left - |got|);
        }
      }
    }
  }

  /** What a connection does is its conversation over the stream's lines, IAC
      sequences stripped and line ends unified, as many as it takes before a
      newer session takes over, up to the first command the channel
      refuses. */
  lemma ServedIsConversation(env: Env, chan: Channel, chunks: seq<seq<byte>>, left: nat)
    requires NoEmpty(chunks)
    requires ShortLines(Flatten(chunks))
    ensures Served(env, Fresh(chan), chunks, left).1 ==
            Deliver(chan, Conversation(env, FirstN(StreamLines(Flatten(chunks)), left))).1
    ensures Served(env, Fresh(chan), chunks, left).2 != Overflow
  {
    var c, stream := Fresh(chan), Flatten(chunks);
    var bytes := Strip(stream);
    assert LineSplitters.Ahead(LineSplitters.START, bytes) == LineSplitters.Unify(bytes);
    ServedAsOne(env, c, chunks, left);
    LineSplitters.RunIsBatch(LineSplitters.START, bytes);
    var lines := FirstN(StreamLines(stream), left);
    ChannelCutsTheLog(env, START, chan, lines);
    RunIsConversation(env, lines);
  }

  /** Two ways to cut the same stream give the same replies and commands. */
  lemma ChunkInvariance(env: Env, chan: Channel, a: seq<seq<byte>>, b: seq<seq<byte>>, left: nat)
    requires NoEmpty(a) && NoEmpty(b)
    requires Flatten(a) == Flatten(b) && ShortLines(Flatten(a))
    ensures Served(env, Fresh(chan), a, left).1 == Served(env, Fresh(chan), b, left).1
  {
    ServedIsConversation(env, chan, a, left);
    ServedIsConversation(env, chan, b, left);
  }

  lemma ReadPending(env: Env, c: Conn, data: seq<byte>)
    ensures |ReadStep(env, c, data).0.splitter.partial| <= |c.splitter.partial| + |data|
  {
    StripShrinks(c.filter, data);
    LineSplitters.PendingGrowth(c.splitter, TelnetFilters.Run(c.filter, data).1);
  }

  /** On any stream, in reads of at most 4096 bytes, the line not yet ended
      never holds more than the limit and one read. */
  lemma {:induction false} PendingBounded(env: Env, c: Conn, chunks: seq<seq<byte>>, left: nat)
    requires |c.splitter.partial| <= MAX_LINE_LEN
    requires forall chunk :: chunk in chunks ==> |chunk| <= READ_SIZE
    ensures var (end, _, how) := Served(env, c, chunks, left);
            && |end.splitter.partial| <= MAX_LINE_LEN + READ_SIZE
            && (how == Overflow <==>
                |end.splitter.partial| > MAX_LINE_LEN && end.session.phase != Closed && how != TakenOver)
    decreases chunks
  {
    if chunks != [] && chunks[0] != [] {
      ReadPending(env, c, chunks[0]);
      assert chunks[0] in chunks;
      var next, got := ReadStep(env, c, chunks[0]).0, |LinesIn(c, chunks[0])|;
      if got <= left && next.session.phase != Closed && |next.splitter.partial| <= MAX_LINE_LEN {
        PendingBounded(env, next, chunks[1..], left - got);
      }
    }
  }

  lemma {:induction false} StripShrinks(st: TelnetFilters.FilterState, data: seq<byte>)
    ensures |TelnetFilters.Run(st, data).1| <= |data|
    decreases data
  {
    if data != [] {
      StripShrinks(TelnetFilters.NextState(st, data[0]), data[1..]);
    }
  }
}
