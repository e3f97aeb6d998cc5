/** A controller connection: bytes through the telnet filter and the line
    splitter into the session, read by read. */
module Connections {
  import opened Seqs
  import opened Commands
  import opened Sessions
  import TelnetFilters
  import LineSplitters

  const MAX_LINE_LEN: nat := 256 * 1024
  const READ_SIZE: nat := 4096

  /** A line's bytes as text. */
  function Text(line: LineSplitters.Line): string {
    seq(|line|, i requires 0 <= i < |line| => line[i] as char)
  }

  function Texts(lines: seq<LineSplitters.Line>): seq<string> {
    seq(|lines|, i requires 0 <= i < |lines| => Text(lines[i]))
  }

  lemma TextsAppend(a: seq<LineSplitters.Line>, b: seq<LineSplitters.Line>)
    ensures Texts(a + b) == Texts(a) + Texts(b)
  {
  }

  datatype Conn = Conn(
    filter: TelnetFilters.FilterState,
    splitter: LineSplitters.Splitter,
    session: State,
    chan: Channel)

  function Fresh(chan: Channel): Conn {
    Conn(TelnetFilters.Normal, LineSplitters.START, START, chan)
  }

  function ReadStep(env: Env, c: Conn, data: seq<byte>): (Conn, seq<Event>) {
    var (filter, bytes) := TelnetFilters.Run(c.filter, data);
    var (splitter, lines) := LineSplitters.Run(c.splitter, bytes);
    var (session, chan, log) := ChannelRun(env, c.session, c.chan, Texts(lines));
    (Conn(filter, splitter, session, chan), log)
  }

  /** The lines a read ends. */
  function LinesIn(c: Conn, data: seq<byte>): seq<string> {
    Texts(LineSplitters.Run(c.splitter, TelnetFilters.Run(c.filter, data).1).1)
  }

  /** A read of which only `left` lines are taken. */
  function ReadPart(env: Env, c: Conn, data: seq<byte>, left: nat): (Conn, seq<Event>)
    requires left <= |LinesIn(c, data)|
  {
    var next := ReadStep(env, c, data).0;
    var (session, chan, log) := ChannelRun(env, c.session, c.chan, LinesIn(c, data)[..left]);
    (next.(session := session, chan := chan), log)
  }

  /** How a connection is over: the stream or the session ended, a line not yet
      ended grew too long, or a newer session took over. */
  datatype End = Finished | Overflow | TakenOver

  /** A connection that takes `left` lines before it sees a newer session: there
      is none if that is all its lines. */
  function Served(env: Env, c: Conn, chunks: seq<seq<byte>>, left: nat): (Conn, seq<Event>, End)
    decreases chunks
  {
    if chunks == [] || chunks[0] == [] then (c, [], Finished)
    else if left < |LinesIn(c, chunks[0])| then
      var (next, log) := ReadPart(env, c, chunks[0], left);
      (next, log, if next.session.phase == Closed then Finished else TakenOver)
    else
      var (next, log) := ReadStep(env, c, chunks[0]);
      if next.session.phase == Closed then (next, log, Finished)
      else if |next.splitter.partial| > MAX_LINE_LEN then (next, log, Overflow)
      else
        var (end, rest, how) := Served(env, next, chunks[1..], left - |LinesIn(c, chunks[0])|);
        (end, log + rest, how)
  }

  class Connection {
    const filter: TelnetFilters.TelnetFilter
    const lines: LineSplitters.LineSplitter
    var phase: Phase
    var crontab: Option<CrontabSpec>
    var chan: Channel

    ghost function Value(): Conn
      reads this, filter, lines
    {
      Conn(filter.state, lines.State(), State(phase, crontab), chan)
    }

    constructor (chan: Channel)
      ensures fresh(filter) && fresh(lines)
      ensures Value() == Fresh(chan)
    {
      filter := new TelnetFilters.TelnetFilter();
      lines := new LineSplitters.LineSplitter();
      phase, crontab := GetLoginName, None;
      this.chan := chan;
    }

    /** Hand a command to the probe; false once the channel is closed. */
    method Forward(command: Command) returns (ok: bool, sent: seq<Event>)
      modifies this`chan
      ensures (chan, sent, ok) == Deliver(old(chan), [Sent(command)])
    {
      DeliverOne(chan, Sent(command));
      match chan
      case Absent => ok, sent := true, [];
      case Room(left) =>
        if left == 0 {
          ok, sent := false, [];
        } else {
          chan := Room(left - 1);
          ok, sent := true, [Sent(command)];
        }
    }

    /** One line; false once it ended the session. */
    method TakeLine(env: Env, line: string) returns (going: bool, log: seq<Event>)
      modifies this`phase, this`crontab, this`chan
      ensures (State(phase, crontab), chan, log) ==
              ChannelStep(env, State(old(phase), old(crontab)), old(chan), line)
      ensures going <==> phase != Closed
    {
      log := [];
      going := phase != Closed;
      if phase == GetLoginName {
        if line == ATLAS_LOGIN {
          log := [Replied(PASSWORD_PROMPT)];
          phase := GetPassword(0);
        } else {
          log := [Replied(line)];
          phase, crontab := Closed, None;
          going := false;
        }
        DeliverReplies(chan, log);
      } else if phase.GetPassword? {
        if env.sessionId(phase.tries) == Some(line) {
          phase := GetCmd;
        } else {
          log := [Replied(BAD_PASSWORD)];
          phase := GetPassword(phase.tries + 1);
        }
        DeliverReplies(chan, log);
      } else if phase == DoCrontab && Cronline(line) {
        if crontab.Some? && |crontab.value.lines| < CRONTAB_MAX_LINES {
          crontab := Some(Grown(crontab.value, TakenLine(env, line)));
        }
      } else if phase == GetCmd || phase == DoCrontab {
        going, log := TakeRequestLine(env, line);
      } else if phase == EomSeen {
        log := [Replied(BAD_COMMAND)];
        DeliverReplies(chan, log);
      }
    }

    method TakeRequestLine(env: Env, line: string) returns (going: bool, log: seq<Event>)
      requires phase == GetCmd || (phase == DoCrontab && !Cronline(line))
      modifies this`phase, this`crontab, this`chan
      ensures (State(phase, crontab), chan, log) ==
              ChannelStep(env, State(old(phase), old(crontab)), old(chan), line)
      ensures going <==> phase != Closed
    {
      ghost var st, start := State(phase, crontab), chan;
      RequestByParts(env, st, start, line);
      log, going := [], true;
      if crontab.Some? {
        going, log := Forward(Crontab(crontab.value));
        crontab := None;
      }
      ghost var (mid, first, ok) := Deliver(start, EndedEvents(st));
      assert (chan, log, going) == (mid, first, ok);
      if !going {
        phase := Closed;
        return;
      }
      var (reply, taken, next) := RequestLine(env, line);
      if reply.Some? {
        log := log + [Replied(reply.value)];
      }
      ghost var answered := log;
      assert answered == first + ReplyEvents(reply) && answered + [] == answered;
      if taken.Opens? {
        crontab := Some(CrontabSpec(taken.dir, []));
      } else if taken.Hands? {
        var sent;
        going, sent := Forward(Single(taken.parsed));
        log := log + sent;
      }
      ghost var (end, last, all) := Deliver(mid, HandedEvents(taken));
      assert chan == end && log == answered + last && going == all;
      phase := if going then next else Closed;
    }

    /** The lines of one read, until one ends the session. */
    method TakeLines(env: Env, got: seq<LineSplitters.Line>) returns (log: seq<Event>)
      requires phase != Closed
      modifies this`phase, this`crontab, this`chan
      ensures (State(phase, crontab), chan, log) ==
              ChannelRun(env, State(old(phase), old(crontab)), old(chan), Texts(got))
    {
      log := [];
      assert got[0..] == got;
      assert [] + ChannelRun(env, State(phase, crontab), chan, Texts(got)).2
          == ChannelRun(env, State(phase, crontab), chan, Texts(got)).2;
      for i := 0 to |got|
        invariant phase != Closed
        invariant ChannelRun(env, State(old(phase), old(crontab)), old(chan), Texts(got)) ==
                  Resumed(env, State(phase, crontab), chan, Texts(got[i..]), log)
      {
        ghost var st, left, logged := State(phase, crontab), chan, log;
        assert Texts(got[i..])[0] == Text(got[i]) && Texts(got[i..])[1..] == Texts(got[i + 1..]);
        var going, more := TakeLine(env, Text(got[i]));
        ResumedStep(env, st, left, Texts(got[i..]), logged);
        log := log + more;
        if !going {
          assert State(phase, crontab) == OVER;
          OverRun(env, chan, Texts(got[i + 1..]));
          assert log + [] == log;
          return;
        }
      }
      assert Texts(got[|got|..]) == [] && log + [] == log;
    }

    /** Read after read, until one is empty, the session ends, a line not yet
        ended is too long, or, `left` lines from here, a newer session is
        seen. */
    method Serve(env: Env, chunks: seq<seq<byte>>, left: nat) returns (log: seq<Event>, end: End)
      requires phase != Closed
      modifies this, filter, lines
      ensures (Value(), log, end) == Served(env, old(Value()), chunks, left)
    {
      log, end := [], Finished;
      var more: nat := left;
      assert chunks[0..] == chunks;
      assert [] + Served(env, Value(), chunks, left).1 == Served(env, Value(), chunks, left).1;
      for r := 0 to |chunks|
        invariant phase != Closed
        invariant Served(env, old(Value()), chunks, left) == ServedOn(env, Value(), chunks[r..], more, log)
      {
        ghost var start, before, had := Value(), log, more;
        assert chunks[r..][0] == chunks[r] && chunks[r..][1..] == chunks[r + 1..];
        if chunks[r] == [] {
          assert log + [] == log;
          return;
        }
        var bytes := filter.Feed(chunks[r]);
        var got := lines.Feed(bytes);
        assert |got| == |LinesIn(start, chunks[r])|;
        if more < |got| {
          TextsPrefix(got, more);
          var out := TakeLines(env, got[..more]);
          assert (Value(), out) == ReadPart(env, start, chunks[r], more);
          log := log + out;
          end := if phase == Closed then Finished else TakenOver;
          return;
        }
        var out := TakeLines(env, got);
        assert (Value(), out) == ReadStep(env, start, chunks[r]);
        log, more := log + out, more - |got|;
        if phase == Closed {
          return;
        }
        if lines.Pending() > MAX_LINE_LEN {
          end := Overflow;
          return;
        }
        ServedOnStep(env, start, chunks[r..], had, before);
      }
      assert chunks[|chunks|..] == [] && log + [] == log;
    }
  }

  /** What a request line hands on of the crontab it ends, what it replies,
      and what it hands on itself. */
  function EndedEvents(st: State): seq<Event> {
    if st.crontab.Some? then [Sent(Crontab(st.crontab.value))] else []
  }

  function ReplyEvents(reply: Option<string>): seq<Event> {
    if reply.Some? then [Replied(reply.value)] else []
  }

  function HandedEvents(taken: Taken): seq<Event> {
    if taken.Hands? then [Sent(Single(taken.parsed))] else []
  }

  lemma RequestByParts(env: Env, st: State, chan: Channel, line: string)
    requires st.phase == GetCmd || (st.phase == DoCrontab && !Cronline(line))
    ensures var (reply, taken, next) := RequestLine(env, line);
            var (mid, first, ok) := Deliver(chan, EndedEvents(st));
            var (end, last, ok') := Deliver(mid, HandedEvents(taken));
            ChannelStep(env, st, chan, line) ==
            if !ok then (OVER, mid, first)
            else (if ok' then State(next, Started(taken)) else OVER, end, first + ReplyEvents(reply) + last)
  {
    var (reply, taken, _) := RequestLine(env, line);
    var (mid, first, _) := Deliver(chan, EndedEvents(st));
    DeliverAppend(chan, EndedEvents(st), Answer(reply, taken));
    DeliverReplies(mid, ReplyEvents(reply));
    DeliverAppend(mid, ReplyEvents(reply), HandedEvents(taken));
    Associative(first, ReplyEvents(reply), Deliver(mid, HandedEvents(taken)).1);
  }

  lemma TextsPrefix(lines: seq<LineSplitters.Line>, n: nat)
    requires n <= |lines|
    ensures Texts(lines[..n]) == Texts(lines)[..n]
  {
  }

  /** A run resumed where the log so far is `log`. */
  function Resumed(env: Env, st: State, chan: Channel, lines: seq<string>, log: seq<Event>)
    : (State, Channel, seq<Event>)
  {
    var (end, left, rest) := ChannelRun(env, st, chan, lines);
    (end, left, log + rest)
  }

  lemma ResumedStep(env: Env, st: State, chan: Channel, lines: seq<string>, log: seq<Event>)
    requires lines != []
    ensures var (next, left, out) := ChannelStep(env, st, chan, lines[0]);
            Resumed(env, st, chan, lines, log) == Resumed(env, next, left, lines[1..], log + out)
  {
    var (next, left, out) := ChannelStep(env, st, chan, lines[0]);
    var (_, _, rest) := ChannelRun(env, next, left, lines[1..]);
    assert log + (out + rest) == log + out + rest;
  }

  function ServedOn(env: Env, c: Conn, chunks: seq<seq<byte>>, left: nat, log: seq<Event>): (Conn, seq<Event>, End) {
    var (end, rest, how) := Served(env, c, chunks, left);
    (end, log + rest, how)
  }

  lemma ServedOnStep(env: Env, c: Conn, chunks: seq<seq<byte>>, left: nat, log: seq<Event>)
    requires chunks != [] && chunks[0] != [] && |LinesIn(c, chunks[0])| <= left
    requires ReadStep(env, c, chunks[0]).0.session.phase != Closed
    requires |ReadStep(env, c, chunks[0]).0.splitter.partial| <= MAX_LINE_LEN
    ensures var (next, out) := ReadStep(env, c, chunks[0]);
            ServedOn(env, c, chunks, left, log) ==
            ServedOn(env, next, chunks[1..], left - |LinesIn(c, chunks[0])|, log + out)
  {
    var (next, out) := ReadStep(env, c, chunks[0]);
    var (_, rest, _) := Served(env, next, chunks[1..], left - |LinesIn(c, chunks[0])|);
    assert log + (out + rest) == log + out + rest;
  }
}
