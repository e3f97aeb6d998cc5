/** One controller session: login, password, then a request of CRONTAB,
    CRONLINE, ONEOFF and other lines, ended by an empty line. */
module Sessions {
  import opened Seqs
  import Runs
  import opened Commands

  const ATLAS_LOGIN := "C_TO_P_TEST_V1"
  const PASSWORD_PROMPT := "\r\nPassword: "
  const CMD_CRONTAB := "CRONTAB "
  const CMD_CRONLINE := "CRONLINE "
  const CMD_ONEOFF := "ONEOFF "
  const CMD_REBOOT := "REBOOT"
  const CMD_RELOAD := "RELOAD"
  const RESULT_OK := "OK\r\n\r\n"
  const BAD_PASSWORD := "BAD_PASSWORD\r\n\r\n"
  const BAD_COMMAND := "BAD_COMMAND\r\n\r\n"
  const NAME_TOO_LONG := "NAME_TOO_LONG\r\n\r\n"
  const BAD_PATH := "BAD_PATH\r\n\r\n"
  const BAD_REMOUNT := "BAD_REMOUNT\r\n\r\n"
  const CRONTAB_MAX_LINES: nat := 65534
  const ATLAS_HOME := "/home/atlas"
  const ATLAS_SPOOLDIR := "/var/spool/ripe-atlas"

  /** Where a session is; `tries` counts the passwords that were wrong. */
  datatype Phase = GetLoginName | GetPassword(tries: nat) | GetCmd | DoCrontab | EomSeen | Closed

  /** A session's own state. `crontab` is the one it is taking. */
  datatype State = State(phase: Phase, crontab: Option<CrontabSpec>)

  const START := State(GetLoginName, None)
  const OVER := State(Closed, None)

  /** What the session reads of its surroundings: the command parser, and what
      the cell with the probe's session ID holds at each password try. */
  datatype Env = Env(parse: string -> Parsed, sessionId: nat -> Option<string>)

  /** What a session does, in order. */
  datatype Event = Replied(text: string) | Sent(command: Command)

  // ---------------------------------------------------------------------
  // Request lines

  predicate Under(path: string, base: string) {
    StartsWith(path, base) && StartsWith(path[|base|..], "/crons/")
  }

  function RebasedCronsPath(path: string): Option<string> {
    if !Under(path, ATLAS_HOME) && !Under(path, ATLAS_SPOOLDIR) then None
    else if Contains(path, "/../") || EndsWith(path, "/..") then None
    else if Under(path, ATLAS_HOME) then Some(ATLAS_SPOOLDIR + path[|ATLAS_HOME|..])
    else Some(path)
  }

  /** The reply that refuses a crontab's directory, or its rebased path. */
  datatype Check = Refused(reply: string) | Accepted(path: string)

  function CrontabDirCheck(dir: string): Check {
    match RebasedCronsPath(dir)
    case None => Refused(BAD_PATH)
    case Some(path) =>
      if |path| + |"/root.new"| + 1 > 256 then Refused(NAME_TOO_LONG) else Accepted(path)
  }

  function OneoffFileCheck(rest: string): Check {
    var name := Name(rest);
    if |name| + |".new"| + 1 > 256 then Refused(NAME_TOO_LONG)
    else match RebasedCronsPath(name)
         case None => Refused(BAD_PATH)
         case Some(path) => Accepted(path)
  }

  datatype Taken = Nothing | Opens(dir: string) | Hands(parsed: Parsed)

  /** One request line: the reply, what is taken, and the next phase. */
  function RequestLine(env: Env, line: string): (Option<string>, Taken, Phase) {
    if StartsWith(line, CMD_CRONTAB) then
      match CrontabDirCheck(line[|CMD_CRONTAB|..])
      case Accepted(path) => (None, Opens(path), DoCrontab)
      case Refused(reply) => (Some(reply), Nothing, GetCmd)
    else if StartsWith(line, CMD_ONEOFF) then
      match OneoffFileCheck(line[|CMD_ONEOFF|..])
      case Accepted(_) => (None, Hands(env.parse(line)), GetCmd)
      case Refused(reply) => (Some(reply), Nothing, GetCmd)
    else if line == CMD_REBOOT then (None, Nothing, GetCmd)
    else if line == CMD_RELOAD then (Some(BAD_REMOUNT), Nothing, GetCmd)
    else if line == [] then (Some(RESULT_OK), Nothing, EomSeen)
    else
      var command := env.parse(line);
      var taken :=
        if command.Status? || command.Stop? then Hands(command)
        else if command.Unknown? then Nothing
        else if line[0] == '{' then Hands(command)
        else Nothing;
      (Some(BAD_COMMAND), taken, GetCmd)
  }

  predicate Cronline(line: string) {
    StartsWith(line, CMD_CRONLINE)
  }

  function TakenLine(env: Env, line: string): CrontabLine
    requires Cronline(line)
  {
    CrontabLine(line[|CMD_CRONLINE|..], env.parse(line))
  }

  /** One line in any phase, on a channel that takes every command. */
  function Step(env: Env, st: State, line: string): (State, seq<Event>) {
    if st.phase == GetLoginName then
      if line == ATLAS_LOGIN then (st.(phase := GetPassword(0)), [Replied(PASSWORD_PROMPT)])
      else (OVER, [Replied(line)])
    else if st.phase.GetPassword? then
      if env.sessionId(st.phase.tries) == Some(line) then (st.(phase := GetCmd), [])
      else (st.(phase := GetPassword(st.phase.tries + 1)), [Replied(BAD_PASSWORD)])
    else if st.phase == EomSeen then (st, [Replied(BAD_COMMAND)])
    else if st.phase == Closed then (st, [])
    else if st.phase == DoCrontab && Cronline(line) then
      if st.crontab.Some? && |st.crontab.value.lines| < CRONTAB_MAX_LINES
      then (st.(crontab := Some(Grown(st.crontab.value, TakenLine(env, line)))), [])
      else (st, [])
    else
      var ended := if st.crontab.Some? then [Sent(Crontab(st.crontab.value))] else [];
      var (reply, taken, next) := RequestLine(env, line);
      (State(next, Started(taken)), ended + Answer(reply, taken))
  }

  function Grown(open: CrontabSpec, line: CrontabLine): CrontabSpec {
    open.(lines := open.lines + [line])
  }

  function Started(taken: Taken): Option<CrontabSpec> {
    if taken.Opens? then Some(CrontabSpec(taken.dir, [])) else None
  }

  /** The reply to a line, then the command it hands on. */
  function Answer(reply: Option<string>, taken: Taken): seq<Event> {
    (if reply.Some? then [Replied(reply.value)] else [])
    + (if taken.Hands? then [Sent(Single(taken.parsed))] else [])
  }

  function Run(env: Env, st: State, lines: seq<string>): (State, seq<Event>)
    decreases lines
  {
    if lines == [] then (st, []) else
    var (next, first) := Step(env, st, lines[0]);
    var (end, rest) := Run(env, next, lines[1..]);
    (end, first + rest)
  }

  lemma RunIterates(env: Env)
    ensures Runs.Iterates((st, lines) => Run(env, st, lines), (st, line) => Step(env, st, line))
  {
    forall st, lines: seq<string> | lines != []
      ensures Run(env, st, lines) ==
              Runs.Joined(Step(env, st, lines[0]).1, Run(env, Step(env, st, lines[0]).0, lines[1..]))
    {
    }
  }

  lemma RunAppend(env: Env, st: State, a: seq<string>, b: seq<string>)
    ensures Run(env, st, a + b) ==
            (Run(env, Run(env, st, a).0, b).0, Run(env, st, a).1 + Run(env, Run(env, st, a).0, b).1)
  {
    RunIterates(env);
    Runs.RunsOn((st, lines) => Run(env, st, lines), (st, line) => Step(env, st, line), st, a, b);
  }

  // ---------------------------------------------------------------------
  // The channel to the probe: absent, or closed after so many commands.

  datatype Channel = Absent | Room(left: nat)

  /** What reaches the probe and the controller of a log: without a channel
      only the replies; with one, all up to the first command it refuses.
      The flag says that nothing was refused. */
  function Deliver(chan: Channel, log: seq<Event>): (Channel, seq<Event>, bool)
    decreases log
  {
    if log == [] then (chan, [], true)
    else if log[0].Sent? && chan == Room(0) then (chan, [], false)
    else
      var next := if log[0].Sent? && chan.Room? then Room(chan.left - 1) else chan;
      var (end, out, ok) := Deliver(next, log[1..]);
      (end, (if log[0].Sent? && chan.Absent? then [] else [log[0]]) + out, ok)
  }

  predicate Refuses(chan: Channel, e: Event) { e.Sent? && chan == Room(0) }

  /** What one event that is not refused leaves of the channel, and what of it
      gets through. */
  function Past(chan: Channel, e: Event): (Channel, seq<Event>)
    requires !Refuses(chan, e)
  {
    (if e.Sent? && chan.Room? then Room(chan.left - 1) else chan,
     if e.Sent? && chan.Absent? then [] else [e])
  }

  lemma DeliverNext(chan: Channel, log: seq<Event>)
    requires log != []
    ensures Deliver(chan, log) ==
            if Refuses(chan, log[0]) then (chan, [], false)
            else
              var (next, first) := Past(chan, log[0]);
              var (end, out, ok) := Deliver(next, log[1..]);
              (end, first + out, ok)
  {
  }

  lemma {:induction false} DeliverAppend(chan: Channel, a: seq<Event>, b: seq<Event>)
    ensures var (mid, out, ok) := Deliver(chan, a);
            var (end, more, ok') := Deliver(mid, b);
            Deliver(chan, a + b) == if ok then (end, out + more, ok') else (mid, out, false)
    decreases a
  {
    if a == [] {
      assert a + b == b && [] + Deliver(chan, b).1 == Deliver(chan, b).1;
    } else {
      DeliverNext(chan, a);
      DeliverNext(chan, a + b);
      assert (a + b)[0] == a[0] && (a + b)[1..] == a[1..] + b;
      if !Refuses(chan, a[0]) {
        var (next, first) := Past(chan, a[0]);
        DeliverAppend(next, a[1..], b);
        Associative(first, Deliver(next, a[1..]).1, Deliver(Deliver(next, a[1..]).0, b).1);
      }
    }
  }

  lemma DeliverOne(chan: Channel, event: Event)
    ensures Deliver(chan, [event]) ==
            if event.Sent? && chan == Room(0) then (chan, [], false)
            else if event.Sent? && chan.Absent? then (chan, [], true)
            else (if event.Sent? then Room(chan.left - 1) else chan, [event], true)
  {
    assert [event][1..] == [];
    var none: seq<Event> := [];
    if !event.Sent? {
      assert Deliver(chan, none) == (chan, none, true) && [event] + none == [event];
    } else if chan.Absent? {
      assert Deliver(chan, none) == (chan, none, true) && none + none == none;
    } else if chan.left > 0 {
      assert Deliver(Room(chan.left - 1), none) == (Room(chan.left - 1), none, true) && [event] + none == [event];
    }
  }

  lemma {:induction false} DeliverReplies(chan: Channel, log: seq<Event>)
    requires forall e :: e in log ==> e.Replied?
    ensures Deliver(chan, log) == (chan, log, true)
  {
    if log != [] {
      DeliverReplies(chan, log[1..]);
      assert log[0] in log;
      assert [log[0]] + log[1..] == log;
    }
  }

  /** A line on a channel that may refuse: refusing ends the session. */
  function ChannelStep(env: Env, st: State, chan: Channel, line: string): (State, Channel, seq<Event>) {
    var (next, log) := Step(env, st, line);
    var (left, out, ok) := Deliver(chan, log);
    (if ok then next else OVER, left, out)
  }

  function ChannelRun(env: Env, st: State, chan: Channel, lines: seq<string>): (State, Channel, seq<Event>)
    decreases lines
  {
    if lines == [] then (st, chan, []) else
    var (next, left, first) := ChannelStep(env, st, chan, lines[0]);
    var (end, chan', rest) := ChannelRun(env, next, left, lines[1..]);
    (end, chan', first + rest)
  }

  lemma {:induction false} OverRun(env: Env, chan: Channel, lines: seq<string>)
    ensures ChannelRun(env, OVER, chan, lines) == (OVER, chan, [])
    decreases lines
  {
    if lines != [] {
      OverRun(env, chan, lines[1..]);
      assert ChannelStep(env, OVER, chan, lines[0]) == (OVER, chan, []);
      assert [] + ChannelRun(env, OVER, chan, lines[1..]).2 == [];
    }
  }

  /** A session on any channel does what it would have done on an open one,
      up to the first command the channel refuses. */
  lemma {:induction false} ChannelCutsTheLog(env: Env, st: State, chan: Channel, lines: seq<string>)
    ensures ChannelRun(env, st, chan, lines).2 == Deliver(chan, Run(env, st, lines).1).1
    decreases lines
  {
    if lines != [] {
      var (next, log) := Step(env, st, lines[0]);
      var (left, out, ok) := Deliver(chan, log);
      var (_, rest) := Run(env, next, lines[1..]);
      DeliverAppend(chan, log, rest);
      if ok {
        ChannelCutsTheLog(env, next, left, lines[1..]);
      } else {
        OverRun(env, left, lines[1..]);
        assert out + [] == out;
      }
    }
  }

  // ---------------------------------------------------------------------
  // The same conversation, from the whole list of lines.

  /** The CRONLINEs a list begins with. */
  function CronlineRun(lines: seq<string>): (n: nat)
    ensures n <= |lines|
    ensures forall i :: 0 <= i < n ==> Cronline(lines[i])
    ensures n < |lines| ==> !Cronline(lines[n])
  {
    if lines == [] || !Cronline(lines[0]) then 0 else 1 + CronlineRun(lines[1..])
  }

  function TakenLines(env: Env, lines: seq<string>): seq<CrontabLine>
    requires forall i :: 0 <= i < |lines| ==> Cronline(lines[i])
  {
    seq(|lines|, i requires 0 <= i < |lines| => TakenLine(env, lines[i]))
  }

  /** The crontab that a CRONTAB line for `dir` and `lines` after it make:
      handed on if a line ends it, and then with at most 65534 lines. */
  function CrontabEvents(env: Env, dir: string, lines: seq<string>): seq<Event> {
    var n := CronlineRun(lines);
    if n == |lines| then [] else
    [Sent(Crontab(CrontabSpec(dir, TakenLines(env, FirstN(lines[..n], CRONTAB_MAX_LINES)))))]
  }

  function BadCommands(n: nat): seq<Event> {
    seq(n, _ => Replied(BAD_COMMAND))
  }

  function Requests(env: Env, lines: seq<string>): seq<Event> {
    if lines == [] then [] else
    var (reply, taken, next) := RequestLine(env, lines[0]);
    var rest := lines[1..];
    if taken.Opens? then
      CrontabEvents(env, taken.dir, rest) + Requests(env, rest[CronlineRun(rest)..])
    else if next == EomSeen then
      [Replied(RESULT_OK)] + BadCommands(|rest|)
    else
      Answer(reply, taken) + Requests(env, rest)
  }

  /** Password tries from the `k`-th on, each against what the cell holds
      then. */
  function Passwords(env: Env, lines: seq<string>, k: nat): seq<Event> {
    if lines == [] then []
    else if env.sessionId(k) == Some(lines[0]) then Requests(env, lines[1..])
    else [Replied(BAD_PASSWORD)] + Passwords(env, lines[1..], k + 1)
  }

  function Conversation(env: Env, lines: seq<string>): seq<Event> {
    if lines == [] then []
    else if lines[0] == ATLAS_LOGIN then
      [Replied(PASSWORD_PROMPT)] + Passwords(env, lines[1..], 0)
    else [Replied(lines[0])]
  }

  lemma {:induction false} EomRun(env: Env, lines: seq<string>)
    ensures Run(env, State(EomSeen, None), lines).1 == BadCommands(|lines|)
  {
    if lines != [] {
      EomRun(env, lines[1..]);
      assert [Replied(BAD_COMMAND)] + BadCommands(|lines| - 1) == BadCommands(|lines|);
    }
  }

  lemma {:induction false} ClosedRun(env: Env, lines: seq<string>)
    ensures Run(env, OVER, lines) == (OVER, [])
  {
    if lines != [] {
      ClosedRun(env, lines[1..]);
      assert [] + Run(env, OVER, lines[1..]).1 == [];
    }
  }

  /** A session taking the crontab `open`, `seen` its CRONLINEs so far. */
  ghost predicate Taking(env: Env, open: CrontabSpec, dir: string, seen: seq<string>) {
    && (forall i :: 0 <= i < |seen| ==> Cronline(seen[i]))
    && open == CrontabSpec(dir, TakenLines(env, FirstN(seen, CRONTAB_MAX_LINES)))
  }

  lemma TakeOne(env: Env, open: CrontabSpec, dir: string, seen: seq<string>, line: string)
    requires Taking(env, open, dir, seen) && Cronline(line)
    ensures var (next, log) := Step(env, State(DoCrontab, Some(open)), line);
            log == [] && next.phase == DoCrontab && next.crontab.Some?
            && Taking(env, next.crontab.value, dir, seen + [line])
  {
    var more := seen + [line];
    if |seen| < CRONTAB_MAX_LINES {
      assert FirstN(seen, CRONTAB_MAX_LINES) == seen;
      assert FirstN(more, CRONTAB_MAX_LINES) == more;
      assert TakenLines(env, more) == TakenLines(env, seen) + [TakenLine(env, line)];
    } else {
      assert FirstN(more, CRONTAB_MAX_LINES) == FirstN(seen, CRONTAB_MAX_LINES);
    }
  }

  lemma {:induction false} CronlineRunIs(seen: seq<string>, lines: seq<string>)
    requires forall i :: 0 <= i < |seen| ==> Cronline(seen[i])
    requires lines != [] && !Cronline(lines[0])
    ensures CronlineRun(seen + lines) == |seen|
  {
    if seen == [] {
      assert seen + lines == lines;
    } else {
      CronlineRunIs(seen[1..], lines);
      assert (seen + lines)[1..] == seen[1..] + lines;
    }
  }

  lemma CrontabEnds(env: Env, dir: string, seen: seq<string>, lines: seq<string>)
    requires forall i :: 0 <= i < |seen| ==> Cronline(seen[i])
    requires lines != [] && !Cronline(lines[0])
    ensures CronlineRun(seen + lines) == |seen|
    ensures CrontabEvents(env, dir, seen + lines) ==
            [Sent(Crontab(CrontabSpec(dir, TakenLines(env, FirstN(seen, CRONTAB_MAX_LINES)))))]
  {
    CronlineRunIs(seen, lines);
    assert (seen + lines)[..|seen|] == seen;
  }

  /** Any other line ends the crontab, and is then read as a request line. */
  lemma EndingLine(env: Env, open: CrontabSpec, lines: seq<string>)
    requires lines != [] && !Cronline(lines[0])
    ensures Run(env, State(DoCrontab, Some(open)), lines).1 ==
            [Sent(Crontab(open))] + Run(env, State(GetCmd, None), lines).1
  {
    var ended := [Sent(Crontab(open))];
    var (next, log) := Step(env, State(GetCmd, None), lines[0]);
    var (reply, taken, _) := RequestLine(env, lines[0]);
    assert [] + Answer(reply, taken) == Answer(reply, taken);
    assert Step(env, State(DoCrontab, Some(open)), lines[0]) == (next, ended + log);
    var rest := Run(env, next, lines[1..]).1;
    assert ended + log + rest == ended + (log + rest);
  }

  /** A crontab for `dir` and its CRONLINEs `all`, and what comes after them. */
  function CrontabLog(env: Env, dir: string, all: seq<string>): seq<Event> {
    CrontabEvents(env, dir, all) + Requests(env, all[CronlineRun(all)..])
  }

  lemma CrontabLogEnds(env: Env, open: CrontabSpec, dir: string, seen: seq<string>, lines: seq<string>)
    requires Taking(env, open, dir, seen)
    requires lines != [] && !Cronline(lines[0])
    ensures CrontabLog(env, dir, seen + lines) == [Sent(Crontab(open))] + Requests(env, lines)
  {
    CrontabEnds(env, dir, seen, lines);
    assert (seen + lines)[|seen|..] == lines;
  }

  lemma CrontabLogOpen(env: Env, dir: string, seen: seq<string>)
    requires forall i :: 0 <= i < |seen| ==> Cronline(seen[i])
    ensures CrontabLog(env, dir, seen) == []
  {
    assert CronlineRun(seen) == |seen|;
  }

  lemma TakenOne(env: Env, open: CrontabSpec, dir: string, seen: seq<string>, lines: seq<string>)
    returns (next: CrontabSpec)
    requires Taking(env, open, dir, seen) && lines != [] && Cronline(lines[0])
    ensures Taking(env, next, dir, seen + [lines[0]])
    ensures Run(env, State(DoCrontab, Some(open)), lines).1 == Run(env, State(DoCrontab, Some(next)), lines[1..]).1
  {
    TakeOne(env, open, dir, seen, lines[0]);
    var st := Step(env, State(DoCrontab, Some(open)), lines[0]).0;
    next := st.crontab.value;
    assert st == State(DoCrontab, Some(next));
    assert [] + Run(env, st, lines[1..]).1 == Run(env, st, lines[1..]).1;
  }

  lemma {:induction false} CrontabRun(env: Env, open: CrontabSpec, dir: string, seen: seq<string>, lines: seq<string>)
    requires Taking(env, open, dir, seen)
    ensures Run(env, State(DoCrontab, Some(open)), lines).1 == CrontabLog(env, dir, seen + lines)
    decreases |lines|, 1
  {
    if lines == [] {
      assert seen + lines == seen;
      CrontabLogOpen(env, dir, seen);
    } else if Cronline(lines[0]) {
      var next := TakenOne(env, open, dir, seen, lines);
      CrontabRun(env, next, dir, seen + [lines[0]], lines[1..]);
      assert seen + [lines[0]] + lines[1..] == seen + lines;
    } else {
      CrontabLogEnds(env, open, dir, seen, lines);
      EndingLine(env, open, lines);
      RequestsRun(env, lines);
    }
  }

  lemma {:induction false} RequestsRun(env: Env, lines: seq<string>)
    ensures Run(env, State(GetCmd, None), lines).1 == Requests(env, lines)
    decreases |lines|, 0
  {
    if lines != [] {
      var (reply, taken, next) := RequestLine(env, lines[0]);
      var rest := lines[1..];
      if taken.Opens? {
        var open := CrontabSpec(taken.dir, []);
        assert TakenLines(env, FirstN([], CRONTAB_MAX_LINES)) == [];
        CrontabRun(env, open, taken.dir, [], rest);
        assert [] + rest == rest;
        assert Step(env, State(GetCmd, None), lines[0]) == (State(DoCrontab, Some(open)), []) by {
          assert [] + Answer(reply, taken) == [];
        }
        assert [] + Requests(env, lines) == Requests(env, lines);
      } else if next == EomSeen {
        EomRun(env, rest);
        assert Step(env, State(GetCmd, None), lines[0]) == (State(EomSeen, None), [Replied(RESULT_OK)]) by {
          assert [] + Answer(reply, taken) == [Replied(RESULT_OK)];
        }
      } else {
        RequestsRun(env, rest);
        var (next', log) := Step(env, State(GetCmd, None), lines[0]);
        assert next' == State(GetCmd, None);
        assert [] + Answer(reply, taken) == Answer(reply, taken);
      }
    }
  }

  lemma {:induction false} PasswordsRun(env: Env, lines: seq<string>, k: nat)
    ensures Run(env, State(GetPassword(k), None), lines).1 == Passwords(env, lines, k)
    decreases lines
  {
    if lines != [] {
      if env.sessionId(k) == Some(lines[0]) {
        RequestsRun(env, lines[1..]);
        assert [] + Requests(env, lines[1..]) == Requests(env, lines[1..]);
      } else {
        PasswordsRun(env, lines[1..], k + 1);
      }
    }
  }

  /** The session's replies and commands are the batch reading of its lines:
      each crontab whole, before the line that ended it is acted on, and none
      that no line ended. */
  lemma RunIsConversation(env: Env, lines: seq<string>)
    ensures Run(env, START, lines).1 == Conversation(env, lines)
  {
    if lines != [] {
      if lines[0] == ATLAS_LOGIN {
        PasswordsRun(env, lines[1..], 0);
      } else {
        ClosedRun(env, lines[1..]);
      }
    }
  }

  // ---------------------------------------------------------------------
  // What holds in every run

  /** A crontab is being taken exactly in DO_CRONTAB, and holds no more lines
      than its cron daemon reads. */
  predicate Sound(st: State) {
    && (st.crontab.Some? <==> st.phase == DoCrontab)
    && (st.crontab.Some? ==> |st.crontab.value.lines| <= CRONTAB_MAX_LINES)
  }

  lemma {:induction false} RunStaysSound(env: Env, st: State, lines: seq<string>)
    requires Sound(st)
    ensures Sound(Run(env, st, lines).0)
    decreases lines
  {
    if lines != [] {
      RunStaysSound(env, Step(env, st, lines[0]).0, lines[1..]);
    }
  }

  /** Lines p to q hold a whole crontab: an accepted CRONTAB line, CRONLINEs,
      and a line that ends them. */
  ghost predicate WholeCrontab(env: Env, lines: seq<string>, p: nat, q: nat, spec: CrontabSpec) {
    && p < q < |lines|
    && RequestLine(env, lines[p]).1 == Opens(spec.dir)
    && (forall i :: p < i < q ==> Cronline(lines[i]))
    && !Cronline(lines[q])
    && spec.lines == TakenLines(env, FirstN(lines[p + 1..q], CRONTAB_MAX_LINES))
  }

  lemma FirstCrontabIsWhole(env: Env, lines: seq<string>, spec: CrontabSpec)
    requires lines != [] && RequestLine(env, lines[0]).1.Opens?
    requires Sent(Crontab(spec)) in CrontabEvents(env, RequestLine(env, lines[0]).1.dir, lines[1..])
    ensures WholeCrontab(env, lines, 0, 1 + CronlineRun(lines[1..]), spec)
  {
    var rest := lines[1..];
    var n := CronlineRun(rest);
    assert lines[1..n + 1] == rest[..n];
    forall i | 0 < i < n + 1
      ensures Cronline(lines[i])
    {
      assert lines[i] == rest[i - 1];
    }
    assert lines[n + 1] == rest[n];
  }

  /** Where the next request line is, after one that does not end the request. */
  function NextRequest(env: Env, lines: seq<string>): (k: nat)
    requires lines != []
    ensures 0 < k <= |lines|
  {
    1 + if RequestLine(env, lines[0]).1.Opens? then CronlineRun(lines[1..]) else 0
  }

  lemma NextRequestTail(env: Env, lines: seq<string>, spec: CrontabSpec)
    requires lines != [] && Sent(Crontab(spec)) in Requests(env, lines)
    ensures var taken := RequestLine(env, lines[0]).1;
            (taken.Opens? && Sent(Crontab(spec)) in CrontabEvents(env, taken.dir, lines[1..]))
            || Sent(Crontab(spec)) in Requests(env, lines[NextRequest(env, lines)..])
  {
    var (reply, taken, next) := RequestLine(env, lines[0]);
    var rest := lines[1..];
    if taken.Opens? {
      assert rest[CronlineRun(rest)..] == lines[NextRequest(env, lines)..];
    } else if next == EomSeen {
      assert false;
    } else {
      assert Sent(Crontab(spec)) !in Answer(reply, taken);
    }
  }

  /** Every crontab handed on was sent whole. */
  lemma {:induction false} CrontabsAreWhole(env: Env, lines: seq<string>, spec: CrontabSpec)
    requires Sent(Crontab(spec)) in Requests(env, lines)
    ensures exists p: nat, q: nat :: WholeCrontab(env, lines, p, q, spec)
    decreases |lines|
  {
    NextRequestTail(env, lines, spec);
    var taken := RequestLine(env, lines[0]).1;
    var k := NextRequest(env, lines);
    if taken.Opens? && Sent(Crontab(spec)) in CrontabEvents(env, taken.dir, lines[1..]) {
      FirstCrontabIsWhole(env, lines, spec);
    } else {
      CrontabsAreWhole(env, lines[k..], spec);
      var p: nat, q: nat :| WholeCrontab(env, lines[k..], p, q, spec);
      WholeCrontabShift(env, lines, k, p, q, spec);
    }
  }

  lemma WholeCrontabShift(env: Env, lines: seq<string>, k: nat, p: nat, q: nat, spec: CrontabSpec)
    requires k <= |lines| && WholeCrontab(env, lines[k..], p, q, spec)
    ensures WholeCrontab(env, lines, p + k, q + k, spec)
  {
    var tail := lines[k..];
    SliceOfRest(lines, k, p + 1, q);
    forall i | p + k < i < q + k
      ensures Cronline(lines[i])
    {
      assert lines[i] == tail[i - k];
    }
  }

  /** The same of a session's own commands, from its login on. */
  lemma SessionCrontabsAreWhole(env: Env, lines: seq<string>, spec: CrontabSpec)
    requires Sent(Crontab(spec)) in Run(env, START, lines).1
    ensures exists p: nat, q: nat :: WholeCrontab(env, lines, p, q, spec)
  {
    RunIsConversation(env, lines);
    PasswordsAreWhole(env, lines[1..], 0, spec);
    WholeInRest(env, lines, spec);
  }

  lemma WholeInRest(env: Env, lines: seq<string>, spec: CrontabSpec)
    requires lines != [] && exists p: nat, q: nat :: WholeCrontab(env, lines[1..], p, q, spec)
    ensures exists p: nat, q: nat :: WholeCrontab(env, lines, p, q, spec)
  {
    var p: nat, q: nat :| WholeCrontab(env, lines[1..], p, q, spec);
    WholeCrontabShift(env, lines, 1, p, q, spec);
  }

  lemma {:induction false} PasswordsAreWhole(env: Env, lines: seq<string>, k: nat, spec: CrontabSpec)
    requires Sent(Crontab(spec)) in Passwords(env, lines, k)
    ensures exists p: nat, q: nat :: WholeCrontab(env, lines, p, q, spec)
    decreases lines
  {
    if env.sessionId(k) == Some(lines[0]) {
      CrontabsAreWhole(env, lines[1..], spec);
    } else {
      PasswordsAreWhole(env, lines[1..], k + 1, spec);
    }
    WholeInRest(env, lines, spec);
  }

  /** No command, and no second OK, after the OK that ends the request. */
  ghost predicate SilentAfterOk(log: seq<Event>) {
    forall i, j :: 0 <= i < j < |log| && log[i] == Replied(RESULT_OK) ==>
      log[j] == Replied(BAD_COMMAND)
  }

  lemma SilentPrefix(head: seq<Event>, tail: seq<Event>)
    requires SilentAfterOk(tail) && Replied(RESULT_OK) !in head
    ensures SilentAfterOk(head + tail)
  {
    var log := head + tail;
    forall i, j | 0 <= i < j < |log| && log[i] == Replied(RESULT_OK)
      ensures log[j] == Replied(BAD_COMMAND)
    {
      assert i >= |head| && log[i] == tail[i - |head|] && log[j] == tail[j - |head|];
    }
  }

  lemma {:induction false} RequestsSilentAfterOk(env: Env, lines: seq<string>)
    ensures SilentAfterOk(Requests(env, lines))
    decreases |lines|
  {
    if lines != [] {
      var (reply, taken, next) := RequestLine(env, lines[0]);
      var rest := lines[1..];
      if taken.Opens? {
        var tail := rest[CronlineRun(rest)..];
        RequestsSilentAfterOk(env, tail);
        SilentPrefix(CrontabEvents(env, taken.dir, rest), Requests(env, tail));
      } else if next != EomSeen {
        RequestsSilentAfterOk(env, rest);
        SilentPrefix(Answer(reply, taken), Requests(env, rest));
      }
    }
  }

  lemma {:induction false} PasswordsSilentAfterOk(env: Env, lines: seq<string>, k: nat)
    ensures SilentAfterOk(Passwords(env, lines, k))
    decreases lines
  {
    if lines != [] {
      if env.sessionId(k) == Some(lines[0]) {
        RequestsSilentAfterOk(env, lines[1..]);
      } else {
        PasswordsSilentAfterOk(env, lines[1..], k + 1);
        SilentPrefix([Replied(BAD_PASSWORD)], Passwords(env, lines[1..], k + 1));
      }
    }
  }

  /** After the one OK of a session nothing is handed on any more. */
  lemma SessionSilentAfterOk(env: Env, lines: seq<string>)
    ensures SilentAfterOk(Run(env, START, lines).1)
  {
    RunIsConversation(env, lines);
    if lines != [] && lines[0] == ATLAS_LOGIN {
      PasswordsSilentAfterOk(env, lines[1..], 0);
      SilentPrefix([Replied(PASSWORD_PROMPT)], Passwords(env, lines[1..], 0));
    }
  }
}
