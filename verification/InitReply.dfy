/** crates/starla-controller/src/ssh.rs: the reply to INIT that a registration
    server or a controller gives. */
module InitReplies {
  import opened LastWins
  import opened Seqs
  import opened Text
  import opened SavedState

  datatype ControllerInfo =
    ControllerInfo(host: string, port: u16, probeId: u32, reregSecs: Option<u64>)

  datatype Reply =
    | Controller(info: ControllerInfo)
    | ControllerReady(remotePort: u16, sessionId: string)
    | Plain
    | Wait(timeoutSecs: u32)
    | Refused(reason: string)

  datatype Assignment =
    Assignment(host: Option<string>, port: Option<u16>, probeId: u32, reregSecs: Option<u64>)

  datatype Ready = Ready(port: Option<u16>, sessionId: Option<string>)

  /** What a line of an OK says, by its first word and how many there are. */
  datatype Saying = ControllerLine | ReregisterLine | ProbeIdLine | RemotePortLine | SessionIdLine | NothingSaid

  function SaidBy(parts: seq<string>): Saying {
    if |parts| < 2 then NothingSaid
    else if parts[0] == "CONTROLLER" then (if |parts| >= 4 then ControllerLine else NothingSaid)
    else if parts[0] == "REREGISTER" then ReregisterLine
    else if parts[0] == "PROBE_ID" then ProbeIdLine
    else if parts[0] == "REMOTE_PORT" then RemotePortLine
    else if parts[0] == "SESSION_ID" then SessionIdLine
    else NothingSaid
  }

  predicate Says(line: string, saying: Saying) { SaidBy(Words(line)) == saying }

  /** A PROBE_ID line whose number is one. */
  predicate SaysProbeId(line: string) {
    Says(line, ProbeIdLine) && ParseUnsigned(Words(line)[1], U32_MAX).Some?
  }

  function LastSaying(lines: seq<string>, n: nat, saying: Saying): (line: Option<string>)
    requires n <= |lines|
    ensures line.Some? ==> Says(line.value, saying)
  {
    Last(lines, n, line => Says(line, saying))
  }

  /** The assignment the first `n` lines give: each value from the last line
      that says it, the probe ID from the last that says a number. */
  function AssignmentOf(lines: seq<string>, n: nat): Assignment
    requires n <= |lines|
  {
    var controller := LastSaying(lines, n, ControllerLine);
    var rereg := LastSaying(lines, n, ReregisterLine);
    var id := Last(lines, n, SaysProbeId);
    Assignment(
      if controller.Some? then Some(Words(controller.value)[1]) else None,
      if controller.Some? then ParseUnsigned(Words(controller.value)[2], U16_MAX) else None,
      if id.Some? then ParseUnsigned(Words(id.value)[1], U32_MAX).value else 0,
      if rereg.Some? then ParseUnsigned(Words(rereg.value)[1], U64_MAX) else None)
  }

  /** The session the first `n` lines give, each value from the last line that
      says it. */
  function ReadyOf(lines: seq<string>, n: nat): Ready
    requires n <= |lines|
  {
    var port, id := LastSaying(lines, n, RemotePortLine), LastSaying(lines, n, SessionIdLine);
    Ready(
      if port.Some? then ParseUnsigned(Words(port.value)[1], U16_MAX) else None,
      if id.Some? then Some(Words(id.value)[1]) else None)
  }

  predicate IsTimeout(line: string) { |Words(line)| >= 2 && Words(line)[0] == "TIMEOUT" }

  /** The first TIMEOUT line from line `n` on says how long to wait. */
  function Timeout(lines: seq<string>, n: nat): u32
    requires n <= |lines|
    decreases |lines| - n
  {
    if n == |lines| then 60
    else if IsTimeout(lines[n]) then
      var secs := ParseUnsigned(Words(lines[n])[1], U32_MAX);
      if secs.Some? then secs.value else 60
    else Timeout(lines, n + 1)
  }

  /** What the lines after an OK mean. */
  function OkReply(rest: seq<string>): Reply {
    var a, r := AssignmentOf(rest, |rest|), ReadyOf(rest, |rest|);
    if a.host.Some? && a.port.Some? then
      Controller(ControllerInfo(a.host.value, a.port.value, a.probeId, a.reregSecs))
    else if r.port.Some? && r.sessionId.Some? then
      ControllerReady(r.port.value, r.sessionId.value)
    else Plain
  }

  function RefusedReason(rest: seq<string>): string {
    if rest == [] then "" else Trim(rest[0])
  }

  datatype Status = Accepted | Postponed | Rejected | Unheard

  function StatusOf(first: string): Status {
    if first == "OK" then Accepted
    else if first == "WAIT" then Postponed
    else if first == "REFUSED" then Rejected
    else Unheard
  }

  /** What a status and the lines after it mean; None for an unusable
      reply. */
  function ReplyTo(status: Status, rest: seq<string>): Option<Reply> {
    match status
    case Accepted => Some(OkReply(rest))
    case Postponed => Some(Wait(Timeout(rest, 0)))
    case Rejected => Some(Refused(RefusedReason(rest)))
    case Unheard => None
  }

  function ReplyOf(lines: seq<string>): Option<Reply> {
    if lines == [] then None else ReplyTo(StatusOf(Trim(lines[0])), lines[1..])
  }

  /** What a line's words mean for the assignment so far. */
  lemma AssignmentNext(lines: seq<string>, n: nat)
    requires n < |lines|
    ensures var a, parts := AssignmentOf(lines, n), Words(lines[n]);
            AssignmentOf(lines, n + 1) ==
            match SaidBy(parts)
            case ControllerLine => a.(host := Some(parts[1]), port := ParseUnsigned(parts[2], U16_MAX))
            case ReregisterLine => a.(reregSecs := ParseUnsigned(parts[1], U64_MAX))
            case ProbeIdLine =>
              var id := ParseUnsigned(parts[1], U32_MAX);
              if id.Some? then a.(probeId := id.value) else a
            case _ => a
  {
  }

  lemma ReadyNext(lines: seq<string>, n: nat)
    requires n < |lines|
    ensures var r, parts := ReadyOf(lines, n), Words(lines[n]);
            ReadyOf(lines, n + 1) ==
            match SaidBy(parts)
            case RemotePortLine => r.(port := ParseUnsigned(parts[1], U16_MAX))
            case SessionIdLine => r.(sessionId := Some(parts[1]))
            case _ => r
  {
  }

  method ReadAssignment(lines: seq<string>) returns (a: Assignment)
    ensures a == AssignmentOf(lines, |lines|)
  {
    a := Assignment(None, None, 0, None);
    for i := 0 to |lines|
      invariant a == AssignmentOf(lines, i)
    {
      AssignmentNext(lines, i);
      var parts := Words(lines[i]);
      var said := SaidBy(parts);
      if said == ControllerLine {
        a := a.(host := Some(parts[1]), port := ParseUnsigned(parts[2], U16_MAX));
      }
      if said == ReregisterLine {
        a := a.(reregSecs := ParseUnsigned(parts[1], U64_MAX));
      }
      if said == ProbeIdLine {
        var id := ParseUnsigned(parts[1], U32_MAX);
        if id.Some? { a := a.(probeId := id.value); }
      }
    }
  }

  method ReadReady(lines: seq<string>) returns (r: Ready)
    ensures r == ReadyOf(lines, |lines|)
  {
    r := Ready(None, None);
    for i := 0 to |lines|
      invariant r == ReadyOf(lines, i)
    {
      ReadyNext(lines, i);
      var parts := Words(lines[i]);
      var said := SaidBy(parts);
      if said == RemotePortLine {
        r := r.(port := ParseUnsigned(parts[1], U16_MAX));
      }
      if said == SessionIdLine {
        r := r.(sessionId := Some(parts[1]));
      }
    }
  }

  method ReadTimeout(lines: seq<string>) returns (secs: u32)
    ensures secs == Timeout(lines, 0)
  {
    secs := 60;
    for i := 0 to |lines|
      invariant secs == 60 && Timeout(lines, 0) == Timeout(lines, i)
    {
      var parts := Words(lines[i]);
      if |parts| >= 2 && parts[0] == "TIMEOUT" {
        var n := ParseUnsigned(parts[1], U32_MAX);
        return if n.Some? then n.value else 60;
      }
    }
  }

  method ReadOk(lines: seq<string>) returns (reply: Reply)
    ensures reply == OkReply(lines)
  {
    var a := ReadAssignment(lines);
    if a.host.Some? && a.port.Some? {
      return Controller(ControllerInfo(a.host.value, a.port.value, a.probeId, a.reregSecs));
    }
    var r := ReadReady(lines);
    if r.port.Some? && r.sessionId.Some? {
      return ControllerReady(r.port.value, r.sessionId.value);
    }
    return Plain;
  }

  method ReadReply(status: Status, rest: seq<string>) returns (reply: Option<Reply>)
    ensures reply == ReplyTo(status, rest)
  {
    match status {
      case Accepted =>
        var ok := ReadOk(rest);
        reply := Some(ok);
      case Postponed =>
        var secs := ReadTimeout(rest);
        reply := Some(Wait(secs));
      case Rejected =>
        reply := Some(Refused(if rest == [] then "" else Trim(rest[0])));
      case Unheard =>
        reply := None;
    }
  }

  method ParseInitResponse(output: string) returns (reply: Option<Reply>)
    ensures reply == ReplyOf(Lines(output))
  {
    var lines := Lines(output);
    if lines == [] { return None; }
    reply := ReadReply(StatusOf(Trim(lines[0])), lines[1..]);
  }

  // ---- What a reply's values are ----

  /** The values of a reply can be kept in a file of fields. */
  predicate Keepable(reply: Reply) {
    match reply
    case Controller(info) => info.host != "" && IsOneLine(info.host)
    case ControllerReady(_, sessionId) => IsOneLine(sessionId)
    case Refused(reason) => IsOneLine(reason)
    case Plain => true
    case Wait(_) => true
  }

  lemma WordsAreOneLine(line: string)
    ensures forall w :: w in Words(line) ==> w != "" && IsOneLine(w)
  {
    forall w | w in Words(line)
      ensures IsOneLine(w)
    {
      assert NoSpace(w) && IsSpace('\n');
      assert w[0] in w && w[|w| - 1] in w;
    }
  }

  lemma OkIsKeepable(rest: seq<string>)
    ensures Keepable(OkReply(rest))
  {
    var controller := LastSaying(rest, |rest|, ControllerLine);
    var id := LastSaying(rest, |rest|, SessionIdLine);
    if controller.Some? {
      WordsAreOneLine(controller.value);
      assert Words(controller.value)[1] in Words(controller.value);
    }
    if id.Some? {
      WordsAreOneLine(id.value);
      assert Words(id.value)[1] in Words(id.value);
    }
  }

  lemma ReplyIsKeepable(status: Status, rest: seq<string>)
    requires forall line :: line in rest ==> '\n' !in line
    ensures var reply := ReplyTo(status, rest); reply.Some? ==> Keepable(reply.value)
  {
    OkIsKeepable(rest);
    if rest != [] { assert rest[0] in rest; }
  }

  /** Whatever a server answers, its values can be kept. */
  lemma RepliesAreKeepable(output: string)
    ensures var reply := ReplyOf(Lines(output)); reply.Some? ==> Keepable(reply.value)
  {
    var lines := Lines(output);
    LinesHaveNoBreak(output);
    if lines != [] {
      assert forall line :: line in lines[1..] ==> line in lines;
      ReplyIsKeepable(StatusOf(Trim(lines[0])), lines[1..]);
    }
  }
}
