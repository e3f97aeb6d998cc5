/** The loop that takes the session's commands: a crontab's lines one by one,
    its recurring measurements gathered into one scheduler command. */
module CommandLoops {
  import opened Seqs
  import opened Commands
  import Sessions
  import Shells

  /** A recurring line: its command text, and what it runs. */
  datatype ScheduledLine = ScheduledLine(command: string, job: Job)

  datatype Gathering = Gathering(file: string, lines: seq<ScheduledLine>)

  datatype SchedulerCommand =
    | SyncCrontab(crontab: Gathering)
    | Schedule(job: Job)
    | ExecuteNow(job: Job)
    | StopMeasurement(msmId: nat)

  /** What the loop does, in order. */
  datatype Effect =
    | ToScheduler(command: SchedulerCommand)
    | ExpectOneoff(msmId: nat)
    | Report(what: Parsed)

  /** A command with the text of its crontab line, if it is one. */
  datatype Pending = Pending(command: Parsed, shell: Option<string>)

  function PendingLines(lines: seq<CrontabLine>): seq<Pending> {
    seq(|lines|, i requires 0 <= i < |lines| =>
      Pending(lines[i].command, Some(Shells.Shell(lines[i].line))))
  }

  function OneoffId(inner: Parsed): seq<Effect> {
    if inner.Measurement? then [ExpectOneoff(inner.job.msmId)] else []
  }

  /** A one-off is announced, and then taken as what it holds. */
  function Announced(command: Parsed): seq<Effect> {
    if command.Oneoff? then OneoffId(command.inner) else []
  }

  function Inner(command: Parsed): Parsed {
    if command.Oneoff? then command.inner else command
  }

  /** The line a crontab keeps of a command: a measurement that recurs. */
  function Kept(p: Pending): seq<ScheduledLine> {
    var command := Inner(p.command);
    if command.Measurement? && command.job.interval > 0 && p.shell.Some?
    then [ScheduledLine(p.shell.value, command.job)] else []
  }

  /** What a command does at once, be it a crontab's line or not. */
  function AtOnce(command: Parsed, inCrontab: bool): seq<Effect> {
    match command
    case Measurement(job) =>
      if job.interval == 0 then [ToScheduler(ExecuteNow(job))]
      else if inCrontab then []
      else [ToScheduler(Schedule(job))]
    case HostTelemetry(_) => [Report(command)]
    case Httppost(_) => [Report(command)]
    case Stop(msmId) => [ToScheduler(StopMeasurement(msmId))]
    case _ => []
  }

  function Effects(p: Pending): seq<Effect> {
    Announced(p.command) + AtOnce(Inner(p.command), p.shell.Some?)
  }

  function LineEffects(pending: seq<Pending>): seq<Effect> {
    if pending == [] then [] else Effects(pending[0]) + LineEffects(pending[1..])
  }

  function KeptLines(pending: seq<Pending>): seq<ScheduledLine> {
    if pending == [] then [] else Kept(pending[0]) + KeptLines(pending[1..])
  }

  /** One command of the session: a crontab's lines at once, and then the
      crontab as one command; anything else by itself. */
  function Taken(command: Command): seq<Effect> {
    match command
    case Crontab(spec) =>
      LineEffects(PendingLines(spec.lines))
      + [ToScheduler(SyncCrontab(Gathering(spec.dir, KeptLines(PendingLines(spec.lines)))))]
    case Single(parsed) => Effects(Pending(parsed, None))
  }

  function Batch(received: seq<Command>): seq<Effect> {
    if received == [] then [] else Taken(received[0]) + Batch(received[1..])
  }

  /** The effects up to the first send that fails, when the scheduler takes
      `room` commands. */
  function Cut(room: nat, effects: seq<Effect>): seq<Effect>
    decreases effects
  {
    if effects == [] || (effects[0].ToScheduler? && room == 0) then []
    else [effects[0]] + Cut(if effects[0].ToScheduler? then room - 1 else room, effects[1..])
  }

  lemma CutCons(room: nat, effect: Effect, rest: seq<Effect>)
    ensures Cut(room, [effect] + rest) ==
            if effect.ToScheduler? && room == 0 then []
            else [effect] + Cut(if effect.ToScheduler? then room - 1 else room, rest)
  {
    assert ([effect] + rest)[1..] == rest;
  }

  lemma CutAnnounced(room: nat, p: Pending, rest: seq<Effect>)
    ensures Cut(room, Effects(p) + rest) ==
            Announced(p.command) + Cut(room, AtOnce(Inner(p.command), p.shell.Some?) + rest)
  {
    var first, act := Announced(p.command), AtOnce(Inner(p.command), p.shell.Some?) + rest;
    assert Effects(p) + rest == first + act;
    if first == [] {
      assert first + act == act && first + Cut(room, act) == Cut(room, act);
    } else {
      assert first == [first[0]];
      CutCons(room, first[0], act);
    }
  }

  /** What is left to do of the lines at hand and the crontab they are of. */
  function Remaining(pending: seq<Pending>, crontab: Option<Gathering>): seq<Effect> {
    LineEffects(pending)
    + (if crontab.Some?
       then [ToScheduler(SyncCrontab(crontab.value.(lines := crontab.value.lines + KeptLines(pending))))]
       else [])
  }

  lemma RemainingNext(pending: seq<Pending>, g: Gathering, rest: seq<Effect>)
    requires pending != []
    ensures Remaining(pending, Some(g)) + rest ==
            Effects(pending[0])
            + (Remaining(pending[1..], Some(g.(lines := g.lines + Kept(pending[0])))) + rest)
  {
    var p, later := pending[0], pending[1..];
    assert g.lines + (Kept(p) + KeptLines(later)) == g.lines + Kept(p) + KeptLines(later);
    var sync := [ToScheduler(SyncCrontab(g.(lines := g.lines + KeptLines(pending))))];
    Regroup(Effects(p), LineEffects(later), sync, rest);
  }

  lemma Regroup<T>(a: seq<T>, b: seq<T>, c: seq<T>, d: seq<T>)
    ensures a + b + c + d == a + (b + c + d)
  {
  }

  class CommandLoop {
    var crontabLines: seq<Pending>
    var crontab: Option<Gathering>
    /** How many more commands the scheduler takes. */
    var room: nat

    constructor (room: nat)
      ensures crontabLines == [] && crontab == None && this.room == room
    {
      crontabLines, crontab := [], None;
      this.room := room;
    }

    /** What is left to do before the next command is received. */
    function Unfinished(): seq<Effect>
      reads this
    {
      Remaining(crontabLines, crontab)
    }

    ghost predicate Valid()
      reads this
    {
      (crontabLines != [] ==> crontab.Some?)
      && forall i :: 0 <= i < |crontabLines| ==> crontabLines[i].shell.Some?
    }

    method Send(command: SchedulerCommand, ghost rest: seq<Effect>) returns (ok: bool, sent: seq<Effect>)
      modifies this`room
      ensures Cut(old(room), [ToScheduler(command)] + rest) == sent + if ok then Cut(room, rest) else []
    {
      CutCons(room, ToScheduler(command), rest);
      if room == 0 {
        return false, [];
      }
      room := room - 1;
      ok, sent := true, [ToScheduler(command)];
    }

    /** Take one command that is not a one-off; false once the scheduler is gone. */
    method Act(command: Parsed, shell: Option<string>, ghost rest: seq<Effect>) returns (ok: bool, sent: seq<Effect>)
      requires shell.Some? ==> crontab.Some?
      modifies this`room, this`crontab
      ensures Cut(old(room), AtOnce(command, shell.Some?) + rest) == sent + if ok then Cut(room, rest) else []
      ensures crontab == if old(crontab).Some? && command.Measurement? && command.job.interval > 0 && shell.Some?
                         then Some(old(crontab).value.(lines := old(crontab).value.lines
                                                               + [ScheduledLine(shell.value, command.job)]))
                         else old(crontab)
    {
      ok, sent := true, [];
      assert [] + rest == rest && [] + Cut(room, rest) == Cut(room, rest);
      match command
      case Measurement(job) =>
        if job.interval > 0 {
          if shell.Some? {
            crontab := Some(crontab.value.(lines := crontab.value.lines + [ScheduledLine(shell.value, job)]));
          } else {
            ok, sent := Send(Schedule(job), rest);
          }
        } else {
          ok, sent := Send(ExecuteNow(job), rest);
        }
      case HostTelemetry(_) =>
        CutCons(room, Report(command), rest);
        sent := [Report(command)];
      case Httppost(_) =>
        CutCons(room, Report(command), rest);
        sent := [Report(command)];
      case Stop(msmId) =>
        ok, sent := Send(StopMeasurement(msmId), rest);
      case _ =>
    }

    /** Take one command; false once the scheduler is gone. */
    method Dispatch(p: Pending, ghost rest: seq<Effect>) returns (ok: bool, done: seq<Effect>)
      requires p.shell.Some? ==> crontab.Some?
      modifies this`room, this`crontab
      ensures Cut(old(room), Effects(p) + rest) == done + if ok then Cut(room, rest) else []
      ensures crontab == if old(crontab).Some?
                         then Some(old(crontab).value.(lines := old(crontab).value.lines + Kept(p)))
                         else None
    {
      var command := p.command;
      done := [];
      if command.Oneoff? {
        var inner := command.inner;
        if inner.Measurement? {
          done := [ExpectOneoff(inner.job.msmId)];
        }
        command := inner;
      }
      assert done == Announced(p.command) && command == Inner(p.command);
      CutAnnounced(room, p, rest);
      if crontab.Some? {
        assert crontab.value.lines + [] == crontab.value.lines;
      }
      var sent;
      ok, sent := Act(command, p.shell, rest);
      ghost var after := if ok then Cut(room, rest) else [];
      assert done + (sent + after) == done + sent + after;
      done := done + sent;
    }

    /** The next line of the crontab. */
    method NextLine(ghost rest: seq<Effect>) returns (ok: bool, done: seq<Effect>)
      requires Valid() && crontabLines != []
      modifies this
      ensures Valid() && crontab.Some? && crontabLines == old(crontabLines)[1..]
      ensures Cut(old(room), old(Unfinished()) + rest) ==
              done + if ok then Cut(room, Unfinished() + rest) else []
    {
      var p := crontabLines[0];
      ghost var g, was := crontab.value, crontabLines;
      crontabLines := crontabLines[1..];
      ghost var later := Remaining(crontabLines, Some(g.(lines := g.lines + Kept(p)))) + rest;
      RemainingNext(was, g, rest);
      ok, done := Dispatch(p, later);
    }

    /** The crontab, once its last line is taken. */
    method EndCrontab(ghost rest: seq<Effect>) returns (ok: bool, done: seq<Effect>)
      requires crontabLines == [] && crontab.Some?
      modifies this
      ensures Valid() && crontab.None? && crontabLines == []
      ensures Cut(old(room), old(Unfinished()) + rest) ==
              done + if ok then Cut(room, Unfinished() + rest) else []
    {
      assert crontab.value.lines + [] == crontab.value.lines;
      assert Unfinished() == [ToScheduler(SyncCrontab(crontab.value))];
      ok, done := Send(SyncCrontab(crontab.value), rest);
      crontab := None;
      assert Unfinished() + rest == rest;
    }

    /** A command just received. */
    method Receive(command: Command, ghost rest: seq<Effect>) returns (ok: bool, done: seq<Effect>)
      requires crontabLines == [] && crontab.None?
      modifies this
      ensures Valid()
      ensures Cut(old(room), Taken(command) + rest) ==
              done + if ok then Cut(room, Unfinished() + rest) else []
    {
      match command
      case Crontab(spec) =>
        crontabLines := PendingLines(spec.lines);
        crontab := Some(Gathering(spec.dir, []));
        assert [] + KeptLines(crontabLines) == KeptLines(crontabLines);
        assert Unfinished() == Taken(command);
        ok, done := true, [];
        assert [] + Cut(room, Taken(command) + rest) == Cut(room, Taken(command) + rest);
      case Single(parsed) =>
        ok, done := Dispatch(Pending(parsed, None), rest);
        assert Unfinished() + rest == rest;
    }

    /** The loop, over all that the session hands on. */
    method Run(received: seq<Command>) returns (effects: seq<Effect>)
      requires crontabLines == [] && crontab == None
      modifies this
      ensures effects == Cut(old(room), Batch(received))
    {
      effects := [];
      var i := 0;
      ghost var all := Cut(room, Batch(received));
      StartOf(received, room);
      while true
        invariant 0 <= i <= |received| && Valid()
        invariant all == effects + Cut(room, Unfinished() + Batch(received[i..]))
        decreases |received| - i, |crontabLines|, crontab.Some?
      {
        ghost var before := effects;
        var ok, done;
        if crontabLines != [] {
          ok, done := NextLine(Batch(received[i..]));
        } else if crontab.Some? {
          ok, done := EndCrontab(Batch(received[i..]));
        } else if i == |received| {
          EndOf(received, room);
          return;
        } else {
          ReceivedNext(received, i);
          i := i + 1;
          ok, done := Receive(received[i - 1], Batch(received[i..]));
        }
        effects := effects + done;
        if !ok {
          assert before + (done + []) == effects;
          return;
        }
        Associative(before, done, Cut(room, Unfinished() + Batch(received[i..])));
      }
    }
  }

  lemma EmptyFirst<T>(s: seq<T>)
    ensures [] + s == s
  {
  }

  lemma NothingRemains()
    ensures Remaining([], None) == []
  {
  }

  lemma StartOf(received: seq<Command>, room: nat)
    ensures Cut(room, Batch(received)) == [] + Cut(room, Remaining([], None) + Batch(received[0..]))
  {
    assert received[0..] == received;
    var batch := Batch(received);
    NothingRemains();
    EmptyFirst(batch);
    EmptyFirst(Cut(room, batch));
  }

  lemma EndOf(received: seq<Command>, room: nat)
    ensures Cut(room, Remaining([], None) + Batch(received[|received|..])) == []
  {
    NothingRemains();
    assert Batch(received[|received|..]) == [];
  }

  lemma BatchNext(received: seq<Command>, i: nat)
    requires i < |received|
    ensures Batch(received[i..]) == Taken(received[i]) + Batch(received[i + 1..])
  {
    assert received[i..][1..] == received[i + 1..];
  }

  lemma ReceivedNext(received: seq<Command>, i: nat)
    requires i < |received|
    ensures Remaining([], None) + Batch(received[i..]) == Taken(received[i]) + Batch(received[i + 1..])
  {
    BatchNext(received, i);
    NothingRemains();
    EmptyFirst(Batch(received[i..]));
  }

  // ---------------------------------------------------------------------

  function SyncOf(effect: Effect): seq<Gathering> {
    if effect.ToScheduler? && effect.command.SyncCrontab? then [effect.command.crontab] else []
  }

  /** The crontabs handed to the scheduler. */
  function Synced(effects: seq<Effect>): seq<Gathering> {
    if effects == [] then [] else SyncOf(effects[0]) + Synced(effects[1..])
  }

  /** The recurring lines of each crontab, in the order they were handed on. */
  function Handed(received: seq<Command>): seq<Gathering> {
    if received == [] then [] else
    (if received[0].Crontab?
     then [Gathering(received[0].spec.dir, KeptLines(PendingLines(received[0].spec.lines)))]
     else []) + Handed(received[1..])
  }

  lemma {:induction false} SyncedAppend(a: seq<Effect>, b: seq<Effect>)
    ensures Synced(a + b) == Synced(a) + Synced(b)
  {
    if a == [] {
      assert a + b == b;
    } else {
      SyncedAppend(a[1..], b);
      assert (a + b)[1..] == a[1..] + b;
      Associative(SyncOf(a[0]), Synced(a[1..]), Synced(b));
    }
  }

  lemma NoSync(p: Pending)
    ensures Synced(Effects(p)) == []
  {
    SyncedAppend(Announced(p.command), AtOnce(Inner(p.command), p.shell.Some?));
  }

  lemma {:induction false} NoSyncInLines(pending: seq<Pending>)
    ensures Synced(LineEffects(pending)) == []
  {
    if pending != [] {
      NoSync(pending[0]);
      NoSyncInLines(pending[1..]);
      SyncedAppend(Effects(pending[0]), LineEffects(pending[1..]));
    }
  }

  /** Each crontab makes one scheduler command, in the order the crontabs
      came, with exactly its recurring lines in order. */
  lemma {:induction false} OneSyncPerCrontab(received: seq<Command>)
    ensures Synced(Batch(received)) == Handed(received)
  {
    if received != [] {
      OneSyncPerCrontab(received[1..]);
      SyncedAppend(Taken(received[0]), Batch(received[1..]));
      match received[0]
      case Crontab(spec) =>
        var pending := PendingLines(spec.lines);
        NoSyncInLines(pending);
        SyncedAppend(LineEffects(pending),
          [ToScheduler(SyncCrontab(Gathering(spec.dir, KeptLines(pending))))]);
      case Single(parsed) => NoSync(Pending(parsed, None));
    }
  }

  /** The commands a session's log hands on. */
  function SentOf(log: seq<Sessions.Event>): seq<Command> {
    if log == [] then [] else
    (if log[0].Sent? then [log[0].command] else []) + SentOf(log[1..])
  }

  lemma {:induction false} HandedFrom(log: seq<Sessions.Event>, g: Gathering) returns (spec: CrontabSpec)
    requires g in Handed(SentOf(log))
    ensures Sessions.Sent(Crontab(spec)) in log
    ensures g == Gathering(spec.dir, KeptLines(PendingLines(spec.lines)))
  {
    if log[0].Sent? {
      var first := log[0].command;
      assert SentOf(log) == [first] + SentOf(log[1..]);
      assert ([first] + SentOf(log[1..]))[1..] == SentOf(log[1..]);
      if first.Crontab? && g == Gathering(first.spec.dir, KeptLines(PendingLines(first.spec.lines))) {
        return first.spec;
      }
    } else {
      assert SentOf(log) == SentOf(log[1..]);
    }
    spec := HandedFrom(log[1..], g);
  }

  /** Every crontab that request lines have the scheduler given was sent whole,
      and holds its recurring lines. */
  lemma SchedulerCrontabsAreWhole(env: Sessions.Env, lines: seq<string>)
    ensures forall g :: g in Synced(Batch(SentOf(Sessions.Requests(env, lines)))) ==>
              exists p: nat, q: nat, spec ::
                Sessions.WholeCrontab(env, lines, p, q, spec)
                && g == Gathering(spec.dir, KeptLines(PendingLines(spec.lines)))
  {
    var log := Sessions.Requests(env, lines);
    OneSyncPerCrontab(SentOf(log));
    forall g | g in Handed(SentOf(log))
      ensures exists p: nat, q: nat, spec ::
                Sessions.WholeCrontab(env, lines, p, q, spec)
                && g == Gathering(spec.dir, KeptLines(PendingLines(spec.lines)))
    {
      var spec := HandedFrom(log, g);
      Sessions.CrontabsAreWhole(env, lines, spec);
    }
  }
}
