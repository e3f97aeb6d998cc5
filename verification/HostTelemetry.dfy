/** Telemetry lines waiting for the next upload, drained by it and put back
    if it fails. */
module HostTelemetries {
  import opened Seqs

  const MAX_PENDING: nat := 64

  function Capped(pending: seq<string>): seq<string> {
    LastN(pending, MAX_PENDING)
  }

  class HostTelemetry {
    var pending: seq<string>

    constructor ()
      ensures pending == []
    {
      pending := [];
    }

    method CapPending()
      modifies this
      ensures pending == Capped(old(pending))
    {
      if |pending| > MAX_PENDING {
        var excess := |pending| - MAX_PENDING;
        pending := pending[excess..];
      }
    }

    method Push(line: string)
      modifies this
      ensures pending == Capped(old(pending) + [line])
    {
      pending := pending + [line];
      CapPending();
    }

    method Drain() returns (lines: seq<string>)
      modifies this
      ensures lines == old(pending) && pending == []
    {
      lines := pending;
      pending := [];
    }

    method Restore(lines: seq<string>)
      modifies this
      ensures pending == if lines == [] then old(pending) else Capped(lines + old(pending))
    {
      if lines != [] {
        pending := lines + pending;
        CapPending();
      }
    }
  }

  /** `since` is what was pushed since the last accepted upload drained;
      `mark` is how much of it the upload in flight has taken. */
  datatype State = State(pending: seq<string>, flying: Option<seq<string>>, since: seq<string>, mark: nat)

  const START := State([], None, [], 0)

  datatype Event = Push(line: string) | Begin | End(accepted: bool)

  function Step(st: State, e: Event): State {
    match e
    case Push(line) => st.(pending := Capped(st.pending + [line]), since := st.since + [line])
    case Begin =>
      if st.flying.Some? then st
      else State([], Some(st.pending), st.since, |st.since|)
    case End(accepted) =>
      if st.flying.None? || st.mark > |st.since| then st
      else if accepted then State(st.pending, None, st.since[st.mark..], 0)
      else st.(pending := if st.flying.value == [] then st.pending else Capped(st.flying.value + st.pending),
               flying := None)
  }

  function Run(st: State, events: seq<Event>): State
    decreases events
  {
    if events == [] then st else Run(Step(st, events[0]), events[1..])
  }

  ghost predicate Inv(st: State) {
    if st.flying.None? then st.pending == Capped(st.since)
    else st.mark <= |st.since| && st.flying.value == Capped(st.since[..st.mark])
         && st.pending == Capped(st.since[st.mark..])
  }

  lemma CappedAppend(a: seq<string>, b: seq<string>)
    ensures Capped(Capped(a) + Capped(b)) == Capped(a + b)
    ensures Capped(Capped(a) + b) == Capped(a + b)
  {
  }

  lemma StepKeeps(st: State, e: Event)
    requires Inv(st)
    ensures Inv(Step(st, e))
  {
    match e
    case Push(line) =>
      if st.flying.None? {
        CappedAppend(st.since, [line]);
      } else {
        CappedAppend(st.since[st.mark..], [line]);
        assert (st.since + [line])[..st.mark] == st.since[..st.mark];
        assert (st.since + [line])[st.mark..] == st.since[st.mark..] + [line];
      }
    case Begin =>
      assert st.since[..|st.since|] == st.since && st.since[|st.since|..] == [];
    case End(accepted) =>
      if st.flying.Some? {
        CappedAppend(st.since[..st.mark], st.since[st.mark..]);
        assert st.since == st.since[..st.mark] + st.since[st.mark..];
        if st.flying.value == [] {
          assert st.since[..st.mark] == [];
        }
      }
  }

  /** Whenever no upload is in flight, the lines pending are exactly the last
      64, or all if fewer, of those pushed since the last accepted upload
      drained, however many uploads failed in between. */
  lemma {:induction false} PendingIsLatest(st: State, events: seq<Event>)
    requires Inv(st)
    ensures Inv(Run(st, events))
    ensures Run(st, events).flying.None? ==> Run(st, events).pending == LastN(Run(st, events).since, 64)
    decreases events
  {
    if events != [] {
      StepKeeps(st, events[0]);
      PendingIsLatest(Step(st, events[0]), events[1..]);
    }
  }

  /** Between two accepted uploads, every line is in the second one, unless
      64 newer ones came. */
  lemma NextUploadCarries(events: seq<Event>)
    requires Run(START, events).flying.None?
    ensures var st := Run(START, events);
            Step(st, Begin).flying == Some(LastN(st.since, 64))
  {
    PendingIsLatest(START, events);
  }
}
