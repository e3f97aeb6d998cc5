/** One controller session at a time: sessions on one or several session-ID
    cells, interleaved a line at a time, and the registry through which a
    session that authenticates takes over from an older one. */
module TakeOvers {
  import opened Seqs
  import opened Commands
  import opened Sessions

  type Cell = nat
  type Sid = nat

  /** The two ends of a watch channel: a sender's version, and the version a
      receiver has seen. */
  datatype Tx = Tx(chan: nat, version: nat)
  datatype Rx = Rx(chan: nat, seen: nat)

  type Registry = map<Cell, Tx>

  /** The registry without the senders nobody listens to. */
  function Retained(registry: Registry, receivers: set<nat>): Registry {
    map cell | cell in registry && registry[cell].chan in receivers :: registry[cell]
  }

  /** The sender for `cell`, made afresh when there is none. */
  function SenderOf(registry: Registry, made: nat, cell: Cell): Tx {
    if cell in registry then registry[cell] else Tx(made, 0)
  }

  function Bumped(tx: Tx): Tx {
    tx.(version := tx.version + 1)
  }

  class AtlasSessions {
    var sessions: Registry
    var made: nat

    constructor ()
      ensures sessions == map[] && made == 0
    {
      sessions, made := map[], 0;
    }

    /** The session on `cell` has authenticated; `receivers` are the channels
        some session still listens to. */
    method TakeOver(cell: Cell, receivers: set<nat>) returns (rx: Rx)
      modifies this
      ensures var kept := Retained(old(sessions), receivers);
              var tx := Bumped(SenderOf(kept, old(made), cell));
              sessions == kept[cell := tx] && rx == Rx(tx.chan, tx.version)
              && made == if cell in kept then old(made) else old(made) + 1
    {
      sessions := Retained(sessions, receivers);
      if cell !in sessions {
        sessions := sessions[cell := Tx(made, 0)];
        made := made + 1;
      }
      var tx := sessions[cell];
      tx := tx.(version := tx.version + 1);
      sessions := sessions[cell := tx];
      rx := Rx(tx.chan, tx.version);
    }
  }

  // ---------------------------------------------------------------------
  // All sessions together

  datatype Live = Live(cell: Cell, state: State, rx: Option<Rx>)

  datatype Entry =
    | Authenticated(sid: Sid, cell: Cell)
    | Forwarded(sid: Sid, cell: Cell, command: Command)

  datatype World = World(live: map<Sid, Live>, next: Sid, registry: Registry, made: nat, log: seq<Entry>)

  const INIT := World(map[], 0, map[], 0, [])

  datatype Action =
    | Connect(cell: Cell)
    | Line(sid: Sid, env: Env, chan: Channel, line: string)
    | Woken(sid: Sid)
    | Gone(sid: Sid)

  function Receivers(live: map<Sid, Live>): set<nat> {
    set sid | sid in live && live[sid].rx.Some? :: live[sid].rx.value.chan
  }

  /** A newer session has bumped the sender this one listens to. */
  predicate HasChanged(w: World, sid: Sid)
    requires sid in w.live
  {
    var s := w.live[sid];
    s.rx.Some? && s.cell in w.registry && w.registry[s.cell].chan == s.rx.value.chan
    && w.registry[s.cell].version > s.rx.value.seen
  }

  function Forwards(sid: Sid, cell: Cell, events: seq<Event>): seq<Entry> {
    if events == [] then [] else
    (if events[0].Sent? then [Forwarded(sid, cell, events[0].command)] else [])
    + Forwards(sid, cell, events[1..])
  }

  function Ended(w: World, sid: Sid): World {
    w.(live := w.live - {sid})
  }

  function TakenOver(w: World, sid: Sid, st: State): World
    requires sid in w.live
  {
    var cell := w.live[sid].cell;
    var kept := Retained(w.registry, Receivers(w.live));
    var tx := Bumped(SenderOf(kept, w.made, cell));
    World(w.live[sid := Live(cell, st, Some(Rx(tx.chan, tx.version)))], w.next, kept[cell := tx],
          if cell in kept then w.made else w.made + 1, w.log + [Authenticated(sid, cell)])
  }

  function LineStep(w: World, sid: Sid, env: Env, chan: Channel, line: string): World
    requires sid in w.live
  {
    var s := w.live[sid];
    if HasChanged(w, sid) then Ended(w, sid) else
    var (st, _, events) := ChannelStep(env, s.state, chan, line);
    var log := w.log + Forwards(sid, s.cell, events);
    if st.phase == Closed then Ended(w.(log := log), sid)
    else if s.state.phase.GetPassword? && st.phase == GetCmd then
      TakenOver(w.(log := log), sid, st)
    else w.(live := w.live[sid := s.(state := st)], log := log)
  }

  function Step(w: World, action: Action): World {
    match action
    case Connect(cell) => w.(live := w.live[w.next := Live(cell, START, None)], next := w.next + 1)
    case Line(sid, env, chan, line) => if sid in w.live then LineStep(w, sid, env, chan, line) else w
    case Woken(sid) => if sid in w.live && HasChanged(w, sid) then Ended(w, sid) else w
    case Gone(sid) => Ended(w, sid)
  }

  function Run(w: World, actions: seq<Action>): World
    decreases actions
  {
    if actions == [] then w else Run(Step(w, actions[0]), actions[1..])
  }

  // ---------------------------------------------------------------------
  // What holds in every world

  /** Who authenticated last on a cell. */
  function Latest(log: seq<Entry>, cell: Cell): Option<Sid> {
    if log == [] then None else
    var last := log[|log| - 1];
    if last.Authenticated? && last.cell == cell then Some(last.sid) else Latest(log[..|log| - 1], cell)
  }

  predicate InRequest(phase: Phase) {
    phase == GetCmd || phase == DoCrontab || phase == EomSeen
  }

  /** A live session listens exactly once it has authenticated, and then its
      sender is in the registry. */
  ghost predicate Listening(w: World, sid: Sid)
    requires sid in w.live
  {
    var s := w.live[sid];
    && sid < w.next
    && s.state.phase != Closed
    && (s.rx.Some? <==> InRequest(s.state.phase))
    && (s.rx.Some? ==> s.cell in w.registry && w.registry[s.cell].chan == s.rx.value.chan
                       && s.rx.value.seen <= w.registry[s.cell].version)
  }

  predicate Newest(w: World, sid: Sid) {
    sid in w.live && w.live[sid].rx.Some? && !HasChanged(w, sid)
  }

  /** Every forwarded command is from the session that authenticated last. */
  ghost predicate Exclusive(log: seq<Entry>) {
    forall i :: 0 <= i < |log| && log[i].Forwarded? ==> Latest(log[..i], log[i].cell) == Some(log[i].sid)
  }

  ghost predicate AllListening(w: World) {
    forall sid :: sid in w.live ==> Listening(w, sid)
  }

  /** No two sessions on a cell have seen the same version. */
  ghost predicate DistinctlySeen(w: World) {
    forall a, b :: a in w.live && b in w.live && a != b && w.live[a].cell == w.live[b].cell
                   && w.live[a].rx.Some? && w.live[b].rx.Some?
                   ==> w.live[a].rx.value.seen != w.live[b].rx.value.seen
  }

  ghost predicate NewestIsLatest(w: World) {
    forall sid :: Newest(w, sid) ==> Latest(w.log, w.live[sid].cell) == Some(sid)
  }

  ghost predicate Inv(w: World) {
    AllListening(w) && DistinctlySeen(w) && NewestIsLatest(w) && Exclusive(w.log)
  }

  lemma {:induction false} LatestThroughForwards(log: seq<Entry>, more: seq<Entry>, cell: Cell)
    requires forall e :: e in more ==> e.Forwarded?
    ensures Latest(log + more, cell) == Latest(log, cell)
    decreases more
  {
    if more == [] {
      assert log + more == log;
    } else {
      var front := more[..|more| - 1];
      assert (log + more)[..|log + more| - 1] == log + front;
      assert (log + more)[|log + more| - 1] == more[|more| - 1];
      assert more[|more| - 1] in more;
      LatestThroughForwards(log, front, cell);
    }
  }

  lemma {:induction false} ForwardsAre(sid: Sid, cell: Cell, events: seq<Event>)
    ensures forall e :: e in Forwards(sid, cell, events) ==> e.Forwarded? && e.sid == sid && e.cell == cell
    ensures (forall e :: e in events ==> e.Replied?) ==> Forwards(sid, cell, events) == []
  {
    if events != [] {
      ForwardsAre(sid, cell, events[1..]);
      assert events[0] in events;
    }
  }

  lemma ExclusiveAppend(log: seq<Entry>, more: seq<Entry>, sid: Sid, cell: Cell)
    requires Exclusive(log)
    requires forall e :: e in more ==> e.Forwarded? && e.sid == sid && e.cell == cell
    requires more != [] ==> Latest(log, cell) == Some(sid)
    ensures Exclusive(log + more)
  {
    var all := log + more;
    forall i | 0 <= i < |all| && all[i].Forwarded?
      ensures Latest(all[..i], all[i].cell) == Some(all[i].sid)
    {
      if i < |log| {
        assert all[..i] == log[..i] && all[i] == log[i];
      } else {
        var part := more[..i - |log|];
        assert all[..i] == log + part && all[i] == more[i - |log|];
        assert all[i] in more;
        LatestThroughForwards(log, part, cell);
      }
    }
  }

  /** What a line can do to a session's phase, and when it can forward. */
  lemma LineFacts(env: Env, st: State, chan: Channel, line: string)
    requires st.phase != Closed
    ensures var (next, _, events) := ChannelStep(env, st, chan, line);
            && (InRequest(st.phase) ==> InRequest(next.phase) || next.phase == Closed)
            && (!InRequest(st.phase) ==>
                  (forall e :: e in events ==> e.Replied?)
                  && (InRequest(next.phase) ==> st.phase.GetPassword? && next.phase == GetCmd))
  {
    var (next, log) := Sessions.Step(env, st, line);
    if !InRequest(st.phase) {
      DeliverReplies(chan, log);
    }
  }

  lemma EndedKeeps(w: World, sid: Sid)
    requires Inv(w)
    ensures Inv(Ended(w, sid))
  {
    var v := Ended(w, sid);
    forall s | s in v.live
      ensures Listening(v, s)
    {
      assert Listening(w, s);
    }
    forall s | Newest(v, s)
      ensures Latest(v.log, v.live[s].cell) == Some(s)
    {
      assert Newest(w, s);
    }
  }

  /** The forwarded commands of a line that is taken keep the invariant. */
  lemma ForwardsKeep(w: World, sid: Sid, events: seq<Event>)
    requires Inv(w) && sid in w.live && !HasChanged(w, sid)
    requires w.live[sid].rx.None? ==> forall e :: e in events ==> e.Replied?
    ensures Inv(w.(log := w.log + Forwards(sid, w.live[sid].cell, events)))
  {
    var cell := w.live[sid].cell;
    var more := Forwards(sid, cell, events);
    var v := w.(log := w.log + more);
    ForwardsAre(sid, cell, events);
    if w.live[sid].rx.Some? {
      assert Newest(w, sid);
    }
    ExclusiveAppend(w.log, more, sid, cell);
    forall s | s in v.live
      ensures Listening(v, s)
    {
      assert Listening(w, s);
    }
    forall s | Newest(v, s)
      ensures Latest(v.log, v.live[s].cell) == Some(s)
    {
      assert Newest(w, s);
      LatestThroughForwards(w.log, more, v.live[s].cell);
    }
  }

  /** A session that only moves on within its phase group. */
  lemma StateKeeps(w: World, sid: Sid, st: State)
    requires Inv(w) && sid in w.live && st.phase != Closed
    requires InRequest(st.phase) <==> InRequest(w.live[sid].state.phase)
    ensures Inv(w.(live := w.live[sid := w.live[sid].(state := st)]))
  {
    var v := w.(live := w.live[sid := w.live[sid].(state := st)]);
    assert Listening(w, sid);
    forall s | s in v.live
      ensures Listening(v, s)
    {
      assert Listening(w, s);
    }
    forall s | Newest(v, s)
      ensures Latest(v.log, v.live[s].cell) == Some(s)
    {
      assert Newest(w, s);
    }
  }

  /** A live session's sender is never dropped from the registry. */
  lemma RetainKeepsListeners(w: World, sid: Sid)
    requires AllListening(w) && sid in w.live && w.live[sid].rx.Some?
    ensures w.live[sid].cell in Retained(w.registry, Receivers(w.live))
  {
    assert Listening(w, sid);
    assert w.live[sid].rx.value.chan in Receivers(w.live);
  }

  /** A session that authenticates listens, and every other one on its cell
      sees it as newer. */
  lemma TakeOverListening(w: World, sid: Sid, st: State)
    requires AllListening(w) && sid in w.live && st.phase == GetCmd
    ensures var v := TakenOver(w, sid, st);
            && AllListening(v)
            && Newest(v, sid)
            && (forall s :: s in w.live && s != sid && w.live[s].cell == w.live[sid].cell && w.live[s].rx.Some?
                            ==> HasChanged(v, s))
            && (forall s :: s in w.live && s != sid && w.live[s].rx.Some? && w.live[s].cell != w.live[sid].cell
                            ==> v.registry[w.live[s].cell] == w.registry[w.live[s].cell])
  {
    var v := TakenOver(w, sid, st);
    assert Listening(w, sid);
    forall s | s in w.live && s != sid
      ensures Listening(v, s)
      ensures w.live[s].rx.Some? && w.live[s].cell == w.live[sid].cell ==> HasChanged(v, s)
      ensures w.live[s].rx.Some? && w.live[s].cell != w.live[sid].cell ==>
                w.live[s].cell in v.registry && v.registry[w.live[s].cell] == w.registry[w.live[s].cell]
    {
      assert Listening(w, s);
      if w.live[s].rx.Some? {
        RetainKeepsListeners(w, s);
      }
    }
    assert Listening(v, sid);
  }

  lemma TakeOverKeeps(w: World, sid: Sid, st: State)
    requires Inv(w) && sid in w.live && w.live[sid].rx.None? && st.phase == GetCmd
    ensures Inv(TakenOver(w, sid, st))
  {
    var v := TakenOver(w, sid, st);
    var cell := w.live[sid].cell;
    TakeOverListening(w, sid, st);
    assert v.log[..|v.log| - 1] == w.log;
    forall s | Newest(v, s)
      ensures Latest(v.log, v.live[s].cell) == Some(s)
    {
      if s != sid {
        assert Newest(w, s) by {
          assert Listening(w, s);
        }
      }
    }
    assert Exclusive(v.log) by {
      forall i | 0 <= i < |v.log| && v.log[i].Forwarded?
        ensures Latest(v.log[..i], v.log[i].cell) == Some(v.log[i].sid)
      {
        assert v.log[..i] == w.log[..i] && v.log[i] == w.log[i];
      }
    }
    TakeOverDistinct(w, sid, st);
  }

  lemma TakeOverDistinct(w: World, sid: Sid, st: State)
    requires AllListening(w) && DistinctlySeen(w) && sid in w.live && st.phase == GetCmd
    ensures DistinctlySeen(TakenOver(w, sid, st))
  {
    var v := TakenOver(w, sid, st);
    TakeOverListening(w, sid, st);
    forall a, b | a in v.live && b in v.live && a != b && v.live[a].cell == v.live[b].cell
                  && v.live[a].rx.Some? && v.live[b].rx.Some?
      ensures v.live[a].rx.value.seen != v.live[b].rx.value.seen
    {
      if a == sid {
        assert HasChanged(v, b);
      } else if b == sid {
        assert HasChanged(v, a);
      }
    }
  }

  lemma LineKeeps(w: World, sid: Sid, env: Env, chan: Channel, line: string)
    requires Inv(w) && sid in w.live
    ensures Inv(LineStep(w, sid, env, chan, line))
  {
    if HasChanged(w, sid) {
      EndedKeeps(w, sid);
    } else {
      assert Listening(w, sid);
      var s := w.live[sid];
      var (st, _, events) := ChannelStep(env, s.state, chan, line);
      LineFacts(env, s.state, chan, line);
      ForwardsKeep(w, sid, events);
      var v := w.(log := w.log + Forwards(sid, s.cell, events));
      if st.phase == Closed {
        EndedKeeps(v, sid);
      } else if s.state.phase.GetPassword? && st.phase == GetCmd {
        TakeOverKeeps(v, sid, st);
      } else {
        StateKeeps(v, sid, st);
      }
    }
  }

  lemma ConnectKeeps(w: World, cell: Cell)
    requires Inv(w)
    ensures Inv(Step(w, Connect(cell)))
  {
    var v := Step(w, Connect(cell));
    forall s | s in w.live
      ensures s != w.next
    {
      assert Listening(w, s);
    }
    forall s | s in v.live
      ensures Listening(v, s)
    {
      if s != w.next {
        assert Listening(w, s);
      }
    }
    forall s | Newest(v, s)
      ensures Latest(v.log, v.live[s].cell) == Some(s)
    {
      assert Newest(w, s);
    }
  }

  lemma StepKeeps(w: World, action: Action)
    requires Inv(w)
    ensures Inv(Step(w, action))
  {
    match action
    case Connect(cell) => ConnectKeeps(w, cell);
    case Line(sid, env, chan, line) =>
      if sid in w.live {
        LineKeeps(w, sid, env, chan, line);
      }
    case Woken(sid) => EndedKeeps(w, sid);
    case Gone(sid) => EndedKeeps(w, sid);
  }

  lemma {:induction false} RunKeeps(w: World, actions: seq<Action>)
    requires Inv(w)
    ensures Inv(Run(w, actions))
    decreases actions
  {
    if actions != [] {
      StepKeeps(w, actions[0]);
      RunKeeps(Step(w, actions[0]), actions[1..]);
    }
  }

  /** In every interleaving, of the live authenticated sessions on a cell at
      most one sees no newer one. */
  lemma AtMostOneNewest(actions: seq<Action>, a: Sid, b: Sid)
    ensures var w := Run(INIT, actions);
            Newest(w, a) && Newest(w, b) && w.live[a].cell == w.live[b].cell ==> a == b
  {
    RunKeeps(INIT, actions);
    var w := Run(INIT, actions);
    if Newest(w, a) && Newest(w, b) {
      assert Listening(w, a) && Listening(w, b);
    }
  }

  /** In every interleaving, each forwarded command comes from the session
      that had authenticated last on its cell. */
  lemma ForwardedByLatest(actions: seq<Action>)
    ensures Exclusive(Run(INIT, actions).log)
  {
    RunKeeps(INIT, actions);
  }

  lemma {:induction false} LatestIs(log: seq<Entry>, cell: Cell)
    ensures Latest(log, cell).Some? ==>
              exists i :: 0 <= i < |log| && log[i] == Authenticated(Latest(log, cell).value, cell)
                          && forall j :: i < j < |log| && log[j].Authenticated? ==> log[j].cell != cell
    decreases log
  {
    if log != [] {
      var n := |log| - 1;
      if log[n].Authenticated? && log[n].cell == cell {
        assert log[n] == Authenticated(Latest(log, cell).value, cell);
      } else {
        LatestIs(log[..n], cell);
        if Latest(log, cell).Some? {
          var i :| 0 <= i < n && log[..n][i] == Authenticated(Latest(log, cell).value, cell)
                   && forall j :: i < j < n && log[..n][j].Authenticated? ==> log[..n][j].cell != cell;
          assert log[i] == Authenticated(Latest(log, cell).value, cell);
          forall j | i < j < |log| && log[j].Authenticated?
            ensures log[j].cell != cell
          {
            if j < n {
              assert log[..n][j] == log[j];
            }
          }
        }
      }
    }
  }

  /** No session authenticates twice: one that did, if it still lives, is past
      its password. */
  ghost predicate Once(w: World) {
    && (forall i, j :: 0 <= i < j < |w.log| && w.log[i].Authenticated? && w.log[j].Authenticated? ==>
          w.log[i].sid != w.log[j].sid)
    && (forall i :: 0 <= i < |w.log| && w.log[i].Authenticated? ==>
          w.log[i].sid < w.next && (w.log[i].sid in w.live ==> w.live[w.log[i].sid].rx.Some?))
  }

  lemma OnceForwards(w: World, sid: Sid, cell: Cell, events: seq<Event>)
    requires Once(w)
    ensures Once(w.(log := w.log + Forwards(sid, cell, events)))
  {
    var more := Forwards(sid, cell, events);
    ForwardsAre(sid, cell, events);
    var v := w.(log := w.log + more);
    forall i | |w.log| <= i < |v.log|
      ensures v.log[i].Forwarded?
    {
      assert v.log[i] in more;
    }
  }

  lemma OnceStep(w: World, action: Action)
    requires AllListening(w) && Once(w)
    ensures Once(Step(w, action))
  {
    if action.Line? && action.sid in w.live && !HasChanged(w, action.sid) {
      var sid := action.sid;
      assert Listening(w, sid);
      var events := ChannelStep(action.env, w.live[sid].state, action.chan, action.line).2;
      OnceForwards(w, sid, w.live[sid].cell, events);
    }
  }

  lemma {:induction false} OnceRun(w: World, actions: seq<Action>)
    requires Inv(w) && Once(w)
    ensures Once(Run(w, actions))
    decreases actions
  {
    if actions != [] {
      StepKeeps(w, actions[0]);
      OnceStep(w, actions[0]);
      OnceRun(Step(w, actions[0]), actions[1..]);
    }
  }

  /** Once a newer session has authenticated on a cell, an older one forwards
      nothing any more, its open crontab included. */
  lemma OlderIsSilent(actions: seq<Action>, i: nat, j: nat, k: nat)
    requires var log := Run(INIT, actions).log;
             i < j < k < |log| && log[i].Authenticated? && log[j].Authenticated?
             && log[i].cell == log[j].cell && log[k].Forwarded? && log[k].cell == log[i].cell
    ensures var log := Run(INIT, actions).log; log[k].sid != log[i].sid
  {
    RunKeeps(INIT, actions);
    OnceRun(INIT, actions);
    var log := Run(INIT, actions).log;
    var past := log[..k];
    var cell := log[k].cell;
    LatestIs(past, cell);
    var m :| 0 <= m < k && past[m] == Authenticated(log[k].sid, cell)
             && forall n :: m < n < k && past[n].Authenticated? ==> past[n].cell != cell;
    assert past[j] == log[j] && past[m] == log[m];
    assert log[m] == past[m] && m >= j;
  }
}
