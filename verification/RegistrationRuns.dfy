/** Runs of the registration state: restarts are invisible, and a server's WAIT
    is kept. */
module RegistrationRuns {
  import opened Seqs
  import opened SavedState
  import opened InitReplies
  import opened Registrations

  // ---- Reloading between changes ----

  datatype Change =
    | Assign(info: ControllerInfo, now: i64)
    | Postpone(secs: int, now: i64)
    | Reject(reason: string)
    | Reload

  predicate IsPossible(c: Change) {
    match c
    case Assign(info, now) => IsClock(now) && info.host != "" && IsOneLine(info.host)
    case Postpone(_, now) => IsClock(now)
    case Reject(reason) => IsOneLine(reason)
    case Reload => true
  }

  function Apply(r: Reg, c: Change): Reg
    requires IsPossible(c)
  {
    match c
    case Assign(info, now) => Registered(r, info, now)
    case Postpone(secs, now) => ToldToWait(r, secs, now)
    case Reject(reason) => Refuse(r, reason)
    case Reload => Reloaded(r)
  }

  ghost predicate ArePossible(changes: seq<Change>) { forall c :: c in changes ==> IsPossible(c) }

  function Run(r: Reg, changes: seq<Change>): Reg
    requires ArePossible(changes)
    decreases |changes|
  {
    if changes == [] then r else Run(Apply(r, changes[0]), changes[1..])
  }

  function WithoutReloads(changes: seq<Change>): (w: seq<Change>)
    ensures forall c :: c in w ==> c in changes
  {
    if changes == [] then []
    else if changes[0].Reload? then WithoutReloads(changes[1..])
    else [changes[0]] + WithoutReloads(changes[1..])
  }

  function ForgetIn(d: Decision): Decision {
    if d.Cached? then Cached(d.info.(reregSecs := None)) else d
  }

  lemma DecisionForgets(a: Reg, b: Reg, now: i64)
    requires Forget(a) == Forget(b)
    ensures ForgetIn(Decide(a, now)) == ForgetIn(Decide(b, now))
  {
  }

  lemma ApplyForgets(a: Reg, b: Reg, c: Change)
    requires IsPossible(c) && Forget(a) == Forget(b) && IsStorable(a) && IsStorable(b)
    ensures IsStorable(Apply(a, c))
    ensures c.Reload? ==> Forget(Apply(a, c)) == Forget(b)
    ensures !c.Reload? ==> Forget(Apply(a, c)) == Forget(Apply(b, c))
  {
    if c.Reload? { ReloadKeepsStorable(a); }
  }

  /** A run with saves and loads anywhere in it, and the same run without
      them. */
  lemma {:induction false} RunForgets(a: Reg, b: Reg, changes: seq<Change>)
    requires ArePossible(changes) && Forget(a) == Forget(b) && IsStorable(a) && IsStorable(b)
    ensures Forget(Run(a, changes)) == Forget(Run(b, WithoutReloads(changes)))
    decreases |changes|
  {
    if changes != [] {
      var c := changes[0];
      ApplyForgets(a, b, c);
      ApplyForgets(b, a, c);
      RunForgets(Apply(a, c), if c.Reload? then b else Apply(b, c), changes[1..]);
      var rest := WithoutReloads(changes[1..]);
      if !c.Reload? { assert ([c] + rest)[1..] == rest; }
    }
  }

  /** No decision after a run can tell how often the state was saved and
      loaded on the way, but for the REREGISTER seconds of a cached
      assignment. */
  lemma RestartsAreInvisible(r: Reg, changes: seq<Change>, now: i64)
    requires ArePossible(changes) && IsStorable(r)
    ensures ForgetIn(Decide(Run(r, changes), now)) == ForgetIn(Decide(Run(r, WithoutReloads(changes)), now))
  {
    RunForgets(r, r, changes);
    DecisionForgets(Run(r, changes), Run(r, WithoutReloads(changes)), now);
  }

  predicate OneCause(r: Reg) { r.waitUntil.None? || r.forced.None? }

  /** A wait and a forced registration are never both set. */
  lemma {:induction false} NeverWaitAndForced(r: Reg, changes: seq<Change>)
    requires ArePossible(changes) && IsStorable(r) && OneCause(r)
    ensures OneCause(Run(r, changes))
    decreases |changes|
  {
    if changes != [] {
      ApplyForgets(r, r, changes[0]);
      NeverWaitAndForced(Apply(r, changes[0]), changes[1..]);
    }
  }

  // ---- The loop around it ----

  /** What happens to the loop: it decides at a time, and if that is to
      register, `reply` is what the server answered (None for no answer it can
      use); the controller it is on refuses it or is lost; or it is
      restarted. */
  datatype Event =
    | Decides(now: i64, reply: Option<Reply>)
    | ControllerRefuses(reason: string)
    | ControllerLost
    | Restarts

  datatype World = World(reg: Reg, deciding: bool)

  /** The state after a registration server's answer. */
  function Answered(r: Reg, now: i64, reply: Option<Reply>): Reg
    requires IsClock(now)
  {
    if reply.None? then r
    else match reply.value
      case Controller(info) => Registered(r, info, now)
      case Refused(_) => ToldToWait(r, DEFAULT_WAIT_SECS, now)
      case Wait(secs) => ToldToWait(r, secs, now)
      case Plain => r
      case ControllerReady(_, _) => r
  }

  predicate IsSane(e: Event) {
    match e
    case Decides(now, reply) => IsClock(now) && (reply.Some? ==> Keepable(reply.value))
    case ControllerRefuses(reason) => IsOneLine(reason)
    case ControllerLost => true
    case Restarts => true
  }

  /** `load` reads back what was saved of every state whose strings fit on
      their lines. */
  ghost predicate Loads(load: Reg -> Reg) { forall r :: IsStorable(r) ==> load(r) == Forget(r) }

  /** The file does. */
  lemma FileLoads()
    ensures Loads(Reloaded)
  {
    forall r | IsStorable(r)
      ensures Reloaded(r) == Forget(r)
    {
      ReloadKeepsStorable(r);
    }
  }

  /** Every pass through the loop begins by loading what was saved. */
  function Step(load: Reg -> Reg, w: World, e: Event): World
    requires IsSane(e)
  {
    match e
    case Decides(now, reply) =>
      if !w.deciding then w
      else
        var d := Decide(w.reg, now);
        if d.Cached? then World(w.reg, false)
        else if d.WaitUntil? then w
        else World(Answered(w.reg, now, reply), !(reply.Some? && reply.value.Controller?))
    case ControllerRefuses(reason) =>
      if w.deciding then w else World(load(Refuse(w.reg, reason)), true)
    case ControllerLost => if w.deciding then w else World(load(w.reg), true)
    case Restarts => World(load(w.reg), true)
  }

  /** One INIT to a registration server. */
  datatype Entry = Entry(now: i64, reply: Option<Reply>)

  function Asked(w: World, e: Event): seq<Entry> {
    if w.deciding && e.Decides? && Decide(w.reg, e.now).Register? then [Entry(e.now, e.reply)] else []
  }

  ghost predicate AreSane(events: seq<Event>) { forall e :: e in events ==> IsSane(e) }

  /** Every INIT of a run, in order. */
  function Log(load: Reg -> Reg, w: World, events: seq<Event>): seq<Entry>
    requires AreSane(events)
    decreases |events|
  {
    if events == [] then [] else Asked(w, events[0]) + Log(load, Step(load, w, events[0]), events[1..])
  }

  /** The clock does not go back, and is `t` or later from the start. */
  ghost predicate Forward(events: seq<Event>, t: int)
    decreases |events|
  {
    events != [] ==>
      var e := events[0];
      && (e.Decides? ==> t <= e.now)
      && Forward(events[1..], if e.Decides? then e.now else t)
  }

  /** How long the answer asks the probe to stay away. */
  function WaitOf(reply: Option<Reply>): Option<int> {
    if reply.None? then None
    else if reply.value.Refused? then Some(DEFAULT_WAIT_SECS)
    else if reply.value.Wait? then Some(ClampWait(reply.value.timeoutSecs))
    else None
  }

  lemma StepIsStorable(load: Reg -> Reg, w: World, e: Event)
    requires Loads(load) && IsSane(e) && IsStorable(w.reg)
    ensures IsStorable(Step(load, w, e).reg)
  {
  }

  lemma {:induction false} LogIsLater(load: Reg -> Reg, w: World, events: seq<Event>, t: int, j: nat)
    requires AreSane(events) && Forward(events, t) && j < |Log(load, w, events)|
    ensures t <= Log(load, w, events)[j].now
    decreases |events|
  {
    var asked := Asked(w, events[0]);
    if j >= |asked| {
      var later := if events[0].Decides? then events[0].now else t;
      LogIsLater(load, Step(load, w, events[0]), events[1..], later, j - |asked|);
    }
  }

  predicate IsWaiting(w: World, t: i64) {
    w.deciding && w.reg.waitUntil == Some(t) && w.reg.forced == None
  }

  /** While a server's wait lasts, no registration server is asked, whatever
      happens: no controller is asked either, so none can refuse. */
  lemma {:induction false} NoneWhileWaiting(load: Reg -> Reg, w: World, events: seq<Event>, t: i64, from: int, j: nat)
    requires Loads(load) && AreSane(events) && Forward(events, from) && IsStorable(w.reg)
    requires IsWaiting(w, t) && j < |Log(load, w, events)|
    ensures t <= Log(load, w, events)[j].now
    decreases |events|
  {
    var e := events[0];
    if e.Decides? && t <= e.now {
      assert Forward(events, t);
      LogIsLater(load, w, events, t, j);
    } else {
      StepIsStorable(load, w, e);
      NoneWhileWaiting(load, Step(load, w, e), events[1..], t, if e.Decides? then e.now else from, j);
    }
  }

  lemma AnswerStartsWait(load: Reg -> Reg, w: World, e: Event)
    requires IsSane(e) && Asked(w, e) != [] && WaitOf(e.reply).Some?
    ensures IsWaiting(Step(load, w, e), e.now + WaitOf(e.reply).value)
  {
  }

  lemma LogAt(load: Reg -> Reg, w: World, events: seq<Event>, j: nat)
    requires AreSane(events) && j < |Log(load, w, events)|
    ensures var asked := Asked(w, events[0]);
            && |asked| <= 1
            && Log(load, w, events)[j] ==
               if j < |asked| then asked[j] else Log(load, Step(load, w, events[0]), events[1..])[j - |asked|]
  {
  }

  lemma AfterWait(load: Reg -> Reg, w: World, e: Event)
    requires Loads(load) && IsSane(e) && IsStorable(w.reg) && Asked(w, e) != [] && WaitOf(e.reply).Some?
    ensures IsStorable(Step(load, w, e).reg)
    ensures IsWaiting(Step(load, w, e), e.now + WaitOf(e.reply).value)
  {
    StepIsStorable(load, w, e);
    AnswerStartsWait(load, w, e);
  }

  lemma FirstWaitIsKept(load: Reg -> Reg, w: World, e: Event, next: World, rest: seq<Event>, j: nat)
    requires Loads(load) && IsSane(e) && IsStorable(w.reg) && next == Step(load, w, e)
    requires Asked(w, e) != [] && WaitOf(e.reply).Some?
    requires AreSane(rest) && Forward(rest, e.now) && j < |Log(load, next, rest)|
    ensures e.now + WaitOf(e.reply).value <= Log(load, next, rest)[j].now
  {
    AfterWait(load, w, e);
    NoneWhileWaiting(load, next, rest, e.now + WaitOf(e.reply).value, e.now, j);
  }

  /** In any run, restarts included: once a registration server answers WAIT or
      REFUSED, the next INIT to one comes no sooner than the wait, and that is
      at least 100 s. */
  lemma {:induction false} WaitsAreKept(load: Reg -> Reg, w: World, events: seq<Event>, from: int, i: nat, j: nat)
    requires Loads(load) && AreSane(events) && Forward(events, from) && IsStorable(w.reg)
    requires i < j < |Log(load, w, events)| && WaitOf(Log(load, w, events)[i].reply).Some?
    ensures var log := Log(load, w, events);
            log[i].now + WaitOf(log[i].reply).value <= log[j].now
    ensures WaitOf(Log(load, w, events)[i].reply).value >= MIN_WAIT_SECS
    decreases |events|
  {
    var e, rest := events[0], events[1..];
    var next, asked := Step(load, w, e), |Asked(w, e)|;
    LogAt(load, w, events, i);
    LogAt(load, w, events, j);
    if i < asked {
      FirstWaitIsKept(load, w, e, next, rest, j - asked);
    } else {
      StepIsStorable(load, w, e);
      WaitsAreKept(load, next, rest, if e.Decides? then e.now else from, i - asked, j - asked);
    }
  }

  /** The same of the state that goes through its file. */
  lemma FileKeepsWaits(w: World, events: seq<Event>, from: int, i: nat, j: nat)
    requires AreSane(events) && Forward(events, from) && IsStorable(w.reg)
    requires i < j < |Log(Reloaded, w, events)| && WaitOf(Log(Reloaded, w, events)[i].reply).Some?
    ensures var log := Log(Reloaded, w, events);
            log[i].now + MIN_WAIT_SECS <= log[i].now + WaitOf(log[i].reply).value <= log[j].now
  {
    FileLoads();
    WaitsAreKept(Reloaded, w, events, from, i, j);
  }

  /** A refusal by the controller clears any wait: the next decision, whenever
      it is made, is to register. The pause before it is the loop's own. */
  lemma RefusalRegistersAtOnce(load: Reg -> Reg, w: World, reason: string, now: i64, reply: Option<Reply>)
    requires Loads(load) && !w.deciding && IsSane(ControllerRefuses(reason))
    ensures Asked(Step(load, w, ControllerRefuses(reason)), Decides(now, reply)) == [Entry(now, reply)]
  {
    assert IsStorable(Refuse(w.reg, reason));
  }
}
