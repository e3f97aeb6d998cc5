/** The stub resolver as its queries, probes and readers interleave. Each
    lock-held section is one step; what is sent, lost and answered is left to
    the run. */
module Resolvers {
  import opened Seqs
  import opened NameServers
  import Rings

  /** Where a query is between two locked sections. */
  datatype Pc =
    | Picked                    // a server, but no ID yet
    | Registered                // in flight, nothing sent yet
    | Waiting                   // for a reply
    | SendFailed(again: bool)   // its server is to be marked down
    | Counting                  // a retransmission to be counted
    | TooMany                   // its server is to be marked down
    | Refusing                  // its server is to be marked down
    | Reissuing                 // another server is to be picked
    | GivingUp                  // its server is to be marked down
    | Good(answer: Answer)      // its server is to be marked up
    | Done(answer: Answer)      // over, but its ID not given up yet

  datatype Ask = Ask(server: nat, owner: Option<nat>, id: Option<nat>,
                     txCount: nat, reissues: nat, sent: nat, pc: Pc)

  /** A probe sleeps, asks, or has its answer. */
  datatype Phase = Sleeping | Asking(ask: nat) | Told(answer: Answer)

  datatype Probe = Probe(server: nat, generation: nat, failures: nat, delay: nat, phase: Phase)

  datatype Net = Net(conf: Conf, servers: seq<Server>, head: nat,
                     asks: map<nat, Ask>, inflight: map<nat, nat>, probes: map<nat, Probe>, next: nat)

  datatype Event =
    | StartLookup
    | Wake(p: nat)
    | TakeId(a: nat, id: nat)
    | Unbuildable(a: nat)
    | Transmit(a: nat, left: bool)
    | Timeout(a: nat, left: bool)
    | Answered(a: nat, answer: Answer)
    | RefusedReply(a: nat)
    | MarkDown(a: nat)
    | MarkUp(a: nat)
    | CountIt(a: nat)
    | Reissue(a: nat)
    | Return(a: nat)
    | ProbeTold(p: nat)
    | ReadDatagram(server: nat)
    | ReadError(server: nat)

  // ---------------------------------------------------------------------
  // The steps

  function Init(conf: Conf, n: nat): Net {
    Net(conf, seq(n, _ => FRESH), 0, map[], map[], map[], 0)
  }

  /** Mark a server down, and start its probe unless it was down already. */
  function FailServer(n: Net, i: nat): Net
    requires i < |n.servers|
  {
    if n.servers[i].down then n else
    var s := WentDown(n.servers[i]);
    n.(servers := n.servers[i := s],
       probes := n.probes[n.next := Probe(i, s.generation, 0, n.conf.probeTimeout, Sleeping)],
       next := n.next + 1)
  }

  function UpServer(n: Net, i: nat): Net
    requires i < |n.servers|
  {
    n.(servers := n.servers[i := BackUp(n.servers[i])])
  }

  function PickOf(n: Net): (nat, nat)
    requires n.head < |n.servers|
  {
    Rings.Pick(UpOf(n.servers), n.head)
  }

  function SetAsk(n: Net, a: nat, ask: Ask): Net {
    n.(asks := n.asks[a := ask])
  }

  function StillDown(n: Net, p: Probe): bool {
    p.server < |n.servers| && n.servers[p.server].down && n.servers[p.server].generation == p.generation
  }

  function NewAsk(server: nat, owner: Option<nat>): Ask {
    Ask(server, owner, None, 0, 0, 0, Picked)
  }

  function WakeStep(n: Net, p: nat): Net
    requires p in n.probes
  {
    var probe := n.probes[p];
    if !probe.phase.Sleeping? then n
    else if !StillDown(n, probe) then n.(probes := n.probes - {p})
    else n.(asks := n.asks[n.next := NewAsk(probe.server, Some(p))],
            probes := n.probes[p := probe.(phase := Asking(n.next))],
            next := n.next + 1)
  }

  /** The probe has its answer: an answer or NXDOMAIN marks the server up and
      ends it; otherwise it goes on while the server is still down. */
  function ToldStep(n: Net, p: nat): Net
    requires p in n.probes
  {
    var probe := n.probes[p];
    if !probe.phase.Told? || probe.server >= |n.servers| then n
    else if probe.phase.answer.Addrs? || probe.phase.answer.NotExist? then
      UpServer(n, probe.server).(probes := n.probes - {p})
    else if !StillDown(n, probe) then n.(probes := n.probes - {p})
    else
      var s := n.servers[probe.server];
      var wait := Wait(n.conf.probeTimeout, s.failedTimes);
      n.(servers := n.servers[probe.server := s.(failedTimes := s.failedTimes + 1)],
         probes := n.probes[p := Probe(probe.server, probe.generation, probe.failures + 1, wait, Sleeping)])
  }

  /** A query that is over gives up its ID; its probe, if any, is told. */
  function ReturnStep(n: Net, a: nat): Net
    requires a in n.asks
  {
    var ask := n.asks[a];
    if !ask.pc.Done? then n else
    var inflight := if ask.id.Some? then n.inflight - {ask.id.value} else n.inflight;
    var probes := if ask.owner.Some? && ask.owner.value in n.probes
                  then n.probes[ask.owner.value := n.probes[ask.owner.value].(phase := Told(ask.pc.answer))]
                  else n.probes;
    n.(asks := n.asks - {a}, inflight := inflight, probes := probes)
  }

  /** A query's own step. */
  function AskStep(n: Net, ask: Ask, e: Event): (Net, Ask)
    requires n.head < |n.servers| && ask.server < |n.servers|
  {
    match e
    case Unbuildable(_) => if ask.pc.Registered? then (n, ask.(pc := Done(Answer.Failed))) else (n, ask)
    case Transmit(_, left) =>
      if !ask.pc.Registered? then (n, ask)
      else (n, ask.(sent := 1, txCount := 1, pc := if left then Waiting else SendFailed(false)))
    case Timeout(_, left) =>
      if !ask.pc.Waiting? then (n, ask)
      else if ask.txCount >= n.conf.attempts then (n, ask.(pc := GivingUp))
      else
        var (server, head) := PickOf(n);
        (n.(head := head),
         ask.(server := server, sent := ask.sent + 1, txCount := ask.txCount + 1,
              pc := if left then Counting else SendFailed(true)))
    case Answered(_, answer) => if ask.pc.Waiting? then (n, ask.(pc := Good(answer))) else (n, ask)
    case RefusedReply(_) =>
      if !ask.pc.Waiting? then (n, ask)
      else if ask.reissues >= MAX_REISSUES then (n, ask.(pc := Done(Answer.Failed)))
      else (n, ask.(pc := Refusing))
    case MarkDown(_) =>
      if ask.pc.SendFailed? then
        (FailServer(n, ask.server), ask.(pc := if ask.pc.again then Counting else Waiting))
      else if ask.pc.TooMany? then (FailServer(n, ask.server), ask.(pc := Waiting))
      else if ask.pc.Refusing? then (FailServer(n, ask.server), ask.(pc := Reissuing))
      else if ask.pc.GivingUp? then (FailServer(n, ask.server), ask.(pc := Done(TimedOut)))
      else (n, ask)
    case MarkUp(_) =>
      if ask.pc.Good? then (UpServer(n, ask.server), ask.(pc := Done(ask.pc.answer))) else (n, ask)
    case CountIt(_) =>
      if !ask.pc.Counting? then (n, ask)
      else
        var (s, tooMany) := Counted(n.servers[ask.server], n.conf.maxTimeouts);
        (n.(servers := n.servers[ask.server := s]), ask.(pc := if tooMany then TooMany else Waiting))
    case Reissue(_) =>
      if !ask.pc.Reissuing? then (n, ask)
      else
        var (server, head) := PickOf(n);
        (n.(head := head),
         if server == ask.server then ask.(pc := Done(Answer.Failed))
         else ask.(server := server, reissues := ask.reissues + 1, txCount := 0, pc := Waiting))
    case _ => (n, ask)
  }

  predicate OnAsk(e: Event) {
    e.Unbuildable? || e.Transmit? || e.Timeout? || e.Answered? || e.RefusedReply? || e.MarkDown?
    || e.MarkUp? || e.CountIt? || e.Reissue?
  }

  /** The query, probe and servers an event names are there. */
  predicate Enabled(n: Net, e: Event) {
    if OnAsk(e) then e.a in n.asks && n.asks[e.a].server < |n.servers| && n.head < |n.servers|
    else match e
         case StartLookup => n.head < |n.servers|
         case Wake(p) => p in n.probes
         case TakeId(a, id) => a in n.asks && n.asks[a].pc.Picked? && id < 0xffff && id !in n.inflight
         case Return(a) => a in n.asks
         case ProbeTold(p) => p in n.probes
         case ReadDatagram(server) => server < |n.servers|
         case ReadError(server) => server < |n.servers|
         case _ => false
  }

  function OwnStep(n: Net, e: Event): Net
    requires OnAsk(e) && Enabled(n, e)
  {
    var (m, ask) := AskStep(n, n.asks[e.a], e);
    SetAsk(m, e.a, ask)
  }

  function StartStep(n: Net): Net
    requires n.head < |n.servers|
  {
    var (server, head) := PickOf(n);
    n.(head := head, asks := n.asks[n.next := NewAsk(server, None)], next := n.next + 1)
  }

  function TakeIdStep(n: Net, a: nat, id: nat): Net
    requires a in n.asks
  {
    n.(asks := n.asks[a := n.asks[a].(id := Some(id), pc := Registered)], inflight := n.inflight[id := a])
  }

  function Step(n: Net, e: Event): Net {
    if !Enabled(n, e) then n
    else if OnAsk(e) then OwnStep(n, e)
    else match e
         case StartLookup => StartStep(n)
         case Wake(p) => WakeStep(n, p)
         case TakeId(a, id) => TakeIdStep(n, a, id)
         case Return(a) => ReturnStep(n, a)
         case ProbeTold(p) => ToldStep(n, p)
         case ReadDatagram(server) =>
           n.(servers := n.servers[server := n.servers[server].(timedout := 0)])
         case ReadError(server) => FailServer(n, server)
         case _ => n
  }

  function Run(n: Net, events: seq<Event>): Net
    decreases events
  {
    if events == [] then n else Run(Step(n, events[0]), events[1..])
  }

  // ---------------------------------------------------------------------
  // Shape: every name is in range

  ghost predicate Shape(n: Net) {
    && (n.servers != [] ==> n.head < |n.servers|)
    && (forall a :: a in n.asks ==> a < n.next && n.asks[a].server < |n.servers|)
    && (forall p :: p in n.probes ==> p < n.next && n.probes[p].server < |n.servers|)
  }

  /** A server after a step that neither marks it down nor starts a probe. */
  predicate Gentle(conf: Conf, s: Server, t: Server) {
    && t.generation == s.generation
    && (t.down ==> s.down && t.failedTimes == s.failedTimes)
    && (s.timedout <= conf.maxTimeouts ==> t.timedout <= conf.maxTimeouts)
  }

  /** A query's step marks its server down, or is gentle and leaves all else
      but the head. */
  ghost predicate GentleStep(n: Net, m: Net) {
    && m == n.(servers := m.servers, head := m.head)
    && |m.servers| == |n.servers|
    && (m.servers != [] ==> m.head < |m.servers|)
    && (forall i :: 0 <= i < |n.servers| ==> Gentle(n.conf, n.servers[i], m.servers[i]))
  }

  lemma AskStepIs(n: Net, ask: Ask, e: Event)
    requires n.head < |n.servers| && ask.server < |n.servers|
    ensures var (m, next) := AskStep(n, ask, e);
            && (m == FailServer(n, ask.server) || GentleStep(n, m))
            && next.server < |n.servers| && next.owner == ask.owner && next.id == ask.id
  {
    var (server, head) := PickOf(n);
    assert server < |n.servers| && head < |n.servers|;
  }

  lemma ShapeSetAsk(n: Net, a: nat, ask: Ask)
    requires Shape(n) && a < n.next && ask.server < |n.servers|
    ensures Shape(SetAsk(n, a, ask))
  {
  }

  lemma OwnShape(n: Net, e: Event)
    requires Shape(n) && OnAsk(e) && Enabled(n, e)
    ensures var m := OwnStep(n, e); Shape(m) && |m.servers| == |n.servers| && m.conf == n.conf
  {
    AskStepIs(n, n.asks[e.a], e);
    var (m, ask) := AskStep(n, n.asks[e.a], e);
    ShapeSetAsk(m, e.a, ask);
  }

  lemma StartShape(n: Net)
    requires Shape(n) && n.head < |n.servers|
    ensures var m := StartStep(n); Shape(m) && |m.servers| == |n.servers| && m.conf == n.conf
  {
    var (server, head) := PickOf(n);
  }

  lemma ReturnShape(n: Net, a: nat)
    requires Shape(n) && a in n.asks
    ensures var m := ReturnStep(n, a); Shape(m) && |m.servers| == |n.servers| && m.conf == n.conf
  {
  }

  lemma ToldShape(n: Net, p: nat)
    requires Shape(n) && p in n.probes
    ensures var m := ToldStep(n, p); Shape(m) && |m.servers| == |n.servers| && m.conf == n.conf
  {
  }

  lemma StepShape(n: Net, e: Event)
    requires Shape(n)
    ensures Shape(Step(n, e)) && |Step(n, e).servers| == |n.servers| && Step(n, e).conf == n.conf
  {
    if Enabled(n, e) {
      if OnAsk(e) {
        OwnShape(n, e);
      } else if e.StartLookup? {
        StartShape(n);
      } else if e.Return? {
        ReturnShape(n, e.a);
      } else if e.ProbeTold? {
        ToldShape(n, e.p);
      }
    }
  }

  // ---------------------------------------------------------------------
  // Probes

  /** The probe of a server's present generation. */
  ghost predicate Current(n: Net, p: nat) {
    p in n.probes && n.probes[p].server < |n.servers|
    && n.probes[p].generation == n.servers[n.probes[p].server].generation
  }

  ghost predicate Watched(n: Net, i: nat)
    requires i < |n.servers|
  {
    exists p :: Current(n, p) && n.probes[p].server == i
  }

  ghost predicate ProbesOk(n: Net) {
    && (forall p :: p in n.probes ==>
          n.probes[p].server < |n.servers|
          && n.probes[p].generation <= n.servers[n.probes[p].server].generation)
    && (forall p, q :: p in n.probes && q in n.probes && p != q && n.probes[p].server == n.probes[q].server ==>
          n.probes[p].generation != n.probes[q].generation)
    && (forall i :: 0 <= i < |n.servers| && n.servers[i].down ==> Watched(n, i))
  }

  lemma FailKeepsProbes(n: Net, i: nat)
    requires Shape(n) && ProbesOk(n) && i < |n.servers|
    ensures ProbesOk(FailServer(n, i))
  {
    var m := FailServer(n, i);
    if !n.servers[i].down {
      assert n.next !in n.probes;
      forall j | 0 <= j < |m.servers| && m.servers[j].down
        ensures Watched(m, j)
      {
        if j == i {
          assert Current(m, n.next);
        } else {
          assert Watched(n, j);
          var p :| Current(n, p) && n.probes[p].server == j;
          assert Current(m, p);
        }
      }
    }
  }

  /** A change that leaves every probe its server and generation, and takes
      none from a server that stays down. */
  lemma SameProbes(n: Net, m: Net)
    requires ProbesOk(n)
    requires |m.servers| == |n.servers|
    requires forall i :: 0 <= i < |n.servers| ==> m.servers[i].generation == n.servers[i].generation
    requires forall i :: 0 <= i < |n.servers| && m.servers[i].down ==> n.servers[i].down
    requires forall p :: p in m.probes ==> p in n.probes && m.probes[p].server == n.probes[p].server
                                           && m.probes[p].generation == n.probes[p].generation
    requires forall p :: p in n.probes && p !in m.probes && Current(n, p) ==> !m.servers[n.probes[p].server].down
    ensures ProbesOk(m)
  {
    forall i | 0 <= i < |m.servers| && m.servers[i].down
      ensures Watched(m, i)
    {
      assert Watched(n, i);
      var p :| Current(n, p) && n.probes[p].server == i;
      assert Current(m, p);
    }
  }

  lemma WakeKeepsProbes(n: Net, p: nat)
    requires ProbesOk(n) && p in n.probes
    ensures ProbesOk(WakeStep(n, p))
  {
    SameProbes(n, WakeStep(n, p));
  }

  lemma ToldKeepsProbes(n: Net, p: nat)
    requires ProbesOk(n) && p in n.probes
    ensures ProbesOk(ToldStep(n, p))
  {
    SameProbes(n, ToldStep(n, p));
  }

  lemma StepKeepsProbes(n: Net, e: Event)
    requires Shape(n) && ProbesOk(n)
    ensures ProbesOk(Step(n, e))
  {
    if Enabled(n, e) {
      var m := Step(n, e);
      if e.ReadError? {
        FailKeepsProbes(n, e.server);
      } else if OnAsk(e) {
        AskStepIs(n, n.asks[e.a], e);
        FailKeepsProbes(n, n.asks[e.a].server);
        var (v, ask) := AskStep(n, n.asks[e.a], e);
        if v != FailServer(n, n.asks[e.a].server) {
          SameProbes(n, v);
        }
        SameProbes(v, m);
      } else if e.Wake? {
        WakeKeepsProbes(n, e.p);
      } else if e.ProbeTold? {
        ToldKeepsProbes(n, e.p);
      } else {
        SameProbes(n, m);
      }
    }
  }

  /** In every interleaving, a server that is down has exactly one live probe
      of its present generation. */
  lemma {:induction false} RunKeepsProbes(n: Net, events: seq<Event>)
    requires Shape(n) && ProbesOk(n)
    ensures Shape(Run(n, events)) && ProbesOk(Run(n, events))
    decreases events
  {
    if events != [] {
      StepShape(n, events[0]);
      StepKeepsProbes(n, events[0]);
      RunKeepsProbes(Step(n, events[0]), events[1..]);
    }
  }

  lemma DownServersAreProbed(conf: Conf, servers: nat, events: seq<Event>, i: nat)
    requires i < |Run(Init(conf, servers), events).servers|
    requires Run(Init(conf, servers), events).servers[i].down
    ensures var n := Run(Init(conf, servers), events);
            && (exists p :: Current(n, p) && n.probes[p].server == i)
            && (forall p, q ::
                  Current(n, p) && Current(n, q) && n.probes[p].server == i && n.probes[q].server == i ==> p == q)
  {
    RunKeepsProbes(Init(conf, servers), events);
    assert Watched(Run(Init(conf, servers), events), i);
  }
}
