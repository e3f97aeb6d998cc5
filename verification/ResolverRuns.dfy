/** What holds of the probes' waits, the queries in flight and their packets
    in every run of the resolver. */
module ResolverRuns {
  import opened Seqs
  import opened NameServers
  import opened Resolvers

  // ---------------------------------------------------------------------
  // How long a probe waits

  /** A probe that found `failures` failures waits three times as long after
      each; a server that is down has counted those of its present probe. */
  ghost predicate WaitsOk(n: Net) {
    && (forall p :: p in n.probes ==> n.probes[p].delay == Wait(n.conf.probeTimeout, n.probes[p].failures))
    && (forall p :: Current(n, p) && n.servers[n.probes[p].server].down ==>
          n.servers[n.probes[p].server].failedTimes == n.probes[p].failures + 1)
  }

  lemma FailKeepsWaits(n: Net, i: nat)
    requires Shape(n) && ProbesOk(n) && WaitsOk(n) && i < |n.servers|
    requires n.conf.probeTimeout <= MAX_PROBE_TIMEOUT
    ensures WaitsOk(FailServer(n, i))
  {
    var m := FailServer(n, i);
    if !n.servers[i].down {
      assert n.conf.probeTimeout * Pow3(0) == n.conf.probeTimeout;
      forall p | Current(m, p) && m.servers[m.probes[p].server].down
        ensures m.servers[m.probes[p].server].failedTimes == m.probes[p].failures + 1
      {
        if p != n.next && m.probes[p].server != i {
          assert Current(n, p);
        }
      }
    }
  }

  /** A change that leaves every probe as it was, or only its phase, and
      every down server its generation and failures. */
  lemma SameWaits(n: Net, m: Net)
    requires WaitsOk(n) && m.conf == n.conf && |m.servers| == |n.servers|
    requires forall i :: 0 <= i < |n.servers| ==> Gentle(n.conf, n.servers[i], m.servers[i])
    requires forall p :: p in m.probes ==> p in n.probes && m.probes[p] == n.probes[p].(phase := m.probes[p].phase)
    ensures WaitsOk(m)
  {
    forall p | Current(m, p) && m.servers[m.probes[p].server].down
      ensures m.servers[m.probes[p].server].failedTimes == m.probes[p].failures + 1
    {
      assert Current(n, p);
    }
  }

  /** One more failed probe of a server that is still down. */
  lemma FailedProbeKeepsWaits(n: Net, p: nat, m: Net)
    requires ProbesOk(n) && WaitsOk(n) && Current(n, p) && n.servers[n.probes[p].server].down
    requires var probe := n.probes[p];
             var s := n.servers[probe.server];
             m == n.(servers := n.servers[probe.server := s.(failedTimes := s.failedTimes + 1)],
                     probes := n.probes[p := Probe(probe.server, probe.generation, probe.failures + 1,
                                                   Wait(n.conf.probeTimeout, s.failedTimes), Sleeping)])
    ensures WaitsOk(m)
  {
    forall q | Current(m, q) && m.servers[m.probes[q].server].down
      ensures m.servers[m.probes[q].server].failedTimes == m.probes[q].failures + 1
    {
      assert Current(n, q);
    }
  }

  lemma ToldKeepsWaits(n: Net, p: nat)
    requires Shape(n) && ProbesOk(n) && WaitsOk(n) && p in n.probes
    ensures WaitsOk(ToldStep(n, p))
  {
    var probe, m := n.probes[p], ToldStep(n, p);
    if probe.phase.Told? && !probe.phase.answer.Addrs? && !probe.phase.answer.NotExist? && StillDown(n, probe) {
      FailedProbeKeepsWaits(n, p, m);
    } else {
      SameWaits(n, m);
    }
  }

  lemma OwnKeepsWaits(n: Net, e: Event)
    requires Shape(n) && ProbesOk(n) && WaitsOk(n) && OnAsk(e) && Enabled(n, e)
    requires n.conf.probeTimeout <= MAX_PROBE_TIMEOUT
    ensures WaitsOk(OwnStep(n, e))
  {
    var server := n.asks[e.a].server;
    AskStepIs(n, n.asks[e.a], e);
    FailKeepsWaits(n, server);
    var (v, ask) := AskStep(n, n.asks[e.a], e);
    if v != FailServer(n, server) {
      SameWaits(n, v);
    }
    SameWaits(v, SetAsk(v, e.a, ask));
  }

  lemma WakeKeepsWaits(n: Net, p: nat)
    requires WaitsOk(n) && p in n.probes
    ensures WaitsOk(WakeStep(n, p))
  {
    SameWaits(n, WakeStep(n, p));
  }

  lemma ReturnKeepsWaits(n: Net, a: nat)
    requires WaitsOk(n) && a in n.asks
    ensures WaitsOk(ReturnStep(n, a))
  {
    SameWaits(n, ReturnStep(n, a));
  }

  /** No probe, and of the servers only how often they have timed out. */
  lemma OthersKeepWaits(n: Net, e: Event)
    requires Shape(n) && WaitsOk(n) && Enabled(n, e)
    requires e.StartLookup? || e.TakeId? || e.ReadDatagram?
    ensures WaitsOk(Step(n, e))
  {
    SameWaits(n, Step(n, e));
  }

  lemma StepKeepsWaits(n: Net, e: Event)
    requires Shape(n) && ProbesOk(n) && WaitsOk(n)
    requires n.conf.probeTimeout <= MAX_PROBE_TIMEOUT
    ensures WaitsOk(Step(n, e))
  {
    if Enabled(n, e) {
      if e.ReadError? {
        FailKeepsWaits(n, e.server);
      } else if OnAsk(e) {
        OwnKeepsWaits(n, e);
      } else if e.ProbeTold? {
        ToldKeepsWaits(n, e.p);
      } else if e.Wake? {
        WakeKeepsWaits(n, e.p);
      } else if e.Return? {
        ReturnKeepsWaits(n, e.a);
      } else {
        OthersKeepWaits(n, e);
      }
    }
  }

  lemma {:induction false} RunKeepsWaits(n: Net, events: seq<Event>)
    requires Shape(n) && ProbesOk(n) && WaitsOk(n)
    requires n.conf.probeTimeout <= MAX_PROBE_TIMEOUT
    ensures WaitsOk(Run(n, events))
    decreases events
  {
    if events != [] {
      StepShape(n, events[0]);
      StepKeepsProbes(n, events[0]);
      StepKeepsWaits(n, events[0]);
      RunKeepsWaits(Step(n, events[0]), events[1..]);
    }
  }

  /** In every interleaving a probe that has failed k times waits
      min(1 h, probe_timeout * 3^k). */
  lemma ProbesBackOff(conf: Conf, servers: nat, events: seq<Event>, p: nat)
    requires conf.probeTimeout <= MAX_PROBE_TIMEOUT
    requires p in Run(Init(conf, servers), events).probes
    ensures var n := Run(Init(conf, servers), events);
            n.probes[p].delay == Min(MAX_PROBE_TIMEOUT, conf.probeTimeout * Pow3(n.probes[p].failures))
  {
    RunKeepsWaits(Init(conf, servers), events);
    RunConf(Init(conf, servers), events);
  }

  lemma {:induction false} RunConf(n: Net, events: seq<Event>)
    requires Shape(n)
    ensures Run(n, events).conf == n.conf
    decreases events
  {
    if events != [] {
      StepShape(n, events[0]);
      RunConf(Step(n, events[0]), events[1..]);
    }
  }

  // ---------------------------------------------------------------------
  // Queries in flight

  /** The IDs in flight are exactly those of the queries that hold one. */
  ghost predicate IdsOk(n: Net) {
    && (forall a :: a in n.asks ==> (n.asks[a].id.None? <==> n.asks[a].pc.Picked?))
    && (forall a :: a in n.asks && n.asks[a].id.Some? ==>
          n.asks[a].id.value in n.inflight && n.inflight[n.asks[a].id.value] == a)
    && (forall id :: id in n.inflight ==>
          id < 0xffff && n.inflight[id] in n.asks && n.asks[n.inflight[id]].id == Some(id))
  }

  lemma AskStepKeepsId(n: Net, ask: Ask, e: Event)
    requires n.head < |n.servers| && ask.server < |n.servers|
    ensures AskStep(n, ask, e).1.pc.Picked? <==> ask.pc.Picked?
  {
  }

  lemma ReturnKeepsIds(n: Net, a: nat)
    requires IdsOk(n) && a in n.asks
    ensures IdsOk(ReturnStep(n, a))
  {
    var m := ReturnStep(n, a);
    forall id | id in m.inflight
      ensures id < 0xffff && m.inflight[id] in m.asks && m.asks[m.inflight[id]].id == Some(id)
    {
      assert id in n.inflight;
    }
  }

  lemma SetAskKeepsIds(n: Net, a: nat, ask: Ask)
    requires IdsOk(n) && a in n.asks
    requires ask.id == n.asks[a].id && (ask.pc.Picked? <==> n.asks[a].pc.Picked?)
    ensures IdsOk(SetAsk(n, a, ask))
  {
  }

  lemma NewAskKeepsIds(n: Net, m: Net, server: nat, owner: Option<nat>)
    requires Shape(n) && IdsOk(n) && m.inflight == n.inflight
    requires m.asks == n.asks || m.asks == n.asks[n.next := NewAsk(server, owner)]
    ensures IdsOk(m)
  {
    assert n.next !in n.asks;
  }

  lemma OwnKeepsIds(n: Net, e: Event)
    requires Shape(n) && IdsOk(n) && OnAsk(e) && Enabled(n, e)
    ensures IdsOk(OwnStep(n, e))
  {
    AskStepIs(n, n.asks[e.a], e);
    AskStepKeepsId(n, n.asks[e.a], e);
    var (v, ask) := AskStep(n, n.asks[e.a], e);
    SetAskKeepsIds(v, e.a, ask);
  }

  lemma TakeIdKeepsIds(n: Net, a: nat, id: nat)
    requires IdsOk(n) && a in n.asks && n.asks[a].pc.Picked? && id < 0xffff && id !in n.inflight
    ensures IdsOk(TakeIdStep(n, a, id))
  {
  }

  lemma StartKeepsIds(n: Net)
    requires Shape(n) && IdsOk(n) && n.head < |n.servers|
    ensures IdsOk(StartStep(n))
  {
    NewAskKeepsIds(n, StartStep(n), PickOf(n).0, None);
  }

  lemma WakeKeepsIds(n: Net, p: nat)
    requires Shape(n) && IdsOk(n) && p in n.probes
    ensures IdsOk(WakeStep(n, p))
  {
    NewAskKeepsIds(n, WakeStep(n, p), n.probes[p].server, Some(p));
  }

  /** Neither the queries nor the IDs in flight. */
  lemma OthersKeepIds(n: Net, m: Net)
    requires IdsOk(n) && m.asks == n.asks && m.inflight == n.inflight
    ensures IdsOk(m)
  {
  }

  lemma StepKeepsIds(n: Net, e: Event)
    requires Shape(n) && IdsOk(n)
    ensures IdsOk(Step(n, e))
  {
    if Enabled(n, e) {
      if OnAsk(e) {
        OwnKeepsIds(n, e);
      } else if e.Return? {
        ReturnKeepsIds(n, e.a);
      } else if e.TakeId? {
        TakeIdKeepsIds(n, e.a, e.id);
      } else if e.StartLookup? {
        StartKeepsIds(n);
      } else if e.Wake? {
        WakeKeepsIds(n, e.p);
      } else {
        OthersKeepIds(n, Step(n, e));
      }
    }
  }

  /** A retransmission counter never stands above the limit. */
  ghost predicate CountersOk(n: Net) {
    forall i :: 0 <= i < |n.servers| ==> n.servers[i].timedout <= n.conf.maxTimeouts
  }

  lemma StepKeepsCounters(n: Net, e: Event)
    requires Shape(n) && CountersOk(n)
    ensures CountersOk(Step(n, e))
  {
    if Enabled(n, e) && OnAsk(e) {
      AskStepIs(n, n.asks[e.a], e);
    }
  }

  /** A probe that asks has its query, and that query answers to it alone. */
  ghost predicate LinksOk(n: Net) {
    && (forall p :: p in n.probes && n.probes[p].phase.Asking? ==>
          n.probes[p].phase.ask in n.asks && n.asks[n.probes[p].phase.ask].owner == Some(p))
    && (forall a :: a in n.asks && n.asks[a].owner.Some? ==>
          n.asks[a].owner.value in n.probes && n.probes[n.asks[a].owner.value].phase == Asking(a))
  }

  lemma FailKeepsLinks(n: Net, i: nat)
    requires Shape(n) && LinksOk(n) && i < |n.servers|
    ensures LinksOk(FailServer(n, i))
  {
    assert n.next !in n.probes;
  }

  lemma ReturnKeepsLinks(n: Net, a: nat)
    requires LinksOk(n) && a in n.asks
    ensures LinksOk(ReturnStep(n, a))
  {
  }

  lemma WakeKeepsLinks(n: Net, p: nat)
    requires Shape(n) && LinksOk(n) && p in n.probes
    ensures LinksOk(WakeStep(n, p))
  {
    assert n.next !in n.asks;
  }

  lemma SetAskKeepsLinks(n: Net, a: nat, ask: Ask)
    requires LinksOk(n) && a in n.asks && ask.owner == n.asks[a].owner
    ensures LinksOk(SetAsk(n, a, ask))
  {
  }

  lemma OwnKeepsLinks(n: Net, e: Event)
    requires Shape(n) && LinksOk(n) && OnAsk(e) && Enabled(n, e)
    ensures LinksOk(OwnStep(n, e))
  {
    AskStepIs(n, n.asks[e.a], e);
    FailKeepsLinks(n, n.asks[e.a].server);
    var (v, ask) := AskStep(n, n.asks[e.a], e);
    assert LinksOk(v);
    SetAskKeepsLinks(v, e.a, ask);
  }

  lemma ToldKeepsLinks(n: Net, p: nat)
    requires Shape(n) && LinksOk(n) && p in n.probes
    ensures LinksOk(ToldStep(n, p))
  {
  }

  lemma StartKeepsLinks(n: Net)
    requires Shape(n) && LinksOk(n) && n.head < |n.servers|
    ensures LinksOk(StartStep(n))
  {
    assert n.next !in n.asks;
  }

  lemma StepKeepsLinks(n: Net, e: Event)
    requires Shape(n) && LinksOk(n)
    ensures LinksOk(Step(n, e))
  {
    if Enabled(n, e) {
      if e.ReadError? {
        FailKeepsLinks(n, e.server);
      } else if OnAsk(e) {
        OwnKeepsLinks(n, e);
      } else if e.Return? {
        ReturnKeepsLinks(n, e.a);
      } else if e.Wake? {
        WakeKeepsLinks(n, e.p);
      } else if e.ProbeTold? {
        ToldKeepsLinks(n, e.p);
      } else if e.TakeId? {
        SetAskKeepsLinks(n, e.a, n.asks[e.a].(id := Some(e.id), pc := Registered));
      } else if e.StartLookup? {
        StartKeepsLinks(n);
      }
    }
  }

  // ---------------------------------------------------------------------
  // Packets

  /** What a query has sent: as many packets as it counts, and after its one
      reissue, which starts the count again, at most a first round more. */
  predicate SendsOk(conf: Conf, ask: Ask) {
    var round := Max(1, conf.attempts);
    && (ask.pc.Picked? || ask.pc.Registered? ==> ask.sent == ask.txCount == ask.reissues == 0)
    && (ask.reissues == 0 ==> ask.sent == ask.txCount <= round)
    && (ask.reissues == 1 ==> ask.txCount <= conf.attempts && ask.sent <= round + ask.txCount)
    && (ask.pc.Refusing? || ask.pc.Reissuing? ==> ask.reissues == 0)
    && ask.reissues <= MAX_REISSUES
  }

  ghost predicate AllSendsOk(n: Net) {
    forall a :: a in n.asks ==> SendsOk(n.conf, n.asks[a])
  }

  lemma AskStepKeepsSends(n: Net, ask: Ask, e: Event)
    requires n.head < |n.servers| && ask.server < |n.servers| && SendsOk(n.conf, ask)
    ensures SendsOk(n.conf, AskStep(n, ask, e).1)
  {
  }

  lemma OwnKeepsSends(n: Net, e: Event)
    requires Shape(n) && AllSendsOk(n) && OnAsk(e) && Enabled(n, e)
    ensures AllSendsOk(OwnStep(n, e))
  {
    AskStepIs(n, n.asks[e.a], e);
    assert SendsOk(n.conf, n.asks[e.a]);
    AskStepKeepsSends(n, n.asks[e.a], e);
    var (v, ask) := AskStep(n, n.asks[e.a], e);
    assert v.conf == n.conf && v.asks == n.asks;
  }

  lemma StepKeepsSends(n: Net, e: Event)
    requires Shape(n) && AllSendsOk(n)
    ensures AllSendsOk(Step(n, e))
  {
    if Enabled(n, e) {
      if OnAsk(e) {
        OwnKeepsSends(n, e);
      } else if e.TakeId? {
        assert SendsOk(n.conf, n.asks[e.a]);
      }
    }
  }

  ghost predicate QueriesOk(n: Net) {
    IdsOk(n) && CountersOk(n) && AllSendsOk(n) && LinksOk(n)
  }

  lemma {:induction false} RunKeepsQueries(n: Net, events: seq<Event>)
    requires Shape(n) && QueriesOk(n)
    ensures QueriesOk(Run(n, events))
    decreases events
  {
    if events != [] {
      StepShape(n, events[0]);
      StepKeepsIds(n, events[0]);
      StepKeepsCounters(n, events[0]);
      StepKeepsSends(n, events[0]);
      StepKeepsLinks(n, events[0]);
      RunKeepsQueries(Step(n, events[0]), events[1..]);
    }
  }

  /** In every interleaving: no two queries share an ID, none is 0xffff, no
      query sends more than max(1, 2 * attempts) packets, and no server's
      counter stands above the limit. */
  lemma QueriesAreBounded(conf: Conf, servers: nat, events: seq<Event>)
    ensures var n := Run(Init(conf, servers), events);
            && (forall a :: a in n.asks ==> n.asks[a].sent <= Max(1, 2 * conf.attempts))
            && (forall a, b :: a in n.asks && b in n.asks && a != b && n.asks[a].id.Some? ==>
                  n.asks[a].id != n.asks[b].id)
            && (forall a :: a in n.asks && n.asks[a].id.Some? ==> n.asks[a].id.value < 0xffff)
            && n.inflight.Keys == (set a | a in n.asks && n.asks[a].id.Some? :: n.asks[a].id.value)
            && (forall i :: 0 <= i < |n.servers| ==> n.servers[i].timedout <= conf.maxTimeouts)
  {
    RunKeepsQueries(Init(conf, servers), events);
    RunConf(Init(conf, servers), events);
    var n := Run(Init(conf, servers), events);
    forall a | a in n.asks
      ensures n.asks[a].sent <= Max(1, 2 * conf.attempts)
    {
      assert SendsOk(n.conf, n.asks[a]);
    }
  }

  // ---------------------------------------------------------------------
  // Termination

  function PcFuel(pc: Pc): nat {
    match pc
    case Picked => 9
    case Registered => 8
    case SendFailed(_) => 7
    case Counting => 6
    case TooMany => 5
    case Waiting => 4
    case Refusing => 3
    case Reissuing => 2
    case GivingUp => 2
    case Good(_) => 2
    case Done(_) => 1
  }

  /** How many steps a query has left at most: first by its reissues, then by
      the transmissions its count allows. */
  function Fuel(conf: Conf, ask: Ask): nat {
    (if ask.reissues < MAX_REISSUES then 5 * conf.attempts + 5 else 0)
    + 5 * Max(0, conf.attempts - ask.txCount) + PcFuel(ask.pc)
  }

  lemma AskStepUsesFuel(n: Net, ask: Ask, e: Event)
    requires n.head < |n.servers| && ask.server < |n.servers| && SendsOk(n.conf, ask)
    ensures AskStep(n, ask, e).1 == ask || Fuel(n.conf, AskStep(n, ask, e).1) < Fuel(n.conf, ask)
  {
  }

  /** Whatever replies come, every step that changes a query uses up fuel,
      although a reissue sets its count back. */
  lemma StepsUseFuel(n: Net, e: Event, a: nat)
    requires Shape(n) && AllSendsOk(n) && a in n.asks && a in Step(n, e).asks
    ensures Step(n, e).asks[a] == n.asks[a] ||
            Fuel(n.conf, Step(n, e).asks[a]) < Fuel(n.conf, n.asks[a])
  {
    if Enabled(n, e) && OnAsk(e) && e.a == a {
      assert SendsOk(n.conf, n.asks[a]);
      AskStepUsesFuel(n, n.asks[a], e);
    }
  }

  /** What a query does next when nothing comes for it. */
  function Own(n: Net, a: nat, id: nat): Event
    requires a in n.asks
  {
    match n.asks[a].pc
    case Picked => TakeId(a, id)
    case Registered => Transmit(a, true)
    case Waiting => Timeout(a, true)
    case Counting => CountIt(a)
    case Reissuing => Reissue(a)
    case Good(_) => MarkUp(a)
    case Done(_) => Return(a)
    case _ => MarkDown(a)
  }

  /** No query is ever stuck: its own next step changes it, or ends it. */
  lemma QueriesMove(n: Net, a: nat, id: nat)
    requires Shape(n) && a in n.asks && (n.asks[a].pc.Picked? ==> id < 0xffff && id !in n.inflight)
    ensures var m := Step(n, Own(n, a, id));
            if n.asks[a].pc.Done? then a !in m.asks else a in m.asks && m.asks[a] != n.asks[a]
  {
    assert n.servers != [];
  }

  /** Left to itself, a query ends within its fuel. */
  lemma {:induction false} QueriesEnd(n: Net, a: nat, id: nat) returns (events: seq<Event>)
    requires Shape(n) && QueriesOk(n) && a in n.asks
    requires n.asks[a].pc.Picked? ==> id < 0xffff && id !in n.inflight
    ensures |events| <= Fuel(n.conf, n.asks[a]) && a !in Run(n, events).asks
    decreases Fuel(n.conf, n.asks[a])
  {
    var e := Own(n, a, id);
    var m := Step(n, e);
    QueriesMove(n, a, id);
    if n.asks[a].pc.Done? {
      events := [e];
      assert events[1..] == [];
      assert Run(m, []) == m;
    } else {
      StepsUseFuel(n, e, a);
      StepShape(n, e);
      StepKeepsIds(n, e);
      StepKeepsCounters(n, e);
      StepKeepsSends(n, e);
      StepKeepsLinks(n, e);
      var rest := QueriesEnd(m, a, id);
      events := [e] + rest;
      assert events[1..] == rest;
    }
  }
}
