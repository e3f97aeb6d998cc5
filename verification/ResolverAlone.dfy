/** The interleaved resolver and the query by itself are the same: a query whose
    steps nothing comes between goes as `NameServers.Base.Ask` does. */
module ResolverAlone {
  import opened Seqs
  import opened NameServers
  import opened Resolvers

  /** The query as it would be by itself. */
  function Alone(n: Net, a: nat): Query
    requires a in n.asks
  {
    var ask := n.asks[a];
    Query(n.servers, n.head, ask.server, ask.txCount, ask.reissues, ask.sent)
  }

  /** The event for what a wait brings. */
  function EventFor(a: nat, heard: Heard, leaves: bool): Event {
    match heard
    case Silence => Timeout(a, leaves)
    case Refusal => RefusedReply(a)
    case Reply(answer) => Answered(a, answer)
  }

  predicate InBetween(pc: Pc) {
    pc.SendFailed? || pc.Counting? || pc.TooMany? || pc.Refusing? || pc.Reissuing? || pc.GivingUp? || pc.Good?
  }

  /** The locked section a query goes on to by itself. */
  function OwnEvent(a: nat, pc: Pc): Event {
    if pc.Counting? then CountIt(a)
    else if pc.Reissuing? then Reissue(a)
    else if pc.Good? then MarkUp(a)
    else MarkDown(a)
  }

  /** The query's steps until it waits again or is over, `fuel` at most. */
  function Settled(n: Net, a: nat, fuel: nat): Net
    decreases fuel
  {
    if fuel == 0 || a !in n.asks || !InBetween(n.asks[a].pc) then n
    else Settled(Step(n, OwnEvent(a, n.asks[a].pc)), a, fuel - 1)
  }

  /** A query, and where it is. */
  ghost predicate IsAt(n: Net, a: nat, q: Query, pc: Pc) {
    && a in n.asks && n.asks[a].pc == pc && Alone(n, a) == q && OnRing(q)
  }

  lemma SettlesOn(n: Net, a: nat, q: Query, pc: Pc, fuel: nat)
    requires IsAt(n, a, q, pc)
    ensures Settled(n, a, fuel) ==
            if fuel > 0 && InBetween(pc) then Settled(Step(n, OwnEvent(a, pc)), a, fuel - 1) else n
  {
  }

  /** A locked section that marks the query's server down. */
  lemma MarksDown(n: Net, a: nat, q: Query, pc: Pc)
    requires IsAt(n, a, q, pc)
    requires pc.SendFailed? || pc.TooMany? || pc.Refusing? || pc.GivingUp?
    ensures var next := if pc.SendFailed? then (if pc.again then Counting else Waiting)
                        else if pc.TooMany? then Waiting
                        else if pc.Refusing? then Reissuing
                        else Done(TimedOut);
            var m := Step(n, MarkDown(a));
            IsAt(m, a, q.(servers := Failing(q.servers, q.server)), next) && m.conf == n.conf
  {
  }

  lemma Counts(n: Net, a: nat, q: Query)
    requires IsAt(n, a, q, Counting)
    ensures var (s, tooMany) := Counted(q.servers[q.server], n.conf.maxTimeouts);
            var m := Step(n, CountIt(a));
            IsAt(m, a, q.(servers := q.servers[q.server := s]), if tooMany then TooMany else Waiting)
            && m.conf == n.conf
  {
  }

  lemma Reissues(n: Net, a: nat, q: Query)
    requires IsAt(n, a, q, Reissuing)
    ensures var (server, head) := PickFrom(q.servers, q.head);
            var m := Step(n, Reissue(a));
            if server == q.server then IsAt(m, a, q.(head := head), Done(Answer.Failed))
            else IsAt(m, a, q.(head := head, server := server, txCount := 0, reissues := q.reissues + 1), Waiting)
  {
    var (server, head) := PickFrom(q.servers, q.head);
    assert PickOf(n) == (server, head);
  }

  lemma Retransmits(n: Net, a: nat, q: Query, leaves: bool)
    requires IsAt(n, a, q, Waiting) && q.txCount < n.conf.attempts
    ensures var (server, head) := PickFrom(q.servers, q.head);
            var m := Step(n, Timeout(a, leaves));
            IsAt(m, a, q.(head := head, server := server, txCount := q.txCount + 1, sent := q.sent + 1),
                 if leaves then Counting else SendFailed(true))
            && m.conf == n.conf
  {
    assert PickOf(n) == PickFrom(q.servers, q.head);
  }

  /** Where a query by itself is, waiting on or over. */
  function After(answer: Option<Answer>): Pc {
    if answer.Some? then Done(answer.value) else Waiting
  }

  lemma CountsAlone(n: Net, a: nat, q: Query)
    requires IsAt(n, a, q, Counting)
    ensures var (s, tooMany) := Counted(q.servers[q.server], n.conf.maxTimeouts);
            var counted := q.servers[q.server := s];
            IsAt(Settled(n, a, 2), a,
                 q.(servers := if tooMany then Failing(counted, q.server) else counted), Waiting)
  {
    var (s, tooMany) := Counted(q.servers[q.server], n.conf.maxTimeouts);
    SettlesOn(n, a, q, Counting, 2);
    Counts(n, a, q);
    var m, p := Step(n, CountIt(a)), q.(servers := q.servers[q.server := s]);
    if tooMany {
      SettlesOn(m, a, p, TooMany, 1);
      MarksDown(m, a, p, TooMany);
    } else {
      SettlesOn(m, a, p, Waiting, 1);
    }
  }

  lemma SettlesEnough(n: Net, a: nat, q: Query, fuel: nat, more: nat)
    requires fuel <= more && IsAt(Settled(n, a, fuel), a, q, Waiting)
    ensures Settled(n, a, more) == Settled(n, a, fuel)
    decreases fuel
  {
    if a in n.asks && InBetween(n.asks[a].pc) {
      if fuel > 0 { SettlesEnough(Step(n, OwnEvent(a, n.asks[a].pc)), a, q, fuel - 1, more - 1); }
    }
  }

  lemma GivesUpAlone(n: Net, a: nat, q: Query)
    requires IsAt(n, a, q, GivingUp)
    ensures IsAt(Settled(n, a, 3), a, q.(servers := Failing(q.servers, q.server)), Done(TimedOut))
  {
    SettlesOn(n, a, q, GivingUp, 3);
    MarksDown(n, a, q, GivingUp);
    SettlesOn(Step(n, MarkDown(a)), a, q.(servers := Failing(q.servers, q.server)), Done(TimedOut), 2);
  }

  lemma UnsentAlone(n: Net, a: nat, q: Query)
    requires IsAt(n, a, q, SendFailed(true))
    ensures var failed := Failing(q.servers, q.server);
            var (s, tooMany) := Counted(failed[q.server], n.conf.maxTimeouts);
            var counted := failed[q.server := s];
            IsAt(Settled(n, a, 3), a,
                 q.(servers := if tooMany then Failing(counted, q.server) else counted), Waiting)
  {
    SettlesOn(n, a, q, SendFailed(true), 3);
    MarksDown(n, a, q, SendFailed(true));
    CountsAlone(Step(n, MarkDown(a)), a, q.(servers := Failing(q.servers, q.server)));
  }

  lemma SilentAlone(n: Net, a: nat, q: Query, leaves: bool)
    requires IsAt(n, a, q, Waiting)
    ensures var (next, answer) := Silent(n.conf, q, leaves);
            IsAt(Settled(Step(n, Timeout(a, leaves)), a, 3), a, next, After(answer))
  {
    var m := Step(n, Timeout(a, leaves));
    if q.txCount >= n.conf.attempts {
      GivesUpAlone(m, a, q);
    } else {
      Retransmits(n, a, q, leaves);
      var (server, head) := PickFrom(q.servers, q.head);
      var p := q.(head := head, server := server, txCount := q.txCount + 1, sent := q.sent + 1);
      if leaves {
        CountsAlone(m, a, p);
        SettlesEnough(m, a, Silent(n.conf, q, leaves).0, 2, 3);
      } else {
        UnsentAlone(m, a, p);
      }
    }
  }

  lemma ReissuesAlone(n: Net, a: nat, q: Query)
    requires IsAt(n, a, q, Reissuing)
    ensures var (server, head) := PickFrom(q.servers, q.head);
            var m := Settled(n, a, 2);
            if server == q.server then IsAt(m, a, q.(head := head), Done(Answer.Failed))
            else IsAt(m, a, q.(head := head, server := server, txCount := 0, reissues := q.reissues + 1), Waiting)
  {
    SettlesOn(n, a, q, Reissuing, 2);
    Reissues(n, a, q);
    var m := Step(n, Reissue(a));
    SettlesOn(m, a, Alone(m, a), m.asks[a].pc, 1);
  }

  lemma RefusedAlone(n: Net, a: nat, q: Query)
    requires IsAt(n, a, q, Waiting)
    ensures var (next, answer) := NameServers.Refused(q);
            IsAt(Settled(Step(n, RefusedReply(a)), a, 3), a, next, After(answer))
  {
    var m := Step(n, RefusedReply(a));
    if q.reissues >= MAX_REISSUES {
      SettlesOn(m, a, q, Done(Answer.Failed), 3);
    } else {
      SettlesOn(m, a, q, Refusing, 3);
      MarksDown(m, a, q, Refusing);
      ReissuesAlone(Step(m, MarkDown(a)), a, q.(servers := Failing(q.servers, q.server)));
    }
  }

  lemma AnsweredAlone(n: Net, a: nat, q: Query, answer: Answer)
    requires IsAt(n, a, q, Waiting)
    ensures IsAt(Settled(Step(n, Answered(a, answer)), a, 3), a,
                 q.(servers := q.servers[q.server := BackUp(q.servers[q.server])]), Done(answer))
  {
    var m := Step(n, Answered(a, answer));
    assert IsAt(m, a, q, Good(answer));
    SettlesOn(m, a, q, Good(answer), 3);
    var v := Step(m, MarkUp(a));
    var p := q.(servers := q.servers[q.server := BackUp(q.servers[q.server])]);
    assert IsAt(v, a, p, Done(answer));
    SettlesOn(v, a, p, Done(answer), 2);
  }

  /** Whatever a wait brings, the query's locked sections one after the other
      are one turn of `Ask`. */
  lemma TurnsAlone(n: Net, a: nat, heard: Heard, leaves: bool)
    requires a in n.asks && n.asks[a].pc == Waiting && OnRing(Alone(n, a))
    ensures var (next, answer) := Next(n.conf, Alone(n, a), heard, leaves);
            IsAt(Settled(Step(n, EventFor(a, heard, leaves)), a, 3), a, next, After(answer))
  {
    var q := Alone(n, a);
    match heard
    case Silence => SilentAlone(n, a, q, leaves);
    case Refusal => RefusedAlone(n, a, q);
    case Reply(answer) => AnsweredAlone(n, a, q, answer);
  }
}
