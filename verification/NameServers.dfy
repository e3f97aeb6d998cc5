/** One name server's state, the probes' waits, and the resolver's base as its
    callers change it, one lock-held section at a time. */
module NameServers {
  import opened Seqs
  import opened Rings

  /** Nanoseconds. */
  const MAX_PROBE_TIMEOUT: nat := 3600 * 1_000_000_000
  const TIMEOUT_BACKOFF_FACTOR: nat := 3
  const MAX_REISSUES: nat := 1

  datatype Conf = Conf(attempts: nat, maxTimeouts: nat, probeTimeout: nat)

  datatype Server = Server(down: bool, failedTimes: nat, timedout: nat, generation: nat)

  const FRESH := Server(false, 0, 0, 0)

  /** Gone down: a new generation, whose probe finds no failure yet. */
  function WentDown(s: Server): Server {
    if s.down then s else s.(down := true, failedTimes := 1, generation := s.generation + 1)
  }

  function BackUp(s: Server): Server {
    if s.down then s.(down := false, failedTimes := 0, timedout := 0) else s
  }

  /** A retransmission counted; the flag says it was one too many. */
  function Counted(s: Server, max: nat): (Server, bool) {
    if s.timedout + 1 > max then (s.(timedout := 0), true)
    else (s.(timedout := s.timedout + 1), false)
  }

  function Pow3(n: nat): nat {
    if n == 0 then 1 else 3 * Pow3(n - 1)
  }

  /** The wait after `failures` failed probes: three times as long after each,
      an hour at most. */
  function Wait(probeTimeout: nat, failures: nat): nat {
    Min(MAX_PROBE_TIMEOUT, probeTimeout * Pow3(failures))
  }

  lemma WaitStays(timeout: nat, more: nat)
    requires timeout >= MAX_PROBE_TIMEOUT
    ensures Wait(timeout, more) == MAX_PROBE_TIMEOUT
  {
    if more > 0 {
      WaitStays(timeout, more - 1);
      assert timeout * Pow3(more) == 3 * (timeout * Pow3(more - 1));
    }
  }

  method ProbeBackoff(probeTimeout: nat, failedTimes: nat) returns (wait: nat)
    ensures wait == Wait(probeTimeout, failedTimes)
  {
    var timeout: nat := probeTimeout;
    var i := 0;
    while i < failedTimes
      invariant 0 <= i <= failedTimes
      invariant Wait(probeTimeout, failedTimes) == Wait(timeout, failedTimes - i)
    {
      if timeout >= MAX_PROBE_TIMEOUT {
        WaitStays(timeout, failedTimes - i);
        break;
      }
      assert timeout * Pow3(failedTimes - i) == timeout * 3 * Pow3(failedTimes - i - 1);
      timeout := timeout * TIMEOUT_BACKOFF_FACTOR;
      i := i + 1;
    }
    if i == failedTimes {
      assert timeout * Pow3(0) == timeout;
    }
    wait := Min(timeout, MAX_PROBE_TIMEOUT);
  }

  function UpOf(servers: seq<Server>): seq<bool> {
    seq(|servers|, i requires 0 <= i < |servers| => !servers[i].down)
  }

  datatype Answer = Addrs | NotExist | TimedOut | Failed

  /** What a query reads within its timeout: nothing of use, a refusal, or an
      answer. SERVFAIL counts as silence. */
  datatype Heard = Silence | Refusal | Reply(answer: Answer)

  /** A query under way: who has it, and what it has sent. */
  datatype Query = Query(servers: seq<Server>, head: nat, server: nat, txCount: nat, reissues: nat, sent: nat)

  predicate OnRing(q: Query) { q.head < |q.servers| && q.server < |q.servers| }

  function Failing(servers: seq<Server>, i: nat): seq<Server>
    requires i < |servers|
  {
    servers[i := WentDown(servers[i])]
  }

  function PickFrom(servers: seq<Server>, head: nat): (nat, nat)
    requires head < |servers|
  {
    Rings.Pick(UpOf(servers), head)
  }

  /** The first packet, to `first` or the next server. */
  function Begun(servers: seq<Server>, head: nat, first: Option<nat>, leaves: bool): Query
    requires head < |servers| && (first.Some? ==> first.value < |servers|)
  {
    var (server, after) := if first.Some? then (first.value, head) else PickFrom(servers, head);
    Query(if leaves then servers else Failing(servers, server), after, server, 1, 0, 1)
  }

  /** Silence sends the packet again, to the next server, unless it went out
      often enough. */
  function Silent(conf: Conf, q: Query, leaves: bool): (Query, Option<Answer>)
    requires OnRing(q)
  {
    if q.txCount >= conf.attempts then (q.(servers := Failing(q.servers, q.server)), Some(TimedOut))
    else
      var (server, head) := PickFrom(q.servers, q.head);
      var reached := if leaves then q.servers else Failing(q.servers, server);
      var (s, tooMany) := Counted(reached[server], conf.maxTimeouts);
      var counted := reached[server := s];
      (Query(if tooMany then Failing(counted, server) else counted, head, server,
             q.txCount + 1, q.reissues, q.sent + 1), None)
  }

  /** A refusal marks its server down and hands the query on once, its count
      set back, for the next timeout to send. */
  function Refused(q: Query): (Query, Option<Answer>)
    requires OnRing(q)
  {
    if q.reissues >= MAX_REISSUES then (q, Some(Failed))
    else
      var servers := Failing(q.servers, q.server);
      var (server, head) := PickFrom(servers, q.head);
      var moved := q.(servers := servers, head := head);
      if server == q.server then (moved, Some(Failed))
      else (moved.(server := server, txCount := 0, reissues := q.reissues + 1), None)
  }

  function Next(conf: Conf, q: Query, heard: Heard, leaves: bool): (Query, Option<Answer>)
    requires OnRing(q)
  {
    match heard
    case Reply(a) => (q.(servers := q.servers[q.server := BackUp(q.servers[q.server])]), Some(a))
    case Refusal => Refused(q)
    case Silence => Silent(conf, q, leaves)
  }

  lemma NextOnRing(conf: Conf, q: Query, heard: Heard, leaves: bool)
    requires OnRing(q)
    ensures OnRing(Next(conf, q, heard, leaves).0)
  {
  }

  /** A query to its end: `heard(k)` is what its k-th wait brings, `sends(k)`
      whether its k-th packet leaves. */
  function Asked(conf: Conf, q: Query, heard: nat -> Heard, sends: nat -> bool, waits: nat): (Query, Answer)
    requires OnRing(q) && q.reissues <= MAX_REISSUES
    decreases MAX_REISSUES - q.reissues, Max(0, conf.attempts - q.txCount)
  {
    NextOnRing(conf, q, heard(waits), sends(q.sent));
    var (next, answer) := Next(conf, q, heard(waits), sends(q.sent));
    if answer.Some? then (next, answer.value) else Asked(conf, next, heard, sends, waits + 1)
  }

  lemma AskedNext(conf: Conf, q: Query, heard: nat -> Heard, sends: nat -> bool, waits: nat)
    requires OnRing(q) && q.reissues <= MAX_REISSUES
    ensures var (next, answer) := Next(conf, q, heard(waits), sends(q.sent));
            OnRing(next) && next.reissues <= MAX_REISSUES
            && Asked(conf, q, heard, sends, waits) ==
               if answer.Some? then (next, answer.value) else Asked(conf, next, heard, sends, waits + 1)
  {
    NextOnRing(conf, q, heard(waits), sends(q.sent));
  }

  class Base {
    var servers: seq<Server>
    var head: nat
    const conf: Conf

    predicate Valid()
      reads this
    {
      servers != [] ==> head < |servers|
    }

    constructor (n: nat, conf: Conf)
      ensures Valid() && |servers| == n && head == 0 && this.conf == conf
      ensures forall i :: 0 <= i < n ==> servers[i] == FRESH
    {
      servers, head := seq(n, _ => FRESH), 0;
      this.conf := conf;
    }

    /** The next server thought up, or simply the next when none is. */
    method Pick() returns (server: Option<nat>)
      requires Valid()
      modifies this`head
      ensures Valid()
      ensures servers == [] ==> server == None && head == old(head)
      ensures servers != [] ==>
                (head, server) == (Rings.Pick(UpOf(servers), old(head)).1,
                                   Some(Rings.Pick(UpOf(servers), old(head)).0))
    {
      var n := |servers|;
      if n == 0 {
        return None;
      }
      if forall i :: 0 <= i < n ==> servers[i].down {
        head := if head + 1 < n then head + 1 else 0;
        return Some(head);
      }
      ghost var i :| 0 <= i < n && !servers[i].down;
      assert UpOf(servers)[i];
      var found := PickUp();
      return Some(found);
    }

    /** Round the ring to the next server up, and the head past it. */
    method PickUp() returns (server: nat)
      requires head < |servers| && !AllDown(UpOf(servers))
      modifies this`head
      ensures (server, head) == Rings.Pick(UpOf(servers), old(head))
    {
      var n := |servers|;
      ghost var up := UpOf(servers);
      ghost var target := Rings.Pick(up, head).0;
      while servers[head].down
        invariant head < n
        invariant Rings.Pick(up, head) == Rings.Pick(up, old(head))
        decreases Away(n, head, target)
      {
        PickPasses(up, head);
        head := if head + 1 < n then head + 1 else 0;
      }
      PickHere(up, head);
      server := head;
      head := if head + 1 < n then head + 1 else 0;
    }

    /** Passed over from now on; the generation whose probe is to start, if
        the server was not down already. */
    method ServerFailed(i: nat) returns (generation: Option<nat>)
      requires Valid() && i < |servers|
      modifies this`servers
      ensures Valid()
      ensures servers == old(servers)[i := WentDown(old(servers)[i])]
      ensures generation == if old(servers)[i].down then None else Some(servers[i].generation)
    {
      if servers[i].down {
        return None;
      }
      var s := servers[i];
      servers := servers[i := Server(true, 1, s.timedout, s.generation + 1)];
      return Some(s.generation + 1);
    }

    method ServerUp(i: nat)
      requires Valid() && i < |servers|
      modifies this`servers
      ensures Valid()
      ensures servers == old(servers)[i := BackUp(old(servers)[i])]
    {
      var s := servers[i];
      if s.down {
        servers := servers[i := Server(false, 0, 0, s.generation)];
      }
    }

    method Count(i: nat) returns (tooMany: bool)
      requires Valid() && i < |servers|
      modifies this`servers
      ensures Valid()
      ensures servers == old(servers)[i := Counted(old(servers)[i], conf.maxTimeouts).0]
      ensures tooMany == Counted(old(servers)[i], conf.maxTimeouts).1
    {
      var s := servers[i];
      s := s.(timedout := s.timedout + 1);
      tooMany := s.timedout > conf.maxTimeouts;
      if tooMany {
        s := s.(timedout := 0);
      }
      servers := servers[i := s];
    }

    /** One query by itself. However its waits and packets turn out, it ends,
        with a bounded number of packets. */
    method Ask(first: Option<nat>, heard: nat -> Heard, sends: nat -> bool) returns (answer: Answer, sent: nat)
      requires Valid() && (first.Some? ==> first.value < |servers|)
      modifies this
      ensures Valid() && |servers| == |old(servers)|
      ensures old(servers) == [] ==> answer == Failed && sent == 0
      ensures old(servers) != [] ==>
                var (q, a) := Asked(conf, Begun(old(servers), old(head), first, sends(0)), heard, sends, 0);
                servers == q.servers && head == q.head && sent == q.sent && answer == a
      ensures sent <= Max(1, 2 * conf.attempts)
    {
      var start := first;
      if start.None? {
        start := Pick();
      }
      if start.None? {
        return Failed, 0;
      }
      var server: nat := start.value;
      Transmit(server, sends(0));
      ghost var q := Begun(old(servers), old(head), first, sends(0));
      ghost var end := Asked(conf, q, heard, sends, 0);
      AskedIsBounded(conf, q, heard, sends, 0);
      var txCount, reissues := 1, 0;
      var waits: nat := 0;
      sent := 1;
      while true
        invariant OnRing(q) && reissues <= MAX_REISSUES
        invariant q == Query(servers, head, server, txCount, reissues, sent)
        invariant |servers| == |old(servers)|
        invariant end == Asked(conf, q, heard, sends, waits)
        decreases MAX_REISSUES - reissues, Max(0, conf.attempts - txCount)
      {
        AskedNext(conf, q, heard, sends, waits);
        var over;
        over, server, txCount, reissues, sent :=
          Hear(q, heard(waits), sends(sent), server, txCount, reissues, sent);
        if over.Some? {
          return over.value, sent;
        }
        q := Query(servers, head, server, txCount, reissues, sent);
        waits := waits + 1;
      }
    }

    /** What one wait brings, and what the query makes of it. */
    method Hear(ghost q: Query, heard: Heard, leaves: bool, server: nat, txCount: nat, reissues: nat, sent: nat)
      returns (over: Option<Answer>, server': nat, txCount': nat, reissues': nat, sent': nat)
      requires OnRing(q) && q == Query(servers, head, server, txCount, reissues, sent)
      modifies this
      ensures Valid() && |servers| == |old(servers)|
      ensures Next(conf, q, heard, leaves) == (Query(servers, head, server', txCount', reissues', sent'), over)
    {
      over, server', txCount', reissues', sent' := None, server, txCount, reissues, sent;
      match heard {
        case Reply(a) =>
          ServerUp(server);
          over := Some(a);
        case Refusal =>
          if reissues >= MAX_REISSUES {
            over := Some(Failed);
          } else {
            var next := HandOn(q, server);
            if next.None? {
              over := Some(Failed);
            } else {
              server', txCount', reissues' := next.value, 0, reissues + 1;
            }
          }
        case Silence =>
          if txCount >= conf.attempts {
            var _ := ServerFailed(server);
            over := Some(TimedOut);
          } else {
            server' := Retransmit(q, leaves);
            txCount', sent' := txCount + 1, sent + 1;
          }
      }
    }

    /** A refusing server is marked down; the one picked next has the query,
        unless it is the same. */
    method HandOn(ghost q: Query, server: nat) returns (next: Option<nat>)
      requires OnRing(q) && q.servers == servers && q.head == head && q.server == server
      requires q.reissues < MAX_REISSUES
      modifies this
      ensures Valid() && |servers| == |old(servers)| && (next.Some? ==> next.value < |servers|)
      ensures next.None? ==> Refused(q) == (q.(servers := servers, head := head), Some(Failed))
      ensures next.Some? ==>
                Refused(q) == (Query(servers, head, next.value, 0, q.reissues + 1, q.sent), None)
    {
      var _ := ServerFailed(server);
      next := Pick();
      if next == Some(server) {
        next := None;
      }
    }

    /** The packet once more, to the next server, and counted against it. */
    method Retransmit(ghost q: Query, leaves: bool) returns (server: nat)
      requires OnRing(q) && q.servers == servers && q.head == head && q.txCount < conf.attempts
      modifies this
      ensures Valid() && |servers| == |old(servers)| && server < |servers|
      ensures Silent(conf, q, leaves) ==
              (Query(servers, head, server, q.txCount + 1, q.reissues, q.sent + 1), None)
    {
      var next := Pick();
      server := next.value;
      Transmit(server, leaves);
      var tooMany := Count(server);
      if tooMany {
        var _ := ServerFailed(server);
      }
    }

    /** A send that fails marks the server down. */
    method Transmit(i: nat, sent: bool)
      requires Valid() && i < |servers|
      modifies this`servers
      ensures Valid()
      ensures servers == if sent then old(servers) else old(servers)[i := WentDown(old(servers)[i])]
    {
      if !sent {
        var _ := ServerFailed(i);
      }
    }
  }

  // ---------------------------------------------------------------------

  /** How many packets a query may still send: the rest of its round, and a
      round after the reissue it has left. */
  function PacketsLeft(conf: Conf, q: Query): nat {
    Max(0, conf.attempts - q.txCount) + if q.reissues < MAX_REISSUES then conf.attempts else 0
  }

  lemma NextUsesPackets(conf: Conf, q: Query, heard: Heard, leaves: bool)
    requires OnRing(q) && q.reissues <= MAX_REISSUES
    ensures var next := Next(conf, q, heard, leaves).0;
            next.sent + PacketsLeft(conf, next) <= q.sent + PacketsLeft(conf, q)
  {
  }

  /** However it goes, a query sends no more than that. */
  lemma {:induction false} AskedIsBounded(conf: Conf, q: Query, heard: nat -> Heard, sends: nat -> bool, waits: nat)
    requires OnRing(q) && q.reissues <= MAX_REISSUES
    ensures Asked(conf, q, heard, sends, waits).0.sent <= q.sent + PacketsLeft(conf, q)
    decreases MAX_REISSUES - q.reissues, Max(0, conf.attempts - q.txCount)
  {
    AskedNext(conf, q, heard, sends, waits);
    NextUsesPackets(conf, q, heard(waits), sends(q.sent));
    var (next, answer) := Next(conf, q, heard(waits), sends(q.sent));
    if answer.None? { AskedIsBounded(conf, next, heard, sends, waits + 1); }
  }

  /** An address or "no such name" is an answer some wait brought. */
  lemma {:induction false} AnswersAreHeard(conf: Conf, q: Query, heard: nat -> Heard, sends: nat -> bool, waits: nat)
    requires OnRing(q) && q.reissues <= MAX_REISSUES
    ensures var answer := Asked(conf, q, heard, sends, waits).1;
            answer.Addrs? || answer.NotExist? ==> exists k :: heard(k) == Reply(answer)
    decreases MAX_REISSUES - q.reissues, Max(0, conf.attempts - q.txCount)
  {
    NextOnRing(conf, q, heard(waits), sends(q.sent));
    var (next, answer) := Next(conf, q, heard(waits), sends(q.sent));
    if answer.None? {
      AnswersAreHeard(conf, next, heard, sends, waits + 1);
    } else if heard(waits).Reply? {
      assert heard(waits) == Reply(answer.value);
    }
  }

  /** With nothing but silence every attempt is sent, and the query times
      out. */
  lemma {:induction false} SilenceTimesOut(conf: Conf, q: Query, heard: nat -> Heard, sends: nat -> bool, waits: nat)
    requires OnRing(q) && q.reissues <= MAX_REISSUES && forall k :: heard(k).Silence?
    ensures var (end, answer) := Asked(conf, q, heard, sends, waits);
            answer == TimedOut && end.sent == q.sent + Max(0, conf.attempts - q.txCount)
    decreases Max(0, conf.attempts - q.txCount)
  {
    assert heard(waits).Silence?;
    NextOnRing(conf, q, heard(waits), sends(q.sent));
    var (next, answer) := Next(conf, q, heard(waits), sends(q.sent));
    if answer.None? { SilenceTimesOut(conf, next, heard, sends, waits + 1); }
  }
}
