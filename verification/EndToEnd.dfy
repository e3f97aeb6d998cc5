/** From the bytes of a controller connection to the commands the scheduler is
    given. */
module EndToEnd {
  import opened Seqs
  import opened Commands
  import opened CommandLoops
  import Sessions
  import Connections
  import Chunks

  lemma {:induction false} DeliveredIsLogged(chan: Sessions.Channel, log: seq<Sessions.Event>)
    ensures forall e :: e in Sessions.Deliver(chan, log).1 ==> e in log
    decreases |log|
  {
    if log != [] && !(log[0].Sent? && chan == Sessions.Room(0)) {
      var next := if log[0].Sent? && chan.Room? then Sessions.Room(chan.left - 1) else chan;
      DeliveredIsLogged(next, log[1..]);
    }
  }

  lemma {:induction false} CutIsSynced(room: nat, effects: seq<Effect>)
    ensures forall g :: g in Synced(Cut(room, effects)) ==> g in Synced(effects)
    decreases |effects|
  {
    if effects != [] && !(effects[0].ToScheduler? && room == 0) {
      var left := if effects[0].ToScheduler? then room - 1 else room;
      CutIsSynced(left, effects[1..]);
      assert Cut(room, effects)[1..] == Cut(left, effects[1..]);
    }
  }

  /** What the scheduler is given when a connection's reads are `chunks`, a
      newer session takes over `left` lines later, the session's commands go
      through `chan` and the scheduler takes `room` commands. */
  function Given(env: Sessions.Env, chan: Sessions.Channel, chunks: seq<seq<byte>>, left: nat, room: nat)
    : seq<Effect>
  {
    Cut(room, Batch(SentOf(Connections.Served(env, Connections.Fresh(chan), chunks, left).1)))
  }

  lemma WholeInFirst(env: Sessions.Env, lines: seq<string>, n: nat, p: nat, q: nat, spec: CrontabSpec)
    requires Sessions.WholeCrontab(env, FirstN(lines, n), p, q, spec)
    ensures Sessions.WholeCrontab(env, lines, p, q, spec)
  {
    var first := FirstN(lines, n);
    assert first[p + 1..q] == lines[p + 1..q];
    forall i | p < i < q
      ensures Sessions.Cronline(lines[i])
    {
      assert first[i] == lines[i];
    }
  }

  lemma LoggedWasSent(env: Sessions.Env, lines: seq<string>, n: nat, spec: CrontabSpec)
    requires Sessions.Sent(Crontab(spec)) in Sessions.Run(env, Sessions.START, FirstN(lines, n)).1
    ensures exists p: nat, q: nat :: Sessions.WholeCrontab(env, lines, p, q, spec)
  {
    Sessions.SessionCrontabsAreWhole(env, FirstN(lines, n), spec);
    var p: nat, q: nat :| Sessions.WholeCrontab(env, FirstN(lines, n), p, q, spec);
    WholeInFirst(env, lines, n, p, q, spec);
  }

  /** However the stream is cut into reads, whenever a newer session takes over,
      whatever the channel and whenever the scheduler is gone: every crontab the
      scheduler is given holds the recurring lines of a whole crontab the
      controller sent. */
  lemma ScheduledCrontabsWereSent(env: Sessions.Env, chan: Sessions.Channel, chunks: seq<seq<byte>>, left: nat,
                                  room: nat)
    requires Chunks.NoEmpty(chunks) && Chunks.ShortLines(Flatten(chunks))
    ensures forall g :: g in Synced(Given(env, chan, chunks, left, room)) ==>
              exists p: nat, q: nat, spec ::
                Sessions.WholeCrontab(env, Chunks.StreamLines(Flatten(chunks)), p, q, spec)
                && g == Gathering(spec.dir, KeptLines(PendingLines(spec.lines)))
  {
    var lines := Chunks.StreamLines(Flatten(chunks));
    var log := Sessions.Run(env, Sessions.START, FirstN(lines, left)).1;
    var served := Connections.Served(env, Connections.Fresh(chan), chunks, left).1;
    Chunks.ServedIsConversation(env, chan, chunks, left);
    Sessions.RunIsConversation(env, FirstN(lines, left));
    DeliveredIsLogged(chan, log);
    CutIsSynced(room, Batch(SentOf(served)));
    OneSyncPerCrontab(SentOf(served));
    forall g | g in Handed(SentOf(served))
      ensures exists p: nat, q: nat, spec ::
                Sessions.WholeCrontab(env, lines, p, q, spec)
                && g == Gathering(spec.dir, KeptLines(PendingLines(spec.lines)))
    {
      var spec := HandedFrom(served, g);
      LoggedWasSent(env, lines, left, spec);
    }
  }

  /** The scheduler is given what the conversation asks for, in order, up to
      the first command refused on the way. */
  lemma GivenIsConversation(env: Sessions.Env, chan: Sessions.Channel, chunks: seq<seq<byte>>, left: nat, room: nat)
    requires Chunks.NoEmpty(chunks) && Chunks.ShortLines(Flatten(chunks))
    ensures var asked := Sessions.Conversation(env, FirstN(Chunks.StreamLines(Flatten(chunks)), left));
            && Given(env, chan, chunks, left, room) == Cut(room, Batch(SentOf(Sessions.Deliver(chan, asked).1)))
            && Synced(Batch(SentOf(asked))) == Handed(SentOf(asked))
  {
    var asked := Sessions.Conversation(env, FirstN(Chunks.StreamLines(Flatten(chunks)), left));
    Chunks.ServedIsConversation(env, chan, chunks, left);
    OneSyncPerCrontab(SentOf(asked));
  }
}
