/** A result queue over its whole life: results submitted at any point, one
    batch in flight at a time, answered in any way. */
module Pipelines {
  import opened Seqs
  import opened ResultQueues

  datatype Conf = Conf(capacity: nat, maxAttempts: nat, maxAge: int)

  /** `accepted` holds every accepted batch, one after the other; `failed`
      counts, for each result, the failed batches it was in. */
  datatype Pipe = Pipe(
    conf: Conf,
    submitted: nat,
    queue: seq<QueuedResult>,
    flying: Option<seq<QueuedResult>>,
    accepted: seq<QueuedResult>,
    dropped: set<nat>,
    failed: multiset<nat>)

  datatype Event =
    | Submit(msmId: nat, lts: int, now: int)
    | Begin
    | End(answer: Answer, now: int)
    | Cleanup(now: int)

  function Init(conf: Conf): Pipe {
    Pipe(conf, 0, [], None, [], {}, multiset{})
  }

  function Serials(items: seq<QueuedResult>): seq<nat> {
    seq<nat>(|items|, i requires 0 <= i < |items| => items[i].result.serial)
  }

  function Flying(p: Pipe): seq<QueuedResult> {
    if p.flying.Some? then p.flying.value else []
  }

  /** The serials in `before` that are not in `after`. */
  function Lost(before: seq<QueuedResult>, after: seq<QueuedResult>): set<nat> {
    set i | 0 <= i < |before| && before[i].result.serial !in Serials(after) :: before[i].result.serial
  }

  function Ended(p: Pipe, batch: seq<QueuedResult>): Pipe {
    var queue := Requeued(p.queue, p.conf.capacity, batch);
    p.(queue := queue, flying := None, dropped := p.dropped + Lost(batch + p.queue, queue))
  }

  function Step(p: Pipe, e: Event): Pipe {
    match e
    case Submit(msmId, lts, now) =>
      var r := QueuedResult(Result(msmId, p.submitted), now, 0, None, lts);
      var queue := Enqueued(p.queue, p.conf.capacity, r);
      p.(submitted := p.submitted + 1, queue := queue, dropped := p.dropped + Lost(p.queue + [r], queue))
    case Begin =>
      if p.flying.Some? then p else
      var batch := Triable(p.queue, p.conf.maxAttempts);
      p.(queue := [], flying := Some(batch), dropped := p.dropped + Lost(p.queue, batch))
    case End(answer, now) =>
      if p.flying.None? then p else
      var batch := p.flying.value;
      (match answer
       case Accepted => p.(flying := None, accepted := p.accepted + batch)
       case Failed => Ended(p, AllTried(batch, now)).(failed := p.failed + multiset(Serials(batch)))
       case RateLimited => Ended(p, AllDeferred(batch, now)))
    case Cleanup(now) =>
      var queue := Triable(Unexpired(p.queue, p.conf.maxAge, now), p.conf.maxAttempts);
      p.(queue := queue, dropped := p.dropped + Lost(p.queue, queue))
  }

  function Run(p: Pipe, events: seq<Event>): Pipe
    decreases events
  {
    if events == [] then p else Run(Step(p, events[0]), events[1..])
  }

  // ---------------------------------------------------------------------
  // Order

  /** All results not dropped, in the order they are or will be sent. */
  function Line(p: Pipe): seq<QueuedResult> {
    p.accepted + Flying(p) + p.queue
  }

  /** Increasing, and all from `s`. */
  ghost predicate Within(t: seq<int>, s: seq<int>) {
    Increasing(t) && forall x :: x in t ==> x in s
  }

  lemma SerialsAppend(a: seq<QueuedResult>, b: seq<QueuedResult>)
    ensures Serials(a + b) == Serials(a) + Serials(b)
  {
  }

  lemma IncreasingParts(a: seq<int>, b: seq<int>)
    ensures Increasing(a + b) <==>
            Increasing(a) && Increasing(b) && forall x, y :: x in a && y in b ==> x < y
  {
    var s := a + b;
    if Increasing(s) {
      assert forall i :: 0 <= i < |b| ==> s[|a| + i] == b[i];
      assert forall i :: 0 <= i < |a| ==> s[i] == a[i];
    }
    if Increasing(a) && Increasing(b) && forall x, y :: x in a && y in b ==> x < y {
      forall i, j | 0 <= i < j < |s|
        ensures s[i] < s[j]
      {
        if j < |a| {
          assert s[i] == a[i] && s[j] == a[j];
        } else if i < |a| {
          assert s[i] == a[i] && s[j] == b[j - |a|];
          assert a[i] in a && b[j - |a|] in b;
        } else {
          assert s[i] == b[i - |a|] && s[j] == b[j - |a|];
        }
      }
    }
  }

  lemma {:induction false} KeptWithin(items: seq<QueuedResult>, keep: QueuedResult -> bool)
    requires Increasing(Serials(items))
    ensures Within(Serials(Kept(items, keep)), Serials(items))
    ensures forall r :: r in Kept(items, keep) <==> r in items && keep(r)
  {
    if items != [] {
      var first, rest := [items[0]], items[1..];
      assert items == first + rest;
      SerialsAppend(first, rest);
      IncreasingParts(Serials(first), Serials(rest));
      KeptWithin(rest, keep);
      var kept := Kept(rest, keep);
      if keep(items[0]) {
        SerialsAppend(first, kept);
        IncreasingParts(Serials(first), Serials(kept));
      } else {
        assert [] + kept == kept;
      }
    }
  }

  /** What stays in a line keeps its order when its end is thinned out. */
  lemma TailWithin(front: seq<QueuedResult>, before: seq<QueuedResult>, after: seq<QueuedResult>)
    requires Increasing(Serials(front + before)) && Within(Serials(after), Serials(before))
    ensures Within(Serials(front + after), Serials(front + before))
  {
    SerialsAppend(front, before);
    SerialsAppend(front, after);
    IncreasingParts(Serials(front), Serials(before));
    IncreasingParts(Serials(front), Serials(after));
  }

  lemma FirstWithin(items: seq<QueuedResult>, n: nat)
    requires Increasing(Serials(items))
    ensures Within(Serials(FirstN(items, n)), Serials(items))
  {
    var first := FirstN(items, n);
    assert forall i :: 0 <= i < |first| ==> Serials(first)[i] == Serials(items)[i];
  }

  lemma RestWithin(items: seq<QueuedResult>)
    requires items != [] && Increasing(Serials(items))
    ensures Within(Serials(items[1..]), Serials(items))
  {
    assert items == [items[0]] + items[1..];
    SerialsAppend([items[0]], items[1..]);
    IncreasingParts(Serials([items[0]]), Serials(items[1..]));
  }

  // ---------------------------------------------------------------------
  // What every run keeps

  /** No result is lost sight of: each of the `submitted` is dropped, or once
      in the line. */
  ghost predicate Accounted(line: seq<QueuedResult>, submitted: nat, dropped: set<nat>) {
    && Increasing(Serials(line))
    && (forall k: nat :: k < submitted <==> k in Serials(line) || k in dropped)
    && (forall k :: k in dropped ==> k !in Serials(line))
  }

  /** Thinning the line's end out, and dropping what goes, loses nothing. */
  lemma ThinnedAccounted(front: seq<QueuedResult>, before: seq<QueuedResult>, after: seq<QueuedResult>,
                         submitted: nat, dropped: set<nat>)
    requires Accounted(front + before, submitted, dropped) && Within(Serials(after), Serials(before))
    ensures Accounted(front + after, submitted, dropped + Lost(before, after))
  {
    TailWithin(front, before, after);
    SerialsAppend(front, before);
    SerialsAppend(front, after);
    IncreasingParts(Serials(front), Serials(before));
    var lost := Lost(before, after);
    forall k | k in Serials(before) && k !in Serials(after)
      ensures k in lost
    {
      var i :| 0 <= i < |before| && Serials(before)[i] == k;
      assert before[i].result.serial == k;
    }
    forall k | k in lost
      ensures k in Serials(before) && k !in Serials(after)
    {
      var i :| 0 <= i < |before| && before[i].result.serial == k;
      assert Serials(before)[i] == k;
    }
  }

  lemma SubmitAccounted(line: seq<QueuedResult>, r: QueuedResult, dropped: set<nat>)
    requires Accounted(line, r.result.serial, dropped)
    ensures Accounted(line + [r], r.result.serial + 1, dropped)
  {
    SerialsAppend(line, [r]);
    IncreasingParts(Serials(line), Serials([r]));
    assert Serials([r]) == [r.result.serial];
  }

  /** Attempts count the failed batches a result was in, and nothing else. */
  ghost predicate Counted(items: seq<QueuedResult>, failed: multiset<nat>) {
    forall r :: r in items ==> failed[r.result.serial] == r.attempts
  }

  ghost predicate Inv(p: Pipe) {
    && Accounted(Line(p), p.submitted, p.dropped)
    && Counted(p.queue, p.failed) && Counted(Flying(p), p.failed)
    && (forall r :: r in Flying(p) ==> r.attempts < p.conf.maxAttempts)
    && (forall k :: k in p.failed ==> k < p.submitted && p.failed[k] <= p.conf.maxAttempts)
  }

  lemma SubmitKeeps(p: Pipe, msmId: nat, lts: int, now: int)
    requires Inv(p)
    ensures Inv(Step(p, Submit(msmId, lts, now)))
  {
    var r := QueuedResult(Result(msmId, p.submitted), now, 0, None, lts);
    var front, before := p.accepted + Flying(p), p.queue + [r];
    var queue := Enqueued(p.queue, p.conf.capacity, r);
    assert Line(p) + [r] == front + before;
    SubmitAccounted(Line(p), r, p.dropped);
    SerialsAppend(front, before);
    IncreasingParts(Serials(front), Serials(before));
    if |p.queue| >= p.conf.capacity && p.queue != [] {
      RestWithin(before);
      assert before[1..] == queue;
    }
    ThinnedAccounted(front, before, queue, p.submitted + 1, p.dropped);
    assert p.failed[p.submitted] == 0;
  }

  lemma BeginKeeps(p: Pipe)
    requires Inv(p) && p.flying.None?
    ensures Inv(Step(p, Begin))
  {
    var batch := Triable(p.queue, p.conf.maxAttempts);
    assert p.accepted + [] + p.queue == p.accepted + p.queue;
    SerialsAppend(p.accepted, p.queue);
    IncreasingParts(Serials(p.accepted), Serials(p.queue));
    KeptWithin(p.queue, (r: QueuedResult) => r.attempts < p.conf.maxAttempts);
    ThinnedAccounted(p.accepted, p.queue, batch, p.submitted, p.dropped);
    assert Line(Step(p, Begin)) == p.accepted + batch;
  }

  lemma CleanupKeeps(p: Pipe, now: int)
    requires Inv(p)
    ensures Inv(Step(p, Cleanup(now)))
  {
    var front := p.accepted + Flying(p);
    SerialsAppend(front, p.queue);
    IncreasingParts(Serials(front), Serials(p.queue));
    KeptWithin(p.queue, (r: QueuedResult) => now - r.queuedAt < p.conf.maxAge);
    var unexpired := Unexpired(p.queue, p.conf.maxAge, now);
    KeptWithin(unexpired, (r: QueuedResult) => r.attempts < p.conf.maxAttempts);
    ThinnedAccounted(front, p.queue, Triable(unexpired, p.conf.maxAttempts), p.submitted, p.dropped);
  }

  /** A batch that comes back, its results told of the try or not. */
  lemma EndedKeeps(p: Pipe, batch: seq<QueuedResult>, failed: multiset<nat>)
    requires Inv(p) && p.flying.Some?
    requires Serials(batch) == Serials(p.flying.value)
    requires Counted(batch, failed) && Counted(p.queue, failed)
    requires forall k :: k in failed ==> k < p.submitted && failed[k] <= p.conf.maxAttempts
    ensures Inv(Ended(p, batch).(failed := failed))
  {
    var before := batch + p.queue;
    var queue := Requeued(p.queue, p.conf.capacity, batch);
    var q := Ended(p, batch).(failed := failed);
    assert Serials(p.accepted + before) == Serials(Line(p)) by {
      SerialsAppend(p.accepted, before);
      SerialsAppend(batch, p.queue);
      SerialsAppend(p.accepted + Flying(p), p.queue);
      SerialsAppend(p.accepted, Flying(p));
      assert Serials(p.accepted) + (Serials(batch) + Serials(p.queue))
          == Serials(p.accepted) + Serials(batch) + Serials(p.queue);
    }
    SerialsAppend(p.accepted, before);
    IncreasingParts(Serials(p.accepted), Serials(before));
    FirstWithin(before, p.conf.capacity);
    ThinnedAccounted(p.accepted, before, queue, p.submitted, p.dropped);
    assert Line(q) == p.accepted + queue;
    forall r | r in queue
      ensures failed[r.result.serial] == r.attempts
    {
      assert r in before;
    }
  }

  lemma OnceEach(s: seq<int>, x: int)
    requires Increasing(s)
    ensures multiset(s)[x] == if x in s then 1 else 0
  {
    if s != [] {
      var first, rest := [s[0]], s[1..];
      assert s == first + rest;
      IncreasingParts(first, rest);
      OnceEach(rest, x);
      assert multiset(s) == multiset(first) + multiset(rest);
      assert s[0] in first;
    }
  }

  /** A failed batch counts one failure for each of its results, and none for
      any other. */
  lemma FailedCounts(p: Pipe, k: nat)
    requires Inv(p) && p.flying.Some?
    ensures (p.failed + multiset(Serials(p.flying.value)))[k] ==
            p.failed[k] + if k in Serials(p.flying.value) then 1 else 0
  {
    LinePartsIncrease(p);
    OnceEach(Serials(p.flying.value), k);
  }

  lemma FailedTried(p: Pipe, now: int)
    requires Inv(p) && p.flying.Some?
    ensures Counted(AllTried(p.flying.value, now), p.failed + multiset(Serials(p.flying.value)))
  {
    var batch := p.flying.value;
    var tried := AllTried(batch, now);
    forall r | r in tried
      ensures (p.failed + multiset(Serials(batch)))[r.result.serial] == r.attempts
    {
      var i :| 0 <= i < |tried| && tried[i] == r;
      assert batch[i] in Flying(p) && Serials(batch)[i] == r.result.serial;
      FailedCounts(p, r.result.serial);
    }
  }

  lemma FailedQueued(p: Pipe)
    requires Inv(p) && p.flying.Some?
    ensures Counted(p.queue, p.failed + multiset(Serials(p.flying.value)))
  {
    var batch := p.flying.value;
    LinePartsIncrease(p);
    forall r | r in p.queue
      ensures (p.failed + multiset(Serials(batch)))[r.result.serial] == r.attempts
    {
      var i :| 0 <= i < |p.queue| && p.queue[i] == r;
      assert Serials(p.queue)[i] == r.result.serial;
      assert r.result.serial in Serials(p.queue) && Serials(batch) == Serials(Flying(p));
      FailedCounts(p, r.result.serial);
    }
  }

  lemma FailedBounded(p: Pipe, k: nat)
    requires Inv(p) && p.flying.Some? && k in p.failed + multiset(Serials(p.flying.value))
    ensures k < p.submitted && (p.failed + multiset(Serials(p.flying.value)))[k] <= p.conf.maxAttempts
  {
    var batch := p.flying.value;
    FailedCounts(p, k);
    LinePartsIncrease(p);
    if k in Serials(batch) {
      var i :| 0 <= i < |batch| && Serials(batch)[i] == k;
      assert batch[i] in Flying(p);
      assert k in Serials(Line(p));
    }
  }

  lemma FailedKeeps(p: Pipe, now: int)
    requires Inv(p) && p.flying.Some?
    ensures Inv(Step(p, End(Failed, now)))
  {
    var batch := p.flying.value;
    var failed := p.failed + multiset(Serials(batch));
    assert Serials(AllTried(batch, now)) == Serials(batch);
    FailedTried(p, now);
    FailedQueued(p);
    forall k | k in failed
      ensures k < p.submitted && failed[k] <= p.conf.maxAttempts
    {
      FailedBounded(p, k);
    }
    EndedKeeps(p, AllTried(batch, now), failed);
  }

  lemma LinePartsIncrease(p: Pipe)
    requires Increasing(Serials(Line(p)))
    ensures Increasing(Serials(p.accepted)) && Increasing(Serials(Flying(p))) && Increasing(Serials(p.queue))
    ensures Serials(Line(p)) == Serials(p.accepted) + Serials(Flying(p)) + Serials(p.queue)
    ensures forall x, y :: x in Serials(Flying(p)) && y in Serials(p.queue) ==> x < y
  {
    SerialsAppend(p.accepted + Flying(p), p.queue);
    SerialsAppend(p.accepted, Flying(p));
    IncreasingParts(Serials(p.accepted + Flying(p)), Serials(p.queue));
    IncreasingParts(Serials(p.accepted), Serials(Flying(p)));
    forall x, y | x in Serials(Flying(p)) && y in Serials(p.queue)
      ensures x < y
    {
      assert x in Serials(p.accepted + Flying(p));
    }
  }

  lemma DeferredKeeps(p: Pipe, now: int)
    requires Inv(p) && p.flying.Some?
    ensures Inv(Step(p, End(RateLimited, now)))
    ensures Step(p, End(RateLimited, now)).failed == p.failed
  {
    var batch := AllDeferred(p.flying.value, now);
    assert Serials(batch) == Serials(p.flying.value);
    forall r | r in batch
      ensures p.failed[r.result.serial] == r.attempts
    {
      var i :| 0 <= i < |batch| && batch[i] == r;
      assert p.flying.value[i] in Flying(p);
    }
    EndedKeeps(p, batch, p.failed);
  }

  lemma StepKeeps(p: Pipe, e: Event)
    requires Inv(p)
    ensures Inv(Step(p, e))
  {
    match e
    case Submit(msmId, lts, now) => SubmitKeeps(p, msmId, lts, now);
    case Begin =>
      if p.flying.None? {
        BeginKeeps(p);
      }
    case End(answer, now) =>
      if p.flying.Some? {
        match answer
        case Accepted =>
          assert p.accepted + p.flying.value + [] + p.queue == Line(p);
        case Failed => FailedKeeps(p, now);
        case RateLimited => DeferredKeeps(p, now);
      }
    case Cleanup(now) => CleanupKeeps(p, now);
  }

  lemma {:induction false} RunKeeps(p: Pipe, events: seq<Event>)
    requires Inv(p)
    ensures Inv(Run(p, events))
    decreases events
  {
    if events != [] {
      StepKeeps(p, events[0]);
      RunKeeps(Step(p, events[0]), events[1..]);
    }
  }

  function Below(n: nat): set<nat> {
    if n == 0 then {} else Below(n - 1) + {n - 1}
  }

  function Elements(s: seq<nat>): set<nat> {
    if s == [] then {} else {s[0]} + Elements(s[1..])
  }

  lemma {:induction false} BelowSize(n: nat)
    ensures |Below(n)| == n && forall k: nat :: k in Below(n) <==> k < n
  {
    if n > 0 {
      BelowSize(n - 1);
    }
  }

  lemma {:induction false} ElementsSize(s: seq<nat>)
    requires Increasing(s)
    ensures |Elements(s)| == |s| && forall k :: k in Elements(s) <==> k in s
  {
    if s != [] {
      var first, rest := [s[0]], s[1..];
      assert s == first + rest;
      IncreasingParts(first, rest);
      ElementsSize(rest);
      assert s[0] in first;
      assert s[0] !in rest;
    }
  }

  /** Accepted uploads are first in, first out: whatever is submitted while a
      batch is in flight, and however batches are answered, the accepted
      results, batch after batch, stand in the order they were submitted in,
      none twice. */
  lemma AcceptedInOrder(conf: Conf, events: seq<Event>)
    ensures Increasing(Serials(Run(Init(conf), events).accepted))
  {
    RunKeeps(Init(conf), events);
    LinePartsIncrease(Run(Init(conf), events));
  }

  /** Every result submitted is queued, in flight, accepted or dropped, and
      only one of these. */
  lemma NothingIsLost(conf: Conf, events: seq<Event>)
    ensures var p := Run(Init(conf), events);
            && (forall k: nat :: k < p.submitted <==> k in Serials(Line(p)) || k in p.dropped)
            && p.submitted == |p.queue| + |Flying(p)| + |p.accepted| + |p.dropped|
  {
    RunKeeps(Init(conf), events);
    var p := Run(Init(conf), events);
    var line := Serials(Line(p));
    LinePartsIncrease(p);
    ElementsSize(line);
    BelowSize(p.submitted);
    assert Elements(line) + p.dropped == Below(p.submitted);
    assert Elements(line) !! p.dropped;
  }

  /** No result is in more than max_attempts batches that failed other than by
      a 429, and a queued one counts exactly those it was in. */
  lemma AttemptsAreFailures(conf: Conf, events: seq<Event>)
    ensures var p := Run(Init(conf), events);
            && (forall k :: p.failed[k] <= conf.maxAttempts)
            && (forall r :: r in p.queue ==> r.attempts == p.failed[r.result.serial])
  {
    RunKeeps(Init(conf), events);
    RunConf(Init(conf), events);
  }

  lemma {:induction false} RunConf(p: Pipe, events: seq<Event>)
    ensures Run(p, events).conf == p.conf
    decreases events
  {
    if events != [] {
      RunConf(Step(p, events[0]), events[1..]);
    }
  }

  lemma {:induction false} KeptShorter(items: seq<QueuedResult>, keep: QueuedResult -> bool)
    ensures |Kept(items, keep)| <= |items|
  {
    if items != [] {
      KeptShorter(items[1..], keep);
    }
  }

  lemma {:induction false} RunBounded(p: Pipe, events: seq<Event>)
    requires p.conf.capacity >= 1 && |p.queue| <= p.conf.capacity
    ensures |Run(p, events).queue| <= p.conf.capacity
    decreases events
  {
    if events != [] {
      var e := events[0];
      if e.Cleanup? {
        KeptShorter(p.queue, (r: QueuedResult) => e.now - r.queuedAt < p.conf.maxAge);
        KeptShorter(Unexpired(p.queue, p.conf.maxAge, e.now), (r: QueuedResult) => r.attempts < p.conf.maxAttempts);
      }
      RunBounded(Step(p, e), events[1..]);
    }
  }

  /** The queue never outgrows its capacity if and only if it has one: a
      capacity of 0 still takes one result. */
  lemma CapacityHolds(conf: Conf)
    ensures (forall events :: |Run(Init(conf), events).queue| <= conf.capacity) <==> conf.capacity >= 1
  {
    if conf.capacity >= 1 {
      forall events
        ensures |Run(Init(conf), events).queue| <= conf.capacity
      {
        RunBounded(Init(conf), events);
      }
    } else {
      var events := [Submit(0, 0, 0)];
      var p := Step(Init(conf), events[0]);
      assert events[1..] == [];
      assert Run(Init(conf), events) == Run(p, []) == p;
      assert |p.queue| == 1;
    }
  }
}
