/** The results waiting to be uploaded, up to a capacity. */
module ResultQueues {
  import opened Seqs

  /** A measurement's result. `serial` is its place among all that were
      submitted; it is only spoken of in proofs. */
  datatype Result = Result(msmId: nat, serial: nat)

  datatype QueuedResult = QueuedResult(
    result: Result,
    queuedAt: int,
    attempts: nat,
    lastAttemptAt: Option<int>,
    lts: int)

  /** After a new result: the oldest makes room for it. */
  function Enqueued(items: seq<QueuedResult>, capacity: nat, r: QueuedResult): seq<QueuedResult> {
    (if |items| >= capacity && items != [] then items[1..] else items) + [r]
  }

  function Tried(r: QueuedResult, now: int): QueuedResult {
    r.(attempts := r.attempts + 1, lastAttemptAt := Some(now))
  }

  function Deferred(r: QueuedResult, now: int): QueuedResult {
    r.(lastAttemptAt := Some(now))
  }

  function AllTried(results: seq<QueuedResult>, now: int): seq<QueuedResult> {
    seq(|results|, i requires 0 <= i < |results| => Tried(results[i], now))
  }

  function AllDeferred(results: seq<QueuedResult>, now: int): seq<QueuedResult> {
    seq(|results|, i requires 0 <= i < |results| => Deferred(results[i], now))
  }

  /** Results put back in front: the newest of all make room for them. */
  function Requeued(items: seq<QueuedResult>, capacity: nat, results: seq<QueuedResult>): seq<QueuedResult> {
    FirstN(results + items, capacity)
  }

  /** The results for which `keep` holds, in order. */
  function Kept(items: seq<QueuedResult>, keep: QueuedResult -> bool): seq<QueuedResult> {
    if items == [] then []
    else (if keep(items[0]) then [items[0]] else []) + Kept(items[1..], keep)
  }

  function Unexpired(items: seq<QueuedResult>, maxAge: int, now: int): seq<QueuedResult> {
    Kept(items, (r: QueuedResult) => now - r.queuedAt < maxAge)
  }

  function Triable(items: seq<QueuedResult>, maxAttempts: nat): seq<QueuedResult> {
    Kept(items, (r: QueuedResult) => r.attempts < maxAttempts)
  }

  lemma {:induction false} KeptSnoc(items: seq<QueuedResult>, r: QueuedResult, keep: QueuedResult -> bool)
    ensures Kept(items + [r], keep) == Kept(items, keep) + if keep(r) then [r] else []
  {
    if items == [] {
      assert items + [r] == [r] && [r][1..] == [];
    } else {
      KeptSnoc(items[1..], r, keep);
      assert (items + [r])[1..] == items[1..] + [r];
    }
  }

  lemma {:induction false} KeptAlike(items: seq<QueuedResult>, f: QueuedResult -> bool, g: QueuedResult -> bool)
    requires forall r :: r in items ==> f(r) == g(r)
    ensures Kept(items, f) == Kept(items, g)
  {
    if items != [] {
      KeptAlike(items[1..], f, g);
    }
  }

  class ResultQueue {
    var items: seq<QueuedResult>
    const maxCapacity: nat

    constructor (maxCapacity: nat)
      ensures items == [] && this.maxCapacity == maxCapacity
    {
      items := [];
      this.maxCapacity := maxCapacity;
    }

    method EnqueueMeasured(result: Result, lts: int, now: int)
      modifies this
      ensures items == Enqueued(old(items), maxCapacity, QueuedResult(result, now, 0, None, lts))
    {
      if |items| >= maxCapacity {
        if items != [] {
          items := items[1..];
        }
      }
      items := items + [QueuedResult(result, now, 0, None, lts)];
    }

    method DrainBatch(n: nat) returns (batch: seq<QueuedResult>)
      modifies this
      ensures batch + items == old(items) && |batch| == Min(n, |old(items)|)
    {
      var count := Min(n, |items|);
      batch := items[..count];
      items := items[count..];
    }

    method DrainAll() returns (batch: seq<QueuedResult>)
      modifies this
      ensures batch == old(items) && items == []
    {
      batch := items;
      items := [];
    }

    /** Push a batch in front, last first, and trim from the back. */
    method PushFront(results: seq<QueuedResult>)
      modifies this
      ensures items == Requeued(old(items), maxCapacity, results)
    {
      var i := |results|;
      assert results[i..] + items == items;
      while i > 0
        invariant 0 <= i <= |results|
        invariant items == results[i..] + old(items)
      {
        i := i - 1;
        items := [results[i]] + items;
        assert [results[i]] + results[i + 1..] == results[i..];
      }
      assert results[0..] == results;
      ghost var all := items;
      while |items| > maxCapacity
        invariant |items| <= |all| && items == all[..|items|]
        invariant |items| >= Min(|all|, maxCapacity)
      {
        items := items[..|items| - 1];
      }
    }

    /** Failed results, back in front with one more attempt. */
    method RequeueFailed(results: seq<QueuedResult>, now: int)
      modifies this
      ensures items == Requeued(old(items), maxCapacity, AllTried(results, now))
    {
      var tried: seq<QueuedResult> := [];
      for i := 0 to |results|
        invariant tried == AllTried(results, now)[..i] && items == old(items)
      {
        tried := tried + [results[i].(attempts := results[i].attempts + 1, lastAttemptAt := Some(now))];
      }
      PushFront(tried);
    }

    /** Results the controller refused to take, back in front. */
    method RequeueRefused(results: seq<QueuedResult>, now: int)
      modifies this
      ensures items == Requeued(old(items), maxCapacity, AllDeferred(results, now))
    {
      var deferred: seq<QueuedResult> := [];
      for i := 0 to |results|
        invariant deferred == AllDeferred(results, now)[..i] && items == old(items)
      {
        deferred := deferred + [results[i].(lastAttemptAt := Some(now))];
      }
      PushFront(deferred);
    }

    /** Keep what `keep` holds for; how many results went. */
    method Retain(keep: QueuedResult -> bool) returns (removed: nat)
      modifies this
      ensures items == Kept(old(items), keep)
      ensures removed == |old(items)| - |items|
    {
      var all := items;
      var kept: seq<QueuedResult> := [];
      for i := 0 to |all|
        invariant kept == Kept(all[..i], keep) && |kept| <= i
      {
        KeptSnoc(all[..i], all[i], keep);
        assert all[..i + 1] == all[..i] + [all[i]];
        if keep(all[i]) {
          kept := kept + [all[i]];
        }
      }
      assert all[..|all|] == all;
      removed := |all| - |kept|;
      items := kept;
    }

    method CleanupExpired(maxAge: int, now: int) returns (removed: nat)
      modifies this
      ensures items == Unexpired(old(items), maxAge, now)
      ensures removed == |old(items)| - |items|
    {
      removed := Retain((r: QueuedResult) => now - r.queuedAt < maxAge);
    }

    method CleanupFailed(maxAttempts: nat) returns (removed: nat)
      modifies this
      ensures items == Triable(old(items), maxAttempts)
      ensures removed == |old(items)| - |items|
    {
      removed := Retain((r: QueuedResult) => r.attempts < maxAttempts);
    }
  }

  /** How an upload was answered. */
  datatype Answer = Accepted | Failed | RateLimited

  /** The uploads of a queue: what one sends, and what becomes of it once it
      is answered. Results may be submitted in between. */
  class Uploads {
    const queue: ResultQueue
    const maxAttempts: nat

    constructor (queue: ResultQueue, maxAttempts: nat)
      ensures this.queue == queue && this.maxAttempts == maxAttempts
    {
      this.queue, this.maxAttempts := queue, maxAttempts;
    }

    /** All that is queued, less the results out of attempts, is sent. */
    method Begin() returns (uploadable: seq<QueuedResult>)
      modifies queue
      ensures uploadable == Triable(old(queue.items), maxAttempts) && queue.items == []
    {
      var results := queue.DrainAll();
      var keep := (r: QueuedResult) => r.attempts < maxAttempts;
      uploadable := [];
      for i := 0 to |results|
        invariant uploadable == Kept(results[..i], keep) && queue.items == []
      {
        KeptSnoc(results[..i], results[i], keep);
        assert results[..i + 1] == results[..i] + [results[i]];
        if keep(results[i]) {
          uploadable := uploadable + [results[i]];
        }
      }
      assert results[..|results|] == results;
      KeptAlike(results, keep, (r: QueuedResult) => r.attempts < maxAttempts);
    }

    method End(uploadable: seq<QueuedResult>, answer: Answer, now: int)
      modifies queue
      ensures queue.items ==
              match answer
              case Accepted => old(queue.items)
              case Failed => Requeued(old(queue.items), queue.maxCapacity, AllTried(uploadable, now))
              case RateLimited => Requeued(old(queue.items), queue.maxCapacity, AllDeferred(uploadable, now))
    {
      match answer
      case Accepted =>
      case Failed => queue.RequeueFailed(uploadable, now);
      case RateLimited => queue.RequeueRefused(uploadable, now);
    }
  }
}
