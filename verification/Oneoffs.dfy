/** crates/starla-results/src/lib.rs:299-327: which results are a one-off's. */
module Oneoffs {

  const MAX_PENDING_ONEOFFS: nat := 256

  function Position(ids: seq<nat>, id: nat): (i: nat)
    ensures i <= |ids| && id !in ids[..i]
    ensures i < |ids| ==> ids[i] == id
  {
    if ids == [] || ids[0] == id then 0 else 1 + Position(ids[1..], id)
  }

  function Removed(ids: seq<nat>, i: nat): seq<nat>
    requires i < |ids|
  {
    ids[..i] + ids[i + 1..]
  }

  /** One more ID to expect; the oldest goes when there are too many. */
  function Expected(pending: seq<nat>, id: nat): seq<nat> {
    (if |pending| >= MAX_PENDING_ONEOFFS then pending[1..] else pending) + [id]
  }

  /** What is still expected after a result, and whether it is a one-off's. */
  function Routed(pending: seq<nat>, id: nat): (seq<nat>, bool) {
    var i := Position(pending, id);
    if i < |pending| then (Removed(pending, i), true) else (pending, false)
  }

  class OneoffRouter {
    var pending: seq<nat>

    constructor ()
      ensures pending == []
    {
      pending := [];
    }

    method Expect(id: nat)
      modifies this
      ensures pending == Expected(old(pending), id)
    {
      if |pending| >= MAX_PENDING_ONEOFFS {
        pending := pending[1..];
      }
      pending := pending + [id];
    }

    method Route(id: nat) returns (oneoff: bool)
      modifies this
      ensures (pending, oneoff) == Routed(old(pending), id)
    {
      var ids := pending;
      var i := 0;
      while i < |ids| && ids[i] != id
        invariant 0 <= i <= |ids| && pending == ids
        invariant Position(ids, id) == i + Position(ids[i..], id)
      {
        assert ids[i..][1..] == ids[i + 1..];
        i := i + 1;
      }
      if i < |ids| {
        pending := ids[..i] + ids[i + 1..];
        return true;
      }
      return false;
    }
  }

  // ---------------------------------------------------------------------

  datatype Event = Expects(id: nat) | Submits(id: nat)

  function Step(pending: seq<nat>, e: Event): seq<nat> {
    match e
    case Expects(id) => Expected(pending, id)
    case Submits(id) => Routed(pending, id).0
  }

  function Run(events: seq<Event>, n: nat): (pending: seq<nat>)
    requires n <= |events|
  {
    if n == 0 then [] else Step(Run(events, n - 1), events[n - 1])
  }

  function One(b: bool): nat { if b then 1 else 0 }

  /** How often, in the first `n` events, `id` was expected; one of its results
      went to the one-offs; and it was given up for want of room. */
  function Expectations(events: seq<Event>, id: nat, n: nat): nat
    requires n <= |events|
  {
    if n == 0 then 0 else Expectations(events, id, n - 1) + One(events[n - 1] == Expects(id))
  }

  function Claims(events: seq<Event>, id: nat, n: nat): nat
    requires n <= |events|
  {
    if n == 0 then 0
    else Claims(events, id, n - 1) + One(events[n - 1] == Submits(id) && Routed(Run(events, n - 1), id).1)
  }

  function Evictions(events: seq<Event>, id: nat, n: nat): nat
    requires n <= |events|
  {
    if n == 0 then 0
    else
      var before := Run(events, n - 1);
      Evictions(events, id, n - 1)
      + One(events[n - 1].Expects? && |before| >= MAX_PENDING_ONEOFFS && before[0] == id)
  }

  lemma CountOfRemoved(ids: seq<nat>, i: nat, id: nat)
    requires i < |ids|
    ensures multiset(Removed(ids, i))[id] == multiset(ids)[id] - One(ids[i] == id)
  {
    assert ids == ids[..i] + [ids[i]] + ids[i + 1..];
    assert multiset(Removed(ids, i)) == multiset(ids[..i]) + multiset(ids[i + 1..]);
  }

  lemma StepCounts(pending: seq<nat>, e: Event, id: nat)
    ensures multiset(Step(pending, e))[id]
            + One(e == Submits(id) && Routed(pending, id).1)
            + One(e.Expects? && |pending| >= MAX_PENDING_ONEOFFS && pending[0] == id)
            == multiset(pending)[id] + One(e == Expects(id))
  {
    match e
    case Expects(x) =>
      if |pending| >= MAX_PENDING_ONEOFFS {
        CountOfRemoved(pending, 0, id);
        assert Removed(pending, 0) == pending[1..];
      }
    case Submits(x) =>
      var i := Position(pending, x);
      if i < |pending| { CountOfRemoved(pending, i, id); }
  }

  lemma {:induction false} PendingIsBounded(events: seq<Event>, n: nat)
    requires n <= |events|
    ensures |Run(events, n)| <= MAX_PENDING_ONEOFFS
  {
    if n > 0 { PendingIsBounded(events, n - 1); }
  }

  /** Every expectation of an ID is pending, claimed by one result, or given
      up. */
  lemma {:induction false} ExpectationsAreConserved(events: seq<Event>, id: nat, n: nat)
    requires n <= |events|
    ensures multiset(Run(events, n))[id] + Claims(events, id, n) + Evictions(events, id, n) ==
            Expectations(events, id, n)
  {
    if n > 0 {
      var before, e := Run(events, n - 1), events[n - 1];
      ExpectationsAreConserved(events, id, n - 1);
      StepCounts(before, e, id);
      var claimed := One(e == Submits(id) && Routed(before, id).1);
      var givenUp := One(e.Expects? && |before| >= MAX_PENDING_ONEOFFS && before[0] == id);
      assert Claims(events, id, n) == Claims(events, id, n - 1) + claimed;
      assert Evictions(events, id, n) == Evictions(events, id, n - 1) + givenUp;
    }
  }

  /** A result is a one-off's exactly when its ID has been expected more often
      than it has been claimed or given up. */
  lemma OneoffIffExpected(events: seq<Event>, n: nat)
    requires n < |events| && events[n].Submits?
    ensures var id := events[n].id;
            Routed(Run(events, n), id).1 <==>
            Claims(events, id, n) + Evictions(events, id, n) < Expectations(events, id, n)
  {
    var id, pending := events[n].id, Run(events, n);
    ExpectationsAreConserved(events, id, n);
    assert id in pending <==> multiset(pending)[id] > 0;
    var i := Position(pending, id);
    if i == |pending| { assert pending[..i] == pending; }
  }

  lemma {:induction false} NoneGivenUp(events: seq<Event>, id: nat, n: nat, m: nat)
    requires n <= m <= |events|
    requires forall k: nat :: k < m && events[k].Expects? ==> |Run(events, k)| < MAX_PENDING_ONEOFFS
    ensures Evictions(events, id, n) == 0
  {
    if n > 0 { NoneGivenUp(events, id, n - 1, m); }
  }

  /** While there is room for what is expected, that is when it has been
      expected more often than claimed. */
  lemma OneoffWithRoom(events: seq<Event>, n: nat)
    requires n < |events| && events[n].Submits?
    requires forall k: nat :: k < n && events[k].Expects? ==> |Run(events, k)| < MAX_PENDING_ONEOFFS
    ensures var id := events[n].id;
            Routed(Run(events, n), id).1 <==> Claims(events, id, n) < Expectations(events, id, n)
  {
    OneoffIffExpected(events, n);
    NoneGivenUp(events, events[n].id, n, n);
  }
}
