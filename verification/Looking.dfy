/** The loop to the next server up, look by look: each server is locked by
    itself, so one may go down or come up between two looks. */
module Looking {
  import opened Seqs
  import opened Rings

  /** Whether the k-th look, if it is at a server, finds it up. */
  type Looks = (nat, nat) -> bool

  /** What the looks from the `k`-th on find, `looks` at most: the first server
      found up, and the head after it. */
  function Found(isUp: Looks, n: nat, head: nat, k: nat, looks: nat): Option<(nat, nat)>
    requires head < n
    decreases looks
  {
    if looks == 0 then None
    else if isUp(k, head) then Some((head, Wrap(head + 1, n)))
    else Found(isUp, n, Wrap(head + 1, n), k + 1, looks - 1)
  }

  /** The loop, given up after `looks` looks. */
  method Look(isUp: Looks, n: nat, head: nat, looks: nat) returns (found: Option<(nat, nat)>)
    requires head < n
    ensures found == Found(isUp, n, head, 0, looks)
  {
    var at: nat, k: nat := head, 0;
    while k < looks
      invariant k <= looks && at < n
      invariant Found(isUp, n, head, 0, looks) == Found(isUp, n, at, k, looks - k)
    {
      var server := at;
      at := if at + 1 < n then at + 1 else 0;
      if isUp(k, server) {
        return Some((server, at));
      }
      k := k + 1;
    }
    return None;
  }

  /** A server that is up when its turn comes ends the loop, there or before. */
  lemma {:induction false} TurnEndsLoop(isUp: Looks, n: nat, head: nat, k: nat, looks: nat, server: nat)
    requires head < n && server < n && Away(n, head, server) < looks
    requires isUp(k + Away(n, head, server), server)
    ensures Found(isUp, n, head, k, looks).Some?
    decreases looks
  {
    if head != server && !isUp(k, head) {
      assert Away(n, Wrap(head + 1, n), server) == Away(n, head, server) - 1;
      TurnEndsLoop(isUp, n, Wrap(head + 1, n), k + 1, looks - 1, server);
    }
  }

  /** While one server stays up, whichever others go down and come up, the loop
      ends within a round. */
  lemma EndsWithinARound(isUp: Looks, n: nat, head: nat, server: nat)
    requires head < n && server < n && forall k: nat :: k < n ==> isUp(k, server)
    ensures Found(isUp, n, head, 0, n).Some?
  {
    assert isUp(Away(n, head, server), server);
    TurnEndsLoop(isUp, n, head, 0, n, server);
  }

  /** Once all are down, and as long as they are, it does not end. */
  lemma {:induction false} SpinsWhileAllDown(isUp: Looks, n: nat, head: nat, k: nat, looks: nat)
    requires head < n && forall j: nat, server: nat :: k <= j < k + looks && server < n ==> !isUp(j, server)
    ensures Found(isUp, n, head, k, looks).None?
    decreases looks
  {
    if looks > 0 { SpinsWhileAllDown(isUp, n, Wrap(head + 1, n), k + 1, looks - 1); }
  }

  /** While none goes down or comes up, it finds the ring's pick. */
  lemma {:induction false} SteadyIsPick(up: seq<bool>, isUp: Looks, head: nat, k: nat)
    requires head < |up| && !AllDown(up)
    requires forall j: nat, server: nat :: server < |up| ==> isUp(j, server) == up[server]
    ensures Found(isUp, |up|, head, k, Away(|up|, head, Pick(up, head).0) + 1) == Some(Pick(up, head))
    decreases Away(|up|, head, Pick(up, head).0)
  {
    if up[head] {
      PickHere(up, head);
    } else {
      PickPasses(up, head);
      var next := Wrap(head + 1, |up|);
      SteadyIsPick(up, isUp, next, k + 1);
      assert Pick(up, head).0 != head ==> Away(|up|, next, Pick(up, head).0) == Away(|up|, head, Pick(up, head).0) - 1;
    }
  }
}
