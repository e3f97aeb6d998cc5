/** The ring of name servers and whose turn it is. */
module Rings {
  import opened Seqs

  // ---------------------------------------------------------------------
  // The ring's order

  /** The configured servers in ring order: the first, then the rest from the
      last back. */
  function RingOf<T>(conf: seq<T>): seq<T> {
    if conf == [] then [] else [conf[0]] + Reverse(conf[1..])
  }

  /** A server linked in right after the first. */
  function LinkIn<T>(ring: seq<T>, server: T): seq<T> {
    if ring == [] then [server] else [ring[0], server] + ring[1..]
  }

  function LinkAll<T>(ring: seq<T>, servers: seq<T>): seq<T>
    decreases servers
  {
    if servers == [] then ring else LinkAll(LinkIn(ring, servers[0]), servers[1..])
  }

  lemma {:induction false} LinkAllIs<T>(ring: seq<T>, servers: seq<T>)
    requires ring != []
    ensures LinkAll(ring, servers) == [ring[0]] + Reverse(servers) + ring[1..]
    decreases servers
  {
    if servers == [] {
      assert [ring[0]] + Reverse(servers) + ring[1..] == ring;
    } else {
      LinkAllIs(LinkIn(ring, servers[0]), servers[1..]);
      assert LinkIn(ring, servers[0])[1..] == [servers[0]] + ring[1..];
      Associative([ring[0]] + Reverse(servers[1..]), [servers[0]], ring[1..]);
      Associative([ring[0]], Reverse(servers[1..]), [servers[0]]);
    }
  }

  /** The ring is what linking each server in after the first makes of them. */
  lemma RingIsLinked<T>(conf: seq<T>)
    ensures RingOf(conf) == LinkAll([], conf)
  {
    if conf != [] {
      LinkAllIs([conf[0]], conf[1..]);
      assert [conf[0]][1..] == [];
      assert [conf[0]] + Reverse(conf[1..]) + [] == [conf[0]] + Reverse(conf[1..]);
    }
  }

  // ---------------------------------------------------------------------
  // Turns

  function Wrap(i: nat, n: nat): (r: nat)
    requires i < 2 * n
    ensures r < n
  {
    if i < n then i else i - n
  }

  /** All positions, from `head` round the ring. */
  function Order(n: nat, head: nat): (r: seq<nat>)
    requires head < n
    ensures |r| == n && forall k :: 0 <= k < n ==> r[k] == Wrap(head + k, n)
  {
    seq<nat>(n, k requires 0 <= k < n => Wrap(head + k, n))
  }

  predicate Within(order: seq<nat>, n: nat) {
    forall k :: 0 <= k < |order| ==> order[k] < n
  }

  function OnlyUp(up: seq<bool>, order: seq<nat>): seq<nat>
    requires Within(order, |up|)
  {
    if order == [] then []
    else (if up[order[0]] then [order[0]] else []) + OnlyUp(up, order[1..])
  }

  /** The servers thought up, in the order of their turns. */
  function UpOrder(up: seq<bool>, head: nat): seq<nat>
    requires head < |up|
  {
    OnlyUp(up, Order(|up|, head))
  }

  predicate AllDown(up: seq<bool>) {
    forall i :: 0 <= i < |up| ==> !up[i]
  }

  /** Whose turn it is, and the head after it. */
  function Pick(up: seq<bool>, head: nat): (r: (nat, nat))
    requires head < |up|
    ensures r.0 < |up| && r.1 < |up|
  {
    if AllDown(up) then (Wrap(head + 1, |up|), Wrap(head + 1, |up|)) else
    SomeUp(up, head);
    OnlyUpIn(up, Order(|up|, head));
    var server := UpOrder(up, head)[0];
    assert server in UpOrder(up, head);
    (server, Wrap(server + 1, |up|))
  }

  lemma {:induction false} OnlyUpIn(up: seq<bool>, order: seq<nat>)
    requires Within(order, |up|)
    ensures forall i :: i in OnlyUp(up, order) <==> i in order && up[i]
    ensures |OnlyUp(up, order)| <= |order|
  {
    if order != [] {
      OnlyUpIn(up, order[1..]);
    }
  }

  lemma {:induction false} OnlyUpAppend(up: seq<bool>, a: seq<nat>, b: seq<nat>)
    requires Within(a, |up|) && Within(b, |up|)
    ensures OnlyUp(up, a + b) == OnlyUp(up, a) + OnlyUp(up, b)
    decreases a
  {
    if a == [] {
      assert a + b == b;
    } else {
      assert (a + b)[1..] == a[1..] + b;
      assert (a + b)[0] == a[0];
      OnlyUpAppend(up, a[1..], b);
    }
  }

  lemma InOrder(n: nat, head: nat, i: nat)
    requires head < n && i < n
    ensures i in Order(n, head)
  {
    var k := if i >= head then i - head else i - head + n;
    assert Order(n, head)[k] == i;
  }

  lemma SomeUp(up: seq<bool>, head: nat)
    requires head < |up| && !AllDown(up)
    ensures UpOrder(up, head) != []
  {
    var i :| 0 <= i < |up| && up[i];
    InOrder(|up|, head, i);
    OnlyUpIn(up, Order(|up|, head));
    assert i in UpOrder(up, head);
  }

  lemma OrderTurns(n: nat, head: nat)
    requires head < n
    ensures Order(n, Wrap(head + 1, n)) == Order(n, head)[1..] + [head]
    ensures Order(n, head)[0] == head
  {
  }

  /** Moving the head past a server moves that server to the end. */
  lemma TurnPast(up: seq<bool>, head: nat)
    requires head < |up|
    ensures UpOrder(up, head) ==
            (if up[head] then [head] else []) + OnlyUp(up, Order(|up|, head)[1..])
    ensures UpOrder(up, Wrap(head + 1, |up|)) ==
            OnlyUp(up, Order(|up|, head)[1..]) + if up[head] then [head] else []
  {
    var order := Order(|up|, head);
    OrderTurns(|up|, head);
    OnlyUpAppend(up, order[1..], [head]);
    assert [head][1..] == [];
  }

  lemma {:induction false} SkipDown(up: seq<bool>, head: nat, server: nat)
    requires head < |up| && !AllDown(up) && server < |up|
    requires UpOrder(up, head) != [] && UpOrder(up, head)[0] == server
    ensures UpOrder(up, Wrap(server + 1, |up|)) == UpOrder(up, head)[1..] + [server]
    decreases Away(|up|, head, server)
  {
    TurnPast(up, head);
    OnlyUpIn(up, Order(|up|, head));
    assert server in UpOrder(up, head);
    if up[head] {
      assert server == head;
    } else {
      assert UpOrder(up, Wrap(head + 1, |up|)) == UpOrder(up, head);
      SkipDown(up, Wrap(head + 1, |up|), server);
    }
  }

  /** A server that is down is passed over; the pick is one step nearer. */
  lemma PickPasses(up: seq<bool>, head: nat)
    requires head < |up| && !AllDown(up) && !up[head]
    ensures var next := Wrap(head + 1, |up|);
            var server := Pick(up, head).0;
            Pick(up, next) == Pick(up, head) && Away(|up|, next, server) < Away(|up|, head, server)
  {
    TurnPast(up, head);
    SomeUp(up, head);
    OnlyUpIn(up, Order(|up|, head));
    assert UpOrder(up, head)[0] in UpOrder(up, head);
  }

  lemma PickHere(up: seq<bool>, head: nat)
    requires head < |up| && up[head]
    ensures Pick(up, head) == (head, Wrap(head + 1, |up|))
  {
    TurnPast(up, head);
  }

  /** How far round the ring a position is. */
  function Away(n: nat, head: nat, i: nat): nat
    requires head < n && i < n
  {
    if i >= head then i - head else i - head + n
  }

  /** The servers `k` picks in a row give, while none goes up or down. */
  function Picks(up: seq<bool>, head: nat, k: nat): seq<nat>
    requires head < |up|
    decreases k
  {
    if k == 0 then [] else
    var (server, next) := Pick(up, head);
    [server] + Picks(up, next, k - 1)
  }

  /** As many picks as servers up give each of them once, in ring order. */
  lemma {:induction false} PicksAreRoundRobin(up: seq<bool>, head: nat, k: nat)
    requires head < |up| && !AllDown(up) && k <= |UpOrder(up, head)|
    ensures Picks(up, head, k) == UpOrder(up, head)[..k]
    decreases k
  {
    if k > 0 {
      var order := UpOrder(up, head);
      var (server, next) := Pick(up, head);
      SkipDown(up, head, server);
      assert UpOrder(up, next) == order[1..] + [server];
      PicksAreRoundRobin(up, next, k - 1);
      assert (order[1..] + [server])[..k - 1] == order[1..k];
      assert [server] + order[1..k] == order[..k];
    }
  }

  /** With none up, as many picks as servers give each once, in ring order. */
  lemma {:induction false} PicksWithNoneUp(up: seq<bool>, head: nat, k: nat)
    requires head < |up| && AllDown(up) && k <= |up|
    ensures Picks(up, head, k) == Order(|up|, Wrap(head + 1, |up|))[..k]
    decreases k
  {
    if k > 0 {
      var next := Wrap(head + 1, |up|);
      PicksWithNoneUp(up, next, k - 1);
      OrderTurns(|up|, next);
      assert Order(|up|, Wrap(next + 1, |up|))[..k - 1] == Order(|up|, next)[1..k];
      assert [next] + Order(|up|, next)[1..k] == Order(|up|, next)[..k];
    }
  }

  /** The turns name each server up exactly once. */
  lemma {:induction false} OnlyUpOnce(up: seq<bool>, order: seq<nat>)
    requires Within(order, |up|)
    requires forall i, j :: 0 <= i < j < |order| ==> order[i] != order[j]
    ensures forall i, j :: 0 <= i < j < |OnlyUp(up, order)| ==> OnlyUp(up, order)[i] != OnlyUp(up, order)[j]
  {
    if order != [] {
      OnlyUpOnce(up, order[1..]);
      OnlyUpIn(up, order[1..]);
    }
  }

  lemma TurnsAreFair(up: seq<bool>, head: nat)
    requires head < |up|
    ensures forall i :: 0 <= i < |up| ==> (i in UpOrder(up, head) <==> up[i])
    ensures forall i, j :: 0 <= i < j < |UpOrder(up, head)| ==> UpOrder(up, head)[i] != UpOrder(up, head)[j]
  {
    var order := Order(|up|, head);
    OnlyUpIn(up, order);
    OnlyUpOnce(up, order);
    forall i | 0 <= i < |up|
      ensures i in order
    {
      InOrder(|up|, head, i);
    }
  }
}
