/** crates/starla-controller/src/registration.rs:170-270: the controller
    session kept between runs. */
module ConKeeps {
  import opened Seqs
  import opened Text
  import opened SavedState

  datatype Keep = Keep(remotePort: Option<u16>, sessionId: Option<string>, waitUntil: Option<i64>)

  const NONE: Keep := Keep(None, None, None)

  function Waiting(k: Keep, now: i64): Option<i64> {
    if k.waitUntil.Some? && now < k.waitUntil.value then k.waitUntil else None
  }

  function Session(k: Keep, now: i64): Option<(u16, string)> {
    if Waiting(k, now).Some? || k.remotePort.None? || k.sessionId.None? then None
    else Some((k.remotePort.value, k.sessionId.value))
  }

  // ---- The file ----

  datatype Key = RemotePort | SessionId | ConWaitTimer | OtherKey

  function KeyName(k: Key): string
    requires !k.OtherKey?
  {
    match k
    case RemotePort => "REMOTE_PORT"
    case SessionId => "SESSION_ID"
    case ConWaitTimer => "CON_WAIT_TIMER"
  }

  function KeyOf(name: string): Key {
    if name == "REMOTE_PORT" then RemotePort
    else if name == "SESSION_ID" then SessionId
    else if name == "CON_WAIT_TIMER" then ConWaitTimer
    else OtherKey
  }

  lemma KeysRoundTrip(k: Key)
    requires !k.OtherKey?
    ensures KeyOf(KeyName(k)) == k && IsKey(KeyName(k))
  {
    match k
    case RemotePort => assert |KeyName(k)| == 11;
    case SessionId => assert |KeyName(k)| == 10;
    case ConWaitTimer => assert |KeyName(k)| == 14;
  }

  function TakeKey(st: Keep, k: Key, v: string): Keep {
    match k
    case RemotePort => st.(remotePort := ParseUnsigned(v, U16_MAX))
    case SessionId => st.(sessionId := Some(v))
    case ConWaitTimer => st.(waitUntil := ParseSigned(v, I64_LIMIT))
    case OtherKey => st
  }

  function Take(st: Keep, f: Field): Keep { TakeKey(st, KeyOf(f.key), f.value) }

  function Parsed(text: string): Keep { Fold(Take, NONE, Fields(text)) }

  function Value(k: Key, v: Option<string>): seq<Field>
    requires !k.OtherKey?
  {
    if v.None? then [] else [Field(KeyName(k), v.value)]
  }

  function Printed(n: Option<int>): Option<string> {
    if n.None? then None else Some(Integer(n.value))
  }

  function FieldsFor(k: Keep): seq<Field> {
    Value(RemotePort, Printed(k.remotePort)) + Value(SessionId, k.sessionId)
    + Value(ConWaitTimer, Printed(k.waitUntil))
  }

  predicate IsStorable(k: Keep) { k.sessionId.Some? ==> IsOneLine(k.sessionId.value) }

  function Reloaded(k: Keep): Keep { Parsed(Written(FieldsFor(k))) }

  // ---- The object kept in memory ----

  class ConKeep {
    var remotePort: Option<u16>
    var sessionId: Option<string>
    var waitUntil: Option<i64>

    constructor (k: Keep)
      ensures State() == k
    {
      remotePort, sessionId, waitUntil := k.remotePort, k.sessionId, k.waitUntil;
    }

    ghost function State(): Keep
      reads this
    {
      Keep(remotePort, sessionId, waitUntil)
    }

    method Reusable(now: i64) returns (session: Option<(u16, string)>)
      ensures session == Session(State(), now)
    {
      if waitUntil.Some? && now < waitUntil.value { return None; }
      if remotePort.Some? && sessionId.Some? { return Some((remotePort.value, sessionId.value)); }
      return None;
    }

    method WaitingUntil(now: i64) returns (until: Option<i64>)
      ensures until == Waiting(State(), now)
    {
      return if waitUntil.Some? && now < waitUntil.value then waitUntil else None;
    }

    method SetReady(port: u16, session: string)
      modifies this
      ensures State() == Keep(Some(port), Some(session), None)
    {
      remotePort := Some(port);
      sessionId := Some(session);
      waitUntil := None;
    }

    method SetWait(until: i64)
      modifies this
      ensures State() == old(State()).(waitUntil := Some(until))
    {
      waitUntil := Some(until);
    }

    method Clear()
      modifies this
      ensures State() == NONE
    {
      remotePort, sessionId, waitUntil := None, None, None;
    }

    method Render() returns (out: string)
      ensures out == Written(FieldsFor(State()))
    {
      ghost var done: seq<Field> := [];
      out := "";
      out := Push(out, done, RemotePort, Printed(remotePort));
      done := done + Value(RemotePort, Printed(remotePort));
      out := Push(out, done, SessionId, sessionId);
      done := done + Value(SessionId, sessionId);
      out := Push(out, done, ConWaitTimer, Printed(waitUntil));
      assert [] + Value(RemotePort, Printed(remotePort)) == Value(RemotePort, Printed(remotePort));
    }
  }

  method Push(out: string, ghost done: seq<Field>, k: Key, v: Option<string>) returns (r: string)
    requires !k.OtherKey? && out == Written(done)
    ensures r == Written(done + Value(k, v))
  {
    r := out;
    if v.Some? {
      var f := Field(KeyName(k), v.value);
      r := r + Line(f) + "\n";
      WrittenAppend(done, [f]);
      assert [f][1..] == [] && Written([f]) == Line(f) + "\n" + "";
      assert Written(done) + Line(f) + "\n" == Written(done) + (Line(f) + "\n" + "");
    } else {
      assert done + [] == done;
    }
  }

  method Parse(text: string) returns (st: ConKeep)
    ensures fresh(st) && st.State() == Parsed(text)
  {
    var k, lines := NONE, Lines(text);
    ghost var fields := Fields(text);
    assert fields[0..] == fields;
    for i := 0 to |lines|
      invariant Fold(Take, NONE, fields) == Fold(Take, k, fields[i..])
    {
      assert fields[i..][1..] == fields[i + 1..];
      k := Take(k, FieldOf(lines[i]));
    }
    st := new ConKeep(k);
  }

  // ---- What a file keeps ----

  lemma FoldValue(st: Keep, k: Key, v: Option<string>)
    requires !k.OtherKey?
    ensures Fold(Take, st, Value(k, v)) == if v.None? then st else TakeKey(st, k, v.value)
  {
    KeysRoundTrip(k);
    if v.Some? { assert Value(k, v)[1..] == []; }
  }

  lemma FoldFields(k: Keep)
    ensures Fold(Take, NONE, FieldsFor(k)) == k
  {
    var port, timer := Printed(k.remotePort), Printed(k.waitUntil);
    var a, b, c := Value(RemotePort, port), Value(SessionId, k.sessionId), Value(ConWaitTimer, timer);
    FoldAppend(Take, NONE, a + b, c);
    FoldAppend(Take, NONE, a, b);
    if k.remotePort.Some? { UnsignedRoundTrip(k.remotePort.value, U16_MAX); }
    if k.waitUntil.Some? { SignedRoundTrip(k.waitUntil.value, I64_LIMIT); }
    FoldValue(NONE, RemotePort, port);
    FoldValue(Fold(Take, NONE, a), SessionId, k.sessionId);
    FoldValue(Fold(Take, Fold(Take, NONE, a), b), ConWaitTimer, timer);
  }

  lemma FieldsAreKept(k: Keep)
    requires IsStorable(k)
    ensures forall f :: f in FieldsFor(k) ==> IsKey(f.key) && IsOneLine(f.value)
  {
    KeysRoundTrip(RemotePort);
    KeysRoundTrip(SessionId);
    KeysRoundTrip(ConWaitTimer);
    forall n: int
      ensures IsOneLine(Integer(n))
    {
      NumbersAreWords(n);
      assert IsSpace('\n');
    }
  }

  lemma {:induction false} FoldIsStorable(st: Keep, fields: seq<Field>)
    requires IsStorable(st) && forall f :: f in fields ==> IsOneLine(f.value)
    ensures IsStorable(Fold(Take, st, fields))
    decreases |fields|
  {
    if fields != [] {
      assert fields[0] in fields;
      TakeIsStorable(st, KeyOf(fields[0].key), fields[0].value);
      FoldIsStorable(Take(st, fields[0]), fields[1..]);
    }
  }

  lemma TakeIsStorable(st: Keep, k: Key, v: string)
    requires IsStorable(st) && IsOneLine(v)
    ensures IsStorable(TakeKey(st, k, v))
  {
  }

  /** Saving and loading gives the session back exactly when its id fits on a
      line. */
  lemma ReloadKeepsSession(k: Keep)
    ensures Reloaded(k) == k <==> IsStorable(k)
  {
    var text := Written(FieldsFor(k));
    FieldsAreOneLine(text);
    FoldIsStorable(NONE, Fields(text));
    if IsStorable(k) {
      FieldsAreKept(k);
      FieldsOfWritten(FieldsFor(k));
      FoldFields(k);
    }
  }

  // ---------------------------------------------------------------------
  // Runs

  datatype Change =
    | Ready(port: u16, session: string)
    | Wait(until: i64)
    | Cleared
    | Reload

  /** `load` reads back what was saved of every session whose ID fits on a
      line. */
  ghost predicate Loads(load: Keep -> Keep) { forall k :: IsStorable(k) ==> load(k) == k }

  /** The file does. */
  lemma FileLoads()
    ensures Loads(Reloaded)
  {
    forall k | IsStorable(k)
      ensures Reloaded(k) == k
    {
      ReloadKeepsSession(k);
    }
  }

  function Apply(load: Keep -> Keep, k: Keep, c: Change): Keep {
    match c
    case Ready(port, session) => Keep(Some(port), Some(session), None)
    case Wait(until) => k.(waitUntil := Some(until))
    case Cleared => NONE
    case Reload => load(k)
  }

  /** What is kept after the first `n` changes. */
  function Run(load: Keep -> Keep, changes: seq<Change>, n: nat): Keep
    requires n <= |changes|
  {
    if n == 0 then NONE else Apply(load, Run(load, changes, n - 1), changes[n - 1])
  }

  /** The session assigned last, if nothing was cleared since. */
  function LastReady(changes: seq<Change>, n: nat): Option<(u16, string)>
    requires n <= |changes|
  {
    if n == 0 then None
    else match changes[n - 1]
      case Ready(port, session) => Some((port, session))
      case Cleared => None
      case Wait(_) => LastReady(changes, n - 1)
      case Reload => LastReady(changes, n - 1)
  }

  /** The wait asked for last, if no session was assigned and nothing cleared
      since. */
  function LastWait(changes: seq<Change>, n: nat): Option<i64>
    requires n <= |changes|
  {
    if n == 0 then None
    else match changes[n - 1]
      case Wait(until) => Some(until)
      case Ready(_, _) => None
      case Cleared => None
      case Reload => LastWait(changes, n - 1)
  }

  /** Session IDs as replies give them. */
  ghost predicate AreStorable(changes: seq<Change>) {
    forall c :: c in changes && c.Ready? ==> IsOneLine(c.session)
  }

  /** The state with a session and a wait. */
  function Kept(ready: Option<(u16, string)>, wait: Option<i64>): Keep {
    if ready.None? then Keep(None, None, wait)
    else Keep(Some(ready.value.0), Some(ready.value.1), wait)
  }

  lemma ApplyKeeps(load: Keep -> Keep, k: Keep, c: Change)
    requires Loads(load) && IsStorable(k) && (c.Ready? ==> IsOneLine(c.session))
    ensures IsStorable(Apply(load, k, c))
    ensures c.Reload? ==> Apply(load, k, c) == k
  {
  }

  lemma {:induction false} RunIsStorable(load: Keep -> Keep, changes: seq<Change>, n: nat)
    requires Loads(load) && AreStorable(changes) && n <= |changes|
    ensures IsStorable(Run(load, changes, n))
  {
    if n > 0 {
      var k, c := Run(load, changes, n - 1), changes[n - 1];
      RunIsStorable(load, changes, n - 1);
      assert c in changes;
      ApplyKeeps(load, k, c);
      assert Run(load, changes, n) == Apply(load, k, c);
    }
  }

  lemma {:induction false} RunIsLast(load: Keep -> Keep, changes: seq<Change>, n: nat)
    requires Loads(load) && AreStorable(changes) && n <= |changes|
    ensures Run(load, changes, n) == Kept(LastReady(changes, n), LastWait(changes, n))
  {
    if n > 0 {
      var k, c := Run(load, changes, n - 1), changes[n - 1];
      RunIsLast(load, changes, n - 1);
      RunIsStorable(load, changes, n - 1);
      assert c in changes;
      LastStep(load, changes, n);
      ApplyKeeps(load, k, c);
      assert Run(load, changes, n) == Apply(load, k, c);
    }
  }

  /** A change of what is kept is the same change of what was last. */
  lemma LastStep(load: Keep -> Keep, changes: seq<Change>, n: nat)
    requires 0 < n <= |changes|
    ensures var k := Kept(LastReady(changes, n - 1), LastWait(changes, n - 1));
            Kept(LastReady(changes, n), LastWait(changes, n)) ==
            if changes[n - 1].Reload? then k else Apply(load, k, changes[n - 1])
  {
  }

  /** Over any run, saves and loads in it: the session to reuse is the one
      assigned last, unless it was cleared or the wait asked for since is not
      over. */
  lemma SessionIsLast(load: Keep -> Keep, changes: seq<Change>, now: i64)
    requires Loads(load) && AreStorable(changes)
    ensures var n := |changes|;
            var wait := LastWait(changes, n);
            && Waiting(Run(load, changes, n), now) == (if wait.Some? && now < wait.value then wait else None)
            && Session(Run(load, changes, n), now) ==
               if wait.Some? && now < wait.value then None else LastReady(changes, n)
  {
    RunIsLast(load, changes, |changes|);
  }

  lemma {:induction false} WaitStays(changes: seq<Change>, i: nat, n: nat)
    requires i < n <= |changes| && changes[i].Wait?
    requires forall j :: i < j < n ==> !changes[j].Ready? && !changes[j].Wait?
    ensures LastWait(changes, n) == Some(changes[i].until) || LastReady(changes, n) == None
  {
    if i < n - 1 { WaitStays(changes, i, n - 1); }
  }

  /** Once a controller asked to wait, no session is reused before the time
      unless it assigned one or asked for another wait since. */
  lemma NoneBeforeWait(load: Keep -> Keep, changes: seq<Change>, i: nat, now: i64)
    requires Loads(load) && AreStorable(changes) && i < |changes| && changes[i].Wait? && now < changes[i].until
    requires forall j :: i < j < |changes| ==> !changes[j].Ready? && !changes[j].Wait?
    ensures Session(Run(load, changes, |changes|), now) == None
  {
    SessionIsLast(load, changes, now);
    WaitStays(changes, i, |changes|);
  }

  lemma {:induction false} LastWithoutReloads(changes: seq<Change>, n: nat)
    requires n <= |changes|
    ensures var kept := WithoutReloads(changes, n);
            LastReady(kept, |kept|) == LastReady(changes, n) && LastWait(kept, |kept|) == LastWait(changes, n)
  {
    if n > 0 {
      LastWithoutReloads(changes, n - 1);
      var kept := WithoutReloads(changes, n - 1);
      if !changes[n - 1].Reload? { LastOfAppended(kept, changes[n - 1], |kept|); }
    }
  }

  function WithoutReloads(changes: seq<Change>, n: nat): (kept: seq<Change>)
    requires n <= |changes|
    ensures forall c :: c in kept ==> c in changes
  {
    if n == 0 then []
    else if changes[n - 1].Reload? then WithoutReloads(changes, n - 1)
    else WithoutReloads(changes, n - 1) + [changes[n - 1]]
  }

  lemma {:induction false} LastOfAppended(changes: seq<Change>, c: Change, n: nat)
    requires n <= |changes|
    ensures LastReady(changes + [c], n) == LastReady(changes, n)
    ensures LastWait(changes + [c], n) == LastWait(changes, n)
  {
    if n > 0 { LastOfAppended(changes, c, n - 1); }
  }

  /** Saves and loads anywhere in a run change no answer. */
  lemma ReloadsAreInvisible(load: Keep -> Keep, changes: seq<Change>, now: i64)
    requires Loads(load) && AreStorable(changes)
    ensures var kept := WithoutReloads(changes, |changes|);
            && Session(Run(load, kept, |kept|), now) == Session(Run(load, changes, |changes|), now)
            && Waiting(Run(load, kept, |kept|), now) == Waiting(Run(load, changes, |changes|), now)
  {
    SessionIsLast(load, changes, now);
    SessionIsLast(load, WithoutReloads(changes, |changes|), now);
    LastWithoutReloads(changes, |changes|);
  }
}
