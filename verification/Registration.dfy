/** crates/starla-controller/src/registration.rs: the registration decision,
    kept in a file between runs, and the loop that follows it
    (binaries/starla-probe/src/main.rs:1027-1339). */
module Registrations {
  import opened Seqs
  import opened Text
  import opened SavedState
  import opened InitReplies

  const MIN_WAIT_SECS: int := 100
  const MAX_WAIT_SECS: int := 2419200
  const DEFAULT_WAIT_SECS: int := 100

  datatype Reg = Reg(
    controller: Option<ControllerInfo>,
    reregAt: Option<i64>,
    waitUntil: Option<i64>,
    forced: Option<string>)

  const NONE: Reg := Reg(None, None, None, None)

  datatype Reason = ForceReg | WaitOver | ReregTimerExpired | New

  datatype Decision =
    | Cached(info: ControllerInfo)
    | WaitUntil(t: i64)
    | Register(reason: Reason)

  function ClampWait(secs: int): (r: int)
    ensures MIN_WAIT_SECS <= r <= MAX_WAIT_SECS
    ensures MIN_WAIT_SECS <= secs <= MAX_WAIT_SECS ==> r == secs
  {
    Min(Max(secs, MIN_WAIT_SECS), MAX_WAIT_SECS)
  }

  /** `as i64`: a number past the largest i64 wraps to a negative one. */
  function AsI64(n: u64): i64 {
    if n < 0x8000_0000_0000_0000 then n else n - 0x1_0000_0000_0000_0000
  }

  /** A clock value that the longest wait still fits after. */
  predicate IsClock(now: i64) { now + MAX_WAIT_SECS < I64_LIMIT }

  // ---- The state and its changes ----

  function Decide(r: Reg, now: i64): Decision {
    if r.forced.Some? then Register(ForceReg)
    else if r.waitUntil.Some? then
      if now < r.waitUntil.value then WaitUntil(r.waitUntil.value) else Register(WaitOver)
    else if r.controller.Some? && r.reregAt.Some? then
      if now < r.reregAt.value then Cached(r.controller.value) else Register(ReregTimerExpired)
    else Register(New)
  }

  function Registered(r: Reg, info: ControllerInfo, now: i64): Reg
    requires IsClock(now)
  {
    Reg(Some(info),
        if info.reregSecs.Some? then Some(now + ClampWait(AsI64(info.reregSecs.value))) else None,
        None, None)
  }

  function ToldToWait(r: Reg, secs: int, now: i64): Reg
    requires IsClock(now)
  {
    r.(waitUntil := Some(now + ClampWait(secs)), forced := None)
  }

  function Refuse(r: Reg, reason: string): Reg { Reg(None, None, None, Some(reason)) }

  // ---- The file ----

  datatype Key = Host | Port | ProbeId | ReregTimer | RegWaitUntil | ForceRegKey | OtherKey

  function KeyName(k: Key): string
    requires !k.OtherKey?
  {
    match k
    case Host => "CONTROLLER_1_HOST"
    case Port => "CONTROLLER_1_PORT"
    case ProbeId => "PROBE_ID"
    case ReregTimer => "REREG_TIMER"
    case RegWaitUntil => "REG_WAIT_UNTIL"
    case ForceRegKey => "FORCE_REG"
  }

  function KeyOf(name: string): Key {
    if name == "CONTROLLER_1_HOST" then Host
    else if name == "CONTROLLER_1_PORT" then Port
    else if name == "PROBE_ID" then ProbeId
    else if name == "REREG_TIMER" then ReregTimer
    else if name == "REG_WAIT_UNTIL" then RegWaitUntil
    else if name == "FORCE_REG" then ForceRegKey
    else OtherKey
  }

  lemma KeysRoundTrip(k: Key)
    requires !k.OtherKey?
    ensures KeyOf(KeyName(k)) == k && IsKey(KeyName(k))
  {
    match k
    case Host => assert KeyName(k)[13] == 'H';
    case Port => assert KeyName(k)[13] == 'P';
    case ProbeId => assert |KeyName(k)| == 8;
    case ReregTimer => assert |KeyName(k)| == 11;
    case RegWaitUntil => assert |KeyName(k)| == 14;
    case ForceRegKey => assert |KeyName(k)| == 9;
  }

  /** What has been read so far. */
  datatype Draft = Draft(host: Option<string>, port: Option<u16>, probeId: u32, reg: Reg)

  const BLANK: Draft := Draft(None, None, 0, NONE)

  function TakeKey(d: Draft, k: Key, v: string): Draft {
    match k
    case Host => if v != "" then d.(host := Some(v)) else d
    case Port => d.(port := ParseUnsigned(v, U16_MAX))
    case ProbeId =>
      var id := ParseUnsigned(v, U32_MAX);
      d.(probeId := if id.Some? then id.value else 0)
    case ReregTimer => d.(reg := d.reg.(reregAt := ParseSigned(v, I64_LIMIT)))
    case RegWaitUntil => d.(reg := d.reg.(waitUntil := ParseSigned(v, I64_LIMIT)))
    case ForceRegKey => d.(reg := d.reg.(forced := Some(v)))
    case OtherKey => d
  }

  function Take(d: Draft, f: Field): Draft { TakeKey(d, KeyOf(f.key), f.value) }

  function Finished(d: Draft): Reg {
    if d.host.Some? && d.port.Some? then
      d.reg.(controller := Some(ControllerInfo(d.host.value, d.port.value, d.probeId, None)))
    else d.reg
  }

  function Parsed(text: string): Reg { Finished(Fold(Take, BLANK, Fields(text))) }

  function FieldFor(k: Key, v: string): Field
    requires !k.OtherKey?
  {
    Field(KeyName(k), v)
  }

  function ControllerFields(c: Option<ControllerInfo>): seq<Field> {
    if c.None? then []
    else [FieldFor(Host, c.value.host), FieldFor(Port, Integer(c.value.port)),
          FieldFor(ProbeId, Integer(c.value.probeId))]
  }

  function NumberField(k: Key, n: Option<i64>): seq<Field>
    requires !k.OtherKey?
  {
    if n.None? then [] else [FieldFor(k, Integer(n.value))]
  }

  function ReasonField(reason: Option<string>): seq<Field> {
    if reason.None? then [] else [FieldFor(ForceRegKey, reason.value)]
  }

  function FieldsFor(r: Reg): seq<Field> {
    ControllerFields(r.controller) + NumberField(ReregTimer, r.reregAt)
    + NumberField(RegWaitUntil, r.waitUntil) + ReasonField(r.forced)
  }

  /** The same state as far as a file can tell: the REREGISTER seconds are not
      in it. */
  function Forget(r: Reg): Reg {
    if r.controller.None? then r
    else r.(controller := Some(r.controller.value.(reregSecs := None)))
  }

  /** The strings of the state fit on their lines. */
  predicate IsStorable(r: Reg) {
    && (r.controller.Some? ==> r.controller.value.host != "" && IsOneLine(r.controller.value.host))
    && (r.forced.Some? ==> IsOneLine(r.forced.value))
  }

  // ---- The object kept in memory ----

  class RegState {
    var controller: Option<ControllerInfo>
    var reregAt: Option<i64>
    var waitUntil: Option<i64>
    var forced: Option<string>

    constructor (r: Reg)
      ensures State() == r
    {
      controller, reregAt, waitUntil, forced := r.controller, r.reregAt, r.waitUntil, r.forced;
    }

    ghost function State(): Reg
      reads this
    {
      Reg(controller, reregAt, waitUntil, forced)
    }

    method NextStep(now: i64) returns (d: Decision)
      ensures d == Decide(State(), now)
    {
      if forced.Some? { return Register(ForceReg); }
      if waitUntil.Some? {
        return if now < waitUntil.value then WaitUntil(waitUntil.value) else Register(WaitOver);
      }
      if controller.Some? && reregAt.Some? {
        return if now < reregAt.value then Cached(controller.value) else Register(ReregTimerExpired);
      }
      return Register(New);
    }

    method Assign(info: ControllerInfo, now: i64)
      requires IsClock(now)
      modifies this
      ensures State() == Registered(old(State()), info, now)
    {
      reregAt := if info.reregSecs.Some? then Some(now + ClampWait(AsI64(info.reregSecs.value))) else None;
      controller := Some(info);
      waitUntil := None;
      forced := None;
    }

    method TellToWait(secs: i64, now: i64)
      requires IsClock(now)
      modifies this
      ensures State() == ToldToWait(old(State()), secs, now)
    {
      waitUntil := Some(now + ClampWait(secs));
      forced := None;
    }

    method Refused(reason: string)
      modifies this
      ensures State() == Refuse(old(State()), reason)
    {
      controller := None;
      reregAt := None;
      waitUntil := None;
      forced := Some(reason);
    }

    method Render() returns (out: string)
      ensures out == Written(FieldsFor(State()))
    {
      out := "";
      if controller.Some? {
        out := Push(out, Host, controller.value.host);
        out := Push(out, Port, Integer(controller.value.port));
        out := Push(out, ProbeId, Integer(controller.value.probeId));
        ghost var fields := ControllerFields(controller);
        PushAppends([], Host, controller.value.host);
        PushAppends(fields[..1], Port, Integer(controller.value.port));
        PushAppends(fields[..2], ProbeId, Integer(controller.value.probeId));
        assert [] + [fields[0]] == fields[..1] && fields[..1] + [fields[1]] == fields[..2];
        assert fields[..2] + [fields[2]] == fields;
      }
      ghost var done := ControllerFields(controller);
      out := PushNumber(out, done, ReregTimer, reregAt);
      done := done + NumberField(ReregTimer, reregAt);
      out := PushNumber(out, done, RegWaitUntil, waitUntil);
      done := done + NumberField(RegWaitUntil, waitUntil);
      if forced.Some? {
        out := Push(out, ForceRegKey, forced.value);
        PushAppends(done, ForceRegKey, forced.value);
      } else {
        assert done + [] == done;
      }
    }
  }

  /** One more line. */
  function Push(out: string, k: Key, v: string): string
    requires !k.OtherKey?
  {
    out + Line(FieldFor(k, v)) + "\n"
  }

  lemma PushAppends(done: seq<Field>, k: Key, v: string)
    requires !k.OtherKey?
    ensures Push(Written(done), k, v) == Written(done + [FieldFor(k, v)])
  {
    var f := FieldFor(k, v);
    WrittenAppend(done, [f]);
    assert [f][1..] == [] && Written([f]) == Line(f) + "\n" + "";
    assert Written(done) + Line(f) + "\n" == Written(done) + (Line(f) + "\n" + "");
  }

  method PushNumber(out: string, ghost done: seq<Field>, k: Key, n: Option<i64>) returns (r: string)
    requires !k.OtherKey? && out == Written(done)
    ensures r == Written(done + NumberField(k, n))
  {
    r := out;
    if n.Some? {
      r := Push(r, k, Integer(n.value));
      PushAppends(done, k, Integer(n.value));
    } else {
      assert done + [] == done;
    }
  }

  method Parse(text: string) returns (st: RegState)
    ensures fresh(st) && st.State() == Parsed(text)
  {
    var d, lines := BLANK, Lines(text);
    ghost var fields := Fields(text);
    assert fields[0..] == fields;
    for i := 0 to |lines|
      invariant Fold(Take, BLANK, fields) == Fold(Take, d, fields[i..])
    {
      assert fields[i..][1..] == fields[i + 1..];
      d := Take(d, FieldOf(lines[i]));
    }
    st := new RegState(Finished(d));
  }

  // ---- What a file keeps ----

  lemma FoldOne(d: Draft, k: Key, v: string)
    requires !k.OtherKey?
    ensures Fold(Take, d, [FieldFor(k, v)]) == TakeKey(d, k, v)
  {
    KeysRoundTrip(k);
    assert [FieldFor(k, v)][1..] == [];
  }

  lemma FoldController(d: Draft, c: ControllerInfo)
    requires c.host != ""
    ensures Fold(Take, d, ControllerFields(Some(c))) ==
            Draft(Some(c.host), Some(c.port), c.probeId, d.reg)
  {
    var host, port := FieldFor(Host, c.host), FieldFor(Port, Integer(c.port));
    var id := FieldFor(ProbeId, Integer(c.probeId));
    UnsignedRoundTrip(c.port, U16_MAX);
    UnsignedRoundTrip(c.probeId, U32_MAX);
    FoldOne(d, Host, c.host);
    FoldAppend(Take, d, [host], [port]);
    var d1 := TakeKey(d, Host, c.host);
    FoldOne(d1, Port, Integer(c.port));
    FoldAppend(Take, d, [host] + [port], [id]);
    var d2 := TakeKey(d1, Port, Integer(c.port));
    FoldOne(d2, ProbeId, Integer(c.probeId));
    assert ControllerFields(Some(c)) == [host] + [port] + [id];
  }

  lemma FoldNumber(d: Draft, k: Key, n: Option<i64>)
    requires k.ReregTimer? || k.RegWaitUntil?
    requires k.ReregTimer? ==> d.reg.reregAt == None
    requires k.RegWaitUntil? ==> d.reg.waitUntil == None
    ensures Fold(Take, d, NumberField(k, n)) ==
            d.(reg := if k.ReregTimer? then d.reg.(reregAt := n) else d.reg.(waitUntil := n))
  {
    if n.Some? {
      FoldOne(d, k, Integer(n.value));
      SignedRoundTrip(n.value, I64_LIMIT);
    }
  }

  lemma FoldReason(d: Draft, reason: Option<string>)
    requires d.reg.forced == None
    ensures Fold(Take, d, ReasonField(reason)) == d.(reg := d.reg.(forced := reason))
  {
    if reason.Some? { FoldOne(d, ForceRegKey, reason.value); }
  }

  lemma FoldFields(r: Reg)
    requires IsStorable(r)
    ensures Finished(Fold(Take, BLANK, FieldsFor(r))) == Forget(r)
  {
    var a, b := ControllerFields(r.controller), NumberField(ReregTimer, r.reregAt);
    var c, d := NumberField(RegWaitUntil, r.waitUntil), ReasonField(r.forced);
    FoldAppend(Take, BLANK, a + b + c, d);
    FoldAppend(Take, BLANK, a + b, c);
    FoldAppend(Take, BLANK, a, b);
    if r.controller.Some? { FoldController(BLANK, r.controller.value); }
    var d1 := Fold(Take, BLANK, a);
    FoldNumber(d1, ReregTimer, r.reregAt);
    var d2 := Fold(Take, d1, b);
    FoldNumber(d2, RegWaitUntil, r.waitUntil);
    var d3 := Fold(Take, d2, c);
    FoldReason(d3, r.forced);
  }

  lemma FieldsAreKept(r: Reg)
    requires IsStorable(r)
    ensures forall f :: f in FieldsFor(r) ==> IsKey(f.key) && IsOneLine(f.value)
  {
    forall k: Key | !k.OtherKey?
      ensures IsKey(KeyName(k))
    {
      KeysRoundTrip(k);
    }
    forall n: int
      ensures IsOneLine(Integer(n))
    {
      NumbersAreWords(n);
      assert IsSpace('\n');
    }
    forall f | f in FieldsFor(r)
      ensures IsKey(f.key) && IsOneLine(f.value)
    {
      assert f in ControllerFields(r.controller) || f in NumberField(ReregTimer, r.reregAt)
             || f in NumberField(RegWaitUntil, r.waitUntil) || f in ReasonField(r.forced);
    }
  }

  lemma {:induction false} FoldIsStorable(d: Draft, fields: seq<Field>)
    requires forall f :: f in fields ==> IsOneLine(f.value)
    requires d.reg.controller == None && IsStorable(d.reg)
    requires d.host.Some? ==> d.host.value != "" && IsOneLine(d.host.value)
    ensures IsStorable(Finished(Fold(Take, d, fields)))
    decreases |fields|
  {
    if fields != [] {
      assert IsOneLine(fields[0].value);
      TakeIsStorable(d, KeyOf(fields[0].key), fields[0].value);
      FoldIsStorable(Take(d, fields[0]), fields[1..]);
    }
  }

  lemma TakeIsStorable(d: Draft, k: Key, v: string)
    requires IsOneLine(v)
    requires d.reg.controller == None && IsStorable(d.reg)
    requires d.host.Some? ==> d.host.value != "" && IsOneLine(d.host.value)
    ensures var r := TakeKey(d, k, v);
            && r.reg.controller == None && IsStorable(r.reg)
            && (r.host.Some? ==> r.host.value != "" && IsOneLine(r.host.value))
  {
  }

  function Reloaded(r: Reg): Reg { Parsed(Written(FieldsFor(r))) }

  /** Saving and loading gives the state back, its REREGISTER seconds apart,
      exactly when its strings fit on their lines. */
  lemma ReloadKeepsStorable(r: Reg)
    ensures Reloaded(r) == Forget(r) <==> IsStorable(r)
    ensures IsStorable(Reloaded(r))
  {
    var text := Written(FieldsFor(r));
    FieldsAreOneLine(text);
    FoldIsStorable(BLANK, Fields(text));
    if IsStorable(r) {
      FieldsAreKept(r);
      FieldsOfWritten(FieldsFor(r));
      FoldFields(r);
    }
  }
}
