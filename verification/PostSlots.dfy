/** When the controller's httppost lines run: the same slots, with perd's
    tests, its truncating division and its guard against a clock that went
    back. */
module PostSlots {
  import opened Seqs
  import Runs
  import T = TaskSlots

  const MAX_INTERVAL: nat := 2 * 366 * 24 * 3600

  /** A line's timing: `T.Schedule` with an end that is always in force. */
  datatype State = State(sched: T.Schedule, cycle: int, offset: int)

  /** Division as C and Rust divide: toward zero. */
  function TruncDiv(a: int, b: int): int
    requires b > 0
  {
    if a >= 0 then a / b else -((-a) / b)
  }

  function FirstCycle(now: int, s: T.Schedule): int {
    if s.interval == 0 then 0 else TruncDiv(now - s.start, s.interval) + 1
  }

  function Due(st: State): int {
    T.Slot(st.sched, st.cycle) + st.offset
  }

  function NextRun(st: State, now: int): Option<int> {
    var at := Max(Due(st), st.sched.start);
    if now <= st.sched.end && at <= st.sched.end then Some(at) else None
  }

  predicate IsDue(st: State, now: int) {
    now >= Due(st) && now >= st.sched.start && now <= st.sched.end
  }

  function Advanced(st: State, now: int, offset: int): State {
    var next := st.cycle + 1;
    State(st.sched, if T.Slot(st.sched, next) <= now then FirstCycle(now, st.sched) else next, offset)
  }

  function ClockChecked(st: State, now: int): State {
    if now >= st.sched.start && now < T.Slot(st.sched, st.cycle - 10) then st.(cycle := 0) else st
  }

  predicate SameCycles(was: T.Schedule, s: T.Schedule) {
    was.interval == s.interval && was.start == s.start
  }

  /** The cycle goes on, and the offset too if the spread is the same. */
  function CarriedOver(was: State, s: T.Schedule, draw: int): State {
    State(s, was.cycle, if was.sched.spread == s.spread then was.offset else draw)
  }

  /** The timings a line may have. */
  predicate IsTaken(s: T.Schedule) { 1 <= s.interval <= MAX_INTERVAL && s.start >= 0 }

  /** A line with where it posts to. */
  datatype Line = Line(target: string, st: State)

  /** The line after the controller sent one: what is kept of an old one with
      the same target and cycles, or a fresh start; None if its timing is not
      taken or its URL, which gives `target`, is none. */
  function LineFor(was: Option<Line>, target: Option<string>, s: T.Schedule, now: int, draw: int): Option<Line> {
    if !IsTaken(s) || target.None? then None
    else if was.Some? && was.value.target == target.value && SameCycles(was.value.st.sched, s) then
      Some(Line(target.value, CarriedOver(was.value.st, s, draw)))
    else Some(Line(target.value, State(s, FirstCycle(now, s), draw)))
  }

  class Slots {
    var schedule: T.Schedule
    var cycle: int
    var offset: int

    function Value(): State
      reads this
    {
      State(schedule, cycle, offset)
    }

    constructor (schedule: T.Schedule, now: int, draw: int)
      requires T.Drawn(schedule.spread, draw)
      ensures Value() == State(schedule, FirstCycle(now, schedule), draw)
    {
      this.schedule, cycle, offset := schedule, FirstCycle(now, schedule), draw;
    }

    constructor Carry(was: Slots, schedule: T.Schedule, draw: int)
      requires T.Drawn(schedule.spread, draw)
      ensures Value() == CarriedOver(was.Value(), schedule, draw)
    {
      this.schedule, cycle := schedule, was.cycle;
      offset := if was.schedule.spread == schedule.spread then was.offset else draw;
    }

    method Advance(now: int, draw: int)
      requires T.Drawn(schedule.spread, draw)
      modifies this`cycle, this`offset
      ensures Value() == Advanced(old(Value()), now, draw)
    {
      cycle := cycle + 1;
      if schedule.start + cycle * schedule.interval <= now {
        cycle := FirstCycle(now, schedule);
      }
      offset := draw;
    }

    method CheckClock(now: int)
      modifies this`cycle
      ensures Value() == ClockChecked(old(Value()), now)
    {
      if now >= schedule.start && now < schedule.start + (cycle - 10) * schedule.interval {
        cycle := 0;
      }
    }

    /** The line's deadline, if it will run again. */
    method LineDeadline(now: int) returns (at: Option<int>)
      modifies this`cycle
      ensures Value() == ClockChecked(old(Value()), now) && at == NextRun(Value(), now)
    {
      CheckClock(now);
      at := NextRun(Value(), now);
    }

    /** Whether the line runs now, moved on to its next cycle. */
    method TakeDueLine(now: int, draw: int) returns (runs: bool)
      requires T.Drawn(schedule.spread, draw)
      modifies this`cycle, this`offset
      ensures runs == IsDue(old(Value()), now)
      ensures Value() == if runs then Advanced(old(Value()), now, draw) else old(Value())
    {
      runs := IsDue(Value(), now);
      if runs {
        Advance(now, draw);
      }
    }
  }

  /** The line an upload goes by, once the controller has sent one. */
  class PostLine {
    var target: string
    var slots: Slots?

    constructor ()
      ensures slots == null
    {
      target, slots := "", null;
    }

    ghost function Value(): Option<Line>
      reads this, slots
    {
      if slots == null then None else Some(Line(target, slots.Value()))
    }

    /** The controller's line: refused, which changes nothing, or carried over
        or begun afresh. */
    method SetLine(url: Option<string>, schedule: T.Schedule, now: int, draw: int) returns (taken: bool)
      requires T.Drawn(schedule.spread, draw)
      modifies this
      ensures var line := LineFor(old(Value()), url, schedule, now, draw);
              taken == line.Some? && Value() == if taken then line else old(Value())
    {
      if !(1 <= schedule.interval <= MAX_INTERVAL) || schedule.start < 0 {
        return false;
      }
      if url.None? {
        return false;
      }
      if slots != null && target == url.value && slots.schedule.interval == schedule.interval
         && slots.schedule.start == schedule.start {
        slots := new Slots.Carry(slots, schedule, draw);
      } else {
        slots := new Slots(schedule, now, draw);
      }
      target := url.value;
      return true;
    }
  }

  // ---------------------------------------------------------------------

  /** The deadline is the least time the line is due, and it is due from then
      to its end; without one it is never due again. */
  lemma DeadlineIsLeastDue(st: State, now: int)
    ensures NextRun(st, now).Some? ==>
              var at := NextRun(st, now).value;
              forall t :: IsDue(st, t) <==> at <= t <= st.sched.end
    ensures NextRun(st, now).Some? <==> exists t :: t >= now && IsDue(st, t)
  {
    var at := Max(Due(st), st.sched.start);
    assert forall t :: IsDue(st, t) <==> at <= t <= st.sched.end;
    if NextRun(st, now).Some? {
      assert IsDue(st, Max(at, now));
    }
  }

  lemma FirstCycleAfterNow(s: T.Schedule, now: int)
    requires s.interval >= 1
    ensures now >= s.start ==> FirstCycle(now, s) == T.FirstCycleAfter(s, now)
    ensures T.Slot(s, FirstCycle(now, s)) > now
  {
    if now >= s.start {
      T.SlotAbove(s, now);
    } else {
      var d := s.start - now;
      var q := d / s.interval;
      assert d == q * s.interval + d % s.interval;
      assert (1 - q) * s.interval == s.interval - q * s.interval;
    }
  }

  /** Advancing a line that is due gives a later cycle, whose slot is after
      now. */
  lemma AdvanceMovesOn(st: State, now: int, offset: int)
    requires st.sched.interval >= 1 && now >= st.sched.start
    ensures Advanced(st, now, offset).cycle > st.cycle
    ensures T.Slot(st.sched, Advanced(st, now, offset).cycle) > now
  {
    if T.Slot(st.sched, st.cycle + 1) <= now {
      FirstCycleAfterNow(st.sched, now);
      if st.cycle + 1 >= 0 { T.FirstCycleIsLeast(st.sched, now, st.cycle + 1); }
    }
  }

  /** A line that is due is due at its start or later. */
  lemma AdvanceWhenDue(st: State, now: int, offset: int)
    requires st.sched.interval >= 1 && IsDue(st, now)
    ensures var next := Advanced(st, now, offset);
            next.cycle > st.cycle && T.Slot(next.sched, next.cycle) > now
            && forall c :: st.cycle < c < next.cycle ==> T.Slot(st.sched, c) <= now
  {
    AdvanceMovesOn(st, now, offset);
    var next := Advanced(st, now, offset);
    if T.Slot(st.sched, st.cycle + 1) <= now {
      FirstCycleAfterNow(st.sched, now);
      forall c | st.cycle < c < next.cycle
        ensures T.Slot(st.sched, c) <= now
      {
        if c >= 0 {
          T.FirstCycleIsLeast(st.sched, now, c);
        } else {
          T.SlotsAscend(st.sched, c, 0);
        }
      }
    }
  }

  /** After the guard the slot is at most ten intervals ahead, so a clock that
      went back holds the line up no longer than that and half its spread. */
  lemma GuardBoundsWait(st: State, now: int)
    requires st.sched.interval >= 1 && now >= st.sched.start && T.Drawn(st.sched.spread, st.offset)
    ensures var checked := ClockChecked(st, now);
            && T.Slot(checked.sched, checked.cycle) <= now + 10 * st.sched.interval
            && (NextRun(checked, now).Some? ==>
                  NextRun(checked, now).value <= now + 10 * st.sched.interval + T.Forward(st.sched.spread))
  {
    T.SlotsAscend(st.sched, st.cycle - 10, st.cycle);
    assert 0 * st.sched.interval == 0;
  }

  lemma QuotientIsOne(d: int, i: int)
    requires d > 0 && i >= 1
    ensures d / i == 1 <==> i <= d < 2 * i
  {
    var q := d / i;
    assert d == q * i + d % i;
    if q <= 0 {
      assert q * i <= 0;
    } else if q >= 2 {
      assert (q - 2) * i >= 0;
      assert q * i == 2 * i + (q - 2) * i;
    }
  }

  /** Before the start the truncating division and the scheduler's own rule
      give the same first cycle only from one to two intervals before it. */
  lemma TruncationAgrees(s: T.Schedule, now: int)
    requires s.interval >= 1
    ensures FirstCycle(now, s) == T.FirstCycleAfter(s, now) <==>
            now >= s.start || s.interval <= s.start - now < 2 * s.interval
  {
    if now < s.start { QuotientIsOne(s.start - now, s.interval); }
  }

  // ---------------------------------------------------------------------
  // Passes of the upload loop

  /** A pass: the guard, and the post if the line is due; or the controller's
      line once more, with an end and a spread that may be others. */
  datatype Event = Pass(now: int, draw: int) | Repeats(end: int, spread: nat, draw: int)

  function EventStep(st: State, e: Event): (State, seq<int>) {
    match e
    case Pass(now, draw) =>
      var checked := ClockChecked(st, now);
      if IsDue(checked, now) then (Advanced(checked, now, draw), [checked.cycle]) else (checked, [])
    case Repeats(end, spread, draw) => (CarriedOver(st, st.sched.(end := end, spread := spread), draw), [])
  }

  function Run(st: State, events: seq<Event>): (State, seq<int>)
    decreases events
  {
    if events == [] then (st, []) else
    var (next, first) := EventStep(st, events[0]);
    var (end, rest) := Run(next, events[1..]);
    (end, first + rest)
  }

  /** No more than an interval ahead of the last pass or, before it, of the
      start, when offsets go back by `back` at most. */
  ghost predicate Within(st: State, last: int, back: nat) {
    && st.sched.interval >= 1
    && st.offset + back >= 0
    && T.Slot(st.sched, st.cycle) <= Max(last, st.sched.start) + back + st.sched.interval
  }

  /** The clock does not go back, and no offset is further back than `back`. */
  ghost predicate Forwards(last: int, back: nat, events: seq<Event>)
    decreases |events|
  {
    events != [] ==>
      && events[0].draw + back >= 0
      && (events[0].Pass? ==> last <= events[0].now)
      && Forwards(Later(last, events[0]), back, events[1..])
  }

  function Later(last: int, e: Event): int { if e.Pass? then e.now else last }

  lemma SkippedSlot(s: T.Schedule, now: int)
    requires s.interval >= 1 && now >= s.start
    ensures T.Slot(s, FirstCycle(now, s)) <= now + s.interval
  {
    FirstCycleAfterNow(s, now);
    T.SlotAbove(s, now);
    T.NextSlot(s, FirstCycle(now, s) - 1);
  }

  /** The slot a post moves on to is no further off than the next one, or no
      further than an interval after the post. */
  lemma AdvancedWithin(st: State, last: int, back: nat, now: int, draw: int)
    requires Within(st, last, back) && last <= now && draw + back >= 0 && IsDue(st, now)
    ensures Within(Advanced(st, now, draw), now, back)
  {
    AdvanceWhenDue(st, now, draw);
    T.NextSlot(st.sched, st.cycle);
    SkippedSlot(st.sched, now);
  }

  lemma GuardIsIdle(st: State, last: int, back: nat, now: int)
    requires Within(st, last, back) && last <= now && back <= 9 * st.sched.interval
    ensures ClockChecked(st, now) == st
  {
    T.SlotsAscend(st.sched, st.cycle - 10, st.cycle);
  }

  lemma StepStaysWithin(st: State, last: int, back: nat, e: Event)
    requires Within(st, last, back) && back <= 9 * st.sched.interval
    requires e.draw + back >= 0 && (e.Pass? ==> last <= e.now)
    ensures e.Pass? ==> ClockChecked(st, e.now) == st
    ensures var (next, ran) := EventStep(st, e);
            Within(next, Later(last, e), back) && next.sched.interval == st.sched.interval
            && next.cycle >= st.cycle && (ran != [] ==> ran == [st.cycle] && next.cycle > st.cycle)
  {
    if e.Pass? {
      GuardIsIdle(st, last, back, e.now);
      if IsDue(st, e.now) {
        AdvanceWhenDue(st, e.now, e.draw);
        AdvancedWithin(st, last, back, e.now, e.draw);
      }
    }
  }

  /** While the clock goes forward, and half the spread is within nine
      intervals, the guard never steps in: the posts' cycles are strictly
      increasing, however often the controller sends the line again. */
  lemma {:induction false} PostsIncrease(st: State, last: int, back: nat, events: seq<Event>)
    requires Within(st, last, back) && Forwards(last, back, events) && back <= 9 * st.sched.interval
    ensures var (end, ran) := Run(st, events);
            Increasing(ran) && end.cycle >= st.cycle
            && (forall i :: 0 <= i < |ran| ==> st.cycle <= ran[i] < end.cycle)
    decreases |events|
  {
    if events != [] {
      StepStaysWithin(st, last, back, events[0]);
      PostsIncrease(EventStep(st, events[0]).0, Later(last, events[0]), back, events[1..]);
    }
  }

  /** A line loaded at any time, before its start too, begins within these
      bounds. */
  lemma LoadedWithin(s: T.Schedule, now: int, draw: int)
    requires s.interval >= 1 && T.Drawn(s.spread, draw)
    ensures Within(State(s, FirstCycle(now, s), draw), now, T.Back(s.spread))
  {
    if now >= s.start {
      SkippedSlot(s, now);
    } else {
      FirstCycleUpTo1(s, now);
      T.SlotsAscend(s, FirstCycle(now, s), 1);
      assert 1 * s.interval == s.interval;
    }
  }

  lemma FirstCycleUpTo1(s: T.Schedule, now: int)
    requires s.interval >= 1 && now < s.start
    ensures FirstCycle(now, s) <= 1
  {
  }

  // ---------------------------------------------------------------------
  // The guard and wide spreads

  lemma PostsOne(st: State, now: int, back: nat)
    requires st.sched.interval >= 1 && st.offset == -(back as int)
    requires st.sched.start <= now <= st.sched.end
    requires now < T.Slot(st.sched, 1) && 1 <= st.cycle <= 10 && T.Slot(st.sched, st.cycle) - back <= now
    ensures EventStep(st, Pass(now, -(back as int))) == (st.(cycle := st.cycle + 1), [st.cycle])
  {
    T.SlotsAscend(st.sched, st.cycle - 10, 0);
    assert 0 * st.sched.interval == 0;
    T.SlotsAscend(st.sched, 1, st.cycle + 1);
  }

  /** The next `n` cycles, posted at once. */
  lemma {:induction false} PostsAtOnce(st: State, now: int, back: nat, n: nat)
    requires st.sched.interval >= 1 && st.offset == -(back as int)
    requires st.sched.start <= now <= st.sched.end
    requires now < T.Slot(st.sched, 1) && st.cycle >= 1 && st.cycle + n <= 11
    requires forall c :: st.cycle <= c < st.cycle + n ==> T.Slot(st.sched, c) - back <= now
    ensures Run(st, Passes(now, back, n)) ==
            (st.(cycle := st.cycle + n), T.Cycles(st.cycle, n))
    decreases n
  {
    if n > 0 {
      var next := st.(cycle := st.cycle + 1);
      PostsOne(st, now, back);
      PostsAtOnce(next, now, back, n - 1);
      CyclesFrom(st.cycle, n);
      assert Passes(now, back, n)[1..] == Passes(now, back, n - 1);
    } else {
      assert T.Cycles(st.cycle, 0) == [];
    }
  }

  lemma CyclesFrom(cycle: int, n: nat)
    requires n > 0
    ensures T.Cycles(cycle, n) == [cycle] + T.Cycles(cycle + 1, n - 1)
  {
    var a, b := T.Cycles(cycle, n), [cycle] + T.Cycles(cycle + 1, n - 1);
    forall i: nat | i < n
      ensures a[i] == b[i]
    {
      assert a[i] == cycle + i;
    }
  }

  function Passes(now: int, back: nat, n: nat): (r: seq<Event>)
    ensures |r| == n && forall e :: e in r ==> e == Pass(now, -(back as int))
  {
    if n == 0 then [] else [Pass(now, -(back as int))] + Passes(now, back, n - 1)
  }

  lemma RunIterates()
    ensures Runs.Iterates(Run, EventStep)
  {
    forall st, events: seq<Event> | events != []
      ensures Run(st, events) == Runs.Joined(EventStep(st, events[0]).1, Run(EventStep(st, events[0]).0, events[1..]))
    {
    }
  }

  lemma RunAppend(st: State, a: seq<Event>, b: seq<Event>)
    ensures Run(st, a + b) == (Run(Run(st, a).0, b).0, Run(st, a).1 + Run(Run(st, a).0, b).1)
  {
    RunIterates();
    Runs.RunsOn(Run, EventStep, st, a, b);
  }

  lemma {:induction false} PassesGoForward(now: int, back: nat, n: nat)
    ensures Forwards(now, back, Passes(now, back, n))
  {
    if n > 0 {
      PassesGoForward(now, back, n - 1);
      assert Passes(now, back, n)[1..] == Passes(now, back, n - 1);
    }
  }

  /** What a line's schedule allows: a load, and passes and the line sent again
      on a clock that does not go back, with offsets drawn from its spread. */
  ghost predicate Happens(s: T.Schedule, load: int, draw: int, events: seq<Event>) {
    && T.Drawn(s.spread, draw)
    && (forall e :: e in events ==> T.Drawn(s.spread, e.draw) && (e.Repeats? ==> e.spread == s.spread))
    && Forwards(load, T.Back(s.spread), events)
  }

  lemma TenthSlot(s: T.Schedule)
    ensures T.Slot(s, 10) == T.Slot(s, 1) + 9 * s.interval
  {
  }

  lemma FirstTenAreDue(s: T.Schedule, now: int)
    requires T.Back(s.spread) > 9 * s.interval && now == T.Slot(s, 1) - 1
    ensures forall c :: 1 <= c < 11 ==> T.Slot(s, c) - T.Back(s.spread) <= now
  {
    TenthSlot(s);
    forall c | 1 <= c < 11
      ensures T.Slot(s, c) - T.Back(s.spread) <= now
    {
      T.SlotsAscend(s, c, 10);
    }
  }

  /** Just before its first slot, ten cycles are posted as early as can be;
      the eleventh is then out of the guard's range. */
  lemma TenPosts(s: T.Schedule, now: int)
    requires s.interval >= 1 && T.Back(s.spread) > 9 * s.interval
    requires now == T.Slot(s, 1) - 1 <= s.end
    ensures var back := T.Back(s.spread);
            Run(State(s, 1, -back), Passes(now, back, 10)) == (State(s, 11, -back), T.Cycles(1, 10))
  {
    T.FirstSlot(s);
    FirstTenAreDue(s, now);
    PostsAtOnce(State(s, 1, -T.Back(s.spread)), now, T.Back(s.spread), 10);
  }

  lemma GuardFires(s: T.Schedule, now: int)
    requires s.interval >= 1 && s.start <= now <= s.end && now == T.Slot(s, 1) - 1
    ensures var back := T.Back(s.spread);
            Run(State(s, 11, -back), [Pass(now, -back)]).1 == [0]
  {
    var pass := Pass(now, -T.Back(s.spread));
    assert 0 * s.interval == 0;
    assert EventStep(State(s, 11, -T.Back(s.spread)), pass).1 == [0];
    assert [pass][1..] == [] && [0] + [] == [0];
  }

  lemma FirstIsOne(s: T.Schedule)
    requires s.interval >= 1
    ensures FirstCycle(T.Slot(s, 1) - 1, s) == 1
  {
    T.FirstSlot(s);
    T.FirstAtStart(s);
    FirstCycleAfterNow(s, T.Slot(s, 1) - 1);
  }

  lemma ElevenPosts(s: T.Schedule, now: int)
    requires s.interval >= 1 && T.Back(s.spread) > 9 * s.interval
    requires now == T.Slot(s, 1) - 1 <= s.end
    ensures var back := T.Back(s.spread);
            Run(State(s, 1, -back), Passes(now, back, 11)).1 == T.Cycles(1, 10) + [0]
  {
    var back := T.Back(s.spread);
    T.FirstSlot(s);
    TenPosts(s, now);
    GuardFires(s, now);
    RunAppend(State(s, 1, -back), Passes(now, back, 10), [Pass(now, -back)]);
    OneMorePass(now, back, 10);
  }

  lemma ElevenHappen(s: T.Schedule, now: int)
    ensures Happens(s, now, -T.Back(s.spread), Passes(now, T.Back(s.spread), 11))
  {
    PassesGoForward(now, T.Back(s.spread), 11);
  }

  /** With a wider spread than nine intervals each way, the guard steps in
      while the clock stands still: cycle 0 is posted after cycle 10. */
  lemma GuardGoesBack(s: T.Schedule) returns (load: int, events: seq<Event>)
    requires s.interval >= 1 && T.Back(s.spread) > 9 * s.interval && T.Slot(s, 1) <= s.end
    ensures Happens(s, load, -T.Back(s.spread), events)
    ensures forall e :: e in events ==> e == Pass(load, -T.Back(s.spread))
    ensures Run(State(s, FirstCycle(load, s), -T.Back(s.spread)), events).1 == T.Cycles(1, 10) + [0]
  {
    load := T.Slot(s, 1) - 1;
    events := Passes(load, T.Back(s.spread), 11);
    ElevenHappen(s, load);
    ElevenPosts(s, load);
    FirstIsOne(s);
  }

  lemma {:induction false} OneMorePass(now: int, back: nat, n: nat)
    ensures Passes(now, back, n) + [Pass(now, -(back as int))] == Passes(now, back, n + 1)
  {
    var pass := Pass(now, -(back as int));
    if n > 0 {
      OneMorePass(now, back, n - 1);
      Associative([pass], Passes(now, back, n - 1), [pass]);
    }
  }

  /** If this can happen, the cycles posted are strictly increasing. */
  ghost predicate IsOrdered(s: T.Schedule, load: int, draw: int, events: seq<Event>) {
    Happens(s, load, draw, events) ==> Increasing(Run(State(s, FirstCycle(load, s), draw), events).1)
  }

  lemma NarrowIsOrdered(s: T.Schedule, load: int, draw: int, events: seq<Event>)
    requires s.interval >= 1 && T.Back(s.spread) <= 9 * s.interval
    ensures IsOrdered(s, load, draw, events)
  {
    if Happens(s, load, draw, events) {
      LoadedWithin(s, load, draw);
      PostsIncrease(State(s, FirstCycle(load, s), draw), load, T.Back(s.spread), events);
    }
  }

  lemma WideIsNot(s: T.Schedule) returns (load: int, events: seq<Event>)
    requires s.interval >= 1 && T.Back(s.spread) > 9 * s.interval && T.Slot(s, 1) <= s.end
    ensures !IsOrdered(s, load, -T.Back(s.spread), events)
  {
    load, events := GuardGoesBack(s);
    ZeroAfterTen();
  }

  /** Lines with an interval, a start and a spread post strictly increasing
      cycles while the clock does not go back, whatever their end and whenever
      they are loaded and sent again, exactly when half the spread is within
      nine intervals. */
  lemma IncreasingIffWithinNine(interval: nat, start: int, spread: nat)
    requires interval >= 1
    ensures (forall end, load, draw, events ::
               IsOrdered(T.Schedule(interval, start, end, spread), load, draw, events))
            <==> T.Back(spread) <= 9 * interval
  {
    if T.Back(spread) <= 9 * interval {
      forall end, load, draw, events
        ensures IsOrdered(T.Schedule(interval, start, end, spread), load, draw, events)
      {
        NarrowIsOrdered(T.Schedule(interval, start, end, spread), load, draw, events);
      }
    } else {
      var s := T.Schedule(interval, start, start + interval, spread);
      T.FirstSlot(s);
      var load, events := WideIsNot(s);
    }
  }

  lemma ZeroAfterTen()
    ensures !Increasing(T.Cycles(1, 10) + [0])
  {
    var ran := T.Cycles(1, 10) + [0];
    assert ran[9] == 10 && ran[10] == 0;
  }

  /** A crontab that repeats a line, with whatever end, moves neither its next
      cycle nor, if the spread is the same, its time. */
  lemma RepeatedLineStays(was: Line, s: T.Schedule, now: int, draw: int)
    requires SameCycles(was.st.sched, s)
    ensures IsTaken(s) ==>
              var kept := LineFor(Some(was), Some(was.target), s, now, draw).value.st;
              kept.cycle == was.st.cycle && (s.spread == was.st.sched.spread ==> Due(kept) == Due(was.st))
    ensures LineFor(Some(was), Some(was.target), s, now, draw).None? <==> !IsTaken(s)
  {
  }
}
