/** A recurring measurement's slots: cycle k runs at start + k * interval,
    moved by an offset drawn afresh for each cycle. */
module TaskSlots {
  import opened Seqs

  /** How far from its time a stopped line may be when it is taken up again. */
  const TIME_SLACK: int := 10

  datatype Schedule = Schedule(interval: nat, start: int, end: int, spread: nat)

  datatype Task = Task(sched: Schedule, cycle: int, nextRun: int)

  function Slot(s: Schedule, cycle: int): int {
    s.start + cycle * s.interval
  }

  /** Half the spread, rounded down and up: how far an offset may move a run
      back and forward. */
  function Back(spread: nat): int { spread / 2 }

  function Forward(spread: nat): int { spread - spread / 2 }

  /** A draw of the offset. */
  predicate Drawn(spread: nat, offset: int) {
    -Back(spread) <= offset <= Forward(spread)
  }

  /** Cycle 0 while the start is ahead, else the first whose slot is after now. */
  function FirstCycleAfter(s: Schedule, now: int): int {
    if s.interval == 0 || now < s.start then 0 else (now - s.start) / s.interval + 1
  }

  function AtCycle(s: Schedule, cycle: int, offset: int): Task {
    Task(s, cycle, Slot(s, cycle) + offset)
  }

  function Load(s: Schedule, now: int, offset: int): Task {
    AtCycle(s, FirstCycleAfter(s, now), offset)
  }

  predicate IsDue(t: Task, now: int) {
    t.nextRun <= now && (t.sched.end == 0 || t.nextRun <= t.sched.end)
  }

  function NextCycle(s: Schedule, cycle: int, now: int): int {
    if Slot(s, cycle + 1) < now then FirstCycleAfter(s, now) else cycle + 1
  }

  function ScheduleNext(t: Task, now: int, offset: int): Task {
    AtCycle(t.sched, NextCycle(t.sched, t.cycle, now), offset)
  }

  predicate HadStopped(t: Task) {
    t.sched.end != 0 && t.nextRun > t.sched.end
  }

  function TakeEndTime(t: Task, end: int, now: int, offset: int): Task {
    var s := t.sched.(end := end);
    if HadStopped(t) && now > t.nextRun + TIME_SLACK then AtCycle(s, FirstCycleAfter(s, now), offset)
    else t.(sched := s)
  }

  class ScheduledTask {
    const interval: nat
    const startTime: int
    const spread: nat
    var endTime: int
    var cycle: int
    var nextRun: int

    function State(): Task
      reads this
    {
      Task(Schedule(interval, startTime, endTime, spread), cycle, nextRun)
    }

    constructor (s: Schedule, now: int, offset: int)
      requires Drawn(s.spread, offset)
      ensures State() == Load(s, now, offset)
    {
      interval, startTime, endTime, spread := s.interval, s.start, s.end, s.spread;
      cycle := FirstCycleAfter(s, now);
      nextRun := Slot(s, FirstCycleAfter(s, now)) + offset;
    }

    method DrawCycle(now: int, offset: int)
      requires Drawn(spread, offset)
      modifies this`cycle, this`nextRun
      ensures State() == Load(old(State()).sched, now, offset)
    {
      cycle := FirstCycleAfter(State().sched, now);
      nextRun := startTime + cycle * interval + offset;
    }

    method Next(now: int, offset: int)
      requires Drawn(spread, offset)
      modifies this`cycle, this`nextRun
      ensures State() == ScheduleNext(old(State()), now, offset)
    {
      cycle := cycle + 1;
      if startTime + cycle * interval < now {
        cycle := FirstCycleAfter(State().sched, now);
      }
      nextRun := startTime + cycle * interval + offset;
    }

    method TakeEnd(end: int, now: int, offset: int)
      requires Drawn(spread, offset)
      modifies this`endTime, this`cycle, this`nextRun
      ensures State() == TakeEndTime(old(State()), end, now, offset)
    {
      var hadStopped := endTime != 0 && nextRun > endTime;
      endTime := end;
      if hadStopped && now > nextRun + TIME_SLACK {
        DrawCycle(now, offset);
      }
    }

    /** One poll: whether it runs now, moved on to its next cycle. */
    method Poll(now: int, offset: int) returns (ran: seq<int>)
      requires Drawn(spread, offset)
      modifies this`cycle, this`nextRun
      ensures (State(), ran) == PollStep(old(State()), now, offset)
    {
      ran := [];
      if nextRun <= now && (endTime == 0 || nextRun <= endTime) {
        ran := [cycle];
        Next(now, offset);
      }
    }
  }

  // ---------------------------------------------------------------------
  // Runs

  function PollStep(t: Task, now: int, offset: int): (Task, seq<int>) {
    if IsDue(t, now) then (ScheduleNext(t, now, offset), [t.cycle]) else (t, [])
  }

  datatype Event = Poll(now: int, offset: int) | NewEnd(end: int, now: int, offset: int)

  function EventStep(t: Task, e: Event): (Task, seq<int>) {
    match e
    case Poll(now, offset) => PollStep(t, now, offset)
    case NewEnd(end, now, offset) => (TakeEndTime(t, end, now, offset), [])
  }

  /** What some events leave, and the cycles that ran. */
  function Run(t: Task, events: seq<Event>): (Task, seq<int>)
    decreases events
  {
    if events == [] then (t, []) else
    var (next, first) := EventStep(t, events[0]);
    var (end, rest) := Run(next, events[1..]);
    (end, first + rest)
  }

  /** The next run is the cycle's slot, moved by an offset in range: less that
      offset it is start_time modulo the interval. */
  ghost predicate Valid(t: Task) {
    && t.sched.interval >= 1
    && t.cycle >= 0
    && Drawn(t.sched.spread, t.nextRun - Slot(t.sched, t.cycle))
  }

  lemma AtLeastOnce(n: nat, k: nat)
    requires k >= 1
    ensures n * k >= n
  {
    assert n * k == n + n * (k - 1);
  }

  lemma Distributes(a: int, b: int, k: int)
    ensures b * k - a * k == (b - a) * k
  {
  }

  lemma SlotsAscend(s: Schedule, a: int, b: int)
    requires a <= b
    ensures Slot(s, b) == Slot(s, a) + (b - a) * s.interval
    ensures Slot(s, a) <= Slot(s, b)
    ensures s.interval >= 1 ==> Slot(s, b) - Slot(s, a) >= b - a
  {
    Distributes(a, b, s.interval);
    if s.interval >= 1 { AtLeastOnce(b - a, s.interval); }
  }

  lemma NextSlot(s: Schedule, cycle: int)
    ensures Slot(s, cycle + 1) == Slot(s, cycle) + s.interval
  {
    assert (cycle + 1) * s.interval == cycle * s.interval + s.interval;
  }

  lemma SlotAbove(s: Schedule, now: int)
    requires s.interval >= 1
    ensures FirstCycleAfter(s, now) >= 0 && Slot(s, FirstCycleAfter(s, now)) > now
    ensures now >= s.start ==> Slot(s, FirstCycleAfter(s, now) - 1) <= now
  {
    if now >= s.start {
      var q := (now - s.start) / s.interval;
      assert now - s.start == q * s.interval + (now - s.start) % s.interval;
      assert (q + 1) * s.interval == q * s.interval + s.interval;
    }
  }

  /** The first cycle after `now` is the least from 0 on whose slot is. */
  lemma FirstCycleIsLeast(s: Schedule, now: int, cycle: int)
    requires s.interval >= 1 && cycle >= 0
    ensures Slot(s, cycle) > now <==> cycle >= FirstCycleAfter(s, now)
  {
    SlotAbove(s, now);
    var first := FirstCycleAfter(s, now);
    if cycle >= first {
      SlotsAscend(s, first, cycle);
    } else {
      assert now >= s.start;
      SlotsAscend(s, cycle, first - 1);
    }
  }

  /** The next cycle is a later one, and its slot is not in the past: a slot
      that was missed is never run. */
  lemma NextCycleIsLater(s: Schedule, cycle: int, now: int)
    requires s.interval >= 1 && cycle >= 0
    ensures NextCycle(s, cycle, now) > cycle
    ensures Slot(s, NextCycle(s, cycle, now)) >= now
    ensures forall c :: cycle < c < NextCycle(s, cycle, now) ==> Slot(s, c) <= now
  {
    if Slot(s, cycle + 1) < now {
      SlotAbove(s, now);
      FirstCycleIsLeast(s, now, cycle + 1);
      forall c | cycle < c < NextCycle(s, cycle, now)
        ensures Slot(s, c) <= now
      {
        FirstCycleIsLeast(s, now, c);
      }
    }
  }

  lemma PollKeepsValid(t: Task, now: int, offset: int)
    requires Valid(t) && Drawn(t.sched.spread, offset)
    ensures Valid(PollStep(t, now, offset).0)
    ensures IsDue(t, now) ==> PollStep(t, now, offset).0.cycle > t.cycle
  {
    NextCycleIsLater(t.sched, t.cycle, now);
  }

  /** A line taken up again with a new end time keeps its cycle, or starts at
      the first slot after now; with half the spread within the interval and
      the slack, that is no earlier cycle. */
  lemma EndTimeKeepsCycle(t: Task, end: int, now: int, offset: int)
    requires Valid(t) && Drawn(t.sched.spread, offset)
    requires Back(t.sched.spread) <= t.sched.interval + TIME_SLACK + 1
    ensures Valid(TakeEndTime(t, end, now, offset))
    ensures TakeEndTime(t, end, now, offset).cycle >= t.cycle
  {
    var s := t.sched.(end := end);
    SlotAbove(s, now);
    if HadStopped(t) && now > t.nextRun + TIME_SLACK && t.cycle > 0 {
      assert Slot(s, t.cycle) == Slot(t.sched, t.cycle);
      SlotsAscend(s, t.cycle - 1, t.cycle);
      assert 1 * s.interval == s.interval;
      FirstCycleIsLeast(s, now, t.cycle - 1);
    }
  }

  ghost predicate Offsets(spread: nat, events: seq<Event>) {
    forall i :: 0 <= i < |events| ==> Drawn(spread, events[i].offset)
  }

  predicate OnlyPolls(events: seq<Event>) { forall e :: e in events ==> e.Poll? }

  /** Whatever the clock does and however wide the spread, the cycles that
      polls run are strictly increasing; so they are with new ends in between
      while half the spread is within the interval and the slack. */
  lemma {:induction false} CyclesIncrease(t: Task, events: seq<Event>)
    requires Valid(t) && Offsets(t.sched.spread, events)
    requires OnlyPolls(events) || Back(t.sched.spread) <= t.sched.interval + TIME_SLACK + 1
    ensures var (end, ran) := Run(t, events);
            && Valid(end)
            && Increasing(ran)
            && (forall i :: 0 <= i < |ran| ==> t.cycle <= ran[i] < end.cycle)
            && end.cycle >= t.cycle
    decreases events
  {
    if events != [] {
      var e := events[0];
      var (next, first) := EventStep(t, e);
      assert e in events;
      if e.Poll? {
        PollKeepsValid(t, e.now, e.offset);
      } else {
        EndTimeKeepsCycle(t, e.end, e.now, e.offset);
      }
      CyclesIncrease(next, events[1..]);
    }
  }

  /** A line loaded at any time and only polled: each cycle runs at most once,
      in order, and none that was missed is run later. */
  lemma PolledCyclesIncrease(s: Schedule, load: int, offset: int, polls: seq<Event>)
    requires s.interval >= 1 && Drawn(s.spread, offset) && OnlyPolls(polls) && Offsets(s.spread, polls)
    ensures Increasing(Run(Load(s, load, offset), polls).1)
  {
    SlotAbove(s, load);
    CyclesIncrease(Load(s, load, offset), polls);
  }

  // ---------------------------------------------------------------------
  // New ends and wide spreads

  /** The clock does not go back. */
  ghost predicate ClockForward(from: int, events: seq<Event>) {
    && (events != [] ==> from <= events[0].now)
    && (forall i :: 0 < i < |events| ==> events[i - 1].now <= events[i].now)
  }

  /** What the line's schedule allows: a load, and polls and new ends on a
      clock that does not go back, with offsets drawn from the spread. */
  ghost predicate Happens(s: Schedule, load: int, offset: int, events: seq<Event>) {
    Drawn(s.spread, offset) && Offsets(s.spread, events) && ClockForward(load, events)
  }

  /** An end before `at`, other than 0, which is none. */
  function EndBefore(at: int): int { if at - 1 == 0 then -1 else at - 1 }

  /** With a wider spread: its first cycle run as early as can be, then stopped
      and, its next run too long ago, taken up again. */
  function RunsTwice(s: Schedule): (int, seq<Event>) {
    var back, now := Back(s.spread), Slot(s, 1) - 1;
    (now, [Poll(now, -back), NewEnd(EndBefore(Slot(s, 2) - back), now, 0), NewEnd(0, now, -back), Poll(now, 0)])
  }

  lemma FourEvents(t: Task, e: Event, f: Event, g: Event, h: Event)
    ensures Run(t, [e, f, g, h]).1 ==
            var (t1, r1) := EventStep(t, e);
            var (t2, r2) := EventStep(t1, f);
            var (t3, r3) := EventStep(t2, g);
            r1 + r2 + r3 + EventStep(t3, h).1
  {
    assert [e, f, g, h][1..] == [f, g, h] && [f, g, h][1..] == [g, h];
    assert [g, h][1..] == [h] && [h][1..] == [];
    var (t1, r1) := EventStep(t, e);
    var (t2, r2) := EventStep(t1, f);
    var (t3, r3) := EventStep(t2, g);
    var (t4, r4) := EventStep(t3, h);
    assert Run(t3, [h]) == (t4, r4 + []) && r4 + [] == r4;
    assert Run(t2, [g, h]).1 == r3 + r4;
    assert Run(t1, [f, g, h]).1 == r2 + (r3 + r4);
    assert r1 + (r2 + (r3 + r4)) == r1 + r2 + r3 + r4;
  }

  lemma FirstSlot(s: Schedule)
    ensures Slot(s, 1) == s.start + s.interval
  {
  }

  lemma FirstAtStart(s: Schedule)
    requires s.interval >= 1
    ensures FirstCycleAfter(s, Slot(s, 1) - 1) == 1
  {
    assert 1 * s.interval == s.interval;
  }

  /** Beyond that bound a cycle runs twice, whatever interval, start and
      spread, on a clock that stands still. */
  lemma WideSpreadRunsTwice(s: Schedule)
    requires s.interval >= 1 && s.end == 0 && Back(s.spread) > s.interval + TIME_SLACK + 1
    ensures var (now, events) := RunsTwice(s);
            && Happens(s, now, -Back(s.spread), events)
            && Run(Load(s, now, -Back(s.spread)), events).1 == [1, 1]
  {
    var back, now := Back(s.spread), Slot(s, 1) - 1;
    var end := EndBefore(Slot(s, 2) - back);
    FirstAtStart(s);
    NextSlot(s, 1);
    var t := AtCycle(s, 1, -back);
    var t1 := AtCycle(s, 2, -back);
    var t2 := t1.(sched := s.(end := end));
    assert EventStep(t, Poll(now, -back)) == (t1, [1]);
    assert EventStep(t1, NewEnd(end, now, 0)) == (t2, []);
    FirstAtStart(t2.sched.(end := 0));
    assert EventStep(t2, NewEnd(0, now, -back)) == (t, []);
    assert EventStep(t, Poll(now, 0)).1 == [1];
    FourEvents(t, Poll(now, -back), NewEnd(end, now, 0), NewEnd(0, now, -back), Poll(now, 0));
    assert [1] + [] + [] + [1] == [1, 1];
  }

  /** One such line: an interval of a second and a spread of 26. */
  lemma CycleRunsTwice()
    ensures var s := Schedule(1, 100, 0, 26);
            var events := [Poll(100, -13), NewEnd(88, 100, 0), NewEnd(0, 100, -13), Poll(100, 0)];
            Happens(s, 100, -13, events) && Run(Load(s, 100, -13), events).1 == [1, 1]
  {
    WideSpreadRunsTwice(Schedule(1, 100, 0, 26));
  }

  /** Lines with an interval, a start and a spread run strictly increasing
      cycles, whatever their ends and whenever they are loaded, polled and
      given new ends, exactly when half the spread is within the interval and
      the slack. */
  lemma IncreasingIffNarrow(interval: nat, start: int, spread: nat)
    requires interval >= 1
    ensures (forall end, load, offset, events ::
               var s := Schedule(interval, start, end, spread);
               Happens(s, load, offset, events) ==> Increasing(Run(Load(s, load, offset), events).1))
            <==> Back(spread) <= interval + TIME_SLACK + 1
  {
    if Back(spread) <= interval + TIME_SLACK + 1 {
      forall end, load, offset, events | Happens(Schedule(interval, start, end, spread), load, offset, events)
        ensures Increasing(Run(Load(Schedule(interval, start, end, spread), load, offset), events).1)
      {
        var s := Schedule(interval, start, end, spread);
        SlotAbove(s, load);
        CyclesIncrease(Load(s, load, offset), events);
      }
    } else {
      var s := Schedule(interval, start, 0, spread);
      var (now, events) := RunsTwice(s);
      WideSpreadRunsTwice(s);
      var ran := Run(Load(s, now, -Back(spread)), events).1;
      assert ran[0] == ran[1];
      assert Happens(s, now, -Back(spread), events) && !Increasing(ran);
    }
  }

  // ---------------------------------------------------------------------
  // Exactly once

  /** Polls in order, none more than `gap` after the last. */
  ghost predicate Polls(from: int, gap: nat, polls: seq<Event>) {
    && (forall i :: 0 <= i < |polls| ==> polls[i].Poll?)
    && (polls != [] ==> from <= polls[0].now <= from + gap)
    && (forall i :: 0 < i < |polls| ==> polls[i - 1].now <= polls[i].now <= polls[i - 1].now + gap)
  }

  function LastPoll(from: int, polls: seq<Event>): int {
    if polls == [] then from else polls[|polls| - 1].now
  }

  /** Cycles `from`, `from` + 1 and so on, `n` of them. */
  function Cycles(from: int, n: nat): seq<int> {
    seq(n, i => from + i)
  }

  /** The last poll was before the cycle's slot or its run, or the run is past
      the end. */
  predicate OnTime(t: Task, last: int) {
    last < Slot(t.sched, t.cycle) || last < t.nextRun || HadStopped(t)
  }

  lemma PollOnTime(t: Task, last: int, now: int, gap: nat, offset: int)
    requires Valid(t) && OnTime(t, last) && Drawn(t.sched.spread, offset)
    requires last <= now <= last + gap
    requires Forward(t.sched.spread) + gap <= t.sched.interval
    ensures var (next, ran) := PollStep(t, now, offset);
            && OnTime(next, now)
            && (ran == [t.cycle] ==> next.cycle == t.cycle + 1)
            && (HadStopped(t) ==> ran == [])
  {
    var s := t.sched;
    if IsDue(t, now) {
      SlotsAscend(s, t.cycle, t.cycle + 1);
      assert 1 * s.interval == s.interval;
      assert now < Slot(s, t.cycle + 1);
    }
  }

  lemma PollsOn(last: int, gap: nat, polls: seq<Event>)
    requires Polls(last, gap, polls) && polls != []
    ensures Polls(polls[0].now, gap, polls[1..])
    ensures LastPoll(polls[0].now, polls[1..]) == LastPoll(last, polls)
  {
  }

  lemma PollStepIsNext(t: Task, last: int, gap: nat, e: Event)
    requires Valid(t) && OnTime(t, last) && e.Poll? && Drawn(t.sched.spread, e.offset)
    requires last <= e.now <= last + gap
    requires Forward(t.sched.spread) + gap <= t.sched.interval
    ensures var (next, ran) := EventStep(t, e);
            && Valid(next) && OnTime(next, e.now) && next.sched == t.sched
            && t.cycle <= next.cycle <= t.cycle + 1 && ran == Cycles(t.cycle, next.cycle - t.cycle)
  {
    PollKeepsValid(t, e.now, e.offset);
    PollOnTime(t, last, e.now, gap, e.offset);
    assert Cycles(t.cycle, 1) == [t.cycle];
  }

  lemma CyclesJoin(a: int, b: int, c: int)
    requires a <= b <= c
    ensures Cycles(a, b - a) + Cycles(b, c - b) == Cycles(a, c - a)
  {
  }

  lemma {:induction false} RunIsConsecutive(t: Task, last: int, gap: nat, polls: seq<Event>)
    requires Valid(t) && OnTime(t, last) && Polls(last, gap, polls) && Offsets(t.sched.spread, polls)
    requires Forward(t.sched.spread) + gap <= t.sched.interval
    ensures var (end, ran) := Run(t, polls);
            && end.cycle >= t.cycle && ran == Cycles(t.cycle, end.cycle - t.cycle)
            && Valid(end) && OnTime(end, LastPoll(last, polls)) && end.sched == t.sched
    decreases polls
  {
    if polls != [] {
      PollsOn(last, gap, polls);
      PollStepIsNext(t, last, gap, polls[0]);
      var next := EventStep(t, polls[0]).0;
      RunIsConsecutive(next, polls[0].now, gap, polls[1..]);
      CyclesJoin(t.cycle, next.cycle, Run(next, polls[1..]).0.cycle);
    }
  }

  /** With half the spread and the largest gap between polls within the
      interval, the cycles from the first after loading run one by one, each
      once, and none whose latest time has come, and is not past the end, is
      missing. */
  lemma EveryCycleRunsOnce(s: Schedule, load: int, offset: int, gap: nat, polls: seq<Event>)
    requires s.interval >= 1 && Drawn(s.spread, offset)
    requires Polls(load, gap, polls) && Offsets(s.spread, polls)
    requires Forward(s.spread) + gap <= s.interval
    ensures var t := Load(s, load, offset);
            var (end, ran) := Run(t, polls);
            && end.cycle >= t.cycle && ran == Cycles(FirstCycleAfter(s, load), end.cycle - t.cycle)
            && (forall c :: c >= FirstCycleAfter(s, load)
                            && Slot(s, c) + Forward(s.spread) <= LastPoll(load, polls)
                            && (s.end == 0 || Slot(s, c) + Forward(s.spread) <= s.end)
                            ==> c in ran)
  {
    var t := Load(s, load, offset);
    SlotAbove(s, load);
    RunIsConsecutive(t, load, gap, polls);
    var (end, ran) := Run(t, polls);
    forall c | c >= t.cycle && Slot(s, c) + Forward(s.spread) <= LastPoll(load, polls)
               && (s.end == 0 || Slot(s, c) + Forward(s.spread) <= s.end)
      ensures c in ran
    {
      if c >= end.cycle {
        SlotsAscend(s, end.cycle, c);
        assert false;
      }
      assert ran[c - t.cycle] == c;
    }
  }
}
