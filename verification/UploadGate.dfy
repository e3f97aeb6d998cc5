/** What failed posts hold back. Ticks and holds are in nanoseconds. */
module UploadGates {
  import opened Seqs
  import Runs

  const SECOND: nat := 1_000_000_000
  const MAX_BACKOFF: nat := 300 * SECOND
  const RATE_LIMIT_FIRST_HOLD: nat := 60 * SECOND
  const RATE_LIMIT_MAX_HOLD: nat := 30 * 60 * SECOND
  const RETRY_AFTER_MAX_HOLD: nat := 60 * 60 * SECOND

  /** How a post was answered; a 429 may name a wait in seconds. */
  datatype Answer = Ok | RateLimited(retryAfter: Option<nat>) | Failed

  function Pow2(n: nat): nat {
    if n == 0 then 1 else 2 * Pow2(n - 1)
  }

  /** The hold after the n-th 429 in a row. */
  function RateLimitHold(inARow: nat, retryAfter: Option<nat>): nat {
    var doublings := Min(Max(inARow - 1, 0), 16);
    var backoff := Min(RATE_LIMIT_FIRST_HOLD * Pow2(doublings), RATE_LIMIT_MAX_HOLD);
    var asked := Min((if retryAfter.Some? then retryAfter.value else 0) * SECOND, RETRY_AFTER_MAX_HOLD);
    Max(backoff, asked)
  }

  datatype State = State(consecutiveFailures: nat, rateLimited: nat, backoff: nat, holdUntil: Option<int>)

  const START := State(0, 0, SECOND, None)

  predicate Holds(st: State, tick: int) {
    st.holdUntil.Some? && tick < st.holdUntil.value
  }

  /** An account of a post started at `tick`. The failure count rises before
      the answer is looked at: a 429 counts in it too. */
  function Accounted(st: State, tick: int, answer: Answer): State {
    match answer
    case Ok => State(0, 0, SECOND, st.holdUntil)
    case RateLimited(retryAfter) =>
      State(st.consecutiveFailures + 1, st.rateLimited + 1, st.backoff,
            Some(tick + RateLimitHold(st.rateLimited + 1, retryAfter)))
    case Failed =>
      if st.consecutiveFailures + 1 > 3
      then State(st.consecutiveFailures + 1, st.rateLimited, Min(st.backoff * 2, MAX_BACKOFF), Some(tick + st.backoff))
      else st.(consecutiveFailures := st.consecutiveFailures + 1)
  }

  class UploadGate {
    var consecutiveFailures: nat
    var rateLimited: nat
    var backoff: nat
    var holdUntil: Option<int>

    function Value(): State
      reads this
    {
      State(consecutiveFailures, rateLimited, backoff, holdUntil)
    }

    constructor ()
      ensures Value() == START
    {
      consecutiveFailures, rateLimited, backoff, holdUntil := 0, 0, SECOND, None;
    }

    method AfterPost(tick: int, sent: Answer)
      modifies this
      ensures Value() == Accounted(old(Value()), tick, sent)
    {
      if sent.Ok? {
        consecutiveFailures, rateLimited, backoff := 0, 0, SECOND;
        return;
      }
      consecutiveFailures := consecutiveFailures + 1;
      if sent.RateLimited? {
        rateLimited := rateLimited + 1;
        holdUntil := Some(tick + RateLimitHold(rateLimited, sent.retryAfter));
      } else if consecutiveFailures > 3 {
        holdUntil := Some(tick + backoff);
        backoff := Min(backoff * 2, MAX_BACKOFF);
      }
    }

    /** A one-off post with nothing queued was no post. */
    method AfterOneoffs(tick: int, sent: Answer, count: nat)
      modifies this
      ensures Value() == if sent.Ok? && count == 0 then old(Value()) else Accounted(old(Value()), tick, sent)
    {
      if !(sent.Ok? && count == 0) {
        AfterPost(tick, sent);
      }
    }

    /** A post due at `tick`, unless it is held. Only main and one-off posts
        are accounted for. */
    method Attempt(a: Try) returns (posted: bool)
      modifies this
      ensures (Value(), posted) == (TryStep(old(Value()), a).0, TryStep(old(Value()), a).1)
    {
      posted := !(holdUntil.Some? && a.tick < holdUntil.value);
      if posted {
        match a.kind
        case Main => AfterPost(a.tick, a.answer);
        case Oneoff(count) => AfterOneoffs(a.tick, a.answer, count);
        case Timesync =>
      }
    }
  }

  datatype Kind = Main | Oneoff(count: nat) | Timesync

  /** A post that is due, and how it would be answered. */
  datatype Try = Try(kind: Kind, tick: int, answer: Answer)

  predicate Counts(a: Try) {
    a.kind.Main? || (a.kind.Oneoff? && !(a.answer.Ok? && a.kind.count == 0))
  }

  function TryStep(st: State, a: Try): (State, bool) {
    if Holds(st, a.tick) then (st, false)
    else (if Counts(a) then Accounted(st, a.tick, a.answer) else st, true)
  }

  /** The gate after some tries, and the posts that were let through. */
  function Run(st: State, tries: seq<Try>): (State, seq<Try>)
    decreases tries
  {
    if tries == [] then (st, []) else
    var (next, posted) := TryStep(st, tries[0]);
    var (end, rest) := Run(next, tries[1..]);
    (end, (if posted then [tries[0]] else []) + rest)
  }

  // ---------------------------------------------------------------------

  lemma {:induction false} Pow2Grows(a: nat, b: nat)
    requires a <= b
    ensures 1 <= Pow2(a) <= Pow2(b)
  {
    if a < b {
      Pow2Grows(a, b - 1);
    } else if a > 0 {
      Pow2Grows(a - 1, a - 1);
    }
  }

  lemma BackoffIs(n: nat)
    requires n >= 1
    ensures Min(RATE_LIMIT_FIRST_HOLD * Pow2(Min(n - 1, 16)), RATE_LIMIT_MAX_HOLD) ==
            Min(60 * Pow2(n - 1), 1800) * SECOND
    ensures Pow2(n - 1) >= 1
  {
    assert Pow2(5) == 32;
    if n - 1 > 16 {
      Pow2Grows(5, 16);
      Pow2Grows(5, n - 1);
    }
    Pow2Grows(0, n - 1);
  }

  /** The hold is the longer of 60 s doubled for each 429 in a row, half an
      hour at most, and the Retry-After, an hour at most; so it is between a
      minute and an hour. */
  lemma HoldIs(n: nat, retryAfter: Option<nat>)
    requires n >= 1
    ensures RateLimitHold(n, retryAfter) ==
            Max(Min(60 * Pow2(n - 1), 1800), Min(if retryAfter.Some? then retryAfter.value else 0, 3600)) * SECOND
    ensures 60 * SECOND <= RateLimitHold(n, retryAfter) <= 3600 * SECOND
  {
    BackoffIs(n);
  }

  lemma StepHoldsOn(st: State, a: Try)
    ensures st.holdUntil.Some? ==>
              TryStep(st, a).0.holdUntil.Some? && TryStep(st, a).0.holdUntil.value >= st.holdUntil.value
  {
    if a.answer.RateLimited? {
      HoldIs(st.rateLimited + 1, a.answer.retryAfter);
    }
  }

  /** Whatever is tried when, hold_until never goes back. */
  lemma {:induction false} HoldNeverShrinks(st: State, tries: seq<Try>)
    ensures st.holdUntil.Some? ==>
              Run(st, tries).0.holdUntil.Some? && Run(st, tries).0.holdUntil.value >= st.holdUntil.value
    decreases tries
  {
    if tries != [] {
      StepHoldsOn(st, tries[0]);
      HoldNeverShrinks(TryStep(st, tries[0]).0, tries[1..]);
    }
  }

  lemma {:induction false} NoneBefore(st: State, tries: seq<Try>)
    requires st.holdUntil.Some?
    ensures forall a :: a in Run(st, tries).1 ==> a.tick >= st.holdUntil.value
    decreases tries
  {
    if tries != [] {
      StepHoldsOn(st, tries[0]);
      NoneBefore(TryStep(st, tries[0]).0, tries[1..]);
    }
  }

  /** The post of a step, if it was let through. */
  function Posted(st: State, a: Try): (State, seq<Try>) {
    (TryStep(st, a).0, if TryStep(st, a).1 then [a] else [])
  }

  lemma RunIterates()
    ensures Runs.Iterates(Run, Posted)
  {
    forall st, tries: seq<Try> | tries != []
      ensures Run(st, tries) == Runs.Joined(Posted(st, tries[0]).1, Run(Posted(st, tries[0]).0, tries[1..]))
    {
    }
  }

  lemma RunAppend(st: State, a: seq<Try>, b: seq<Try>)
    ensures Run(st, a + b) == (Run(Run(st, a).0, b).0, Run(st, a).1 + Run(Run(st, a).0, b).1)
  {
    RunIterates();
    Runs.RunsOn(Run, Posted, st, a, b);
  }

  /** The 429s since the last success among the posts that count. */
  function Refusals(posts: seq<Try>): nat {
    if posts == [] then 0 else
    var last := posts[|posts| - 1];
    if !Counts(last) then Refusals(posts[..|posts| - 1])
    else if last.answer.Ok? then 0
    else Refusals(posts[..|posts| - 1]) + if last.answer.RateLimited? then 1 else 0
  }

  lemma RunSnoc(st: State, tries: seq<Try>)
    requires tries != []
    ensures var n := |tries| - 1;
            var (mid, posts) := Run(st, tries[..n]);
            var (end, posted) := TryStep(mid, tries[n]);
            Run(st, tries) == (end, if posted then posts + [tries[n]] else posts)
  {
    var n := |tries| - 1;
    assert tries == tries[..n] + [tries[n]];
    RunAppend(st, tries[..n], [tries[n]]);
    assert [tries[n]][1..] == [];
    var (mid, posts) := Run(st, tries[..n]);
    assert posts + [] == posts && [tries[n]] + [] == [tries[n]];
  }

  /** The gate's own count of 429s is that of its posts. */
  lemma {:induction false} CountIsRefusals(tries: seq<Try>)
    ensures Run(START, tries).0.rateLimited == Refusals(Run(START, tries).1)
    decreases |tries|
  {
    if tries != [] {
      var n := |tries| - 1;
      CountIsRefusals(tries[..n]);
      RunSnoc(START, tries);
      var (mid, posts) := Run(START, tries[..n]);
      assert (posts + [tries[n]])[..|posts + [tries[n]]| - 1] == posts;
    }
  }

  /** A main or one-off post answered 429 at tick t keeps every later post,
      the timesync's too, from a tick before t plus its hold, n being the
      count of 429s since the last success. */
  lemma HoldSpacing(before: seq<Try>, a: Try, later: seq<Try>)
    requires Counts(a) && a.answer.RateLimited? && !Holds(Run(START, before).0, a.tick)
    ensures var st := Run(START, before + [a]).0;
            var n := Refusals(Run(START, before).1) + 1;
            var wait := Max(Min(60 * Pow2(n - 1), 1800),
                            Min(if a.answer.retryAfter.Some? then a.answer.retryAfter.value else 0, 3600));
            && (forall b :: b in Run(st, later).1 ==> b.tick >= a.tick + wait * SECOND)
            && Run(START, before + [a] + later).1 == Run(START, before + [a]).1 + Run(st, later).1
  {
    var mid := Run(START, before).0;
    CountIsRefusals(before);
    HoldIs(mid.rateLimited + 1, a.answer.retryAfter);
    RunSnoc(START, before + [a]);
    assert (before + [a])[..|before|] == before;
    NoneBefore(Run(START, before + [a]).0, later);
    RunAppend(START, before + [a], later);
  }

  // ---------------------------------------------------------------------
  // What counts toward the plain backoff

  /** After `refused` 429s and `failed` other failures since the last success,
      in any order. */
  function Streak(answers: seq<Answer>): (int, int) {
    if answers == [] then (0, 0) else
    var (refused, failed) := Streak(answers[1..]);
    match answers[0]
    case Ok => (refused, failed)
    case RateLimited(_) => (refused + 1, failed)
    case Failed => (refused, failed + 1)
  }

  function Account(st: State, tick: int, answers: seq<Answer>): State
    decreases answers
  {
    if answers == [] then st else Account(Accounted(st, tick, answers[0]), tick, answers[1..])
  }

  lemma {:induction false} StreakCounts(st: State, tick: int, answers: seq<Answer>)
    requires forall a :: a in answers ==> !a.Ok?
    ensures Account(st, tick, answers).consecutiveFailures ==
            st.consecutiveFailures + Streak(answers).0 + Streak(answers).1
    ensures Streak(answers).0 >= 0 && Streak(answers).1 >= 0
    decreases answers
  {
    if answers != [] {
      assert answers[0] in answers;
      StreakCounts(Accounted(st, tick, answers[0]), tick, answers[1..]);
    }
  }

  /** The gate after plain failures in a row since a success, the k-th started
      at `ticks[k]`. */
  function FailedInARow(ticks: seq<int>, n: nat): State
    requires n <= |ticks|
  {
    if n == 0 then START else Accounted(FailedInARow(ticks, n - 1), ticks[n - 1], Failed)
  }

  /** A second doubled `n` times, five minutes at most. */
  function Doubled(n: nat): nat { Min(Pow2(n) * SECOND, MAX_BACKOFF) }

  lemma DoubledTwice(n: nat)
    ensures Min(Doubled(n) * 2, MAX_BACKOFF) == Doubled(n + 1)
  {
  }

  /** Three plain failures in a row hold nothing back; after each further one
      the hold is a second, doubled each time, up to five minutes. */
  lemma {:induction false} PlainBackoffDoubles(ticks: seq<int>, n: nat)
    requires n <= |ticks|
    ensures var st := FailedInARow(ticks, n);
            && st.consecutiveFailures == n && st.rateLimited == 0
            && st.backoff == Doubled(Max(n - 3, 0))
            && st.holdUntil == if n <= 3 then None else Some(ticks[n - 1] + Doubled(n - 4))
  {
    if n > 0 {
      PlainBackoffDoubles(ticks, n - 1);
      if n > 3 { DoubledTwice(n - 4); }
    }
  }

  /** Whether one more plain failure backs off, were 429s not counted, as the
      comment beside the count has it. */
  predicate AsDocumented(failed: int) {
    failed + 1 > 3
  }

  predicate BacksOff(st: State) {
    st.consecutiveFailures + 1 > 3
  }

  /** The gate does what its comment says on the next plain failure if and
      only if there were three plain failures already, or fewer than three
      failures of both kinds together. */
  lemma CommentHoldsWhen(tick: int, answers: seq<Answer>)
    requires forall a :: a in answers ==> !a.Ok?
    ensures var (refused, failed) := Streak(answers);
            (BacksOff(Account(START, tick, answers)) <==> AsDocumented(failed))
            <==> (failed >= 3 || refused + failed < 3)
  {
    StreakCounts(START, tick, answers);
  }

  /** Three 429s, and the first plain failure backs off. */
  lemma RefusalsTripTheBackoff()
    ensures var answers := [RateLimited(None), RateLimited(None), RateLimited(None)];
            BacksOff(Account(START, 0, answers)) && !AsDocumented(Streak(answers).1)
  {
    var r := RateLimited(None);
    assert [r, r, r][1..] == [r, r] && [r, r][1..] == [r] && [r][1..] == [];
    assert Streak([r]) == (1, 0) && Streak([r, r]) == (2, 0) && Streak([r, r, r]) == (3, 0);
    StreakCounts(START, 0, [r, r, r]);
  }
}
