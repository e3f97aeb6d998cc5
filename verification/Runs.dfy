/** Machines that take their input one by one and put out something for
    each. */
module Runs {
  import opened Seqs

  function Joined<S, O>(first: seq<O>, later: (S, seq<O>)): (S, seq<O>) {
    (later.0, first + later.1)
  }

  /** `run` does what `step` does with each input in turn. */
  ghost predicate Iterates<S(!new), I(!new), O(!new)>(run: (S, seq<I>) -> (S, seq<O>),
                                                      step: (S, I) -> (S, seq<O>)) {
    && (forall s :: run(s, []) == (s, []))
    && (forall s, input ::
          input != [] ==> run(s, input) == Joined(step(s, input[0]).1, run(step(s, input[0]).0, input[1..])))
  }

  /** Such a run over two inputs is the run over one and then over the other:
      it does not matter where the input is cut. */
  lemma {:induction false} RunsOn<S(!new), I(!new), O(!new)>(run: (S, seq<I>) -> (S, seq<O>),
                                                             step: (S, I) -> (S, seq<O>),
                                                             s: S, a: seq<I>, b: seq<I>)
    requires Iterates(run, step)
    ensures run(s, a + b) == Joined(run(s, a).1, run(run(s, a).0, b))
    decreases |a|
  {
    if a == [] {
      assert a + b == b;
      assert [] + run(s, b).1 == run(s, b).1;
    } else {
      var (next, first) := step(s, a[0]);
      RunsOn(run, step, next, a[1..], b);
      var whole := a + b;
      assert whole[0] == a[0] && whole[1..] == a[1..] + b;
      assert run(s, whole) == Joined(first, run(next, whole[1..]));
      assert run(s, a) == Joined(first, run(next, a[1..]));
      Associative(first, run(next, a[1..]).1, run(run(next, a[1..]).0, b).1);
    }
  }
}
