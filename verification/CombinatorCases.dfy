/** What each combinator does, told by the runs of its parts alone. */
module CombinatorCases {
  import opened Basics
  import opened Combinators

  /** The first k parts of a sequence, run in turn from s. */
  function StateAfter<S>(parts: seq<SubReconciler<S>>, s: S, i: int, fuel: nat, k: nat): S
    requires k <= |parts|
  {
    if k == 0 then s
    else
      var before := StateAfter(parts, s, i, fuel, k - 1);
      var step := Eval(parts[k - 1], before, i, fuel);
      if step.Some? then step.value.state else before
  }

  /** How the part at k fares after those before it. */
  function PartRun<S>(parts: seq<SubReconciler<S>>, s: S, i: int, fuel: nat, k: nat): Option<Step<S>>
    requires k < |parts|
  {
    Eval(parts[k], StateAfter(parts, s, i, fuel, k), i, fuel)
  }

  predicate CleanStep<S>(step: Option<Step<S>>) {
    step.Some? && step.value.error.None?
  }

  ghost predicate CleanUpTo<S>(parts: seq<SubReconciler<S>>, s: S, i: int, fuel: nat, k: nat)
    requires k <= |parts|
  {
    forall j | 0 <= j < k :: CleanStep(PartRun(parts, s, i, fuel, j))
  }

  function ResultsUpTo<S>(parts: seq<SubReconciler<S>>, s: S, i: int, fuel: nat, k: nat): seq<Result>
    requires k <= |parts|
  {
    if k == 0 then []
    else
      var step := PartRun(parts, s, i, fuel, k - 1);
      ResultsUpTo(parts, s, i, fuel, k - 1) + [if step.Some? then step.value.result else EMPTY]
  }

  /** After k clean parts the rest of the sequence is left, with their results aggregated. */
  lemma {:induction false} PrefixRuns<S>(parts: seq<SubReconciler<S>>, s: S, i: int, fuel: nat, k: nat)
    requires k <= |parts| && CleanUpTo(parts, s, i, fuel, k)
    ensures EvalSequence(parts, s, i, fuel, EMPTY)
         == EvalSequence(parts[k..], StateAfter(parts, s, i, fuel, k), i, fuel, AggregateAll(ResultsUpTo(parts, s, i, fuel, k)))
  {
    if k == 0 {
      assert parts[0..] == parts;
    } else {
      PrefixRuns(parts, s, i, fuel, k - 1);
      var results := ResultsUpTo(parts, s, i, fuel, k);
      var step := PartRun(parts, s, i, fuel, k - 1);
      assert CleanStep(step);
      assert parts[k - 1..][0] == parts[k - 1] && parts[k - 1..][1..] == parts[k..];
      assert results[..k - 1] == ResultsUpTo(parts, s, i, fuel, k - 1) && |results| == k by { ResultsCount(parts, s, i, fuel, k); }
      AggregateLaws(AggregateAll(results[..k - 1]), step.value.result, EMPTY);
    }
  }

  lemma {:induction false} ResultsCount<S>(parts: seq<SubReconciler<S>>, s: S, i: int, fuel: nat, k: nat)
    requires k <= |parts|
    ensures |ResultsUpTo(parts, s, i, fuel, k)| == k
    ensures k > 0 ==> ResultsUpTo(parts, s, i, fuel, k)[..k - 1] == ResultsUpTo(parts, s, i, fuel, k - 1)
  {
    if k > 0 { ResultsCount(parts, s, i, fuel, k - 1); }
  }

  /** A sequence whose first k parts run without error stops at the next one if that errs,
      with exactly its state, result and error. */
  lemma SequenceStops<S>(parts: seq<SubReconciler<S>>, s: S, i: int, fuel: nat, k: nat)
    requires k < |parts| && CleanUpTo(parts, s, i, fuel, k) && !CleanStep(PartRun(parts, s, i, fuel, k))
    ensures Eval(Sequence(parts), s, i, fuel) == PartRun(parts, s, i, fuel, k)
  {
    PrefixRuns(parts, s, i, fuel, k);
    assert parts[k..][0] == parts[k];
  }

  /** If no part errs, the sequence ends where the last one does, with all results
      aggregated. */
  lemma SequenceCompletes<S>(parts: seq<SubReconciler<S>>, s: S, i: int, fuel: nat)
    requires CleanUpTo(parts, s, i, fuel, |parts|)
    ensures Eval(Sequence(parts), s, i, fuel) ==
      Some(Step(StateAfter(parts, s, i, fuel, |parts|), AggregateAll(ResultsUpTo(parts, s, i, fuel, |parts|)), None))
  {
    PrefixRuns(parts, s, i, fuel, |parts|);
    assert parts[|parts|..] == [];
  }

  lemma SequenceOfOne<S>(part: SubReconciler<S>, s: S, i: int, fuel: nat)
    ensures Eval(Sequence([part]), s, i, fuel) == Eval(part, s, i, fuel)
  {
    var run := Eval(part, s, i, fuel);
    assert [part][1..] == [];
    if CleanStep(run) {
      AggregateLaws(run.value.result, EMPTY, EMPTY);
      assert EvalSequence([], run.value.state, i, fuel, Aggregate(run.value.result, EMPTY))
          == Some(Step(run.value.state, run.value.result, None));
    }
  }

  /** IfThen is one of its branches, or nothing. */
  lemma IfThenBranches<S>(cond: (S, int) -> bool, a: SubReconciler<S>, b: SubReconciler<S>, s: S, i: int, fuel: nat)
    ensures cond(s, i) ==>
      && Eval(IfThen(cond, a, None), s, i, fuel) == Eval(a, s, i, fuel)
      && Eval(IfThen(cond, a, Some(b)), s, i, fuel) == Eval(a, s, i, fuel)
    ensures !cond(s, i) ==>
      && Eval(IfThen(cond, a, None), s, i, fuel) == Eval(Sequence([]), s, i, fuel) == Some(Step(s, EMPTY, None))
      && Eval(IfThen(cond, a, Some(b)), s, i, fuel) == Eval(b, s, i, fuel)
  {
  }

  /** The handler sees what Try left and decides state, result and error; without one Try
      decides. */
  lemma CatchDecides<S>(tried: SubReconciler<S>, handle: (S, int, Result, Option<Error>) -> Step<S>, s: S, i: int, fuel: nat)
    ensures Eval(TryCatch(tried, None, None), s, i, fuel) == Eval(tried, s, i, fuel)
    ensures var t := Eval(tried, s, i, fuel);
      Eval(TryCatch(tried, Some(handle), None), s, i, fuel) ==
        if t.None? then None else Some(handle(t.value.state, i, t.value.result, t.value.error))
  {
  }

  /** Finally runs on the state left by the rest, whether that erred or not; its own error
      wins, and the results are aggregated. */
  lemma FinallyRuns<S>(tried: SubReconciler<S>, handle: Option<(S, int, Result, Option<Error>) -> Step<S>>,
                       last: SubReconciler<S>, s: S, i: int, fuel: nat)
    requires Eval(TryCatch(tried, handle, None), s, i, fuel).Some?
    ensures var first := Eval(TryCatch(tried, handle, None), s, i, fuel).value;
      var ended := Eval(last, first.state, i, fuel);
      var run := Eval(TryCatch(tried, handle, Some(last)), s, i, fuel);
      && (run.Some? <==> ended.Some?)
      && (ended.Some? ==>
            && run.value.state == ended.value.state
            && run.value.result == AggregateAll([first.result, ended.value.result])
            && (ended.value.error.Some? ==> run.value.error == ended.value.error)
            && (ended.value.error.None? ==> run.value.error == first.error))
  {
    var first := Eval(TryCatch(tried, handle, None), s, i, fuel).value;
    var ended := Eval(last, first.state, i, fuel);
    if ended.Some? {
      TwoAggregated(first.result, ended.value.result);
    }
  }

  lemma AggregateMore(results: seq<Result>, more: Result)
    ensures AggregateAll(results + [more]) == Aggregate(AggregateAll(results), more)
  {
    assert (results + [more])[..|results|] == results;
  }

  lemma TwoAggregated(a: Result, b: Result)
    ensures AggregateAll([a, b]) == Aggregate(a, b)
  {
    AggregateMore([], a);
    AggregateMore([a], b);
    assert [] + [a] == [a] && [a] + [b] == [a, b];
    AggregateLaws(a, EMPTY, EMPTY);
  }

  /** A loop whose body errs after n clean iterations stops there, with the state and error
      of that iteration, and the results of all iterations including it aggregated. */
  lemma WhileStops<S>(cond: (S, int) -> bool, body: SubReconciler<S>, m: int, s: S, i: int, n: nat, fuel: nat)
    requires Keeps(cond, body, s, 0, n, fuel) && n < fuel && (m == 0 || n < m)
    requires var at := Iterated(body, s, 0, EMPTY, n, fuel).state;
      cond(at, n) && Eval(body, at, n, fuel).Some? && Eval(body, at, n, fuel).value.error.Some?
    ensures var failed := Eval(body, Iterated(body, s, 0, EMPTY, n, fuel).state, n, fuel).value;
      Eval(While(cond, body, m), s, i, fuel) ==
        Some(Step(failed.state, AggregateAll(Results(body, s, 0, n, fuel) + [failed.result]), failed.error))
  {
    var at := Iterated(body, s, 0, EMPTY, n, fuel);
    WhileUnrolls(cond, body, m, s, 0, EMPTY, n, fuel, fuel);
    IteratedAggregates(cond, body, s, n, fuel);
    IterationStops(cond, body, m, at.state, n, at.result, fuel - n, fuel);
    AggregateMore(Results(body, s, 0, n, fuel), Eval(body, at.state, n, fuel).value.result);
  }

  lemma IterationStops<S>(cond: (S, int) -> bool, body: SubReconciler<S>, m: int, s: S, k: nat, acc: Result, left: nat, fuel: nat)
    requires !(m != 0 && k >= m) && left > 0 && cond(s, k)
    requires Eval(body, s, k, fuel).Some? && Eval(body, s, k, fuel).value.error.Some?
    ensures var failed := Eval(body, s, k, fuel).value;
      EvalWhile(cond, body, m, s, k, acc, left, fuel) == Some(Step(failed.state, Aggregate(acc, failed.result), failed.error))
  {
  }

  // ---------- inputs

  function Adding(n: int, error: Option<Error>): SubReconciler<int> {
    Leaf((s: int, i: int) => Step(s + n, EMPTY, error))
  }

  /** The part after the one that errs does not run. */
  lemma SequenceStopsHere()
    ensures Eval(Sequence([Adding(0, Some(Failure("x"))), Adding(1, None)]), 0, -1, 0)
         == Some(Step(0, EMPTY, Some(Failure("x"))))
  {
    var parts := [Adding(0, Some(Failure("x"))), Adding(1, None)];
    SequenceStops(parts, 0, -1, 0, 0);
  }
}
