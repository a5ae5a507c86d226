/** reconcilers/sequence.go, flow.go, reconcilers.go: reconcilers composed into a tree, as
    an interpreter over any resource state S. */
module Combinators {
  import opened Basics

  datatype Result = Result(requeue: bool, requeueAfter: int)

  datatype Error = ErrMaxIterations(iterations: int) | Failure(text: string)

  datatype Step<S> = Step(state: S, result: Result, error: Option<Error>)

  /** The second argument of every function is the index of the innermost loop, or -1. */
  datatype SubReconciler<!S> =
    | Leaf(run: (S, int) -> Step<S>)
    | Sequence(parts: seq<SubReconciler<S>>)
    | IfThen(cond: (S, int) -> bool, then_: SubReconciler<S>, else_: Option<SubReconciler<S>>)
    | While(cond: (S, int) -> bool, body: SubReconciler<S>, maxIterations: int)
    | TryCatch(try_: SubReconciler<S>, catch_: Option<(S, int, Result, Option<Error>) -> Step<S>>,
               finally_: Option<SubReconciler<S>>)

  // ---------- results

  const EMPTY := Result(false, 0)

  function Aggregate(a: Result, b: Result): Result {
    Result(a.requeue || b.requeue,
           if b.requeueAfter != 0 && (a.requeueAfter == 0 || b.requeueAfter < a.requeueAfter)
           then b.requeueAfter else a.requeueAfter)
  }

  function AggregateAll(results: seq<Result>): Result {
    if |results| == 0 then EMPTY
    else Aggregate(AggregateAll(results[..|results| - 1]), results[|results| - 1])
  }

  /** Requeue when any result asks for it, after the shortest delay any of them names. */
  method AggregateResults(results: seq<Result>) returns (aggregate: Result)
    ensures aggregate == AggregateAll(results)
    ensures aggregate.requeue <==> exists r | r in results :: r.requeue
    ensures aggregate.requeueAfter == 0 <==> forall r | r in results :: r.requeueAfter == 0
    ensures aggregate.requeueAfter != 0 ==> exists r | r in results :: r.requeueAfter == aggregate.requeueAfter
    ensures forall r | r in results && r.requeueAfter != 0 :: aggregate.requeueAfter <= r.requeueAfter
  {
    aggregate := EMPTY;
    for i := 0 to |results|
      invariant aggregate == AggregateAll(results[..i])
      invariant aggregate.requeue <==> exists r | r in results[..i] :: r.requeue
      invariant aggregate.requeueAfter == 0 <==> forall r | r in results[..i] :: r.requeueAfter == 0
      invariant aggregate.requeueAfter != 0 ==> exists r | r in results[..i] :: r.requeueAfter == aggregate.requeueAfter
      invariant forall r | r in results[..i] && r.requeueAfter != 0 :: aggregate.requeueAfter <= r.requeueAfter
    {
      var result := results[i];
      assert results[..i + 1] == results[..i] + [result];
      assert results[..i + 1][..i] == results[..i];
      ghost var before := aggregate;
      if result.requeueAfter != 0 && (aggregate.requeueAfter == 0 || result.requeueAfter < aggregate.requeueAfter) {
        aggregate := aggregate.(requeueAfter := result.requeueAfter);
      }
      if result.requeue {
        aggregate := aggregate.(requeue := true);
      }
      assert aggregate == Aggregate(before, result);
      assert result in results[..i + 1];
      assert forall r | r in results[..i + 1] :: r in results[..i] || r == result;
    }
    assert results[..|results|] == results;
  }

  lemma AggregateLaws(a: Result, b: Result, c: Result)
    ensures Aggregate(Aggregate(a, b), c) == Aggregate(a, Aggregate(b, c))
    ensures Aggregate(a, b) == Aggregate(b, a)
    ensures Aggregate(a, a) == a
    ensures Aggregate(a, EMPTY) == a && Aggregate(EMPTY, a) == a
  {
  }

  // ---------- specification

  /** fuel bounds the iterations of loops without a limit of their own; none is the answer
      for a loop that has not ended by then. */
  function Eval<S>(r: SubReconciler<S>, s: S, i: int, fuel: nat): Option<Step<S>>
    decreases r, 0, 0
  {
    match r
    case Leaf(run) => Some(run(s, i))
    case Sequence(parts) => EvalSequence(parts, s, i, fuel, EMPTY)
    case IfThen(cond, a, b) =>
      if cond(s, i) then Eval(a, s, i, fuel)
      else if b.Some? then Eval(b.value, s, i, fuel)
      else Some(Step(s, EMPTY, None))
    case While(cond, body, m) => EvalWhile(cond, body, m, s, 0, EMPTY, fuel, fuel)
    case TryCatch(t, c, f) =>
      var tried := Eval(t, s, i, fuel);
      if tried.None? then None
      else
        var caught := if c.Some? then c.value(tried.value.state, i, tried.value.result, tried.value.error) else tried.value;
        if f.None? then Some(caught)
        else
          var ended := Eval(f.value, caught.state, i, fuel);
          if ended.None? then None
          else Some(Step(ended.value.state, Aggregate(caught.result, ended.value.result),
                         if ended.value.error.Some? then ended.value.error else caught.error))
  }

  /** Stops at an error with the result of the reconciler that failed, not the aggregate. */
  function EvalSequence<S>(parts: seq<SubReconciler<S>>, s: S, i: int, fuel: nat, acc: Result): Option<Step<S>>
    decreases parts, 0, 0
  {
    if |parts| == 0 then Some(Step(s, acc, None))
    else
      var step := Eval(parts[0], s, i, fuel);
      if step.None? || step.value.error.Some? then step
      else EvalSequence(parts[1..], step.value.state, i, fuel, Aggregate(step.value.result, acc))
  }

  function EvalWhile<S>(cond: (S, int) -> bool, body: SubReconciler<S>, m: int, s: S, k: nat, acc: Result,
                        left: nat, fuel: nat): Option<Step<S>>
    decreases body, 1, left
  {
    if m != 0 && k >= m then Some(Step(s, acc, Some(ErrMaxIterations(k))))
    else if left == 0 then None
    else if !cond(s, k) then Some(Step(s, acc, None))
    else
      var step := Eval(body, s, k, fuel);
      if step.None? then None
      else
        var acc1 := Aggregate(acc, step.value.result);
        if step.value.error.Some? then Some(Step(step.value.state, acc1, step.value.error))
        else EvalWhile(cond, body, m, step.value.state, k + 1, acc1, left - 1, fuel)
  }

  // ---------- the code

  class Holder<S> {
    var state: S

    constructor (s: S)
      ensures state == s
    {
      state := s;
    }
  }

  datatype Return = Return(result: Result, error: Option<Error>)

  ghost predicate Agrees<S>(step: Option<Step<S>>, state: S, out: Option<Return>) {
    if step.None? then out.None?
    else out == Some(Return(step.value.result, step.value.error)) && state == step.value.state
  }

  method Reconcile<S>(r: SubReconciler<S>, resource: Holder<S>, i: int, fuel: nat) returns (out: Option<Return>)
    modifies resource
    ensures Agrees(old(Eval(r, resource.state, i, fuel)), resource.state, out)
    decreases r, 0, 0
  {
    match r
    case Leaf(run) =>
      var step := run(resource.state, i);
      resource.state := step.state;
      return Some(Return(step.result, step.error));
    case Sequence(parts) =>
      out := ReconcileSequence(parts, resource, i, fuel);
    case IfThen(cond, a, b) =>
      if cond(resource.state, i) {
        out := Reconcile(a, resource, i, fuel);
      } else if b.Some? {
        out := Reconcile(b.value, resource, i, fuel);
      } else {
        out := Some(Return(EMPTY, None));
      }
    case While(cond, body, m) =>
      out := ReconcileWhile(cond, body, m, resource, fuel);
    case TryCatch(t, c, f) =>
      out := Reconcile(t, resource, i, fuel);
      if out.None? {
        return;
      }
      if c.Some? {
        var caught := c.value(resource.state, i, out.value.result, out.value.error);
        resource.state := caught.state;
        out := Some(Return(caught.result, caught.error));
      }
      if f.Some? {
        var ended := Reconcile(f.value, resource, i, fuel);
        if ended.None? {
          return None;
        }
        var result := Aggregate(out.value.result, ended.value.result);
        if ended.value.error.Some? {
          return Some(Return(result, ended.value.error));
        }
        out := Some(Return(result, out.value.error));
      }
  }

  method ReconcileSequence<S>(parts: seq<SubReconciler<S>>, resource: Holder<S>, i: int, fuel: nat)
    returns (out: Option<Return>)
    modifies resource
    ensures Agrees(old(EvalSequence(parts, resource.state, i, fuel, EMPTY)), resource.state, out)
    decreases parts, 0, 0
  {
    var aggregateResult := EMPTY;
    for j := 0 to |parts|
      invariant old(EvalSequence(parts, resource.state, i, fuel, EMPTY))
             == EvalSequence(parts[j..], resource.state, i, fuel, aggregateResult)
    {
      assert parts[j..][0] == parts[j] && parts[j..][1..] == parts[j + 1..];
      out := Reconcile(parts[j], resource, i, fuel);
      if out.None? || out.value.error.Some? {
        return;
      }
      aggregateResult := Aggregate(out.value.result, aggregateResult);
    }
    return Some(Return(aggregateResult, None));
  }

  method ReconcileWhile<S>(cond: (S, int) -> bool, body: SubReconciler<S>, m: int, resource: Holder<S>, fuel: nat)
    returns (out: Option<Return>)
    modifies resource
    ensures Agrees(old(EvalWhile(cond, body, m, resource.state, 0, EMPTY, fuel, fuel)), resource.state, out)
    decreases body, 1, 0
  {
    var aggregateResult := EMPTY;
    var k := 0;
    while true
      invariant 0 <= k <= fuel
      invariant old(EvalWhile(cond, body, m, resource.state, 0, EMPTY, fuel, fuel))
             == EvalWhile(cond, body, m, resource.state, k, aggregateResult, fuel - k, fuel)
      decreases fuel - k
    {
      if m != 0 && k >= m {
        return Some(Return(aggregateResult, Some(ErrMaxIterations(k))));
      }
      if k == fuel {
        return None;
      }
      if !cond(resource.state, k) {
        break;
      }
      out := Reconcile(body, resource, k, fuel);
      if out.None? {
        return;
      }
      aggregateResult := Aggregate(aggregateResult, out.value.result);
      if out.value.error.Some? {
        return Some(Return(aggregateResult, out.value.error));
      }
      k := k + 1;
    }
    return Some(Return(aggregateResult, None));
  }

  // ---------- splicing nested sequences

  /** Every sequence inside a sequence is replaced by its parts, at any depth. */
  function Flatten<S>(r: SubReconciler<S>): SubReconciler<S>
    decreases r, 1
  {
    match r
    case Leaf(_) => r
    case Sequence(parts) => Sequence(Splice(parts))
    case IfThen(cond, a, b) => IfThen(cond, Flatten(a), if b.Some? then Some(Flatten(b.value)) else None)
    case While(cond, body, m) => While(cond, Flatten(body), m)
    case TryCatch(t, c, f) => TryCatch(Flatten(t), c, if f.Some? then Some(Flatten(f.value)) else None)
  }

  function Splice<S>(parts: seq<SubReconciler<S>>): seq<SubReconciler<S>>
    decreases parts, 0
  {
    if |parts| == 0 then []
    else
      var first := Flatten(parts[0]);
      (if first.Sequence? then first.parts else [first]) + Splice(parts[1..])
  }

  /** What a sequence does does not depend on what was aggregated before it. */
  lemma {:induction false} SequenceFrom<S>(parts: seq<SubReconciler<S>>, s: S, i: int, fuel: nat, acc: Result)
    ensures EvalSequence(parts, s, i, fuel, acc) ==
      (var run := EvalSequence(parts, s, i, fuel, EMPTY);
       if run.None? || run.value.error.Some? then run
       else Some(run.value.(result := Aggregate(run.value.result, acc))))
    decreases |parts|
  {
    if |parts| > 0 {
      var step := Eval(parts[0], s, i, fuel);
      if step.Some? && step.value.error.None? {
        SequenceFrom(parts[1..], step.value.state, i, fuel, Aggregate(step.value.result, acc));
        SequenceFrom(parts[1..], step.value.state, i, fuel, Aggregate(step.value.result, EMPTY));
        var rest := EvalSequence(parts[1..], step.value.state, i, fuel, EMPTY);
        if rest.Some? {
          AggregateLaws(rest.value.result, step.value.result, acc);
          AggregateLaws(step.value.result, EMPTY, acc);
        }
      }
    }
  }

  lemma {:induction false} SequenceAppend<S>(a: seq<SubReconciler<S>>, b: seq<SubReconciler<S>>, s: S, i: int, fuel: nat, acc: Result)
    ensures EvalSequence(a + b, s, i, fuel, acc) ==
      (var run := EvalSequence(a, s, i, fuel, acc);
       if run.None? || run.value.error.Some? then run
       else EvalSequence(b, run.value.state, i, fuel, run.value.result))
    decreases |a|
  {
    if |a| == 0 {
      assert a + b == b;
    } else {
      assert (a + b)[1..] == a[1..] + b;
      var step := Eval(a[0], s, i, fuel);
      if step.Some? && step.value.error.None? {
        SequenceAppend(a[1..], b, step.value.state, i, fuel, Aggregate(step.value.result, acc));
      }
    }
  }

  /** Splicing nested sequences, at every depth of the tree at once, preserves the resource,
      the result and the error of every run, including runs that stop at an error. */
  lemma {:induction false} FlattenPreserves<S>(r: SubReconciler<S>, s: S, i: int, fuel: nat)
    ensures Eval(Flatten(r), s, i, fuel) == Eval(r, s, i, fuel)
    decreases r, 1, 0
  {
    match r
    case Leaf(_) =>
    case Sequence(parts) => SplicePreserves(parts, s, i, fuel, EMPTY);
    case IfThen(cond, a, b) =>
      FlattenPreserves(a, s, i, fuel);
      if b.Some? { FlattenPreserves(b.value, s, i, fuel); }
    case While(cond, body, m) => WhilePreserves(cond, body, m, s, 0, EMPTY, fuel, fuel);
    case TryCatch(t, c, f) =>
      FlattenPreserves(t, s, i, fuel);
      var tried := Eval(t, s, i, fuel);
      if tried.Some? && f.Some? {
        var caught := if c.Some? then c.value(tried.value.state, i, tried.value.result, tried.value.error) else tried.value;
        FlattenPreserves(f.value, caught.state, i, fuel);
      }
  }

  lemma {:induction false} SplicePreserves<S>(parts: seq<SubReconciler<S>>, s: S, i: int, fuel: nat, acc: Result)
    ensures EvalSequence(Splice(parts), s, i, fuel, acc) == EvalSequence(parts, s, i, fuel, acc)
    decreases parts, 0, 0
  {
    if |parts| > 0 {
      var first := Flatten(parts[0]);
      var front := if first.Sequence? then first.parts else [first];
      FlattenPreserves(parts[0], s, i, fuel);
      SequenceAppend(front, Splice(parts[1..]), s, i, fuel, acc);
      SequenceFrom(front, s, i, fuel, acc);
      var step := Eval(parts[0], s, i, fuel);
      if step.Some? {
        AggregateLaws(step.value.result, EMPTY, acc);
        if step.value.error.None? {
          SplicePreserves(parts[1..], step.value.state, i, fuel, Aggregate(step.value.result, acc));
        }
      }
    }
  }

  lemma {:induction false} WhilePreserves<S>(cond: (S, int) -> bool, body: SubReconciler<S>, m: int, s: S, k: nat,
                                            acc: Result, left: nat, fuel: nat)
    ensures EvalWhile(cond, Flatten(body), m, s, k, acc, left, fuel) == EvalWhile(cond, body, m, s, k, acc, left, fuel)
    decreases body, 2, left
  {
    if !(m != 0 && k >= m) && left > 0 && cond(s, k) {
      FlattenPreserves(body, s, k, fuel);
      var step := Eval(body, s, k, fuel);
      if step.Some? && step.value.error.None? {
        WhilePreserves(cond, body, m, step.value.state, k + 1, Aggregate(acc, step.value.result), left - 1, fuel);
      }
    }
  }

  // ---------- loops

  /** A body that ends without error from s at iteration k. */
  predicate Clean<S>(body: SubReconciler<S>, s: S, k: int, fuel: nat) {
    var step := Eval(body, s, k, fuel);
    step.Some? && step.value.error.None?
  }

  /** The state and the aggregate after n clean iterations from iteration k. */
  function Iterated<S>(body: SubReconciler<S>, s: S, k: nat, acc: Result, n: nat, fuel: nat): Step<S>
    decreases n
  {
    if n == 0 || !Clean(body, s, k, fuel) then Step(s, acc, None)
    else
      var step := Eval(body, s, k, fuel).value;
      Iterated(body, step.state, k + 1, Aggregate(acc, step.result), n - 1, fuel)
  }

  /** The condition holds and the body is clean for n iterations from iteration k. */
  ghost predicate Keeps<S>(cond: (S, int) -> bool, body: SubReconciler<S>, s: S, k: nat, n: nat, fuel: nat)
    decreases n
  {
    n > 0 ==> cond(s, k) && Clean(body, s, k, fuel) && Keeps(cond, body, Eval(body, s, k, fuel).value.state, k + 1, n - 1, fuel)
  }

  lemma {:induction false} WhileUnrolls<S>(cond: (S, int) -> bool, body: SubReconciler<S>, m: int, s: S, k: nat,
                                          acc: Result, n: nat, left: nat, fuel: nat)
    requires Keeps(cond, body, s, k, n, fuel) && n <= left && (m == 0 || k + n <= m)
    ensures var it := Iterated(body, s, k, acc, n, fuel);
      EvalWhile(cond, body, m, s, k, acc, left, fuel)
        == EvalWhile(cond, body, m, it.state, k + n, it.result, left - n, fuel)
    decreases n
  {
    if n > 0 {
      var step := Eval(body, s, k, fuel).value;
      WhileUnrolls(cond, body, m, step.state, k + 1, Aggregate(acc, step.result), n - 1, left - 1, fuel);
    }
  }

  /** The results of n clean iterations, in order. */
  function Results<S>(body: SubReconciler<S>, s: S, k: nat, n: nat, fuel: nat): seq<Result>
    decreases n
  {
    if n == 0 || !Clean(body, s, k, fuel) then []
    else
      var step := Eval(body, s, k, fuel).value;
      [step.result] + Results(body, step.state, k + 1, n - 1, fuel)
  }

  function AggregateFrom(acc: Result, results: seq<Result>): Result
    decreases |results|
  {
    if |results| == 0 then acc else AggregateFrom(Aggregate(acc, results[0]), results[1..])
  }

  lemma {:induction false} FoldsAgree(before: seq<Result>, results: seq<Result>)
    ensures AggregateFrom(AggregateAll(before), results) == AggregateAll(before + results)
    decreases |results|
  {
    if |results| == 0 {
      assert before + results == before;
    } else {
      var longer := before + [results[0]];
      assert longer[..|before|] == before;
      FoldsAgree(longer, results[1..]);
      assert longer + results[1..] == before + results;
    }
  }

  lemma {:induction false} IteratedFolds<S>(cond: (S, int) -> bool, body: SubReconciler<S>, s: S, k: nat,
                                           acc: Result, n: nat, fuel: nat)
    requires Keeps(cond, body, s, k, n, fuel)
    ensures |Results(body, s, k, n, fuel)| == n
    ensures Iterated(body, s, k, acc, n, fuel)
      == Step(Iterated(body, s, k, acc, n, fuel).state, AggregateFrom(acc, Results(body, s, k, n, fuel)), None)
    decreases n
  {
    if n > 0 {
      var step := Eval(body, s, k, fuel).value;
      IteratedFolds(cond, body, step.state, k + 1, Aggregate(acc, step.result), n - 1, fuel);
    }
  }

  lemma IteratedAggregates<S>(cond: (S, int) -> bool, body: SubReconciler<S>, s: S, n: nat, fuel: nat)
    requires Keeps(cond, body, s, 0, n, fuel)
    ensures var results := Results(body, s, 0, n, fuel);
      && |results| == n
      && Iterated(body, s, 0, EMPTY, n, fuel) == Step(Iterated(body, s, 0, EMPTY, n, fuel).state, AggregateAll(results), None)
  {
    IteratedFolds(cond, body, s, 0, EMPTY, n, fuel);
    FoldsAgree([], Results(body, s, 0, n, fuel));
    assert [] + Results(body, s, 0, n, fuel) == Results(body, s, 0, n, fuel);
  }

  /** With a limit m, and a body that never errs: when the condition holds on the first n
      checks, the loop ends after exactly n iterations with the aggregate of their results,
      without error if the condition is then false and n < m, and with ErrMaxIterations if
      and only if n = m. */
  lemma WhileBound<S>(cond: (S, int) -> bool, body: SubReconciler<S>, m: nat, s: S, i: int, n: nat, fuel: nat)
    requires 0 < m <= fuel && n <= m && Keeps(cond, body, s, 0, n, fuel)
    requires n < m ==> !cond(Iterated(body, s, 0, EMPTY, n, fuel).state, n)
    ensures var results := Results(body, s, 0, n, fuel);
      && |results| == n
      && Eval(While(cond, body, m), s, i, fuel) ==
           Some(Step(Iterated(body, s, 0, EMPTY, n, fuel).state, AggregateAll(results),
                     if n == m then Some(ErrMaxIterations(m)) else None))
  {
    WhileUnrolls(cond, body, m, s, 0, EMPTY, n, fuel, fuel);
    IteratedAggregates(cond, body, s, n, fuel);
  }

  /** Without a limit the loop ends exactly when the condition turns false: after n
      iterations if that is where it does, and never while it keeps holding. */
  lemma WhileUnlimited<S>(cond: (S, int) -> bool, body: SubReconciler<S>, s: S, i: int, n: nat, fuel: nat)
    requires Keeps(cond, body, s, 0, n, fuel) && n <= fuel
    ensures n == fuel ==> Eval(While(cond, body, 0), s, i, fuel).None?
    ensures n < fuel && !cond(Iterated(body, s, 0, EMPTY, n, fuel).state, n) ==>
      Eval(While(cond, body, 0), s, i, fuel) ==
        Some(Step(Iterated(body, s, 0, EMPTY, n, fuel).state, AggregateAll(Results(body, s, 0, n, fuel)), None))
  {
    WhileUnrolls(cond, body, 0, s, 0, EMPTY, n, fuel, fuel);
    IteratedAggregates(cond, body, s, n, fuel);
  }

  /** Every loop of the tree has a limit of its own, within the fuel. */
  ghost predicate Limited<S>(r: SubReconciler<S>, fuel: nat)
    decreases r
  {
    match r
    case Leaf(_) => true
    case Sequence(parts) => forall p | p in parts :: Limited(p, fuel)
    case IfThen(_, a, b) => Limited(a, fuel) && (b.Some? ==> Limited(b.value, fuel))
    case While(_, body, m) => m != 0 && m <= fuel && Limited(body, fuel)
    case TryCatch(t, _, f) => Limited(t, fuel) && (f.Some? ==> Limited(f.value, fuel))
  }

  /** A tree whose loops all have limits always ends, whatever its parts do. */
  lemma {:induction false} LimitedEnds<S>(r: SubReconciler<S>, s: S, i: int, fuel: nat)
    requires Limited(r, fuel)
    ensures Eval(r, s, i, fuel).Some?
    decreases r, 1, 0
  {
    match r
    case Leaf(_) =>
    case Sequence(parts) => LimitedSequenceEnds(parts, s, i, fuel, EMPTY);
    case IfThen(_, a, b) =>
      LimitedEnds(a, s, i, fuel);
      if b.Some? { LimitedEnds(b.value, s, i, fuel); }
    case While(cond, body, m) => LimitedWhileEnds(cond, body, m, s, 0, EMPTY, fuel, fuel);
    case TryCatch(t, c, f) =>
      LimitedEnds(t, s, i, fuel);
      var tried := Eval(t, s, i, fuel).value;
      if f.Some? {
        var caught := if c.Some? then c.value(tried.state, i, tried.result, tried.error) else tried;
        LimitedEnds(f.value, caught.state, i, fuel);
      }
  }

  lemma {:induction false} LimitedSequenceEnds<S>(parts: seq<SubReconciler<S>>, s: S, i: int, fuel: nat, acc: Result)
    requires forall p | p in parts :: Limited(p, fuel)
    ensures EvalSequence(parts, s, i, fuel, acc).Some?
    decreases parts, 0, 0
  {
    if |parts| > 0 {
      LimitedEnds(parts[0], s, i, fuel);
      var step := Eval(parts[0], s, i, fuel).value;
      if step.error.None? {
        LimitedSequenceEnds(parts[1..], step.state, i, fuel, Aggregate(step.result, acc));
      }
    }
  }

  lemma {:induction false} LimitedWhileEnds<S>(cond: (S, int) -> bool, body: SubReconciler<S>, m: int, s: S, k: nat,
                                              acc: Result, left: nat, fuel: nat)
    requires m != 0 && m <= k + left && Limited(body, fuel)
    ensures EvalWhile(cond, body, m, s, k, acc, left, fuel).Some?
    decreases body, 2, left
  {
    if k < m && cond(s, k) {
      LimitedEnds(body, s, k, fuel);
      var step := Eval(body, s, k, fuel).value;
      if step.error.None? {
        LimitedWhileEnds(cond, body, m, step.state, k + 1, Aggregate(acc, step.result), left - 1, fuel);
      }
    }
  }

  // ---------- the answer does not depend on the fuel

  /** Once there is an answer, more fuel gives the same. */
  lemma {:induction false} MoreFuel<S>(r: SubReconciler<S>, s: S, i: int, fuel: nat, more: nat)
    requires Eval(r, s, i, fuel).Some? && fuel <= more
    ensures Eval(r, s, i, more) == Eval(r, s, i, fuel)
    decreases r, 1, 0
  {
    match r
    case Leaf(_) =>
    case Sequence(parts) => MoreFuelSequence(parts, s, i, fuel, more, EMPTY);
    case IfThen(cond, a, b) =>
      if cond(s, i) {
        MoreFuel(a, s, i, fuel, more);
      } else if b.Some? {
        MoreFuel(b.value, s, i, fuel, more);
      }
    case While(cond, body, m) => MoreFuelWhile(cond, body, m, s, 0, EMPTY, fuel, more, fuel, more);
    case TryCatch(t, c, f) =>
      MoreFuel(t, s, i, fuel, more);
      var tried := Eval(t, s, i, fuel).value;
      if f.Some? {
        var caught := if c.Some? then c.value(tried.state, i, tried.result, tried.error) else tried;
        MoreFuel(f.value, caught.state, i, fuel, more);
      }
  }

  lemma {:induction false} MoreFuelSequence<S>(parts: seq<SubReconciler<S>>, s: S, i: int, fuel: nat, more: nat, acc: Result)
    requires EvalSequence(parts, s, i, fuel, acc).Some? && fuel <= more
    ensures EvalSequence(parts, s, i, more, acc) == EvalSequence(parts, s, i, fuel, acc)
    decreases parts, 0, 0
  {
    if |parts| > 0 {
      MoreFuel(parts[0], s, i, fuel, more);
      var step := Eval(parts[0], s, i, fuel).value;
      if step.error.None? {
        MoreFuelSequence(parts[1..], step.state, i, fuel, more, Aggregate(step.result, acc));
      }
    }
  }

  lemma {:induction false} MoreFuelWhile<S>(cond: (S, int) -> bool, body: SubReconciler<S>, m: int, s: S, k: nat, acc: Result,
                                           left: nat, left': nat, fuel: nat, more: nat)
    requires EvalWhile(cond, body, m, s, k, acc, left, fuel).Some? && left <= left' && fuel <= more
    ensures EvalWhile(cond, body, m, s, k, acc, left', more) == EvalWhile(cond, body, m, s, k, acc, left, fuel)
    decreases body, 2, left
  {
    if !(m != 0 && k >= m) && cond(s, k) {
      MoreFuel(body, s, k, fuel, more);
      var step := Eval(body, s, k, fuel).value;
      if step.error.None? {
        MoreFuelWhile(cond, body, m, step.state, k + 1, Aggregate(acc, step.result), left - 1, left' - 1, fuel, more);
      }
    }
  }

  /** The run of a reconciler, whatever it takes: none is the answer for one that never ends. */
  ghost function RunOf<S>(r: SubReconciler<S>, s: S, i: int): (ran: Option<Step<S>>)
    ensures forall fuel: nat | Eval(r, s, i, fuel).Some? :: ran == Eval(r, s, i, fuel)
    ensures ran.Some? ==> exists fuel: nat :: Eval(r, s, i, fuel) == ran
  {
    if fuel: nat :| Eval(r, s, i, fuel).Some? then
      SameAnswer(r, s, i, fuel);
      Eval(r, s, i, fuel)
    else None
  }

  lemma SameAnswer<S>(r: SubReconciler<S>, s: S, i: int, fuel: nat)
    requires Eval(r, s, i, fuel).Some?
    ensures forall other: nat | Eval(r, s, i, other).Some? :: Eval(r, s, i, other) == Eval(r, s, i, fuel)
  {
    forall other: nat | Eval(r, s, i, other).Some? ensures Eval(r, s, i, other) == Eval(r, s, i, fuel) {
      if other <= fuel { MoreFuel(r, s, i, other, fuel); } else { MoreFuel(r, s, i, fuel, other); }
    }
  }

  /** A loop without a limit and with a body that does not err: it ends where the condition
      turns false, with the aggregate of its results, and if the condition never does it
      never ends. */
  lemma UnlimitedRuns<S>(cond: (S, int) -> bool, body: SubReconciler<S>, s: S, i: int)
    ensures forall n: nat, fuel: nat | Keeps(cond, body, s, 0, n, fuel) && n < fuel
        && !cond(Iterated(body, s, 0, EMPTY, n, fuel).state, n) ::
      RunOf(While(cond, body, 0), s, i) ==
        Some(Step(Iterated(body, s, 0, EMPTY, n, fuel).state, AggregateAll(Results(body, s, 0, n, fuel)), None))
    ensures (forall fuel: nat :: Keeps(cond, body, s, 0, fuel, fuel)) ==> RunOf(While(cond, body, 0), s, i).None?
  {
    var loop := While(cond, body, 0);
    forall n: nat, fuel: nat | Keeps(cond, body, s, 0, n, fuel) && n < fuel
      && !cond(Iterated(body, s, 0, EMPTY, n, fuel).state, n)
      ensures RunOf(loop, s, i) ==
        Some(Step(Iterated(body, s, 0, EMPTY, n, fuel).state, AggregateAll(Results(body, s, 0, n, fuel)), None))
    {
      WhileUnlimited(cond, body, s, i, n, fuel);
    }
    if forall fuel: nat :: Keeps(cond, body, s, 0, fuel, fuel) {
      forall fuel: nat ensures Eval(loop, s, i, fuel).None? {
        assert Keeps(cond, body, s, 0, fuel, fuel);
        WhileUnlimited(cond, body, s, i, fuel, fuel);
      }
    }
  }
}
