/**
  `boundedParallel` of BoBeAgent/src/delegation.ts: a few workers share a cursor over the items and
  a map of results. A step is one worker's code between two suspension points, or an abort.
 */
module Parallel {

  datatype Worker =
    | Idle                // at the loop test
    | Busy(index: nat)    // awaits `execute` of that item
    | Returned
    | Threw(failed: int)  // the item whose failure it carries, or -1 for an abort

  datatype State<R> = State(
    items: nat,
    workers: seq<Worker>,
    cursor: nat,
    results: map<nat, R>,
    aborted: bool,
    started: seq<nat>)    // the items handed to `execute`, in order

  datatype Step<R> =
    | Poll(worker: nat)
    | Succeed(worker: nat, value: R)
    | Fail(worker: nat)
    | Abort

  function Start<R>(items: nat, concurrency: nat): State<R> {
    State(items, seq(if items < concurrency then items else concurrency, _ => Idle), 0, map[], false, [])
  }

  predicate Enabled<R>(s: State<R>, step: Step<R>) {
    match step
    case Poll(w) => w < |s.workers| && s.workers[w].Idle?
    case Succeed(w, _) => w < |s.workers| && s.workers[w].Busy?
    case Fail(w) => w < |s.workers| && s.workers[w].Busy?
    case Abort => true
  }

  function Apply<R>(s: State<R>, step: Step<R>): State<R>
    requires Enabled(s, step)
  {
    match step
    case Poll(w) =>
      if s.cursor >= s.items then s.(workers := s.workers[w := Returned])
      else if s.aborted then s.(workers := s.workers[w := Threw(-1)])
      else s.(workers := s.workers[w := Busy(s.cursor)], cursor := s.cursor + 1, started := s.started + [s.cursor])
    case Succeed(w, value) => s.(workers := s.workers[w := Idle], results := s.results[s.workers[w].index := value])
    case Fail(w) => s.(workers := s.workers[w := Threw(s.workers[w].index)])
    case Abort => s.(aborted := true)
  }

  /** `Promise.allSettled`: every worker has returned or thrown. */
  predicate Settled<R>(s: State<R>) {
    forall w :: 0 <= w < |s.workers| ==> s.workers[w].Returned? || s.workers[w].Threw?
  }

  // ---------------------------------------------------------------- invariant

  /** The worker that has the item, running or failed. */
  predicate Has<R>(s: State<R>, w: int, index: int) {
    0 <= w < |s.workers| && index >= 0 && (s.workers[w] == Busy(index) || s.workers[w] == Threw(index))
  }

  ghost predicate HeldOrDone<R>(s: State<R>, index: nat) {
    index in s.results || exists w :: Has(s, w, index)
  }

  ghost predicate Inv<R>(s: State<R>) {
    && s.cursor <= s.items
    && |s.started| == s.cursor && (forall i :: 0 <= i < |s.started| ==> s.started[i] == i)
    && (forall index :: index in s.results ==> index < s.cursor)
    && (forall w, index :: Has(s, w, index) ==> index < s.cursor && index !in s.results)
    && (forall v, w, index :: Has(s, v, index) && Has(s, w, index) ==> v == w)
    && (forall index: nat :: index < s.cursor ==> HeldOrDone(s, index))
    && (forall w :: 0 <= w < |s.workers| && s.workers[w].Returned? ==> s.cursor == s.items)
    && (forall w :: 0 <= w < |s.workers| && s.workers[w] == Threw(-1) ==> s.aborted)
  }

  lemma {:induction false} HeldStays<R>(s: State<R>, step: Step<R>, index: nat)
    requires Inv(s) && Enabled(s, step) && index < Apply(s, step).cursor
    ensures HeldOrDone(Apply(s, step), index)
  {
    var t := Apply(s, step);
    if index == s.cursor {
      assert Has(t, step.worker, index);
    } else if index !in s.results {
      assert HeldOrDone(s, index);
      var w :| Has(s, w, index);
      assert index !in t.results ==> Has(t, w, index);
    }
  }

  lemma {:induction false} StepKeeps<R>(s: State<R>, step: Step<R>)
    requires Inv(s) && Enabled(s, step)
    ensures Inv(Apply(s, step))
  {
    var t := Apply(s, step);
    if step.Succeed? {
      assert Has(s, step.worker, s.workers[step.worker].index);
    }
    forall w, index | Has(t, w, index)
      ensures Has(s, w, index) || (step == Poll(w) && index == s.cursor)
    {
    }
    forall index: nat | index < Apply(s, step).cursor ensures HeldOrDone(Apply(s, step), index) {
      HeldStays(s, step, index);
    }
  }

  // ---------------------------------------------------------------- runs

  ghost predicate IsRun<R>(states: seq<State<R>>, steps: seq<Step<R>>, items: nat, concurrency: nat) {
    && |states| == |steps| + 1
    && states[0] == Start(items, concurrency)
    && forall i {:trigger steps[i]} :: 0 <= i < |steps| ==>
         Enabled(states[i], steps[i]) && states[i + 1] == Apply(states[i], steps[i])
  }

  lemma {:induction false} RunKeeps<R>(states: seq<State<R>>, steps: seq<Step<R>>, items: nat, concurrency: nat, n: nat)
    requires IsRun(states, steps, items, concurrency) && n < |states|
    ensures Inv(states[n]) && states[n].items == items
    ensures |states[n].workers| == if items < concurrency then items else concurrency
  {
    if n == 0 {
      assert forall w, index :: !Has(states[0], w, index);
    } else {
      RunKeeps(states, steps, items, concurrency, n - 1);
      StepKeeps(states[n - 1], steps[n - 1]);
    }
  }

  /** The items now running. */
  function InFlight(workers: seq<Worker>): (r: set<nat>) {
    set w | 0 <= w < |workers| && workers[w].Busy? :: workers[w].index
  }

  lemma {:induction false} FewInFlight(workers: seq<Worker>)
    ensures |InFlight(workers)| <= |workers|
  {
    if workers == [] {
      assert InFlight(workers) == {};
    } else {
      var n := |workers| - 1;
      FewInFlight(workers[..n]);
      var here := if workers[n].Busy? then {workers[n].index} else {};
      assert InFlight(workers) == InFlight(workers[..n]) + here;
    }
  }

  /** At most `concurrency` items run at once, items start in order, and none starts twice. */
  lemma {:induction false} BoundedAndOnce<R>(states: seq<State<R>>, steps: seq<Step<R>>, items: nat,
      concurrency: nat, n: nat)
    requires IsRun(states, steps, items, concurrency) && n < |states|
    ensures |InFlight(states[n].workers)| <= concurrency
    ensures forall i :: 0 <= i < |states[n].started| ==> states[n].started[i] == i < items
    ensures forall index :: index in InFlight(states[n].workers) ==>
      index in states[n].started && index !in states[n].results
  {
    RunKeeps(states, steps, items, concurrency, n);
    FewInFlight(states[n].workers);
    var s := states[n];
    forall index | index in InFlight(s.workers) ensures index in s.started && index !in s.results {
      var w :| 0 <= w < |s.workers| && s.workers[w].Busy? && s.workers[w].index == index;
      assert Has(s, w, index);
      assert s.started[index] == index;
    }
  }

  /** A result, once there, is the value its own `execute` produced, and is never replaced. */
  lemma {:induction false} ResultsAreFinal<R>(s: State<R>, step: Step<R>, index: nat)
    requires Inv(s) && Enabled(s, step)
    ensures index in s.results ==> index in Apply(s, step).results && Apply(s, step).results[index] == s.results[index]
    ensures index !in s.results && index in Apply(s, step).results ==>
      step.Succeed? && s.workers[step.worker] == Busy(index) && Apply(s, step).results[index] == step.value
  {
    if step.Succeed? {
      assert Has(s, step.worker, s.workers[step.worker].index);
    }
  }

  // ---------------------------------------------------------------- the outcome

  datatype Outcome<R> = Results(values: seq<R>) | Throws(index: int) | DidNotSettle

  predicate AllReturned(workers: seq<Worker>) {
    forall w :: 0 <= w < |workers| ==> workers[w].Returned?
  }

  /** What the caller gets once every worker has settled: the first failure, or the results in item order. */
  method Collect<R>(s: State<R>) returns (r: Outcome<R>)
    requires Settled(s) && Inv(s)
    ensures r.Throws? <==> exists w :: 0 <= w < |s.workers| && s.workers[w].Threw?
    ensures r.Throws? ==>
      exists w :: 0 <= w < |s.workers| && s.workers[w] == Threw(r.index) && AllReturned(s.workers[..w])
    ensures r.DidNotSettle? <==> s.workers == [] && s.cursor < s.items
    ensures r.Results? ==> |r.values| == s.items
    ensures r.Results? ==> forall i :: 0 <= i < s.items ==> i in s.results && r.values[i] == s.results[i]
  {
    var w := 0;
    while w < |s.workers|
      invariant w <= |s.workers|
      invariant forall v :: 0 <= v < w ==> s.workers[v].Returned?
    {
      if s.workers[w].Threw? {
        assert AllReturned(s.workers[..w]);
        return Throws(s.workers[w].failed);
      }
      w := w + 1;
    }
    ReturnedMeansDone(s);
    var values := [];
    var i := 0;
    while i < s.items
      invariant i <= s.items && |values| == i
      invariant forall k :: 0 <= k < i ==> k in s.results && values[k] == s.results[k]
    {
      if i !in s.results {
        assert s.cursor <= i;
        return DidNotSettle;
      }
      values := values + [s.results[i]];
      i := i + 1;
    }
    assert s.cursor < s.items ==> s.cursor in s.results;
    return Results(values);
  }

  /** When every worker returned, every item started so far has its result, and with a worker there are no others. */
  lemma {:induction false} ReturnedMeansDone<R>(s: State<R>)
    requires Inv(s) && forall w :: 0 <= w < |s.workers| ==> s.workers[w].Returned?
    ensures forall i: nat :: i < s.cursor ==> i in s.results
    ensures s.workers != [] ==> s.cursor == s.items
  {
    forall i: nat | i < s.cursor ensures i in s.results {
      assert HeldOrDone(s, i);
    }
    if s.workers != [] {
      assert s.workers[0].Returned?;
    }
  }

  predicate NoneThrew<R>(s: State<R>) {
    forall w :: 0 <= w < |s.workers| ==> !s.workers[w].Threw?
  }

  /**
    When the call ends nothing runs; if no worker threw, every item has its result exactly when a worker was
    allowed.
   */
  lemma {:induction false} EndsQuiet<R>(states: seq<State<R>>, steps: seq<Step<R>>, items: nat, concurrency: nat)
    requires IsRun(states, steps, items, concurrency) && Settled(states[|steps|])
    ensures InFlight(states[|steps|].workers) == {}
    ensures NoneThrew(states[|steps|]) ==>
      ((forall i: nat :: i < items ==> i in states[|steps|].results) <==> (items == 0 || concurrency > 0))
  {
    var s := states[|steps|];
    RunKeeps(states, steps, items, concurrency, |steps|);
    if NoneThrew(s) {
      ReturnedMeansDone(s);
      if concurrency == 0 && items > 0 {
        NoWorkersNoResults(states, steps, items, |steps|);
        assert 0 !in s.results;
      }
    }
  }

  lemma {:induction false} NoWorkersNoResults<R>(states: seq<State<R>>, steps: seq<Step<R>>, items: nat, n: nat)
    requires IsRun(states, steps, items, 0) && n < |states|
    ensures states[n].results == map[] && states[n].workers == []
  {
    if n > 0 {
      NoWorkersNoResults(states, steps, items, n - 1);
      assert Enabled(states[n - 1], steps[n - 1]);
    }
  }

  // ---------------------------------------------------------------- progress

  function Weight(w: Worker): nat {
    match w case Idle => 1 case Busy(_) => 2 case _ => 0
  }

  function Load(workers: seq<Worker>): nat {
    if workers == [] then 0 else Load(workers[..|workers| - 1]) + Weight(workers[|workers| - 1])
  }

  function Left<R>(s: State<R>): int {
    2 * (s.items - s.cursor) + Load(s.workers)
  }

  lemma {:induction false} LoadUpdate(workers: seq<Worker>, w: nat, x: Worker)
    requires w < |workers|
    ensures Load(workers[w := x]) == Load(workers) - Weight(workers[w]) + Weight(x)
  {
    var n := |workers| - 1;
    if w == n {
      assert workers[w := x][..n] == workers[..n];
    } else {
      assert workers[w := x][..n] == workers[..n][w := x];
      LoadUpdate(workers[..n], w, x);
    }
  }

  /** Every move of a worker brings the end nearer. */
  lemma {:induction false} MovesEnd<R>(s: State<R>, step: Step<R>)
    requires Inv(s) && Enabled(s, step) && !step.Abort?
    ensures 0 <= Left(Apply(s, step)) < Left(s)
  {
    var w := step.worker;
    LoadUpdate(s.workers, w, Apply(s, step).workers[w]);
    assert Apply(s, step).workers == s.workers[w := Apply(s, step).workers[w]];
  }

  /** The moves of workers in a run; aborts come from outside. */
  function Moves<R>(steps: seq<Step<R>>): nat {
    if steps == [] then 0
    else Moves(steps[..|steps| - 1]) + if steps[|steps| - 1].Abort? then 0 else 1
  }

  lemma {:induction false} IdleLoad(workers: seq<Worker>)
    requires forall w :: 0 <= w < |workers| ==> workers[w] == Idle
    ensures Load(workers) == |workers|
  {
    if workers != [] { IdleLoad(workers[..|workers| - 1]); }
  }

  lemma {:induction false} MovesPaid<R>(states: seq<State<R>>, steps: seq<Step<R>>, items: nat, concurrency: nat,
      n: nat)
    requires IsRun(states, steps, items, concurrency) && n <= |steps|
    ensures Left(states[n]) >= 0
    ensures Moves(steps[..n]) + Left(states[n]) <= 2 * items + if items < concurrency then items else concurrency
  {
    RunKeeps(states, steps, items, concurrency, n);
    if n == 0 {
      IdleLoad(states[0].workers);
    } else {
      MovesPaid(states, steps, items, concurrency, n - 1);
      RunKeeps(states, steps, items, concurrency, n - 1);
      assert steps[..n][..n - 1] == steps[..n - 1];
      if !steps[n - 1].Abort? { MovesEnd(states[n - 1], steps[n - 1]); }
    }
  }

  predicate CanMove<R>(s: State<R>) {
    exists w :: 0 <= w < |s.workers| && (Enabled(s, Poll(w)) || Enabled(s, Fail(w)))
  }

  /**
    A run has at most two moves an item and one a worker, whatever fails and whenever it is aborted,
    and no worker can move exactly when all have settled.
   */
  lemma {:induction false} EveryRunSettles<R>(states: seq<State<R>>, steps: seq<Step<R>>, items: nat, concurrency: nat)
    requires IsRun(states, steps, items, concurrency)
    ensures Moves(steps) <= 2 * items + if items < concurrency then items else concurrency
    ensures Settled(states[|steps|]) <==> !CanMove(states[|steps|])
  {
    MovesPaid(states, steps, items, concurrency, |steps|);
    assert steps[..|steps|] == steps;
    var s := states[|steps|];
    if !Settled(s) {
      var w :| 0 <= w < |s.workers| && !(s.workers[w].Returned? || s.workers[w].Threw?);
      assert Enabled(s, Poll(w)) || Enabled(s, Fail(w));
    }
  }

  // ---------------------------------------------------------------- aborts and failures

  lemma {:induction false} AbortStays<R>(s: State<R>, step: Step<R>)
    requires Enabled(s, step)
    ensures s.aborted || step.Abort? ==> Apply(s, step).aborted
    ensures Apply(s, step).aborted ==> s.aborted || step.Abort?
    ensures s.aborted ==> Apply(s, step).started == s.started
  {
  }

  /** From an abort on no item is started. */
  lemma {:induction false} NothingStartsAfterAbort<R>(states: seq<State<R>>, steps: seq<Step<R>>, items: nat,
      concurrency: nat, k: nat, n: nat)
    requires IsRun(states, steps, items, concurrency) && k < n < |states| && steps[k].Abort?
    ensures states[n].aborted && states[n].started == states[k].started
    decreases n
  {
    if n == k + 1 {
      AbortStays(states[k], steps[k]);
    } else {
      NothingStartsAfterAbort(states, steps, items, concurrency, k, n - 1);
      AbortStays(states[n - 1], steps[n - 1]);
    }
  }

  /** The signal is aborted exactly if an abort came, which it may at any time. */
  lemma {:induction false} AbortedExactly<R>(states: seq<State<R>>, steps: seq<Step<R>>, items: nat,
      concurrency: nat, n: nat)
    requires IsRun(states, steps, items, concurrency) && n < |states|
    ensures Enabled(states[n], Abort)
    ensures states[n].aborted <==> exists k :: 0 <= k < n && steps[k].Abort?
  {
    if n > 0 {
      AbortedExactly(states, steps, items, concurrency, n - 1);
      AbortStays(states[n - 1], steps[n - 1]);
    }
  }

  /** The step makes the worker throw this: the failure of the item it runs, or the abort it finds before an item. */
  predicate GivesUp<R>(s: State<R>, step: Step<R>, w: nat, failed: int) {
    w < |s.workers| &&
    ((step == Fail(w) && s.workers[w].Busy? && s.workers[w].index == failed) ||
     (step == Poll(w) && s.aborted && s.cursor < s.items && failed == -1))
  }

  lemma {:induction false} ThrowStep<R>(s: State<R>, step: Step<R>, w: nat, failed: int)
    requires Enabled(s, step) && w < |s.workers|
    ensures Apply(s, step).workers[w] == Threw(failed) <==> s.workers[w] == Threw(failed) || GivesUp(s, step, w, failed)
  {
  }

  ghost predicate GaveUpAt<R>(states: seq<State<R>>, steps: seq<Step<R>>, n: nat, k: int, w: nat, failed: int) {
    0 <= k < n && k < |steps| && k < |states| && GivesUp(states[k], steps[k], w, failed)
  }

  ghost predicate GaveUp<R>(states: seq<State<R>>, steps: seq<Step<R>>, n: nat, w: nat, failed: int) {
    exists k :: GaveUpAt(states, steps, n, k, w, failed)
  }

  lemma {:induction false} GaveUpLater<R>(states: seq<State<R>>, steps: seq<Step<R>>, n: nat, w: nat, failed: int)
    requires n < |steps| && n < |states|
    ensures GaveUp(states, steps, n + 1, w, failed) <==>
      GaveUp(states, steps, n, w, failed) || GivesUp(states[n], steps[n], w, failed)
  {
    if k :| GaveUpAt(states, steps, n, k, w, failed) {
      assert GaveUpAt(states, steps, n + 1, k, w, failed);
    }
    var m := n + 1;
    if k :| GaveUpAt(states, steps, m, k, w, failed) {
      assert k < n ==> GaveUpAt(states, steps, n, k, w, failed);
    }
    assert GivesUp(states[n], steps[n], w, failed) ==> GaveUpAt(states, steps, n + 1, n, w, failed);
  }

  /** What a worker throws is a failure of its own item, or an abort that came before. */
  lemma {:induction false} ThrownForAReason<R>(states: seq<State<R>>, steps: seq<Step<R>>, items: nat,
      concurrency: nat, n: nat, w: nat, failed: int)
    requires IsRun(states, steps, items, concurrency) && n < |states| && w < |states[n].workers|
    ensures states[n].workers[w] == Threw(failed) <==> GaveUp(states, steps, n, w, failed)
  {
    if n > 0 {
      NextStep(states, steps, items, concurrency, n - 1);
      ThrownForAReason(states, steps, items, concurrency, n - 1, w, failed);
      ThrowStep(states[n - 1], steps[n - 1], w, failed);
      GaveUpLater(states, steps, n - 1, w, failed);
    }
  }

  lemma {:induction false} NextStep<R>(states: seq<State<R>>, steps: seq<Step<R>>, items: nat, concurrency: nat, n: nat)
    requires IsRun(states, steps, items, concurrency) && n < |steps|
    ensures Enabled(states[n], steps[n]) && states[n + 1] == Apply(states[n], steps[n])
    ensures |states[n + 1].workers| == |states[n].workers|
  {
    assert Enabled(states[n], steps[n]);
  }
}
