/**
  The cursor and the results that the workers of `boundedParallel` (BoBeAgent/src/delegation.ts)
  share. The object stays valid: every item taken has one worker or one result, and none both.
 */
module ParallelMapObject {
  import opened Parallel

  class ParallelMap<R> {
    const items: nat
    var cursor: nat
    var results: map<nat, R>
    var workers: seq<Worker>
    var aborted: bool
    ghost var started: seq<nat>

    ghost function View(): State<R>
      reads this
    {
      State(items, workers, cursor, results, aborted, started)
    }

    ghost predicate Valid()
      reads this
    {
      Inv(View())
    }

    constructor (items: nat, concurrency: nat)
      ensures Valid() && View() == Start(items, concurrency)
    {
      this.items := items;
      cursor, results, aborted, started := 0, map[], false, [];
      workers := seq(if items < concurrency then items else concurrency, _ => Idle);
      new;
      assert forall w, index :: !Has(View(), w, index);
    }

    /** One turn of a worker's loop up to `await execute`: the item it takes, if any, is new and taken by no other. */
    method Take(w: nat) returns (index: int)
      requires Valid() && w < |workers| && workers[w].Idle?
      modifies this
      ensures Valid() && View() == Apply(old(View()), Poll(w))
      ensures index >= 0 ==> index < items && index !in old(started) && index !in results
      ensures index >= 0 ==> started == old(started) + [index] && forall v :: Has(View(), v, index) ==> v == w
      ensures index < 0 <==> cursor == old(cursor)
      ensures index < 0 ==> old(cursor) == items || aborted
    {
      ghost var before := View();
      StepKeeps(before, Poll(w));
      index := -1;
      if cursor >= items {
        workers := workers[w := Returned];
      } else if aborted {
        workers := workers[w := Threw(-1)];
      } else {
        index := cursor;
        cursor := cursor + 1;
        workers := workers[w := Busy(index)];
        started := started + [index];
        assert Has(View(), w, index);
      }
      assert View() == Apply(before, Poll(w));
    }

    /** `results.set(index, await execute(item))`: the item's first and only result. */
    method Put(w: nat, value: R)
      requires Valid() && w < |workers| && workers[w].Busy?
      modifies this
      ensures Valid() && View() == Apply(old(View()), Succeed(w, value))
      ensures old(workers)[w].index !in old(results) && results == old(results)[old(workers)[w].index := value]
    {
      ghost var before := View();
      assert Has(before, w, workers[w].index);
      StepKeeps(before, Succeed(w, value));
      results := results[workers[w].index := value];
      workers := workers[w := Idle];
      assert View() == Apply(before, Succeed(w, value));
    }

    /** An item that fails never gets a result. */
    method Reject(w: nat)
      requires Valid() && w < |workers| && workers[w].Busy?
      modifies this
      ensures Valid() && View() == Apply(old(View()), Fail(w))
      ensures old(workers)[w].index !in results
    {
      ghost var before := View();
      assert Has(before, w, workers[w].index);
      StepKeeps(before, Fail(w));
      workers := workers[w := Threw(workers[w].index)];
      assert View() == Apply(before, Fail(w));
    }
  }
}
