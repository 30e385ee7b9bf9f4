/** Nested delegation cannot deadlock and always completes; a call that kept its slot could. */
module SlotsTheorems {
  import G = Gate
  import T = GateTheorems
  import opened Slots

  lemma NoSlotHeldMeansNoneWaits(l: G.Limits, g: G.State)
    requires G.Legal(l) && G.Inv(l, g) && G.Ids(g.granted) <= g.released
    ensures g.pending == [] && G.Ids(g.arrivals) <= g.released + g.cancelled
  {
    assert G.Held(g) == {} by {
      forall w | w in g.granted ensures w.id in g.released { assert w.id in G.Ids(g.granted); }
    }
    T.IdleMeansEmpty(l, g);
    assert G.Ids(g.pending) == {};
  }

  lemma UnfinishedCanStep(c: Config, p: Plan, s: State) returns (step: Step)
    requires LegalConfig(c) && Ungated(p) && Inv(c, p, s) && !Done(p, s.finished)
    ensures !step.Abandon? && !step.Skip? && Enabled(p, s, step)
  {
    if r, id :| r in {Model, Tool} && id in G.Ids(GateOf(s, r).granted) && id !in GateOf(s, r).released {
      UngatedMayFinish(p, s.finished, id);
      step := Finish(r, id);
    } else {
      assert G.Ids(s.models.granted) <= s.models.released by {
        assert GateOf(s, Model) == s.models;
      }
      assert G.Ids(s.tools.granted) <= s.tools.released by {
        assert GateOf(s, Tool) == s.tools;
      }
      NoSlotHeldMeansNoneWaits(c.models, s.models);
      NoSlotHeldMeansNoneWaits(c.tools, s.tools);
      UnfinishedIsReady(p, s.finished, HeldIds(s));
      ReadyIsFresh(p, s.finished, HeldIds(s));
      var call :| call in Ready(p, s.finished, HeldIds(s));
      step := Request(call);
    }
  }

  /** Delegation cannot deadlock: a reachable unfinished state always has a step besides giving up. */
  lemma DelegationNeverDeadlocks(c: Config, p: Plan, steps: seq<Step>)
    requires LegalConfig(c) && Ungated(p) && IsRun(c, p, steps) && !Done(p, Run(c, steps).finished)
    ensures !Stuck(p, Run(c, steps))
  {
    RunKeeps(c, p, steps);
    var step := UnfinishedCanStep(c, p, Run(c, steps));
  }

  function Remaining(p: Plan, s: State): nat {
    |CallIds(p) - s.finished| + |CallIds(p) - (Arrived(s) + s.finished)|
  }

  lemma Shrinks(a: set<nat>, b: set<nat>, x: nat)
    requires b <= a && x in a && x !in b
    ensures |b| < |a|
  {
    assert b <= a - {x};
    G.SubsetCardinality(b, a - {x});
  }

  lemma RequestArrives(c: Config, p: Plan, s: State, call: Call)
    requires Inv(c, p, s) && Enabled(p, s, Request(call))
    ensures call.id in CallIds(p) && call.id !in s.finished
    ensures Arrived(Apply(c, s, Request(call))) == Arrived(s) + {call.id}
  {
    ReadyIsFresh(p, s.finished, HeldIds(s));
    RequestAgrees(LimitsOf(c, call.resource), p, GateOf(s, call.resource),
      s.finished, G.Waiter(call.id, call.priority));
  }

  lemma RequestConsumes(c: Config, p: Plan, s: State, call: Call)
    requires Inv(c, p, s) && Enabled(p, s, Request(call))
    ensures Remaining(p, Apply(c, s, Request(call))) < Remaining(p, s)
  {
    RequestArrives(c, p, s, call);
    var t := Apply(c, s, Request(call));
    assert t.finished == s.finished;
    Shrinks(CallIds(p) - (Arrived(s) + s.finished), CallIds(p) - (Arrived(t) + t.finished), call.id);
  }

  lemma EndConsumes(p: Plan, s: State, t: State, id: nat)
    requires id in CallIds(p) && id !in s.finished
    requires t.finished == s.finished + {id} && Arrived(t) == Arrived(s)
    ensures Remaining(p, t) < Remaining(p, s)
  {
    var all := CallIds(p);
    Shrinks(all - s.finished, all - t.finished, id);
    G.SubsetCardinality(all - (Arrived(t) + t.finished), all - (Arrived(s) + s.finished));
  }

  lemma StepConsumes(c: Config, p: Plan, s: State, step: Step)
    requires Inv(c, p, s) && Enabled(p, s, step)
    ensures Remaining(p, Apply(c, s, step)) < Remaining(p, s)
  {
    match step
    case Request(call) =>
      RequestConsumes(c, p, s, call);
    case Finish(r, id) =>
      FinishConsumes(c, p, s, r, id);
    case Abandon(r, id) =>
      AbandonConsumes(c, p, s, r, id);
    case Skip(call) =>
      ReadyIsFresh(p, s.finished, HeldIds(s));
      EndConsumes(p, s, Apply(c, s, step), call.id);
  }

  lemma {:induction false} FinishConsumes(c: Config, p: Plan, s: State, r: Resource, id: nat)
    requires Inv(c, p, s) && Enabled(p, s, Finish(r, id))
    ensures Remaining(p, Apply(c, s, Finish(r, id))) < Remaining(p, s)
  {
    FinishAgrees(LimitsOf(c, r), p, GateOf(s, r), s.finished, id);
    EndConsumes(p, s, Apply(c, s, Finish(r, id)), id);
  }

  lemma {:induction false} AbandonConsumes(c: Config, p: Plan, s: State, r: Resource, id: nat)
    requires Inv(c, p, s) && Enabled(p, s, Abandon(r, id))
    ensures Remaining(p, Apply(c, s, Abandon(r, id))) < Remaining(p, s)
  {
    AbandonAgrees(LimitsOf(c, r), p, GateOf(s, r), s.finished, id);
    EndConsumes(p, s, Apply(c, s, Abandon(r, id)), id);
  }

  lemma {:induction false} RunsAreBounded(c: Config, p: Plan, steps: seq<Step>)
    requires LegalConfig(c) && IsRun(c, p, steps)
    ensures |steps| + Remaining(p, Run(c, steps)) <= 2 * |CallIds(p)|
  {
    if steps == [] {
      assert CallIds(p) - {} == CallIds(p) - (Arrived(START) + {}) == CallIds(p);
    } else {
      var front := steps[..|steps| - 1];
      RunsAreBounded(c, p, front);
      RunKeeps(c, p, front);
      StepConsumes(c, p, Run(c, front), steps[|steps| - 1]);
    }
  }

  /**
    Every run of a delegation tree is finite, with at most two steps for each call, and a run
    that cannot go on has finished the whole tree.
   */
  lemma EveryTurnCompletes(c: Config, p: Plan, steps: seq<Step>)
    requires LegalConfig(c) && Ungated(p) && IsRun(c, p, steps)
    ensures |steps| <= 2 * |CallIds(p)|
    ensures Stuck(p, Run(c, steps)) ==> Done(p, Run(c, steps).finished)
  {
    RunsAreBounded(c, p, steps);
    if !Done(p, Run(c, steps).finished) {
      DelegationNeverDeadlocks(c, p, steps);
    }
  }

  // ---------------------------------------------------------------- what the exemption buys

  /** Delegating calls that would keep their tool slots, and the tool call each of their children makes. */
  function Boss(i: nat): Call { Call(2 * i, Tool, G.Interactive) }
  function Hand(i: nat): Call { Call(2 * i + 1, Tool, G.Interactive) }

  function Bosses(n: nat): seq<G.Waiter> { seq(n, i requires 0 <= i < n => G.Waiter(2 * i, G.Interactive)) }
  function Hands(n: nat): seq<G.Waiter> { seq(n, i requires 0 <= i < n => G.Waiter(2 * i + 1, G.Interactive)) }

  function Items(n: nat): seq<Plan> { seq(n, i requires 0 <= i < n => Holding(Boss(i), Single(Hand(i)))) }

  /** As many delegating calls at once as there are tool slots. */
  function GatedDelegation(n: nat): Plan { Parallel(n, Items(n)) }

  /** The tool gate when `i` delegating calls hold a slot and the calls of `j` children wait. */
  function Tools(i: nat, j: nat): G.State {
    G.State(Hands(j), i, 0, {}, Bosses(i) + Hands(j), Bosses(i), {})
  }

  function Steps(i: nat, j: nat): seq<Step> {
    seq(i, k requires 0 <= k < i => Request(Boss(k))) + seq(j, k requires 0 <= k < j => Request(Hand(k)))
  }

  lemma {:induction false} BossIsServed(l: G.Limits, i: nat)
    requires G.Legal(l) && i < l.capacity
    ensures G.Step(l, Tools(i, 0), G.Acquire(G.Waiter(2 * i, G.Interactive))) == Tools(i + 1, 0)
  {
    var w := G.Waiter(2 * i, G.Interactive);
    T.NewcomerIsNext(l, Tools(i, 0), w);
    assert Hands(0) == [] && Bosses(i + 1) == Bosses(i) + [w];
    assert Bosses(i) + Hands(0) + [w] == Bosses(i + 1) + Hands(0);
    assert G.Grant(G.Enqueue(Tools(i, 0), w), 0) == Tools(i + 1, 0);
    assert G.Drain(l, Tools(i + 1, 0)) == Tools(i + 1, 0);
  }

  lemma {:induction false} HandWaits(l: G.Limits, j: nat)
    requires G.Legal(l)
    ensures G.Step(l, Tools(l.capacity, j), G.Acquire(G.Waiter(2 * j + 1, G.Interactive))) == Tools(l.capacity, j + 1)
  {
    var w := G.Waiter(2 * j + 1, G.Interactive);
    assert Hands(j + 1) == Hands(j) + [w];
    assert Bosses(l.capacity) + Hands(j) + [w] == Bosses(l.capacity) + Hands(j + 1);
    assert G.Drain(l, Tools(l.capacity, j + 1)) == Tools(l.capacity, j + 1);
  }

  /** The call that item `k` is at: its own while it holds no slot, then its child's. */
  function At(k: nat, held: set<nat>): Call {
    if 2 * k in held then Hand(k) else Boss(k)
  }

  /** The ready calls are those that the items from `lo` on are at. */
  ghost predicate AllAt(ready: set<Call>, lo: nat, n: nat, held: set<nat>) {
    && (forall k: nat :: lo <= k < n ==> At(k, held) in ready)
    && (forall c :: c in ready ==> exists k: nat :: lo <= k < n && c == At(k, held))
  }

  lemma {:induction false} ReadyItems(n: nat, m: nat, held: set<nat>)
    requires m <= n
    ensures AllAt(ReadyInParallel(m, Items(n)[n - m..], {}, held), n - m, n, held)
  {
    if m > 0 {
      var items := Items(n)[n - m..];
      assert items[0] == Holding(Boss(n - m), Single(Hand(n - m))) && items[1..] == Items(n)[n - (m - 1)..];
      ReadyItems(n, m - 1, held);
      assert Ready(items[0], {}, held) == {At(n - m, held)};
      assert ReadyInParallel(m, items, {}, held) == {At(n - m, held)} + ReadyInParallel(m - 1, items[1..], {}, held);
    }
  }

  lemma {:induction false} ReadyAll(n: nat, held: set<nat>)
    ensures AllAt(Ready(GatedDelegation(n), {}, held), 0, n, held)
  {
    ReadyItems(n, n, held);
    assert Items(n)[n - n..] == Items(n);
  }

  lemma {:induction false} IdsOf(i: nat, j: nat)
    ensures forall x :: x in G.Ids(Bosses(i)) <==> exists k: nat :: k < i && x == 2 * k
    ensures forall x :: x in G.Ids(Bosses(i) + Hands(j)) <==>
      (exists k: nat :: k < i && x == 2 * k) || (exists k: nat :: k < j && x == 2 * k + 1)
  {
    forall k: nat | k < i ensures 2 * k in G.Ids(Bosses(i)) && 2 * k in G.Ids(Bosses(i) + Hands(j)) {
      assert Bosses(i)[k] in Bosses(i) && Bosses(i)[k] in Bosses(i) + Hands(j);
    }
    forall k: nat | k < j ensures 2 * k + 1 in G.Ids(Bosses(i) + Hands(j)) {
      assert Hands(j)[k] in Bosses(i) + Hands(j);
    }
  }

  lemma {:induction false} Extend(c: Config, p: Plan, steps: seq<Step>, step: Step)
    requires IsRun(c, p, steps) && Enabled(p, Run(c, steps), step)
    ensures IsRun(c, p, steps + [step]) && Run(c, steps + [step]) == Apply(c, Run(c, steps), step)
  {
    assert (steps + [step])[..|steps|] == steps;
  }

  /** The state in which `i` delegating calls hold a slot and the calls of `j` children wait. */
  function After(i: nat, j: nat): State { State(G.EMPTY, Tools(i, j), {}) }

  /** The run reaches the state. */
  predicate Reaches(c: Config, p: Plan, steps: seq<Step>, s: State) {
    IsRun(c, p, steps) && Run(c, steps) == s
  }

  lemma {:induction false} ReachesNext(c: Config, p: Plan, steps: seq<Step>, s: State, step: Step, t: State)
    requires Reaches(c, p, steps, s) && Enabled(p, s, step) && Apply(c, s, step) == t
    ensures Reaches(c, p, steps + [step], t)
  {
    Extend(c, p, steps, step);
  }

  lemma {:induction false} NothingReached(c: Config, p: Plan)
    ensures Reaches(c, p, Steps(0, 0), After(0, 0))
  {
    assert Steps(0, 0) == [] && Tools(0, 0) == G.EMPTY;
  }

  lemma {:induction false} BossIsApplied(c: Config, k: nat)
    requires LegalConfig(c) && k < c.tools.capacity
    ensures Apply(c, After(k, 0), Request(Boss(k))) == After(k + 1, 0)
  {
    BossIsServed(c.tools, k);
  }

  lemma {:induction false} BossNext(c: Config, k: nat)
    requires LegalConfig(c) && k < c.tools.capacity
    requires Reaches(c, GatedDelegation(c.tools.capacity), Steps(k, 0), After(k, 0))
    ensures Reaches(c, GatedDelegation(c.tools.capacity), Steps(k + 1, 0), After(k + 1, 0))
  {
    BossIsApplied(c, k);
    BossIsReady(c.tools.capacity, k);
    MoreSteps(k);
    ReachesNext(c, GatedDelegation(c.tools.capacity), Steps(k, 0), After(k, 0), Request(Boss(k)), After(k + 1, 0));
  }

  lemma {:induction false} MoreSteps(k: nat)
    ensures Steps(k + 1, 0) == Steps(k, 0) + [Request(Boss(k))]
  {
  }

  lemma {:induction false} BossesRun(c: Config, i: nat)
    requires LegalConfig(c) && i <= c.tools.capacity
    ensures Reaches(c, GatedDelegation(c.tools.capacity), Steps(i, 0), After(i, 0))
  {
    if i == 0 {
      NothingReached(c, GatedDelegation(c.tools.capacity));
    } else {
      BossesRun(c, i - 1);
      BossNext(c, i - 1);
    }
  }

  lemma {:induction false} BossIsReady(n: nat, k: nat)
    requires k < n
    ensures Enabled(GatedDelegation(n), After(k, 0), Request(Boss(k)))
  {
    var s := After(k, 0);
    IdsOf(k, 0);
    ReadyAll(n, HeldIds(s));
    assert 2 * k !in HeldIds(s);
    assert At(k, HeldIds(s)) == Boss(k);
  }

  lemma {:induction false} HandIsReady(n: nat, k: nat)
    requires k < n
    ensures Enabled(GatedDelegation(n), After(n, k), Request(Hand(k)))
  {
    var s := After(n, k);
    IdsOf(n, k);
    ReadyAll(n, HeldIds(s));
    assert 2 * k in HeldIds(s);
    assert At(k, HeldIds(s)) == Hand(k);
  }

  lemma {:induction false} HandIsApplied(c: Config, k: nat)
    requires LegalConfig(c) && k < c.tools.capacity
    ensures Apply(c, After(c.tools.capacity, k), Request(Hand(k))) == After(c.tools.capacity, k + 1)
  {
    HandWaits(c.tools, k);
  }

  lemma {:induction false} MoreHands(n: nat, k: nat)
    ensures Steps(n, k + 1) == Steps(n, k) + [Request(Hand(k))]
  {
  }

  lemma {:induction false} HandNext(c: Config, k: nat)
    requires LegalConfig(c) && k < c.tools.capacity
    requires var n := c.tools.capacity; Reaches(c, GatedDelegation(n), Steps(n, k), After(n, k))
    ensures var n := c.tools.capacity; Reaches(c, GatedDelegation(n), Steps(n, k + 1), After(n, k + 1))
  {
    var n := c.tools.capacity;
    HandIsApplied(c, k);
    HandIsReady(n, k);
    MoreHands(n, k);
    ReachesNext(c, GatedDelegation(n), Steps(n, k), After(n, k), Request(Hand(k)), After(n, k + 1));
  }

  lemma {:induction false} HandsRun(c: Config, j: nat)
    requires LegalConfig(c) && j <= c.tools.capacity
    ensures var n := c.tools.capacity; Reaches(c, GatedDelegation(n), Steps(n, j), After(n, j))
  {
    if j == 0 {
      BossesRun(c, c.tools.capacity);
    } else {
      HandsRun(c, j - 1);
      HandNext(c, j - 1);
    }
  }

  lemma {:induction false} AllWait(n: nat)
    requires n >= 1
    ensures var s := After(n, n);
      !Done(GatedDelegation(n), {}) && Stuck(GatedDelegation(n), s)
  {
    var p, s := GatedDelegation(n), After(n, n);
    IdsOf(n, n);
    ReadyAll(n, HeldIds(s));
    assert !Done(Items(n)[0], {});
    forall step: Step | !step.Abandon? && !step.Skip? ensures !Enabled(p, s, step) {
      if step.Finish? && step.id in G.Ids(s.tools.granted) {
        var k: nat :| k < n && step.id == 2 * k;
        assert !MayFinish(Items(n)[k], {}, 2 * k);
      }
    }
  }

  /**
    The exemption of `subagent` is needed, whatever the limits: if delegating calls kept their tool
    slots, as many of them as there are slots would reach a state in which each waits for its child
    and each child waits for a slot.
   */
  lemma {:induction false} HoldingWhileDelegatingDeadlocks(c: Config) returns (steps: seq<Step>)
    requires LegalConfig(c)
    ensures var p := GatedDelegation(c.tools.capacity);
      IsRun(c, p, steps) && !Done(p, Run(c, steps).finished) && Stuck(p, Run(c, steps))
  {
    steps := Steps(c.tools.capacity, c.tools.capacity);
    HandsRun(c, c.tools.capacity);
    AllWait(c.tools.capacity);
  }

  // ---------------------------------------------------------------- the order in which calls are reached

  /** The step of a chain whose turn it is: all before it are done. */
  predicate Turn(steps: seq<Plan>, f: set<nat>, i: nat) {
    i < |steps| && !Done(steps[i], f) && forall j :: 0 <= j < i ==> Done(steps[j], f)
  }

  /** A chain goes on with its first unfinished step and with no other: what is reached is what that step reaches. */
  lemma {:induction false} ChainsRunInOrder(steps: seq<Plan>, f: set<nat>, held: set<nat>, call: Call)
    ensures call in Ready(Chain(steps), f, held) <==>
      exists i: nat :: Turn(steps, f, i) && call in Ready(steps[i], f, held)
  {
    ChainTurn(steps, f, held, call);
  }

  lemma {:induction false} ChainTurn(steps: seq<Plan>, f: set<nat>, held: set<nat>, call: Call)
    ensures call in ReadyInChain(steps, f, held) <==>
      exists i: nat :: Turn(steps, f, i) && call in Ready(steps[i], f, held)
    decreases steps
  {
    if steps != [] {
      if Done(steps[0], f) {
        ChainTurn(steps[1..], f, held, call);
        if call in ReadyInChain(steps[1..], f, held) {
          var i: nat :| Turn(steps[1..], f, i) && call in Ready(steps[1..][i], f, held);
          assert Turn(steps, f, i + 1) && steps[i + 1] == steps[1..][i];
        }
        if i: nat :| Turn(steps, f, i) && call in Ready(steps[i], f, held) {
          assert Turn(steps[1..], f, i - 1) && steps[1..][i - 1] == steps[i];
        }
      } else if call in Ready(steps[0], f, held) {
        assert Turn(steps, f, 0);
      }
    }
  }

  /** The items not yet done. */
  function Undone(items: seq<Plan>, f: set<nat>): nat {
    if items == [] then 0 else (if Done(items[0], f) then 0 else 1) + Undone(items[1..], f)
  }

  /** An item may run: fewer than the limit of those before it are unfinished. */
  predicate MayRun(limit: nat, items: seq<Plan>, f: set<nat>, i: nat) {
    i < |items| && Undone(items[..i], f) < limit
  }

  /** Of a parallel call exactly the items run that have fewer than the limit of unfinished ones before them. */
  lemma {:induction false} ItemsRunWithinLimit(limit: nat, items: seq<Plan>, f: set<nat>, held: set<nat>, call: Call)
    ensures call in Ready(Parallel(limit, items), f, held) <==>
      exists i: nat :: MayRun(limit, items, f, i) && call in Ready(items[i], f, held)
  {
    ItemsRun(limit, items, f, held, call);
  }

  lemma {:induction false} UndoneBehind(items: seq<Plan>, f: set<nat>, i: nat)
    requires i < |items|
    ensures Undone(items[..i + 1], f) == (if Done(items[0], f) then 0 else 1) + Undone(items[1..][..i], f)
  {
    assert items[..i + 1][1..] == items[1..][..i];
  }

  lemma {:induction false} ItemsRun(limit: nat, items: seq<Plan>, f: set<nat>, held: set<nat>, call: Call)
    ensures call in ReadyInParallel(limit, items, f, held) <==>
      exists i: nat :: MayRun(limit, items, f, i) && call in Ready(items[i], f, held)
    decreases items
  {
    if items != [] && limit > 0 {
      var rest := if Done(items[0], f) then limit else limit - 1;
      ItemsRun(rest, items[1..], f, held, call);
      if i: nat :| MayRun(rest, items[1..], f, i) && call in Ready(items[1..][i], f, held) {
        UndoneBehind(items, f, i);
        assert MayRun(limit, items, f, i + 1) && items[i + 1] == items[1..][i];
      }
      if i: nat :| MayRun(limit, items, f, i) && call in Ready(items[i], f, held) {
        if i > 0 {
          UndoneBehind(items, f, i - 1);
          assert MayRun(rest, items[1..], f, i - 1) && items[1..][i - 1] == items[i];
        }
      }
      assert MayRun(limit, items, f, 0);
    }
  }
}
