/**
  Nested delegation over the two gates (BoBeAgent/src/execution.ts, `ExecutionControl`;
  BoBeAgent/src/delegation.ts, `subagentTool`). A turn is a tree of calls: a model stream
  or an ordinary tool holds one slot while it runs, while a `subagent` call runs its
  children in sequence or with bounded parallelism and holds no slot itself.

  The constructor `Holding` is what the source avoids: a call that keeps its slot while
  its children run. It is here so that the theorem can say what the choice buys.
 */
module Slots {
  import G = Gate
  import T = GateTheorems

  datatype Resource = Model | Tool

  datatype Call = Call(id: nat, resource: Resource, priority: G.Priority)

  datatype Plan =
    | Single(call: Call)
    | Chain(steps: seq<Plan>)
    | Parallel(limit: nat, items: seq<Plan>)
    | Holding(owner: Call, body: Plan)

  datatype State = State(models: G.State, tools: G.State, finished: set<nat>)

  /** `Skip` is a call that is reached and never made, as behind the failure that stops a chain. */
  datatype Step =
    | Request(call: Call)
    | Finish(resource: Resource, id: nat)
    | Abandon(resource: Resource, id: nat)
    | Skip(call: Call)

  datatype Config = Config(models: G.Limits, tools: G.Limits)

  /** The gates that `ExecutionControl` builds from the owner's limits. */
  predicate LegalConfig(c: Config) {
    G.Legal(c.models) && G.Legal(c.tools)
  }

  // ---------------------------------------------------------------- plans

  /** Limits are positive and no call keeps a slot while it waits for others. */
  predicate Ungated(p: Plan) {
    match p
    case Single(_) => true
    case Chain(steps) => forall i :: 0 <= i < |steps| ==> Ungated(steps[i])
    case Parallel(limit, items) => limit >= 1 && forall i :: 0 <= i < |items| ==> Ungated(items[i])
    case Holding(_, _) => false
  }

  predicate Done(p: Plan, f: set<nat>) {
    match p
    case Single(c) => c.id in f
    case Chain(steps) => forall i :: 0 <= i < |steps| ==> Done(steps[i], f)
    case Parallel(_, items) => forall i :: 0 <= i < |items| ==> Done(items[i], f)
    case Holding(c, _) => c.id in f
  }

  /** The calls that have been reached and have not finished. */
  function Ready(p: Plan, f: set<nat>, held: set<nat>): set<Call>
    decreases p, 1
  {
    match p
    case Single(c) => if c.id in f then {} else {c}
    case Chain(steps) => ReadyInChain(steps, f, held)
    case Parallel(limit, items) => ReadyInParallel(limit, items, f, held)
    case Holding(c, body) =>
      if c.id in f then {} else if c.id in held then Ready(body, f, held) else {c}
  }

  function ReadyInChain(steps: seq<Plan>, f: set<nat>, held: set<nat>): set<Call>
    decreases steps, 0
  {
    if steps == [] then {}
    else if Done(steps[0], f) then ReadyInChain(steps[1..], f, held)
    else Ready(steps[0], f, held)
  }

  /** Items start in order while fewer than `limit` earlier ones are unfinished. */
  function ReadyInParallel(limit: nat, items: seq<Plan>, f: set<nat>, held: set<nat>): set<Call>
    decreases items, 0
  {
    if items == [] || limit == 0 then {}
    else
      Ready(items[0], f, held) +
      ReadyInParallel(if Done(items[0], f) then limit else limit - 1, items[1..], f, held)
  }

  function CallIds(p: Plan): set<nat>
    decreases p, 1
  {
    match p
    case Single(c) => {c.id}
    case Chain(steps) => CallIdsOf(steps)
    case Parallel(_, items) => CallIdsOf(items)
    case Holding(c, body) => {c.id} + CallIds(body)
  }

  function CallIdsOf(ps: seq<Plan>): set<nat>
    decreases ps, 0
  {
    if ps == [] then {} else CallIds(ps[0]) + CallIdsOf(ps[1..])
  }

  /** A holder may give its slot back only when its body is over. */
  predicate MayFinish(p: Plan, f: set<nat>, id: nat) {
    match p
    case Single(_) => true
    case Chain(steps) => forall i :: 0 <= i < |steps| ==> MayFinish(steps[i], f, id)
    case Parallel(_, items) => forall i :: 0 <= i < |items| ==> MayFinish(items[i], f, id)
    case Holding(c, body) => (c.id == id ==> Done(body, f)) && MayFinish(body, f, id)
  }

  // ---------------------------------------------------------------- transitions

  function GateOf(s: State, r: Resource): G.State {
    if r == Model then s.models else s.tools
  }

  function LimitsOf(c: Config, r: Resource): G.Limits {
    if r == Model then c.models else c.tools
  }

  function WithGate(s: State, r: Resource, g: G.State): State {
    if r == Model then s.(models := g) else s.(tools := g)
  }

  function HeldIds(s: State): set<nat> {
    G.Ids(s.models.granted) - s.models.released + (G.Ids(s.tools.granted) - s.tools.released)
  }

  function Arrived(s: State): set<nat> {
    G.Ids(s.models.arrivals) + G.Ids(s.tools.arrivals)
  }

  predicate Enabled(p: Plan, s: State, step: Step) {
    match step
    case Request(c) => c in Ready(p, s.finished, HeldIds(s)) && c.id !in Arrived(s)
    case Finish(r, id) =>
      var g := GateOf(s, r);
      id in G.Ids(g.granted) && id !in g.released && MayFinish(p, s.finished, id)
    case Abandon(r, id) => id in G.Ids(GateOf(s, r).pending)
    case Skip(c) => c in Ready(p, s.finished, HeldIds(s)) && c.id !in Arrived(s)
  }

  function Apply(c: Config, s: State, step: Step): State {
    match step
    case Request(call) =>
      var w := G.Waiter(call.id, call.priority);
      WithGate(s, call.resource, G.Step(LimitsOf(c, call.resource), GateOf(s, call.resource), G.Acquire(w)))
    case Finish(r, id) =>
      WithGate(s, r, G.Step(LimitsOf(c, r), GateOf(s, r), G.Release(id))).(finished := s.finished + {id})
    case Abandon(r, id) =>
      WithGate(s, r, G.Step(LimitsOf(c, r), GateOf(s, r), G.Cancel(id))).(finished := s.finished + {id})
    case Skip(call) => s.(finished := s.finished + {call.id})
  }

  const START: State := State(G.EMPTY, G.EMPTY, {})

  function Run(c: Config, steps: seq<Step>): State {
    if steps == [] then START else Apply(c, Run(c, steps[..|steps| - 1]), steps[|steps| - 1])
  }

  predicate IsRun(c: Config, p: Plan, steps: seq<Step>) {
    steps == [] ||
    (IsRun(c, p, steps[..|steps| - 1]) && Enabled(p, Run(c, steps[..|steps| - 1]), steps[|steps| - 1]))
  }

  /** Nothing can happen any more except giving up. */
  ghost predicate Stuck(p: Plan, s: State) {
    forall step: Step :: !step.Abandon? && !step.Skip? ==> !Enabled(p, s, step)
  }

  // ---------------------------------------------------------------- invariant

  /** What a gate knows about the calls that went through it. */
  ghost predicate GateAgrees(p: Plan, g: G.State, f: set<nat>) {
    && g.released <= f && g.cancelled <= f
    && G.Ids(g.pending) !! f
    && (G.Ids(g.granted) - g.released) !! f
    && G.Ids(g.arrivals) <= CallIds(p)
  }

  ghost predicate Inv(c: Config, p: Plan, s: State) {
    && G.Inv(c.models, s.models) && G.Inv(c.tools, s.tools)
    && GateAgrees(p, s.models, s.finished) && GateAgrees(p, s.tools, s.finished)
    && G.Ids(s.models.arrivals) !! G.Ids(s.tools.arrivals)
  }

  // ---------------------------------------------------------------- progress of a plan

  lemma {:induction false} ReadyIsFresh(p: Plan, f: set<nat>, held: set<nat>)
    ensures forall c :: c in Ready(p, f, held) ==> c.id !in f && c.id in CallIds(p)
    decreases p, 1
  {
    match p
    case Single(_) =>
    case Chain(steps) => ReadyInChainIsFresh(steps, f, held);
    case Parallel(limit, items) => ReadyInParallelIsFresh(limit, items, f, held);
    case Holding(_, body) => ReadyIsFresh(body, f, held);
  }

  lemma {:induction false} ReadyInChainIsFresh(steps: seq<Plan>, f: set<nat>, held: set<nat>)
    ensures forall c :: c in ReadyInChain(steps, f, held) ==> c.id !in f && c.id in CallIdsOf(steps)
    decreases steps, 0
  {
    if steps != [] {
      ReadyIsFresh(steps[0], f, held);
      ReadyInChainIsFresh(steps[1..], f, held);
    }
  }

  lemma {:induction false} ReadyInParallelIsFresh(limit: nat, items: seq<Plan>, f: set<nat>, held: set<nat>)
    ensures forall c :: c in ReadyInParallel(limit, items, f, held) ==> c.id !in f && c.id in CallIdsOf(items)
    decreases items, 0
  {
    if items != [] && limit != 0 {
      ReadyIsFresh(items[0], f, held);
      ReadyInParallelIsFresh(if Done(items[0], f) then limit else limit - 1, items[1..], f, held);
    }
  }

  /** An unfinished plan without holders always has a call to make. */
  lemma {:induction false} UnfinishedIsReady(p: Plan, f: set<nat>, held: set<nat>)
    requires Ungated(p) && !Done(p, f)
    ensures Ready(p, f, held) != {}
    decreases p, 1
  {
    match p
    case Single(c) => assert c in Ready(p, f, held);
    case Chain(steps) => UnfinishedChainIsReady(steps, f, held);
    case Parallel(limit, items) => UnfinishedParallelIsReady(limit, items, f, held);
  }

  lemma {:induction false} UnfinishedChainIsReady(steps: seq<Plan>, f: set<nat>, held: set<nat>)
    requires forall i :: 0 <= i < |steps| ==> Ungated(steps[i])
    requires exists i :: 0 <= i < |steps| && !Done(steps[i], f)
    ensures ReadyInChain(steps, f, held) != {}
    decreases steps, 0
  {
    if Done(steps[0], f) {
      var i :| 0 <= i < |steps| && !Done(steps[i], f);
      assert steps[1..][i - 1] == steps[i];
      UnfinishedChainIsReady(steps[1..], f, held);
    } else {
      UnfinishedIsReady(steps[0], f, held);
    }
  }

  lemma {:induction false} UnfinishedParallelIsReady(limit: nat, items: seq<Plan>, f: set<nat>, held: set<nat>)
    requires limit >= 1 && forall i :: 0 <= i < |items| ==> Ungated(items[i])
    requires exists i :: 0 <= i < |items| && !Done(items[i], f)
    ensures ReadyInParallel(limit, items, f, held) != {}
    decreases items, 0
  {
    if Done(items[0], f) {
      var i :| 0 <= i < |items| && !Done(items[i], f);
      assert items[1..][i - 1] == items[i];
      UnfinishedParallelIsReady(limit, items[1..], f, held);
    } else {
      UnfinishedIsReady(items[0], f, held);
      var c :| c in Ready(items[0], f, held);
      assert c in ReadyInParallel(limit, items, f, held);
    }
  }

  lemma {:induction false} UngatedMayFinish(p: Plan, f: set<nat>, id: nat)
    requires Ungated(p)
    ensures MayFinish(p, f, id)
  {
    match p
    case Single(_) =>
    case Chain(steps) =>
      forall i | 0 <= i < |steps| ensures MayFinish(steps[i], f, id) { UngatedMayFinish(steps[i], f, id); }
    case Parallel(_, items) =>
      forall i | 0 <= i < |items| ensures MayFinish(items[i], f, id) { UngatedMayFinish(items[i], f, id); }
  }

  // ---------------------------------------------------------------- invariance

  /** Draining moves ids from the queue to the grants, so it keeps the agreement. */
  lemma {:induction false} DrainAgrees(l: G.Limits, p: Plan, g: G.State, f: set<nat>)
    requires G.Partition(g) && GateAgrees(p, g, f)
    ensures GateAgrees(p, G.Drain(l, g), f) && G.Drain(l, g).arrivals == g.arrivals
  {
    var t := G.Drain(l, g);
    assert G.Ids(t.granted) <= G.Ids(g.pending) + G.Ids(g.granted);
  }

  lemma {:induction false} RequestAgrees(l: G.Limits, p: Plan, g: G.State, f: set<nat>, w: G.Waiter)
    requires G.Inv(l, g) && GateAgrees(p, g, f)
    requires w.id !in G.Ids(g.arrivals) && w.id !in f && w.id in CallIds(p)
    ensures GateAgrees(p, G.Step(l, g, G.Acquire(w)), f)
    ensures G.Ids(G.Step(l, g, G.Acquire(w)).arrivals) == G.Ids(g.arrivals) + {w.id}
  {
    G.EnqueueKeeps(l, g, w);
    G.IdsAppend(g.pending, w);
    G.IdsAppend(g.arrivals, w);
    DrainAgrees(l, p, G.Enqueue(g, w), f);
  }

  lemma FinishAgrees(l: G.Limits, p: Plan, g: G.State, f: set<nat>, id: nat)
    requires G.Inv(l, g) && GateAgrees(p, g, f)
    requires id in G.Ids(g.granted) && id !in g.released
    ensures GateAgrees(p, G.Step(l, g, G.Release(id)), f + {id})
    ensures G.Ids(G.Step(l, g, G.Release(id)).arrivals) == G.Ids(g.arrivals)
  {
    var i := G.IndexOf(g.granted, id);
    assert i >= 0;
    var b := G.GiveBack(g, g.granted[i]);
    G.GiveBackKeeps(l, g, g.granted[i]);
  }

  lemma AbandonAgrees(l: G.Limits, p: Plan, g: G.State, f: set<nat>, id: nat)
    requires G.Inv(l, g) && GateAgrees(p, g, f)
    requires id in G.Ids(g.pending)
    ensures GateAgrees(p, G.Step(l, g, G.Cancel(id)), f + {id})
    ensures G.Ids(G.Step(l, g, G.Cancel(id)).arrivals) == G.Ids(g.arrivals)
  {
    T.CancelGrantsNothing(l, g, id);
    var i := G.IndexOf(g.pending, id);
    assert i >= 0;
    G.RemoveIds(g.pending, i);
  }

  /** Calls that went through the other gate are untouched by an id that finished here. */
  lemma OtherAgrees(p: Plan, l: G.Limits, g: G.State, f: set<nat>, id: nat)
    requires G.Inv(l, g) && GateAgrees(p, g, f) && id !in G.Ids(g.arrivals)
    ensures GateAgrees(p, g, f + {id})
  {
  }

  lemma StepKeeps(c: Config, p: Plan, s: State, step: Step)
    requires Inv(c, p, s) && Enabled(p, s, step)
    ensures Inv(c, p, Apply(c, s, step))
  {
    match step
    case Request(call) =>
      ReadyIsFresh(p, s.finished, HeldIds(s));
      var w := G.Waiter(call.id, call.priority);
      var l, g := LimitsOf(c, call.resource), GateOf(s, call.resource);
      G.StepKeeps(l, g, G.Acquire(w));
      RequestAgrees(l, p, g, s.finished, w);
    case Finish(r, id) =>
      var l, g := LimitsOf(c, r), GateOf(s, r);
      G.StepKeeps(l, g, G.Release(id));
      FinishAgrees(l, p, g, s.finished, id);
      if r == Model { OtherAgrees(p, c.tools, s.tools, s.finished, id); }
      else { OtherAgrees(p, c.models, s.models, s.finished, id); }
    case Abandon(r, id) =>
      var l, g := LimitsOf(c, r), GateOf(s, r);
      G.StepKeeps(l, g, G.Cancel(id));
      AbandonAgrees(l, p, g, s.finished, id);
      if r == Model { OtherAgrees(p, c.tools, s.tools, s.finished, id); }
      else { OtherAgrees(p, c.models, s.models, s.finished, id); }
    case Skip(call) =>
      OtherAgrees(p, c.models, s.models, s.finished, call.id);
      OtherAgrees(p, c.tools, s.tools, s.finished, call.id);
  }

  lemma {:induction false} RunKeeps(c: Config, p: Plan, steps: seq<Step>)
    requires LegalConfig(c) && IsRun(c, p, steps)
    ensures Inv(c, p, Run(c, steps))
  {
    if steps == [] {
      T.RunKeeps(c.models, []);
      T.RunKeeps(c.tools, []);
    } else {
      RunKeeps(c, p, steps[..|steps| - 1]);
      StepKeeps(c, p, Run(c, steps[..|steps| - 1]), steps[|steps| - 1]);
    }
  }
}
