/**
  Turns and the runs delegated inside them (BoBeAgent/src/sessions.ts: `context`, the end of
  `execute`, `delegate`, `release`). Every turn has one counter of children and one list of cleanup
  faults; a child's `current` copies its parent's references to them. Any number of turns run at once.
 */
module DelegationTree {
  import opened Common

  datatype Outcome = Success | Ordinary | Fault(fault: nat)

  datatype Phase =
    | Creating             // `delegate` has counted it and creates its session
    | Running
    | Ended(outcome: Outcome)
    | Gone                 // released, or never created; `delegate` has settled

  /**
    `turn` and `parent` are indices of nodes; a turn's own node is its own parent. `shared` is the reference to
    counter and list.
   */
  datatype Node = Node(turn: nat, parent: nat, depth: nat, shared: nat, phase: Phase)

  datatype State = State(nodes: seq<Node>, counts: map<nat, nat>, faults: map<nat, seq<nat>>)

  /**
    How a run enters: its session may fail to be created, and its signal may be aborted already, in
    which case it throws before the block whose `finally` looks at the faults.
   */
  datatype Entry = NotCreated | AbortedAtEntry | Entered

  datatype Step =
    | Begin(aborted: bool)
    | Delegate(parent: nat)
    | Created(node: nat, entry: Entry)
    | End(node: nat, ok: bool, cleanup: Option<nat>)
    | Release(node: nat, cleanup: Option<nat>)

  const START: State := State([], map[], map[])

  const MAX_CHILDREN: nat := 16
  const MAX_DEPTH: nat := 2

  // ---------------------------------------------------------------- steps

  predicate At(s: State, n: nat, phase: Phase) {
    n < |s.nodes| && s.nodes[n].phase == phase
  }

  predicate Root(s: State, n: nat) {
    n < |s.nodes| && s.nodes[n].parent == n
  }

  function SetPhase(s: State, n: nat, phase: Phase): State
    requires n < |s.nodes|
  {
    s.(nodes := s.nodes[n := s.nodes[n].(phase := phase)])
  }

  /** `current.faults.push`, when the cleanup failed. */
  function Record(s: State, shared: nat, cleanup: Option<nat>): State {
    if cleanup.None? || shared !in s.faults then s
    else s.(faults := s.faults[shared := s.faults[shared] + [cleanup.value]])
  }

  function Count(s: State, shared: nat): nat {
    if shared in s.counts then s.counts[shared] else 0
  }

  function Faults(s: State, shared: nat): seq<nat> {
    if shared in s.faults then s.faults[shared] else []
  }

  /** Past either limit the call throws before it counts. */
  function DoDelegate(s: State, parent: nat): State
    requires parent < |s.nodes|
  {
    var p := s.nodes[parent];
    if p.depth >= MAX_DEPTH || Count(s, p.shared) >= MAX_CHILDREN then s
    else s.(nodes := s.nodes + [Node(p.turn, parent, p.depth + 1, p.shared, Creating)],
            counts := s.counts[p.shared := Count(s, p.shared) + 1])
  }

  /**
    The `finally` of `execute`: a failed cleanup is recorded, and the first recorded fault is thrown, whoever
    recorded it.
   */
  function DoEnd(s: State, n: nat, ok: bool, cleanup: Option<nat>): State
    requires n < |s.nodes|
  {
    var shared := s.nodes[n].shared;
    var r := Record(s, shared, cleanup);
    SetPhase(r, n, Ended(
      if Faults(r, shared) != [] then Fault(Faults(r, shared)[0]) else if ok then Success else Ordinary))
  }

  function DoRelease(s: State, n: nat, cleanup: Option<nat>): State
    requires n < |s.nodes|
  {
    SetPhase(Record(s, s.nodes[n].shared, cleanup), n, Gone)
  }

  predicate ChildrenGone(s: State, n: nat) {
    forall i :: 0 <= i < |s.nodes| && s.nodes[i].parent == n && i != n ==> s.nodes[i].phase == Gone
  }

  /** A run settles after its tool calls, so a parent ends after `delegate` has settled for each of its children. */
  predicate Enabled(s: State, step: Step) {
    match step
    case Begin(_) => true
    case Delegate(p) => At(s, p, Running)
    case Created(n, _) => At(s, n, Creating)
    case End(n, _, _) => At(s, n, Running) && ChildrenGone(s, n)
    case Release(n, _) => n < |s.nodes| && s.nodes[n].phase.Ended? && !Root(s, n)
  }

  function Enters(entry: Entry): Phase {
    match entry
    case NotCreated => Gone
    case AbortedAtEntry => Ended(Ordinary)
    case Entered => Running
  }

  function NewTurn(n: nat, aborted: bool): Node {
    Node(n, n, 0, n, if aborted then Ended(Ordinary) else Running)
  }

  function Apply(s: State, step: Step): State
    requires Enabled(s, step)
  {
    match step
    case Begin(aborted) =>
      var n := |s.nodes|;
      State(s.nodes + [NewTurn(n, aborted)], s.counts[n := 0], s.faults[n := []])
    case Delegate(p) => DoDelegate(s, p)
    case Created(n, entry) => SetPhase(s, n, Enters(entry))
    case End(n, ok, cleanup) => DoEnd(s, n, ok, cleanup)
    case Release(n, cleanup) => DoRelease(s, n, cleanup)
  }

  // ---------------------------------------------------------------- invariant

  /** The tree below each turn: one reference for all of it, depth at most two. */
  ghost predicate NodeOk(s: State, i: nat)
    requires i < |s.nodes|
  {
    var n := s.nodes[i];
    && n.turn < |s.nodes| && s.nodes[n.turn].parent == n.turn
    && n.shared == n.turn && n.depth <= MAX_DEPTH
    && (if n.parent == i then n.turn == i && n.depth == 0
        else n.parent < i && s.nodes[n.parent].turn == n.turn && n.depth == s.nodes[n.parent].depth + 1)
  }

  ghost predicate TreeOk(s: State) {
    && (forall i :: 0 <= i < |s.nodes| ==> NodeOk(s, i))
    && (forall i :: 0 <= i < |s.nodes| ==> (s.nodes[i].turn in s.faults && s.nodes[i].turn in s.counts))
    && (forall r :: r in s.faults || r in s.counts ==> r < |s.nodes|)
  }

  /** A child lives inside the run of its parent. */
  ghost predicate Nested(s: State) {
    forall i :: 0 <= i < |s.nodes| && s.nodes[i].phase != Gone && i != s.nodes[i].parent < |s.nodes| ==>
      s.nodes[s.nodes[i].parent].phase == Running
  }

  /** The children created in the turn `r`, at any depth. */
  function Children(nodes: seq<Node>, r: nat): nat {
    if nodes == [] then 0
    else
      var last := |nodes| - 1;
      Children(nodes[..last], r) + (if nodes[last].turn == r && nodes[last].parent != last then 1 else 0)
  }

  ghost predicate CountsOk(s: State) {
    forall r :: r in s.counts ==> s.counts[r] == Children(s.nodes, r) <= MAX_CHILDREN
  }

  /**
    A turn that has ended threw its first recorded fault, if there is one, and an ordinary outcome only if there is
    none.
   */
  ghost predicate OutcomesOk(s: State) {
    forall r :: 0 <= r < |s.nodes| && Root(s, r) && s.nodes[r].phase.Ended? ==>
      var faults := Faults(s, s.nodes[r].shared);
      if faults == [] then !s.nodes[r].phase.outcome.Fault? else s.nodes[r].phase.outcome == Fault(faults[0])
  }

  /** A turn is never released by a delegation: it runs, or has ended. */
  ghost predicate RootsOk(s: State) {
    forall r: nat :: Root(s, r) ==> s.nodes[r].phase.Running? || s.nodes[r].phase.Ended?
  }

  ghost predicate Inv(s: State) {
    TreeOk(s) && Nested(s) && CountsOk(s) && OutcomesOk(s) && RootsOk(s)
  }

  // ---------------------------------------------------------------- every step keeps it

  lemma {:induction false} ChildrenSame(a: seq<Node>, b: seq<Node>, r: nat)
    requires |a| == |b| && forall i :: 0 <= i < |a| ==> a[i].turn == b[i].turn && a[i].parent == b[i].parent
    ensures Children(a, r) == Children(b, r)
  {
    if a != [] {
      ChildrenSame(a[..|a| - 1], b[..|b| - 1], r);
    }
  }

  lemma {:induction false} ChildrenAppend(a: seq<Node>, n: Node, r: nat)
    ensures Children(a + [n], r) == Children(a, r) + (if n.turn == r && n.parent != |a| then 1 else 0)
  {
    assert (a + [n])[..|a|] == a;
  }

  lemma {:induction false} NoChildrenYet(nodes: seq<Node>, r: nat)
    requires forall i :: 0 <= i < |nodes| ==> nodes[i].turn != r
    ensures Children(nodes, r) == 0
  {
    if nodes != [] {
      NoChildrenYet(nodes[..|nodes| - 1], r);
    }
  }

  /** A node is added to the tree: the nodes before it stay as they were. */
  lemma {:induction false} AppendKeepsTree(s: State, t: State, node: Node)
    requires TreeOk(s) && t.nodes == s.nodes + [node] && NodeOk(t, |s.nodes|)
    requires s.counts.Keys <= t.counts.Keys <= s.counts.Keys + {node.turn}
    requires s.faults.Keys <= t.faults.Keys <= s.faults.Keys + {node.turn}
    requires node.turn in t.counts && node.turn in t.faults
    ensures TreeOk(t)
  {
    forall i | 0 <= i < |t.nodes| ensures NodeOk(t, i) {
      if i < |s.nodes| {
        assert NodeOk(s, i) && t.nodes[i] == s.nodes[i];
      }
    }
  }

  lemma {:induction false} AppendKeepsPhases(s: State, t: State, node: Node)
    requires TreeOk(s) && Nested(s) && OutcomesOk(s) && RootsOk(s)
    requires t.nodes == s.nodes + [node] && NodeOk(t, |s.nodes|)
    requires forall r: nat :: r < |s.nodes| && Root(s, r) ==> Faults(t, r) == Faults(s, r)
    requires if node.parent == |s.nodes|
      then node.phase == Running || (node.phase == Ended(Ordinary) && Faults(t, node.shared) == [])
             else s.nodes[node.parent].phase == Running
    ensures Nested(t) && OutcomesOk(t) && RootsOk(t)
  {
    forall i: nat | i < |s.nodes| ensures t.nodes[i] == s.nodes[i] && (Root(t, i) <==> Root(s, i)) && NodeOk(s, i) {
    }
    assert forall r: nat :: Root(t, r) ==> r == |s.nodes| || Root(s, r);
    assert forall r: nat :: Root(s, r) ==> NodeOk(s, r) && s.nodes[r].shared == r;
  }

  lemma {:induction false} BeginKeeps(s: State, aborted: bool)
    requires Inv(s)
    ensures Inv(Apply(s, Begin(aborted)))
  {
    var t := Apply(s, Begin(aborted));
    var n := |s.nodes|;
    var node := NewTurn(n, aborted);
    AppendKeepsTree(s, t, node);
    assert forall r: nat :: Root(s, r) ==> Faults(t, r) == Faults(s, r);
    AppendKeepsPhases(s, t, node);
    BeginCounts(s, aborted);
  }

  lemma {:induction false} BeginCounts(s: State, aborted: bool)
    requires Inv(s)
    ensures CountsOk(Apply(s, Begin(aborted)))
  {
    var t := Apply(s, Begin(aborted));
    var n := |s.nodes|;
    assert forall i :: 0 <= i < n ==> NodeOk(s, i);
    NoChildrenYet(s.nodes, n);
    forall r | r in t.counts ensures t.counts[r] == Children(t.nodes, r) {
      ChildrenAppend(s.nodes, NewTurn(n, aborted), r);
    }
  }

  lemma {:induction false} DelegateKeeps(s: State, p: nat)
    requires Inv(s) && At(s, p, Running)
    ensures Inv(DoDelegate(s, p))
  {
    var t := DoDelegate(s, p);
    if t != s {
      var node := Node(s.nodes[p].turn, p, s.nodes[p].depth + 1, s.nodes[p].shared, Creating);
      assert NodeOk(s, p);
      assert NodeOk(t, |s.nodes|);
      AppendKeepsTree(s, t, node);
      AppendKeepsPhases(s, t, node);
      DelegateCounts(s, p, node);
    }
  }

  lemma {:induction false} DelegateCounts(s: State, p: nat, node: Node)
    requires Inv(s) && At(s, p, Running) && DoDelegate(s, p) != s && DoDelegate(s, p).nodes == s.nodes + [node]
    requires node.turn == s.nodes[p].turn == s.nodes[p].shared && node.parent == p
    ensures CountsOk(DoDelegate(s, p))
  {
    var t := DoDelegate(s, p);
    assert NodeOk(s, p);
    forall r | r in t.counts ensures t.counts[r] == Children(t.nodes, r) {
      ChildrenAppend(s.nodes, node, r);
    }
  }

  /** Only the phase of one node, and the faults, change: tree and counts stay. */
  lemma {:induction false} PhaseKeepsTree(s: State, t: State, n: nat, phase: Phase)
    requires TreeOk(s) && CountsOk(s) && n < |s.nodes|
    requires t.nodes == s.nodes[n := s.nodes[n].(phase := phase)] && t.counts == s.counts
    requires t.faults.Keys == s.faults.Keys
    ensures TreeOk(t) && CountsOk(t)
    ensures forall r: nat :: Root(t, r) <==> Root(s, r)
  {
    forall i | 0 <= i < |t.nodes| ensures NodeOk(t, i) {
      assert NodeOk(s, i);
    }
    forall r | r in t.counts ensures t.counts[r] == Children(t.nodes, r) {
      ChildrenSame(s.nodes, t.nodes, r);
    }
  }

  /** While some node below a turn is not gone, the turn still runs. */
  lemma {:induction false} TurnRuns(s: State, i: nat)
    requires TreeOk(s) && Nested(s) && i < |s.nodes| && s.nodes[i].phase != Gone
    requires !Root(s, i)
    ensures s.nodes[s.nodes[i].turn].phase == Running
    decreases i
  {
    assert NodeOk(s, i);
    var p := s.nodes[i].parent;
    assert NodeOk(s, p);
    if !Root(s, p) {
      TurnRuns(s, p);
    }
  }

  lemma {:induction false} CreatedKeeps(s: State, n: nat, entry: Entry)
    requires Inv(s) && At(s, n, Creating)
    ensures Inv(Apply(s, Created(n, entry)))
  {
    var t := Apply(s, Created(n, entry));
    PhaseKeepsTree(s, t, n, t.nodes[n].phase);
  }

  /** A fault recorded in a running turn leaves the outcomes of the ended turns as they were. */
  lemma {:induction false} RecordKeepsOutcomes(s: State, n: nat, cleanup: Option<nat>)
    requires Inv(s) && n < |s.nodes| && s.nodes[s.nodes[n].turn].phase == Running
    ensures OutcomesOk(Record(s, s.nodes[n].shared, cleanup))
  {
    var t := Record(s, s.nodes[n].shared, cleanup);
    forall r | 0 <= r < |t.nodes| && Root(t, r) && t.nodes[r].phase.Ended?
      ensures Faults(t, t.nodes[r].shared) == Faults(s, s.nodes[r].shared)
    {
      assert NodeOk(s, r) && NodeOk(s, n) && Root(s, r);
    }
  }

  lemma {:induction false} EndKeeps(s: State, n: nat, ok: bool, cleanup: Option<nat>)
    requires Inv(s) && At(s, n, Running) && ChildrenGone(s, n)
    ensures Inv(DoEnd(s, n, ok, cleanup))
  {
    var t := DoEnd(s, n, ok, cleanup);
    PhaseKeepsTree(s, t, n, t.nodes[n].phase);
    EndOutcomes(s, n, ok, cleanup);
    EndNested(s, n, ok, cleanup);
  }

  lemma {:induction false} EndNested(s: State, n: nat, ok: bool, cleanup: Option<nat>)
    requires Inv(s) && At(s, n, Running) && ChildrenGone(s, n)
    ensures Nested(DoEnd(s, n, ok, cleanup)) && RootsOk(DoEnd(s, n, ok, cleanup))
  {
    var t := DoEnd(s, n, ok, cleanup);
    assert forall r: nat :: Root(t, r) <==> Root(s, r);
  }

  lemma {:induction false} EndOutcomes(s: State, n: nat, ok: bool, cleanup: Option<nat>)
    requires Inv(s) && At(s, n, Running)
    ensures OutcomesOk(DoEnd(s, n, ok, cleanup))
  {
    assert NodeOk(s, n);
    if !Root(s, n) { TurnRuns(s, n); }
    RecordKeepsOutcomes(s, n, cleanup);
    assert forall r: nat :: Root(DoEnd(s, n, ok, cleanup), r) <==> Root(s, r);
  }

  lemma {:induction false} ReleaseKeeps(s: State, n: nat, cleanup: Option<nat>)
    requires Inv(s) && Enabled(s, Release(n, cleanup))
    ensures Inv(DoRelease(s, n, cleanup))
  {
    var t := DoRelease(s, n, cleanup);
    PhaseKeepsTree(s, t, n, Gone);
    TurnRuns(s, n);
    RecordKeepsOutcomes(s, n, cleanup);
    ReleaseNested(s, n, cleanup);
  }

  lemma {:induction false} ReleaseNested(s: State, n: nat, cleanup: Option<nat>)
    requires Inv(s) && Enabled(s, Release(n, cleanup))
    ensures Nested(DoRelease(s, n, cleanup))
  {
  }

  lemma {:induction false} StepKeeps(s: State, step: Step)
    requires Inv(s) && Enabled(s, step)
    ensures Inv(Apply(s, step))
  {
    match step
    case Begin(aborted) => BeginKeeps(s, aborted);
    case Delegate(p) => DelegateKeeps(s, p);
    case Created(n, entry) => CreatedKeeps(s, n, entry);
    case End(n, ok, cleanup) => EndKeeps(s, n, ok, cleanup);
    case Release(n, cleanup) => ReleaseKeeps(s, n, cleanup);
  }

  // ---------------------------------------------------------------- runs

  ghost predicate IsRun(states: seq<State>, steps: seq<Step>) {
    && |states| == |steps| + 1
    && states[0] == START
    && forall i {:trigger steps[i]} :: 0 <= i < |steps| ==>
         Enabled(states[i], steps[i]) && states[i + 1] == Apply(states[i], steps[i])
  }

  lemma {:induction false} RunKeeps(states: seq<State>, steps: seq<Step>, n: nat)
    requires IsRun(states, steps) && n < |states|
    ensures Inv(states[n])
  {
    if n > 0 {
      RunKeeps(states, steps, n - 1);
      StepKeeps(states[n - 1], steps[n - 1]);
    }
  }

  /** A turn creates at most sixteen children over its whole tree, none deeper than two. */
  lemma {:induction false} TurnsAreBounded(states: seq<State>, steps: seq<Step>, n: nat, i: nat)
    requires IsRun(states, steps) && n < |states| && i < |states[n].nodes|
    ensures Children(states[n].nodes, states[n].nodes[i].turn) <= 16
    ensures states[n].nodes[i].depth <= 2
  {
    RunKeeps(states, steps, n);
    assert NodeOk(states[n], i);
  }

  /**
    A turn that has ended threw a worker fault if and only if its list is not empty, and nothing of its tree is left
    to add to it.
   */
  lemma {:induction false} EndedTurnIsWhole(states: seq<State>, steps: seq<Step>, n: nat, r: nat)
    requires IsRun(states, steps) && n < |states| && Root(states[n], r) && states[n].nodes[r].phase.Ended?
    ensures states[n].nodes[r].phase.outcome.Fault? <==> Faults(states[n], r) != []
    ensures forall i :: 0 <= i < |states[n].nodes| && states[n].nodes[i].turn == r && i != r ==>
      states[n].nodes[i].phase == Gone
  {
    RunKeeps(states, steps, n);
    var s := states[n];
    assert NodeOk(s, r);
    forall i | 0 <= i < |s.nodes| && s.nodes[i].turn == r && i != r ensures s.nodes[i].phase == Gone {
      assert NodeOk(s, i);
      if s.nodes[i].phase != Gone {
        TurnRuns(s, i);
      }
    }
  }

  /** The faults a step records: those of the failed cleanup, in the turn of the run that failed. */
  predicate Records(s: State, step: Step, r: nat) {
    match step
    case End(n, _, cleanup) => cleanup.Some? && n < |s.nodes| && s.nodes[n].turn == r
    case Release(n, cleanup) => cleanup.Some? && n < |s.nodes| && s.nodes[n].turn == r
    case _ => false
  }

  /** A failed cleanup reaches the list of its own turn, through every copy of the reference, and no other. */
  lemma {:induction false} FaultsReachTheirTurn(s: State, step: Step, r: nat)
    requires Inv(s) && Enabled(s, step) && Root(s, r)
    ensures Faults(Apply(s, step), r) == Faults(s, r) + (if Records(s, step, r) then [step.cleanup.value] else [])
  {
    assert NodeOk(s, r);
    if step.End? || step.Release? {
      assert NodeOk(s, step.node);
    }
  }

  /** Some step of the run so far recorded a failed cleanup in the tree of the turn. */
  predicate Recorded(states: seq<State>, steps: seq<Step>, n: nat, r: nat)
    requires |states| == |steps| + 1 && n < |states|
  {
    exists k :: 0 <= k < n && Root(states[k], r) && Records(states[k], steps[k], r)
  }

  lemma {:induction false} RecordedLater(states: seq<State>, steps: seq<Step>, n: nat, r: nat)
    requires |states| == |steps| + 1 && n < |steps|
    ensures Recorded(states, steps, n + 1, r) <==>
      Recorded(states, steps, n, r) || (Root(states[n], r) && Records(states[n], steps[n], r))
  {
  }

  /** The list of a turn is empty exactly as long as no step has recorded a failed cleanup in it. */
  lemma {:induction false} FaultsAreThoseRecorded(states: seq<State>, steps: seq<Step>, n: nat, r: nat)
    requires IsRun(states, steps) && n < |states| && Root(states[n], r)
    ensures Faults(states[n], r) != [] <==> Recorded(states, steps, n, r)
  {
    if n > 0 {
      RunKeeps(states, steps, n - 1);
      RecordedLater(states, steps, n - 1, r);
      if Root(states[n - 1], r) {
        FaultsAreThoseRecorded(states, steps, n - 1, r);
        FaultsReachTheirTurn(states[n - 1], steps[n - 1], r);
      } else {
        NewTurnHasNone(states[n - 1], steps[n - 1], r);
        NoRootBefore(states, steps, n - 1, r);
      }
    }
  }

  lemma {:induction false} NewTurnHasNone(s: State, step: Step, r: nat)
    requires Inv(s) && Enabled(s, step) && !Root(s, r) && Root(Apply(s, step), r)
    ensures r == |s.nodes| && Faults(Apply(s, step), r) == []
  {
    if !step.Begin? { SameRoots(s, step, r); }
  }

  lemma {:induction false} SameRoots(s: State, step: Step, r: nat)
    requires Inv(s) && Enabled(s, step) && !step.Begin?
    ensures Root(Apply(s, step), r) ==> Root(s, r)
  {
  }

  lemma {:induction false} RootsStay(s: State, step: Step, r: nat)
    requires Enabled(s, step) && Root(s, r)
    ensures Root(Apply(s, step), r)
  {
  }

  lemma {:induction false} NoRootBefore(states: seq<State>, steps: seq<Step>, n: nat, r: nat)
    requires IsRun(states, steps) && n < |states| && !Root(states[n], r)
    ensures forall k :: 0 <= k <= n ==> !Root(states[k], r)
  {
    if n > 0 {
      if Root(states[n - 1], r) { RootsStay(states[n - 1], steps[n - 1], r); }
      NoRootBefore(states, steps, n - 1, r);
    }
  }

  /** An ended turn threw a worker fault if and only if some step of the run recorded a failed cleanup in its tree. */
  lemma {:induction false} TurnFaultsExactly(states: seq<State>, steps: seq<Step>, n: nat, r: nat)
    requires IsRun(states, steps) && n < |states| && Root(states[n], r) && states[n].nodes[r].phase.Ended?
    ensures states[n].nodes[r].phase.outcome.Fault? <==> Recorded(states, steps, n, r)
    ensures forall i :: 0 <= i < |states[n].nodes| && states[n].nodes[i].turn == r && i != r ==>
      states[n].nodes[i].phase == Gone
  {
    EndedTurnIsWhole(states, steps, n, r);
    FaultsAreThoseRecorded(states, steps, n, r);
  }

  /** The step brings the run of the node to its end. */
  predicate Finishes(s: State, step: Step, n: nat) {
    && Enabled(s, step) && n < |Apply(s, step).nodes| && Apply(s, step).nodes[n].phase.Ended?
    && (n < |s.nodes| ==> !s.nodes[n].phase.Ended?)
  }

  /**
    A run that reaches its `finally` throws the first fault recorded in its turn, its own included,
    and with none recorded it succeeds exactly when its body did; one aborted at its entry ends in an
    ordinary error. So once a cleanup of a turn has failed, no later run of the turn succeeds.
   */
  lemma {:induction false} NoSuccessAfterAFault(s: State, step: Step, n: nat)
    requires Inv(s) && Finishes(s, step, n)
    ensures var t := Apply(s, step);
      var outcome, faults := t.nodes[n].phase.outcome, Faults(t, t.nodes[n].turn);
      && (outcome.Fault? <==> step.End? && (Faults(s, t.nodes[n].turn) != [] || step.cleanup.Some?))
      && (outcome.Fault? ==> faults != [] && outcome.fault == faults[0])
      && (Faults(s, t.nodes[n].turn) != [] ==> outcome != Success)
      && (step.End? && faults == [] ==> (outcome == Success <==> step.ok))
      && (!step.End? ==> outcome == Ordinary)
  {
    if n < |s.nodes| { assert NodeOk(s, n); }
  }

  // ---------------------------------------------------------------- the life of a run

  predicate Runs(s: State, i: nat) {
    i < |s.nodes| && s.nodes[i].phase.Running?
  }

  predicate IsGone(s: State, i: nat) {
    i < |s.nodes| && s.nodes[i].phase.Gone?
  }

  /** The step begins the run: a turn's own, or a child's whose session was created. */
  predicate Starts(s: State, step: Step, i: nat) {
    (step == Begin(false) && i == |s.nodes|) || step == Created(i, Entered)
  }

  predicate Stops(step: Step, i: nat) {
    step.End? && step.node == i
  }

  /** `delegate` settles for this child: it was released, or never created. */
  predicate Settles(step: Step, i: nat) {
    step == Created(i, NotCreated) || (step.Release? && step.node == i)
  }

  lemma {:induction false} LifeStep(s: State, step: Step, i: nat)
    requires Enabled(s, step)
    ensures Runs(Apply(s, step), i) <==> (Runs(s, i) && !Stops(step, i)) || Starts(s, step, i)
    ensures IsGone(Apply(s, step), i) <==> IsGone(s, i) || Settles(step, i)
  {
  }

  /** Step `k` began the run and none has ended it since. */
  ghost predicate GoesOn(states: seq<State>, steps: seq<Step>, n: nat, i: nat, k: nat)
    requires |states| == |steps| + 1
  {
    k < n <= |steps| && Starts(states[k], steps[k], i) && forall j :: k < j < n ==> !Stops(steps[j], i)
  }

  /** A run goes on from the step that begins it to the one that ends it. */
  lemma {:induction false} RunsExactly(states: seq<State>, steps: seq<Step>, n: nat, i: nat)
    requires IsRun(states, steps) && n < |states|
    ensures Runs(states[n], i) <==> exists k :: GoesOn(states, steps, n, i, k)
  {
    if n > 0 {
      RunsExactly(states, steps, n - 1, i);
      LifeStep(states[n - 1], steps[n - 1], i);
      if Starts(states[n - 1], steps[n - 1], i) {
        assert GoesOn(states, steps, n, i, n - 1);
      } else if Runs(states[n], i) {
        var k :| GoesOn(states, steps, n - 1, i, k);
        assert GoesOn(states, steps, n, i, k);
      } else if k :| GoesOn(states, steps, n, i, k) {
        assert GoesOn(states, steps, n - 1, i, k);
      }
    }
  }

  /** A child is gone exactly once `delegate` has settled for it. */
  lemma {:induction false} GoneExactly(states: seq<State>, steps: seq<Step>, n: nat, i: nat)
    requires IsRun(states, steps) && n < |states|
    ensures IsGone(states[n], i) <==> exists k :: 0 <= k < n && Settles(steps[k], i)
  {
    if n > 0 {
      GoneExactly(states, steps, n - 1, i);
      LifeStep(states[n - 1], steps[n - 1], i);
    }
  }

  /** A call of `delegate` makes a child exactly within both limits, one level deeper in the same turn. */
  lemma {:induction false} DelegateExactly(s: State, p: nat)
    requires Inv(s) && Runs(s, p)
    ensures Enabled(s, Delegate(p))
    ensures var t := Apply(s, Delegate(p));
      if s.nodes[p].depth < 2 && Children(s.nodes, s.nodes[p].turn) < 16
      then
        && |t.nodes| == |s.nodes| + 1 && t.nodes[..|s.nodes|] == s.nodes && At(t, |s.nodes|, Creating)
        && t.nodes[|s.nodes|].parent == p && t.nodes[|s.nodes|].turn == s.nodes[p].turn
        && t.nodes[|s.nodes|].depth == s.nodes[p].depth + 1
      else t == s
  {
    assert NodeOk(s, p);
  }

  /** How far a run is from being settled. */
  function Distance(phase: Phase): nat {
    match phase
    case Creating => 3
    case Running => 2
    case Ended(_) => 1
    case Gone => 0
  }

  /** The last node of the turn that is not gone, from `i` on. */
  lemma {:induction false} LastAlive(s: State, r: nat, i: nat) returns (last: nat)
    requires i < |s.nodes| && s.nodes[i].turn == r && s.nodes[i].phase != Gone
    ensures last < |s.nodes| && s.nodes[last].turn == r && s.nodes[last].phase != Gone
    ensures forall j :: last < j < |s.nodes| && s.nodes[j].turn == r ==> s.nodes[j].phase == Gone
    decreases |s.nodes| - i
  {
    if j: nat :| i < j < |s.nodes| && s.nodes[j].turn == r && s.nodes[j].phase != Gone {
      last := LastAlive(s, r, j);
    } else {
      last := i;
    }
  }

  /** While a turn runs, some run of its tree can take a step that brings it nearer to its end, without delegating. */
  lemma {:induction false} TurnCanGoOn(s: State, r: nat) returns (step: Step, i: nat)
    requires Inv(s) && Root(s, r) && Runs(s, r)
    ensures !step.Begin? && !step.Delegate? && Enabled(s, step) && i < |s.nodes| && s.nodes[i].turn == r
    ensures |Apply(s, step).nodes| == |s.nodes|
    ensures Distance(Apply(s, step).nodes[i].phase) < Distance(s.nodes[i].phase)
    ensures forall j :: 0 <= j < |s.nodes| && j != i ==> Apply(s, step).nodes[j] == s.nodes[j]
  {
    assert NodeOk(s, r);
    i := LastAlive(s, r, r);
    assert NodeOk(s, i);
    forall j | 0 <= j < |s.nodes| && s.nodes[j].parent == i && i != j ensures s.nodes[j].phase == Gone {
      assert NodeOk(s, j);
    }
    match s.nodes[i].phase
    case Creating => step := Created(i, NotCreated);
    case Running => step := End(i, true, None);
    case Ended(_) => step := Release(i, None);
  }

  /** What ends has not ended before. */
  lemma {:induction false} NoStopBefore(states: seq<State>, steps: seq<Step>, n: nat, r: nat)
    requires IsRun(states, steps) && n < |states| && (r >= |states[n].nodes| || Runs(states[n], r))
    requires r < |states[n].nodes| ==> Root(states[n], r)
    ensures forall k :: 0 <= k < n ==> !Stops(steps[k], r)
  {
    if n > 0 {
      RunKeeps(states, steps, n - 1);
      assert Enabled(states[n - 1], steps[n - 1]);
      NoStopBefore(states, steps, n - 1, r);
    }
  }

  predicate HasEnded(s: State, r: nat) {
    r < |s.nodes| && s.nodes[r].phase.Ended?
  }

  /** The run has ended by a step whose body went well. */
  predicate WentWell(steps: seq<Step>, n: nat, r: nat)
    requires n <= |steps|
  {
    exists k :: 0 <= k < n && Stops(steps[k], r) && steps[k].ok
  }

  lemma {:induction false} WentWellLater(steps: seq<Step>, n: nat, r: nat)
    requires n < |steps|
    ensures WentWell(steps, n + 1, r) <==> WentWell(steps, n, r) || (Stops(steps[n], r) && steps[n].ok)
  {
  }

  /** The outcome of a turn without faults is that of its one end. */
  lemma {:induction false} OutcomeIsOfItsEnd(states: seq<State>, steps: seq<Step>, n: nat, r: nat)
    requires IsRun(states, steps) && n < |states| && Root(states[n], r) && HasEnded(states[n], r)
    requires !states[n].nodes[r].phase.outcome.Fault?
    ensures states[n].nodes[r].phase.outcome == Success <==> WentWell(steps, n, r)
  {
    if n > 0 {
      var s, step := states[n - 1], steps[n - 1];
      RunKeeps(states, steps, n - 1);
      WentWellLater(steps, n - 1, r);
      if HasEnded(s, r) {
        EndedStays(s, step, r);
        OutcomeIsOfItsEnd(states, steps, n - 1, r);
      } else {
        EndedNow(s, step, r);
        NoStopBefore(states, steps, n - 1, r);
      }
    }
  }

  lemma {:induction false} EndedStays(s: State, step: Step, r: nat)
    requires Enabled(s, step) && HasEnded(s, r) && Root(Apply(s, step), r)
    ensures Root(s, r) && Apply(s, step).nodes[r].phase == s.nodes[r].phase && !Stops(step, r)
  {
  }

  lemma {:induction false} EndedNow(s: State, step: Step, r: nat)
    requires Inv(s) && Enabled(s, step) && !HasEnded(s, r) && Root(Apply(s, step), r) && HasEnded(Apply(s, step), r)
    ensures r < |s.nodes| ==> Runs(s, r) && Root(s, r)
    ensures var outcome := Apply(s, step).nodes[r].phase.outcome;
      !outcome.Fault? ==> (outcome == Success <==> Stops(step, r) && step.ok)
  {
    if !step.Begin? { SameRoots(s, step, r); }
  }

  /** An ended turn succeeded if and only if its own run went well and no step recorded a failed cleanup in its tree. */
  lemma {:induction false} TurnSucceedsExactly(states: seq<State>, steps: seq<Step>, n: nat, r: nat)
    requires IsRun(states, steps) && n < |states| && Root(states[n], r) && states[n].nodes[r].phase.Ended?
    ensures states[n].nodes[r].phase.outcome == Success <==>
      WentWell(steps, n, r) && !Recorded(states, steps, n, r)
  {
    TurnFaultsExactly(states, steps, n, r);
    if !states[n].nodes[r].phase.outcome.Fault? { OutcomeIsOfItsEnd(states, steps, n, r); }
  }
}
