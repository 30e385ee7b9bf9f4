/**
  The slot scheduler `PriorityGate` of BoBeAgent/src/execution.ts: a bounded number of
  slots, two classes of waiters, a part of the capacity that background work may not use,
  cancellation of queued waiters and release closures that act at most once.

  `State` holds the fields of the source (`pending`, `active`, `background` and the
  `released` flag of every release closure) together with the history that the
  promises speak about: who arrived, who was granted in what order, who was cancelled.
 */
module Gate {

  datatype Priority = Interactive | Background

  /** A queued request. The id stands for the identity of the waiter object. */
  datatype Waiter = Waiter(id: nat, priority: Priority)

  datatype Limits = Limits(capacity: int, reserve: int)

  /** The check of the source's constructor. */
  predicate Legal(l: Limits) {
    l.capacity >= 1 && 0 <= l.reserve < l.capacity
  }

  datatype State = State(
    pending: seq<Waiter>,
    active: int,
    background: int,
    released: set<nat>,
    arrivals: seq<Waiter>,
    granted: seq<Waiter>,
    cancelled: set<nat>)

  datatype Event =
    | Acquire(waiter: Waiter)
    | Cancel(id: nat)
    | Release(id: nat)

  const EMPTY: State := State([], 0, 0, {}, [], [], {})

  // ---------------------------------------------------------------- operations

  function FindFirst(q: seq<Waiter>, p: Priority): (i: int)
    ensures -1 <= i < |q|
    ensures i >= 0 ==> q[i].priority == p && forall j :: 0 <= j < i ==> q[j].priority != p
    ensures i < 0 ==> forall j :: 0 <= j < |q| ==> q[j].priority != p
  {
    if q == [] then -1
    else if q[0].priority == p then 0
    else
      var r := FindFirst(q[1..], p);
      if r < 0 then -1 else r + 1
  }

  /** The index the drain loop serves next, or -1. */
  function Pick(l: Limits, s: State): (i: int)
    ensures -1 <= i < |s.pending|
  {
    var i := FindFirst(s.pending, Interactive);
    if i < 0 && s.background < l.capacity - l.reserve then FindFirst(s.pending, Background) else i
  }

  function Weight(p: Priority): int {
    if p == Background then 1 else 0
  }

  function Grant(s: State, i: nat): State
    requires i < |s.pending|
  {
    var w := s.pending[i];
    s.(pending := s.pending[..i] + s.pending[i + 1..],
       active := s.active + 1,
       background := s.background + Weight(w.priority),
       granted := s.granted + [w])
  }

  /** Serves waiters while the policy finds one; all else stays as it was. */
  function Drain(l: Limits, s: State): (t: State)
    ensures t.released == s.released && t.cancelled == s.cancelled && t.arrivals == s.arrivals
    ensures s.granted <= t.granted && Ids(t.pending) <= Ids(s.pending) && Ids(s.granted) <= Ids(t.granted)
    ensures Ids(t.pending) + Ids(t.granted) == Ids(s.pending) + Ids(s.granted)
    decreases |s.pending|
  {
    var i := Pick(l, s);
    if s.active < l.capacity && i >= 0 then
      GrantMovesIds(s, i);
      Drain(l, Grant(s, i))
    else s
  }

  lemma {:induction false} GrantMovesIds(s: State, i: nat)
    requires i < |s.pending|
    ensures var t := Grant(s, i);
      && Ids(t.pending) <= Ids(s.pending) && Ids(s.granted) <= Ids(t.granted)
      && Ids(t.pending) + Ids(t.granted) == Ids(s.pending) + Ids(s.granted)
  {
    var t := Grant(s, i);
    assert s.pending == s.pending[..i] + [s.pending[i]] + s.pending[i + 1..];
    assert forall w :: w in s.pending <==> w in t.pending || w == s.pending[i];
    assert forall w :: w in t.granted <==> w in s.granted || w == s.pending[i];
  }

  function IndexOf(q: seq<Waiter>, id: nat): (i: int)
    ensures -1 <= i < |q|
    ensures i >= 0 ==> q[i].id == id
    ensures i < 0 ==> forall j :: 0 <= j < |q| ==> q[j].id != id
  {
    if q == [] then -1
    else if q[0].id == id then 0
    else
      var r := IndexOf(q[1..], id);
      if r < 0 then -1 else r + 1
  }

  function Enqueue(s: State, w: Waiter): State {
    s.(pending := s.pending + [w], arrivals := s.arrivals + [w])
  }

  function Withdraw(s: State, id: nat): State {
    var i := IndexOf(s.pending, id);
    if i < 0 then s
    else s.(pending := s.pending[..i] + s.pending[i + 1..], cancelled := s.cancelled + {id})
  }

  function GiveBack(s: State, w: Waiter): State {
    s.(active := s.active - 1,
       background := s.background - Weight(w.priority),
       released := s.released + {w.id})
  }

  function Step(l: Limits, s: State, e: Event): State {
    match e
    case Acquire(w) => Drain(l, Enqueue(s, w))
    case Cancel(id) => Drain(l, Withdraw(s, id))
    case Release(id) =>
      var i := IndexOf(s.granted, id);
      if i < 0 || id in s.released then s else Drain(l, GiveBack(s, s.granted[i]))
  }

  /** Waiter objects are new: no identity arrives twice. */
  predicate Allowed(s: State, e: Event) {
    e.Acquire? ==> e.waiter.id !in Ids(s.arrivals)
  }

  function Run(l: Limits, es: seq<Event>): State {
    if es == [] then EMPTY else Step(l, Run(l, es[..|es| - 1]), es[|es| - 1])
  }

  predicate AllowedRun(l: Limits, es: seq<Event>) {
    es == [] ||
    (AllowedRun(l, es[..|es| - 1]) && Allowed(Run(l, es[..|es| - 1]), es[|es| - 1]))
  }

  // ---------------------------------------------------------------- what every run keeps

  function Ids(q: seq<Waiter>): set<nat> {
    set w | w in q :: w.id
  }

  predicate Unique(q: seq<Waiter>) {
    forall i, j :: 0 <= i < j < |q| ==> q[i].id != q[j].id
  }

  /** Grants whose release closure has not acted. */
  function Held(s: State): set<Waiter> {
    set w | w in s.granted && w.id !in s.released
  }

  function HeldIn(s: State, p: Priority): set<Waiter> {
    set w | w in s.granted && w.id !in s.released && w.priority == p
  }

  /** Every waiter is in exactly one of pending, granted and cancelled. */
  ghost predicate Partition(s: State) {
    && Unique(s.arrivals) && Unique(s.pending) && Unique(s.granted)
    && Ids(s.pending) !! Ids(s.granted)
    && Ids(s.pending) !! s.cancelled
    && Ids(s.granted) !! s.cancelled
    && Ids(s.arrivals) == Ids(s.pending) + Ids(s.granted) + s.cancelled
  }

  ghost predicate Accounting(s: State) {
    && s.released <= Ids(s.granted)
    && s.active == |Held(s)|
    && s.background == |HeldIn(s, Background)|
  }

  ghost predicate WithinLimits(l: Limits, s: State) {
    && 0 <= s.background <= s.active <= l.capacity
    && s.background <= l.capacity - l.reserve
  }

  /** The waiters of one class, in order. */
  function OfClass(q: seq<Waiter>, p: Priority): seq<Waiter> {
    if q == [] then []
    else if q[|q| - 1].priority == p then OfClass(q[..|q| - 1], p) + [q[|q| - 1]]
    else OfClass(q[..|q| - 1], p)
  }

  function Without(q: seq<Waiter>, gone: set<nat>): seq<Waiter> {
    if q == [] then []
    else if q[|q| - 1].id in gone then Without(q[..|q| - 1], gone)
    else Without(q[..|q| - 1], gone) + [q[|q| - 1]]
  }

  /** Within a class, grants followed by the queue are the uncancelled arrivals in order. */
  ghost predicate ArrivalOrder(s: State) {
    forall p :: OfClass(s.granted, p) + OfClass(s.pending, p) == OfClass(Without(s.arrivals, s.cancelled), p)
  }

  /** No waiter that the policy could serve is left in the queue. */
  ghost predicate Quiescent(l: Limits, s: State) {
    s.active >= l.capacity || Pick(l, s) < 0
  }

  ghost predicate Core(l: Limits, s: State) {
    Partition(s) && Accounting(s) && WithinLimits(l, s) && ArrivalOrder(s)
  }

  ghost predicate Inv(l: Limits, s: State) {
    Core(l, s) && Quiescent(l, s)
  }

  // ---------------------------------------------------------------- sequence facts

  lemma {:induction false} OfClassConcat(a: seq<Waiter>, b: seq<Waiter>, p: Priority)
    ensures OfClass(a + b, p) == OfClass(a, p) + OfClass(b, p)
  {
    if b == [] {
      assert a + b == a;
    } else {
      assert (a + b)[..|a + b| - 1] == a + b[..|b| - 1];
      OfClassConcat(a, b[..|b| - 1], p);
    }
  }

  lemma {:induction false} OfClassNone(q: seq<Waiter>, p: Priority)
    requires forall j :: 0 <= j < |q| ==> q[j].priority != p
    ensures OfClass(q, p) == []
  {
    if q != [] {
      OfClassNone(q[..|q| - 1], p);
    }
  }

  lemma {:induction false} WithoutConcat(a: seq<Waiter>, b: seq<Waiter>, gone: set<nat>)
    ensures Without(a + b, gone) == Without(a, gone) + Without(b, gone)
  {
    if b == [] {
      assert a + b == a;
    } else {
      assert (a + b)[..|a + b| - 1] == a + b[..|b| - 1];
      WithoutConcat(a, b[..|b| - 1], gone);
    }
  }

  lemma {:induction false} WithoutNone(q: seq<Waiter>, gone: set<nat>)
    requires Ids(q) !! gone
    ensures Without(q, gone) == q
  {
    if q != [] {
      assert forall w :: w in q[..|q| - 1] ==> w in q;
      assert q[|q| - 1].id in Ids(q);
      WithoutNone(q[..|q| - 1], gone);
    }
  }

  lemma {:induction false} WithoutUnion(q: seq<Waiter>, a: set<nat>, b: set<nat>)
    ensures Without(q, a + b) == Without(Without(q, a), b)
  {
    if q != [] {
      var front, last := q[..|q| - 1], q[|q| - 1];
      WithoutUnion(front, a, b);
      if last.id !in a {
        WithoutConcat(Without(front, a), [last], b);
      }
    }
  }

  lemma {:induction false} OfClassWithout(q: seq<Waiter>, gone: set<nat>, p: Priority)
    ensures OfClass(Without(q, gone), p) == Without(OfClass(q, p), gone)
  {
    if q != [] {
      var front, last := q[..|q| - 1], q[|q| - 1];
      OfClassWithout(front, gone, p);
      if last.id !in gone {
        OfClassConcat(Without(front, gone), [last], p);
      }
      if last.priority == p {
        WithoutConcat(OfClass(front, p), [last], gone);
      }
    }
  }

  lemma {:induction false} OfClassMember(q: seq<Waiter>, p: Priority)
    ensures forall w :: w in OfClass(q, p) <==> w in q && w.priority == p
  {
    if q != [] {
      assert q == q[..|q| - 1] + [q[|q| - 1]];
      OfClassMember(q[..|q| - 1], p);
    }
  }

  lemma UniqueSplit(q: seq<Waiter>, i: nat)
    requires Unique(q) && i < |q|
    ensures q[i].id !in Ids(q[..i]) && q[i].id !in Ids(q[i + 1..])
  {
    forall w | w in q[..i] ensures w.id != q[i].id {
      var j :| 0 <= j < i && q[..i][j] == w;
    }
    forall w | w in q[i + 1..] ensures w.id != q[i].id {
      var j :| 0 <= j < |q| - i - 1 && q[i + 1..][j] == w;
    }
  }

  /** Taking out position `i` of a queue of unique waiters is dropping that identity. */
  lemma {:induction false} RemoveIsWithout(q: seq<Waiter>, i: nat)
    requires Unique(q) && i < |q|
    ensures q[..i] + q[i + 1..] == Without(q, {q[i].id})
  {
    var gone := {q[i].id};
    UniqueSplit(q, i);
    assert q == q[..i] + ([q[i]] + q[i + 1..]);
    WithoutConcat(q[..i], [q[i]] + q[i + 1..], gone);
    WithoutConcat([q[i]], q[i + 1..], gone);
    assert Without([q[i]], gone) == [] by {
      assert [q[i]][..0] == [];
    }
    WithoutNone(q[..i], gone);
    WithoutNone(q[i + 1..], gone);
  }

  lemma RemoveIds(q: seq<Waiter>, i: nat)
    requires Unique(q) && i < |q|
    ensures Unique(q[..i] + q[i + 1..])
    ensures Ids(q[..i] + q[i + 1..]) == Ids(q) - {q[i].id}
  {
    UniqueSplit(q, i);
    var r := q[..i] + q[i + 1..];
    assert q == q[..i] + [q[i]] + q[i + 1..];
    assert forall w :: w in q <==> w in q[..i] || w == q[i] || w in q[i + 1..];
    assert forall w :: w in r <==> w in q[..i] || w in q[i + 1..];
    forall w | w in q[..i] ensures w.id in Ids(q[..i]) {}
    forall w | w in q[i + 1..] ensures w.id in Ids(q[i + 1..]) {}
  }

  lemma IdsAppend(q: seq<Waiter>, w: Waiter)
    ensures Ids(q + [w]) == Ids(q) + {w.id}
    ensures Unique(q) && w.id !in Ids(q) ==> Unique(q + [w])
  {
    assert forall x :: x in q + [w] <==> x in q || x == w;
    assert forall j :: 0 <= j < |q| ==> q[j] in q && q[j].id in Ids(q);
  }

  lemma OfClassAppend(q: seq<Waiter>, w: Waiter, p: Priority)
    ensures OfClass(q + [w], p) == OfClass(q, p) + (if w.priority == p then [w] else [])
  {
    assert (q + [w])[..|q|] == q;
  }

  // ---------------------------------------------------------------- one grant

  lemma GrantKeepsPartition(s: State, i: nat)
    requires Partition(s) && i < |s.pending|
    ensures Partition(Grant(s, i))
    ensures s.pending[i].id !in Ids(s.granted)
  {
    var w := s.pending[i];
    assert w in s.pending && w.id in Ids(s.pending);
    RemoveIds(s.pending, i);
    IdsAppend(s.granted, w);
  }

  lemma {:induction false} HeldGrant(s: State, i: nat)
    requires Partition(s) && s.released <= Ids(s.granted) && i < |s.pending|
    ensures var w := s.pending[i];
      && w !in s.granted
      && Held(Grant(s, i)) == Held(s) + {w}
      && HeldIn(Grant(s, i), Background) == HeldIn(s, Background) + (if w.priority == Background then {w} else {})
  {
    var w := s.pending[i];
    assert w.id in Ids(s.pending) && w.id !in Ids(s.granted);
    assert forall x :: x in Grant(s, i).granted <==> x in s.granted || x == w;
  }

  lemma {:induction false} GrantKeepsAccounting(s: State, i: nat)
    requires Partition(s) && Accounting(s) && i < |s.pending|
    ensures Accounting(Grant(s, i))
  {
    IdsAppend(s.granted, s.pending[i]);
    HeldGrant(s, i);
  }

  lemma {:induction false} OfClassSplit(q: seq<Waiter>, i: nat, p: Priority)
    requires i < |q|
    ensures OfClass(q, p) == OfClass(q[..i], p) + (if q[i].priority == p then [q[i]] else []) + OfClass(q[i + 1..], p)
  {
    assert q == (q[..i] + [q[i]]) + q[i + 1..];
    OfClassConcat(q[..i] + [q[i]], q[i + 1..], p);
    OfClassAppend(q[..i], q[i], p);
  }

  lemma {:induction false} MoveOne<T>(g: seq<T>, a: seq<T>, one: seq<T>, b: seq<T>)
    requires a == [] || one == []
    ensures (g + one) + (a + b) == g + ((a + one) + b)
  {
  }

  lemma {:induction false} MoveFirstOfClass(g: seq<Waiter>, q: seq<Waiter>, i: nat, p: Priority)
    requires i < |q| && i == FindFirst(q, q[i].priority)
    ensures OfClass(g + [q[i]], p) + OfClass(q[..i] + q[i + 1..], p) == OfClass(g, p) + OfClass(q, p)
  {
    var one := if q[i].priority == p then [q[i]] else [];
    OfClassAppend(g, q[i], p);
    OfClassConcat(q[..i], q[i + 1..], p);
    OfClassSplit(q, i, p);
    if p == q[i].priority {
      OfClassNone(q[..i], p);
    }
    MoveOne(OfClass(g, p), OfClass(q[..i], p), one, OfClass(q[i + 1..], p));
  }

  /** Serving the first waiter of a class keeps arrival order in both classes. */
  lemma {:induction false} GrantKeepsOrder(s: State, i: nat)
    requires ArrivalOrder(s) && i < |s.pending|
    requires i == FindFirst(s.pending, s.pending[i].priority)
    ensures ArrivalOrder(Grant(s, i))
  {
    MoveFirstOfClass(s.granted, s.pending, i, Interactive);
    MoveFirstOfClass(s.granted, s.pending, i, Background);
  }

  lemma PickIsFirst(l: Limits, s: State)
    requires Pick(l, s) >= 0
    ensures var i := Pick(l, s); i == FindFirst(s.pending, s.pending[i].priority)
    ensures s.pending[Pick(l, s)].priority == Background ==> s.background < l.capacity - l.reserve
  {
  }

  lemma {:induction false} DrainKeeps(l: Limits, s: State)
    requires Core(l, s)
    ensures Inv(l, Drain(l, s))
    decreases |s.pending|
  {
    var i := Pick(l, s);
    if s.active < l.capacity && i >= 0 {
      PickIsFirst(l, s);
      GrantKeepsPartition(s, i);
      GrantKeepsAccounting(s, i);
      GrantKeepsOrder(s, i);
      DrainKeeps(l, Grant(s, i));
    }
  }

  // ---------------------------------------------------------------- one event

  lemma {:induction false} EnqueueKeepsOrder(s: State, w: Waiter, p: Priority)
    requires ArrivalOrder(s) && w.id !in s.cancelled
    ensures var t := Enqueue(s, w);
      OfClass(t.granted, p) + OfClass(t.pending, p) == OfClass(Without(t.arrivals, t.cancelled), p)
  {
    assert Without(s.arrivals + [w], s.cancelled) == Without(s.arrivals, s.cancelled) + [w] by {
      assert (s.arrivals + [w])[..|s.arrivals|] == s.arrivals;
    }
    OfClassAppend(s.pending, w, p);
    OfClassAppend(Without(s.arrivals, s.cancelled), w, p);
  }

  lemma {:induction false} EnqueueKeeps(l: Limits, s: State, w: Waiter)
    requires Core(l, s) && w.id !in Ids(s.arrivals)
    ensures Core(l, Enqueue(s, w))
  {
    IdsAppend(s.pending, w);
    IdsAppend(s.arrivals, w);
    EnqueueKeepsOrder(s, w, Interactive);
    EnqueueKeepsOrder(s, w, Background);
    assert Held(Enqueue(s, w)) == Held(s);
    assert HeldIn(Enqueue(s, w), Background) == HeldIn(s, Background);
  }

  lemma {:induction false} WithdrawKeepsOrder(s: State, i: nat, p: Priority)
    requires Partition(s) && ArrivalOrder(s) && i < |s.pending|
    ensures var id := s.pending[i].id;
      OfClass(s.granted, p) + OfClass(s.pending[..i] + s.pending[i + 1..], p) ==
      OfClass(Without(s.arrivals, s.cancelled + {id}), p)
  {
    var id := s.pending[i].id;
    assert s.pending[i] in s.pending && id in Ids(s.pending);
    RemoveIsWithout(s.pending, i);
    WithoutUnion(s.arrivals, s.cancelled, {id});
    WithoutNone(s.granted, {id});
    OfClassWithout(Without(s.arrivals, s.cancelled), {id}, p);
    OfClassWithout(s.granted, {id}, p);
    OfClassWithout(s.pending, {id}, p);
    WithoutConcat(OfClass(s.granted, p), OfClass(s.pending, p), {id});
  }

  lemma {:induction false} WithdrawKeepsPartition(s: State, i: nat)
    requires Partition(s) && i < |s.pending|
    ensures Partition(s.(pending := s.pending[..i] + s.pending[i + 1..], cancelled := s.cancelled + {s.pending[i].id}))
  {
    assert s.pending[i] in s.pending && s.pending[i].id in Ids(s.pending);
    RemoveIds(s.pending, i);
  }

  lemma {:induction false} WithdrawKeepsArrivals(s: State, i: nat)
    requires Partition(s) && ArrivalOrder(s) && i < |s.pending|
    ensures ArrivalOrder(
      s.(pending := s.pending[..i] + s.pending[i + 1..], cancelled := s.cancelled + {s.pending[i].id}))
  {
    WithdrawKeepsOrder(s, i, Interactive);
    WithdrawKeepsOrder(s, i, Background);
  }

  lemma {:induction false} WithdrawKeepsAccounting(s: State, i: nat)
    requires Accounting(s) && i < |s.pending|
    ensures Accounting(s.(pending := s.pending[..i] + s.pending[i + 1..], cancelled := s.cancelled + {s.pending[i].id}))
  {
    var t := s.(pending := s.pending[..i] + s.pending[i + 1..], cancelled := s.cancelled + {s.pending[i].id});
    assert Held(t) == Held(s) && HeldIn(t, Background) == HeldIn(s, Background);
  }

  lemma {:induction false} WithdrawKeeps(l: Limits, s: State, id: nat)
    requires Core(l, s)
    ensures Core(l, Withdraw(s, id))
  {
    var i := IndexOf(s.pending, id);
    if i >= 0 {
      WithdrawKeepsPartition(s, i);
      WithdrawKeepsArrivals(s, i);
      WithdrawKeepsAccounting(s, i);
    }
  }

  lemma {:induction false} GrantedById(q: seq<Waiter>, w: Waiter)
    requires Unique(q) && w in q
    ensures var i := IndexOf(q, w.id); i >= 0 && q[i] == w
  {
    assert exists j :: 0 <= j < |q| && q[j] == w;
  }

  lemma UniqueById(q: seq<Waiter>, v: Waiter, w: Waiter)
    requires Unique(q) && v in q && w in q && v.id == w.id
    ensures v == w
  {
  }

  lemma GiveBackKeeps(l: Limits, s: State, w: Waiter)
    requires Core(l, s) && w in s.granted && w.id !in s.released
    ensures Core(l, GiveBack(s, w))
  {
    var t := GiveBack(s, w);
    assert w.id in Ids(s.granted);
    forall v | v in s.granted && v.id == w.id ensures v == w {
      UniqueById(s.granted, v, w);
    }
    assert Held(t) == Held(s) - {w};
    assert HeldIn(t, Background) == HeldIn(s, Background) - (if w.priority == Background then {w} else {});
    assert HeldIn(t, Background) <= Held(t);
    SubsetCardinality(HeldIn(t, Background), Held(t));
  }

  lemma {:induction false} SubsetCardinality<T>(a: set<T>, b: set<T>)
    requires a <= b
    ensures |a| <= |b|
  {
    assert b == a + (b - a);
  }

  lemma StepKeeps(l: Limits, s: State, e: Event)
    requires Inv(l, s) && Allowed(s, e)
    ensures Inv(l, Step(l, s, e))
  {
    match e
    case Acquire(w) =>
      EnqueueKeeps(l, s, w);
      DrainKeeps(l, Enqueue(s, w));
    case Cancel(id) =>
      WithdrawKeeps(l, s, id);
      DrainKeeps(l, Withdraw(s, id));
    case Release(id) =>
      var i := IndexOf(s.granted, id);
      if i >= 0 && id !in s.released {
        GiveBackKeeps(l, s, s.granted[i]);
        DrainKeeps(l, GiveBack(s, s.granted[i]));
      }
  }
}
