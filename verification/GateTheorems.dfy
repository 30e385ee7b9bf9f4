/** What the slot scheduler promises over every run: capacity, order, no lost wakeup, the reserve, bounded waiting. */
module GateTheorems {
  import opened Gate

  /** Capacity, accounting, partition, arrival order and work conservation hold after every run. */
  lemma {:induction false} RunKeeps(l: Limits, es: seq<Event>)
    requires Legal(l) && AllowedRun(l, es)
    ensures Inv(l, Run(l, es))
  {
    if es == [] {
      assert Held(EMPTY) == {} && HeldIn(EMPTY, Background) == {};
    } else {
      RunKeeps(l, es[..|es| - 1]);
      StepKeeps(l, Run(l, es[..|es| - 1]), es[|es| - 1]);
    }
  }

  // ---------------------------------------------------------------- consequences

  /** No wakeup is lost: with no slot held the queue is empty. */
  lemma IdleMeansEmpty(l: Limits, s: State)
    requires Legal(l) && Inv(l, s) && Held(s) == {}
    ensures s.pending == []
  {
    assert HeldIn(s, Background) <= Held(s);
  }

  /** Work conservation, stated without the scheduler: who may still be waiting, and why. */
  lemma WaitingIsJustified(l: Limits, s: State, w: Waiter)
    requires Inv(l, s) && w in s.pending
    ensures |Held(s)| == l.capacity ||
            (w.priority == Background && |HeldIn(s, Background)| == l.capacity - l.reserve)
  {
  }

  lemma {:induction false} RoomForInteractive(l: Limits, s: State)
    requires Legal(l) && Inv(l, s) && |HeldIn(s, Interactive)| < l.reserve
    ensures s.active < l.capacity && Pick(l, s) < 0
  {
    assert Held(s) == HeldIn(s, Interactive) + HeldIn(s, Background);
  }

  /** When no waiter can be served, an interactive newcomer is next, and its grant leaves the queue as it was. */
  lemma {:induction false} NewcomerIsNext(l: Limits, s: State, w: Waiter)
    requires Pick(l, s) < 0 && w.priority == Interactive
    ensures Pick(l, Enqueue(s, w)) == |s.pending|
    ensures Grant(Enqueue(s, w), |s.pending|) ==
      s.(active := s.active + 1, arrivals := s.arrivals + [w], granted := s.granted + [w])
  {
    var t := Enqueue(s, w);
    var n := |s.pending|;
    assert t.pending[n] == w;
    assert forall j :: 0 <= j < n ==> t.pending[j] == s.pending[j];
    assert FindFirst(t.pending, Interactive) == n;
    assert t.pending[..n] + t.pending[n + 1..] == s.pending;
  }

  /** An interactive request that finds fewer than `reserve` interactive slots in use is served at once. */
  lemma {:induction false} ReserveServesInteractive(l: Limits, s: State, w: Waiter)
    requires Legal(l) && Inv(l, s)
    requires w.priority == Interactive && w.id !in Ids(s.arrivals)
    requires |HeldIn(s, Interactive)| < l.reserve
    ensures w in Held(Step(l, s, Acquire(w)))
    ensures Step(l, s, Acquire(w)).pending == s.pending
  {
    RoomForInteractive(l, s);
    NewcomerIsNext(l, s, w);
    var g := Grant(Enqueue(s, w), |s.pending|);
    assert Pick(l, g) < 0;
    assert Drain(l, g) == g;
    assert w.id !in Ids(s.granted);
    assert w in g.granted;
  }

  /** Withdrawing a queued waiter never lets another one through. */
  lemma CancelGrantsNothing(l: Limits, s: State, id: nat)
    requires Inv(l, s)
    ensures Step(l, s, Cancel(id)) == Withdraw(s, id)
  {
    var i := IndexOf(s.pending, id);
    if i >= 0 {
      var t := Withdraw(s, id);
      assert forall w :: w in t.pending ==> w in s.pending;
      if t.active < l.capacity && Pick(l, t) >= 0 {
        assert false;
      }
    }
  }

  /** A release closure called again changes nothing. */
  lemma ReleaseIsIdempotent(l: Limits, s: State, id: nat)
    requires Inv(l, s) && id in Ids(s.granted)
    ensures Step(l, Step(l, s, Release(id)), Release(id)) == Step(l, s, Release(id))
  {
  }

  // ---------------------------------------------------------------- bounded waiting

  /** The waiters of one class queued before `id`. */
  function Ahead(q: seq<Waiter>, id: nat, p: Priority): nat {
    if q == [] || q[0].id == id then 0
    else (if q[0].priority == p then 1 else 0) + Ahead(q[1..], id, p)
  }

  function RunFrom(l: Limits, s: State, es: seq<Event>): State
    decreases |es|
  {
    if es == [] then s else RunFrom(l, Step(l, s, es[0]), es[1..])
  }

  predicate AllowedFrom(l: Limits, s: State, es: seq<Event>)
    decreases |es|
  {
    es == [] || (Allowed(s, es[0]) && AllowedFrom(l, Step(l, s, es[0]), es[1..]))
  }

  /** The event frees a slot that is in use. */
  predicate Frees(s: State, e: Event) {
    e.Release? && e.id in Ids(s.granted) && e.id !in s.released
  }

  function SlotsFreed(l: Limits, s: State, es: seq<Event>): nat
    decreases |es|
  {
    if es == [] then 0
    else (if Frees(s, es[0]) then 1 else 0) + SlotsFreed(l, Step(l, s, es[0]), es[1..])
  }

  lemma {:induction false} AheadAppend(q: seq<Waiter>, x: Waiter, id: nat, p: Priority)
    requires id in Ids(q)
    ensures Ahead(q + [x], id, p) == Ahead(q, id, p)
  {
    if q[0].id != id {
      assert q == [q[0]] + q[1..];
      assert (q + [x])[1..] == q[1..] + [x];
      AheadAppend(q[1..], x, id, p);
    }
  }

  lemma {:induction false} AheadRemoveHead(q: seq<Waiter>, w: Waiter, p: Priority)
    requires Unique(q) && w in q && q[0] != w && w.priority == p
    ensures var r := q[..0] + q[1..];
      && Ahead(r, w.id, p) <= Ahead(q, w.id, p)
      && (0 == FindFirst(q, p) ==> Ahead(r, w.id, p) + 1 == Ahead(q, w.id, p))
  {
    assert q[..0] + q[1..] == q[1..];
    assert q[0].id != w.id;
  }

  lemma {:induction false} TailFacts(q: seq<Waiter>, i: nat, w: Waiter)
    requires Unique(q) && 0 < i < |q| && w in q && q[i] != w && q[0].id != w.id
    ensures Unique(q[1..]) && w in q[1..] && q[1..][i - 1] != w
  {
    assert q == [q[0]] + q[1..];
    assert forall j :: 0 <= j < |q| - 1 ==> q[1..][j] == q[j + 1];
  }

  /** Past a head that stays, removal at `i` is removal at `i - 1` in the rest. */
  lemma {:induction false} AheadSkip(q: seq<Waiter>, i: nat, id: nat, p: Priority)
    requires 0 < i < |q| && q[0].id != id
    ensures var r, r' := q[..i] + q[i + 1..], q[1..][..i - 1] + q[1..][i..];
      Ahead(r, id, p) == (if q[0].priority == p then 1 else 0) + Ahead(r', id, p)
  {
    var r := q[..i] + q[i + 1..];
    assert r[0] == q[0];
    assert r[1..] == q[1..][..i - 1] + q[1..][i..];
  }

  lemma {:induction false} FirstBehindHead(q: seq<Waiter>, i: nat, p: Priority)
    requires 0 < i < |q| && i == FindFirst(q, p)
    ensures i - 1 == FindFirst(q[1..], p) && q[0].priority != p
  {
  }

  lemma {:induction false} AheadRemove(q: seq<Waiter>, i: nat, w: Waiter, p: Priority)
    requires Unique(q) && i < |q| && w in q && q[i] != w && w.priority == p
    ensures var r := q[..i] + q[i + 1..];
      && Ahead(r, w.id, p) <= Ahead(q, w.id, p)
      && (i == FindFirst(q, p) ==> Ahead(r, w.id, p) + 1 == Ahead(q, w.id, p))
  {
    if i == 0 {
      AheadRemoveHead(q, w, p);
    } else if q[0].id != w.id {
      TailFacts(q, i, w);
      AheadSkip(q, i, w.id, p);
      if i == FindFirst(q, p) { FirstBehindHead(q, i, p); }
      AheadRemove(q[1..], i - 1, w, p);
    } else {
      UniqueById(q, q[0], w);
    }
  }

  /** One event never moves a queued interactive waiter back, and a freed slot moves it forward. */
  lemma {:induction false} StepMovesForward(l: Limits, s: State, e: Event, w: Waiter)
    requires Legal(l) && Inv(l, s) && Allowed(s, e)
    requires w in s.pending && w.priority == Interactive
    requires w in Step(l, s, e).pending
    ensures Ahead(Step(l, s, e).pending, w.id, Interactive) +
      (if Frees(s, e) then 1 else 0) <= Ahead(s.pending, w.id, Interactive)
  {
    assert s.active == l.capacity;
    assert w.id in Ids(s.pending);
    match e
    case Acquire(x) =>
      assert Step(l, s, e) == Enqueue(s, x);
      AheadAppend(s.pending, x, w.id, Interactive);
    case Cancel(id) =>
      CancelGrantsNothing(l, s, id);
      var i := IndexOf(s.pending, id);
      if i >= 0 {
        if s.pending[i] == w {
          UniqueSplit(s.pending, i);
          assert false;
        }
        AheadRemove(s.pending, i, w, Interactive);
      }
    case Release(id) =>
      if Frees(s, e) {
        var g := GiveBack(s, s.granted[IndexOf(s.granted, id)]);
        var i := FindFirst(s.pending, Interactive);
        assert Step(l, s, e) == Drain(l, g) == Drain(l, Grant(g, i)) == Grant(g, i);
        if s.pending[i] == w {
          UniqueSplit(s.pending, i);
          assert false;
        }
        AheadRemove(s.pending, i, w, Interactive);
      }
  }

  lemma {:induction false} DrainNeverQueues(l: Limits, s: State)
    ensures forall w :: w in Drain(l, s).pending ==> w in s.pending
    decreases |s.pending|
  {
    var i := Pick(l, s);
    if s.active < l.capacity && i >= 0 {
      DrainNeverQueues(l, Grant(s, i));
    }
  }

  /** A waiter that has left the queue is never queued again. */
  lemma {:induction false} LeftForGood(l: Limits, s: State, es: seq<Event>, w: Waiter)
    requires Inv(l, s) && AllowedFrom(l, s, es)
    requires w in s.arrivals && w !in s.pending
    ensures w !in RunFrom(l, s, es).pending
    decreases |es|
  {
    if es != [] {
      var t := Step(l, s, es[0]);
      StepKeeps(l, s, es[0]);
      match es[0] {
        case Acquire(x) =>
          assert w.id in Ids(s.arrivals);
          DrainNeverQueues(l, Enqueue(s, x));
        case Cancel(id) =>
          DrainNeverQueues(l, Withdraw(s, id));
        case Release(id) =>
          var i := IndexOf(s.granted, id);
          if i >= 0 && id !in s.released {
            DrainNeverQueues(l, GiveBack(s, s.granted[i]));
          }
      }
      LeftForGood(l, t, es[1..], w);
    }
  }

  /**
    Bounded waiting: whatever else happens, an interactive waiter with `k` interactive
    waiters ahead of it leaves the queue within `k + 1` freed slots.
   */
  lemma {:induction false} BoundedWaiting(l: Limits, s: State, es: seq<Event>, w: Waiter)
    requires Legal(l) && Inv(l, s) && AllowedFrom(l, s, es)
    requires w in s.pending && w.priority == Interactive
    requires SlotsFreed(l, s, es) > Ahead(s.pending, w.id, Interactive)
    ensures w !in RunFrom(l, s, es).pending
    decreases |es|
  {
    var t := Step(l, s, es[0]);
    StepKeeps(l, s, es[0]);
    if w in t.pending {
      StepMovesForward(l, s, es[0], w);
      BoundedWaiting(l, t, es[1..], w);
    } else {
      StepRemembers(l, s, es[0]);
      InArrivals(s, w);
      LeftForGood(l, t, es[1..], w);
    }
  }

  // ---------------------------------------------------------------- background waiters

  /** After a release at most one waiter is granted: the one the policy picks. */
  lemma {:induction false} ReleaseGrantsOne(l: Limits, s: State, w: Waiter)
    requires Legal(l) && Inv(l, s)
    ensures var g := GiveBack(s, w);
      Drain(l, g) == if Pick(l, g) >= 0 then Grant(g, Pick(l, g)) else g
  {
    var g := GiveBack(s, w);
    var i := Pick(l, g);
    if i >= 0 {
      var t := Grant(g, i);
      assert forall x :: x in t.pending ==> x in s.pending;
      assert Drain(l, g) == Drain(l, t);
      assert t.active == s.active;
      if s.active < l.capacity {
        assert t.background == s.background;
        assert Pick(l, t) < 0;
      }
    }
  }

  /** All interactive waiters, and the background waiters queued before `id`. */
  function AheadOfBackground(q: seq<Waiter>, id: nat): nat {
    |OfClass(q, Interactive)| + Ahead(q, id, Background)
  }

  /** The event frees a slot held by background work. */
  predicate FreesBackground(s: State, e: Event) {
    Frees(s, e) && IndexOf(s.granted, e.id) >= 0 && s.granted[IndexOf(s.granted, e.id)].priority == Background
  }

  /**
    Taking out any other waiter never moves a background waiter back, and taking out the one the policy picks moves
    it forward.
   */
  lemma {:induction false} RemovalMovesForward(q: seq<Waiter>, i: nat, w: Waiter)
    requires Unique(q) && i < |q| && w in q && q[i] != w && w.priority == Background
    ensures var r := q[..i] + q[i + 1..];
      && AheadOfBackground(r, w.id) <= AheadOfBackground(q, w.id)
      && (i == FindFirst(q, Interactive) || i == FindFirst(q, Background) ==>
            AheadOfBackground(r, w.id) + 1 <= AheadOfBackground(q, w.id))
  {
    AheadRemove(q, i, w, Background);
    OfClassSplit(q, i, Interactive);
    OfClassConcat(q[..i], q[i + 1..], Interactive);
  }

  /**
    Without interactive arrivals no event moves a background waiter back, and a freed background slot moves it
    forward.
   */
  lemma {:induction false} StepMovesBackground(l: Limits, s: State, e: Event, w: Waiter)
    requires Legal(l) && Inv(l, s) && Allowed(s, e) && !(e.Acquire? && e.waiter.priority == Interactive)
    requires w in s.pending && w.priority == Background && w in Step(l, s, e).pending
    ensures AheadOfBackground(Step(l, s, e).pending, w.id) +
      (if FreesBackground(s, e) then 1 else 0) <= AheadOfBackground(s.pending, w.id)
  {
    match e
    case Acquire(x) => ArrivalBehind(l, s, x, w);
    case Cancel(id) =>
      CancelGrantsNothing(l, s, id);
      var i := IndexOf(s.pending, id);
      if i >= 0 {
        StaysMeansOther(s.pending, i, w);
        RemovalMovesForward(s.pending, i, w);
      }
    case Release(id) =>
      if Frees(s, e) { ReleaseMovesBackground(l, s, id, w); }
  }

  lemma {:induction false} StaysMeansOther(q: seq<Waiter>, i: nat, w: Waiter)
    requires Unique(q) && i < |q| && w in q[..i] + q[i + 1..]
    ensures q[i] != w
  {
    UniqueSplit(q, i);
  }

  lemma {:induction false} ArrivalBehind(l: Limits, s: State, x: Waiter, w: Waiter)
    requires Legal(l) && Inv(l, s) && x.priority == Background && w in s.pending && w.priority == Background
    ensures AheadOfBackground(Step(l, s, Acquire(x)).pending, w.id) == AheadOfBackground(s.pending, w.id)
  {
    var t := Enqueue(s, x);
    if s.active < l.capacity {
      assert forall v :: v in t.pending ==> v.priority == Background;
      assert Pick(l, t) < 0;
    }
    assert Drain(l, t) == t;
    assert w.id in Ids(s.pending);
    AheadAppend(s.pending, x, w.id, Background);
    OfClassAppend(s.pending, x, Interactive);
  }

  lemma {:induction false} ReleaseMovesBackground(l: Limits, s: State, id: nat, w: Waiter)
    requires Legal(l) && Inv(l, s) && Frees(s, Release(id))
    requires w in s.pending && w.priority == Background && w in Step(l, s, Release(id)).pending
    ensures AheadOfBackground(Step(l, s, Release(id)).pending, w.id) +
      (if FreesBackground(s, Release(id)) then 1 else 0)
            <= AheadOfBackground(s.pending, w.id)
  {
    var held := s.granted[IndexOf(s.granted, id)];
    var g := GiveBack(s, held);
    ReleaseGrantsOne(l, s, held);
    var i := Pick(l, g);
    if i >= 0 {
      PickIsFirst(l, g);
      StaysMeansOther(s.pending, i, w);
      RemovalMovesForward(s.pending, i, w);
    }
  }

  predicate NoInteractiveArrivals(es: seq<Event>) {
    forall i :: 0 <= i < |es| ==> !(es[i].Acquire? && es[i].waiter.priority == Interactive)
  }

  function BackgroundFreed(l: Limits, s: State, es: seq<Event>): nat
    decreases |es|
  {
    if es == [] then 0
    else (if FreesBackground(s, es[0]) then 1 else 0) + BackgroundFreed(l, Step(l, s, es[0]), es[1..])
  }

  /**
    While no interactive request arrives, a background waiter leaves the queue within one freed
    background slot for each interactive waiter and each background waiter before it, and one more.
   */
  lemma {:induction false} BackgroundIsServed(l: Limits, s: State, es: seq<Event>, w: Waiter)
    requires Legal(l) && Inv(l, s) && AllowedFrom(l, s, es) && NoInteractiveArrivals(es)
    requires w in s.pending && w.priority == Background
    requires BackgroundFreed(l, s, es) > AheadOfBackground(s.pending, w.id)
    ensures w !in RunFrom(l, s, es).pending
    decreases |es|
  {
    var t := Step(l, s, es[0]);
    StepKeeps(l, s, es[0]);
    if w in t.pending {
      StepMovesBackground(l, s, es[0], w);
      BackgroundIsServed(l, t, es[1..], w);
    } else {
      StepRemembers(l, s, es[0]);
      InArrivals(s, w);
      LeftForGood(l, t, es[1..], w);
    }
  }

  lemma {:induction false} UnusedId(q: seq<Waiter>) returns (id: nat)
    ensures forall i :: 0 <= i < |q| ==> q[i].id < id
  {
    if q == [] {
      id := 0;
    } else {
      id := UnusedId(q[1..]);
      if id <= q[0].id { id := q[0].id + 1; }
    }
  }

  /** With all slots held, one interactive arrival takes the next slot to be freed from a background waiter. */
  lemma {:induction false} ArrivalOvertakes(l: Limits, s: State, w: Waiter) returns (x: Waiter, id: nat)
    requires Legal(l) && Inv(l, s) && s.active == l.capacity && w in s.pending && w.priority == Background
    ensures var a := Step(l, s, Acquire(x));
      var r := Step(l, a, Release(id));
      && Allowed(s, Acquire(x)) && Frees(a, Release(id))
      && Inv(l, r) && r.active == l.capacity && w in r.pending
  {
    var unused := UnusedId(s.arrivals);
    x := Waiter(unused, Interactive);
    assert unused !in Ids(s.arrivals);
    var a := Enqueue(s, x);
    assert Step(l, s, Acquire(x)) == a;
    StepKeeps(l, s, Acquire(x));
    assert Held(s) != {};
    var h :| h in Held(s);
    id := h.id;
    assert h in a.granted && id in Ids(a.granted);
    GrantedById(a.granted, h);
    StepKeeps(l, a, Release(id));
    ReleaseGrantsOne(l, a, h);
    var i := Pick(l, GiveBack(a, h));
    assert a.pending[|s.pending|] == x;
    assert i >= 0 && a.pending[i].priority == Interactive;
    OtherStays(a.pending, i, w);
  }

  lemma {:induction false} OtherStays(q: seq<Waiter>, i: nat, w: Waiter)
    requires i < |q| && w in q && q[i] != w
    ensures w in q[..i] + q[i + 1..]
  {
    assert q == q[..i] + [q[i]] + q[i + 1..];
  }

  /** Under interactive arrivals a background waiter can be passed over any number of times. */
  lemma {:induction false} BackgroundCanStarve(l: Limits, s: State, w: Waiter, n: nat) returns (es: seq<Event>)
    requires Legal(l) && Inv(l, s) && s.active == l.capacity && w in s.pending && w.priority == Background
    ensures AllowedFrom(l, s, es) && SlotsFreed(l, s, es) >= n && w in RunFrom(l, s, es).pending
    decreases n
  {
    if n == 0 {
      es := [];
    } else {
      var x, id := ArrivalOvertakes(l, s, w);
      var a := Step(l, s, Acquire(x));
      var rest := BackgroundCanStarve(l, Step(l, a, Release(id)), w, n - 1);
      var tail := [Release(id)] + rest;
      assert tail[1..] == rest;
      es := [Acquire(x)] + tail;
      assert es[1..] == tail;
    }
  }

  // ---------------------------------------------------------------- histories

  lemma {:induction false} StepRemembers(l: Limits, s: State, e: Event)
    ensures var t := Step(l, s, e);
      s.arrivals <= t.arrivals && s.granted <= t.granted && s.cancelled <= t.cancelled && s.released <= t.released
  {
    match e
    case Acquire(w) => var t := Drain(l, Enqueue(s, w)); assert s.granted <= t.granted;
    case Cancel(id) => var t := Drain(l, Withdraw(s, id)); assert s.granted <= t.granted;
    case Release(_) =>
  }

  lemma {:induction false} InArrivals(s: State, w: Waiter)
    requires Partition(s) && ArrivalOrder(s) && (w in s.pending || w in s.granted)
    ensures w in s.arrivals
  {
    var p := w.priority;
    var live := Without(s.arrivals, s.cancelled);
    OfClassMember(s.pending, p);
    OfClassMember(s.granted, p);
    assert w in OfClass(s.granted, p) + OfClass(s.pending, p);
    assert w in OfClass(live, p);
    OfClassMember(live, p);
    WithoutMember(s.arrivals, s.cancelled);
  }

  lemma {:induction false} WithoutMember(q: seq<Waiter>, gone: set<nat>)
    ensures forall w :: w in Without(q, gone) <==> w in q && w.id !in gone
  {
    if q != [] {
      assert q == q[..|q| - 1] + [q[|q| - 1]];
      WithoutMember(q[..|q| - 1], gone);
    }
  }

  /** A cancelled waiter is never granted, and a granted one is never cancelled, in any later state. */
  lemma {:induction false} OutcomesAreFinal(l: Limits, s: State, es: seq<Event>)
    requires Inv(l, s) && AllowedFrom(l, s, es)
    ensures Inv(l, RunFrom(l, s, es))
    ensures s.cancelled !! Ids(RunFrom(l, s, es).granted)
    ensures Ids(s.granted) !! RunFrom(l, s, es).cancelled
    ensures s.granted <= RunFrom(l, s, es).granted
    decreases |es|
  {
    if es != [] {
      StepKeeps(l, s, es[0]);
      StepRemembers(l, s, es[0]);
      var t := Step(l, s, es[0]);
      assert forall w :: w in s.granted ==> w in t.granted;
      OutcomesAreFinal(l, t, es[1..]);
    }
  }
}
