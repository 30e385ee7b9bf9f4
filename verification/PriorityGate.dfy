/**
  The gate as the source writes it: fields updated in place and a drain loop.
  Every method is tied to the specification step of module `Gate`, whose runs
  carry the theorems.
 */
module PriorityGates {
  import opened Gate
  import opened GateTheorems

  class PriorityGate {
    const limits: Limits
    var pending: seq<Waiter>
    var active: int
    var background: int
    var released: set<nat>  // the `released` flags captured by the release closures
    ghost var arrivals: seq<Waiter>
    ghost var granted: seq<Waiter>
    ghost var cancelled: set<nat>

    ghost function Value(): State
      reads this
    {
      State(pending, active, background, released, arrivals, granted, cancelled)
    }

    ghost predicate Valid()
      reads this
    {
      Legal(limits) && Inv(limits, Value())
    }

    constructor (l: Limits)
      requires Legal(l)
      ensures Valid() && limits == l && Value() == EMPTY
    {
      limits := l;
      pending, active, background, released := [], 0, 0, {};
      arrivals, granted, cancelled := [], [], {};
      new;
      RunKeeps(l, []);
    }

    /** The constructor's guard: an illegal pair of limits makes no gate. */
    static method Create(capacity: int, reserve: int) returns (g: PriorityGate?)
      ensures g == null <==> (capacity < 1 || reserve < 0 || reserve >= capacity)
      ensures g != null ==> fresh(g) && g.Valid() && g.Value() == EMPTY && g.limits == Limits(capacity, reserve)
    {
      if capacity < 1 || reserve < 0 || reserve >= capacity { return null; }
      g := new PriorityGate(Limits(capacity, reserve));
    }

    method Acquire(w: Waiter)
      requires Valid() && w.id !in Ids(arrivals)
      modifies this
      ensures Valid() && Value() == Step(limits, old(Value()), Event.Acquire(w))
    {
      StepKeeps(limits, Value(), Event.Acquire(w));
      pending := pending + [w];
      arrivals := arrivals + [w];
      DrainQueue();
    }

    /** The abort listener of a waiter. */
    method Cancel(w: Waiter)
      requires Valid()
      modifies this
      ensures Valid() && Value() == Step(limits, old(Value()), Event.Cancel(w.id))
    {
      StepKeeps(limits, Value(), Event.Cancel(w.id));
      Remove(w.id);
      DrainQueue();
    }

    /** The waiter leaves the queue, if it is still there. */
    method Remove(id: nat)
      modifies this`pending, this`cancelled
      ensures Value() == Withdraw(old(Value()), id)
    {
      var index := IndexOf(pending, id);
      if index >= 0 {
        pending := pending[..index] + pending[index + 1..];
        cancelled := cancelled + {id};
      }
    }

    /** A release closure, which exists only for a granted waiter. */
    method Release(w: Waiter)
      requires Valid() && w in granted
      modifies this
      ensures Valid() && Value() == Step(limits, old(Value()), Event.Release(w.id))
    {
      StepKeeps(limits, Value(), Event.Release(w.id));
      GrantedById(granted, w);
      if w.id in released { return; }
      Return(w);
      DrainQueue();
    }

    method Return(w: Waiter)
      modifies this`active, this`background, this`released
      ensures Value() == GiveBack(old(Value()), w)
    {
      released := released + {w.id};
      active := active - 1;
      if w.priority == Background { background := background - 1; }
    }

    method DrainQueue()
      modifies this
      ensures Value() == Drain(limits, old(Value()))
    {
      while active < limits.capacity
        invariant Drain(limits, Value()) == Drain(limits, old(Value()))
        decreases |pending|
      {
        ghost var before := Value();
        var index := FindFirst(pending, Interactive);
        if index < 0 && background < limits.capacity - limits.reserve {
          index := FindFirst(pending, Background);
        }
        if index < 0 { return; }
        assert index == Pick(limits, before);
        Serve(index);
      }
    }

    /** The waiter at the index is taken from the queue and granted a slot. */
    method Serve(index: nat)
      requires index < |pending|
      modifies this
      ensures Value() == Grant(old(Value()), index)
    {
      var waiter := pending[index];
      pending := pending[..index] + pending[index + 1..];
      active := active + 1;
      if waiter.priority == Background { background := background + 1; }
      granted := granted + [waiter];
    }
  }
}
