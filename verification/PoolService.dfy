/**
  That the pool does serve: a call for a channel, made when no other call is in progress, comes to
  use an open session of that channel if its own operations succeed.
 */
module PoolService {
  import opened Common
  import opened Pool
  import opened PoolSteps
  import opened PoolReload
  import opened PoolTheorems
  import opened PoolProgress

  /** Every call but this one has ended. */
  ghost predicate Alone(s: State, t: Task) {
    t in s.tasks && forall u :: u in s.tasks && u != t ==> Terminal(s.tasks[u])
  }

  /** The call is between its start and the use of its session. */
  predicate Coming(s: State, pc: Pc, k: Channel) {
    match pc
    case Arriving(key) => key == k
    case Entering(key, _) => key == k
    case Queued(key) => key == k
    case Evicting(key, _, _) => key == k
    case Retiring(key, _, _, _) => key == k
    case Creating(key, _) => key == k
    case Awaiting(key, b) => key == k && k in s.live && s.live[k] == b
    case _ => false
  }

  lemma {:induction false} AloneUnloaded(s: Pool, t: Task)
    requires Alone(s, t) && Load(s.tasks[t]) == 0
    ensures s.maintenance == 0
  {
    assert Loaded(s.tasks, 1) == {} && Loaded(s.tasks, 2) == {};
  }

  lemma {:induction false} AloneUnretired(s: Pool, t: Task)
    requires Alone(s, t) && Victim(s.tasks[t]) == None
    ensures s.retiring == map[]
  {
    forall v | v in s.retiring ensures false {}
  }

  lemma {:induction false} AloneAtHead(s: Pool, t: Task)
    requires Alone(s, t) && InSerial(s.tasks[t])
    ensures AtHead(s.serial, t)
  {
    assert TaskOk(s, t, s.tasks[t]);
    assert s.serial[0] in s.serial;
  }

  lemma {:induction false} AloneUnopened(s: Pool, t: Task, b: Bundle)
    requires Alone(s, t) && !s.tasks[t].Creating? && b in s.sessions
    ensures !s.sessions[b].status.Opening?
  {
  }

  lemma {:induction false} AloneLeases(s: Pool, t: Task, v: Channel)
    requires Alone(s, t) && v in s.leases
    ensures LeaseOf(s.tasks[t]) == Some(v)
  {
    assert |Holders(s.tasks, v)| > 0;
    if Holders(s.tasks, v) == {} { assert false; }
    var u :| u in Holders(s.tasks, v);
  }

  /** A full pool has a channel to give up: the call leases none that is live. */
  lemma {:induction false} AloneEvicts(s: Pool, t: Task) returns (step: UseStep)
    requires Alone(s, t) && s.tasks[t].Evicting? && s.limit >= 1
    ensures step.Evict? || step.Open?
    ensures UseEnabled(s, t, s.tasks[t], step)
  {
    assert TaskOk(s, t, s.tasks[t]);
    if |s.live| < s.limit {
      step := UseStep.Open(0);
    } else {
      var c := set k | k in s.live && k !in s.leases;
      var k :| k in s.live;
      if k in s.leases { AloneLeases(s, t, k); }
      assert k in c;
      var v := OldestOf(s, c);
      step := Evict(v);
    }
  }

  /** The next step of a call that is on its way and alone. */
  lemma {:induction false} NextStep(s: Pool, t: Task, k: Channel) returns (step: UseStep)
    requires Alone(s, t) && Coming(s, s.tasks[t], k) && s.limit >= 1
    ensures UseEnabled(s, t, s.tasks[t], step)
    ensures step.Arrive? ==> s.maintenance == 0
    ensures step.Evicted? ==> step.ok
    ensures step.Opened? ==> step.ok
    ensures !step.EnterFails? && !step.NoSlot? && !step.FinishUse? && !step.Leave?
    ensures step.Resume? ==> s.sessions[s.live[k]].status.Open?
  {
    var pc := s.tasks[t];
    assert TaskOk(s, t, pc);
    match pc
    case Arriving(_) => AloneUnloaded(s, t); step := Arrive;
    case Entering(_, _) => AloneUnretired(s, t); step := Enter(0);
    case Queued(_) => AloneAtHead(s, t); step := StartMain;
    case Evicting(_, _, _) => step := AloneEvicts(s, t);
    case Retiring(_, _, _, _) => step := Evicted(true);
    case Creating(_, _) => step := Opened(true);
    case Awaiting(_, b) => AloneUnopened(s, t, b); step := Resume;
  }

  /** The call has its session, or is still on its way to it. */
  predicate Gets(s: State, t: Task, k: Channel) {
    t in s.tasks && (Coming(s, s.tasks[t], k) || (s.tasks[t].Using? && s.tasks[t].key == k))
  }

  lemma {:induction false} ArriveComes(s: State, t: Task, k: Channel)
    requires s.maintenance == 0
    ensures Gets(DoArrive(s, t, k), t, k)
  {
    assert DoArrive(s, t, k).tasks[t].Entering?;
  }

  lemma {:induction false} EnterComes(s: State, t: Task, k: Channel, now: int)
    ensures Gets(DoEnter(s, t, k, now), t, k)
  {
    if k in s.live { assert DoEnter(s, t, k, now).tasks[t] == Awaiting(k, s.live[k]); }
  }

  lemma {:induction false} StartMainComes(s: State, t: Task, k: Channel)
    ensures Gets(DoStartMain(s, t, k), t, k)
  {
    if k in s.live { assert DoStartMain(s, t, k).tasks[t] == Awaiting(k, s.live[k]); }
  }

  lemma {:induction false} ResumeComes(s: State, t: Task, k: Channel, b: Bundle)
    requires b in s.sessions && s.sessions[b].status.Open?
    ensures Gets(DoResume(s, t, k, b), t, k)
  {
    assert DoResume(s, t, k, b).tasks[t] == Using(k, b);
  }

  lemma {:induction false} EvictComes(s: State, t: Task, k: Channel, e: nat, n: nat, v: Channel, now: int)
    ensures Gets(DoEvict(s, t, Evicting(k, e, n), v), t, k) && Gets(DoOpen(s, t, k, now), t, k)
  {
  }

  lemma {:induction false} EvictedComes(s: State, t: Task, k: Channel, v: Channel, e: nat, n: nat)
    requires HasSession(s, v)
    ensures Gets(DoEvicted(s, t, Retiring(k, v, e, n), true), t, k)
  {
  }

  lemma {:induction false} OpenedComes(s: State, t: Task, k: Channel, b: Bundle)
    requires b in s.sessions
    ensures Gets(DoOpened(s, t, k, b, true), t, k)
  {
  }

  lemma {:induction false} StepComes(s: State, t: Task, pc: Pc, k: Channel, step: UseStep)
    requires t in s.tasks && s.tasks[t] == pc && Coming(s, pc, k) && UseEnabled(s, t, pc, step) && Grounded(s, pc)
    requires step.Arrive? ==> s.maintenance == 0
    requires step.Evicted? ==> step.ok
    requires step.Opened? ==> step.ok
    requires !step.EnterFails? && !step.NoSlot? && !step.FinishUse? && !step.Leave?
    requires step.Resume? ==> s.sessions[s.live[k]].status.Open?
    ensures Gets(ApplyUse(s, t, pc, step), t, k)
  {
    match step
    case Arrive => ArriveComes(s, t, k);
    case Enter(now) => EnterComes(s, t, k, now);
    case StartMain => StartMainComes(s, t, k);
    case Evict(v) => EvictComes(s, t, k, pc.entry, pc.passes, v, 0);
    case Open(now) => EvictComes(s, t, k, pc.entry, pc.passes, 0, now);
    case Evicted(ok) => EvictedComes(s, t, k, pc.victim, pc.entry, pc.passes);
    case Opened(ok) => OpenedComes(s, t, k, pc.bundle);
    case Resume => ResumeComes(s, t, k, s.live[k]);
  }

  lemma {:induction false} StaysAlone(s: Pool, t: Task, step: UseStep)
    requires Alone(s, t) && UseEnabled(s, t, s.tasks[t], step) && Grounded(s, s.tasks[t])
    ensures Alone(ApplyUse(s, t, s.tasks[t], step), t) && ApplyUse(s, t, s.tasks[t], step).limit == s.limit
  {
    assert OnlyMoves(s, ApplyUse(s, t, s.tasks[t], step), t);
  }

  lemma {:induction false} CallArrives(s: Pool, t: Task, k: Channel) returns (ms: seq<Move>)
    requires Alone(s, t) && s.limit >= 1 && (Coming(s, s.tasks[t], k) || (s.tasks[t].Using? && s.tasks[t].key == k))
    ensures Possible(s, ms) && t in After(s, ms).tasks
    ensures After(s, ms).tasks[t].Using? && After(s, ms).tasks[t].key == k
    decreases Work(s)
  {
    if s.tasks[t].Using? {
      ms := [];
    } else {
      var step := NextStep(s, t, k);
      InvIsGrounded(s, t);
      StepComes(s, t, s.tasks[t], k, step);
      StaysAlone(s, t, step);
      StepKeeps(s, t, Use(step));
      StepFalls(s, t, Use(step));
      var rest := CallArrives(Apply(s, t, Use(step)), t, k);
      ms := [Move(t, Use(step))] + rest;
      assert ms[1..] == rest;
    }
  }

  /**
    When all calls have ended, a new call for any channel can come to use a session, which is then
    open, the channel's only one and not being retired.
   */
  lemma {:induction false} IdlePoolServes(s: Pool, t: Task, k: Channel) returns (ms: seq<Move>)
    requires AllSettled(s) && t !in s.tasks && s.limit >= 1
    ensures ms != [] && ms[0] == Move(t, Spawn(Arriving(k))) && Possible(s, ms)
    ensures t in After(s, ms).tasks && After(s, ms).tasks[t].Using? && After(s, ms).tasks[t].key == k
    ensures InUseIsSafe(After(s, ms))
  {
    StepKeeps(s, t, Spawn(Arriving(k)));
    var r: Pool := Apply(s, t, Spawn(Arriving(k)));
    assert r.limit == s.limit;
    var rest := CallArrives(r, t, k);
    ms := [Move(t, Spawn(Arriving(k)))] + rest;
    assert ms[1..] == rest;
    PoolIsSafe(After(s, ms));
  }
}
