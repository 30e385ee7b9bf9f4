/** What every interleaving of the channel pool guarantees. */
module PoolTheorems {
  import opened Common
  import opened Pool
  import opened PoolSteps
  import opened PoolReload

  // ---------------------------------------------------------------- invariance

  lemma {:induction false} EnterUseKeeps(s: Pool, t: Task, step: UseStep)
    requires t in s.tasks && UseEnabled(s, t, s.tasks[t], step) && Grounded(s, s.tasks[t])
    requires step.Arrive? || step.Enter? || step.EnterFails? || step.StartMain?
    ensures Inv(ApplyUse(s, t, s.tasks[t], step))
  {
    var pc := s.tasks[t];
    var r := ApplyUse(s, t, pc, step);
    assert TaskOk(s, t, pc);
    match step
    case Arrive =>
      if s.maintenance != 0 {
        ParkIsPlain(s, t, pc.key);
        PlainMove(s, r, t, Parked(pc.key));
      } else {
        ArriveTakes(s, t, pc.key);
        TakeMove(s, r, t, Entering(pc.key, if pc.key in s.retiring then Some(s.retiring[pc.key].id) else None), pc.key);
      }
    case Enter(now) =>
      EnterMoves(s, t, pc.key, pc.after, now);
      if pc.key in s.live { PlainMove(s, r, t, Awaiting(pc.key, s.live[pc.key])); }
      else { PushMove(s, r, t, Queued(pc.key)); }
    case EnterFails =>
      EnterFailsIsPlain(s, t, pc.key, pc.after);
      PlainMove(s, r, t, Leaving(pc.key));
    case StartMain =>
      StartMainMoves(s, t, pc.key);
      if pc.key in s.live { PopMove(s, r, t, Awaiting(pc.key, s.live[pc.key])); }
      else { PlainMove(s, r, t, Evicting(pc.key, |s.live|, 0)); }
  }

  lemma {:induction false} EvictedKeeps(s: Pool, t: Task, pc: Pc, ok: bool)
    requires t in s.tasks && s.tasks[t] == pc && pc.Retiring?
    ensures HasSession(s, pc.victim) && Inv(DoEvicted(s, t, pc, ok))
  {
    InvIsGrounded(s, t);
    assert TaskOk(s, t, pc);
    HeadIsAlone(s, t);
    EvictedEnds(s, t, pc, ok);
    var after := if ok then Evicting(pc.key, pc.entry, pc.passes + 1) else Leaving(pc.key);
    EndMove(s, DoEvicted(s, t, pc, ok), t, after, pc.victim);
  }

  lemma {:induction false} EvictUseKeeps(s: Pool, t: Task, step: UseStep)
    requires t in s.tasks && UseEnabled(s, t, s.tasks[t], step) && Grounded(s, s.tasks[t])
    requires step.Evict? || step.NoSlot? || step.Open? || step.Evicted?
    ensures Inv(ApplyUse(s, t, s.tasks[t], step))
  {
    var pc := s.tasks[t];
    var r := ApplyUse(s, t, pc, step);
    assert TaskOk(s, t, pc);
    HeadIsAlone(s, t);
    match step
    case Evict(v) =>
      EvictBegins(s, t, pc, v);
      BeginMove(s, r, t, Retiring(pc.key, v, pc.entry, pc.passes), v);
    case NoSlot =>
      NoSlotIsPop(s, t, pc);
      PopMove(s, r, t, Leaving(pc.key));
    case Open(now) =>
      OpenKeeps(s, t, pc, now);
    case Evicted(ok) =>
      EvictedKeeps(s, t, pc, ok);
  }

  lemma {:induction false} RestOfUseKeeps(s: Pool, t: Task, step: UseStep)
    requires t in s.tasks && UseEnabled(s, t, s.tasks[t], step) && Grounded(s, s.tasks[t])
    requires step.Opened? || step.Resume? || step.FinishUse? || step.Leave?
    ensures Inv(ApplyUse(s, t, s.tasks[t], step))
  {
    var pc := s.tasks[t];
    var r := ApplyUse(s, t, pc, step);
    assert TaskOk(s, t, pc);
    match step
    case Opened(ok) =>
      OpenedKeeps(s, r, t, if ok then Using(pc.key, pc.bundle) else Leaving(pc.key), pc.key, pc.bundle, ok);
    case Resume =>
      ResumeIsPlain(s, t, pc.key, pc.bundle);
      PlainMove(s, r, t, if s.sessions[pc.bundle].status.Failed? then Leaving(pc.key) else Using(pc.key, pc.bundle));
    case FinishUse =>
      FinishUseIsPlain(s, t, pc.key, pc.bundle);
      PlainMove(s, r, t, Leaving(pc.key));
    case Leave(now) =>
      LeaveDrops(s, t, pc.key, now);
      DropMove(s, r, t, pc.key);
  }

  lemma {:induction false} SweepTurnKeeps(s: Pool, t: Task, step: SweepStep)
    requires t in s.tasks && SweepEnabled(s, t, s.tasks[t], step) && Grounded(s, s.tasks[t])
    requires step.SweepCheck? || step.SweepBegin? || step.SweepEnd?
    ensures Inv(ApplySweep(s, t, s.tasks[t], step))
  {
    var r := ApplySweep(s, t, s.tasks[t], step);
    assert TaskOk(s, t, s.tasks[t]);
    match step
    case SweepCheck =>
      SweepCheckMoves(s, t);
      if s.maintenance != 0 { PlainMove(s, r, t, Left); } else { PushMove(s, r, t, SweepQueued); }
    case SweepBegin =>
      SweepBeginMoves(s, t);
      if s.maintenance != 0 { PopMove(s, r, t, Left); } else { PlainMove(s, r, t, Sweeping); }
    case SweepEnd =>
      SweepEndIsPop(s, t);
      PopMove(s, r, t, Left);
  }

  lemma {:induction false} PickKeeps(s: Pool, t: Task, v: Channel)
    requires t in s.tasks && s.tasks[t].Sweeping? && Idle(s, v)
    ensures Inv(Goto(BeginRetirement(s, t, v), t, SweepRetiring(v)))
  {
    assert TaskOk(s, t, s.tasks[t]);
    PickBegins(s, t, v);
    BeginMove(s, Goto(BeginRetirement(s, t, v), t, SweepRetiring(v)), t, SweepRetiring(v), v);
  }

  lemma {:induction false} SweptKeeps(s: Pool, t: Task, pc: Pc, ok: bool)
    requires t in s.tasks && s.tasks[t] == pc && pc.SweepRetiring? && Grounded(s, pc)
    ensures Inv(DoSwept(s, t, pc, ok))
  {
    assert TaskOk(s, t, pc);
    HeadIsAlone(s, t);
    SweptEnds(s, t, pc, ok);
    EndMove(s, DoSwept(s, t, pc, ok), t, if ok then Sweeping else Left, pc.victim);
  }

  lemma {:induction false} SweepKeeps(s: Pool, t: Task, step: SweepStep)
    requires t in s.tasks && SweepEnabled(s, t, s.tasks[t], step) && Grounded(s, s.tasks[t])
    ensures Inv(ApplySweep(s, t, s.tasks[t], step))
  {
    match step
    case SweepPick(v) => PickKeeps(s, t, v);
    case Swept(ok) => SweptKeeps(s, t, s.tasks[t], ok);
    case _ => SweepTurnKeeps(s, t, step);
  }

  lemma {:induction false} ReloadCheckKeeps(s: Pool, t: Task, next: Option<Servers>, busy: bool)
    requires t in s.tasks && s.tasks[t] == ReloadStart(next)
    ensures Inv(DoReloadCheck(s, t, next, busy))
  {
    if next.Some? && (busy || s.leases != map[]) {
      RefuseIsPlain(s, t, next);
      PlainMove(s, Goto(s, t, Reloaded(Refused)), t, Reloaded(Refused));
    } else {
      BeginMaintenanceKeeps(s, DoReloadCheck(s, t, next, busy), t, next);
    }
  }

  lemma {:induction false} RefreshedKeeps(s: Pool, t: Task, next: Option<Servers>, ok: bool)
    requires t in s.tasks && s.tasks[t] == Refreshing(next)
    ensures Inv(DoRefreshed(s, t, next, ok))
  {
    assert TaskOk(s, t, s.tasks[t]);
    LoadIsCounted(s.maintenance, s.tasks, t);
    RefreshedLightens(s, t, next, ok);
    LightenMove(s, DoRefreshed(s, t, next, ok), t, DoRefreshed(s, t, next, ok).tasks[t]);
  }

  lemma {:induction false} ReloadFinishKeeps(s: Pool, t: Task, pc: Pc)
    requires t in s.tasks && s.tasks[t] == pc && pc.ReloadEnd?
    ensures Inv(Goto(FinishMaintenance(s), t, Reloaded(pc.outcome)))
  {
    LoadIsCounted(s.maintenance, s.tasks, t);
    ReloadFinishes(s, t, pc);
    FinishMove(s, FinishMaintenance(s), Goto(FinishMaintenance(s), t, Reloaded(pc.outcome)), t, Reloaded(pc.outcome));
  }

  lemma {:induction false} MaintenanceKeeps(s: Pool, t: Task, step: ReloadStep)
    requires t in s.tasks && ReloadEnabled(s, t, s.tasks[t], step) && Grounded(s, s.tasks[t])
    requires step.ReloadCheck? || step.Refreshed? || step.ReloadFinish?
    ensures Inv(ApplyReload(s, t, s.tasks[t], step))
  {
    match step
    case ReloadCheck(busy) => ReloadCheckKeeps(s, t, s.tasks[t].next, busy);
    case Refreshed(ok) => RefreshedKeeps(s, t, s.tasks[t].next, ok);
    case ReloadFinish => ReloadFinishKeeps(s, t, s.tasks[t]);
  }

  lemma {:induction false} ApplyKeeps(s: Pool, t: Task, step: ReloadStep)
    requires t in s.tasks && ReloadEnabled(s, t, s.tasks[t], step) && Grounded(s, s.tasks[t])
    requires step.Stage? || step.Staged? || step.ApplyOne? || step.ApplyDone?
    ensures Inv(ApplyReload(s, t, s.tasks[t], step))
  {
    var pc := s.tasks[t];
    var r := ApplyReload(s, t, pc, step);
    assert TaskOk(s, t, pc);
    match step
    case Stage =>
      StageIsPlain(s, t, pc.servers);
      PlainMove(s, r, t, Staging(pc.servers));
    case Staged(result) =>
      if result == Replaced {
        HeadIsAlone(s, t);
        StagedProgresses(s, t, pc.servers);
        ProgressMove(s, r, t, Applying(pc.servers, s.mcpConfig, s.live.Keys, false));
      } else {
        StagedFailsIsPop(s, t, pc.servers, result);
        PopMove(s, r, t, ReloadEnd(true, result));
      }
    case ApplyOne(k, ok) =>
      ApplyOneProgresses(s, t, pc, k, ok);
      ApplyOneServers(s, t, pc, k, ok);
      ProgressMove(s, r, t, Applying(pc.servers, pc.previous, pc.todo - {k}, pc.failed || !ok));
    case ApplyDone =>
      if pc.failed {
        ApplyFailed(s, t, pc);
        ProgressMove(s, r, t, Restoring(pc.previous, s.live.Keys, false));
      } else {
        ApplySucceeded(s, t, pc);
        ApplySucceededServers(s, t, pc);
        ProgressMove(s, r, t, ReloadEnd(true, Replaced));
      }
  }

  lemma {:induction false} RestoreKeeps(s: Pool, t: Task, step: ReloadStep)
    requires t in s.tasks && ReloadEnabled(s, t, s.tasks[t], step) && Grounded(s, s.tasks[t])
    requires step.RestoreOne? || step.RestoreDone?
    ensures Inv(ApplyReload(s, t, s.tasks[t], step))
  {
    var pc := s.tasks[t];
    var r := ApplyReload(s, t, pc, step);
    assert TaskOk(s, t, pc);
    match step
    case RestoreOne(k, ok) =>
      RestoreOneProgresses(s, t, pc, k, ok);
      RestoreOneServers(s, t, pc, k, ok);
      ProgressMove(s, r, t, Restoring(pc.previous, pc.todo - {k}, pc.failed || !ok));
    case RestoreDone =>
      RestoreDoneProgresses(s, t, pc);
      ProgressMove(s, r, t, r.tasks[t]);
  }

  lemma {:induction false} StepKeeps(s: Pool, t: Task, step: Step)
    requires Enabled(s, t, step)
    ensures t in s.tasks ==> Grounded(s, s.tasks[t])
    ensures Inv(Apply(s, t, step))
  {
    if t in s.tasks { InvIsGrounded(s, t); }
    match step
    case Spawn(pc) =>
      SpawnIsPlain(s, t, pc);
      PlainMove(s, Goto(s, t, pc), t, pc);
    case Use(u) =>
      if u.Arrive? || u.Enter? || u.EnterFails? || u.StartMain? { EnterUseKeeps(s, t, u); }
      else if u.Evict? || u.NoSlot? || u.Open? || u.Evicted? { EvictUseKeeps(s, t, u); }
      else { RestOfUseKeeps(s, t, u); }
    case Sweep(w) => SweepKeeps(s, t, w);
    case Reload(r) =>
      if r.ReloadCheck? || r.Refreshed? || r.ReloadFinish? { MaintenanceKeeps(s, t, r); }
      else if r.RestoreOne? || r.RestoreDone? { RestoreKeeps(s, t, r); }
      else { ApplyKeeps(s, t, r); }
  }

  // ---------------------------------------------------------------- runs

  datatype Move = Move(task: Task, step: Step)

  /** The moves can be made one after the other from `s`. */
  ghost predicate Possible(s: Pool, ms: seq<Move>)
    decreases |ms|
  {
    ms == [] ||
    (Enabled(s, ms[0].task, ms[0].step) &&
     (StepKeeps(s, ms[0].task, ms[0].step);
      Possible(Apply(s, ms[0].task, ms[0].step), ms[1..])))
  }

  ghost function After(s: Pool, ms: seq<Move>): Pool
    requires Possible(s, ms)
    decreases |ms|
  {
    if ms == [] then s
    else
      StepKeeps(s, ms[0].task, ms[0].step);
      After(Apply(s, ms[0].task, ms[0].step), ms[1..])
  }

  lemma {:induction false} InitIsPool(limit: nat, servers: Servers)
    ensures Inv(Init(limit, servers))
  {
    assert Loaded(map[], 1) == {} && Loaded(map[], 2) == {};
  }

  /**
    The pool once `initialize` has opened the owner's channel, by a call of `main` that holds no lease and runs
    alone.
   */
  function Initialized(limit: nat, servers: Servers, owner: Channel, now: int): State {
    Init(limit, servers).(
      live := map[owner := 0], access := map[owner := now],
      sessions := map[0 := Session(owner, Status.Open, Some(servers))], nextBundle := 1)
  }

  lemma {:induction false} InitializedIsPool(limit: nat, servers: Servers, owner: Channel, now: int)
    requires limit >= 1
    ensures Inv(Initialized(limit, servers, owner, now))
  {
    assert Loaded(map[], 1) == {} && Loaded(map[], 2) == {};
    assert |map[owner := 0]| == 1 by { assert (map[owner := 0]).Keys == {owner}; }
  }

  /** Where a run of calls may begin: with a new object, or after its initialization. */
  ghost predicate Begins(s: State, limit: nat, servers: Servers) {
    s == Init(limit, servers) || (limit >= 1 && exists owner, now :: s == Initialized(limit, servers, owner, now))
  }

  /** Both are states of the pool, so the theorems about runs speak of every run of the object. */
  lemma {:induction false} StartKeeps(s: State, limit: nat, servers: Servers)
    requires Begins(s, limit, servers)
    ensures Inv(s) && s.limit == limit
  {
    InitIsPool(limit, servers);
    if s != Init(limit, servers) {
      var owner, now :| s == Initialized(limit, servers, owner, now);
      InitializedIsPool(limit, servers, owner, now);
    }
  }

  /** A session that a lease holder uses is open, is the channel's only one, and is not being retired. */
  ghost predicate InUseIsSafe(s: State) {
    forall t :: t in s.tasks && s.tasks[t].Using? ==>
      var k, b := s.tasks[t].key, s.tasks[t].bundle;
      && b in s.sessions && s.sessions[b].status.Open? && k in s.live && s.live[k] == b
      && k !in s.retiring && k in s.leases
  }

  ghost predicate OnePerChannel(s: State) {
    forall b, c ::
      (b in s.sessions && c in s.sessions && IsLive(s.sessions[b].status) && IsLive(s.sessions[c].status) &&
       s.sessions[b].channel == s.sessions[c].channel) ==> b == c
  }

  lemma {:induction false} PoolIsSafe(s: Pool)
    ensures |s.live| <= s.limit && OnePerChannel(s) && InUseIsSafe(s)
  {
    forall t | t in s.tasks && s.tasks[t].Using?
      ensures s.tasks[t].key !in s.retiring && s.tasks[t].key in s.leases
    {
      assert TaskOk(s, t, s.tasks[t]);
    }
    assert InUseIsSafe(s) by {
      forall t | t in s.tasks && s.tasks[t].Using?
        ensures var k, b := s.tasks[t].key, s.tasks[t].bundle;
          b in s.sessions && s.sessions[b].status.Open? && k in s.live && s.live[k] == b
      {
        assert TaskOk(s, t, s.tasks[t]);
      }
    }
  }

  lemma {:induction false} StepFixesLimit(s: State, t: Task, step: Step)
    requires Enabled(s, t, step) && (t in s.tasks ==> Grounded(s, s.tasks[t]))
    ensures Apply(s, t, step).limit == s.limit
  {
    match step
    case Spawn(_) =>
    case Use(u) => assert ApplyUse(s, t, s.tasks[t], u).limit == s.limit;
    case Sweep(w) => assert ApplySweep(s, t, s.tasks[t], w).limit == s.limit;
    case Reload(r) => assert ApplyReload(s, t, s.tasks[t], r).limit == s.limit;
  }

  lemma {:induction false} LimitIsFixed(s: Pool, ms: seq<Move>)
    requires Possible(s, ms)
    ensures After(s, ms).limit == s.limit
    decreases |ms|
  {
    if ms != [] {
      StepKeeps(s, ms[0].task, ms[0].step);
      StepFixesLimit(s, ms[0].task, ms[0].step);
      LimitIsFixed(Apply(s, ms[0].task, ms[0].step), ms[1..]);
    }
  }

  /**
    In every interleaving the number of live channels stays within the limit, a channel has one
    open session at most, and a session in use under a lease is neither closed nor being retired.
   */
  lemma {:induction false} EveryInterleavingIsSafe(limit: nat, servers: Servers, start: Pool, ms: seq<Move>)
    requires Begins(start, limit, servers) && Possible(start, ms)
    ensures var s := After(start, ms); |s.live| <= limit && OnePerChannel(s) && InUseIsSafe(s)
  {
    LimitIsFixed(start, ms);
    PoolIsSafe(After(start, ms));
  }

  // ---------------------------------------------------------------- leases and maintenance

  lemma {:induction false} UseTakesLease(s: State, t: Task, step: UseStep, u: Task)
    requires t in s.tasks && UseEnabled(s, t, s.tasks[t], step) && Grounded(s, s.tasks[t])
    requires u in s.tasks && LeaseOf(s.tasks[u]).None? && u in ApplyUse(s, t, s.tasks[t], step).tasks
    requires LeaseOf(ApplyUse(s, t, s.tasks[t], step).tasks[u]).Some?
    ensures s.maintenance == 0
  {
  }

  lemma {:induction false} LeasesNeedIdleCounter(s: State, t: Task, step: Step, u: Task)
    requires Enabled(s, t, step) && (t in s.tasks ==> Grounded(s, s.tasks[t]))
    requires u in s.tasks && LeaseOf(s.tasks[u]).None?
    requires u in Apply(s, t, step).tasks && LeaseOf(Apply(s, t, step).tasks[u]).Some?
    ensures s.maintenance == 0
  {
    match step
    case Spawn(_) =>
    case Use(x) => UseTakesLease(s, t, x, u);
    case Sweep(_) =>
    case Reload(_) =>
  }

  /** A step that gives a task a lease finds the maintenance counter at zero and no reload under way. */
  lemma {:induction false} LeasesWaitForMaintenance(s: Pool, t: Task, step: Step, u: Task)
    requires Enabled(s, t, step) && (t in s.tasks ==> Grounded(s, s.tasks[t]))
    requires u in s.tasks && LeaseOf(s.tasks[u]).None?
    requires u in Apply(s, t, step).tasks && LeaseOf(Apply(s, t, step).tasks[u]).Some?
    ensures s.maintenance == 0 && forall x :: x in s.tasks ==> !Exclusive(s.tasks[x])
  {
    LeasesNeedIdleCounter(s, t, step, u);
    NoExclusive(s.maintenance, s.tasks);
  }

  /** From its idleness check to its end an MCP reload runs with no lease in the pool. */
  lemma {:induction false} ReloadRunsAlone(s: Pool, t: Task)
    requires t in s.tasks && Exclusive(s.tasks[t])
    ensures s.leases == map[] && s.maintenance > 0
    ensures forall u :: u in s.tasks ==> LeaseOf(s.tasks[u]).None?
  {
    assert TaskOk(s, t, s.tasks[t]);
    LoadIsCounted(s.maintenance, s.tasks, t);
    forall u | u in s.tasks ensures LeaseOf(s.tasks[u]).None? {
      assert TaskOk(s, u, s.tasks[u]);
    }
  }

  // ---------------------------------------------------------------- replacement

  /** Every live session has exactly the server list `c`. */
  ghost predicate AllHave(s: State, c: Servers) {
    s.mcpConfig == c && forall k :: k in s.live ==> s.live[k] in s.sessions && s.sessions[s.live[k]].servers == Some(c)
  }

  /** Outside a replacement, and until a fault, all live sessions agree with `mcpConfig`. */
  lemma {:induction false} SettledPoolAgrees(s: Pool)
    requires s.replacing == None && !s.faulted
    ensures AllHave(s, s.mcpConfig)
  {
  }

  /** The replacement's turn in the queue ends with `result`: the three places where it can. */
  ghost predicate EndsReplacement(s: State, r: State, t: Task, pc: Pc, result: Outcome) {
    match pc
    case Staging(next) => (result == Refused || result == Fault) && r == DoStaged(s, t, next, result)
    case Applying(_, _, todo, failed) => todo == {} && !failed && result == Replaced && r == DoApplyDone(s, t, pc)
    case Restoring(_, todo, failed) =>
      todo == {} && result == (if failed then Fault else RolledBack) && r == DoRestoreDone(s, t, failed)
    case _ => false
  }

  lemma {:induction false} EndIsSettled(s: State, r: State, t: Task, pc: Pc, result: Outcome)
    requires EndsReplacement(s, r, t, pc, result) && (pc.Staging? ==> s.replacing == None)
    ensures r.replacing == None && (r.faulted <==> s.faulted || result == Fault)
    ensures r.mcpConfig == if result == Replaced && pc.Applying? then pc.servers else s.mcpConfig
  {
  }

  lemma {:induction false} EndKeeps(s: Pool, r: State, t: Task, pc: Pc, result: Outcome)
    requires t in s.tasks && s.tasks[t] == pc && EndsReplacement(s, r, t, pc, result)
    ensures Inv(r)
  {
    assert TaskOk(s, t, pc);
    match pc
    case Staging(next) =>
      StagedFailsIsPop(s, t, next, result);
      PopMove(s, r, t, ReloadEnd(true, result));
    case Applying(_, _, _, _) =>
      ApplySucceeded(s, t, pc);
      ApplySucceededServers(s, t, pc);
      ProgressMove(s, r, t, ReloadEnd(true, Replaced));
    case Restoring(_, _, _) =>
      RestoreDoneProgresses(s, t, pc);
      ProgressMove(s, r, t, r.tasks[t]);
  }

  /**
    A replacement is all or nothing. When its turn in the queue ends, success has put every live
    session and `mcpConfig` at the new servers, an ordinary error has left all of them at the
    servers they had before, and anything else is a fault.
   */
  lemma {:induction false} ReplacementIsAllOrNothing(s: Pool, r: State, t: Task, pc: Pc, result: Outcome)
    requires t in s.tasks && s.tasks[t] == pc && EndsReplacement(s, r, t, pc, result)
    ensures r.faulted <==> s.faulted || result == Fault
    ensures !r.faulted && result == Replaced ==> pc.Applying? && AllHave(r, pc.servers)
    ensures !r.faulted && result != Replaced ==> AllHave(r, s.mcpConfig)
  {
    HeadIsAlone(s, t);
    EndIsSettled(s, r, t, pc, result);
    EndKeeps(s, r, t, pc, result);
    if !r.faulted {
      SettledPoolAgrees(r);
    }
  }

  // ---------------------------------------------------------------- eviction

  /** The eviction loop removes one channel at most: a second pass always finds room. */
  lemma {:induction false} EvictionRunsOnce(s: Pool, t: Task, v: Channel)
    requires t in s.tasks && UseEnabled(s, t, s.tasks[t], Evict(v))
    ensures s.tasks[t].passes == 0 && |s.live| == s.limit
    ensures v !in s.leases && forall u :: u in s.tasks ==> LeaseOf(s.tasks[u]) != Some(v)
  {
    assert TaskOk(s, t, s.tasks[t]);
    forall u | u in s.tasks ensures LeaseOf(s.tasks[u]) != Some(v) {
      assert TaskOk(s, u, s.tasks[u]);
    }
  }

  lemma {:induction false} OldestOf(s: State, c: set<Channel>) returns (v: Channel)
    requires c != {}
    ensures v in c && forall k :: k in c ==> AccessOf(s, v) <= AccessOf(s, k)
    decreases |c|
  {
    var x :| x in c;
    if c == {x} {
      v := x;
    } else {
      v := OldestOf(s, c - {x});
      if AccessOf(s, x) < AccessOf(s, v) { v := x; }
    }
  }

  /** With the pool full, a call evicts if some live channel is unleased, and gives up exactly if all are leased. */
  lemma {:induction false} NoSlotExactly(s: Pool, t: Task)
    requires t in s.tasks && s.tasks[t].Evicting? && |s.live| >= s.limit
    ensures (exists v :: UseEnabled(s, t, s.tasks[t], Evict(v))) <==> !(s.live.Keys <= s.leases.Keys)
    ensures UseEnabled(s, t, s.tasks[t], NoSlot) <==> s.live.Keys <= s.leases.Keys
  {
    var c := set k | k in s.live && k !in s.leases;
    if c != {} {
      var v := OldestOf(s, c);
      assert v in c;
      assert UseEnabled(s, t, s.tasks[t], Evict(v));
    }
    assert forall k :: k in s.live && k !in s.leases ==> k in c;
  }

  // ---------------------------------------------------------------- progress

  predicate Terminal(pc: Pc) {
    pc.Left? || pc.Reloaded?
  }

  lemma {:induction false} LoopCanStep(s: State, t: Task) returns (step: Step)
    requires t in s.tasks && s.tasks[t].Evicting?
    ensures !step.Spawn? && Enabled(s, t, step)
  {
    var c := set k | k in s.live && Idle(s, k);
    if |s.live| < s.limit {
      step := Use(UseStep.Open(0));
    } else if c == {} {
      assert forall k :: k in s.live ==> !Idle(s, k) by {
        forall k | k in s.live ensures !Idle(s, k) { assert k !in c; }
      }
      step := Use(NoSlot);
    } else {
      var v := OldestOf(s, c);
      step := Use(Evict(v));
    }
  }

  lemma {:induction false} HeadCanStep(s: State, t: Task) returns (step: Step)
    requires AtHead(s.serial, t) && t in s.tasks && InSerial(s.tasks[t])
    ensures !step.Spawn? && Enabled(s, t, step)
  {
    var pc := s.tasks[t];
    match pc
    case Queued(_) => step := Use(StartMain);
    case Evicting(_, _, _) => step := LoopCanStep(s, t);
    case Retiring(_, _, _, _) => step := Use(Evicted(true));
    case Creating(_, _) => step := Use(Opened(true));
    case SweepQueued => step := Sweep(SweepBegin);
    case Sweeping => step := Sweep(SweepEnd);
    case SweepRetiring(_) => step := Sweep(Swept(true));
    case ReloadQueued(_) => step := Reload(Stage);
    case Staging(_) => step := Reload(Staged(Replaced));
    case Applying(_, _, todo, _) =>
      if todo == {} { step := Reload(ApplyDone); } else { var k :| k in todo; step := Reload(ApplyOne(k, true)); }
    case Restoring(_, todo, _) =>
      if todo == {} { step := Reload(RestoreDone); } else { var k :| k in todo; step := Reload(RestoreOne(k, true)); }
  }

  lemma {:induction false} OffQueueCanStep(s: Pool, t: Task) returns (u: Task, step: Step)
    requires s.serial == [] && t in s.tasks && !Terminal(s.tasks[t])
    ensures !step.Spawn? && Enabled(s, u, step)
  {
    var pc := s.tasks[t];
    u := t;
    assert TaskOk(s, t, pc);
    match pc
    case Arriving(_) => step := Use(Arrive);
    case Parked(_) =>
      u := SomeoneLoads(s);
      assert TaskOk(s, u, s.tasks[u]);
      step := if s.tasks[u].Refreshing? then Reload(Refreshed(true)) else Reload(ReloadFinish);
    case Entering(k, _) =>
      NothingRetires(s);
      step := Use(Enter(0));
    case Awaiting(_, b) =>
      NothingOpens(s, b);
      step := Use(Resume);
    case Using(_, _) => step := Use(FinishUse);
    case Leaving(_) => step := Use(Leave(0));
    case SweepStart => step := Sweep(SweepCheck);
    case ReloadStart(_) => step := Reload(ReloadCheck(false));
    case Refreshing(_) => step := Reload(Refreshed(true));
    case ReloadEnd(_, _) => step := Reload(ReloadFinish);
  }

  lemma {:induction false} SomeoneLoads(s: Pool) returns (u: Task)
    requires s.maintenance != 0
    ensures u in s.tasks && Load(s.tasks[u]) > 0
  {
    assert Loaded(s.tasks, 2) <= Loaded(s.tasks, 1);
    if Loaded(s.tasks, 1) == {} { assert false; }
    u :| u in Loaded(s.tasks, 1);
  }

  lemma {:induction false} NothingRetires(s: Pool)
    requires s.serial == []
    ensures s.retiring == map[]
  {
    forall v | v in s.retiring ensures false {}
  }

  lemma {:induction false} NothingOpens(s: Pool, b: Bundle)
    requires s.serial == [] && b in s.sessions
    ensures !s.sessions[b].status.Opening?
  {
  }

  /** No deadlock: while some call is unfinished, some call can take its next step. */
  lemma {:induction false} PoolNeverDeadlocks(s: Pool, t: Task) returns (u: Task, step: Step)
    requires t in s.tasks && !Terminal(s.tasks[t])
    ensures !step.Spawn? && Enabled(s, u, step)
  {
    if s.serial != [] {
      u := s.serial[0];
      assert u in s.serial;
      step := HeadCanStep(s, u);
    } else {
      u, step := OffQueueCanStep(s, t);
    }
  }
}
