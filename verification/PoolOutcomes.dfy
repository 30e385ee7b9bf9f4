/**
  What a reload of the channel pool reports, read off the program counter of its own call: the
  outcome it ends with agrees with what became of the sessions and of the configured servers.
 */
module PoolOutcomes {
  import opened Common
  import opened Pool
  import opened PoolSteps
  import opened PoolReload
  import opened PoolTheorems

  // ---------------------------------------------------------------- the end of a turn in the queue

  /** The call leaves its turn in the queue, or its refresh, with an outcome. */
  predicate Ends(s: State, r: State, t: Task) {
    t in s.tasks && t in r.tasks && !s.tasks[t].ReloadEnd? && r.tasks[t].ReloadEnd?
  }

  /** Success is a replacement that reached every session, and a rollback one that was undone on every session. */
  predicate Honest(before: Pc, step: ReloadStep, outcome: Outcome) {
    && (outcome == Replaced <==>
         (before.Applying? && before.todo == {} && !before.failed) ||
         (before == Refreshing(None) && step == Refreshed(true)))
    && (outcome == RolledBack <==> before.Restoring? && before.todo == {} && !before.failed)
    && (outcome == Fault ==>
         (before.Restoring? && before.todo == {} && before.failed) || step == Staged(Fault))
  }

  /** What the outcome says about servers: those asked for on success, and those of before otherwise. */
  ghost predicate Leaves(s: State, r: State, before: Pc, outcome: Outcome) {
    && r.mcpConfig == (if before.Applying? && outcome == Replaced then before.servers else s.mcpConfig)
    && (outcome == Fault ==> r.faulted)
    && (outcome == Refused ==> r.sessions == s.sessions)
    && (Critical(before) && !r.faulted ==> AllHave(r, r.mcpConfig))
  }

  lemma {:induction false} RefreshMoves(s: State, t: Task, next: Option<Servers>, ok: bool)
    ensures var r := DoRefreshed(s, t, next, ok);
      && r.tasks[t] == (if ok && next.Some? then ReloadQueued(next.value)
                        else ReloadEnd(next.Some?, if ok then Replaced else Refused))
      && r.mcpConfig == s.mcpConfig && r.faulted == s.faulted && r.live == s.live && r.sessions == s.sessions
  {
    if ok && next.Some? {
      assert DoRefreshed(s, t, next, ok).tasks[t] == ReloadQueued(next.value);
    }
  }

  lemma {:induction false} CheckMoves(s: State, t: Task, next: Option<Servers>, busy: bool)
    ensures var r := DoReloadCheck(s, t, next, busy);
      && (r.tasks[t] == Refreshing(next) || r.tasks[t] == Reloaded(Refused))
      && r.mcpConfig == s.mcpConfig && r.sessions == s.sessions
  {
    if next.Some? && (busy || s.leases != map[]) {
      assert DoReloadCheck(s, t, next, busy).tasks[t] == Reloaded(Refused);
    }
  }

  lemma {:induction false} RefreshEnds(s: State, t: Task, next: Option<Servers>, ok: bool)
    requires t in s.tasks && s.tasks[t] == Refreshing(next)
    ensures var r := DoRefreshed(s, t, next, ok);
      Ends(s, r, t) ==>
        && r.tasks[t].exclusive == next.Some? && Honest(Refreshing(next), Refreshed(ok), r.tasks[t].outcome)
        && Leaves(s, r, Refreshing(next), r.tasks[t].outcome)
  {
    RefreshMoves(s, t, next, ok);
  }

  lemma {:induction false} StagedEnds(s: Pool, t: Task, next: Servers, result: Outcome)
    requires t in s.tasks && s.tasks[t] == Staging(next) && result != RolledBack
    ensures var r := DoStaged(s, t, next, result);
      Ends(s, r, t) ==>
        Honest(Staging(next), Staged(result), r.tasks[t].outcome) && Leaves(s, r, Staging(next), r.tasks[t].outcome)
  {
    var r := DoStaged(s, t, next, result);
    if result == Replaced {
      assert r.tasks[t] == Applying(next, s.mcpConfig, s.live.Keys, false);
    } else {
      assert r.tasks[t] == ReloadEnd(true, result);
      ReplacementIsAllOrNothing(s, r, t, Staging(next), result);
    }
  }

  lemma {:induction false} ApplyEnds(s: Pool, t: Task, pc: Pc)
    requires t in s.tasks && s.tasks[t] == pc && pc.Applying? && pc.todo == {}
    ensures var r := DoApplyDone(s, t, pc);
      Ends(s, r, t) ==> Honest(pc, ApplyDone, r.tasks[t].outcome) && Leaves(s, r, pc, r.tasks[t].outcome)
  {
    var r := DoApplyDone(s, t, pc);
    if pc.failed {
      assert r.tasks[t] == Restoring(pc.previous, s.live.Keys, false);
    } else {
      assert r.tasks[t] == ReloadEnd(true, Replaced);
      ReplacementIsAllOrNothing(s, r, t, pc, Replaced);
    }
  }

  lemma {:induction false} RestoreEnds(s: Pool, t: Task, pc: Pc)
    requires t in s.tasks && s.tasks[t] == pc && pc.Restoring? && pc.todo == {}
    ensures var r := DoRestoreDone(s, t, pc.failed);
      Ends(s, r, t) && Honest(pc, RestoreDone, r.tasks[t].outcome) && Leaves(s, r, pc, r.tasks[t].outcome)
  {
    var r := DoRestoreDone(s, t, pc.failed);
    assert r.tasks[t] == ReloadEnd(true, if pc.failed then Fault else RolledBack);
    ReplacementIsAllOrNothing(s, r, t, pc, if pc.failed then Fault else RolledBack);
  }

  lemma {:induction false} ReplaceEnds(s: Pool, t: Task, step: ReloadStep)
    requires t in s.tasks && ReloadEnabled(s, t, s.tasks[t], step) && Grounded(s, s.tasks[t])
    requires !step.ReloadCheck? && !step.Refreshed? && !step.ReloadFinish?
    ensures var r := ApplyReplace(s, t, s.tasks[t], step);
      Ends(s, r, t) ==>
        Honest(s.tasks[t], step, r.tasks[t].outcome) && Leaves(s, r, s.tasks[t], r.tasks[t].outcome)
  {
    var pc := s.tasks[t];
    match step
    case Stage =>
    case Staged(result) => StagedEnds(s, t, pc.servers, result);
    case ApplyOne(_, _) =>
    case ApplyDone => ApplyEnds(s, t, pc);
    case RestoreOne(_, _) =>
    case RestoreDone => RestoreEnds(s, t, pc);
  }

  /**
    Whatever step ends a reload's turn, the outcome in its own program counter is honest: success if
    and only if every session took the new servers, which all live sessions and the configuration
    then have; rolled back if and only if every session took the old ones again; a fault is recorded.
   */
  lemma {:induction false} OutcomeIsHonest(s: Pool, t: Task, step: ReloadStep)
    requires t in s.tasks && ReloadEnabled(s, t, s.tasks[t], step) && Grounded(s, s.tasks[t])
    requires Ends(s, ApplyReload(s, t, s.tasks[t], step), t)
    ensures var r := ApplyReload(s, t, s.tasks[t], step);
      Honest(s.tasks[t], step, r.tasks[t].outcome) && Leaves(s, r, s.tasks[t], r.tasks[t].outcome)
  {
    match step
    case ReloadCheck(busy) => CheckMoves(s, t, s.tasks[t].next, busy);
    case Refreshed(ok) => RefreshEnds(s, t, s.tasks[t].next, ok);
    case ReloadFinish =>
    case _ => ReplaceEnds(s, t, step);
  }

  // ---------------------------------------------------------------- over a run

  /** The call is on its way to replace the servers by `next`. */
  predicate Replacing(pc: Pc, next: Servers) {
    match pc
    case ReloadStart(n) => n == Some(next)
    case Refreshing(n) => n == Some(next)
    case ReloadQueued(n) => n == next
    case Staging(n) => n == next
    case Applying(n, _, _, _) => n == next
    case Restoring(_, _, _) => true
    case _ => false
  }

  /** Another call's step leaves a reload where it is. */
  lemma {:induction false} OthersStayPut(s: Pool, u: Task, step: Step, t: Task)
    requires Enabled(s, u, step) && (u in s.tasks ==> Grounded(s, s.tasks[u])) && t in s.tasks && u != t
    requires !s.tasks[t].Parked?
    ensures t in Apply(s, u, step).tasks && Apply(s, u, step).tasks[t] == s.tasks[t]
  {
    match step
    case Spawn(_) =>
    case Use(x) => assert OnlyMoves(s, ApplyUse(s, u, s.tasks[u], x), u);
    case Sweep(x) => assert OnlyMoves(s, ApplySweep(s, u, s.tasks[u], x), u);
    case Reload(x) => ReloadLeavesOthers(s, u, x, t);
  }

  lemma {:induction false} ReloadLeavesOthers(s: State, u: Task, step: ReloadStep, t: Task)
    requires u in s.tasks && t in s.tasks && u != t && !s.tasks[t].Parked?
    requires ReloadEnabled(s, u, s.tasks[u], step) && Grounded(s, s.tasks[u])
    ensures t in ApplyReload(s, u, s.tasks[u], step).tasks
    ensures ApplyReload(s, u, s.tasks[u], step).tasks[t] == s.tasks[t]
  {
    FinishWakes(s);
    match step
    case ReloadCheck(busy) => assert OnlyMoves(s, DoReloadCheck(s, u, s.tasks[u].next, busy), u);
    case Refreshed(_) =>
    case ReloadFinish =>
    case _ => assert OnlyMoves(s, ApplyReplace(s, u, s.tasks[u], step), u);
  }

  /** A replacement's own step takes it on, or ends it. */
  lemma {:induction false} OwnStep(s: Pool, t: Task, step: ReloadStep, next: Servers)
    requires t in s.tasks && Replacing(s.tasks[t], next) && ReloadEnabled(s, t, s.tasks[t], step)
    requires Grounded(s, s.tasks[t])
    ensures var r := ApplyReload(s, t, s.tasks[t], step);
      || Replacing(r.tasks[t], next)
      || Ends(s, r, t)
      || (r.tasks[t] == Reloaded(Refused) && r.mcpConfig == s.mcpConfig && r.sessions == s.sessions)
  {
    match step
    case ReloadCheck(busy) => CheckMoves(s, t, s.tasks[t].next, busy);
    case Refreshed(ok) => RefreshMoves(s, t, s.tasks[t].next, ok);
    case _ => OwnReplaceStep(s, t, step, next);
  }

  lemma {:induction false} OwnReplaceStep(s: State, t: Task, step: ReloadStep, next: Servers)
    requires t in s.tasks && Replacing(s.tasks[t], next) && ReloadEnabled(s, t, s.tasks[t], step)
    requires Grounded(s, s.tasks[t]) && !step.ReloadCheck? && !step.Refreshed?
    ensures !step.ReloadFinish?
    ensures var r := ApplyReplace(s, t, s.tasks[t], step); Replacing(r.tasks[t], next) || Ends(s, r, t)
  {
    var pc := s.tasks[t];
    match step
    case Stage =>
    case Staged(result) => StagedMoves(s, t, pc.servers, result);
    case ApplyOne(_, _) =>
    case ApplyDone => ApplyMoves(s, t, pc);
    case RestoreOne(_, _) =>
    case RestoreDone =>
  }

  lemma {:induction false} StagedMoves(s: State, t: Task, next: Servers, result: Outcome)
    ensures DoStaged(s, t, next, result).tasks[t] ==
      if result == Replaced then Applying(next, s.mcpConfig, s.live.Keys, false) else ReloadEnd(true, result)
  {
  }

  lemma {:induction false} ApplyMoves(s: State, t: Task, pc: Pc)
    requires pc.Applying?
    ensures DoApplyDone(s, t, pc).tasks[t] ==
      if pc.failed then Restoring(pc.previous, s.live.Keys, false) else ReloadEnd(true, Replaced)
  {
  }

  /** A call that has its outcome reports it. */
  lemma {:induction false} OutcomeStays(s: Pool, t: Task, step: Step)
    requires t in s.tasks && Enabled(s, t, step) && Grounded(s, s.tasks[t]) && s.tasks[t].ReloadEnd?
    ensures Apply(s, t, step).tasks[t] == Reloaded(s.tasks[t].outcome)
  {
  }

  lemma {:induction false} KeepsOutcome(s: Pool, ms: seq<Move>, t: Task)
    requires Possible(s, ms) && t in s.tasks && (s.tasks[t].ReloadEnd? || s.tasks[t].Reloaded?)
    ensures t in After(s, ms).tasks
    ensures var pc := After(s, ms).tasks[t]; pc == s.tasks[t] || pc == Reloaded(s.tasks[t].outcome)
    decreases |ms|
  {
    if ms != [] {
      StepKeeps(s, ms[0].task, ms[0].step);
      if ms[0].task == t { OutcomeStays(s, t, ms[0].step); } else { OthersStayPut(s, ms[0].task, ms[0].step, t); }
      KeepsOutcome(Apply(s, ms[0].task, ms[0].step), ms[1..], t);
    }
  }

  lemma {:induction false} Prefix(s: Pool, ms: seq<Move>, k: nat)
    requires Possible(s, ms) && 0 < k <= |ms|
    ensures Possible(s, ms[..k])
    ensures Inv(Apply(s, ms[0].task, ms[0].step)) && Possible(Apply(s, ms[0].task, ms[0].step), ms[1..][..k - 1])
    ensures After(s, ms[..k]) == After(Apply(s, ms[0].task, ms[0].step), ms[1..][..k - 1])
    decreases k
  {
    StepKeeps(s, ms[0].task, ms[0].step);
    assert ms[..k][1..] == ms[1..][..k - 1] && ms[..k][0] == ms[0];
    if k > 1 { Prefix(Apply(s, ms[0].task, ms[0].step), ms[1..], k - 1); }
  }

  /** The step from `p` to `q` decided that the replacement by `next` reports this outcome, and justifies it. */
  ghost predicate Decides(p: State, q: State, t: Task, next: Servers, outcome: Outcome) {
    && t in p.tasks
    && (outcome == Replaced ==>
         p.tasks[t].Applying? && p.tasks[t].servers == next && !p.tasks[t].failed &&
         q.mcpConfig == next && (q.faulted || AllHave(q, next)))
    && (outcome == RolledBack ==>
         p.tasks[t].Restoring? && !p.tasks[t].failed &&
         q.mcpConfig == p.mcpConfig && (q.faulted || AllHave(q, p.mcpConfig)))
    && (outcome == Refused ==> q.mcpConfig == p.mcpConfig && q.sessions == p.sessions)
    && (outcome == Fault ==> q.mcpConfig == p.mcpConfig && q.faulted)
  }

  lemma {:induction false} HonestDecides(s: State, r: State, t: Task, step: ReloadStep, next: Servers)
    requires Ends(s, r, t) && Replacing(s.tasks[t], next)
    requires Honest(s.tasks[t], step, r.tasks[t].outcome) && Leaves(s, r, s.tasks[t], r.tasks[t].outcome)
    ensures Decides(s, r, t, next, r.tasks[t].outcome)
  {
  }

  lemma {:induction false} ReloadDecides(s: Pool, t: Task, step: ReloadStep, next: Servers)
    requires t in s.tasks && Replacing(s.tasks[t], next) && ReloadEnabled(s, t, s.tasks[t], step)
    requires Grounded(s, s.tasks[t])
    ensures var r := ApplyReload(s, t, s.tasks[t], step);
      Replacing(r.tasks[t], next) ||
      ((r.tasks[t].ReloadEnd? || r.tasks[t].Reloaded?) && Decides(s, r, t, next, r.tasks[t].outcome))
  {
    var r := ApplyReload(s, t, s.tasks[t], step);
    OwnStep(s, t, step, next);
    if Ends(s, r, t) {
      OutcomeIsHonest(s, t, step);
      HonestDecides(s, r, t, step, next);
    }
  }

  lemma {:induction false} OwnStepIsReload(s: State, t: Task, step: Step, next: Servers)
    requires Enabled(s, t, step) && t in s.tasks && Replacing(s.tasks[t], next) && Grounded(s, s.tasks[t])
    ensures step.Reload? && Apply(s, t, step) == ApplyReload(s, t, s.tasks[t], step.reload)
  {
  }

  lemma {:induction false} FirstStep(s: Pool, r: State, m: Move, t: Task, next: Servers)
    requires t in s.tasks && Replacing(s.tasks[t], next) && Enabled(s, m.task, m.step)
    requires m.task in s.tasks ==> Grounded(s, s.tasks[m.task])
    requires r == Apply(s, m.task, m.step)
    ensures t in r.tasks
    ensures Replacing(r.tasks[t], next) ||
      (m.task == t && (r.tasks[t].ReloadEnd? || r.tasks[t].Reloaded?) && Decides(s, r, t, next, r.tasks[t].outcome))
  {
    if m.task != t {
      OthersStayPut(s, m.task, m.step, t);
    } else {
      OwnStepIsReload(s, t, m.step, next);
      ReloadDecides(s, t, m.step.reload, next);
    }
  }

  /** The move at the index decided the outcome. */
  ghost predicate DecidedAt(s: Pool, ms: seq<Move>, k: nat, t: Task, next: Servers, o: Outcome) {
    && k < |ms| && ms[k].task == t && Possible(s, ms[..k]) && Possible(s, ms[..k + 1])
    && Decides(After(s, ms[..k]), After(s, ms[..k + 1]), t, next, o)
  }

  /** The runs of `s` by the first moves of `ms` are those of `r` by the moves after the first. */
  ghost predicate Shifts(s: Pool, r: Pool, ms: seq<Move>) {
    forall k {:trigger ms[..k]} :: 0 < k <= |ms| ==>
      Possible(s, ms[..k]) && Possible(r, ms[1..][..k - 1]) && After(s, ms[..k]) == After(r, ms[1..][..k - 1])
  }

  lemma {:induction false} ShiftsAll(s: Pool, r: Pool, ms: seq<Move>)
    requires Possible(s, ms) && ms != [] && r == Apply(s, ms[0].task, ms[0].step)
    ensures Shifts(s, r, ms)
  {
    forall k | 0 < k <= |ms|
      ensures Possible(s, ms[..k]) && Possible(r, ms[1..][..k - 1]) && After(s, ms[..k]) == After(r, ms[1..][..k - 1])
    {
      Prefix(s, ms, k);
    }
  }

  lemma {:induction false} DecidedLater(s: Pool, r: Pool, ms: seq<Move>, k: nat, t: Task, next: Servers, o: Outcome)
    requires ms != [] && Shifts(s, r, ms) && DecidedAt(r, ms[1..], k, t, next, o)
    ensures DecidedAt(s, ms, k + 1, t, next, o)
  {
    assert Possible(s, ms[..k + 1]) && Possible(s, ms[..k + 2]);
  }

  lemma {:induction false} DecidedFirst(s: Pool, r: Pool, ms: seq<Move>, t: Task, next: Servers, o: Outcome)
    requires ms != [] && Shifts(s, r, ms) && ms[0].task == t && Decides(s, r, t, next, o)
    ensures DecidedAt(s, ms, 0, t, next, o)
  {
    assert Possible(s, ms[..1]);
    assert ms[1..][..0] == [] && ms[..0] == [];
    assert After(r, []) == r && After(s, []) == s;
  }

  /**
    Over every run: whatever a call that is to replace the servers by `next` reports in the end was
    decided by one of its steps. It reports success only if that step left the configuration and all
    live sessions with the servers asked for, a rollback only if it left them with the servers of
    before, a refusal only if it changed nothing, and otherwise a recorded fault.
   */
  lemma {:induction false} ReloadReports(s: Pool, ms: seq<Move>, t: Task, next: Servers) returns (k: nat)
    requires Possible(s, ms) && t in s.tasks && Replacing(s.tasks[t], next)
    requires t in After(s, ms).tasks && After(s, ms).tasks[t].Reloaded?
    ensures DecidedAt(s, ms, k, t, next, After(s, ms).tasks[t].outcome)
    decreases |ms|, 1
  {
    StepKeeps(s, ms[0].task, ms[0].step);
    var r: Pool := Apply(s, ms[0].task, ms[0].step);
    FirstStep(s, r, ms[0], t, next);
    ShiftsAll(s, r, ms);
    k := ReportsFrom(s, r, ms, t, next);
  }

  lemma {:induction false} ReportsFrom(s: Pool, r: Pool, ms: seq<Move>, t: Task, next: Servers) returns (k: nat)
    requires ms != [] && Shifts(s, r, ms) && Possible(r, ms[1..])
    requires t in r.tasks && t in After(r, ms[1..]).tasks && After(r, ms[1..]).tasks[t].Reloaded?
    requires Replacing(r.tasks[t], next) ||
      (ms[0].task == t && (r.tasks[t].ReloadEnd? || r.tasks[t].Reloaded?) &&
       Decides(s, r, t, next, r.tasks[t].outcome))
    ensures DecidedAt(s, ms, k, t, next, After(r, ms[1..]).tasks[t].outcome)
    decreases |ms|, 0
  {
    if Replacing(r.tasks[t], next) {
      var j := ReloadReports(r, ms[1..], t, next);
      DecidedLater(s, r, ms, j, t, next, After(r, ms[1..]).tasks[t].outcome);
      k := j + 1;
    } else {
      KeepsOutcome(r, ms[1..], t);
      DecidedFirst(s, r, ms, t, next, r.tasks[t].outcome);
      k := 0;
    }
  }

  /** The servers the channel's live session is known to have. */
  function ServersOf(s: State, k: Channel): Option<Servers> {
    if HasSession(s, k) then s.sessions[s.live[k]].servers else None
  }

  /**
    The call counts a failure exactly with a session whose servers are then unknown, and a success
    with one that then has the servers it was given; no other session is touched.
   */
  lemma {:induction false} FailuresAreCounted(s: Pool, t: Task, k: Channel, ok: bool)
    requires t in s.tasks && Replaces(s.tasks[t]) && k in s.tasks[t].todo && HasSession(s, k)
    ensures var pc := s.tasks[t];
      var r := if pc.Applying? then DoApplyOne(s, t, pc, k, ok) else DoRestoreOne(s, t, pc, k, ok);
      && (pc.Applying? ==> r.tasks[t].Applying? && r.tasks[t].servers == pc.servers)
      && (pc.Restoring? ==> r.tasks[t].Restoring?)
      && r.tasks[t].todo == pc.todo - {k} && (r.tasks[t].failed <==> pc.failed || ServersOf(r, k) == None)
      && (ok ==> ServersOf(r, k) == Some(if pc.Applying? then pc.servers else s.mcpConfig))
      && (!ok ==> ServersOf(r, k) == None)
      && forall j :: j in s.live && j != k && HasSession(s, j) ==> ServersOf(r, j) == ServersOf(s, j)
  {
    assert TaskOk(s, t, s.tasks[t]);
  }

  // ---------------------------------------------------------------- when a fault is recorded

  /** What the source turns into a worker fault: a session that could not be closed or put back. */
  predicate Breaks(s: State, t: Task, step: Step) {
    || step == Use(Evicted(false))
    || step == Sweep(Swept(false))
    || step == Reload(Staged(Fault))
    || (step == Reload(RestoreDone) && t in s.tasks && s.tasks[t].Restoring? && s.tasks[t].failed)
  }

  lemma {:induction false} ArriveFaults(s: State, t: Task, k: Channel)
    ensures DoArrive(s, t, k).faulted == s.faulted
  {
    if s.maintenance != 0 { assert DoArrive(s, t, k) == Goto(s, t, Parked(k)); }
  }

  lemma {:induction false} EnterFaults(s: State, t: Task, k: Channel, now: int)
    ensures DoEnter(s, t, k, now).faulted == s.faulted
  {
  }

  lemma {:induction false} StartMainFaults(s: State, t: Task, k: Channel)
    ensures DoStartMain(s, t, k).faulted == s.faulted
  {
    if k in s.live { assert DoStartMain(s, t, k) == LeaveSerial(s, t, Awaiting(k, s.live[k])); }
  }

  lemma {:induction false} UseFaults(s: State, t: Task, pc: Pc, step: UseStep)
    requires UseEnabled(s, t, pc, step) && Grounded(s, pc)
    ensures ApplyUse(s, t, pc, step).faulted <==> s.faulted || step == Evicted(false)
  {
    match step
    case Arrive => ArriveFaults(s, t, pc.key);
    case Enter(now) => EnterFaults(s, t, pc.key, now);
    case StartMain => StartMainFaults(s, t, pc.key);
    case Evicted(ok) => assert DoEvicted(s, t, pc, ok).faulted <==> s.faulted || !ok;
    case Opened(ok) => assert DoOpened(s, t, pc.key, pc.bundle, ok).faulted == s.faulted;
    case Resume => assert DoResume(s, t, pc.key, pc.bundle).faulted == s.faulted;
    case Leave(now) => assert DoLeave(s, t, pc.key, now).faulted == s.faulted;
    case _ =>
  }

  lemma {:induction false} SweepFaults(s: State, t: Task, pc: Pc, step: SweepStep)
    requires SweepEnabled(s, t, pc, step) && Grounded(s, pc)
    ensures ApplySweep(s, t, pc, step).faulted <==> s.faulted || step == Swept(false)
  {
    match step
    case SweepCheck =>
      if s.maintenance != 0 { assert ApplySweep(s, t, pc, step) == Goto(s, t, Left); }
    case SweepBegin =>
      if s.maintenance != 0 { assert ApplySweep(s, t, pc, step) == LeaveSerial(s, t, Left); }
    case SweepPick(_) =>
    case Swept(ok) => assert DoSwept(s, t, pc, ok).faulted <==> s.faulted || !ok;
    case SweepEnd =>
  }

  lemma {:induction false} StagedFaults(s: State, t: Task, next: Servers, result: Outcome)
    ensures DoStaged(s, t, next, result).faulted <==> s.faulted || result == Fault
  {
    if result == Replaced {
      assert DoStaged(s, t, next, result) ==
        Goto(s.(replacing := Some(t)), t, Applying(next, s.mcpConfig, s.live.Keys, false));
    }
  }

  lemma {:induction false} ApplyFaults(s: State, t: Task, pc: Pc)
    requires pc.Applying?
    ensures DoApplyDone(s, t, pc).faulted == s.faulted
  {
    if pc.failed { assert DoApplyDone(s, t, pc) == Goto(s, t, Restoring(pc.previous, s.live.Keys, false)); }
  }

  lemma {:induction false} RestoreFaults(s: State, t: Task, failed: bool)
    ensures DoRestoreDone(s, t, failed).faulted <==> s.faulted || failed
  {
    if !failed {
      assert DoRestoreDone(s, t, failed) == LeaveSerial(s.(replacing := None), t, ReloadEnd(true, RolledBack));
    }
  }

  lemma {:induction false} CheckFaults(s: State, t: Task, next: Option<Servers>, busy: bool)
    ensures DoReloadCheck(s, t, next, busy).faulted == s.faulted
  {
    if next.Some? && (busy || s.leases != map[]) {
      assert DoReloadCheck(s, t, next, busy) == Goto(s, t, Reloaded(Refused));
    }
  }

  lemma {:induction false} ReplaceFaults(s: State, t: Task, pc: Pc, step: ReloadStep)
    requires ReloadEnabled(s, t, pc, step) && Grounded(s, pc)
    requires !step.ReloadCheck? && !step.Refreshed? && !step.ReloadFinish?
    ensures ApplyReplace(s, t, pc, step).faulted <==>
      s.faulted || step == Staged(Fault) || (step == RestoreDone && pc.failed)
  {
    match step
    case Stage =>
    case Staged(result) => StagedFaults(s, t, pc.servers, result);
    case ApplyOne(_, _) =>
    case ApplyDone => ApplyFaults(s, t, pc);
    case RestoreOne(_, _) =>
    case RestoreDone => RestoreFaults(s, t, pc.failed);
  }

  lemma {:induction false} ReloadFaults(s: State, t: Task, pc: Pc, step: ReloadStep)
    requires ReloadEnabled(s, t, pc, step) && Grounded(s, pc)
    ensures ApplyReload(s, t, pc, step).faulted <==>
      s.faulted || step == Staged(Fault) || (step == RestoreDone && pc.failed)
  {
    match step
    case ReloadCheck(busy) => CheckFaults(s, t, pc.next, busy);
    case Refreshed(ok) => RefreshMoves(s, t, pc.next, ok);
    case ReloadFinish =>
    case _ => ReplaceFaults(s, t, pc, step);
  }

  /** A fault is recorded exactly by a step in which a session could not be closed or put back to its servers. */
  lemma {:induction false} FaultedExactly(s: State, t: Task, step: Step)
    requires Enabled(s, t, step) && (t in s.tasks ==> Grounded(s, s.tasks[t]))
    ensures Apply(s, t, step).faulted <==> s.faulted || Breaks(s, t, step)
  {
    match step
    case Spawn(_) =>
    case Use(u) => UseFaults(s, t, s.tasks[t], u);
    case Sweep(w) => SweepFaults(s, t, s.tasks[t], w);
    case Reload(r) => ReloadFaults(s, t, s.tasks[t], r);
  }
}
