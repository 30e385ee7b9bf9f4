/**
  What the access times of the channel pool mean: the time of a live channel is that of the last
  lookup, opening or return of it, so the eviction takes the channel whose last use is the oldest.
 */
module PoolAccess {
  import opened Common
  import opened Pool
  import opened PoolTheorems

  /** The step looks the channel up among the live ones, opens it, or gives back a lease on it. */
  predicate Uses(s: State, t: Task, step: Step, k: Channel) {
    step.Use? && t in s.tasks &&
    match step.use
    case Enter(_) => s.tasks[t].Entering? && s.tasks[t].key == k && k in s.live
    case Open(_) => s.tasks[t].Evicting? && s.tasks[t].key == k
    case Leave(_) => s.tasks[t].Leaving? && s.tasks[t].key == k
    case _ => false
  }

  /** The clock as the step reads it. */
  function Clock(step: Step): int {
    match step
    case Use(Enter(now)) => now
    case Use(Open(now)) => now
    case Use(Leave(now)) => now
    case _ => 0
  }

  /** Every live channel was live before, with the same time. */
  predicate Kept(s: State, r: State) {
    forall k :: k in r.live ==> k in s.live && AccessOf(r, k) == AccessOf(s, k)
  }

  /** The channel's time is now `now`, and other live channels have kept theirs. */
  predicate Stamped(s: State, r: State, key: Channel, now: int) {
    && (key in r.live ==> AccessOf(r, key) == now)
    && forall k :: k in r.live && k != key ==> k in s.live && AccessOf(r, k) == AccessOf(s, k)
  }

  lemma {:induction false} EnterStamps(s: State, t: Task, k: Channel, now: int)
    ensures var r := DoEnter(s, t, k, now); if k in s.live then Stamped(s, r, k, now) else Kept(s, r)
  {
  }

  lemma {:induction false} OpenStamps(s: State, t: Task, k: Channel, now: int)
    ensures Stamped(s, DoOpen(s, t, k, now), k, now)
  {
  }

  lemma {:induction false} LeaveStamps(s: State, t: Task, k: Channel, now: int)
    ensures Stamped(s, DoLeave(s, t, k, now), k, now) && DoLeave(s, t, k, now).live == s.live
  {
  }

  lemma {:induction false} RetiredKeepsTimes(s: State, t: Task, pc: Pc, ok: bool)
    requires pc.Retiring? && HasSession(s, pc.victim)
    ensures Kept(s, DoEvicted(s, t, pc, ok))
  {
  }

  lemma {:induction false} SweptKeepsTimes(s: State, t: Task, pc: Pc, ok: bool)
    requires pc.SweepRetiring? && HasSession(s, pc.victim)
    ensures Kept(s, DoSwept(s, t, pc, ok))
  {
  }

  lemma {:induction false} OpenedKeepsTimes(s: State, t: Task, k: Channel, b: Bundle, ok: bool)
    requires b in s.sessions
    ensures Kept(s, DoOpened(s, t, k, b, ok))
  {
  }

  predicate Untouched(s: State, r: State) {
    r.live == s.live && r.access == s.access
  }

  lemma {:induction false} ArriveQuiet(s: State, t: Task, k: Channel)
    ensures Untouched(s, DoArrive(s, t, k))
  {
    if s.maintenance != 0 { assert DoArrive(s, t, k) == Goto(s, t, Parked(k)); }
  }

  lemma {:induction false} StartMainQuiet(s: State, t: Task, k: Channel)
    ensures Untouched(s, DoStartMain(s, t, k))
  {
    if k in s.live { assert DoStartMain(s, t, k) == LeaveSerial(s, t, Awaiting(k, s.live[k])); }
  }

  lemma {:induction false} ResumeQuiet(s: State, t: Task, k: Channel, b: Bundle)
    requires b in s.sessions
    ensures Untouched(s, DoResume(s, t, k, b))
  {
  }

  lemma {:induction false} QuietUse(s: State, t: Task, pc: Pc, step: UseStep)
    requires UseEnabled(s, t, pc, step) && Grounded(s, pc)
    requires !step.Enter? && !step.Open? && !step.Leave? && !step.Evicted? && !step.Opened?
    ensures Untouched(s, ApplyUse(s, t, pc, step))
  {
    match step
    case Arrive => ArriveQuiet(s, t, pc.key);
    case EnterFails =>
    case StartMain => StartMainQuiet(s, t, pc.key);
    case NoSlot =>
    case Evict(v) =>
    case Resume => ResumeQuiet(s, t, pc.key, pc.bundle);
    case FinishUse =>
  }

  lemma {:induction false} UseStamps(s: State, t: Task, pc: Pc, step: UseStep)
    requires t in s.tasks && s.tasks[t] == pc && UseEnabled(s, t, pc, step) && Grounded(s, pc)
    ensures var r := ApplyUse(s, t, pc, step);
      if pc.Entering? || pc.Evicting? || pc.Leaving? then
        if Uses(s, t, Use(step), pc.key) then Stamped(s, r, pc.key, Clock(Use(step))) else Kept(s, r)
      else Kept(s, r)
  {
    match step
    case Enter(now) => EnterStamps(s, t, pc.key, now);
    case Open(now) => OpenStamps(s, t, pc.key, now);
    case Leave(now) => LeaveStamps(s, t, pc.key, now);
    case Evicted(ok) => RetiredKeepsTimes(s, t, pc, ok);
    case Opened(ok) => OpenedKeepsTimes(s, t, pc.key, pc.bundle, ok);
    case _ => QuietUse(s, t, pc, step);
  }

  lemma {:induction false} SweepQuiet(s: State, t: Task, pc: Pc, step: SweepStep)
    requires SweepEnabled(s, t, pc, step) && Grounded(s, pc) && !step.Swept?
    ensures Untouched(s, ApplySweep(s, t, pc, step))
  {
    match step
    case SweepCheck => if s.maintenance != 0 { assert ApplySweep(s, t, pc, step) == Goto(s, t, Left); }
    case SweepBegin => if s.maintenance != 0 { assert ApplySweep(s, t, pc, step) == LeaveSerial(s, t, Left); }
    case SweepPick(v) =>
    case SweepEnd =>
  }

  lemma {:induction false} SweepKeepsTimes(s: State, t: Task, pc: Pc, step: SweepStep)
    requires SweepEnabled(s, t, pc, step) && Grounded(s, pc)
    ensures Kept(s, ApplySweep(s, t, pc, step))
  {
    if step.Swept? { SweptKeepsTimes(s, t, pc, step.ok); } else { SweepQuiet(s, t, pc, step); }
  }

  lemma {:induction false} CheckQuiet(s: State, t: Task, next: Option<Servers>, busy: bool)
    ensures Untouched(s, DoReloadCheck(s, t, next, busy))
  {
    if next.Some? && (busy || s.leases != map[]) {
      assert DoReloadCheck(s, t, next, busy) == Goto(s, t, Reloaded(Refused));
    }
  }

  lemma {:induction false} RefreshQuiet(s: State, t: Task, next: Option<Servers>, ok: bool)
    ensures Untouched(s, FinishMaintenance(s)) && Untouched(s, DoRefreshed(s, t, next, ok))
  {
    var f := FinishMaintenance(s);
    assert Untouched(s, f);
    if ok && next.Some? {
      assert DoRefreshed(s, t, next, ok) == Goto(f.(serial := f.serial + [t]), t, ReloadQueued(next.value));
    } else {
      assert DoRefreshed(s, t, next, ok) == Goto(f, t, ReloadEnd(next.Some?, if ok then Replaced else Refused));
    }
  }

  lemma {:induction false} StagedQuiet(s: State, t: Task, next: Servers, result: Outcome)
    ensures Untouched(s, DoStaged(s, t, next, result))
  {
    if result == Replaced {
      assert DoStaged(s, t, next, result) ==
        Goto(s.(replacing := Some(t)), t, Applying(next, s.mcpConfig, s.live.Keys, false));
    }
  }

  lemma {:induction false} ApplyQuiet(s: State, t: Task, pc: Pc)
    requires pc.Applying?
    ensures Untouched(s, DoApplyDone(s, t, pc))
  {
    if pc.failed { assert DoApplyDone(s, t, pc) == Goto(s, t, Restoring(pc.previous, s.live.Keys, false)); }
  }

  lemma {:induction false} RestoreQuiet(s: State, t: Task, failed: bool)
    ensures Untouched(s, DoRestoreDone(s, t, failed))
  {
    if !failed {
      assert DoRestoreDone(s, t, failed) == LeaveSerial(s.(replacing := None), t, ReloadEnd(true, RolledBack));
    }
  }

  lemma {:induction false} ReplaceQuiet(s: State, t: Task, pc: Pc, step: ReloadStep)
    requires ReloadEnabled(s, t, pc, step) && Grounded(s, pc)
    requires !step.ReloadCheck? && !step.Refreshed? && !step.ReloadFinish?
    ensures Untouched(s, ApplyReplace(s, t, pc, step))
  {
    match step
    case Stage =>
    case Staged(result) => StagedQuiet(s, t, pc.servers, result);
    case ApplyOne(_, _) =>
    case ApplyDone => ApplyQuiet(s, t, pc);
    case RestoreOne(_, _) =>
    case RestoreDone => RestoreQuiet(s, t, pc.failed);
  }

  lemma {:induction false} ReloadKeepsTimes(s: State, t: Task, pc: Pc, step: ReloadStep)
    requires ReloadEnabled(s, t, pc, step) && Grounded(s, pc)
    ensures Untouched(s, ApplyReload(s, t, pc, step))
  {
    match step
    case ReloadCheck(busy) => CheckQuiet(s, t, pc.next, busy);
    case Refreshed(ok) => RefreshQuiet(s, t, pc.next, ok);
    case ReloadFinish => RefreshQuiet(s, t, None, true);
    case _ => ReplaceQuiet(s, t, pc, step);
  }

  /** Every step gives a live channel the time it reads exactly when it uses it, and keeps the time otherwise. */
  lemma {:induction false} StepStamps(s: State, t: Task, step: Step, k: Channel)
    requires Enabled(s, t, step) && (t in s.tasks ==> Grounded(s, s.tasks[t])) && k in Apply(s, t, step).live
    ensures if Uses(s, t, step, k) then AccessOf(Apply(s, t, step), k) == Clock(step)
      else k in s.live && AccessOf(Apply(s, t, step), k) == AccessOf(s, k)
  {
    match step
    case Spawn(_) =>
    case Use(u) => UseStamps(s, t, s.tasks[t], u);
    case Sweep(w) => SweepKeepsTimes(s, t, s.tasks[t], w);
    case Reload(r) => ReloadKeepsTimes(s, t, s.tasks[t], r);
  }

  /** The time of the last use of the channel in the run, and the time given where it has none. */
  ghost function LastUse(s: Pool, ms: seq<Move>, k: Channel, time: int): int
    requires Possible(s, ms)
    decreases |ms|
  {
    if ms == [] then time
    else
      StepKeeps(s, ms[0].task, ms[0].step);
      LastUse(Apply(s, ms[0].task, ms[0].step), ms[1..], k,
              if Uses(s, ms[0].task, ms[0].step, k) then Clock(ms[0].step) else time)
  }

  lemma {:induction false} AccessIsLastUse(s: Pool, ms: seq<Move>, k: Channel, time: int)
    requires Possible(s, ms) && k in After(s, ms).live && (k in s.live ==> AccessOf(s, k) == time)
    ensures AccessOf(After(s, ms), k) == LastUse(s, ms, k, time)
    decreases |ms|
  {
    if ms != [] {
      var t, step := ms[0].task, ms[0].step;
      StepKeeps(s, t, step);
      if k in Apply(s, t, step).live { StepStamps(s, t, step, k); }
      AccessIsLastUse(Apply(s, t, step), ms[1..], k, if Uses(s, t, step, k) then Clock(step) else time);
    }
  }

  /** In every run an eviction takes the idle channel whose last use is the oldest. */
  lemma {:induction false} OldestUseIsEvicted(s: Pool, ms: seq<Move>, t: Task, v: Channel)
    requires Possible(s, ms) && t in After(s, ms).tasks
    requires UseEnabled(After(s, ms), t, After(s, ms).tasks[t], Evict(v))
    ensures forall k :: k in After(s, ms).live && k !in After(s, ms).leases ==>
      LastUse(s, ms, v, AccessOf(s, v)) <= LastUse(s, ms, k, AccessOf(s, k))
  {
    var r := After(s, ms);
    AccessIsLastUse(s, ms, v, AccessOf(s, v));
    forall k | k in r.live && k !in r.leases ensures AccessOf(r, k) == LastUse(s, ms, k, AccessOf(s, k)) {
      AccessIsLastUse(s, ms, k, AccessOf(s, k));
    }
  }
}
