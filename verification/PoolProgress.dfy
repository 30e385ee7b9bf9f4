/**
  How long the calls of the channel pool can go on. Every call has a rank that its own steps bring
  down; only the end of a maintenance raises the rank of others, by one for each caller it wakes,
  and a step of a reload pays for that. So without new calls every interleaving is finite, and one
  that cannot go on has settled every call.
 */
module PoolProgress {
  import opened Common
  import opened Pool
  import opened PoolSteps
  import opened PoolReload
  import opened PoolTheorems

  // ---------------------------------------------------------------- ranks

  /** How many steps a reload may still need. */
  function ReloadRank(limit: nat, pc: Pc): nat {
    match pc
    case ReloadStart(_) => 2 * limit + 7
    case Refreshing(_) => 2 * limit + 6
    case ReloadQueued(_) => 2 * limit + 5
    case Staging(_) => 2 * limit + 4
    case Applying(_, _, todo, _) => limit + 3 + |todo|
    case Restoring(_, todo, _) => 2 + |todo|
    case ReloadEnd(_, _) => 1
    case _ => 0
  }

  /** How many steps a use or a sweep may still need while nobody wakes it. */
  function CallRank(limit: nat, live: nat, pc: Pc): nat {
    match pc
    case Arriving(_) => 11
    case Parked(_) => 10
    case Entering(_, _) => 9
    case Queued(_) => 8
    case Evicting(_, _, passes) => if passes == 0 then 7 else 5
    case Retiring(_, _, _, _) => 6
    case Creating(_, _) => 4
    case Awaiting(_, _) => 3
    case Using(_, _) => 2
    case Leaving(_) => 1
    case SweepStart => 2 * limit + 4
    case SweepQueued => 2 * limit + 3
    case Sweeping => 2 * live + 2
    case SweepRetiring(_) => 2 * live + 1
    case _ => 0
  }

  /** A step of a reload is worth one step of every call. */
  function Rank(limit: nat, live: nat, calls: nat, pc: Pc): nat {
    (calls + 1) * ReloadRank(limit, pc) + CallRank(limit, live, pc)
  }

  function RankIn(s: State, pc: Pc): nat {
    Rank(s.limit, |s.live|, |s.tasks|, pc)
  }

  ghost function Sum(ranks: map<Task, nat>): nat
    decreases |ranks|
  {
    if ranks == map[] then 0
    else
      var t :| t in ranks;
      ShrinksBy(ranks, t);
      ranks[t] + Sum(ranks - {t})
  }

  function Ranks(s: State): map<Task, nat> {
    map t | t in s.tasks :: RankIn(s, s.tasks[t])
  }

  /** A bound on the steps that the calls in progress can still make. */
  ghost function Work(s: State): nat {
    Sum(Ranks(s))
  }

  // ---------------------------------------------------------------- sums

  lemma {:induction false} ShrinksBy(ranks: map<Task, nat>, t: Task)
    requires t in ranks
    ensures |ranks - {t}| == |ranks| - 1
  {
    assert (ranks - {t}).Keys == ranks.Keys - {t};
    assert |ranks.Keys| == |ranks| && |(ranks - {t}).Keys| == |ranks - {t}|;
  }

  lemma {:induction false} SumWithout(ranks: map<Task, nat>, t: Task)
    requires t in ranks
    ensures Sum(ranks) == ranks[t] + Sum(ranks - {t})
    decreases |ranks|
  {
    var u :| u in ranks && Sum(ranks) == ranks[u] + Sum(ranks - {u});
    if u != t {
      ShrinksBy(ranks, u);
      SumWithout(ranks - {u}, t);
      SumWithout(ranks - {t}, u);
      assert ranks - {u} - {t} == ranks - {t} - {u};
    }
  }

  /** No rank in `b` is more than its rank in `a`, by one more where callers are woken. */
  ghost predicate Rises(a: map<Task, nat>, b: map<Task, nat>, wake: bool) {
    a.Keys == b.Keys && forall u :: u in a ==> b[u] <= a[u] + (if wake then 1 else 0)
  }

  lemma {:induction false} SumGrows(a: map<Task, nat>, b: map<Task, nat>, wake: bool)
    requires Rises(a, b, wake)
    ensures Sum(b) <= Sum(a) + if wake then |a| else 0
    decreases |a|
  {
    if a == map[] {
      assert b == map[];
    } else {
      var t :| t in a;
      SumWithout(a, t);
      SumWithout(b, t);
      ShrinksBy(a, t);
      SumGrows(a - {t}, b - {t}, wake);
    }
  }

  /** One rank falls by more than the others rise together. */
  lemma {:induction false} SumFalls(a: map<Task, nat>, b: map<Task, nat>, t: Task, wake: bool)
    requires a.Keys == b.Keys && t in a && Rises(a - {t}, b - {t}, wake)
    requires b[t] + (if wake then |a| else 0) < a[t]
    ensures Sum(b) < Sum(a)
  {
    SumWithout(a, t);
    SumWithout(b, t);
    ShrinksBy(a, t);
    SumGrows(a - {t}, b - {t}, wake);
  }

  // ---------------------------------------------------------------- every step brings the end nearer

  lemma {:induction false} OtherRank(limit: nat, live: nat, live': nat, calls: nat, pc: Pc)
    requires live' <= live || !Critical(pc)
    ensures Rank(limit, live', calls, pc) <= Rank(limit, live, calls, pc)
  {
  }

  lemma {:induction false} SameCalls(s: State, r: State)
    requires s.tasks.Keys == r.tasks.Keys
    ensures |s.tasks| == |r.tasks| && Ranks(s).Keys == Ranks(r).Keys == s.tasks.Keys && |Ranks(s)| == |s.tasks|
  {
    assert |s.tasks.Keys| == |s.tasks| && |r.tasks.Keys| == |r.tasks|;
    assert |Ranks(s).Keys| == |Ranks(s)| && Ranks(s).Keys == s.tasks.Keys && Ranks(r).Keys == r.tasks.Keys;
  }

  /** One call steps: its rank falls, and channels are added only at the head of the queue. */
  predicate RankFalls(limit: nat, live: nat, live': nat, before: Pc, after: Pc) {
    && (live' <= live || Critical(before))
    && ReloadRank(limit, after) <= ReloadRank(limit, before)
    && CallRank(limit, live', after) <= CallRank(limit, live, before)
    && (ReloadRank(limit, after) < ReloadRank(limit, before) ||
         CallRank(limit, live', after) < CallRank(limit, live, before))
  }

  /** Where one step takes a call, and what it does to the number of channels. */
  predicate Next(limit: nat, live: nat, live': nat, before: Pc, after: Pc) {
    match before
    case Arriving(_) => after.Parked? || after.Entering?
    case Entering(_, _) => after.Awaiting? || after.Queued? || after.Leaving?
    case Queued(_) => after.Awaiting? || (after.Evicting? && after.passes == 0)
    case Evicting(_, _, passes) => after.Leaving? || after.Creating? || (passes == 0 && after.Retiring?)
    case Retiring(_, _, _, _) => after.Leaving? || (after.Evicting? && after.passes > 0)
    case Creating(_, _) => after.Leaving? || after.Using?
    case Awaiting(_, _) => after.Leaving? || after.Using?
    case Using(_, _) => after.Leaving?
    case Leaving(_) => after.Left?
    case SweepStart => after.Left? || after.SweepQueued?
    case SweepQueued => live' <= limit && (after.Left? || after.Sweeping?)
    case Sweeping => live' <= live && (after.Left? || after.SweepRetiring?)
    case SweepRetiring(_) => live' < live && (after.Left? || after.Sweeping?)
    case ReloadStart(_) => after.Reloaded? || after.Refreshing?
    case Refreshing(_) => after.ReloadQueued? || after.ReloadEnd?
    case ReloadQueued(_) => after.Staging?
    case Staging(_) => after.ReloadEnd? || (after.Applying? && |after.todo| <= limit)
    case Applying(_, _, todo, _) =>
      after.ReloadEnd? || (after.Applying? && |after.todo| < |todo|) || (after.Restoring? && |after.todo| <= limit)
    case Restoring(_, todo, _) => after.ReloadEnd? || (after.Restoring? && |after.todo| < |todo|)
    case ReloadEnd(_, _) => after.Reloaded?
    case _ => false
  }

  lemma {:induction false} UseRankFalls(limit: nat, live: nat, live': nat, before: Pc, after: Pc)
    requires Next(limit, live, live', before, after) && (live' <= live || Critical(before))
    requires ReloadRank(limit, before) == 0
    ensures RankFalls(limit, live, live', before, after)
  {
  }

  lemma {:induction false} ReloadRankFalls(limit: nat, live: nat, live': nat, before: Pc, after: Pc)
    requires Next(limit, live, live', before, after) && (live' <= live || Critical(before))
    requires ReloadRank(limit, before) > 0
    ensures RankFalls(limit, live, live', before, after)
  {
  }

  predicate Falls(s: State, r: State, t: Task, before: Pc)
    requires t in r.tasks
  {
    (|r.live| <= |s.live| || Critical(before)) && Next(s.limit, |s.live|, |r.live|, before, r.tasks[t])
  }

  /** A step of a reload is worth more than a wakeup of every other call. */
  lemma {:induction false} Scale(calls: nat, low: nat, high: nat)
    requires low < high
    ensures (calls + 1) * low + calls < (calls + 1) * high
  {
    assert (calls + 1) * (low + 1) <= (calls + 1) * high;
  }

  lemma {:induction false} WholeRankFalls(limit: nat, live: nat, live': nat, calls: nat, before: Pc, after: Pc)
    requires RankFalls(limit, live, live', before, after)
    ensures Rank(limit, live', calls, after) < Rank(limit, live, calls, before)
  {
    if ReloadRank(limit, after) < ReloadRank(limit, before) {
      Scale(calls, ReloadRank(limit, after), ReloadRank(limit, before));
    }
  }

  lemma {:induction false} OthersRest(s: State, r: State, t: Task)
    requires TasksOk(s) && t in s.tasks && OnlyMoves(s, r, t) && (|r.live| <= |s.live| || Critical(s.tasks[t]))
    requires r.tasks.Keys == s.tasks.Keys && |r.tasks| == |s.tasks|
    ensures forall u :: u in s.tasks && u != t ==> RankIn(r, r.tasks[u]) <= RankIn(s, s.tasks[u])
  {
    if Critical(s.tasks[t]) { OnlyHeadRuns(s, t); }
    forall u | u in s.tasks && u != t ensures RankIn(r, r.tasks[u]) <= RankIn(s, s.tasks[u]) {
      assert r.tasks[u] == s.tasks[u];
      OtherRank(s.limit, |s.live|, |r.live|, |s.tasks|, s.tasks[u]);
    }
  }

  lemma {:induction false} MoveFalls(s: State, r: State, t: Task)
    requires TasksOk(s) && t in s.tasks && OnlyMoves(s, r, t) && Falls(s, r, t, s.tasks[t])
    ensures r.tasks.Keys == s.tasks.Keys && Work(r) < Work(s)
  {
    assert r.tasks.Keys == s.tasks.Keys;
    SameCalls(s, r);
    OthersRest(s, r, t);
    if ReloadRank(s.limit, s.tasks[t]) == 0 {
      UseRankFalls(s.limit, |s.live|, |r.live|, s.tasks[t], r.tasks[t]);
    } else {
      ReloadRankFalls(s.limit, |s.live|, |r.live|, s.tasks[t], r.tasks[t]);
    }
    WholeRankFalls(s.limit, |s.live|, |r.live|, |s.tasks|, s.tasks[t], r.tasks[t]);
    SumFalls(Ranks(s), Ranks(r), t, false);
  }

  /** The end of a maintenance wakes parked callers. */
  ghost predicate Wakes(s: State, r: State, t: Task, before: Pc, after: Pc) {
    && s.tasks.Keys == r.tasks.Keys && r.limit == s.limit && r.live == s.live
    && t in s.tasks && s.tasks[t] == before && r.tasks[t] == after && Woken(s.tasks, r.tasks[t := before])
    && (before.Refreshing? || before.ReloadEnd?) && Next(s.limit, |s.live|, |r.live|, before, after)
  }

  lemma {:induction false} OthersWake(s: State, r: State, t: Task, before: Pc, after: Pc)
    requires Wakes(s, r, t, before, after) && |s.tasks| == |r.tasks|
    ensures forall u :: u in s.tasks && u != t ==> RankIn(r, r.tasks[u]) <= RankIn(s, s.tasks[u]) + 1
  {
    forall u | u in s.tasks && u != t ensures RankIn(r, r.tasks[u]) <= RankIn(s, s.tasks[u]) + 1 {
      assert r.tasks[t := before][u] == r.tasks[u];
    }
  }

  lemma {:induction false} WakerPays(limit: nat, live: nat, calls: nat, before: Pc, after: Pc)
    requires (before.Refreshing? || before.ReloadEnd?) && Next(limit, live, live, before, after)
    ensures Rank(limit, live, calls, after) + calls < Rank(limit, live, calls, before)
  {
    ReloadRankFalls(limit, live, live, before, after);
    Scale(calls, ReloadRank(limit, after), ReloadRank(limit, before));
  }

  lemma {:induction false} WakeFalls(s: State, r: State, t: Task, before: Pc, after: Pc)
    requires Wakes(s, r, t, before, after)
    ensures Work(r) < Work(s)
  {
    SameCalls(s, r);
    OthersWake(s, r, t, before, after);
    WakerPays(s.limit, |s.live|, |s.tasks|, before, after);
    SumFalls(Ranks(s), Ranks(r), t, true);
  }

  // ---------------------------------------------------------------- the steps, one after the other

  lemma {:induction false} FewerChannels(live: map<Channel, Bundle>, k: Channel)
    ensures |live - {k}| <= |live| && (k in live ==> |live - {k}| < |live|)
  {
    if k in live { MapMinus(live, k); } else { assert live - {k} == live; }
  }

  lemma {:induction false} ArriveFalls(s: State, t: Task, k: Channel)
    ensures Falls(s, DoArrive(s, t, k), t, Arriving(k))
  {
  }

  lemma {:induction false} EnterFalls(s: State, t: Task, k: Channel, after: Option<nat>, now: int)
    ensures Falls(s, DoEnter(s, t, k, now), t, Entering(k, after))
  {
  }

  lemma {:induction false} EnterFailsFalls(s: State, t: Task, k: Channel, after: Option<nat>)
    ensures Falls(s, Goto(s, t, Leaving(k)), t, Entering(k, after))
  {
  }

  lemma {:induction false} StartMainFalls(s: State, t: Task, k: Channel)
    ensures Falls(s, DoStartMain(s, t, k), t, Queued(k))
  {
  }

  lemma {:induction false} EvictFalls(s: State, t: Task, k: Channel, e: nat, v: Channel)
    ensures Falls(s, DoEvict(s, t, Evicting(k, e, 0), v), t, Evicting(k, e, 0))
  {
  }

  lemma {:induction false} OpenFalls(s: State, t: Task, k: Channel, e: nat, n: nat, now: int)
    ensures Falls(s, DoOpen(s, t, k, now), t, Evicting(k, e, n))
  {
  }

  lemma {:induction false} NoSlotFalls(s: State, t: Task, k: Channel, e: nat, n: nat)
    ensures Falls(s, LeaveSerial(s, t, Leaving(k)), t, Evicting(k, e, n))
  {
  }

  lemma {:induction false} EvictedFalls(s: State, t: Task, k: Channel, v: Channel, e: nat, n: nat, ok: bool)
    requires HasSession(s, v)
    ensures Falls(s, DoEvicted(s, t, Retiring(k, v, e, n), ok), t, Retiring(k, v, e, n))
  {
    FewerChannels(s.live, v);
  }

  lemma {:induction false} OpenedFalls(s: State, t: Task, k: Channel, b: Bundle, ok: bool)
    requires b in s.sessions
    ensures Falls(s, DoOpened(s, t, k, b, ok), t, Creating(k, b))
  {
    FewerChannels(s.live, k);
  }

  lemma {:induction false} ResumeFalls(s: State, t: Task, k: Channel, b: Bundle)
    requires b in s.sessions
    ensures Falls(s, DoResume(s, t, k, b), t, Awaiting(k, b))
  {
  }

  lemma {:induction false} FinishUseFalls(s: State, t: Task, k: Channel, b: Bundle)
    ensures Falls(s, Goto(s, t, Leaving(k)), t, Using(k, b))
  {
  }

  lemma {:induction false} LeaveFalls(s: State, t: Task, k: Channel, now: int)
    ensures Falls(s, DoLeave(s, t, k, now), t, Leaving(k))
  {
  }

  lemma {:induction false} SweptFalls(s: State, t: Task, v: Channel, ok: bool)
    requires HasSession(s, v)
    ensures Falls(s, DoSwept(s, t, SweepRetiring(v), ok), t, SweepRetiring(v))
  {
    FewerChannels(s.live, v);
  }

  lemma {:induction false} SweepCheckFalls(s: State, t: Task)
    ensures Falls(s, ApplySweep(s, t, SweepStart, SweepCheck), t, SweepStart)
  {
    var r := ApplySweep(s, t, SweepStart, SweepCheck);
    if s.maintenance != 0 {
      assert r == Goto(s, t, Left);
    } else {
      assert r == Goto(s.(serial := s.serial + [t]), t, SweepQueued);
    }
  }

  lemma {:induction false} SweepBeginFalls(s: State, t: Task)
    requires SweepEnabled(s, t, SweepQueued, SweepBegin) && |s.live| <= s.limit
    ensures Falls(s, ApplySweep(s, t, SweepQueued, SweepBegin), t, SweepQueued)
  {
    var r := ApplySweep(s, t, SweepQueued, SweepBegin);
    if s.maintenance != 0 {
      assert r == LeaveSerial(s, t, Left);
    } else {
      assert r == Goto(s, t, Sweeping);
    }
  }

  lemma {:induction false} SweepingFalls(s: State, t: Task, step: SweepStep)
    requires SweepEnabled(s, t, Sweeping, step)
    ensures Falls(s, ApplySweep(s, t, Sweeping, step), t, Sweeping)
  {
  }

  lemma {:induction false} CheckFalls(s: State, t: Task, next: Option<Servers>, busy: bool)
    ensures Falls(s, DoReloadCheck(s, t, next, busy), t, ReloadStart(next))
  {
  }

  lemma {:induction false} StageFalls(s: State, t: Task, next: Servers)
    ensures Falls(s, Goto(s, t, Staging(next)), t, ReloadQueued(next))
  {
  }

  lemma {:induction false} StagedFalls(s: State, t: Task, next: Servers, result: Outcome)
    requires |s.live| <= s.limit
    ensures Falls(s, DoStaged(s, t, next, result), t, Staging(next))
  {
    assert |s.live.Keys| == |s.live|;
  }

  lemma {:induction false} ApplyOneFalls(s: State, t: Task, pc: Pc, k: Channel, ok: bool)
    requires pc.Applying? && k in pc.todo && HasSession(s, k)
    ensures Falls(s, DoApplyOne(s, t, pc, k, ok), t, pc)
  {
    assert |pc.todo - {k}| == |pc.todo| - 1;
  }

  lemma {:induction false} ApplyDoneFalls(s: State, t: Task, next: Servers, previous: Servers, failed: bool)
    requires |s.live| <= s.limit
    ensures var pc := Applying(next, previous, {}, failed); Falls(s, DoApplyDone(s, t, pc), t, pc)
  {
    assert |s.live.Keys| == |s.live|;
  }

  lemma {:induction false} RestoreOneFalls(s: State, t: Task, pc: Pc, k: Channel, ok: bool)
    requires pc.Restoring? && k in pc.todo && HasSession(s, k)
    ensures Falls(s, DoRestoreOne(s, t, pc, k, ok), t, pc)
  {
    assert |pc.todo - {k}| == |pc.todo| - 1;
  }

  lemma {:induction false} RestoreDoneFalls(s: State, t: Task, pc: Pc)
    requires pc.Restoring?
    ensures Falls(s, DoRestoreDone(s, t, pc.failed), t, pc)
  {
  }

  lemma {:induction false} FinishWakesOthers(s: State, t: Task, before: Pc, after: Pc, r: State)
    requires t in s.tasks && s.tasks[t] == before
    requires r.tasks == FinishMaintenance(s).tasks[t := after] && r.limit == s.limit && r.live == s.live
    requires (before.Refreshing? || before.ReloadEnd?) && Next(s.limit, |s.live|, |r.live|, before, after)
    ensures Wakes(s, r, t, before, after)
  {
    FinishWakes(s);
    assert r.tasks[t := before] == FinishMaintenance(s).tasks;
  }

  lemma {:induction false} RefreshMoves(s: State, t: Task, next: Option<Servers>, ok: bool)
    ensures var r := DoRefreshed(s, t, next, ok);
      && r.tasks == FinishMaintenance(s).tasks[t := r.tasks[t]] && r.live == s.live
      && Next(s.limit, |s.live|, |s.live|, Refreshing(next), r.tasks[t])
  {
    var r := DoRefreshed(s, t, next, ok);
    if ok && next.Some? {
      assert r.tasks[t] == ReloadQueued(next.value);
    } else {
      assert r.tasks[t] == ReloadEnd(next.Some?, if ok then Replaced else Refused);
    }
  }

  lemma {:induction false} RefreshWakes(s: State, t: Task, next: Option<Servers>, ok: bool)
    requires t in s.tasks && s.tasks[t] == Refreshing(next)
    ensures var r := DoRefreshed(s, t, next, ok); Wakes(s, r, t, Refreshing(next), r.tasks[t])
  {
    var r := DoRefreshed(s, t, next, ok);
    RefreshMoves(s, t, next, ok);
    FinishWakesOthers(s, t, Refreshing(next), r.tasks[t], r);
  }

  lemma {:induction false} EndWakes(s: State, t: Task, pc: Pc)
    requires t in s.tasks && s.tasks[t] == pc && pc.ReloadEnd?
    ensures Wakes(s, DoReloadFinish(s, t, pc.outcome), t, pc, Reloaded(pc.outcome))
  {
    FinishWakesOthers(s, t, pc, Reloaded(pc.outcome), DoReloadFinish(s, t, pc.outcome));
  }

  // ---------------------------------------------------------------- every step uses up work

  lemma {:induction false} EntryFalls(s: State, t: Task, pc: Pc, step: UseStep)
    requires t in s.tasks && UseEnabled(s, t, pc, step) && Grounded(s, pc)
    requires step.Arrive? || step.Enter? || step.EnterFails? || step.StartMain? || step.Open? || step.NoSlot?
    ensures Falls(s, ApplyUse(s, t, pc, step), t, pc)
  {
    match step
    case Arrive => ArriveFalls(s, t, pc.key);
    case Enter(now) => EnterFalls(s, t, pc.key, pc.after, now);
    case EnterFails => EnterFailsFalls(s, t, pc.key, pc.after);
    case StartMain => StartMainFalls(s, t, pc.key);
    case NoSlot => NoSlotFalls(s, t, pc.key, pc.entry, pc.passes);
    case Open(now) => OpenFalls(s, t, pc.key, pc.entry, pc.passes, now);
  }

  lemma {:induction false} ExitFalls(s: State, t: Task, pc: Pc, step: UseStep)
    requires t in s.tasks && UseEnabled(s, t, pc, step) && Grounded(s, pc) && (step.Evict? ==> pc.passes == 0)
    requires step.Evict? || step.Evicted? || step.Opened? || step.Resume? || step.FinishUse? || step.Leave?
    ensures Falls(s, ApplyUse(s, t, pc, step), t, pc)
  {
    match step
    case Evict(v) => EvictFalls(s, t, pc.key, pc.entry, v);
    case Evicted(ok) => EvictedFalls(s, t, pc.key, pc.victim, pc.entry, pc.passes, ok);
    case Opened(ok) => OpenedFalls(s, t, pc.key, pc.bundle, ok);
    case Resume => ResumeFalls(s, t, pc.key, pc.bundle);
    case FinishUse => FinishUseFalls(s, t, pc.key, pc.bundle);
    case Leave(now) => LeaveFalls(s, t, pc.key, now);
  }

  lemma {:induction false} UseFalls(s: Pool, t: Task, step: UseStep)
    requires t in s.tasks && UseEnabled(s, t, s.tasks[t], step) && Grounded(s, s.tasks[t])
    ensures var r := ApplyUse(s, t, s.tasks[t], step); r.tasks.Keys == s.tasks.Keys && Work(r) < Work(s)
  {
    var pc := s.tasks[t];
    if step.Evict? { EvictionRunsOnce(s, t, step.victim); }
    if step.Evict? || step.Evicted? || step.Opened? || step.Resume? || step.FinishUse? || step.Leave? {
      ExitFalls(s, t, pc, step);
    } else {
      EntryFalls(s, t, pc, step);
    }
    MoveFalls(s, ApplyUse(s, t, pc, step), t);
  }

  lemma {:induction false} SweepStepFalls(s: State, t: Task, pc: Pc, step: SweepStep)
    requires t in s.tasks && SweepEnabled(s, t, pc, step) && Grounded(s, pc) && |s.live| <= s.limit
    ensures Falls(s, ApplySweep(s, t, pc, step), t, pc)
  {
    match step
    case SweepCheck => assert pc == SweepStart; SweepCheckFalls(s, t);
    case SweepBegin => assert pc == SweepQueued; SweepBeginFalls(s, t);
    case SweepPick(_) => assert pc == Sweeping; SweepingFalls(s, t, step);
    case SweepEnd => assert pc == Sweeping; SweepingFalls(s, t, step);
    case Swept(ok) => SweptFalls(s, t, pc.victim, ok);
  }

  lemma {:induction false} SweepFalls(s: Pool, t: Task, step: SweepStep)
    requires t in s.tasks && SweepEnabled(s, t, s.tasks[t], step) && Grounded(s, s.tasks[t])
    ensures var r := ApplySweep(s, t, s.tasks[t], step); r.tasks.Keys == s.tasks.Keys && Work(r) < Work(s)
  {
    SweepStepFalls(s, t, s.tasks[t], step);
    MoveFalls(s, ApplySweep(s, t, s.tasks[t], step), t);
  }

  lemma {:induction false} ReplaceFalls(s: State, t: Task, pc: Pc, step: ReloadStep)
    requires t in s.tasks && ReloadEnabled(s, t, pc, step) && Grounded(s, pc) && |s.live| <= s.limit
    requires !step.ReloadCheck? && !step.Refreshed? && !step.ReloadFinish?
    ensures Falls(s, ApplyReplace(s, t, pc, step), t, pc)
  {
    match step
    case Stage => StageFalls(s, t, pc.servers);
    case Staged(result) => StagedFalls(s, t, pc.servers, result);
    case ApplyOne(k, ok) => ApplyOneFalls(s, t, pc, k, ok);
    case ApplyDone => ApplyDoneFalls(s, t, pc.servers, pc.previous, pc.failed);
    case RestoreOne(k, ok) => RestoreOneFalls(s, t, pc, k, ok);
    case RestoreDone => RestoreDoneFalls(s, t, pc);
  }

  lemma {:induction false} ReloadFalls(s: Pool, t: Task, step: ReloadStep)
    requires t in s.tasks && ReloadEnabled(s, t, s.tasks[t], step) && Grounded(s, s.tasks[t])
    ensures var r := ApplyReload(s, t, s.tasks[t], step); r.tasks.Keys == s.tasks.Keys && Work(r) < Work(s)
  {
    var pc := s.tasks[t];
    match step
    case ReloadCheck(busy) =>
      CheckFalls(s, t, pc.next, busy);
      MoveFalls(s, DoReloadCheck(s, t, pc.next, busy), t);
    case Refreshed(ok) =>
      RefreshWakes(s, t, pc.next, ok);
      WakeFalls(s, DoRefreshed(s, t, pc.next, ok), t, pc, DoRefreshed(s, t, pc.next, ok).tasks[t]);
    case ReloadFinish =>
      EndWakes(s, t, pc);
      WakeFalls(s, DoReloadFinish(s, t, pc.outcome), t, pc, Reloaded(pc.outcome));
    case _ =>
      ReplaceFalls(s, t, pc, step);
      MoveFalls(s, ApplyReplace(s, t, pc, step), t);
  }

  /** Every step of a call in progress uses up work, and none begins a call. */
  lemma {:induction false} StepFalls(s: Pool, t: Task, step: Step)
    requires Enabled(s, t, step) && !step.Spawn? && Grounded(s, s.tasks[t])
    ensures Apply(s, t, step).tasks.Keys == s.tasks.Keys && Work(Apply(s, t, step)) < Work(s)
  {
    match step
    case Use(u) => UseFalls(s, t, u);
    case Sweep(w) => SweepFalls(s, t, w);
    case Reload(r) => ReloadFalls(s, t, r);
  }

  // ---------------------------------------------------------------- the calls settle

  ghost predicate NoNewCalls(ms: seq<Move>) {
    forall m :: m in ms ==> !m.step.Spawn?
  }

  /** No call in progress has a step left. */
  ghost predicate Stuck(s: State) {
    forall t, step :: Enabled(s, t, step) ==> step.Spawn?
  }

  ghost predicate AllSettled(s: State) {
    forall t :: t in s.tasks ==> Terminal(s.tasks[t])
  }

  lemma {:induction false} RunFalls(s: Pool, ms: seq<Move>)
    requires Possible(s, ms) && NoNewCalls(ms)
    ensures After(s, ms).tasks.Keys == s.tasks.Keys && |ms| + Work(After(s, ms)) <= Work(s)
    decreases |ms|
  {
    if ms != [] {
      StepKeeps(s, ms[0].task, ms[0].step);
      StepFalls(s, ms[0].task, ms[0].step);
      RunFalls(Apply(s, ms[0].task, ms[0].step), ms[1..]);
    }
  }

  lemma {:induction false} StuckIsOver(s: Pool)
    requires Stuck(s)
    ensures AllSettled(s)
  {
    forall t | t in s.tasks ensures Terminal(s.tasks[t]) {
      if !Terminal(s.tasks[t]) {
        var u, step := PoolNeverDeadlocks(s, t);
        assert false;
      }
    }
  }

  /**
    Every call settles. While no call is added, the calls in progress make at most `Work(s)` steps in
    whatever order they run, and when they can make no more, every one of them has ended.
   */
  lemma {:induction false} EveryCallSettles(s: Pool, ms: seq<Move>)
    requires Possible(s, ms) && NoNewCalls(ms)
    ensures |ms| <= Work(s) && After(s, ms).tasks.Keys == s.tasks.Keys
    ensures Stuck(After(s, ms)) ==> AllSettled(After(s, ms))
  {
    RunFalls(s, ms);
    if Stuck(After(s, ms)) { StuckIsOver(After(s, ms)); }
  }
}
