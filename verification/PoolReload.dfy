/** The steps of `retireIdle` and of `reload` keep the pool's invariant. */
module PoolReload {
  import opened Common
  import opened Pool
  import opened PoolSteps

  // ---------------------------------------------------------------- retireIdle

  lemma {:induction false} SweepCheckMoves(s: State, t: Task)
    requires t in s.tasks && s.tasks[t] == SweepStart
    ensures s.maintenance != 0 ==> Plain(s, Goto(s, t, Left), t, Left)
    ensures Push(s, Goto(s.(serial := s.serial + [t]), t, SweepQueued), t, SweepQueued)
  {
  }

  lemma {:induction false} SweepBeginMoves(s: State, t: Task)
    requires t in s.tasks && s.tasks[t] == SweepQueued && AtHead(s.serial, t)
    ensures Pop(s, LeaveSerial(s, t, Left), t, Left)
    ensures Plain(s, Goto(s, t, Sweeping), t, Sweeping)
  {
  }

  lemma {:induction false} SweepEndIsPop(s: State, t: Task)
    requires t in s.tasks && s.tasks[t] == Sweeping && TaskOk(s, t, Sweeping)
    ensures Pop(s, LeaveSerial(s, t, Left), t, Left)
  {
  }

  // ---------------------------------------------------------------- maintenance

  lemma {:induction false} RefuseIsPlain(s: State, t: Task, next: Option<Servers>)
    requires t in s.tasks && s.tasks[t] == ReloadStart(next)
    ensures Plain(s, Goto(s, t, Reloaded(Refused)), t, Reloaded(Refused))
  {
  }

  lemma {:induction false} BeginMaintenanceOther(s: State, r: State, t: Task, next: Option<Servers>, u: Task)
    requires r == Goto(s.(maintenance := s.maintenance + 2), t, Refreshing(next)) && s.maintenance >= 0
    requires u in s.tasks && u != t && TaskOk(s, u, s.tasks[u])
    ensures TaskOk(r, u, s.tasks[u])
  {
  }

  lemma {:induction false} BeginMaintenanceOthers(s: State, r: State, t: Task, next: Option<Servers>)
    requires TasksOk(s) && s.maintenance >= 0
    requires t in s.tasks && s.tasks[t] == ReloadStart(next) && (next.Some? ==> s.leases == map[])
    requires r == Goto(s.(maintenance := s.maintenance + 2), t, Refreshing(next))
    ensures TasksOk(r)
  {
    forall u | u in r.tasks ensures TaskOk(r, u, r.tasks[u]) {
      if u != t { BeginMaintenanceOther(s, r, t, next, u); }
    }
  }

  lemma {:induction false} BeginMaintenanceCounts(s: State, r: State, t: Task, next: Option<Servers>)
    requires QueueOk(s.serial, s.tasks) && LeasesCount(s.leases, s.tasks) && MaintenanceCounts(s.maintenance, s.tasks)
    requires t in s.tasks && s.tasks[t] == ReloadStart(next)
    requires r == Goto(s.(maintenance := s.maintenance + 2), t, Refreshing(next))
    ensures QueueOk(r.serial, r.tasks) && LeasesCount(r.leases, r.tasks) && MaintenanceCounts(r.maintenance, r.tasks)
  {
    QueueStays(s.serial, s.tasks, t, Refreshing(next));
    LeasesStay(s.leases, s.tasks, t, Refreshing(next));
    LoadBegins(s.maintenance, s.tasks, t, Refreshing(next));
  }

  lemma {:induction false} BeginMaintenanceKeeps(s: Pool, r: State, t: Task, next: Option<Servers>)
    requires t in s.tasks && s.tasks[t] == ReloadStart(next) && (next.Some? ==> s.leases == map[])
    requires r == Goto(s.(maintenance := s.maintenance + 2), t, Refreshing(next))
    ensures Inv(r)
  {
    var pc := Refreshing(next);
    BeginMaintenanceCounts(s, r, t, next);
    WorkersStay(s, r, t, pc);
    ServersStay(s, r, t, pc);
    BeginMaintenanceOthers(s, r, t, next);
  }

  /** A task gives back a part of the maintenance counter that is not the last one. */
  ghost predicate Lightens(s: State, r: State, t: Task, pc: Pc) {
    && SameWorld(s, r) && t in s.tasks && r.tasks == s.tasks[t := pc] && r.leases == s.leases
    && r.maintenance == s.maintenance - 1 && s.maintenance > 1
    && Quiet(s.tasks[t]) && LeaseOf(s.tasks[t]) == None && LeaseOf(pc) == None && !InSerial(s.tasks[t])
    && Load(s.tasks[t]) == 2 && Load(pc) == 1
    && (if InSerial(pc) then r.serial == s.serial + [t] else r.serial == s.serial)
    && TaskOk(r, t, pc)
  }

  lemma {:induction false} LightenOther(s: State, r: State, t: Task, pc: Pc, u: Task)
    requires Lightens(s, r, t, pc) && u in s.tasks && u != t && TaskOk(s, u, s.tasks[u])
    ensures TaskOk(r, u, s.tasks[u])
  {
  }

  lemma {:induction false} LightenMove(s: Pool, r: State, t: Task, pc: Pc)
    requires Lightens(s, r, t, pc)
    ensures Inv(r)
  {
    if InSerial(pc) { QueuePush(s.serial, s.tasks, t, pc); } else { QueueStays(s.serial, s.tasks, t, pc); }
    LeasesStay(s.leases, s.tasks, t, pc);
    LoadDrops(s.tasks, t, pc);
    WorkersStay(s, r, t, pc);
    ServersStay(s, r, t, pc);
    forall u | u in r.tasks ensures TaskOk(r, u, r.tasks[u]) {
      if u != t { LightenOther(s, r, t, pc, u); }
    }
  }

  lemma {:induction false} LoadIsCounted(maintenance: int, tasks: map<Task, Pc>, t: Task)
    requires MaintenanceCounts(maintenance, tasks) && t in tasks
    ensures maintenance >= Load(tasks[t])
  {
    if Load(tasks[t]) >= 1 { assert t in Loaded(tasks, 1); }
    if Load(tasks[t]) >= 2 { assert t in Loaded(tasks, 2); }
  }

  lemma {:induction false} RefreshedLightens(s: State, t: Task, next: Option<Servers>, ok: bool)
    requires t in s.tasks && s.tasks[t] == Refreshing(next) && TaskOk(s, t, s.tasks[t]) && s.maintenance > 1
    ensures var r := DoRefreshed(s, t, next, ok); Lightens(s, r, t, r.tasks[t])
  {
    var r := DoRefreshed(s, t, next, ok);
    if ok && next.Some? {
      assert r.tasks[t] == ReloadQueued(next.value);
    } else {
      assert r.tasks[t] == ReloadEnd(next.Some?, if ok then Replaced else Refused);
    }
  }

  /** `w` is `tasks` with some parked callers resolved. */
  ghost predicate Woken(tasks: map<Task, Pc>, w: map<Task, Pc>) {
    && w.Keys == tasks.Keys
    && forall u :: u in tasks ==> w[u] == tasks[u] || (tasks[u].Parked? && w[u].Arriving?)
  }

  lemma {:induction false} WakeWakes(tasks: map<Task, Pc>)
    ensures Woken(tasks, Wake(tasks))
    ensures forall u :: u in tasks ==> !Wake(tasks)[u].Parked?
  {
    forall u | u in tasks
      ensures Wake(tasks)[u] == tasks[u] || (tasks[u].Parked? && Wake(tasks)[u].Arriving?)
      ensures !Wake(tasks)[u].Parked?
    {
      assert Wake(tasks)[u] == if tasks[u].Parked? then Arriving(tasks[u].key) else tasks[u];
    }
  }

  /** The last `finishMaintenance` wakes every parked caller; an earlier one wakes none. */
  lemma {:induction false} FinishWakes(s: State)
    ensures Woken(s.tasks, FinishMaintenance(s).tasks)
    ensures s.maintenance == 1 ==> forall u :: u in s.tasks ==> !FinishMaintenance(s).tasks[u].Parked?
  {
    if s.maintenance == 1 { WakeWakes(s.tasks); }
  }

  lemma {:induction false} WakeKeepsCounts(serial: seq<Task>, leases: map<Channel, int>, tasks: map<Task, Pc>,
      w: map<Task, Pc>)
    requires QueueOk(serial, tasks) && LeasesCount(leases, tasks) && Woken(tasks, w)
    ensures QueueOk(serial, w) && LeasesCount(leases, w)
    ensures Loaded(w, 1) == Loaded(tasks, 1) && Loaded(w, 2) == Loaded(tasks, 2)
  {
    forall k | k in leases ensures Holders(w, k) == Holders(tasks, k) {}
  }

  lemma {:induction false} WakeKeepsWorkers(s: State, r: State)
    requires WorkersKnown(s) && Woken(s.tasks, r.tasks) && SameWorld(s, r)
    ensures WorkersKnown(r)
  {
  }

  lemma {:induction false} WakeKeepsServers(s: State, r: State)
    requires ServersAgree(s) && Woken(s.tasks, r.tasks) && SameWorld(s, r)
    ensures ServersAgree(r)
  {
    if s.replacing.Some? {
      assert s.replacing.value in s.tasks;
    }
    assert Replacer(r.replacing, r.tasks) == Replacer(s.replacing, s.tasks);
  }

  lemma {:induction false} WakeOther(s: State, r: State, u: Task, before: Pc, after: Pc)
    requires SameWorld(s, r) && r.serial == s.serial && r.leases == s.leases
    requires TaskOk(s, u, before) && (after == before || (before.Parked? && after.Arriving?))
    requires after.Parked? ==> r.maintenance != 0
    ensures TaskOk(r, u, after)
  {
  }

  /** The reload gives back its share and every caller it may have parked goes on. */
  ghost predicate Finishes(s: State, w: State, r: State, t: Task, pc: Pc) {
    && t in s.tasks && s.tasks[t].ReloadEnd? && pc.Reloaded?
    && SameWorld(s, w) && w.serial == s.serial && w.leases == s.leases
    && w.maintenance == s.maintenance - 1 && Woken(s.tasks, w.tasks)
    && (w.maintenance == 0 ==> forall u :: u in s.tasks ==> !w.tasks[u].Parked?)
    && r == Goto(w, t, pc)
  }

  lemma {:induction false} FinishOthers(s: State, w: State, r: State, t: Task, pc: Pc)
    requires TasksOk(s) && Finishes(s, w, r, t, pc)
    ensures TasksOk(r)
  {
    forall u | u in r.tasks ensures TaskOk(r, u, r.tasks[u]) {
      if u != t { WakeOther(s, r, u, s.tasks[u], w.tasks[u]); }
    }
  }

  lemma {:induction false} FinishCounts(s: State, w: State, r: State, t: Task, pc: Pc)
    requires QueueOk(s.serial, s.tasks) && LeasesCount(s.leases, s.tasks) && MaintenanceCounts(s.maintenance, s.tasks)
    requires Finishes(s, w, r, t, pc)
    ensures QueueOk(r.serial, r.tasks) && LeasesCount(r.leases, r.tasks) && MaintenanceCounts(r.maintenance, r.tasks)
  {
    WakeKeepsCounts(s.serial, s.leases, s.tasks, w.tasks);
    QueueStays(w.serial, w.tasks, t, pc);
    LeasesStay(w.leases, w.tasks, t, pc);
    LoadDrops(w.tasks, t, pc);
  }

  lemma {:induction false} FinishMove(s: Pool, w: State, r: State, t: Task, pc: Pc)
    requires Finishes(s, w, r, t, pc)
    ensures Inv(r)
  {
    FinishCounts(s, w, r, t, pc);
    WakeKeepsWorkers(s, w);
    WorkersStay(w, r, t, pc);
    WakeKeepsServers(s, w);
    ServersStay(w, r, t, pc);
    FinishOthers(s, w, r, t, pc);
  }

  lemma {:induction false} ReloadFinishes(s: State, t: Task, pc: Pc)
    requires t in s.tasks && s.tasks[t] == pc && pc.ReloadEnd? && s.maintenance >= 1
    ensures Finishes(s, FinishMaintenance(s),
      Goto(FinishMaintenance(s), t, Reloaded(pc.outcome)), t, Reloaded(pc.outcome))
  {
    FinishWakes(s);
  }

  // ---------------------------------------------------------------- replaceMcp

  lemma {:induction false} StageIsPlain(s: State, t: Task, next: Servers)
    requires t in s.tasks && s.tasks[t] == ReloadQueued(next) && AtHead(s.serial, t) && TaskOk(s, t, s.tasks[t])
    ensures Plain(s, Goto(s, t, Staging(next)), t, Staging(next))
  {
  }

  lemma {:induction false} StagedFailsIsPop(s: State, t: Task, next: Servers, result: Outcome)
    requires t in s.tasks && s.tasks[t] == Staging(next) && TaskOk(s, t, s.tasks[t]) && result != Replaced
    ensures Pop(s, DoStaged(s, t, next, result), t, ReloadEnd(true, result))
  {
  }

  /** A change of the replacement's own progress: server lists, the current list, the marker. */
  ghost predicate Progresses(s: State, r: State, t: Task, pc: Pc) {
    && t in s.tasks && Critical(s.tasks[t]) && Exclusive(s.tasks[t]) && AtHead(s.serial, t)
    && r.tasks == s.tasks[t := pc] && r.live == s.live && r.retiring == s.retiring && r.limit == s.limit
    && r.leases == s.leases && r.maintenance == s.maintenance
    && r.nextBundle == s.nextBundle && r.nextRetirement == s.nextRetirement
    && (if InSerial(pc) then r.serial == s.serial else r.serial == s.serial[1..])
    && r.sessions.Keys == s.sessions.Keys
    && (forall b :: b in s.sessions ==>
         r.sessions[b].status == s.sessions[b].status && r.sessions[b].channel == s.sessions[b].channel)
    && LeaseOf(pc) == None && Load(pc) == 1 && Victim(pc) == None && !pc.Creating?
    && TaskOk(r, t, pc)
  }

  lemma {:induction false} ProgressOther(s: State, r: State, t: Task, pc: Pc, u: Task)
    requires Progresses(s, r, t, pc)
    requires u in s.tasks && u != t && TaskOk(s, u, s.tasks[u]) && !Critical(s.tasks[u])
    requires u in s.serial ==> u in r.serial
    ensures TaskOk(r, u, s.tasks[u])
  {
  }

  lemma {:induction false} ProgressWorkers(s: State, r: State, t: Task, pc: Pc)
    requires WorkersKnown(s) && Progresses(s, r, t, pc) && Victim(s.tasks[t]) == None && !s.tasks[t].Creating?
    ensures WorkersKnown(r)
  {
  }

  lemma {:induction false} ProgressSessions(s: State, r: State, t: Task, pc: Pc)
    requires OneSession(s.live, s.sessions, s.nextBundle) && Progresses(s, r, t, pc)
    ensures OneSession(r.live, r.sessions, r.nextBundle)
  {
  }

  lemma {:induction false} ProgressCounts(s: State, r: State, t: Task, pc: Pc)
    requires QueueOk(s.serial, s.tasks) && LeasesCount(s.leases, s.tasks) && MaintenanceCounts(s.maintenance, s.tasks)
    requires Progresses(s, r, t, pc)
    ensures QueueOk(r.serial, r.tasks) && LeasesCount(r.leases, r.tasks) && MaintenanceCounts(r.maintenance, r.tasks)
    ensures forall u :: u in s.serial && u != t ==> u in r.serial
  {
    if InSerial(pc) { QueueStays(s.serial, s.tasks, t, pc); } else { QueuePop(s.serial, s.tasks, t, pc); }
    LeasesStay(s.leases, s.tasks, t, pc);
    LoadStays(s.maintenance, s.tasks, t, pc);
  }

  lemma {:induction false} ProgressMove(s: Pool, r: State, t: Task, pc: Pc)
    requires Progresses(s, r, t, pc) && ServersAgree(r)
    ensures Inv(r)
  {
    OnlyHeadRuns(s, t);
    ProgressCounts(s, r, t, pc);
    ProgressSessions(s, r, t, pc);
    ProgressWorkers(s, r, t, pc);
    forall u | u in r.tasks ensures TaskOk(r, u, r.tasks[u]) {
      if u != t { ProgressOther(s, r, t, pc, u); }
    }
  }

  lemma {:induction false} StagedProgresses(s: State, t: Task, next: Servers)
    requires t in s.tasks && s.tasks[t] == Staging(next) && TaskOk(s, t, s.tasks[t])
    requires ServersAgree(s) && s.replacing == None
    ensures var r := DoStaged(s, t, next, Replaced);
      Progresses(s, r, t, Applying(next, s.mcpConfig, s.live.Keys, false)) && ServersAgree(r)
  {
  }

  lemma {:induction false} ApplyOneProgresses(s: State, t: Task, pc: Pc, k: Channel, ok: bool)
    requires t in s.tasks && s.tasks[t] == pc && pc.Applying? && k in pc.todo && HasSession(s, k) && TaskOk(s, t, pc)
    ensures Progresses(s, DoApplyOne(s, t, pc, k, ok), t,
      Applying(pc.servers, pc.previous, pc.todo - {k}, pc.failed || !ok))
  {
  }

  lemma {:induction false} ApplyOneServers(s: State, t: Task, pc: Pc, k: Channel, ok: bool)
    requires t in s.tasks && s.tasks[t] == pc && pc.Applying? && k in pc.todo && HasSession(s, k)
    requires s.replacing == Some(t) && ServersAgree(s) && OneSession(s.live, s.sessions, s.nextBundle)
    ensures ServersAgree(DoApplyOne(s, t, pc, k, ok))
  {
  }

  lemma {:induction false} RestoreOneProgresses(s: State, t: Task, pc: Pc, k: Channel, ok: bool)
    requires t in s.tasks && s.tasks[t] == pc && pc.Restoring? && k in pc.todo && HasSession(s, k) && TaskOk(s, t, pc)
    ensures Progresses(s, DoRestoreOne(s, t, pc, k, ok), t, Restoring(pc.previous, pc.todo - {k}, pc.failed || !ok))
  {
  }

  lemma {:induction false} RestoreOneServers(s: State, t: Task, pc: Pc, k: Channel, ok: bool)
    requires t in s.tasks && s.tasks[t] == pc && pc.Restoring? && k in pc.todo && HasSession(s, k)
    requires s.replacing == Some(t) && ServersAgree(s) && OneSession(s.live, s.sessions, s.nextBundle)
    ensures ServersAgree(DoRestoreOne(s, t, pc, k, ok))
  {
  }

  lemma {:induction false} ApplyFailed(s: State, t: Task, pc: Pc)
    requires t in s.tasks && s.tasks[t] == pc && pc.Applying? && pc.failed && TaskOk(s, t, pc)
    ensures var r := DoApplyDone(s, t, pc);
      Progresses(s, r, t, Restoring(pc.previous, s.live.Keys, false)) && ServersAgree(r)
  {
  }

  lemma {:induction false} ApplySucceeded(s: State, t: Task, pc: Pc)
    requires t in s.tasks && s.tasks[t] == pc && pc.Applying? && !pc.failed && TaskOk(s, t, pc)
    ensures Progresses(s, DoApplyDone(s, t, pc), t, ReloadEnd(true, Replaced))
  {
  }

  lemma {:induction false} ApplySucceededServers(s: State, t: Task, pc: Pc)
    requires t in s.tasks && s.tasks[t] == pc && pc.Applying? && pc.todo == {} && !pc.failed
    requires s.replacing == Some(t) && ServersAgree(s)
    ensures ServersAgree(DoApplyDone(s, t, pc))
  {
    var r := DoApplyDone(s, t, pc);
    assert r.live == s.live && r.sessions == s.sessions && Replacer(r.replacing, r.tasks) == Left;
    assert Replacer(s.replacing, s.tasks) == pc;
  }

  lemma {:induction false} RestoreDoneProgresses(s: State, t: Task, pc: Pc)
    requires t in s.tasks && s.tasks[t] == pc && pc.Restoring? && pc.todo == {} && TaskOk(s, t, pc)
    requires ServersAgree(s)
    ensures var r := DoRestoreDone(s, t, pc.failed); Progresses(s, r, t, r.tasks[t]) && ServersAgree(r)
  {
  }
}
