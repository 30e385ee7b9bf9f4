/**
  The object of BoBeAgent/src/sessions.ts that owns the pool: its maps and counters change in
  place as the steps of `Pool` say, and it keeps the pool's invariant. A call in progress is known
  by its task number; the program counters of the calls are ghost state, as they are the source's
  suspended functions.
 */
module SessionsObject {
  import opened Common
  import opened Pool
  import opened PoolTheorems
  import PoolSteps

  // ---------------------------------------------------------------- the steps, one by one

  lemma {:induction false} ArriveKeeps(s: State, t: Task, k: Channel)
    requires Inv(s) && t in s.tasks && s.tasks[t] == Arriving(k)
    ensures var r := DoArrive(s, t, k);
      Inv(r) && (s.maintenance == 0 ==> forall u :: u in r.tasks ==> !Exclusive(r.tasks[u]))
  {
    StepKeeps(s, t, Use(Arrive));
    if s.maintenance == 0 { PoolSteps.NoExclusive(s.maintenance, s.tasks); }
  }

  lemma {:induction false} EnterKeeps(s: State, t: Task, k: Channel, after: Option<nat>, now: int)
    requires Inv(s) && t in s.tasks && s.tasks[t] == Entering(k, after) && Waited(s, k, after)
    ensures Inv(DoEnter(s, t, k, now)) && k !in s.retiring
    ensures k in s.live ==> s.live[k] in s.sessions && IsLive(s.sessions[s.live[k]].status)
  {
    InvIsGrounded(s, t);
    EnterUseKeeps(s, t, Enter(now));
    assert TaskOk(s, t, s.tasks[t]);
  }

  lemma {:induction false} EvictKeeps(s: State, t: Task, pc: Pc, v: Channel)
    requires Inv(s) && t in s.tasks && s.tasks[t] == pc && UseEnabled(s, t, pc, Evict(v))
    ensures Inv(DoEvict(s, t, pc, v)) && pc.passes == 0 && |s.live| == s.limit
  {
    StepKeeps(s, t, Use(Evict(v)));
    EvictionRunsOnce(s, t, v);
  }

  lemma {:induction false} NoSlotKeeps(s: State, t: Task, pc: Pc)
    requires Inv(s) && t in s.tasks && s.tasks[t] == pc && UseEnabled(s, t, pc, NoSlot)
    ensures Inv(LeaveSerial(s, t, Leaving(pc.key)))
  {
    StepKeeps(s, t, Use(NoSlot));
  }

  lemma {:induction false} OpenKeepsPool(s: State, t: Task, k: Channel, entry: nat, passes: nat, now: int)
    requires Inv(s) && t in s.tasks && s.tasks[t] == Evicting(k, entry, passes) && |s.live| < s.limit
    ensures Inv(DoOpen(s, t, k, now)) && k !in s.live && s.nextBundle !in s.sessions
  {
    StepKeeps(s, t, Use(UseStep.Open(now)));
    assert TaskOk(s, t, s.tasks[t]);
  }

  lemma {:induction false} OpenedKeepsPool(s: State, t: Task, k: Channel, b: Bundle, ok: bool)
    requires Inv(s) && t in s.tasks && s.tasks[t] == Creating(k, b)
    ensures b in s.sessions && Inv(DoOpened(s, t, k, b, ok)) && k in s.live && s.live[k] == b
    ensures OnePerChannel(DoOpened(s, t, k, b, ok))
  {
    InvIsGrounded(s, t);
    StepKeeps(s, t, Use(UseStep.Opened(ok)));
    assert TaskOk(s, t, s.tasks[t]);
    PoolIsSafe(DoOpened(s, t, k, b, ok));
  }

  lemma {:induction false} LeaveKeeps(s: State, t: Task, k: Channel, now: int)
    requires Inv(s) && t in s.tasks && s.tasks[t] == Leaving(k)
    ensures Inv(DoLeave(s, t, k, now))
  {
    StepKeeps(s, t, Use(Leave(now)));
  }

  lemma {:induction false} LeasedByHolders(s: Pool, k: Channel)
    ensures k in s.leases <==> exists u :: u in s.tasks && LeaseOf(s.tasks[u]) == Some(k)
  {
    if k in s.leases {
      assert Holders(s.tasks, k) != {};
      var u :| u in Holders(s.tasks, k);
    } else {
      PoolSteps.UncountedHasNoHolder(s, k);
      assert forall u :: u in s.tasks && LeaseOf(s.tasks[u]) == Some(k) ==> u in Holders(s.tasks, k);
    }
  }

  lemma {:induction false} ReloadKeeps(s: State, t: Task, next: Option<Servers>, busy: bool)
    requires Inv(s) && t in s.tasks && s.tasks[t] == ReloadStart(next)
    ensures Inv(DoReloadCheck(s, t, next, busy)) && s.maintenance >= 0
  {
    StepKeeps(s, t, Reload(ReloadCheck(busy)));
  }

  lemma {:induction false} FinishKeeps(s: State, t: Task, exclusive: bool, outcome: Outcome)
    requires Inv(s) && t in s.tasks && s.tasks[t] == ReloadEnd(exclusive, outcome)
    ensures Inv(DoReloadFinish(s, t, outcome))
  {
    StepKeeps(s, t, Reload(ReloadFinish));
  }

  lemma {:induction false} NoneParked(s: State)
    requires Inv(s)
    ensures s.maintenance == 0 ==> forall u :: u in s.tasks ==> !s.tasks[u].Parked?
  {
    assert forall u :: u in s.tasks ==> TaskOk(s, u, s.tasks[u]);
  }

  lemma {:induction false} AppliedKeeps(s: State, t: Task, next: Servers, previous: Servers, failed: bool)
    requires Inv(s) && t in s.tasks && s.tasks[t] == Applying(next, previous, {}, failed)
    ensures var r := DoApplyDone(s, t, Applying(next, previous, {}, failed));
      Inv(r) && (!failed && !r.faulted ==> AllHave(r, next))
  {
    StepKeeps(s, t, Reload(ApplyDone));
    if !failed {
      ReplacementIsAllOrNothing(s, DoApplyDone(s, t, s.tasks[t]), t, s.tasks[t], Replaced);
    }
  }

  class Sessions {
    const limit: nat
    var channels: map<Channel, Bundle>
    var channelAccess: map<Channel, int>
    var channelLeases: map<Channel, int>
    var retiringChannels: map<Channel, Retirement>
    var maintenance: int
    var maintenanceWaiters: seq<Task>
    var mcpConfig: Servers
    var nextBundle: nat
    var nextRetirement: nat
    ghost var serial: seq<Task>
    ghost var replacing: Option<Task>
    ghost var sessions: map<Bundle, Session>
    ghost var tasks: map<Task, Pc>
    ghost var faulted: bool

    ghost function View(): State
      reads this
    {
      State(limit, channels, channelAccess, channelLeases, retiringChannels, maintenance, serial, mcpConfig,
            replacing, sessions, tasks, nextBundle, nextRetirement, faulted)
    }

    ghost predicate Valid()
      reads this
    {
      WaitersOk() && Inv(View())
    }

    /** The waiters are the calls parked by a maintenance. */
    ghost predicate WaitersOk()
      reads this
    {
      && (forall t :: t in maintenanceWaiters ==> t in tasks && tasks[t].Parked?)
      && (forall t :: t in tasks && tasks[t].Parked? ==> t in maintenanceWaiters)
    }

    constructor (limit: nat, mcp: Servers)
      ensures Valid() && View() == Init(limit, mcp)
    {
      this.limit := limit;
      channels, channelAccess, channelLeases, retiringChannels := map[], map[], map[], map[];
      maintenance, maintenanceWaiters, mcpConfig := 0, [], mcp;
      nextBundle, nextRetirement := 0, 0;
      serial, replacing, sessions, tasks, faulted := [], None, map[], map[], false;
      new;
      InitIsPool(limit, mcp);
    }

    /**
      The start of `useChannel`: wait for maintenance, or take the lease, which then meets no reload, and go on to
      `main`.
     */
    method TakeLease(t: Task, k: Channel)
      requires Valid() && t in tasks && tasks[t] == Arriving(k)
      modifies this
      ensures Valid() && View() == DoArrive(old(View()), t, k)
      ensures maintenance == 0 ==> k in channelLeases && forall u :: u in tasks ==> !Exclusive(tasks[u])
      ensures maintenance != 0 ==> channelLeases == old(channelLeases) && t in maintenanceWaiters
    {
      ArriveKeeps(View(), t, k);
      Lease(t, k);
    }

    method Lease(t: Task, k: Channel)
      requires WaitersOk() && t in tasks && tasks[t] == Arriving(k)
      modifies this
      ensures WaitersOk() && View() == DoArrive(old(View()), t, k)
    {
      if maintenance != 0 {
        maintenanceWaiters := maintenanceWaiters + [t];
        tasks := tasks[t := Parked(k)];
      } else {
        var held := if k in channelLeases then channelLeases[k] else 0;
        channelLeases := channelLeases[k := held + 1];
        tasks := tasks[t := Entering(k, if k in retiringChannels then Some(retiringChannels[k].id) else None)];
      }
    }

    /** `main` past the wait for a retirement: the live session, or a turn in `channelChanges`. */
    method LookUp(t: Task, k: Channel, after: Option<nat>, now: int) returns (existing: Option<Bundle>)
      requires Valid() && t in tasks && tasks[t] == Entering(k, after) && Waited(View(), k, after)
      modifies this
      ensures Valid() && View() == DoEnter(old(View()), t, k, now)
      ensures existing == if k in old(channels) then Some(old(channels)[k]) else None
      ensures existing.Some? ==>
        k !in retiringChannels && existing.value in sessions && IsLive(sessions[existing.value].status)
    {
      EnterKeeps(View(), t, k, after, now);
      existing := Find(t, k, after, now);
    }

    method Find(t: Task, k: Channel, after: Option<nat>, now: int) returns (existing: Option<Bundle>)
      requires WaitersOk() && t in tasks && tasks[t] == Entering(k, after)
      modifies this
      ensures WaitersOk() && View() == DoEnter(old(View()), t, k, now)
      ensures existing == if k in old(channels) then Some(old(channels)[k]) else None
    {
      if k in channels {
        channelAccess := channelAccess[k := now];
        existing := Some(channels[k]);
        tasks := tasks[t := Awaiting(k, channels[k])];
      } else {
        existing := None;
        serial := serial + [t];
        tasks := tasks[t := Queued(k)];
      }
    }

    /** The unleased channel with the oldest access, if there is one. */
    method OldestIdle() returns (idle: Option<Channel>)
      ensures idle.Some? ==> LeastRecentlyUsed(View(), idle.value)
      ensures idle.None? ==> forall k :: k in channels ==> !Idle(View(), k)
    {
      idle := None;
      var rest := channels.Keys;
      while rest != {}
        invariant rest <= channels.Keys
        invariant idle.Some? ==> Idle(View(), idle.value)
        invariant forall k :: k in channels && k !in rest && Idle(View(), k) ==>
                    idle.Some? && AccessOf(View(), idle.value) <= AccessOf(View(), k)
        decreases |rest|
      {
        var k :| k in rest;
        rest := rest - {k};
        var used := if k in channelAccess then channelAccess[k] else 0;
        if k !in channelLeases {
          if idle.None? || used < (if idle.value in channelAccess then channelAccess[idle.value] else 0) {
            idle := Some(k);
          }
        }
      }
    }

    /**
      One turn of the eviction loop: nothing to do, a victim begins to retire, or every channel is in
      use. It finds the pool full on its first turn only, and takes a channel that nobody leases.
     */
    method MakeRoom(t: Task, k: Channel, entry: nat, passes: nat) returns (full: bool, victim: Option<Channel>)
      requires Valid() && t in tasks && tasks[t] == Evicting(k, entry, passes)
      modifies this
      ensures Valid()
      ensures full <==> |old(channels)| >= limit
      ensures !full ==> View() == old(View())
      ensures full && victim.Some? ==>
        && LeastRecentlyUsed(old(View()), victim.value) && passes == 0 && |channels| == limit
        && View() == DoEvict(old(View()), t, Evicting(k, entry, passes), victim.value)
      ensures full && victim.None? ==>
        && (forall c :: c in channels ==> c in channelLeases)
        && View() == LeaveSerial(old(View()), t, Leaving(k))
    {
      full, victim := |channels| >= limit, None;
      if !full { return; }
      victim := OldestIdle();
      ghost var before := View();
      if victim.Some? {
        EvictKeeps(before, t, Evicting(k, entry, passes), victim.value);
        BeginRetiring(t, k, victim.value, entry, passes);
      } else {
        NoSlotKeeps(before, t, Evicting(k, entry, passes));
        GiveUp(t, k, entry, passes);
      }
    }

    method GiveUp(t: Task, k: Channel, entry: nat, passes: nat)
      requires WaitersOk() && t in tasks && tasks[t] == Evicting(k, entry, passes)
      modifies this
      ensures WaitersOk() && View() == LeaveSerial(old(View()), t, Leaving(k))
    {
      LeaveQueue(t, Leaving(k));
    }

    method BeginRetiring(t: Task, k: Channel, v: Channel, entry: nat, passes: nat)
      requires WaitersOk() && t in tasks && tasks[t] == Evicting(k, entry, passes)
      modifies this
      ensures WaitersOk() && View() == DoEvict(old(View()), t, Evicting(k, entry, passes), v)
    {
      retiringChannels := retiringChannels[v := Retirement(nextRetirement, t)];
      nextRetirement := nextRetirement + 1;
      tasks := tasks[t := Retiring(k, v, entry, passes)];
    }

    /** The `finally` of `retireChannel`: the maps forget the channel, whether its session closed well or not. */
    method ForgetChannel(v: Channel)
      requires v in channels && channels[v] in sessions
      modifies this
      ensures View() == EndRetirement(old(View()), v) && maintenanceWaiters == old(maintenanceWaiters)
    {
      sessions := sessions[channels[v] := sessions[channels[v]].(status := Status.Closed)];
      channels := channels - {v};
      channelAccess := channelAccess - {v};
      retiringChannels := retiringChannels - {v};
    }

    /**
      The victim is gone, its session closed, and the loop goes on; a close that failed is a fault and ends the
      call.
     */
    method VictimRetired(t: Task, k: Channel, v: Channel, entry: nat, passes: nat, ok: bool)
      requires Valid() && t in tasks && tasks[t] == Retiring(k, v, entry, passes)
      modifies this
      ensures Valid() && v in old(channels) && HasSession(old(View()), v)
      ensures View() == DoEvicted(old(View()), t, Retiring(k, v, entry, passes), ok)
      ensures channels == old(channels) - {v} && v !in retiringChannels && v !in channelAccess
      ensures sessions[old(channels)[v]].status == Status.Closed
    {
      ghost var before := View();
      EvictedKeeps(before, t, Retiring(k, v, entry, passes), ok);
      Retired(t, k, v, entry, passes, ok);
    }

    method Retired(t: Task, k: Channel, v: Channel, entry: nat, passes: nat, ok: bool)
      requires WaitersOk() && t in tasks && tasks[t] == Retiring(k, v, entry, passes) && HasSession(View(), v)
      modifies this
      ensures WaitersOk() && View() == DoEvicted(old(View()), t, Retiring(k, v, entry, passes), ok)
    {
      ForgetChannel(v);
      if ok {
        tasks := tasks[t := Evicting(k, entry, passes + 1)];
      } else {
        faulted := true;
        LeaveQueue(t, Leaving(k));
      }
    }

    /** The session begins to open, and the channel names it from now on, within the limit. */
    method OpenChannel(t: Task, k: Channel, entry: nat, passes: nat, now: int) returns (b: Bundle)
      requires Valid() && t in tasks && tasks[t] == Evicting(k, entry, passes) && |channels| < limit
      modifies this
      ensures Valid() && View() == DoOpen(old(View()), t, k, now) && b == old(nextBundle)
      ensures k !in old(channels) && |channels| <= limit && channels[k] == b && b !in old(sessions)
    {
      ghost var before := View();
      OpenKeepsPool(before, t, k, entry, passes, now);
      b := Opening(t, k, now);
    }

    method Opening(t: Task, k: Channel, now: int) returns (b: Bundle)
      requires WaitersOk() && t in tasks && !tasks[t].Parked?
      modifies this
      ensures WaitersOk() && View() == DoOpen(old(View()), t, k, now) && b == old(nextBundle)
    {
      b := nextBundle;
      nextBundle := nextBundle + 1;
      channels := channels[k := b];
      channelAccess := channelAccess[k := now];
      sessions := sessions[b := Session(k, Status.Opening(t), Some(mcpConfig))];
      tasks := tasks[t := Creating(k, b)];
    }

    /** The session is open and the channel's only one, or its creation failed and the maps forget it. */
    method ChannelOpened(t: Task, k: Channel, b: Bundle, ok: bool)
      requires Valid() && t in tasks && tasks[t] == Creating(k, b)
      modifies this
      ensures Valid() && b in old(sessions) && View() == DoOpened(old(View()), t, k, b, ok)
      ensures ok ==> k in channels && channels[k] == b && sessions[b].status == Status.Open && OnePerChannel(View())
      ensures !ok ==> channels == old(channels) - {k} && k !in channelAccess
    {
      ghost var before := View();
      OpenedKeepsPool(before, t, k, b, ok);
      Opened(t, k, b, ok);
    }

    method Opened(t: Task, k: Channel, b: Bundle, ok: bool)
      requires WaitersOk() && t in tasks && tasks[t] == Creating(k, b) && b in sessions
      modifies this
      ensures WaitersOk() && View() == DoOpened(old(View()), t, k, b, ok)
    {
      if ok {
        sessions := sessions[b := sessions[b].(status := Status.Open)];
        LeaveQueue(t, Using(k, b));
      } else {
        FailOpening(t, k, b);
      }
    }

    method FailOpening(t: Task, k: Channel, b: Bundle)
      requires WaitersOk() && t in tasks && tasks[t] == Creating(k, b) && b in sessions
      modifies this
      ensures WaitersOk() && View() == DoOpened(old(View()), t, k, b, false)
    {
      channels := channels - {k};
      channelAccess := channelAccess - {k};
      sessions := sessions[b := sessions[b].(status := Failed)];
      ghost var forgotten := View();
      LeaveQueue(t, Leaving(k));
      assert View() == LeaveSerial(forgotten, t, Leaving(k));
    }

    /** The operation of the head of the queue settles. */
    ghost method LeaveQueue(t: Task, pc: Pc)
      requires WaitersOk() && t in tasks && !tasks[t].Parked? && !pc.Parked?
      modifies this`serial, this`tasks
      ensures WaitersOk() && View() == LeaveSerial(old(View()), t, pc)
    {
      serial := if serial == [] then [] else serial[1..];
      tasks := tasks[t := pc];
    }

    /**
      The `finally` of `useChannel`: afterwards the channel is leased exactly if another call still holds a lease on
      it.
     */
    method ReturnLease(t: Task, k: Channel, now: int)
      requires Valid() && t in tasks && tasks[t] == Leaving(k)
      modifies this
      ensures Valid() && View() == DoLeave(old(View()), t, k, now)
      ensures k in channelLeases <==> exists u :: u in tasks && LeaseOf(tasks[u]) == Some(k)
    {
      ghost var before := View();
      LeaveKeeps(before, t, k, now);
      GiveBack(t, k, now);
      LeasedByHolders(View(), k);
    }

    method GiveBack(t: Task, k: Channel, now: int)
      requires WaitersOk() && t in tasks && tasks[t] == Leaving(k)
      modifies this
      ensures WaitersOk() && View() == DoLeave(old(View()), t, k, now)
    {
      var remaining := (if k in channelLeases then channelLeases[k] else 1) - 1;
      if remaining > 0 {
        channelLeases := channelLeases[k := remaining];
      } else {
        channelLeases := channelLeases - {k};
      }
      channelAccess := channelAccess[k := now];
      tasks := tasks[t := Left];
    }

    /**
      The start of `reload`, with that of the skill refresh inside it; servers are replaced only in an idle pool,
      which stays idle.
     */
    method StartReload(t: Task, next: Option<Servers>, busy: bool) returns (refused: bool)
      requires Valid() && t in tasks && tasks[t] == ReloadStart(next)
      modifies this
      ensures Valid() && View() == DoReloadCheck(old(View()), t, next, busy)
      ensures refused <==> next.Some? && (busy || channelLeases != map[])
      ensures !refused ==> maintenance > 0
      ensures !refused && next.Some? ==> forall u :: u in tasks ==> LeaseOf(tasks[u]).None?
    {
      ReloadKeeps(View(), t, next, busy);
      refused := BeginReload(t, next, busy);
      if !refused && next.Some? { ReloadRunsAlone(View(), t); }
    }

    method BeginReload(t: Task, next: Option<Servers>, busy: bool) returns (refused: bool)
      requires WaitersOk() && t in tasks && tasks[t] == ReloadStart(next)
      modifies this
      ensures WaitersOk() && View() == DoReloadCheck(old(View()), t, next, busy)
      ensures refused <==> next.Some? && (busy || channelLeases != map[])
    {
      refused := next.Some? && (busy || channelLeases != map[]);
      if refused {
        tasks := tasks[t := Reloaded(Refused)];
      } else {
        maintenance := maintenance + 2;
        tasks := tasks[t := Refreshing(next)];
      }
    }

    /** Every waiter is resolved, in order, and the list is emptied. */
    method WakeWaiters()
      requires WaitersOk()
      modifies this`tasks, this`maintenanceWaiters
      ensures WaitersOk() && tasks == Wake(old(tasks))
    {
      ghost var before := tasks;
      var i := 0;
      while i < |maintenanceWaiters|
        modifies this`tasks
        invariant i <= |maintenanceWaiters|
        invariant tasks.Keys == before.Keys
        invariant forall t :: t in before ==>
          tasks[t] == if t in maintenanceWaiters[..i] then Arriving(before[t].key) else before[t]
      {
        var t := maintenanceWaiters[i];
        assert maintenanceWaiters[..i + 1] == maintenanceWaiters[..i] + [t];
        tasks := tasks[t := Arriving(before[t].key)];
        i := i + 1;
      }
      assert maintenanceWaiters[..i] == maintenanceWaiters;
      assert tasks == Wake(before);
      maintenanceWaiters := [];
    }

    /** The last maintenance to finish wakes every waiter. */
    method EndMaintenance()
      requires WaitersOk()
      modifies this
      ensures WaitersOk() && View() == FinishMaintenance(old(View()))
    {
      maintenance := maintenance - 1;
      if maintenance == 0 {
        WakeWaiters();
      }
    }

    /** The last step of a reload: maintenance ends, and with the last one every waiter is free to go on. */
    method FinishReload(t: Task, exclusive: bool, outcome: Outcome)
      requires Valid() && t in tasks && tasks[t] == ReloadEnd(exclusive, outcome)
      modifies this
      ensures Valid() && View() == DoReloadFinish(old(View()), t, outcome)
      ensures maintenance == 0 ==> forall u :: u in tasks ==> !tasks[u].Parked?
    {
      FinishKeeps(View(), t, exclusive, outcome);
      Finish(t, outcome);
      NoneParked(View());
    }

    method Finish(t: Task, outcome: Outcome)
      requires WaitersOk() && t in tasks && !tasks[t].Parked?
      modifies this
      ensures WaitersOk() && View() == DoReloadFinish(old(View()), t, outcome)
    {
      EndMaintenance();
      tasks := tasks[t := Reloaded(outcome)];
    }

    /** The end of `replaceMcp` past the replacements: the new servers stand everywhere, or a rollback begins. */
    method ServersApplied(t: Task, next: Servers, previous: Servers, failed: bool) returns (rollback: bool)
      requires Valid() && t in tasks && tasks[t] == Applying(next, previous, {}, failed)
      modifies this
      ensures Valid() && View() == DoApplyDone(old(View()), t, Applying(next, previous, {}, failed))
      ensures rollback == failed
      ensures !failed && !faulted ==> AllHave(View(), next)
    {
      ghost var before := View();
      AppliedKeeps(before, t, next, previous, failed);
      rollback := Applied(t, next, previous, failed);
    }

    method Applied(t: Task, next: Servers, previous: Servers, failed: bool) returns (rollback: bool)
      requires WaitersOk() && t in tasks && tasks[t] == Applying(next, previous, {}, failed)
      modifies this
      ensures WaitersOk() && View() == DoApplyDone(old(View()), t, Applying(next, previous, {}, failed))
      ensures rollback == failed
    {
      rollback := failed;
      if failed {
        tasks := tasks[t := Restoring(previous, channels.Keys, false)];
      } else {
        mcpConfig := next;
        replacing := None;
        LeaveQueue(t, ReloadEnd(true, Replaced));
      }
    }
  }
}
