/** Every step of the channel pool keeps its invariant. */
module PoolSteps {
  import opened Common
  import opened Pool

  function Before(tasks: map<Task, Pc>, t: Task): Pc {
    if t in tasks then tasks[t] else Left
  }

  // ---------------------------------------------------------------- counting and queueing

  lemma {:induction false} QueueStays(serial: seq<Task>, tasks: map<Task, Pc>, t: Task, pc: Pc)
    requires QueueOk(serial, tasks) && InSerial(pc) == InSerial(Before(tasks, t))
    ensures QueueOk(serial, tasks[t := pc])
  {
  }

  lemma {:induction false} QueuePush(serial: seq<Task>, tasks: map<Task, Pc>, t: Task, pc: Pc)
    requires QueueOk(serial, tasks) && !InSerial(Before(tasks, t)) && InSerial(pc)
    ensures QueueOk(serial + [t], tasks[t := pc])
  {
    assert t !in serial;
  }

  lemma {:induction false} QueuePop(serial: seq<Task>, tasks: map<Task, Pc>, t: Task, pc: Pc)
    requires QueueOk(serial, tasks) && AtHead(serial, t)
    ensures QueueOk(serial[1..], tasks[t := pc])
    ensures forall u :: u in serial && u != t ==> u in serial[1..]
  {
    assert serial == [t] + serial[1..];
    assert t !in serial[1..];
  }

  /** A move that leaves the task's lease alone keeps every lease count. */
  lemma {:induction false} LeasesStay(leases: map<Channel, int>, tasks: map<Task, Pc>, t: Task, pc: Pc)
    requires LeasesCount(leases, tasks) && LeaseOf(pc) == LeaseOf(Before(tasks, t))
    ensures LeasesCount(leases, tasks[t := pc])
  {
    forall k | k in leases ensures leases[k] == |Holders(tasks[t := pc], k)| {
      assert Holders(tasks[t := pc], k) == Holders(tasks, k);
    }
  }

  lemma {:induction false} LeaseTaken(leases: map<Channel, int>, tasks: map<Task, Pc>, t: Task, pc: Pc, k: Channel)
    requires LeasesCount(leases, tasks) && LeaseOf(Before(tasks, t)) == None && LeaseOf(pc) == Some(k)
    requires k !in leases ==> Holders(tasks, k) == {}
    ensures LeasesCount(leases[k := (if k in leases then leases[k] else 0) + 1], tasks[t := pc])
  {
    var after := tasks[t := pc];
    assert Holders(after, k) == Holders(tasks, k) + {t};
    forall j | j in leases && j != k ensures leases[j] == |Holders(after, j)| {
      assert Holders(after, j) == Holders(tasks, j);
    }
  }

  lemma {:induction false} LeaseDropped(s: State, t: Task, pc: Pc, k: Channel)
    requires LeasesCount(s.leases, s.tasks) && t in s.tasks && LeaseOf(s.tasks[t]) == Some(k) && LeaseOf(pc) == None
    requires k in s.leases
    ensures LeasesCount(DropLease(s, k).leases, s.tasks[t := pc])
    ensures forall u :: u in s.tasks && u != t && LeaseOf(s.tasks[u]).Some? && LeaseOf(s.tasks[u]).value in s.leases ==>
      LeaseOf(s.tasks[u]).value in DropLease(s, k).leases
  {
    var after := s.tasks[t := pc];
    assert Holders(after, k) == Holders(s.tasks, k) - {t};
    assert t in Holders(s.tasks, k) && |Holders(after, k)| == s.leases[k] - 1;
    forall j | j in s.leases && j != k ensures s.leases[j] == |Holders(after, j)| {
      assert Holders(after, j) == Holders(s.tasks, j);
    }
    forall u | u in s.tasks && u != t && LeaseOf(s.tasks[u]) == Some(k) ensures s.leases[k] > 1 {
      assert u in Holders(after, k);
    }
  }

  lemma {:induction false} LoadStays(maintenance: int, tasks: map<Task, Pc>, t: Task, pc: Pc)
    requires MaintenanceCounts(maintenance, tasks)
    requires Load(pc) == Load(Before(tasks, t))
    ensures MaintenanceCounts(maintenance, tasks[t := pc])
  {
    assert Loaded(tasks[t := pc], 1) == Loaded(tasks, 1) && Loaded(tasks[t := pc], 2) == Loaded(tasks, 2);
  }

  lemma {:induction false} LoadBegins(maintenance: int, tasks: map<Task, Pc>, t: Task, pc: Pc)
    requires MaintenanceCounts(maintenance, tasks) && Load(Before(tasks, t)) == 0 && Load(pc) == 2
    ensures MaintenanceCounts(maintenance + 2, tasks[t := pc])
  {
    assert Loaded(tasks[t := pc], 1) == Loaded(tasks, 1) + {t};
    assert Loaded(tasks[t := pc], 2) == Loaded(tasks, 2) + {t};
  }

  lemma {:induction false} LoadDrops(tasks: map<Task, Pc>, t: Task, pc: Pc)
    requires t in tasks && Load(tasks[t]) > 0 && Load(pc) == Load(tasks[t]) - 1
    ensures |Loaded(tasks[t := pc], 1)| + |Loaded(tasks[t := pc], 2)| == |Loaded(tasks, 1)| + |Loaded(tasks, 2)| - 1
  {
    var after := tasks[t := pc];
    if Load(tasks[t]) == 1 {
      assert Loaded(after, 1) == Loaded(tasks, 1) - {t} && t in Loaded(tasks, 1) &&
        Loaded(after, 2) == Loaded(tasks, 2);
    } else {
      assert Loaded(after, 2) == Loaded(tasks, 2) - {t} && t in Loaded(tasks, 2) &&
        Loaded(after, 1) == Loaded(tasks, 1);
    }
  }


  // ---------------------------------------------------------------- moves that leave the sessions alone

  predicate Quiet(pc: Pc) {
    !pc.Creating? && Victim(pc).None? && !Replaces(pc)
  }

  predicate SameWorld(s: State, r: State) {
    && r.limit == s.limit && r.live == s.live && r.sessions == s.sessions && r.retiring == s.retiring
    && r.replacing == s.replacing && r.mcpConfig == s.mcpConfig
    && r.nextBundle == s.nextBundle && r.nextRetirement == s.nextRetirement
    && (s.faulted ==> r.faulted)
  }

  lemma {:induction false} WorkersStay(s: State, r: State, t: Task, pc: Pc)
    requires WorkersKnown(s) && SameWorld(s, r) && r.tasks == s.tasks[t := pc]
    requires Quiet(Before(s.tasks, t))
    ensures WorkersKnown(r)
  {
  }

  lemma {:induction false} ServersStay(s: State, r: State, t: Task, pc: Pc)
    requires ServersAgree(s) && SameWorld(s, r) && r.tasks == s.tasks[t := pc]
    requires !Replaces(Before(s.tasks, t))
    ensures ServersAgree(r)
  {
    assert s.replacing != Some(t);
    assert Replacer(r.replacing, r.tasks) == Replacer(s.replacing, s.tasks);
  }

  /** A move of one task inside an unchanged queue, or at its end, disturbs no other task. */
  lemma {:induction false} OthersStay(s: State, r: State, t: Task, pc: Pc)
    requires TasksOk(s) && SameWorld(s, r) && r.tasks == s.tasks[t := pc]
    requires r.leases == s.leases && r.maintenance == s.maintenance
    requires r.serial == s.serial || r.serial == s.serial + [t]
    requires TaskOk(r, t, pc)
    ensures TasksOk(r)
  {
    forall u | u in r.tasks ensures TaskOk(r, u, r.tasks[u]) {
      if u != t {
        assert TaskOk(s, u, s.tasks[u]);
      }
    }
  }

  lemma {:induction false} OthersStayAfterPop(s: State, r: State, t: Task, pc: Pc)
    requires TasksOk(s) && SameWorld(s, r) && r.tasks == s.tasks[t := pc]
    requires r.leases == s.leases && r.maintenance == s.maintenance
    requires AtHead(s.serial, t) && r.serial == s.serial[1..]
    requires TaskOk(r, t, pc)
    ensures TasksOk(r)
  {
    assert s.serial == [t] + s.serial[1..];
    forall u | u in r.tasks ensures TaskOk(r, u, r.tasks[u]) {
      if u != t {
        assert TaskOk(s, u, s.tasks[u]);
      }
    }
  }

  // A move is described by a predicate that speaks of the moving task alone; the lemma
  // beside it turns the description into the invariant.

  predicate SameShare(s: State, r: State, t: Task, pc: Pc) {
    var old_ := Before(s.tasks, t);
    && r.tasks == s.tasks[t := pc] && r.leases == s.leases && r.maintenance == s.maintenance
    && Quiet(old_) && LeaseOf(pc) == LeaseOf(old_) && Load(pc) == Load(old_)
  }

  /** The task moves on without touching the queue. */
  ghost predicate Plain(s: State, r: State, t: Task, pc: Pc) {
    && SameWorld(s, r) && SameShare(s, r, t, pc) && TaskOk(r, t, pc)
    && r.serial == s.serial && InSerial(pc) == InSerial(Before(s.tasks, t))
  }

  /** The task joins the queue. */
  ghost predicate Push(s: State, r: State, t: Task, pc: Pc) {
    && SameWorld(s, r) && SameShare(s, r, t, pc) && TaskOk(r, t, pc)
    && r.serial == s.serial + [t] && !InSerial(Before(s.tasks, t)) && InSerial(pc)
  }

  /** The head of the queue settles. */
  ghost predicate Pop(s: State, r: State, t: Task, pc: Pc) {
    && SameWorld(s, r) && SameShare(s, r, t, pc) && TaskOk(r, t, pc)
    && AtHead(s.serial, t) && r.serial == s.serial[1..]
  }

  lemma {:induction false} PlainMove(s: Pool, r: State, t: Task, pc: Pc)
    requires Plain(s, r, t, pc)
    ensures Inv(r)
  {
    QueueStays(s.serial, s.tasks, t, pc);
    LeasesStay(s.leases, s.tasks, t, pc);
    LoadStays(s.maintenance, s.tasks, t, pc);
    WorkersStay(s, r, t, pc);
    ServersStay(s, r, t, pc);
    OthersStay(s, r, t, pc);
  }

  lemma {:induction false} PushMove(s: Pool, r: State, t: Task, pc: Pc)
    requires Push(s, r, t, pc)
    ensures Inv(r)
  {
    QueuePush(s.serial, s.tasks, t, pc);
    LeasesStay(s.leases, s.tasks, t, pc);
    LoadStays(s.maintenance, s.tasks, t, pc);
    WorkersStay(s, r, t, pc);
    ServersStay(s, r, t, pc);
    OthersStay(s, r, t, pc);
  }

  lemma {:induction false} PopMove(s: Pool, r: State, t: Task, pc: Pc)
    requires Pop(s, r, t, pc)
    ensures Inv(r)
  {
    QueuePop(s.serial, s.tasks, t, pc);
    LeasesStay(s.leases, s.tasks, t, pc);
    LoadStays(s.maintenance, s.tasks, t, pc);
    WorkersStay(s, r, t, pc);
    ServersStay(s, r, t, pc);
    OthersStayAfterPop(s, r, t, pc);
  }

  lemma {:induction false} SpawnIsPlain(s: State, t: Task, pc: Pc)
    requires Enabled(s, t, Spawn(pc))
    ensures Plain(s, Goto(s, t, pc), t, pc)
  {
  }

  // ---------------------------------------------------------------- useChannel

  lemma {:induction false} ParkIsPlain(s: State, t: Task, k: Channel)
    requires t in s.tasks && s.tasks[t] == Arriving(k) && s.maintenance != 0
    ensures Plain(s, DoArrive(s, t, k), t, Parked(k))
  {
  }

  lemma {:induction false} EnterMoves(s: State, t: Task, k: Channel, after: Option<nat>, now: int)
    requires t in s.tasks && s.tasks[t] == Entering(k, after) && Waited(s, k, after)
    requires TaskOk(s, t, s.tasks[t]) && OneSession(s.live, s.sessions, s.nextBundle)
    ensures var r := DoEnter(s, t, k, now);
      if k in s.live then Plain(s, r, t, Awaiting(k, s.live[k])) else Push(s, r, t, Queued(k))
  {
  }

  lemma {:induction false} EnterFailsIsPlain(s: State, t: Task, k: Channel, after: Option<nat>)
    requires t in s.tasks && s.tasks[t] == Entering(k, after) && Waited(s, k, after)
    requires TaskOk(s, t, s.tasks[t])
    ensures Plain(s, Goto(s, t, Leaving(k)), t, Leaving(k))
  {
  }

  lemma {:induction false} StartMainMoves(s: State, t: Task, k: Channel)
    requires t in s.tasks && s.tasks[t] == Queued(k) && AtHead(s.serial, t)
    requires TaskOk(s, t, s.tasks[t]) && OneSession(s.live, s.sessions, s.nextBundle) && |s.live| <= s.limit
    ensures var r := DoStartMain(s, t, k);
      if k in s.live then Pop(s, r, t, Awaiting(k, s.live[k])) else Plain(s, r, t, Evicting(k, |s.live|, 0))
  {
  }

  lemma {:induction false} NoSlotIsPop(s: State, t: Task, pc: Pc)
    requires t in s.tasks && s.tasks[t] == pc && pc.Evicting? && TaskOk(s, t, pc)
    ensures Pop(s, LeaveSerial(s, t, Leaving(pc.key)), t, Leaving(pc.key))
  {
  }

  lemma {:induction false} ResumeIsPlain(s: State, t: Task, k: Channel, b: Bundle)
    requires t in s.tasks && s.tasks[t] == Awaiting(k, b) && TaskOk(s, t, s.tasks[t])
    requires b in s.sessions && !s.sessions[b].status.Opening? && OneSession(s.live, s.sessions, s.nextBundle)
    ensures Plain(s, DoResume(s, t, k, b), t, if s.sessions[b].status.Failed? then Leaving(k) else Using(k, b))
  {
  }

  lemma {:induction false} FinishUseIsPlain(s: State, t: Task, k: Channel, b: Bundle)
    requires t in s.tasks && s.tasks[t] == Using(k, b) && TaskOk(s, t, s.tasks[t])
    ensures Plain(s, Goto(s, t, Leaving(k)), t, Leaving(k))
  {
  }

  /** With the counter at zero no reload is under way. */
  lemma {:induction false} NoExclusive(maintenance: int, tasks: map<Task, Pc>)
    requires MaintenanceCounts(maintenance, tasks) && maintenance == 0
    ensures forall t :: t in tasks ==> Load(tasks[t]) == 0 && !Exclusive(tasks[t])
  {
    forall t | t in tasks ensures Load(tasks[t]) == 0 && !Exclusive(tasks[t]) {
      assert t !in Loaded(tasks, 1);
    }
  }

  lemma {:induction false} UncountedHasNoHolder(s: State, k: Channel)
    requires TasksOk(s) && k !in s.leases
    ensures Holders(s.tasks, k) == {}
  {
    forall t | t in s.tasks ensures LeaseOf(s.tasks[t]) != Some(k) {
      assert TaskOk(s, t, s.tasks[t]);
    }
  }

  /** A lease is taken only while no maintenance runs, so it meets no reload. */
  lemma {:induction false} TakeLeaseOthers(s: State, r: State, t: Task, k: Channel, pc: Pc)
    requires TasksOk(s) && t in s.tasks && r.tasks == s.tasks[t := pc] && SameWorld(s, r)
    requires r.serial == s.serial && r.maintenance == s.maintenance && s.leases.Keys <= r.leases.Keys
    requires forall u :: u in s.tasks ==> !Exclusive(s.tasks[u])
    requires TaskOk(r, t, pc)
    ensures TasksOk(r)
  {
    forall u | u in r.tasks ensures TaskOk(r, u, r.tasks[u]) {
      if u != t {
        assert TaskOk(s, u, s.tasks[u]);
      }
    }
  }

  /** The task takes a lease on `k`. */
  ghost predicate Takes(s: State, r: State, t: Task, pc: Pc, k: Channel) {
    var old_ := Before(s.tasks, t);
    && SameWorld(s, r) && r.tasks == s.tasks[t := pc] && r.serial == s.serial
    && r.maintenance == s.maintenance && r.leases == s.leases[k := (if k in s.leases then s.leases[k] else 0) + 1]
    && Quiet(old_) && LeaseOf(old_) == None && LeaseOf(pc) == Some(k)
    && Load(pc) == Load(old_) && InSerial(pc) == InSerial(old_)
    && t in s.tasks && TaskOk(r, t, pc)
  }

  lemma {:induction false} TakeMove(s: Pool, r: State, t: Task, pc: Pc, k: Channel)
    requires Takes(s, r, t, pc, k) && s.maintenance == 0
    ensures Inv(r)
  {
    QueueStays(s.serial, s.tasks, t, pc);
    if k !in s.leases { UncountedHasNoHolder(s, k); }
    LeaseTaken(s.leases, s.tasks, t, pc, k);
    LoadStays(s.maintenance, s.tasks, t, pc);
    NoExclusive(s.maintenance, s.tasks);
    WorkersStay(s, r, t, pc);
    ServersStay(s, r, t, pc);
    TakeLeaseOthers(s, r, t, k, pc);
  }

  lemma {:induction false} ArriveTakes(s: State, t: Task, k: Channel)
    requires t in s.tasks && s.tasks[t] == Arriving(k) && s.maintenance == 0
    ensures Takes(s, DoArrive(s, t, k), t, Entering(k, if k in s.retiring then Some(s.retiring[k].id) else None), k)
  {
  }

  lemma {:induction false} DropLeaseOthers(s: State, r: State, t: Task, k: Channel)
    requires TasksOk(s) && t in s.tasks && r.tasks == s.tasks[t := Left] && SameWorld(s, r)
    requires r.serial == s.serial && r.maintenance == s.maintenance && r.leases == DropLease(s, k).leases
    requires forall u :: u in s.tasks && u != t && LeaseOf(s.tasks[u]).Some? ==>
      LeaseOf(s.tasks[u]).value in s.leases ==> LeaseOf(s.tasks[u]).value in r.leases
    requires k in s.leases
    ensures TasksOk(r)
  {
    forall u | u in r.tasks ensures TaskOk(r, u, r.tasks[u]) {
      if u != t {
        assert TaskOk(s, u, s.tasks[u]);
        assert s.leases != map[];
      }
    }
  }

  /** The task drops its lease on `k` and is done. */
  ghost predicate Drops(s: State, r: State, t: Task, k: Channel) {
    && SameWorld(s, r) && t in s.tasks && r.tasks == s.tasks[t := Left] && r.serial == s.serial
    && r.maintenance == s.maintenance && r.leases == DropLease(s, k).leases && k in s.leases
    && Quiet(s.tasks[t]) && LeaseOf(s.tasks[t]) == Some(k) && Load(s.tasks[t]) == 0 && !InSerial(s.tasks[t])
  }

  lemma {:induction false} DropMove(s: Pool, r: State, t: Task, k: Channel)
    requires Drops(s, r, t, k)
    ensures Inv(r)
  {
    QueueStays(s.serial, s.tasks, t, Left);
    LeaseDropped(s, t, Left, k);
    LoadStays(s.maintenance, s.tasks, t, Left);
    WorkersStay(s, r, t, Left);
    ServersStay(s, r, t, Left);
    DropLeaseOthers(s, r, t, k);
  }

  lemma {:induction false} LeaveDrops(s: State, t: Task, k: Channel, now: int)
    requires t in s.tasks && s.tasks[t] == Leaving(k) && TaskOk(s, t, s.tasks[t])
    ensures Drops(s, DoLeave(s, t, k, now), t, k)
  {
  }

  // ---------------------------------------------------------------- the head of the queue

  /** Only one operation runs inside `channelChanges`. */
  lemma {:induction false} OnlyHeadRuns(s: State, t: Task)
    requires TasksOk(s) && t in s.tasks && Critical(s.tasks[t])
    ensures AtHead(s.serial, t)
    ensures forall u :: u in s.tasks && u != t ==> !Critical(s.tasks[u])
  {
    assert TaskOk(s, t, s.tasks[t]);
    forall u | u in s.tasks && u != t ensures !Critical(s.tasks[u]) {
      assert TaskOk(s, u, s.tasks[u]);
    }
  }

  /** What the head is not doing, nobody is doing. */
  lemma {:induction false} HeadIsAlone(s: Pool, t: Task)
    requires t in s.tasks && Critical(s.tasks[t])
    ensures !Replaces(s.tasks[t]) ==> s.replacing == None
    ensures !s.tasks[t].Creating? ==> forall b :: b in s.sessions ==> !s.sessions[b].status.Opening?
    ensures Victim(s.tasks[t]).None? ==> s.retiring == map[]
    ensures Victim(s.tasks[t]).Some? ==> s.retiring.Keys == {Victim(s.tasks[t]).value}
  {
    OnlyHeadRuns(s, t);
    assert TaskOk(s, t, s.tasks[t]);
    forall v | v in s.retiring ensures Victim(s.tasks[t]) == Some(v) {
      assert s.retiring[v].runner == t;
    }
  }

  lemma {:induction false} BeginOthers(s: State, r: State, t: Task, pc: Pc, v: Channel)
    requires TasksOk(s) && t in s.tasks && Critical(s.tasks[t]) && Idle(s, v)
    requires r == Goto(BeginRetirement(s, t, v), t, pc)
    requires TaskOk(r, t, pc)
    ensures TasksOk(r)
  {
    OnlyHeadRuns(s, t);
    forall u | u in r.tasks ensures TaskOk(r, u, r.tasks[u]) {
      if u != t {
        assert TaskOk(s, u, s.tasks[u]);
      }
    }
  }

  lemma {:induction false} BeginWorkers(s: State, r: State, t: Task, pc: Pc, v: Channel)
    requires WorkersKnown(s) && t in s.tasks && s.retiring == map[] && v in s.live && !s.tasks[t].Creating?
    requires r == Goto(BeginRetirement(s, t, v), t, pc) && Victim(pc) == Some(v)
    ensures WorkersKnown(r)
  {
  }

  /** The head starts to retire the unleased channel `v`. */
  ghost predicate Begins(s: State, r: State, t: Task, pc: Pc, v: Channel) {
    && t in s.tasks && Critical(s.tasks[t]) && Quiet(s.tasks[t]) && Idle(s, v)
    && r == Goto(BeginRetirement(s, t, v), t, pc)
    && Victim(pc) == Some(v) && LeaseOf(pc) == LeaseOf(s.tasks[t]) && Load(pc) == Load(s.tasks[t])
    && InSerial(pc) && TaskOk(r, t, pc)
  }

  lemma {:induction false} BeginMove(s: Pool, r: State, t: Task, pc: Pc, v: Channel)
    requires Begins(s, r, t, pc, v)
    ensures Inv(r)
  {
    HeadIsAlone(s, t);
    QueueStays(s.serial, s.tasks, t, pc);
    LeasesStay(s.leases, s.tasks, t, pc);
    LoadStays(s.maintenance, s.tasks, t, pc);
    BeginWorkers(s, r, t, pc, v);
    assert ServersAgree(r) by { assert r.replacing == None; }
    BeginOthers(s, r, t, pc, v);
  }

  lemma {:induction false} EvictBegins(s: State, t: Task, pc: Pc, v: Channel)
    requires t in s.tasks && s.tasks[t] == pc && pc.Evicting? && Idle(s, v) && TaskOk(s, t, pc) && s.retiring == map[]
    ensures Begins(s, DoEvict(s, t, pc, v), t, Retiring(pc.key, v, pc.entry, pc.passes), v)
  {
  }

  lemma {:induction false} PickBegins(s: State, t: Task, v: Channel)
    requires t in s.tasks && s.tasks[t] == Sweeping && TaskOk(s, t, Sweeping) && Idle(s, v)
    ensures Begins(s, Goto(BeginRetirement(s, t, v), t, SweepRetiring(v)), t, SweepRetiring(v), v)
  {
  }

  // ---------------------------------------------------------------- the end of a retirement

  lemma {:induction false} MapMinus(m: map<Channel, Bundle>, k: Channel)
    requires k in m
    ensures |m - {k}| == |m| - 1
  {
    assert (m - {k}).Keys == m.Keys - {k};
    assert |m.Keys| == |m| && |(m - {k}).Keys| == |m - {k}|;
  }

  /** The head finishes retiring `v`: the session is closed and forgotten. */
  ghost predicate Ends(s: State, r: State, t: Task, pc: Pc, v: Channel) {
    && t in s.tasks && Critical(s.tasks[t]) && Victim(s.tasks[t]) == Some(v) && HasSession(s, v)
    && AtHead(s.serial, t) && r.tasks == s.tasks[t := pc] && Quiet(pc)
    && (var e := EndRetirement(s, v);
        && r.live == e.live && r.sessions == e.sessions && r.retiring == e.retiring)
    && r.limit == s.limit && r.leases == s.leases && r.maintenance == s.maintenance
    && r.replacing == s.replacing && r.mcpConfig == s.mcpConfig
    && r.nextBundle == s.nextBundle && r.nextRetirement == s.nextRetirement && (s.faulted ==> r.faulted)
    && LeaseOf(pc) == LeaseOf(s.tasks[t]) && Load(pc) == Load(s.tasks[t])
    && (if InSerial(pc) then r.serial == s.serial else r.serial == s.serial[1..])
    && TaskOk(r, t, pc)
  }

  lemma {:induction false} EndSessions(s: State, v: Channel)
    requires OneSession(s.live, s.sessions, s.nextBundle) && HasSession(s, v)
    ensures var e := EndRetirement(s, v); OneSession(e.live, e.sessions, s.nextBundle)
  {
  }

  lemma {:induction false} EndWorkers(s: State, r: State, t: Task, pc: Pc, v: Channel)
    requires WorkersKnown(s) && Ends(s, r, t, pc, v) && r.retiring == map[]
    ensures WorkersKnown(r)
  {
  }

  lemma {:induction false} EndServers(s: State, r: State, t: Task, pc: Pc, v: Channel)
    requires ServersAgree(s) && OneSession(s.live, s.sessions, s.nextBundle) && Ends(s, r, t, pc, v)
    requires s.replacing == None
    ensures ServersAgree(r)
  {
  }

  lemma {:induction false} EndOther(s: State, r: State, t: Task, pc: Pc, v: Channel, u: Task)
    requires OneSession(s.live, s.sessions, s.nextBundle)
    requires Ends(s, r, t, pc, v) && r.retiring == map[] && v in s.retiring
    requires u in s.tasks && u != t && TaskOk(s, u, s.tasks[u]) && !Critical(s.tasks[u])
    requires u in s.serial ==> u in r.serial
    ensures TaskOk(r, u, s.tasks[u])
  {
  }

  lemma {:induction false} EndOthers(s: State, r: State, t: Task, pc: Pc, v: Channel)
    requires TasksOk(s) && OneSession(s.live, s.sessions, s.nextBundle)
    requires Ends(s, r, t, pc, v) && r.retiring == map[] && v in s.retiring
    requires forall u :: u in s.serial && u != t ==> u in r.serial
    ensures TasksOk(r)
  {
    OnlyHeadRuns(s, t);
    forall u | u in r.tasks ensures TaskOk(r, u, r.tasks[u]) {
      if u != t {
        EndOther(s, r, t, pc, v, u);
      }
    }
  }

  lemma {:induction false} EndCounts(s: State, r: State, t: Task, pc: Pc, v: Channel)
    requires QueueOk(s.serial, s.tasks) && LeasesCount(s.leases, s.tasks) && MaintenanceCounts(s.maintenance, s.tasks)
    requires Ends(s, r, t, pc, v) && s.retiring.Keys == {v}
    ensures QueueOk(r.serial, r.tasks) && LeasesCount(r.leases, r.tasks) && MaintenanceCounts(r.maintenance, r.tasks)
    ensures forall u :: u in s.serial && u != t ==> u in r.serial
    ensures |r.live| <= |s.live| && r.retiring == map[]
  {
    MapMinus(s.live, v);
    if InSerial(pc) { QueueStays(s.serial, s.tasks, t, pc); } else { QueuePop(s.serial, s.tasks, t, pc); }
    LeasesStay(s.leases, s.tasks, t, pc);
    LoadStays(s.maintenance, s.tasks, t, pc);
  }

  lemma {:induction false} EndMove(s: Pool, r: State, t: Task, pc: Pc, v: Channel)
    requires Ends(s, r, t, pc, v)
    ensures Inv(r)
  {
    HeadIsAlone(s, t);
    EndCounts(s, r, t, pc, v);
    EndSessions(s, v);
    EndWorkers(s, r, t, pc, v);
    EndServers(s, r, t, pc, v);
    EndOthers(s, r, t, pc, v);
  }

  lemma {:induction false} EvictedEnds(s: State, t: Task, pc: Pc, ok: bool)
    requires t in s.tasks && s.tasks[t] == pc && pc.Retiring? && HasSession(s, pc.victim) && TaskOk(s, t, pc)
    requires s.retiring.Keys == {pc.victim} && AtHead(s.serial, t)
    ensures Ends(s, DoEvicted(s, t, pc, ok), t,
                 if ok then Evicting(pc.key, pc.entry, pc.passes + 1) else Leaving(pc.key), pc.victim)
  {
    MapMinus(s.live, pc.victim);
  }

  lemma {:induction false} SweptEnds(s: State, t: Task, pc: Pc, ok: bool)
    requires t in s.tasks && s.tasks[t] == pc && pc.SweepRetiring? && HasSession(s, pc.victim) && TaskOk(s, t, pc)
    requires s.retiring.Keys == {pc.victim} && AtHead(s.serial, t)
    ensures Ends(s, DoSwept(s, t, pc, ok), t, if ok then Sweeping else Left, pc.victim)
  {
  }

  // ---------------------------------------------------------------- creating a session

  lemma {:induction false} MapPlus(m: map<Channel, Bundle>, k: Channel, b: Bundle)
    requires k !in m
    ensures |m[k := b]| == |m| + 1
  {
    assert m[k := b].Keys == m.Keys + {k};
    assert |m.Keys| == |m| && |m[k := b].Keys| == |m[k := b]|;
  }

  lemma {:induction false} OpenSessions(s: State, t: Task, k: Channel, now: int)
    requires OneSession(s.live, s.sessions, s.nextBundle) && k !in s.live
    ensures var r := DoOpen(s, t, k, now); OneSession(r.live, r.sessions, r.nextBundle)
  {
  }

  lemma {:induction false} OpenWorkers(s: State, t: Task, k: Channel, now: int)
    requires WorkersKnown(s) && t in s.tasks && Quiet(s.tasks[t]) && OneSession(s.live, s.sessions, s.nextBundle)
    ensures WorkersKnown(DoOpen(s, t, k, now))
  {
  }

  lemma {:induction false} OpenServers(s: State, t: Task, k: Channel, now: int)
    requires ServersAgree(s) && OneSession(s.live, s.sessions, s.nextBundle) && s.replacing == None && k !in s.live
    ensures ServersAgree(DoOpen(s, t, k, now))
  {
  }

  lemma {:induction false} OpenOther(s: State, t: Task, k: Channel, now: int, u: Task)
    requires OneSession(s.live, s.sessions, s.nextBundle) && k !in s.live && s.replacing == None
    requires u in s.tasks && u != t && TaskOk(s, u, s.tasks[u]) && !Critical(s.tasks[u])
    ensures TaskOk(DoOpen(s, t, k, now), u, s.tasks[u])
  {
  }

  lemma {:induction false} OpenSelf(s: State, t: Task, pc: Pc, now: int)
    requires t in s.tasks && s.tasks[t] == pc && pc.Evicting? && TaskOk(s, t, pc)
    ensures TaskOk(DoOpen(s, t, pc.key, now), t, Creating(pc.key, s.nextBundle))
  {
  }

  lemma {:induction false} OpenOthers(s: State, t: Task, pc: Pc, now: int)
    requires TasksOk(s) && OneSession(s.live, s.sessions, s.nextBundle) && s.replacing == None
    requires t in s.tasks && s.tasks[t] == pc && pc.Evicting? && pc.key !in s.live
    ensures TasksOk(DoOpen(s, t, pc.key, now))
  {
    var r := DoOpen(s, t, pc.key, now);
    OnlyHeadRuns(s, t);
    forall u | u in r.tasks ensures TaskOk(r, u, r.tasks[u]) {
      if u != t { OpenOther(s, t, pc.key, now, u); } else { OpenSelf(s, t, pc, now); }
    }
  }

  lemma {:induction false} OpenCounts(s: State, t: Task, pc: Pc, now: int)
    requires QueueOk(s.serial, s.tasks) && LeasesCount(s.leases, s.tasks) && MaintenanceCounts(s.maintenance, s.tasks)
    requires t in s.tasks && s.tasks[t] == pc && pc.Evicting?
    ensures var r := DoOpen(s, t, pc.key, now);
      QueueOk(r.serial, r.tasks) && LeasesCount(r.leases, r.tasks) && MaintenanceCounts(r.maintenance, r.tasks)
  {
    var after := Creating(pc.key, s.nextBundle);
    QueueStays(s.serial, s.tasks, t, after);
    LeasesStay(s.leases, s.tasks, t, after);
    LoadStays(s.maintenance, s.tasks, t, after);
  }

  lemma {:induction false} OpenKeeps(s: Pool, t: Task, pc: Pc, now: int)
    requires t in s.tasks && s.tasks[t] == pc && pc.Evicting? && |s.live| < s.limit
    ensures Inv(DoOpen(s, t, pc.key, now))
  {
    assert TaskOk(s, t, s.tasks[t]);
    HeadIsAlone(s, t);
    MapPlus(s.live, pc.key, s.nextBundle);
    OpenCounts(s, t, pc, now);
    OpenSessions(s, t, pc.key, now);
    OpenWorkers(s, t, pc.key, now);
    OpenServers(s, t, pc.key, now);
    OpenOthers(s, t, pc, now);
  }

  /** The head's creation settles: the session opens, or fails and is forgotten. */
  ghost predicate Settles(s: State, r: State, t: Task, pc: Pc, k: Channel, b: Bundle, ok: bool) {
    && t in s.tasks && s.tasks[t] == Creating(k, b) && TaskOk(s, t, s.tasks[t]) && b in s.sessions
    && pc == (if ok then Using(k, b) else Leaving(k)) && r == DoOpened(s, t, k, b, ok)
  }

  /** What the settled creation means for the maps. */
  ghost predicate Settled(s: State, r: State, k: Channel, b: Bundle, ok: bool) {
    && k in s.live && s.live[k] == b && b in s.sessions && s.sessions[b].channel == k && s.sessions[b].status.Opening?
    && r.sessions == s.sessions[b := s.sessions[b].(status := if ok then Status.Open else Failed)]
    && r.live == (if ok then s.live else s.live - {k})
    && r.nextBundle == s.nextBundle && r.limit == s.limit
    && r.mcpConfig == s.mcpConfig && r.replacing == s.replacing && r.faulted == s.faulted
  }

  lemma {:induction false} SettlesMeans(s: State, r: State, t: Task, pc: Pc, k: Channel, b: Bundle, ok: bool)
    requires OneSession(s.live, s.sessions, s.nextBundle) && Settles(s, r, t, pc, k, b, ok)
    ensures Settled(s, r, k, b, ok)
  {
  }

  lemma {:induction false} OpenedSessions(s: State, r: State, k: Channel, b: Bundle, ok: bool)
    requires OneSession(s.live, s.sessions, s.nextBundle) && Settled(s, r, k, b, ok)
    ensures OneSession(r.live, r.sessions, r.nextBundle)
  {
  }

  lemma {:induction false} OpenedWorkers(s: State, r: State, t: Task, pc: Pc, k: Channel, b: Bundle, ok: bool)
    requires WorkersKnown(s) && Settles(s, r, t, pc, k, b, ok) && s.retiring == map[]
    ensures WorkersKnown(r)
  {
  }

  lemma {:induction false} OpenedServers(s: State, r: State, k: Channel, b: Bundle, ok: bool)
    requires ServersAgree(s) && Settled(s, r, k, b, ok) && s.replacing == None
    requires OneSession(s.live, s.sessions, s.nextBundle)
    ensures ServersAgree(r)
  {
    assert forall j :: j in r.live ==> j in s.live && r.live[j] == s.live[j];
    assert forall c :: c in r.sessions ==> c in s.sessions && r.sessions[c].servers == s.sessions[c].servers;
  }

  lemma {:induction false} OpenedPcAgrees(s: State, r: State, k: Channel, b: Bundle, ok: bool, p: Pc)
    requires OneSession(s.live, s.sessions, s.nextBundle) && Settled(s, r, k, b, ok)
    requires PcAgrees(s.limit, s.live, s.sessions, p) && !Critical(p)
    ensures PcAgrees(r.limit, r.live, r.sessions, p)
  {
  }

  lemma {:induction false} OpenedOther(s: State, r: State, t: Task, pc: Pc, k: Channel, b: Bundle, ok: bool, u: Task)
    requires OneSession(s.live, s.sessions, s.nextBundle) && Settles(s, r, t, pc, k, b, ok)
    requires u in s.tasks && u != t && TaskOk(s, u, s.tasks[u]) && !Critical(s.tasks[u])
    requires u in s.serial ==> u in r.serial
    ensures TaskOk(r, u, s.tasks[u])
  {
    SettlesMeans(s, r, t, pc, k, b, ok);
    OpenedPcAgrees(s, r, k, b, ok, s.tasks[u]);
  }

  lemma {:induction false} OpenedSelf(s: State, r: State, t: Task, pc: Pc, k: Channel, b: Bundle, ok: bool)
    requires Settles(s, r, t, pc, k, b, ok) && s.retiring == map[]
    ensures TaskOk(r, t, pc)
  {
  }

  lemma {:induction false} OpenedOthers(s: State, r: State, t: Task, pc: Pc, k: Channel, b: Bundle, ok: bool)
    requires TasksOk(s) && OneSession(s.live, s.sessions, s.nextBundle) && s.retiring == map[]
    requires Settles(s, r, t, pc, k, b, ok)
    requires forall u :: u in s.serial && u != t ==> u in r.serial
    ensures TasksOk(r)
  {
    OnlyHeadRuns(s, t);
    assert r.tasks == s.tasks[t := pc];
    forall u | u in r.tasks ensures TaskOk(r, u, r.tasks[u]) {
      if u != t { OpenedOther(s, r, t, pc, k, b, ok, u); } else { OpenedSelf(s, r, t, pc, k, b, ok); }
    }
  }

  lemma {:induction false} OpenedCounts(s: State, r: State, t: Task, pc: Pc, k: Channel, b: Bundle, ok: bool)
    requires QueueOk(s.serial, s.tasks) && LeasesCount(s.leases, s.tasks) && MaintenanceCounts(s.maintenance, s.tasks)
    requires Settles(s, r, t, pc, k, b, ok)
    ensures QueueOk(r.serial, r.tasks) && LeasesCount(r.leases, r.tasks) && MaintenanceCounts(r.maintenance, r.tasks)
    ensures forall u :: u in s.serial && u != t ==> u in r.serial
    ensures |r.live| <= |s.live|
  {
    QueuePop(s.serial, s.tasks, t, pc);
    LeasesStay(s.leases, s.tasks, t, pc);
    LoadStays(s.maintenance, s.tasks, t, pc);
    if !ok { MapMinus(s.live, k); }
  }

  lemma {:induction false} OpenedKeeps(s: Pool, r: State, t: Task, pc: Pc, k: Channel, b: Bundle, ok: bool)
    requires Settles(s, r, t, pc, k, b, ok)
    ensures Inv(r)
  {
    HeadIsAlone(s, t);
    OpenedCounts(s, r, t, pc, k, b, ok);
    SettlesMeans(s, r, t, pc, k, b, ok);
    OpenedSessions(s, r, k, b, ok);
    OpenedWorkers(s, r, t, pc, k, b, ok);
    OpenedServers(s, r, k, b, ok);
    OpenedOthers(s, r, t, pc, k, b, ok);
  }
}
