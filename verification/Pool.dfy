/**
  The pool of live conversation channels of BoBeAgent/src/sessions.ts with the `Serial` of
  BoBeAgent/src/errors.ts: leases, eviction of the least recently used idle channel, idle
  retirement, the maintenance counter, and the MCP replacement with rollback.

  Every call in progress is a task with a program counter; one step is the code between two
  suspension points of that call, so a run of steps is an interleaving of the source.
  Reading the clock, opening and closing a session, and reconnecting MCP servers are choices
  carried by the step.
 */
module Pool {
  import opened Common

  type Channel = nat
  type Task = nat
  type Bundle = nat
  type Servers = nat

  /** An opening session records the call that is creating it. */
  datatype Status = Opening(creator: Task) | Open | Closed | Failed

  /** `servers` is None for a session whose server replacement stopped half way. */
  datatype Session = Session(channel: Channel, status: Status, servers: Option<Servers>)

  /** The promise in `retiringChannels`: its identity and the call that runs it. */
  datatype Retirement = Retirement(id: nat, runner: Task)

  datatype Outcome = Replaced | Refused | RolledBack | Fault

  datatype Pc =
    // useChannel and main
    | Arriving(key: Channel)
    | Parked(key: Channel)
    | Entering(key: Channel, after: Option<nat>)
    | Queued(key: Channel)
    | Evicting(key: Channel, entry: nat, passes: nat)
    | Retiring(key: Channel, victim: Channel, entry: nat, passes: nat)
    | Creating(key: Channel, bundle: Bundle)
    | Awaiting(key: Channel, bundle: Bundle)
    | Using(key: Channel, bundle: Bundle)
    | Leaving(key: Channel)
    | Left
    // retireIdle
    | SweepStart
    | SweepQueued
    | Sweeping
    | SweepRetiring(victim: Channel)
    // reload and replaceMcp
    | ReloadStart(next: Option<Servers>)
    | Refreshing(next: Option<Servers>)
    | ReloadQueued(servers: Servers)
    | Staging(servers: Servers)
    | Applying(servers: Servers, previous: Servers, todo: set<Channel>, failed: bool)
    | Restoring(previous: Servers, todo: set<Channel>, failed: bool)
    | ReloadEnd(exclusive: bool, outcome: Outcome)
    | Reloaded(outcome: Outcome)

  datatype State = State(
    limit: nat,  // `live_channels`
    live: map<Channel, Bundle>,
    access: map<Channel, int>,
    leases: map<Channel, int>,
    retiring: map<Channel, Retirement>,
    maintenance: int,
    serial: seq<Task>,
    mcpConfig: Servers,
    replacing: Option<Task>,  // the call inside `replaceMcp` past its staging, if any
    sessions: map<Bundle, Session>,
    tasks: map<Task, Pc>,
    nextBundle: nat,
    nextRetirement: nat,
    faulted: bool)

  /** Steps of a `useChannel` call. */
  datatype UseStep =
    | Arrive
    | Enter(now: int)
    | EnterFails
    | StartMain
    | Evict(victim: Channel)
    | NoSlot
    | Open(now: int)
    | Evicted(ok: bool)
    | Opened(ok: bool)
    | Resume
    | FinishUse
    | Leave(now: int)

  /** Steps of a `retireIdle` call. */
  datatype SweepStep =
    | SweepCheck
    | SweepBegin
    | SweepPick(victim: Channel)
    | Swept(ok: bool)
    | SweepEnd

  /** Steps of a `reload` call. */
  datatype ReloadStep =
    | ReloadCheck(busy: bool)
    | Refreshed(ok: bool)
    | Stage
    | Staged(result: Outcome)
    | ApplyOne(channel: Channel, ok: bool)
    | ApplyDone
    | RestoreOne(channel: Channel, ok: bool)
    | RestoreDone
    | ReloadFinish

  datatype Step = Spawn(pc: Pc) | Use(use: UseStep) | Sweep(sweep: SweepStep) | Reload(reload: ReloadStep)

  // ---------------------------------------------------------------- what a counter means

  /** The channel on which the task holds a lease. */
  function LeaseOf(pc: Pc): Option<Channel> {
    match pc
    case Entering(k, _) => Some(k)
    case Queued(k) => Some(k)
    case Evicting(k, _, _) => Some(k)
    case Retiring(k, _, _, _) => Some(k)
    case Creating(k, _) => Some(k)
    case Awaiting(k, _) => Some(k)
    case Using(k, _) => Some(k)
    case Leaving(k) => Some(k)
    case _ => None
  }

  /** The task runs inside `channelChanges`, past its start. */
  predicate Critical(pc: Pc) {
    pc.Evicting? || pc.Retiring? || pc.Creating? || pc.Sweeping? || pc.SweepRetiring? ||
    pc.Staging? || pc.Applying? || pc.Restoring?
  }

  predicate InSerial(pc: Pc) {
    Critical(pc) || pc.Queued? || pc.SweepQueued? || pc.ReloadQueued?
  }

  /** How much the task adds to the maintenance counter. */
  function Load(pc: Pc): nat {
    match pc
    case Refreshing(_) => 2
    case ReloadQueued(_) => 1
    case Staging(_) => 1
    case Applying(_, _, _, _) => 1
    case Restoring(_, _, _) => 1
    case ReloadEnd(_, _) => 1
    case _ => 0
  }

  /** The task is an MCP reload past its idleness check. */
  predicate Exclusive(pc: Pc) {
    (pc.Refreshing? && pc.next.Some?) || pc.ReloadQueued? || pc.Staging? || pc.Applying? || pc.Restoring? ||
    (pc.ReloadEnd? && pc.exclusive)
  }

  function Victim(pc: Pc): Option<Channel> {
    match pc
    case Retiring(_, v, _, _) => Some(v)
    case SweepRetiring(v) => Some(v)
    case _ => None
  }

  // ---------------------------------------------------------------- state changes

  /** Only task `t` moves. */
  predicate OnlyMoves(s: State, r: State, t: Task) {
    t in r.tasks && r.tasks == s.tasks[t := r.tasks[t]] && r.limit == s.limit
  }

  function Goto(s: State, t: Task, pc: Pc): State {
    s.(tasks := s.tasks[t := pc])
  }

  /** The operation of the head of the queue settles. */
  function LeaveSerial(s: State, t: Task, pc: Pc): State {
    Goto(s.(serial := if s.serial == [] then [] else s.serial[1..]), t, pc)
  }

  predicate Idle(s: State, v: Channel) {
    v in s.live && v !in s.leases
  }

  function AccessOf(s: State, k: Channel): int {
    if k in s.access then s.access[k] else 0
  }

  /** The choice of the eviction loop: an unleased channel with the oldest access. */
  predicate LeastRecentlyUsed(s: State, v: Channel) {
    Idle(s, v) && forall k :: k in s.live && Idle(s, k) ==> AccessOf(s, v) <= AccessOf(s, k)
  }

  function BeginRetirement(s: State, t: Task, v: Channel): State {
    s.(retiring := s.retiring[v := Retirement(s.nextRetirement, t)], nextRetirement := s.nextRetirement + 1)
  }

  /** The end of `retireChannel`: the session is closed and the maps forget the channel. */
  function EndRetirement(s: State, v: Channel): State
    requires v in s.live && s.live[v] in s.sessions
  {
    var b := s.live[v];
    s.(live := s.live - {v}, access := s.access - {v}, retiring := s.retiring - {v},
       sessions := s.sessions[b := s.sessions[b].(status := Status.Closed)])
  }

  function SetServers(s: State, k: Channel, c: Option<Servers>): State
    requires k in s.live && s.live[k] in s.sessions
  {
    var b := s.live[k];
    s.(sessions := s.sessions[b := s.sessions[b].(servers := c)])
  }

  function DropLease(s: State, k: Channel): State {
    var remaining := (if k in s.leases then s.leases[k] else 1) - 1;
    s.(leases := if remaining > 0 then s.leases[k := remaining] else s.leases - {k})
  }

  /** `finishMaintenance`: the last one out resolves every parked caller. */
  function FinishMaintenance(s: State): (r: State)
    ensures r.tasks.Keys == s.tasks.Keys && r.limit == s.limit
    ensures forall u :: u in s.tasks ==> LeaseOf(r.tasks[u]) == LeaseOf(s.tasks[u])
  {
    var left := s.maintenance - 1;
    if left != 0 then s.(maintenance := left)
    else s.(maintenance := 0, tasks := Wake(s.tasks))
  }

  function Wake(tasks: map<Task, Pc>): map<Task, Pc> {
    map t | t in tasks :: if tasks[t].Parked? then Arriving(tasks[t].key) else tasks[t]
  }

  // ---------------------------------------------------------------- transitions

  predicate Waited(s: State, k: Channel, after: Option<nat>) {
    after.None? || k !in s.retiring || s.retiring[k].id != after.value
  }

  predicate UseEnabled(s: State, t: Task, pc: Pc, step: UseStep) {
    match step
    case Arrive => pc.Arriving?
    case Enter(_) => pc.Entering? && Waited(s, pc.key, pc.after)
    case EnterFails => pc.Entering? && pc.after.Some? && Waited(s, pc.key, pc.after)
    case StartMain => pc.Queued? && AtHead(s.serial, t)
    case Evict(v) => pc.Evicting? && |s.live| >= s.limit && LeastRecentlyUsed(s, v)
    case NoSlot => pc.Evicting? && |s.live| >= s.limit && forall k :: k in s.live ==> !Idle(s, k)
    case Open(_) => pc.Evicting? && |s.live| < s.limit
    case Evicted(_) => pc.Retiring?
    case Opened(_) => pc.Creating?
    case Resume => pc.Awaiting? && pc.bundle in s.sessions && !s.sessions[pc.bundle].status.Opening?
    case FinishUse => pc.Using?
    case Leave(_) => pc.Leaving?
  }

  predicate SweepEnabled(s: State, t: Task, pc: Pc, step: SweepStep) {
    match step
    case SweepCheck => pc.SweepStart?
    case SweepBegin => pc.SweepQueued? && AtHead(s.serial, t)
    case SweepPick(v) => pc.Sweeping? && Idle(s, v)
    case Swept(_) => pc.SweepRetiring?
    case SweepEnd => pc.Sweeping?
  }

  predicate ReloadEnabled(s: State, t: Task, pc: Pc, step: ReloadStep) {
    match step
    case ReloadCheck(_) => pc.ReloadStart?
    case Refreshed(_) => pc.Refreshing?
    case Stage => pc.ReloadQueued? && AtHead(s.serial, t)
    case Staged(r) => pc.Staging? && r != RolledBack
    case ApplyOne(k, _) => pc.Applying? && k in pc.todo
    case ApplyDone => pc.Applying? && pc.todo == {}
    case RestoreOne(k, _) => pc.Restoring? && k in pc.todo
    case RestoreDone => pc.Restoring? && pc.todo == {}
    case ReloadFinish => pc.ReloadEnd?
  }

  predicate Enabled(s: State, t: Task, step: Step) {
    match step
    case Spawn(pc) => t !in s.tasks && (pc.Arriving? || pc.SweepStart? || pc.ReloadStart?)
    case Use(u) => t in s.tasks && UseEnabled(s, t, s.tasks[t], u)
    case Sweep(w) => t in s.tasks && SweepEnabled(s, t, s.tasks[t], w)
    case Reload(r) => t in s.tasks && ReloadEnabled(s, t, s.tasks[t], r)
  }

  predicate HasSession(s: State, k: Channel) {
    k in s.live && s.live[k] in s.sessions
  }

  /** The lookups a task will make are defined: part of the invariant, needed to state a step. */
  predicate Grounded(s: State, pc: Pc) {
    && (Victim(pc).Some? ==> HasSession(s, Victim(pc).value))
    && (pc.Creating? ==> pc.bundle in s.sessions)
    && (pc.Applying? ==> forall k :: k in pc.todo ==> HasSession(s, k))
    && (pc.Restoring? ==> forall k :: k in pc.todo ==> HasSession(s, k))
  }

  function DoArrive(s: State, t: Task, k: Channel): (r: State)
    ensures OnlyMoves(s, r, t)
  {
    if s.maintenance != 0 then Goto(s, t, Parked(k))
    else
      var n := if k in s.leases then s.leases[k] else 0;
      Goto(s.(leases := s.leases[k := n + 1]), t,
           Entering(k, if k in s.retiring then Some(s.retiring[k].id) else None))
  }

  function DoEnter(s: State, t: Task, k: Channel, now: int): (r: State)
    ensures OnlyMoves(s, r, t)
  {
    if k in s.live then Goto(s.(access := s.access[k := now]), t, Awaiting(k, s.live[k]))
    else Goto(s.(serial := s.serial + [t]), t, Queued(k))
  }

  function DoStartMain(s: State, t: Task, k: Channel): (r: State)
    ensures OnlyMoves(s, r, t)
  {
    if k in s.live then LeaveSerial(s, t, Awaiting(k, s.live[k]))
    else Goto(s, t, Evicting(k, |s.live|, 0))
  }

  function DoEvict(s: State, t: Task, pc: Pc, v: Channel): (r: State)
    requires pc.Evicting?
    ensures OnlyMoves(s, r, t)
  {
    Goto(BeginRetirement(s, t, v), t, Retiring(pc.key, v, pc.entry, pc.passes))
  }

  function DoOpen(s: State, t: Task, k: Channel, now: int): (r: State)
    ensures OnlyMoves(s, r, t)
  {
    var b := s.nextBundle;
    Goto(s.(live := s.live[k := b], access := s.access[k := now],
            sessions := s.sessions[b := Session(k, Opening(t), Some(s.mcpConfig))], nextBundle := b + 1),
         t, Creating(k, b))
  }

  function DoEvicted(s: State, t: Task, pc: Pc, ok: bool): (r: State)
    requires pc.Retiring? && HasSession(s, pc.victim)
    ensures OnlyMoves(s, r, t)
  {
    var e := EndRetirement(s, pc.victim);
    if ok then Goto(e, t, Evicting(pc.key, pc.entry, pc.passes + 1))
    else LeaveSerial(e.(faulted := true), t, Leaving(pc.key))
  }

  function DoSwept(s: State, t: Task, pc: Pc, ok: bool): (r: State)
    requires pc.SweepRetiring? && HasSession(s, pc.victim)
    ensures OnlyMoves(s, r, t)
  {
    var e := EndRetirement(s, pc.victim);
    if ok then Goto(e, t, Sweeping) else LeaveSerial(e.(faulted := true), t, Left)
  }

  function DoOpened(s: State, t: Task, k: Channel, b: Bundle, ok: bool): (r: State)
    requires b in s.sessions
    ensures OnlyMoves(s, r, t)
  {
    if ok then LeaveSerial(s.(sessions := s.sessions[b := s.sessions[b].(status := Status.Open)]), t, Using(k, b))
    else LeaveSerial(s.(sessions := s.sessions[b := s.sessions[b].(status := Failed)],
                        live := s.live - {k}, access := s.access - {k}), t, Leaving(k))
  }

  function DoResume(s: State, t: Task, k: Channel, b: Bundle): (r: State)
    requires b in s.sessions
    ensures OnlyMoves(s, r, t)
  {
    if s.sessions[b].status == Failed then Goto(s, t, Leaving(k)) else Goto(s, t, Using(k, b))
  }

  function DoLeave(s: State, t: Task, k: Channel, now: int): (r: State)
    ensures OnlyMoves(s, r, t)
  {
    Goto(DropLease(s.(access := s.access[k := now]), k), t, Left)
  }

  function DoReloadCheck(s: State, t: Task, next: Option<Servers>, busy: bool): (r: State)
    ensures OnlyMoves(s, r, t)
  {
    if next.Some? && (busy || s.leases != map[]) then Goto(s, t, Reloaded(Refused))
    else Goto(s.(maintenance := s.maintenance + 2), t, Refreshing(next))
  }

  function DoRefreshed(s: State, t: Task, next: Option<Servers>, ok: bool): (r: State)
    ensures r.limit == s.limit && t in r.tasks
    ensures forall u :: u in s.tasks && u != t ==> u in r.tasks && LeaseOf(r.tasks[u]) == LeaseOf(s.tasks[u])
  {
    var f := FinishMaintenance(s);
    if ok && next.Some? then Goto(f.(serial := f.serial + [t]), t, ReloadQueued(next.value))
    else Goto(f, t, ReloadEnd(next.Some?, if ok then Replaced else Refused))
  }

  function DoReloadFinish(s: State, t: Task, outcome: Outcome): (r: State)
    ensures r.limit == s.limit && t in r.tasks && r.tasks[t] == Reloaded(outcome)
    ensures forall u :: u in s.tasks && u != t ==> u in r.tasks && LeaseOf(r.tasks[u]) == LeaseOf(s.tasks[u])
  {
    Goto(FinishMaintenance(s), t, Reloaded(outcome))
  }

  function DoStaged(s: State, t: Task, next: Servers, result: Outcome): (r: State)
    ensures OnlyMoves(s, r, t)
  {
    if result == Replaced then Goto(s.(replacing := Some(t)), t, Applying(next, s.mcpConfig, s.live.Keys, false))
    else LeaveSerial(s.(faulted := s.faulted || result == Fault), t, ReloadEnd(true, result))
  }

  function DoApplyOne(s: State, t: Task, pc: Pc, k: Channel, ok: bool): (r: State)
    requires pc.Applying? && k in s.live && s.live[k] in s.sessions
    ensures OnlyMoves(s, r, t)
  {
    Goto(SetServers(s, k, if ok then Some(pc.servers) else None), t,
         Applying(pc.servers, pc.previous, pc.todo - {k}, pc.failed || !ok))
  }

  function DoApplyDone(s: State, t: Task, pc: Pc): (r: State)
    requires pc.Applying?
    ensures OnlyMoves(s, r, t)
  {
    if pc.failed then Goto(s, t, Restoring(pc.previous, s.live.Keys, false))
    else LeaveSerial(s.(mcpConfig := pc.servers, replacing := None), t, ReloadEnd(true, Replaced))
  }

  function DoRestoreOne(s: State, t: Task, pc: Pc, k: Channel, ok: bool): (r: State)
    requires pc.Restoring? && k in s.live && s.live[k] in s.sessions
    ensures OnlyMoves(s, r, t)
  {
    Goto(SetServers(s, k, if ok then Some(pc.previous) else None), t,
         Restoring(pc.previous, pc.todo - {k}, pc.failed || !ok))
  }

  function DoRestoreDone(s: State, t: Task, failed: bool): (r: State)
    ensures OnlyMoves(s, r, t)
  {
    if failed then LeaveSerial(s.(faulted := true, replacing := None), t, ReloadEnd(true, Fault))
    else LeaveSerial(s.(replacing := None), t, ReloadEnd(true, RolledBack))
  }

  function ApplyUse(s: State, t: Task, pc: Pc, step: UseStep): (r: State)
    requires Grounded(s, pc) && UseEnabled(s, t, pc, step)
    ensures OnlyMoves(s, r, t)
  {
    match step
    case Arrive => DoArrive(s, t, pc.key)
    case Enter(now) => DoEnter(s, t, pc.key, now)
    case EnterFails => Goto(s, t, Leaving(pc.key))
    case StartMain => DoStartMain(s, t, pc.key)
    case Evict(v) => DoEvict(s, t, pc, v)
    case NoSlot => LeaveSerial(s, t, Leaving(pc.key))
    case Open(now) => DoOpen(s, t, pc.key, now)
    case Evicted(ok) => DoEvicted(s, t, pc, ok)
    case Opened(ok) => DoOpened(s, t, pc.key, pc.bundle, ok)
    case Resume => DoResume(s, t, pc.key, pc.bundle)
    case FinishUse => Goto(s, t, Leaving(pc.key))
    case Leave(now) => DoLeave(s, t, pc.key, now)
  }

  function ApplySweep(s: State, t: Task, pc: Pc, step: SweepStep): (r: State)
    requires Grounded(s, pc) && SweepEnabled(s, t, pc, step)
    ensures OnlyMoves(s, r, t) && LeaseOf(r.tasks[t]).None?
  {
    match step
    case SweepCheck =>
      if s.maintenance != 0 then Goto(s, t, Left) else Goto(s.(serial := s.serial + [t]), t, SweepQueued)
    case SweepBegin => if s.maintenance != 0 then LeaveSerial(s, t, Left) else Goto(s, t, Sweeping)
    case SweepPick(v) => Goto(BeginRetirement(s, t, v), t, SweepRetiring(v))
    case Swept(ok) => DoSwept(s, t, pc, ok)
    case SweepEnd => LeaveSerial(s, t, Left)
  }

  /** The steps of `replaceMcp`, which touch no other call. */
  function ApplyReplace(s: State, t: Task, pc: Pc, step: ReloadStep): (r: State)
    requires Grounded(s, pc) && ReloadEnabled(s, t, pc, step) && !step.ReloadCheck? && !step.Refreshed?
    requires !step.ReloadFinish?
    ensures OnlyMoves(s, r, t) && LeaseOf(r.tasks[t]).None?
  {
    match step
    case Stage => Goto(s, t, Staging(pc.servers))
    case Staged(r) => DoStaged(s, t, pc.servers, r)
    case ApplyOne(k, ok) => DoApplyOne(s, t, pc, k, ok)
    case ApplyDone => DoApplyDone(s, t, pc)
    case RestoreOne(k, ok) => DoRestoreOne(s, t, pc, k, ok)
    case RestoreDone => DoRestoreDone(s, t, pc.failed)
  }

  function ApplyReload(s: State, t: Task, pc: Pc, step: ReloadStep): (r: State)
    requires Grounded(s, pc) && ReloadEnabled(s, t, pc, step)
    ensures r.limit == s.limit && t in r.tasks && LeaseOf(r.tasks[t]).None?
    ensures forall u :: u in s.tasks && u != t ==> u in r.tasks && LeaseOf(r.tasks[u]) == LeaseOf(s.tasks[u])
  {
    match step
    case ReloadCheck(busy) => DoReloadCheck(s, t, pc.next, busy)
    case Refreshed(ok) => DoRefreshed(s, t, pc.next, ok)
    case ReloadFinish => DoReloadFinish(s, t, pc.outcome)
    case _ => ApplyReplace(s, t, pc, step)
  }

  function Apply(s: State, t: Task, step: Step): State
    requires Enabled(s, t, step) && (t in s.tasks ==> Grounded(s, s.tasks[t]))
  {
    match step
    case Spawn(pc) => Goto(s, t, pc)
    case Use(u) => ApplyUse(s, t, s.tasks[t], u)
    case Sweep(w) => ApplySweep(s, t, s.tasks[t], w)
    case Reload(r) => ApplyReload(s, t, s.tasks[t], r)
  }

  function Init(limit: nat, servers: Servers): State {
    State(limit, map[], map[], map[], map[], 0, [], servers, None, map[], map[], 0, 0, false)
  }

  // ---------------------------------------------------------------- invariant

  function Holders(tasks: map<Task, Pc>, k: Channel): set<Task> {
    set t | t in tasks && LeaseOf(tasks[t]) == Some(k)
  }

  function Loaded(tasks: map<Task, Pc>, n: nat): set<Task> {
    set t | t in tasks && Load(tasks[t]) >= n
  }

  predicate AtHead(serial: seq<Task>, t: Task) {
    serial != [] && serial[0] == t
  }

  /** The queue holds each waiting or running operation once. */
  ghost predicate QueueOk(serial: seq<Task>, tasks: map<Task, Pc>) {
    && (forall i, j :: 0 <= i < j < |serial| ==> serial[i] != serial[j])
    && (forall t :: t in serial ==> t in tasks && InSerial(tasks[t]))
  }

  predicate IsLive(status: Status) {
    status.Opening? || status.Open?
  }

  /** A channel has at most one open session, the one the map names. */
  ghost predicate OneSession(live: map<Channel, Bundle>, sessions: map<Bundle, Session>, next: nat) {
    && (forall k :: k in live ==>
         live[k] in sessions && sessions[live[k]].channel == k && IsLive(sessions[live[k]].status))
    && (forall b :: b in sessions ==> b < next)
    && (forall b :: b in sessions && IsLive(sessions[b].status) ==>
         sessions[b].channel in live && live[sessions[b].channel] == b)
  }

  /** An opening session has its creator at work, and a retirement its runner. */
  ghost predicate WorkersKnown(s: State) {
    && (forall b :: b in s.sessions && s.sessions[b].status.Opening? ==>
         s.sessions[b].status.creator in s.tasks &&
         s.tasks[s.sessions[b].status.creator] == Creating(s.sessions[b].channel, b))
    && (forall v :: v in s.retiring ==>
         v in s.live && s.retiring[v].id < s.nextRetirement &&
         s.retiring[v].runner in s.tasks && Victim(s.tasks[s.retiring[v].runner]) == Some(v))
  }

  /** A lease counter counts the tasks between taking and dropping that lease. */
  ghost predicate LeasesCount(leases: map<Channel, int>, tasks: map<Task, Pc>) {
    forall k :: k in leases ==> leases[k] == |Holders(tasks, k)| && leases[k] > 0
  }

  ghost predicate MaintenanceCounts(maintenance: int, tasks: map<Task, Pc>) {
    maintenance == |Loaded(tasks, 1)| + |Loaded(tasks, 2)|
  }

  /** Whoever holds a lease on a channel under retirement is waiting for exactly that retirement. */
  predicate Protected(retiring: map<Channel, Retirement>, pc: Pc) {
    LeaseOf(pc).Some? && LeaseOf(pc).value in retiring ==>
      pc == Entering(LeaseOf(pc).value, Some(retiring[LeaseOf(pc).value].id))
  }

  /** What the counter of a task says about the sessions. */
  predicate PcAgrees(limit: nat, live: map<Channel, Bundle>, sessions: map<Bundle, Session>, pc: Pc) {
    match pc
    case Evicting(k, e, n) => k !in live && |live| + n == e && e <= limit
    case Retiring(k, v, e, n) => k !in live && |live| + n == e && e <= limit
    case Creating(k, b) => k in live && live[k] == b && b in sessions && sessions[b].status.Opening?
    case Awaiting(k, b) => b in sessions && (sessions[b].status.Failed? || (k in live && live[k] == b))
    case Using(k, b) => k in live && live[k] == b && b in sessions && sessions[b].status.Open?
    case _ => true
  }

  predicate Replaces(pc: Pc) {
    pc.Applying? || pc.Restoring?
  }

  /** Everything the state promises about one task. */
  ghost predicate TaskOk(s: State, t: Task, pc: Pc) {
    && (InSerial(pc) ==> t in s.serial)
    && (Critical(pc) ==> AtHead(s.serial, t))
    && (Victim(pc).Some? ==> Victim(pc).value in s.retiring && s.retiring[Victim(pc).value].runner == t)
    && (LeaseOf(pc).Some? ==> LeaseOf(pc).value in s.leases)
    && Protected(s.retiring, pc)
    && PcAgrees(s.limit, s.live, s.sessions, pc)
    && (pc.Parked? ==> s.maintenance != 0)
    && (Exclusive(pc) ==> s.leases == map[])
    && (Replaces(pc) ==> s.replacing == Some(t) && pc.todo <= s.live.Keys && pc.previous == s.mcpConfig)
  }

  ghost predicate TasksOk(s: State) {
    forall t :: t in s.tasks ==> TaskOk(s, t, s.tasks[t])
  }

  function Replacer(replacing: Option<Task>, tasks: map<Task, Pc>): Pc {
    if replacing.Some? && replacing.value in tasks then tasks[replacing.value] else Left
  }

  /** The servers a live session has, given how far a replacement has come. */
  predicate Expected(pc: Pc, current: Servers, k: Channel, c: Option<Servers>) {
    match pc
    case Applying(next, previous, todo, failed) =>
      (k in todo ==> c == Some(previous)) && (k !in todo && !failed ==> c == Some(next))
    case Restoring(previous, todo, failed) => k !in todo && !failed ==> c == Some(previous)
    case _ => c == Some(current)
  }

  /** Until a fault every live session has the servers that the replacement's progress says. */
  ghost predicate ServersAgree(s: State) {
    && (s.replacing.Some? ==> Replaces(Replacer(s.replacing, s.tasks)))
    && (!s.faulted ==> forall k :: k in s.live && s.live[k] in s.sessions ==>
         Expected(Replacer(s.replacing, s.tasks), s.mcpConfig, k, s.sessions[s.live[k]].servers))
  }

  ghost predicate Inv(s: State) {
    && |s.live| <= s.limit
    && QueueOk(s.serial, s.tasks)
    && OneSession(s.live, s.sessions, s.nextBundle)
    && WorkersKnown(s)
    && LeasesCount(s.leases, s.tasks)
    && MaintenanceCounts(s.maintenance, s.tasks)
    && TasksOk(s)
    && ServersAgree(s)
  }

  lemma {:induction false} InvIsGrounded(s: State, t: Task)
    requires Inv(s) && t in s.tasks
    ensures Grounded(s, s.tasks[t])
  {
    assert TaskOk(s, t, s.tasks[t]);
  }

  /** The states that satisfy the invariant. */
  type Pool = s: State | Inv(s) ghost witness Init(0, 0)
}
