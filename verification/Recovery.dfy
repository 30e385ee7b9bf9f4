/** What the next open does after a crash, which crashes a disk survives, and what a kill can cost. */
module Recovery {
  import opened Common
  import opened Persistence

  // ---------------------------------------------------------------- runs

  ghost predicate IsRun(states: seq<State>, steps: seq<Step>) {
    && |states| == |steps| + 1
    && forall i {:trigger steps[i]} :: 0 <= i < |steps| ==>
         Enabled(states[i], steps[i]) && states[i + 1] == Apply(states[i], steps[i])
  }

  /** No loss of power hits a disk it could ruin, and no kill an append half done. */
  ghost predicate CrashesHeld(states: seq<State>, steps: seq<Step>)
    requires |states| == |steps| + 1
  {
    forall i {:trigger steps[i]} :: 0 <= i < |steps| ==>
      (steps[i].PowerLoss? ==> Sturdy(states[i].disk)) && (steps[i].Kill? ==> !Appending(states[i]))
  }

  lemma {:induction false} RunKeeps(states: seq<State>, steps: seq<Step>, n: nat)
    requires IsRun(states, steps) && CrashesHeld(states, steps) && states[0] == START && n < |states|
    ensures Inv(states[n])
  {
    if n == 0 {
      assert Inv(START);
    } else {
      RunKeeps(states, steps, n - 1);
      StepKeeps(states[n - 1], steps[n - 1]);
    }
  }

  /** In such a run no open ever fails, however often it crashes. */
  lemma {:induction false} NoOpenFails(states: seq<State>, steps: seq<Step>, n: nat)
    requires IsRun(states, steps) && CrashesHeld(states, steps) && states[0] == START && n < |states|
    ensures !states[n].pc.Failed?
    ensures states[n].pc.Ready? ==>
      var p := states[n].pc.pointer;
      states[n].disk.seen == Some(p) && Named(states[n].disk, p) && OnlyVisible(states[n].disk, p.file)
  {
    RunKeeps(states, steps, n);
  }

  /** The other kills all fail: half a line at the end makes the next open refuse the transcript. */
  lemma {:induction false} KilledAppendFails(s: State)
    requires Inv(s) && Appending(s)
    ensures var killed := Apply(s, Kill);
      Runs(killed) && Runs(Next(killed, 0)) && Next(Next(killed, 0), 0).pc == Failed(IncompleteFinalEntry)
  {
  }

  // ---------------------------------------------------------------- the next open

  function Rank(pc: Pc): nat {
    match pc
    case Down => 11
    case List => 10
    case Inspect(_) => 9
    case Swept => 8
    case Create => 7
    case Write(_) => 6
    case SyncFile(_) => 5
    case SyncDir(_) => 4
    case Publish(_, _) => 3
    case SyncAgent(_, _) => 2
    case Check(_) => 1
    case _ => 0
  }

  lemma {:induction false} NextOpenable(s: State, session: nat)
    requires Inv(s) && Runs(s)
    ensures Openable(Next(s, session).disk)
  {
    NextKeeps(s, session);
    if s.pc.SyncAgent? {
      assert forall m :: Visible(Next(s, session).disk, m) <==> Visible(s.disk, m);
    }
  }

  /** The open that follows, left alone: it runs until it is ready or has failed. */
  ghost function Resume(s: State, session: nat): (r: State)
    requires Inv(s)
    ensures Inv(r) && r.pc.Ready? && (Openable(s.disk) ==> Openable(r.disk))
    decreases Rank(s.pc)
  {
    if Runs(s) then
      NextKeeps(s, session);
      NextOpenable(s, session);
      Resume(Next(s, session), session)
    else s
  }

  /** A transcript with a complete header that nothing else stands beside. */
  ghost predicate Unpublished(d: Disk, n: nat) {
    OnlyVisible(d, n) && d.files[n].lines == 1 && !d.files[n].torn
  }

  /** The identity an open is heading for. */
  ghost function Goal(s: State, session: nat): Pointer {
    if s.disk.seen.Some? then s.disk.seen.value
    else if s.pc.Publish? then s.pc.pointer
    else if (s.pc.Write? || s.pc.SyncFile? || s.pc.SyncDir?) && s.pc.name in s.disk.files then
      Pointer(s.disk.files[s.pc.name].header, s.pc.name)
    else if n: nat :| Unpublished(s.disk, n) then Pointer(s.disk.files[n].header, n)
    else Pointer(session, s.next)
  }

  lemma {:induction false} GoalStays(s: State, session: nat)
    requires Inv(s) && Runs(s)
    ensures Goal(Next(s, session), session) == Goal(s, session)
  {
    match s.pc
    case Swept => SyncVisible(s.disk);
    case SyncDir(_) => SyncVisible(s.disk);
    case Inspect(n) =>
      if s.disk.files[n].lines == 0 {
        SetVisible(s.disk, n, s.disk.files[n].(visible := false));
      } else {
        assert Unpublished(s.disk, n);
      }
    case _ =>
  }

  lemma {:induction false} ResumeReachesGoal(s: State, session: nat)
    requires Inv(s)
    ensures Resume(s, session).pc == Ready(Goal(s, session))
    decreases Rank(s.pc)
  {
    if Runs(s) {
      NextKeeps(s, session);
      GoalStays(s, session);
      ResumeReachesGoal(Next(s, session), session);
    }
  }

  /**
    The open after a crash succeeds, with exactly one transcript, matching the pointer. It keeps the
    published identity; failing that, the identity of a complete header; otherwise it has a new one.
   */
  lemma {:induction false} NextOpenSucceeds(s: State, session: nat)
    requires Inv(s) && s.pc.Down?
    ensures var r := Resume(s, session);
      && r.pc.Ready? && r.disk.seen == Some(r.pc.pointer)
      && Matches(r.disk, r.pc.pointer) && OnlyVisible(r.disk, r.pc.pointer.file)
    ensures s.disk.seen.Some? ==> Resume(s, session).pc.pointer == s.disk.seen.value
    ensures forall n :: s.disk.seen == None && Unpublished(s.disk, n) ==>
      Resume(s, session).pc.pointer == Pointer(s.disk.files[n].header, n)
    ensures s.disk.seen == None && (forall n :: !Unpublished(s.disk, n)) ==>
      Resume(s, session).pc.pointer == Pointer(session, s.next)
  {
    ResumeReachesGoal(s, session);
  }

  /** Once a pointer is durable, every later state of such a run has the same one. */
  lemma {:induction false} IdentityIsStable(states: seq<State>, steps: seq<Step>, m: nat, n: nat)
    requires IsRun(states, steps) && CrashesHeld(states, steps) && states[0] == START && m <= n < |states|
    requires states[m].disk.kept.Some?
    ensures states[n].disk.kept == states[n].disk.seen == states[m].disk.kept
  {
    RunKeeps(states, steps, n);
    if m < n {
      IdentityIsStable(states, steps, m, n - 1);
      RunKeeps(states, steps, n - 1);
      KeptStays(states[n - 1], steps[n - 1]);
    }
  }

  lemma {:induction false} KeptStays(s: State, step: Step)
    requires Inv(s) && Enabled(s, step) && s.disk.kept.Some?
    ensures Apply(s, step).disk.kept == s.disk.kept
  {
  }

  // ---------------------------------------------------------------- which kills are harmless

  /** Nothing unsynced that a later loss of power could turn against the next open. */
  ghost predicate Quiet(d: Disk) {
    && d.kept == d.seen
    && forall n :: Possible(d, n) ==>
         d.files[n].visible && !d.files[n].torn &&
         (d.files[n].lines == 0 || (d.files[n].durable && d.files[n].synced == d.files[n].lines))
  }

  ghost predicate OnlyPossible(d: Disk, n: nat) {
    forall m :: Possible(d, m) ==> m == n
  }

  /** What is known of the synced part of the disk at each point of the program. */
  ghost predicate SyncedOk(s: State) {
    var d := s.disk;
    match s.pc
    case Create => forall n :: !Possible(d, n)
    case Write(n) => OnlyPossible(d, n)
    case SyncFile(n) => OnlyPossible(d, n)
    case SyncDir(n) => OnlyPossible(d, n) && n in d.files && d.files[n].synced == 1
    case Publish(p, _) => Anchored(d, p) && OnlyPossible(d, p.file)
    case Swept => true
    case SyncAgent(_, _) => true
    case _ => Quiet(d)
  }

  /** A session that is open has flushed whole lines only. */
  predicate Flushed(s: State) {
    s.pc.Ready? && s.pc.pointer.file in s.disk.files ==>
      s.disk.files[s.pc.pointer.file].synced == s.disk.files[s.pc.pointer.file].lines &&
        !s.disk.files[s.pc.pointer.file].torn
  }

  /** Outside an open session the disk is sturdy; inside one it is but for the lines not yet flushed. */
  ghost predicate Strong(s: State) {
    && Inv(s)
    && (if s.pc.Ready? then s.disk.kept == s.disk.seen &&
         s.disk.files[s.pc.pointer.file].durable && s.disk.files[s.pc.pointer.file].synced >= 1
        else Sturdy(s.disk) && SyncedOk(s))
  }

  /** With quiet kills the disk is sturdy whenever no open session has unflushed lines. */
  lemma {:induction false} FlushedIsSturdy(s: State)
    requires Strong(s) && Flushed(s)
    ensures Sturdy(s.disk)
  {
  }

  /** What a flush buys: with a session open, a loss of power is harmless if and only if all its lines are flushed. */
  lemma {:induction false} FlushBuysExactly(s: State)
    requires Strong(s) && s.pc.Ready?
    ensures Flushed(s) <==> forall after :: Survives(s.disk, after) ==> Openable(after)
  {
    SturdyExactly(s);
  }

  lemma {:induction false} SetPossible(d: Disk, n: nat, f: File)
    ensures forall m :: Possible(SetFile(d, n, f), m) <==> (if m == n then f.visible || f.durable else Possible(d, m))
  {
  }

  lemma {:induction false} SyncPossible(d: Disk)
    ensures forall m :: Possible(SyncEntries(d), m) <==> Visible(d, m)
  {
  }

  /** A durable pointer with its transcript in place is quiet: nothing else can come back. */
  lemma {:induction false} AnchoredIsQuiet(s: State)
    requires Inv(s) && Sturdy(s.disk) && s.disk.seen.Some? && s.disk.kept == s.disk.seen
    ensures Quiet(s.disk)
  {
    var p := s.disk.seen.value;
    forall n | Possible(s.disk, n) ensures n == p.file {
      assert Visible(s.disk, n);
    }
  }

  lemma {:induction false} SweepStrong(s: State, session: nat)
    requires Strong(s) && s.pc.Inspect? && s.disk.files[s.pc.name].lines == 0
    ensures Sturdy(Next(s, session).disk) && SyncedOk(Next(s, session))
  {
    var n := s.pc.name;
    var f := s.disk.files[n];
    SetPossible(s.disk, n, f.(visible := false));
    assert forall m :: Possible(Next(s, session).disk, m) ==> Possible(s.disk, m);
  }

  lemma {:induction false} AdoptStrong(s: State, session: nat)
    requires Strong(s) && s.pc.Inspect? && s.disk.files[s.pc.name].lines == 1
    ensures Sturdy(Next(s, session).disk) && SyncedOk(Next(s, session))
  {
    var n := s.pc.name;
    assert Possible(s.disk, n);
    forall m | Possible(s.disk, m) ensures m == n {
      assert Visible(s.disk, m);
    }
  }

  lemma {:induction false} InspectStrong(s: State, session: nat)
    requires Strong(s) && s.pc.Inspect?
    ensures Sturdy(Next(s, session).disk) && SyncedOk(Next(s, session))
  {
    if s.disk.files[s.pc.name].lines == 0 { SweepStrong(s, session); } else { AdoptStrong(s, session); }
  }

  lemma {:induction false} ListStrong(s: State, session: nat)
    requires Strong(s) && s.pc.List?
    ensures Sturdy(Next(s, session).disk) && SyncedOk(Next(s, session))
  {
    ListKeeps(s, session);
    if NoneVisible(s.disk) {
      forall m ensures !Possible(s.disk, m) {
        assert Possible(s.disk, m) ==> Visible(s.disk, m);
      }
    }
  }

  lemma {:induction false} CreateStrong(s: State, session: nat)
    requires Strong(s) && s.pc.Create?
    ensures Sturdy(Next(s, session).disk) && SyncedOk(Next(s, session))
  {
    SetPossible(s.disk, s.next, File(session, 0, false, 0, true, false));
  }

  lemma {:induction false} FillStrong(s: State, session: nat)
    requires Strong(s) && (s.pc.Write? || s.pc.SyncFile?)
    ensures Sturdy(Next(s, session).disk) && SyncedOk(Next(s, session))
  {
    var n := s.pc.name;
    var f := s.disk.files[n];
    SetPossible(s.disk, n, if s.pc.Write? then f.(lines := 1) else f.(synced := f.lines));
  }

  lemma {:induction false} SyncStrong(s: State, session: nat)
    requires Strong(s) && (s.pc.Swept? || s.pc.SyncDir?)
    ensures Sturdy(Next(s, session).disk) && SyncedOk(Next(s, session))
  {
    SyncPossible(s.disk);
  }

  lemma {:induction false} PublishStrong(s: State, session: nat)
    requires Strong(s) && s.pc.Publish?
    ensures Sturdy(Next(s, session).disk) && SyncedOk(Next(s, session))
  {
    assert forall m :: Possible(Next(s, session).disk, m) <==> Possible(s.disk, m);
  }

  lemma {:induction false} SyncAgentStrong(s: State, session: nat)
    requires Strong(s) && s.pc.SyncAgent?
    ensures Strong(Next(s, session))
  {
    NextKeeps(s, session);
    AnchoredIsQuiet(Next(s, session));
  }

  lemma {:induction false} NextStrong(s: State, session: nat)
    requires Strong(s) && Runs(s)
    ensures Strong(Next(s, session))
  {
    NextKeeps(s, session);
    match s.pc
    case List => ListStrong(s, session);
    case Inspect(_) => InspectStrong(s, session);
    case Swept => SyncStrong(s, session);
    case Create => CreateStrong(s, session);
    case Write(_) => FillStrong(s, session);
    case SyncFile(_) => FillStrong(s, session);
    case SyncDir(_) => SyncStrong(s, session);
    case Publish(_, _) => PublishStrong(s, session);
    case SyncAgent(_, _) => SyncAgentStrong(s, session);
    case _ =>
  }

  /** After a loss of power nothing is unsynced. */
  lemma {:induction false} LossStrong(s: State, after: Disk)
    requires Strong(s) && Survives(s.disk, after) && Flushed(s)
    ensures Strong(s.(disk := after, pc := Down))
  {
    LossKeeps(s, after);
    forall n | Possible(after, n)
      ensures Visible(after, n) && after.files[n].durable
      ensures after.files[n].synced == after.files[n].lines && !after.files[n].torn
    {
      assert FileSurvives(s.disk.files[n], after.files[n]);
    }
    if after.seen.Some? {
      var p := after.seen.value;
      assert Visible(after, p.file) && Possible(after, p.file);
    }
  }

  lemma {:induction false} UseStrong(s: State, step: Step)
    requires Strong(s) && Enabled(s, step) && (step.Append? || step.Appended? || step.Flush?)
    ensures Strong(Apply(s, step))
  {
    UseKeeps(s, step);
  }

  lemma {:induction false} StepStrong(s: State, step: Step)
    requires Strong(s) && Enabled(s, step) && (step.Kill? ==> Quiet(s.disk)) && (step.PowerLoss? ==> Flushed(s))
    ensures Strong(Apply(s, step))
  {
    match step
    case Proceed(session) => NextStrong(s, session);
    case Append => UseStrong(s, step);
    case Appended => UseStrong(s, step);
    case Flush => UseStrong(s, step);
    case PowerLoss(after) => LossStrong(s, after);
    case Kill =>
  }

  /** No kill hits a disk with a dangerous unsynced change. */
  ghost predicate KillsQuiet(states: seq<State>, steps: seq<Step>)
    requires |states| == |steps| + 1
  {
    forall i {:trigger steps[i]} :: 0 <= i < |steps| && steps[i].Kill? ==> Quiet(states[i].disk)
  }

  /** No loss of power hits an open session with lines it has not flushed. */
  ghost predicate LossesFlushed(states: seq<State>, steps: seq<Step>)
    requires |states| == |steps| + 1
  {
    forall i {:trigger steps[i]} :: 0 <= i < |steps| && steps[i].PowerLoss? ==> Flushed(states[i])
  }

  lemma {:induction false} NextIsStrong(states: seq<State>, steps: seq<Step>, n: nat)
    requires IsRun(states, steps) && KillsQuiet(states, steps) && LossesFlushed(states, steps) && n < |steps|
    requires Strong(states[n])
    ensures Strong(states[n + 1])
  {
    StepStrong(states[n], steps[n]);
  }

  /**
    With quiet kills, power may fail at every step of an open, and of an open session whenever it
    has flushed, however often: no open fails, and the disk is sturdy at each of these steps.
   */
  lemma {:induction false} QuietKillsAreSafe(states: seq<State>, steps: seq<Step>, n: nat)
    requires IsRun(states, steps) && states[0] == START && n < |states|
    requires KillsQuiet(states, steps) && LossesFlushed(states, steps)
    ensures Strong(states[n]) && !states[n].pc.Failed?
    ensures Flushed(states[n]) ==> Sturdy(states[n].disk)
  {
    if n == 0 {
      assert Strong(START);
    } else {
      QuietKillsAreSafe(states, steps, n - 1);
      NextIsStrong(states, steps, n - 1);
    }
    if Flushed(states[n]) { FlushedIsSturdy(states[n]); }
  }

  // ---------------------------------------------------------------- what any other kill can cost

  /**
    Without a further kill, and with open sessions flushed when power is lost, some run from `s` ends in a failed
    open.
   */
  ghost predicate CanFail(s: State) {
    exists states: seq<State>, steps: seq<Step> :: FailingRun(s, states, steps)
  }

  ghost predicate FailingRun(s: State, states: seq<State>, steps: seq<Step>) {
    && IsRun(states, steps) && states[0] == s && states[|steps|].pc.Failed?
    && LossesFlushed(states, steps)
    && forall i {:trigger steps[i]} :: 0 <= i < |steps| ==> !steps[i].Kill?
  }

  lemma {:induction false} FailedFails(s: State)
    requires s.pc.Failed?
    ensures CanFail(s)
  {
    assert FailingRun(s, [s], []);
  }

  lemma {:induction false} FailsThrough(s: State, step: Step)
    requires Enabled(s, step) && !step.Kill? && (step.PowerLoss? ==> Flushed(s)) && CanFail(Apply(s, step))
    ensures CanFail(s)
  {
    var states, steps :| FailingRun(Apply(s, step), states, steps);
    var all, moves := [s] + states, [step] + steps;
    forall i | 0 <= i < |moves|
      ensures Enabled(all[i], moves[i]) && all[i + 1] == Apply(all[i], moves[i])
      ensures !moves[i].Kill? && (moves[i].PowerLoss? ==> Flushed(all[i]))
    {
      if i > 0 {
        assert all[i] == states[i - 1] && moves[i] == steps[i - 1] && all[i + 1] == states[i];
      }
    }
    assert FailingRun(s, all, moves);
  }

  predicate TornHasHeader(d: Disk) {
    forall n :: n in d.files && d.files[n].torn ==> d.files[n].lines >= 1
  }

  /** On a disk that is not openable the next open fails. */
  lemma {:induction false} UnopenableFails(s: State)
    requires s.pc.Down? && !Openable(s.disk) && TornHasHeader(s.disk)
    ensures CanFail(s)
  {
    var t := Next(s, 0);
    if s.disk.seen.Some? {
      FailedFails(Next(t, 0));
      FailsThrough(t, Proceed(0));
    } else {
      UnopenableListFails(t);
    }
    FailsThrough(s, Proceed(0));
  }

  lemma {:induction false} UnopenableListFails(s: State)
    requires s.pc.List? && s.disk.seen == None && !Openable(s.disk) && TornHasHeader(s.disk)
    ensures CanFail(s)
  {
    var t := Next(s, 0);
    if t.pc.Inspect? {
      FailedFails(Next(t, 0));
      FailsThrough(t, Proceed(0));
    } else {
      FailedFails(t);
    }
    FailsThrough(s, Proceed(0));
  }

  lemma {:induction false} FragileFails(s: State)
    requires WellFormed(s) && !Sturdy(s.disk) && Flushed(s)
    ensures CanFail(s)
  {
    var after := FragileCanFail(s);
    assert forall n :: n in after.files ==> FileSurvives(s.disk.files[n], after.files[n]);
    UnopenableFails(s.(disk := after, pc := Down));
    FailsThrough(s, PowerLoss(after));
  }

  /** A pointer seen but not synced: the session is used, the pointer is lost, and the used transcript is refused. */
  lemma {:induction false} UnsyncedPointerFails(s: State)
    requires Inv(s) && s.pc.Down? && s.disk.seen.Some? && s.disk.kept == None
    ensures CanFail(s)
  {
    var c := Next(s, 0);
    var r := Next(c, 0);
    NextKeeps(s, 0);
    NextKeeps(c, 0);
    UnsyncedPointerInUseFails(r);
    FailsThrough(c, Proceed(0));
    FailsThrough(s, Proceed(0));
  }

  lemma {:induction false} UnsyncedPointerInUseFails(r: State)
    requires Inv(r) && r.pc.Ready? && r.disk.kept == None && !Appending(r)
    ensures CanFail(r)
  {
    var p := r.pc.pointer;
    var a := Apply(r, Append);
    UseKeeps(r, Append);
    var w := Apply(a, Appended);
    UseKeeps(a, Appended);
    var f := Apply(w, Flush);
    UseKeeps(w, Flush);
    assert Possible(f.disk, p.file) && f.disk.files[p.file].lines >= 2;
    FragileFails(f);
    FailsThrough(w, Flush);
    FailsThrough(a, Appended);
    FailsThrough(r, Append);
  }

  /** A complete header that is not synced: recovery publishes it without syncing it, and it is lost. */
  lemma {:induction false} UnsyncedHeaderFails(s: State, n: nat)
    requires Inv(s) && s.pc.Down? && s.disk.seen == None && Visible(s.disk, n) && s.disk.files[n].lines == 1
    requires !s.disk.files[n].durable || s.disk.files[n].synced == 0
    ensures CanFail(s)
  {
    assert OnlyVisible(s.disk, n);
    var l := Next(s, 0);
    var i := Next(l, 0);
    PublishedUnsyncedFails(i, n);
    FailsThrough(l, Proceed(0));
    FailsThrough(s, Proceed(0));
  }

  lemma {:induction false} PublishedUnsyncedFails(i: State, n: nat)
    requires WellFormed(i) && i.pc == Inspect(n) && i.disk.kept == None && Visible(i.disk, n)
    requires i.disk.files[n].lines == 1 && !i.disk.files[n].torn
    requires !i.disk.files[n].durable || i.disk.files[n].synced == 0
    ensures CanFail(i)
  {
    var u := Next(i, 0);
    var a := Next(u, 0);
    assert forall m :: Visible(a.disk, m) <==> Visible(i.disk, m);
    assert forall m :: Possible(a.disk, m) <==> Possible(i.disk, m);
    FragileFails(a);
    FailsThrough(u, Proceed(0));
    FailsThrough(i, Proceed(0));
  }

  /** A removal that is not synced: a new transcript is created, and the removed one comes back beside it. */
  lemma {:induction false} UnsyncedRemovalFails(s: State, n: nat)
    requires Inv(s) && s.pc.Down? && s.disk.seen == None && Possible(s.disk, n) && !Visible(s.disk, n)
    ensures CanFail(s)
  {
    if NoneVisible(s.disk) {
      var l := Next(s, 0);
      var c := Next(l, 0);
      NextKeeps(s, 0);
      NextKeeps(l, 0);
      NextKeeps(c, 0);
      var w := Next(c, 0);
      SetPossible(c.disk, c.next, File(0, 0, false, 0, true, false));
      assert Possible(w.disk, n) && Possible(w.disk, c.next) && n != c.next;
      FragileFails(w);
      FailsThrough(c, Proceed(0));
      FailsThrough(l, Proceed(0));
      FailsThrough(s, Proceed(0));
    } else {
      var m: nat :| Visible(s.disk, m);
      assert Possible(s.disk, m);
      FragileFails(s);
    }
  }

  lemma {:induction false} UnquietFails(s: State)
    requires Inv(s) && s.pc.Down? && !Quiet(s.disk)
    ensures CanFail(s)
  {
    if !Sturdy(s.disk) {
      FragileFails(s);
    } else if s.disk.kept != s.disk.seen {
      UnsyncedPointerFails(s);
    } else if s.disk.seen.Some? {
      AnchoredIsQuiet(s);
    } else {
      var n :| Possible(s.disk, n) &&
        !(s.disk.files[n].visible && !s.disk.files[n].torn &&
          (s.disk.files[n].lines == 0 || (s.disk.files[n].durable && s.disk.files[n].synced == s.disk.files[n].lines)));
      if Visible(s.disk, n) {
        UnsyncedHeaderFails(s, n);
      } else {
        UnsyncedRemovalFails(s, n);
      }
    }
  }

  lemma {:induction false} StrongNeverFails(states: seq<State>, steps: seq<Step>, n: nat)
    requires IsRun(states, steps) && LossesFlushed(states, steps) && Strong(states[0]) && n < |states|
    requires forall i {:trigger steps[i]} :: 0 <= i < |steps| ==> !steps[i].Kill?
    ensures Strong(states[n])
  {
    if n > 0 {
      StrongNeverFails(states, steps, n - 1);
      StepStrong(states[n - 1], steps[n - 1]);
    }
  }

  /** A kill is harmless, whatever losses of power follow, if and only if it hits a quiet disk. */
  lemma {:induction false} HarmlessKillsExactly(s: State)
    requires Strong(s)
    ensures Quiet(s.disk) <==> !CanFail(Apply(s, Kill))
  {
    var killed := Apply(s, Kill);
    if Quiet(s.disk) {
      StepStrong(s, Kill);
      if CanFail(killed) {
        var states, steps :| FailingRun(killed, states, steps);
        StrongNeverFails(states, steps, |steps|);
        assert false;
      }
    } else if Appending(s) {
      UnopenableFails(killed);
    } else {
      UnquietFails(killed);
    }
  }

  // ---------------------------------------------------------------- what is checked before it is handed out

  /** The steps from `m` to `n` are those of one open. */
  predicate OneOpen(states: seq<State>, steps: seq<Step>, m: nat, n: nat) {
    && m <= n < |states| && n <= |steps| && states[m].pc == Down
    && forall i :: m <= i < n ==> steps[i].Proceed?
  }

  /** The open created a transcript under this name. */
  predicate Made(states: seq<State>, m: nat, n: nat, file: nat)
    requires n <= |states|
  {
    exists k :: m <= k < n && states[k].pc == Create && states[k].next == file
  }

  predicate MadeAny(states: seq<State>, m: nat, n: nat)
    requires n <= |states|
  {
    exists k :: m <= k < n && states[k].pc == Create
  }

  /** The open validated the transcript of this pointer file. */
  predicate Checked(states: seq<State>, m: nat, n: nat, p: Pointer)
    requires n <= |states|
  {
    exists k :: m <= k < n && states[k].pc == Check(p)
  }

  predicate CheckedAny(states: seq<State>, m: nat, n: nat)
    requires n <= |states|
  {
    exists k :: m <= k < n && states[k].pc.Check?
  }

  /** What the place an open has reached says about its way there. */
  predicate CameBy(states: seq<State>, m: nat, n: nat)
    requires n < |states|
  {
    match states[n].pc
    case Down => m == n
    case List => !MadeAny(states, m, n) && !CheckedAny(states, m, n)
    case Inspect(_) => !MadeAny(states, m, n) && !CheckedAny(states, m, n)
    case Swept => !MadeAny(states, m, n) && !CheckedAny(states, m, n)
    case Create => !MadeAny(states, m, n) && !CheckedAny(states, m, n)
    case Write(f) => Made(states, m, n, f) && !CheckedAny(states, m, n)
    case SyncFile(f) => Made(states, m, n, f) && !CheckedAny(states, m, n)
    case SyncDir(f) => Made(states, m, n, f) && !CheckedAny(states, m, n)
    case Publish(p, found) =>
      !CheckedAny(states, m, n) && if found then !MadeAny(states, m, n) else Made(states, m, n, p.file)
    case SyncAgent(p, found) =>
      !CheckedAny(states, m, n) && if found then !MadeAny(states, m, n) else Made(states, m, n, p.file)
    case Check(_) => !MadeAny(states, m, n) && !CheckedAny(states, m, n)
    case Ready(p) =>
      if MadeAny(states, m, n) then Made(states, m, n, p.file) && !CheckedAny(states, m, n)
      else Checked(states, m, n, p)
    case Failed(_) => !MadeAny(states, m, n)
  }

  lemma {:induction false} WayGoesOn(states: seq<State>, m: nat, n: nat)
    requires n + 1 < |states| && m <= n && Runs(states[n]) && CameBy(states, m, n)
    requires exists session :: states[n + 1] == Next(states[n], session)
    ensures CameBy(states, m, n + 1)
  {
    var session :| states[n + 1] == Next(states[n], session);
    assert MadeAny(states, m, n + 1) <==> MadeAny(states, m, n) || states[n].pc == Create;
    assert CheckedAny(states, m, n + 1) <==> CheckedAny(states, m, n) || states[n].pc.Check?;
    forall f
      ensures Made(states, m, n + 1, f) <==>
        Made(states, m, n, f) || (states[n].pc == Create && states[n].next == f)
    {
    }
    forall p ensures Checked(states, m, n + 1, p) <==> Checked(states, m, n, p) || states[n].pc == Check(p) {
    }
  }

  lemma {:induction false} OpensByWay(states: seq<State>, steps: seq<Step>, m: nat, n: nat)
    requires IsRun(states, steps) && OneOpen(states, steps, m, n)
    ensures CameBy(states, m, n)
  {
    if m < n {
      OpensByWay(states, steps, m, n - 1);
      assert Enabled(states[n - 1], steps[n - 1]);
      WayGoesOn(states, m, n - 1);
    }
  }

  /** A session is handed out unchecked exactly if the same open created its transcript, and then it is that one. */
  lemma {:induction false} CheckedUnlessMade(states: seq<State>, steps: seq<Step>, m: nat, n: nat)
    requires IsRun(states, steps) && OneOpen(states, steps, m, n) && states[n].pc.Ready?
    ensures Checked(states, m, n, states[n].pc.pointer) <==> !MadeAny(states, m, n)
    ensures MadeAny(states, m, n) ==> Made(states, m, n, states[n].pc.pointer.file)
  {
    OpensByWay(states, steps, m, n);
  }
}
