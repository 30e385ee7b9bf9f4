/**
  Creation, publication and recovery of the canonical session (BoBeAgent/src/persistence.ts and
  `atomicPrivateWrite` in BoBeAgent/src/files.ts) on a disk that can crash after every step.

  Two kinds of crash: `Kill` ends the process and keeps what it wrote; `PowerLoss` also drops any
  part of what was not yet synced. An operation that throws half-way leaves the disk as a `Kill` does.
 */
module Persistence {
  import opened Common

  /** A session id, and the name of its transcript. */
  datatype Pointer = Pointer(session: nat, file: nat)

  /**
    A transcript: the id in its header, its complete lines (0 for a torn header), whether part of
    a further line follows them, how many lines are synced, and whether its directory entry is
    visible and whether it is synced.
   */
  datatype File = File(header: nat, lines: nat, torn: bool, synced: nat, visible: bool, durable: bool)

  /** The transcripts, and the pointer file as it is seen and as it is synced. */
  datatype Disk = Disk(files: map<nat, File>, seen: Option<Pointer>, kept: Option<Pointer>)

  datatype Error = MissingTranscript | InvalidTranscript | IncompleteFinalEntry | OwnerRecovery

  datatype Pc =
    | Down
    | List
    | Inspect(name: nat)
    | Swept
    | Create
    | Write(name: nat)
    | SyncFile(name: nat)
    | SyncDir(name: nat)
    | Publish(pointer: Pointer, recovering: bool)
    | SyncAgent(pointer: Pointer, recovering: bool)
    | Check(pointer: Pointer)
    | Ready(pointer: Pointer)
    | Failed(error: Error)

  datatype State = State(disk: Disk, pc: Pc, next: nat)  // `next`: names from here on are unused

  datatype Step =
    | Proceed(session: nat)
    | Append
    | Appended
    | Flush
    | Kill
    | PowerLoss(after: Disk)

  const START: State := State(Disk(map[], None, None), Down, 0)

  // ---------------------------------------------------------------- the program

  predicate Visible(d: Disk, n: nat) {
    n in d.files && d.files[n].visible
  }

  ghost predicate OnlyVisible(d: Disk, n: nat) {
    Visible(d, n) && forall m :: Visible(d, m) ==> m == n
  }

  ghost predicate NoneVisible(d: Disk) {
    forall n :: !Visible(d, n)
  }

  function SetFile(d: Disk, n: nat, f: File): Disk {
    d.(files := d.files[n := f])
  }

  /** Syncing the transcript directory makes every entry, and every removal, durable. */
  function SyncEntries(d: Disk): Disk {
    d.(files := map n | n in d.files :: d.files[n].(durable := d.files[n].visible))
  }

  /** `readdir`, and the checks of `unpublishedSession` on the listing. */
  ghost function ListNext(d: Disk): (pc: Pc)
    ensures NoneVisible(d) ==> pc == Create
    ensures forall n :: OnlyVisible(d, n) ==> pc == Inspect(n)
    ensures pc.Inspect? ==> OnlyVisible(d, pc.name)
    ensures pc.Create? || pc.Inspect? || pc == Failed(OwnerRecovery)
  {
    if NoneVisible(d) then Create
    else
      var n :| Visible(d, n);
      if OnlyVisible(d, n) then Inspect(n) else Failed(OwnerRecovery)
  }

  /** `openPointer`: the transcript exists, is complete, and its header names the pointer's session. */
  function CheckNext(d: Disk, p: Pointer): Pc {
    if !Visible(d, p.file) then Failed(MissingTranscript)
    else if d.files[p.file].lines == 0 || d.files[p.file].torn then Failed(IncompleteFinalEntry)
    else if d.files[p.file].header != p.session then Failed(InvalidTranscript)
    else Ready(p)
  }

  /** `unpublishedSession` on the one transcript: sweep a torn one, publish an unused one, refuse a used one. */
  function InspectNext(s: State, n: nat): State
    requires n in s.disk.files
  {
    var f := s.disk.files[n];
    if f.lines == 0 then s.(disk := SetFile(s.disk, n, f.(visible := false)), pc := Swept)
    else if f.lines == 1 && !f.torn then s.(pc := Publish(Pointer(f.header, n), true))
    else s.(pc := Failed(OwnerRecovery))
  }

  predicate Runs(s: State) {
    match s.pc
    case Ready(_) => false
    case Failed(_) => false
    case Inspect(n) => n in s.disk.files
    case Write(n) => n in s.disk.files
    case SyncFile(n) => n in s.disk.files
    case SyncDir(n) => n in s.disk.files
    case _ => true
  }

  /** The next file-system operation of `openCanonicalSession`; `session` is the id drawn by a creation. */
  ghost function Next(s: State, session: nat): State
    requires Runs(s)
  {
    var d := s.disk;
    match s.pc
    case Down => s.(pc := if d.seen.Some? then Check(d.seen.value) else List)
    case List => s.(pc := ListNext(d))
    case Inspect(n) => InspectNext(s, n)
    case Swept => s.(disk := SyncEntries(d), pc := Create)
    case Create => State(SetFile(d, s.next, File(session, 0, false, 0, true, false)), Write(s.next), s.next + 1)
    case Write(n) => s.(disk := SetFile(d, n, d.files[n].(lines := 1)), pc := SyncFile(n))
    case SyncFile(n) => s.(disk := SetFile(d, n, d.files[n].(synced := d.files[n].lines)), pc := SyncDir(n))
    case SyncDir(n) => s.(disk := SyncEntries(d), pc := Publish(Pointer(d.files[n].header, n), false))
    case Publish(p, r) => s.(disk := d.(seen := Some(p)), pc := SyncAgent(p, r))
    case SyncAgent(p, r) => s.(disk := d.(kept := d.seen), pc := if r then Check(p) else Ready(p))
    case Check(p) => s.(pc := CheckNext(d, p))
  }

  /**
    What a loss of power can leave: every unsynced change survives, wholly or in part, or does not; a line that
    survives in part is torn.
   */
  ghost predicate Survives(d: Disk, after: Disk) {
    && after.files.Keys == d.files.Keys
    && (forall n :: n in d.files ==> FileSurvives(d.files[n], after.files[n]))
    && after.seen == after.kept && (after.seen == d.seen || after.seen == d.kept)
  }

  predicate FileSurvives(f: File, g: File) {
    && g.header == f.header
    && g.visible == g.durable && (g.visible == f.visible || g.visible == f.durable)
    && g.lines == g.synced && f.synced <= g.lines <= f.lines
    && (g.torn ==> 0 < g.lines && (g.lines < f.lines || f.torn))
  }

  ghost predicate Enabled(s: State, step: Step) {
    match step
    case Proceed(_) => Runs(s)
    case Append => s.pc.Ready? && s.pc.pointer.file in s.disk.files && !s.disk.files[s.pc.pointer.file].torn
    case Appended => s.pc.Ready? && s.pc.pointer.file in s.disk.files && s.disk.files[s.pc.pointer.file].torn
    case Flush => s.pc.Ready? && s.pc.pointer.file in s.disk.files && !s.disk.files[s.pc.pointer.file].torn
    case Kill => true
    case PowerLoss(after) => Survives(s.disk, after)
  }

  /** An open session appends lines to its transcript, each in two parts, and `flushSession` syncs whole lines. */
  ghost function Apply(s: State, step: Step): State
    requires Enabled(s, step)
  {
    match step
    case Proceed(session) => Next(s, session)
    case Append =>
      var n := s.pc.pointer.file;
      s.(disk := SetFile(s.disk, n, s.disk.files[n].(torn := true)))
    case Appended =>
      var n := s.pc.pointer.file;
      s.(disk := SetFile(s.disk, n, s.disk.files[n].(lines := s.disk.files[n].lines + 1, torn := false)))
    case Flush =>
      var n := s.pc.pointer.file;
      s.(disk := SetFile(s.disk, n, s.disk.files[n].(synced := s.disk.files[n].lines)))
    case Kill => s.(pc := Down)
    case PowerLoss(after) => s.(disk := after, pc := Down)
  }

  // ---------------------------------------------------------------- disks

  /** The bookkeeping every run keeps. */
  ghost predicate WellFormed(s: State) {
    && (forall n :: n in s.disk.files ==>
         n < s.next && s.disk.files[n].synced <= s.disk.files[n].lines &&
         (s.disk.files[n].torn ==> s.disk.files[n].lines >= 1))
    && (s.disk.kept == None || s.disk.kept == s.disk.seen)
    && (forall m, n ::
         Visible(s.disk, m) && s.disk.files[m].durable && Possible(s.disk, n) && s.disk.files[n].durable ==>
         Visible(s.disk, n))
  }

  /** The pointer's transcript is there and has its header, whatever its last line. */
  predicate Named(d: Disk, p: Pointer) {
    Visible(d, p.file) && d.files[p.file].lines >= 1 && d.files[p.file].header == p.session
  }

  predicate Matches(d: Disk, p: Pointer) {
    Named(d, p) && !d.files[p.file].torn
  }

  /** A disk from which the next open succeeds. */
  ghost predicate Openable(d: Disk) {
    match d.seen
    case Some(p) => Matches(d, p)
    case None =>
      && (forall m, n :: Visible(d, m) && Visible(d, n) ==> m == n)
      && (forall n :: Visible(d, n) ==> d.files[n].lines <= 1 && !d.files[n].torn)
  }

  /** An entry that is there now or may be there after a loss of power. */
  predicate Possible(d: Disk, n: nat) {
    n in d.files && (d.files[n].visible || d.files[n].durable)
  }

  /** The pointer's transcript cannot be lost or torn. */
  predicate Anchored(d: Disk, p: Pointer) {
    Matches(d, p) && d.files[p.file].durable && d.files[p.file].synced == d.files[p.file].lines
  }

  /** With no pointer to go by, at most one transcript can be found, and it is unused. */
  ghost predicate Bare(d: Disk) {
    && (forall m, n :: Possible(d, m) && Possible(d, n) ==> m == n)
    && (forall n :: Possible(d, n) ==> d.files[n].lines <= 1 && !d.files[n].torn)
  }

  /** A disk that every loss of power leaves openable. */
  ghost predicate Sturdy(d: Disk) {
    && (d.seen.Some? ==> Anchored(d, d.seen.value))
    && (d.kept == None ==> Bare(d))
  }

  // ---------------------------------------------------------------- a loss of power, exactly

  lemma {:induction false} SturdySurvives(d: Disk, after: Disk)
    requires Sturdy(d) && Survives(d, after) && (d.kept == None || d.kept == d.seen)
    ensures Openable(after)
  {
    forall n | Visible(after, n) ensures Possible(d, n) {
      assert FileSurvives(d.files[n], after.files[n]);
    }
    if after.seen.Some? {
      var p := after.seen.value;
      assert FileSurvives(d.files[p.file], after.files[p.file]);
    } else {
      forall n | Visible(after, n) ensures after.files[n].lines <= 1 {
        assert FileSurvives(d.files[n], after.files[n]) && Possible(d, n);
      }
    }
  }

  /** A loss that leaves `p`, and of the files all that can stay, or only what must. */
  ghost function Lost(d: Disk, p: Option<Pointer>, all: bool): (after: Disk)
    requires p == d.seen || p == d.kept
    requires forall n :: n in d.files ==> d.files[n].synced <= d.files[n].lines
    ensures Survives(d, after) && after.seen == p
  {
    Disk(map n | n in d.files :: LostFile(d.files[n], all), p, p)
  }

  function LostFile(f: File, all: bool): (g: File)
    requires f.synced <= f.lines
    ensures FileSurvives(f, g)
  {
    var entry := if all then f.visible || f.durable else f.visible && f.durable;
    var lines := if all then f.lines else f.synced;
    var torn := lines > 0 && if all then f.torn else f.synced < f.lines;
    File(f.header, lines, torn, lines, entry, entry)
  }

  /** A pointer that is not anchored can be left without its transcript. */
  lemma {:induction false} UnanchoredCanFail(d: Disk, p: Pointer) returns (after: Disk)
    requires d.seen == Some(p) && !Anchored(d, p)
    requires forall n :: n in d.files ==>
      d.files[n].synced <= d.files[n].lines && (d.files[n].torn ==> d.files[n].lines >= 1)
    ensures Survives(d, after) && !Openable(after)
  {
    after := Lost(d, d.seen, p.file in d.files && d.files[p.file].torn);
  }

  /** With no pointer kept, a used transcript or a second one can come to light. */
  lemma {:induction false} NotBareCanFail(d: Disk) returns (after: Disk)
    requires d.kept == None && !Bare(d)
    requires forall n :: n in d.files ==>
      d.files[n].synced <= d.files[n].lines && (d.files[n].torn ==> d.files[n].lines >= 1)
    ensures Survives(d, after) && !Openable(after)
  {
    after := Lost(d, None, true);
    assert forall n :: Possible(d, n) ==>
      Visible(after, n) && after.files[n].lines == d.files[n].lines && after.files[n].torn == d.files[n].torn;
  }

  /** A disk survives every loss of power if and only if it is sturdy. */
  lemma {:induction false} SturdyExactly(s: State)
    requires WellFormed(s)
    ensures Sturdy(s.disk) <==> forall after :: Survives(s.disk, after) ==> Openable(after)
  {
    if Sturdy(s.disk) {
      forall after | Survives(s.disk, after) ensures Openable(after) {
        SturdySurvives(s.disk, after);
      }
    } else {
      var after := FragileCanFail(s);
    }
  }

  lemma {:induction false} FragileCanFail(s: State) returns (after: Disk)
    requires WellFormed(s) && !Sturdy(s.disk)
    ensures Survives(s.disk, after) && !Openable(after)
  {
    if s.disk.seen.Some? && !Anchored(s.disk, s.disk.seen.value) {
      after := UnanchoredCanFail(s.disk, s.disk.seen.value);
    } else {
      after := NotBareCanFail(s.disk);
    }
  }

  // ---------------------------------------------------------------- runs whose power losses hit sturdy disks

  /** What the running program knows about the volatile disk. */
  ghost predicate PcOk(s: State) {
    var d := s.disk;
    match s.pc
    case Down => true
    case List => d.seen == None
    case Inspect(n) => d.seen == None && OnlyVisible(d, n) && d.files[n].lines <= 1
    case Swept => d.seen == None && NoneVisible(d)
    case Create => d.seen == None && NoneVisible(d)
    case Write(n) => d.seen == None && OnlyVisible(d, n) && d.files[n].lines == 0
    case SyncFile(n) => d.seen == None && OnlyVisible(d, n) && d.files[n].lines == 1
    case SyncDir(n) => d.seen == None && OnlyVisible(d, n) && d.files[n].lines == 1
    case Publish(p, _) =>
      d.seen == None && OnlyVisible(d, p.file) && d.files[p.file].lines == 1 && d.files[p.file].header == p.session
    case SyncAgent(p, _) => d.seen == Some(p)
    case Check(p) => d.seen == Some(p)
    case Ready(p) => d.seen == Some(p)
    case Failed(_) => false
  }

  /** An open session is in the middle of a line. */
  predicate Appending(s: State) {
    s.pc.Ready? && s.pc.pointer.file in s.disk.files && s.disk.files[s.pc.pointer.file].torn
  }

  /**
    The running open has not failed, the next one succeeds unless it meets half a line, and a published transcript
    is the only one.
   */
  ghost predicate Inv(s: State) {
    && WellFormed(s) && PcOk(s)
    && (if s.pc.Ready? then Named(s.disk, s.pc.pointer) else Openable(s.disk))
    && (s.disk.seen.Some? ==> OnlyVisible(s.disk, s.disk.seen.value.file))
  }

  lemma {:induction false} SetVisible(d: Disk, n: nat, f: File)
    ensures forall m :: Visible(SetFile(d, n, f), m) <==> (if m == n then f.visible else Visible(d, m))
  {
  }

  lemma {:induction false} SyncVisible(d: Disk)
    ensures forall m :: Visible(SyncEntries(d), m) <==> Visible(d, m)
  {
  }

  /** More lines, or more synced, in a visible file disturbs nothing else. */
  lemma {:induction false} GrowKeeps(s: State, n: nat, f: File)
    requires WellFormed(s) && Visible(s.disk, n)
    requires f == s.disk.files[n].(lines := f.lines, torn := f.torn, synced := f.synced)
    requires f.synced <= f.lines && (f.torn ==> f.lines >= 1)
    ensures WellFormed(s.(disk := SetFile(s.disk, n, f)))
    ensures forall m :: Visible(SetFile(s.disk, n, f), m) <==> Visible(s.disk, m)
  {
    SetVisible(s.disk, n, f);
  }

  lemma {:induction false} InspectKeeps(s: State, session: nat)
    requires Inv(s) && s.pc.Inspect?
    ensures Inv(Next(s, session))
  {
    var n := s.pc.name;
    if s.disk.files[n].lines == 0 {
      SetVisible(s.disk, n, s.disk.files[n].(visible := false));
    }
  }

  lemma {:induction false} CreateKeeps(s: State, session: nat)
    requires Inv(s) && s.pc == Create
    ensures Inv(Next(s, session))
  {
    SetVisible(s.disk, s.next, File(session, 0, false, 0, true, false));
  }

  lemma {:induction false} FillKeeps(s: State, session: nat)
    requires Inv(s) && (s.pc.Write? || s.pc.SyncFile?)
    ensures Inv(Next(s, session))
  {
    var n := s.pc.name;
    var f := s.disk.files[n];
    GrowKeeps(s, n, if s.pc.Write? then f.(lines := 1) else f.(synced := f.lines));
  }

  lemma {:induction false} SyncKeeps(s: State, session: nat)
    requires Inv(s) && (s.pc.Swept? || s.pc.SyncDir?)
    ensures Inv(Next(s, session))
  {
    SyncVisible(s.disk);
  }

  lemma {:induction false} ListKeeps(s: State, session: nat)
    requires Inv(s) && s.pc.List?
    ensures Inv(Next(s, session))
  {
    if n: nat :| Visible(s.disk, n) {
      assert OnlyVisible(s.disk, n);
    }
  }

  lemma {:induction false} PointerKeeps(s: State, session: nat)
    requires Inv(s) && (s.pc.Publish? || s.pc.SyncAgent?)
    ensures Inv(Next(s, session))
  {
    assert forall m :: Visible(Next(s, session).disk, m) <==> Visible(s.disk, m);
  }

  lemma {:induction false} NextKeeps(s: State, session: nat)
    requires Inv(s) && Runs(s)
    ensures Inv(Next(s, session))
  {
    match s.pc
    case List => ListKeeps(s, session);
    case Publish(_, _) => PointerKeeps(s, session);
    case SyncAgent(_, _) => PointerKeeps(s, session);
    case Inspect(_) => InspectKeeps(s, session);
    case Swept => SyncKeeps(s, session);
    case Create => CreateKeeps(s, session);
    case Write(_) => FillKeeps(s, session);
    case SyncFile(_) => FillKeeps(s, session);
    case SyncDir(_) => SyncKeeps(s, session);
    case _ =>
  }

  lemma {:induction false} UseKeeps(s: State, step: Step)
    requires Inv(s) && Enabled(s, step) && (step.Append? || step.Appended? || step.Flush?)
    ensures Inv(Apply(s, step))
  {
    var n := s.pc.pointer.file;
    var f := s.disk.files[n];
    var grown :=
      if step.Append? then f.(torn := true)
      else if step.Appended? then f.(lines := f.lines + 1, torn := false)
      else f.(synced := f.lines);
    GrowKeeps(s, n, grown);
  }

  lemma {:induction false} LossKeeps(s: State, after: Disk)
    requires Inv(s) && Survives(s.disk, after) && Sturdy(s.disk)
    ensures Inv(s.(disk := after, pc := Down))
  {
    var d := s.disk;
    SturdySurvives(d, after);
    assert forall n :: n in after.files ==> FileSurvives(d.files[n], after.files[n]);
    if after.seen.Some? {
      forall n | Visible(after, n) ensures n == after.seen.value.file {
        assert FileSurvives(d.files[n], after.files[n]);
        assert Visible(d, n);
      }
    }
  }

  lemma {:induction false} StepKeeps(s: State, step: Step)
    requires Inv(s) && Enabled(s, step) && (step.PowerLoss? ==> Sturdy(s.disk)) && (step.Kill? ==> !Appending(s))
    ensures Inv(Apply(s, step))
  {
    match step
    case Proceed(session) => NextKeeps(s, session);
    case Append => UseKeeps(s, step);
    case Appended => UseKeeps(s, step);
    case Flush => UseKeeps(s, step);
    case PowerLoss(after) => LossKeeps(s, after);
    case Kill =>
  }
}
