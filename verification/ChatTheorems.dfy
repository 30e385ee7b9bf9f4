/** What chats promise over every run: whose deltas are whose, and how each chat ends. */
module ChatTheorems {
  import R = Rpc
  import opened ChatWorker

  // ---------------------------------------------------------------- runs

  ghost predicate IsRun(states: seq<State>, steps: seq<Step>) {
    && |states| == |steps| + 1
    && states[0] == START
    && forall i {:trigger steps[i]} :: 0 <= i < |steps| ==>
         Enabled(states[i], steps[i]) && states[i + 1] == Apply(states[i], steps[i])
  }

  lemma {:induction false} NothingYet()
    ensures Inv(START)
  {
    assert R.Inv(R.START);
  }

  lemma {:induction false} RunKeeps(states: seq<State>, steps: seq<Step>, n: nat)
    requires IsRun(states, steps) && n < |states|
    ensures Inv(states[n])
  {
    if n == 0 {
      NothingYet();
    } else {
      RunKeeps(states, steps, n - 1);
      StepKeeps(states[n - 1], steps[n - 1]);
    }
  }

  /** Every delta carries the id of the chat that caused it, however many chats run at once. */
  lemma {:induction false} DeltasCarryTheirOwnId(states: seq<State>, steps: seq<Step>, n: nat)
    requires IsRun(states, steps) && n < |states|
    ensures forall i :: 0 <= i < |states[n].log| ==> states[n].log[i].stamp == states[n].log[i].origin
  {
    RunKeeps(states, steps, n);
  }

  /** Nothing carrying a request's id follows its terminal delta; so there is at most one. */
  lemma {:induction false} NothingAfterTerminal(states: seq<State>, steps: seq<Step>, n: nat, i: nat, j: nat)
    requires IsRun(states, steps) && n < |states| && i < j < |states[n].log|
    requires states[n].log[i].delta.Terminal()
    ensures states[n].log[j].stamp != states[n].log[i].stamp
  {
    RunKeeps(states, steps, n);
  }

  /** Two chats that both stream belong to different channels. */
  lemma {:induction false} OneChatPerChannel(states: seq<State>, steps: seq<Step>, n: nat, a: int, b: int)
    requires IsRun(states, steps) && n < |states| && In(states[n], a, Running) && In(states[n], b, Running) && a != b
    ensures states[n].chats[a].channel != states[n].chats[b].channel
  {
    RunKeeps(states, steps, n);
  }

  // ---------------------------------------------------------------- exactly one terminal delta

  function Terminals(log: seq<Entry>, id: int): (n: nat) {
    if log == [] then 0
    else
      var last := log[|log| - 1];
      Terminals(log[..|log| - 1], id) + if last.stamp == id && last.delta.Terminal() then 1 else 0
  }

  lemma {:induction false} TerminalsJoin(a: seq<Entry>, b: seq<Entry>, id: int)
    ensures Terminals(a + b, id) == Terminals(a, id) + Terminals(b, id)
  {
    if b == [] {
      assert a + b == a;
    } else {
      assert (a + b)[..|a + b| - 1] == a + b[..|b| - 1];
      TerminalsJoin(a, b[..|b| - 1], id);
    }
  }

  /** A chat that may still end has sent no terminal delta. */
  lemma {:induction false} OpenHasNone(log: seq<Entry>, id: int)
    requires forall i :: 0 <= i < |log| && log[i].delta.Terminal() ==> log[i].stamp != id
    ensures Terminals(log, id) == 0
  {
    if log != [] {
      OpenHasNone(log[..|log| - 1], id);
    }
  }

  /** The step after which the chat sends no more: a commit that was not refused, or the report of its error. */
  predicate Ends(s: State, step: Step, id: int) {
    match step
    case Commit(x, packets, bytes) => x == id && SendCommit(s, x, packets, bytes).ok
    case Report(x, _) => x == id
    case _ => false
  }

  /** The connection has room for all that the step sends, one line after the other. */
  predicate Room(s: State, step: Step) {
    match step
    case Commit(id, packets, bytes) => SendCommit(s, id, packets, bytes).ok
    case Report(_, bytes) => R.Accepts(s.rpc, R.Line(R.Notes, bytes))
    case _ => false
  }

  /** The worker is not closing, and the connection is open with room. */
  predicate Heard(s: State, step: Step) {
    !s.closing && Room(s, step)
  }

  /** A step sends a terminal delta for `id` exactly when it ends `id` and is heard. */
  lemma {:induction false} StepTerminals(s: State, step: Step, id: int)
    requires Inv(s) && Enabled(s, step)
    ensures Terminals(Apply(s, step).log, id) == Terminals(s.log, id) +
      (if Ends(s, step, id) && Heard(s, step) then 1 else 0)
  {
    match step
    case Emit(x, packet) =>
      SendTerminals(s, Entry(x, x, Update(packet.content)), packet.bytes, id);
    case Commit(x, packets, bytes) => CommitTerminals(s, x, packets, bytes, id);
    case Report(x, bytes) =>
      SendTerminals(s, Entry(x, x, Error), bytes, id);
    case _ => assert Apply(s, step).log == s.log;
  }

  lemma {:induction false} CommitTerminals(s: State, x: int, packets: seq<Packet>, bytes: nat, id: int)
    requires Inv(s) && In(s, x, Running)
    ensures Terminals(DoCommit(s, x, packets, bytes).log, id) == Terminals(s.log, id) +
      (if x == id && SendCommit(s, x, packets, bytes).ok && !s.closing then 1 else 0)
  {
    SendAllTerminals(s, x, packets, id);
    SendAllSends(s, x, x, packets);
    SendTerminals(SendAll(s, x, x, packets).state, Entry(x, x, Finished), bytes, id);
  }

  lemma {:induction false} SendTerminals(s: State, entry: Entry, bytes: nat, id: int)
    ensures Terminals(Send(s, entry, bytes).state.log, id) == Terminals(s.log, id) +
      (if !s.closing && Send(s, entry, bytes).ok && entry.stamp == id && entry.delta.Terminal() then 1 else 0)
  {
    TerminalsOne(entry, id);
    TerminalsJoin(s.log, [entry], id);
  }

  lemma {:induction false} SendAllTerminals(s: State, x: int, packets: seq<Packet>, id: int)
    ensures Terminals(SendAll(s, x, x, packets).state.log, id) == Terminals(s.log, id)
    decreases |packets|
  {
    if packets != [] {
      var entry := Entry(x, x, Update(packets[0].content));
      SendTerminals(s, entry, packets[0].bytes, id);
      var first := Send(s, entry, packets[0].bytes);
      if first.ok { SendAllTerminals(first.state, x, packets[1..], id); }
    }
  }

  lemma {:induction false} TerminalsOne(e: Entry, id: int)
    ensures Terminals([e], id) == if e.stamp == id && e.delta.Terminal() then 1 else 0
  {
    assert [e][..0] == [];
    assert Terminals([], id) == 0;
  }

  lemma {:induction false} PhaseUntilEnd(s: State, step: Step, id: int)
    requires Enabled(s, step) && !step.Commit? && !step.Arrive? && id in s.chats
    ensures id in Apply(s, step).chats && (Open(Apply(s, step), id) <==> Open(s, id) && !Ends(s, step, id))
  {
  }

  lemma {:induction false} CommitUntilEnd(s: State, x: int, packets: seq<Packet>, bytes: nat, id: int)
    requires In(s, x, Running) && id in s.chats
    ensures var t := DoCommit(s, x, packets, bytes);
      id in t.chats && (Open(t, id) <==> Open(s, id) && !(x == id && SendCommit(s, x, packets, bytes).ok))
  {
  }

  /** A chat stops being open in its ending step and in no other; once it is not, it never ends again. */
  lemma {:induction false} OpenUntilEnd(s: State, step: Step, id: int)
    requires Inv(s) && Enabled(s, step)
    ensures Ends(s, step, id) ==> Open(s, id)
    ensures id in s.chats ==>
      id in Apply(s, step).chats && (Open(Apply(s, step), id) <==> Open(s, id) && !Ends(s, step, id))
    ensures id !in s.chats && id in Apply(s, step).chats ==> Open(Apply(s, step), id)
  {
    match step
    case Commit(x, packets, bytes) => if id in s.chats { CommitUntilEnd(s, x, packets, bytes, id); }
    case Arrive(_, _, _) =>
    case _ => if id in s.chats { PhaseUntilEnd(s, step, id); }
  }

  /** The last two lemmas, in terms of a run. */
  lemma {:induction false} NextState(states: seq<State>, steps: seq<Step>, n: nat, id: int)
    requires IsRun(states, steps) && n < |steps|
    ensures Ends(states[n], steps[n], id) ==> Open(states[n], id)
    ensures id in states[n].chats ==>
      id in states[n + 1].chats && (Open(states[n + 1], id) <==> Open(states[n], id) && !Ends(states[n], steps[n], id))
    ensures id !in states[n].chats && id in states[n + 1].chats ==> Open(states[n + 1], id)
    ensures Terminals(states[n + 1].log, id) == Terminals(states[n].log, id) +
      (if Ends(states[n], steps[n], id) && Heard(states[n], steps[n]) then 1 else 0)
  {
    RunKeeps(states, steps, n);
    OpenUntilEnd(states[n], steps[n], id);
    StepTerminals(states[n], steps[n], id);
  }

  /**
    Step `k` is the one step that ends `id` before the state `n`, and it decides how many terminal deltas there are.
   */
  ghost predicate EndedBy(states: seq<State>, steps: seq<Step>, n: nat, id: int, k: nat)
    requires |states| == |steps| + 1 && n < |states|
  {
    && k < n && Ends(states[k], steps[k], id)
    && (forall j {:trigger steps[j]} :: 0 <= j < n && Ends(states[j], steps[j], id) ==> j == k)
    && Terminals(states[n].log, id) == if Heard(states[k], steps[k]) then 1 else 0
  }

  lemma {:induction false} EndedNow(states: seq<State>, steps: seq<Step>, n: nat, id: int)
    requires |states| == |steps| + 1 && n < |steps| && Ends(states[n], steps[n], id)
    requires forall j {:trigger steps[j]} :: 0 <= j < n ==> !Ends(states[j], steps[j], id)
    requires Terminals(states[n + 1].log, id) == if Heard(states[n], steps[n]) then 1 else 0
    ensures EndedBy(states, steps, n + 1, id, n)
  {
  }

  lemma {:induction false} EndedBefore(states: seq<State>, steps: seq<Step>, n: nat, id: int, k: nat)
    requires |states| == |steps| + 1 && n < |steps| && EndedBy(states, steps, n, id, k)
    requires !Ends(states[n], steps[n], id) && Terminals(states[n + 1].log, id) == Terminals(states[n].log, id)
    ensures EndedBy(states, steps, n + 1, id, k)
  {
  }

  /** A chat that is no longer open was ended by exactly one step. */
  lemma {:induction false} EndingStep(states: seq<State>, steps: seq<Step>, n: nat, id: int) returns (k: nat)
    requires IsRun(states, steps) && n < |states| && id in states[n].chats && !Open(states[n], id)
    ensures EndedBy(states, steps, n, id, k)
  {
    if n == 0 {
      assert false;
    } else {
      NextState(states, steps, n - 1, id);
      if Ends(states[n - 1], steps[n - 1], id) {
        k := n - 1;
        OpenMeansUnended(states, steps, n - 1, id);
        EndedNow(states, steps, n - 1, id);
      } else {
        k := EndingStep(states, steps, n - 1, id);
        EndedBefore(states, steps, n - 1, id, k);
      }
    }
  }

  lemma {:induction false} OpenMeansUnended(states: seq<State>, steps: seq<Step>, n: nat, id: int)
    requires IsRun(states, steps) && n < |states| && (id !in states[n].chats || Open(states[n], id))
    ensures Terminals(states[n].log, id) == 0
    ensures forall j {:trigger steps[j]} :: 0 <= j < n ==> !Ends(states[j], steps[j], id)
  {
    if n > 0 {
      NextState(states, steps, n - 1, id);
      OpenMeansUnended(states, steps, n - 1, id);
    }
  }

  /**
    A settled chat has one ending step. It has sent exactly one terminal delta if, at that step,
    the worker was not closing and the connection was open with room, and none at all otherwise.
   */
  lemma {:induction false} ExactlyOneTerminal(states: seq<State>, steps: seq<Step>, n: nat, id: int)
    requires IsRun(states, steps) && n < |states| && In(states[n], id, Settled)
    ensures exists k :: 0 <= k < n && Ends(states[k], steps[k], id)
    ensures forall k :: 0 <= k < n && Ends(states[k], steps[k], id) ==>
      Terminals(states[n].log, id) == if Heard(states[k], steps[k]) then 1 else 0
  {
    var k := EndingStep(states, steps, n, id);
  }

  /**
    While the worker is not closing and the transport has not begun to end, every settled chat has exactly one
    terminal delta.
   */
  lemma {:induction false} OpenWorkerEndsEveryChat(states: seq<State>, steps: seq<Step>, n: nat, id: int)
    requires IsRun(states, steps) && n < |states| && In(states[n], id, Settled) && !states[n].closing
    requires !states[n].rpc.ending
    ensures Terminals(states[n].log, id) == 1
  {
    var k := EndingStep(states, steps, n, id);
    OpenBefore(states, steps, k, n);
    OpenBefore(states, steps, k + 1, n);
    RunKeeps(states, steps, k);
    if steps[k].Report? {
      if !Room(states[k], steps[k]) { RefusalEnds(states[k], id, steps[k].bytes); }
    }
  }

  /** The connection refuses an error report only when it has begun to end, or begins to end because of it. */
  lemma {:induction false} RefusalEnds(s: State, id: int, bytes: nat)
    requires Inv(s) && Enabled(s, Report(id, bytes)) && !s.closing && !Room(s, Report(id, bytes))
    ensures Apply(s, Report(id, bytes)).rpc.ending
  {
  }

  lemma {:induction false} SendAllEnding(s: State, id: int, stamp: int, packets: seq<Packet>)
    ensures s.rpc.ending ==> SendAll(s, id, stamp, packets).state.rpc.ending
    decreases |packets|
  {
    if packets != [] {
      var first := Send(s, Entry(id, stamp, Update(packets[0].content)), packets[0].bytes);
      if first.ok { SendAllEnding(first.state, id, stamp, packets[1..]); }
    }
  }

  lemma {:induction false} EndingStays(s: R.State, step: R.Step)
    requires R.Enabled(s, step)
    ensures s.ending ==> R.Apply(s, step).ending
  {
  }

  /** Neither the closing of the worker nor the ending of the transport is taken back. */
  lemma {:induction false} ClosedStays(s: State, step: Step)
    requires Enabled(s, step)
    ensures s.closing ==> Apply(s, step).closing
    ensures s.rpc.ending ==> Apply(s, step).rpc.ending
  {
    match step
    case Commit(id, packets, bytes) => SendAllEnding(s, id, Stamp(s, s.chats[id].channel), packets);
    case Transport(step) => EndingStays(s.rpc, step);
    case _ =>
  }

  lemma {:induction false} OpenBefore(states: seq<State>, steps: seq<Step>, m: nat, n: nat)
    requires IsRun(states, steps) && m <= n < |states|
    ensures states[m].closing ==> states[n].closing
    ensures states[m].rpc.ending ==> states[n].rpc.ending
    decreases n - m
  {
    if m < n {
      OpenBefore(states, steps, m, n - 1);
      ClosedStays(states[n - 1], steps[n - 1]);
    }
  }

  /**
    A report that meets a full queue is lost: its chat settles without a terminal delta, though the worker is not
    closing.
   */
  lemma {:induction false} FullQueueSilencesAChat(states: seq<State>, steps: seq<Step>, id: int, bytes: nat)
    requires IsRun(states, steps) && Enabled(states[|steps|], Report(id, bytes))
    requires !states[|steps|].closing && !R.Fits(states[|steps|].rpc, R.Line(R.Notes, bytes))
    ensures var s := Apply(states[|steps|], Report(id, bytes));
      !s.closing && In(s, id, Settled) && Terminals(s.log, id) == 0
  {
    OpenMeansUnended(states, steps, |steps|, id);
  }

  /** An accepted chat that has not settled can always take a step of its own. */
  lemma {:induction false} ChatsCanFinish(s: State, id: int) returns (step: Step)
    requires id in s.chats && s.chats[id].phase != Settled
    ensures Enabled(s, step) && id in Apply(s, step).chats
    ensures Remaining(Apply(s, step).chats[id].phase) < Remaining(s.chats[id].phase)
  {
    match s.chats[id].phase
    case Holding => step := Throw(id);
    case Leased => step := Throw(id);
    case Running => step := Commit(id, [], 1);
    case Committed => step := Free(id);
    case Failing => step := Free(id);
    case Freed => step := Report(id, 1);
    case Returned => step := Return(id);
  }

  function Remaining(phase: Phase): nat {
    match phase
    case Holding => 7
    case Leased => 6
    case Running => 5
    case Failing => 4
    case Freed => 3
    case Committed => 2
    case Returned => 1
    case Settled => 0
  }

  /** A shutdown between the failure of a chat and its report leaves that chat without a terminal delta. */
  lemma {:induction false} ShutdownSilencesAChat()
    ensures exists states: seq<State>, steps: seq<Step> ::
      IsRun(states, steps) && In(states[|steps|], 1, Settled) && Terminals(states[|steps|].log, 1) == 0
  {
    var accepted := START.(lastRequest := 1, chats := map[1 := Chat(0, Freed)]);
    var closing := accepted.(closing := true);
    var states := [START, accepted, closing, closing.(chats := map[1 := Chat(0, Settled)])];
    var steps := [Arrive(1, 0, false), Shutdown, Report(1, 1)];
    assert closing.chats[1 := Chat(0, Settled)] == map[1 := Chat(0, Settled)];
    assert IsRun(states, steps);
  }

  // ---------------------------------------------------------------- a clean close

  /** A transport that closed without an error has written every line that was ever queued, whoever sent it. */
  lemma {:induction false} CleanCloseDeliversAll(states: seq<State>, steps: seq<Step>, n: nat)
    requires IsRun(states, steps) && n < |states| && states[n].rpc.closed && !states[n].rpc.failed
    ensures states[n].rpc.delivered == |states[n].rpc.lines| && states[n].rpc.handed == states[n].rpc.lines
  {
    RunKeeps(states, steps, n);
  }
}
