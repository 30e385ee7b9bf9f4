/** What the transport promises over every run: callbacks, requests, output and closing. */
module RpcTheorems {
  import opened Rpc

  /** Each state follows the one before it by the step of the same index. */
  ghost predicate IsPath(states: seq<State>, steps: seq<Step>) {
    && |states| == |steps| + 1
    && forall i {:trigger steps[i]} :: 0 <= i < |steps| ==>
         Enabled(states[i], steps[i]) && states[i + 1] == Apply(states[i], steps[i])
  }

  ghost predicate IsRun(states: seq<State>, steps: seq<Step>) {
    IsPath(states, steps) && states[0] == START
  }

  lemma {:induction false} RunKeeps(states: seq<State>, steps: seq<Step>, n: nat)
    requires IsRun(states, steps) && n < |states|
    ensures Inv(states[n])
  {
    if n == 0 {
      assert Inv(START);
    } else {
      RunKeeps(states, steps, n - 1);
      StepKeeps(states[n - 1], steps[n - 1]);
    }
  }

  // ---------------------------------------------------------------- what the run promises

  /** Callback ids strictly decrease, and each id is settled at most once. */
  lemma {:induction false} CallbacksSettleOnce(states: seq<State>, steps: seq<Step>, n: nat)
    requires IsRun(states, steps) && n < |states|
    ensures forall i, j :: 0 <= i < j < |states[n].issued| ==> states[n].issued[i] > states[n].issued[j]
    ensures Distinct(states[n].settled)
    ensures forall id :: id in states[n].settled ==> id in states[n].issued && id !in states[n].callbacks
  {
    RunKeeps(states, steps, n);
    DistinctParts(states[n].callbacks, states[n].settled);
    assert forall id :: id in states[n].settled ==> id in states[n].callbacks + states[n].settled;
  }

  /** Once the end begins it stays, and no later step issues, settles or accepts anything. */
  lemma {:induction false} EndingStays(s: State, step: Step)
    requires s.ending && s.callbacks == [] && Enabled(s, step)
    ensures var r := Apply(s, step);
      r.ending && r.callbacks == [] && r.issued == s.issued && r.settled == s.settled && r.accepted == s.accepted
  {
  }

  /** Once the end begins every id ever issued is settled: no caller is left waiting. */
  lemma {:induction false} NoCallerLeftWaiting(states: seq<State>, steps: seq<Step>, n: nat, m: nat)
    requires IsRun(states, steps) && n <= m < |states| && states[n].ending
    ensures states[m].ending && states[m].callbacks == [] && states[m].issued == states[n].issued
    ensures states[m].settled == states[n].settled
    ensures forall id :: id in states[m].issued <==> id in states[m].settled
    decreases m - n
  {
    RunKeeps(states, steps, m);
    if n < m {
      RunKeeps(states, steps, n);
      EndingStays(states[n], steps[n]);
      NoCallerLeftWaiting(states, steps, n + 1, m);
    }
    var s := states[m];
    assert s.callbacks + s.settled == s.settled;
  }

  /**
    Every caller that waits was asked for in exactly one line, every such line names an id issued, and
    an id issued without a line is settled.
   */
  lemma {:induction false} CallsAreSent(states: seq<State>, steps: seq<Step>, n: nat)
    requires IsRun(states, steps) && n < |states|
    ensures var s := states[n];
      && (forall id :: id in s.callbacks ==> exists k :: AskAt(s.lines, k, id))
      && (forall j, k, id :: AskAt(s.lines, j, id) && AskAt(s.lines, k, id) ==> j == k)
      && (forall k, id :: AskAt(s.lines, k, id) ==> id in s.issued)
      && (forall id :: id in s.issued ==> id in s.settled || exists k :: AskAt(s.lines, k, id))
  {
    RunKeeps(states, steps, n);
    var s := states[n];
    forall id | id in s.issued ensures id in s.settled || exists k :: AskAt(s.lines, k, id) {
      assert id in s.callbacks + s.settled;
    }
  }

  /** A line of at most 16 MiB and its newline. */
  predicate Short(bytes: nat) {
    bytes <= 16 * 1024 * 1024 + 1
  }

  /** Fewer than 1024 lines, and no more than 32 MiB with the new one, are unwritten. */
  predicate Room(s: State, bytes: nat) {
    |s.lines| - s.written < 1024 && s.written <= |s.lines| &&
    TotalBytes(s.lines[s.written..]) + bytes <= 32 * 1024 * 1024
  }

  /**
    A line is taken exactly when it is short enough, the transport is not closed, and there is room.
    One refused for want of room ends the transport with an error; any other refusal changes nothing.
   */
  lemma {:induction false} LineTakenExactly(s: State, line: Line)
    requires Inv(s)
    ensures var t := Enqueue(s, line);
      && t.lines == (if Short(line.bytes) && !s.closed && Room(s, line.bytes) then s.lines + [line] else s.lines)
      && (Short(line.bytes) && !s.closed && !Room(s, line.bytes) ==> t.failed && t.ending && t.callbacks == [])
      && (!Short(line.bytes) || s.closed ==> t == s)
  {
    if Accepts(s, line) { assert s.lines + [line] != s.lines; }
  }

  /** A call issues an id exactly while the transport is not ending, fewer than 256 callers wait, and ids are left. */
  lemma {:induction false} CallIssuesExactly(s: State, bytes: nat)
    requires Inv(s)
    ensures Enabled(s, Call(bytes))
    ensures Apply(s, Call(bytes)).issued ==
      if !s.ending && |s.callbacks| < 256 && -9007199254740991 <= s.nextId then s.issued + [s.nextId] else s.issued
  {
  }

  /** What ends a transport that goes on, one step after the other. */
  predicate EndsIt(s: State, step: Step) {
    match step
    case Call(bytes) =>
      |s.callbacks| < 256 && -9007199254740991 <= s.nextId && Short(bytes) && !Room(s, bytes)
    case Reply(id) => id !in s.callbacks
    case Request(id) => |s.handlers| >= 256 || id <= if s.accepted == [] then 0 else s.accepted[|s.accepted| - 1]
    case Answer(_, bytes, fault, shutdown) => !Short(bytes) || !Room(s, bytes) || fault || shutdown
    case Notify(bytes) => Short(bytes) && !Room(s, bytes)
    case Written(ok) => !ok
    case Fail => true
    case InputEnds => true
    case _ => false
  }

  /** An end that is no error: that of the input, or of a shutdown that was answered. */
  predicate Orderly(s: State, step: Step) {
    step.InputEnds? || (step.Answer? && !step.fault && Short(step.bytes) && Room(s, step.bytes))
  }

  /**
    A transport that goes on ends exactly when its input does, an error is reported, a write fails, a
    line finds no room, the peer breaks the protocol, or an answer cannot be sent, is a fault, or is
    that of the shutdown.
   */
  lemma {:induction false} EndsExactly(s: State, step: Step)
    requires Inv(s) && Enabled(s, step) && !s.ending
    ensures Apply(s, step).ending <==> EndsIt(s, step)
    ensures Apply(s, step).failed <==> EndsIt(s, step) && !Orderly(s, step)
  {
  }

  /** Accepted request ids strictly increase; each is answered at most once, with one line. */
  lemma {:induction false} RequestsAnsweredOnce(states: seq<State>, steps: seq<Step>, n: nat)
    requires IsRun(states, steps) && n < |states|
    ensures forall i, j :: 0 <= i < j < |states[n].accepted| ==> states[n].accepted[i] < states[n].accepted[j]
    ensures forall j, k, id :: AnswerAt(states[n].lines, j, id) && AnswerAt(states[n].lines, k, id) ==> j == k
    ensures forall k, id :: AnswerAt(states[n].lines, k, id) ==> id in states[n].accepted
  {
    RunKeeps(states, steps, n);
  }

  /** A transport that closed with no error recorded has written the answer of every request it accepted. */
  lemma {:induction false} CleanCloseAnsweredAll(states: seq<State>, steps: seq<Step>, n: nat, id: int)
    requires IsRun(states, steps) && n < |states|
    requires states[n].closed && !states[n].failed && id in states[n].accepted
    ensures exists k :: AnswerAt(states[n].lines, k, id) && k < states[n].delivered <= |states[n].handed|
                        && states[n].handed[k] == states[n].lines[k]
  {
    RunKeeps(states, steps, n);
    var s := states[n];
    assert id in s.answered;
    var k :| AnswerAt(s.lines, k, id);
    assert k < s.delivered && s.handed[k] == s.lines[k];
  }

  /** The counters are exact and bounded, and the output saw the queued lines in order, even after a failed write. */
  lemma {:induction false} OutputIsAccounted(states: seq<State>, steps: seq<Step>, n: nat)
    requires IsRun(states, steps) && n < |states|
    ensures var s := states[n];
      && s.written <= |s.lines|
      && s.queuedWrites == |s.lines| - s.written <= 1024
      && s.queuedBytes == TotalBytes(s.lines[s.written..]) <= 32 * 1024 * 1024
      && s.handed <= s.lines
  {
    RunKeeps(states, steps, n);
  }

  /** The queue moves on by itself: the oldest unsettled line can always be handed over or settled. */
  lemma {:induction false} QueueMovesOn(s: State) returns (step: Step)
    requires Inv(s) && s.written < |s.lines|
    ensures step == Write || step == Written(true) || step == Skip
    ensures Enabled(s, step)
    ensures var t := Apply(s, step);
      && t.lines == s.lines
      && if step == Write then t.handed == s.handed + [s.lines[s.written]] && t.written == s.written
         else t.written == s.written + 1 && t.queuedWrites == s.queuedWrites - 1
  {
    step := if s.broken then Skip else if |s.handed| == s.written then Write else Written(true);
  }

  // ---------------------------------------------------------------- what a clean close delivers

  /** The transport closed and recorded no error. */
  predicate ClosedClean(s: State) {
    s.closed && !s.failed
  }

  lemma {:induction false} CallKeepsLines(s: State, bytes: nat)
    ensures |s.lines| <= |DoCall(s, bytes).lines|
  {
  }

  lemma {:induction false} AnswerKeepsLines(s: State, id: int, bytes: nat, fault: bool, shutdown: bool)
    ensures |s.lines| <= |DoAnswer(s, id, bytes, fault, shutdown).lines|
  {
  }

  lemma {:induction false} LinesStay(s: State, step: Step)
    requires Enabled(s, step)
    ensures |s.lines| <= |Apply(s, step).lines|
  {
    match step
    case Call(bytes) => CallKeepsLines(s, bytes);
    case Answer(id, bytes, fault, shutdown) => AnswerKeepsLines(s, id, bytes, fault, shutdown);
    case _ =>
  }

  /** Once the flush is fixed it stays, and until then it will wait for every line queued. */
  lemma {:induction false} FlushWaits(s: State, step: Step, n: nat)
    requires Enabled(s, step) && n <= |s.lines| && (s.flush < 0 || n <= s.flush)
    ensures n <= |Apply(s, step).lines| && (Apply(s, step).flush < 0 || n <= Apply(s, step).flush)
  {
    LinesStay(s, step);
    if !step.Flush? { FlushMoves(s, step); }
  }

  /** On every path from a state whose flush has not begun, a clean close delivers all lines that state had queued. */
  lemma {:induction false} CleanCloseDelivers(states: seq<State>, steps: seq<Step>, n: nat)
    requires IsPath(states, steps) && Inv(states[0]) && states[0].flush < 0 && n < |states|
    ensures Inv(states[n]) && |states[0].lines| <= |states[n].lines|
    ensures states[n].flush < 0 || |states[0].lines| <= states[n].flush
    ensures ClosedClean(states[n]) ==> |states[0].lines| <= states[n].delivered
  {
    if n > 0 {
      CleanCloseDelivers(states, steps, n - 1);
      StepKeeps(states[n - 1], steps[n - 1]);
      FlushWaits(states[n - 1], steps[n - 1], |states[0].lines|);
    }
  }

  lemma {:induction false} Prepend(s: State, step: Step, states: seq<State>, steps: seq<Step>)
    requires Enabled(s, step) && IsPath(states, steps) && states[0] == Apply(s, step)
    ensures IsPath([s] + states, [step] + steps)
  {
    var all, moves := [s] + states, [step] + steps;
    forall i | 0 <= i < |moves| ensures Enabled(all[i], moves[i]) && all[i + 1] == Apply(all[i], moves[i]) {
      if i > 0 {
        assert all[i] == states[i - 1] && moves[i] == steps[i - 1] && all[i + 1] == states[i];
      }
    }
  }

  /** A flush under way can finish with a clean close, and then no line behind it was written. */
  lemma {:induction false} FlushCanFinish(s: State) returns (states: seq<State>, steps: seq<Step>)
    requires Inv(s) && !s.closed && !s.failed && 0 <= s.flush
    ensures IsPath(states, steps) && states[0] == s && ClosedClean(states[|steps|])
    ensures states[|steps|].delivered == if s.delivered < s.flush then s.flush else s.delivered
    ensures forall i :: 0 <= i < |steps| ==> !steps[i].Notify?
    decreases s.flush - s.delivered, s.written + 1 - |s.handed|
  {
    if s.flush <= s.delivered {
      var closed := s.(closed := true);
      states, steps := [s] + [closed], [Close(true)] + [];
      Prepend(s, Close(true), [closed], []);
    } else {
      var step := if |s.handed| == s.written then Write else Written(true);
      StepKeeps(s, step);
      var rest, moves := FlushCanFinish(Apply(s, step));
      Prepend(s, step, rest, moves);
      states, steps := [s] + rest, [step] + moves;
    }
  }

  /** Once nothing runs, and without an error, a transport that is ending can close cleanly with all lines delivered. */
  lemma {:induction false} CanCloseClean(s: State) returns (states: seq<State>, steps: seq<Step>)
    requires Inv(s) && s.ending && !s.closed && !s.failed && s.handlers == {} && s.flush < 0
    ensures IsPath(states, steps) && states[0] == s && ClosedClean(states[|steps|])
    ensures states[|steps|].delivered >= |s.lines| && forall i :: 0 <= i < |steps| ==> !steps[i].Notify?
  {
    StepKeeps(s, Flush);
    var rest, moves := FlushCanFinish(Apply(s, Flush));
    Prepend(s, Flush, rest, moves);
    states, steps := [s] + rest, [Flush] + moves;
  }

  /** The path goes from `s` to a clean close that leaves the line at the index unwritten. */
  ghost predicate Loses(s: State, index: nat, states: seq<State>, steps: seq<Step>) {
    IsPath(states, steps) && states[0] == s && ClosedClean(states[|steps|]) && states[|steps|].delivered <= index
  }

  /** Of the transport alone: a notification queued once the flush has begun is left unwritten by some clean close. */
  lemma {:induction false} LateNotificationCanBeLost(s: State, bytes: nat)
      returns (states: seq<State>, steps: seq<Step>)
    requires Inv(s) && !s.closed && !s.failed && 0 <= s.flush && Accepts(s, Line(Notes, bytes))
    ensures Loses(Enqueue(s, Line(Notes, bytes)), |s.lines|, states, steps)
  {
    StepKeeps(s, Notify(bytes));
    states, steps := FlushCanFinish(Enqueue(s, Line(Notes, bytes)));
  }

  /**
    Of the transport alone: a queued notification is written by every clean close that can follow if
    and only if it was queued before the closing flush began. A handler that sends none once it is
    closed, as the worker, never has one that is not.
   */
  lemma {:induction false} DeliveredExactly(s: State, bytes: nat)
    requires Inv(s) && !s.closed && !s.failed && Accepts(s, Line(Notes, bytes))
    ensures s.flush < 0 <==>
      !exists states: seq<State>, steps: seq<Step> :: Loses(Enqueue(s, Line(Notes, bytes)), |s.lines|, states, steps)
  {
    var t := Enqueue(s, Line(Notes, bytes));
    if s.flush < 0 {
      StepKeeps(s, Notify(bytes));
      forall states: seq<State>, steps: seq<Step> ensures !Loses(t, |s.lines|, states, steps) {
        if Loses(t, |s.lines|, states, steps) {
          CleanCloseDelivers(states, steps, |steps|);
        }
      }
    } else {
      var states, steps := LateNotificationCanBeLost(s, bytes);
    }
  }
}
