/**
  The resumable event stream of BoBeMacUI/BoBe/Services/DaemonClient.swift: deduplication by id and
  runtime incarnation, acknowledgement, and the delay before a reconnection.
 */
module EventCursor {
  import opened Common

  datatype Kind = Ordinary | Snapshot(resumeAfter: Option<nat>)

  datatype Bundle = Bundle(eventId: Option<nat>, incarnation: Option<nat>, kind: Kind)

  /** A line of the stream: not data, data that does not decode, or an event. */
  datatype Line = Comment | Undecodable | Data(bundle: Bundle)

  /**
    What happens while a line is looked at: the task is cancelled before, or the handler answers and the task may be
    cancelled meanwhile.
   */
  datatype Reply = Gone | Answer(processed: bool, cancelled: bool)

  datatype State = State(last: Option<nat>, incarnation: Option<nat>, attempts: nat, handled: seq<Bundle>)

  const START: State := State(None, None, 0, [])

  predicate ShouldProcess(b: Bundle, last: Option<nat>, incarnation: Option<nat>) {
    b.eventId == None || b.incarnation != incarnation || last == None || b.eventId.value > last.value
  }

  function Acknowledge(s: State, b: Bundle): State {
    if b.kind.Snapshot? then s.(incarnation := b.incarnation, last := b.kind.resumeAfter)
    else if b.eventId.Some? && b.incarnation.Some? then s.(incarnation := b.incarnation, last := b.eventId)
    else s
  }

  predicate Advanced(before: State, after: State) {
    after.last.Some? && (after.last != before.last || after.incarnation != before.incarnation)
  }

  /** One event the handler took: it is logged, and without a cancellation also acknowledged. */
  function Take(s: State, b: Bundle, cancelled: bool): State {
    var h := s.(handled := s.handled + [b]);
    if cancelled then h
    else
      var r := Acknowledge(h, b);
      if Advanced(h, r) then r.(attempts := 0) else r
  }

  /** `receiveEvents`: one connection, from its first line until it ends or is given up. */
  function Receive(s: State, lines: seq<Line>, replies: seq<Reply>): State
    requires |replies| == |lines|
    decreases |lines|
  {
    if lines == [] || replies[0].Gone? then s
    else
      match lines[0]
      case Comment => Receive(s, lines[1..], replies[1..])
      case Undecodable => s
      case Data(b) =>
        if !ShouldProcess(b, s.last, s.incarnation) then Receive(s, lines[1..], replies[1..])
        else if !replies[0].processed then s
        else if replies[0].cancelled then Take(s, b, true)
        else Receive(Take(s, b, false), lines[1..], replies[1..])
  }

  // ---------------------------------------------------------------- the object

  class Client {
    var last: Option<nat>
    var incarnation: Option<nat>
    var attempts: nat
    ghost var handled: seq<Bundle>

    ghost function View(): State
      reads this
    {
      State(last, incarnation, attempts, handled)
    }

    constructor ()
      ensures View() == START
    {
      last, incarnation, attempts, handled := None, None, 0, [];
    }

    /** The result says whether the cursor moved; an event it names is not processed again. */
    method AcknowledgeBundle(b: Bundle) returns (advanced: bool)
      modifies this
      ensures View() == Acknowledge(old(View()), b)
      ensures advanced == Advanced(old(View()), View())
      ensures b.kind == Ordinary && b.eventId.Some? && b.incarnation.Some? ==> !ShouldProcess(b, last, incarnation)
    {
      var previous, before := last, incarnation;
      if b.kind.Snapshot? {
        incarnation := b.incarnation;
        last := b.kind.resumeAfter;
      } else if b.eventId.Some? && b.incarnation.Some? {
        incarnation := b.incarnation;
        last := b.eventId;
      }
      return last.Some? && (last != previous || incarnation != before);
    }

    method ReceiveEvents(lines: seq<Line>, replies: seq<Reply>)
      requires |replies| == |lines|
      modifies this
      ensures View() == Receive(old(View()), lines, replies)
    {
      var i := 0;
      while i < |lines|
        invariant i <= |lines|
        invariant Receive(View(), lines[i..], replies[i..]) == Receive(old(View()), lines, replies)
      {
        assert lines[i..][1..] == lines[i + 1..] && replies[i..][1..] == replies[i + 1..];
        var line, reply := lines[i], replies[i];
        i := i + 1;
        if reply.Gone? { return; }
        if line.Comment? { continue; }
        if line.Undecodable? { return; }
        var b := line.bundle;
        if !ShouldProcess(b, last, incarnation) { continue; }
        if reply.processed { handled := handled + [b]; }
        if reply.cancelled || !reply.processed { return; }
        var advanced := AcknowledgeBundle(b);
        if advanced { attempts := 0; }
      }
    }

    /** The delay in half seconds; `stable` says that the connection stood for at least thirty seconds. */
    method ReconnectDelay(stable: bool) returns (delay: nat)
      modifies this
      ensures View() == old(View()).(attempts := (if stable then 0 else old(attempts)) + 1)
      ensures delay == Delay(attempts)
    {
      if stable { attempts := 0; }
      attempts := attempts + 1;
      if attempts <= 1 { return 0; }
      var d, n := 1, 2;
      while n < attempts && d < 30
        invariant 2 <= n <= attempts && d == Power(n - 2)
      {
        d, n := d * 2, n + 1;
      }
      PowerGrows(n - 2, attempts - 2);
      return if d < 30 then d else 30;
    }
  }

  // ---------------------------------------------------------------- resumption

  function Id(log: seq<nat>, i: nat, incarnation: nat): Bundle
    requires i < |log|
  {
    Bundle(Some(log[i]), Some(incarnation), Ordinary)
  }

  /** The first `k` events of an incarnation's log. */
  function Events(log: seq<nat>, k: nat, incarnation: nat): (r: seq<Bundle>)
    requires k <= |log|
    ensures |r| == k && forall i :: 0 <= i < k ==> r[i] == Id(log, i, incarnation)
  {
    seq(k, i requires 0 <= i < k => Id(log, i, incarnation))
  }

  predicate Increasing(log: seq<nat>) {
    forall i, j :: 0 <= i < j < |log| ==> log[i] < log[j]
  }

  /** An event without an id, which no cursor can name. */
  predicate Passing(b: Bundle) {
    b.eventId == None && b.kind == Ordinary
  }

  /** The handled events that have an id. */
  function Identified(handled: seq<Bundle>): seq<Bundle> {
    if handled == [] then []
    else
      var last := |handled| - 1;
      Identified(handled[..last]) + (if Passing(handled[last]) then [] else [handled[last]])
  }

  lemma {:induction false} IdentifiedAppend(handled: seq<Bundle>, b: Bundle)
    ensures Identified(handled + [b]) == Identified(handled) + (if Passing(b) then [] else [b])
  {
    assert (handled + [b])[..|handled|] == handled;
  }

  /**
    The stream replays the log from event `a` on, up to where it stops; events without an id and undecodable lines
    may stand anywhere.
   */
  predicate Replays(log: seq<nat>, a: nat, incarnation: nat, lines: seq<Line>)
    decreases |lines|
  {
    lines == [] ||
    match lines[0]
    case Comment => Replays(log, a, incarnation, lines[1..])
    case Undecodable => true
    case Data(b) =>
      if Passing(b) then Replays(log, a, incarnation, lines[1..])
      else a < |log| && b == Id(log, a, incarnation) && Replays(log, a + 1, incarnation, lines[1..])
  }

  /** The connection ends because the task was cancelled while the handler took an event with an id. */
  predicate CutShort(s: State, lines: seq<Line>, replies: seq<Reply>)
    requires |replies| == |lines|
    decreases |lines|
  {
    lines != [] && replies[0].Answer? &&
    match lines[0]
    case Comment => CutShort(s, lines[1..], replies[1..])
    case Undecodable => false
    case Data(b) =>
      if !ShouldProcess(b, s.last, s.incarnation) then CutShort(s, lines[1..], replies[1..])
      else if !replies[0].processed then false
      else if replies[0].cancelled then !Passing(b)
      else CutShort(Take(s, b, false), lines[1..], replies[1..])
  }

  /** A connection is cut short only by a handler that succeeds while the task is cancelled. */
  lemma {:induction false} UncancelledIsNotCutShort(s: State, lines: seq<Line>, replies: seq<Reply>)
    requires |replies| == |lines|
    requires forall i :: 0 <= i < |replies| && replies[i].Answer? ==> !(replies[i].processed && replies[i].cancelled)
    ensures !CutShort(s, lines, replies)
    decreases |lines|
  {
    if lines != [] && replies[0].Answer? && !lines[0].Undecodable? {
      if lines[0].Data? && ShouldProcess(lines[0].bundle, s.last, s.incarnation) {
        UncancelledIsNotCutShort(Take(s, lines[0].bundle, false), lines[1..], replies[1..]);
      } else {
        UncancelledIsNotCutShort(s, lines[1..], replies[1..]);
      }
    }
  }

  /** Exactly the first `k` events of the log were handled since `earlier`, and the cursor stands after them. */
  predicate Synced(s: State, log: seq<nat>, k: nat, incarnation: nat, earlier: seq<Bundle>) {
    && k <= |log|
    && Identified(s.handled) == earlier + Events(log, k, incarnation)
    && (if k == 0 then s.last == None || s.incarnation != Some(incarnation)
        else s.last == Some(log[k - 1]) && s.incarnation == Some(incarnation))
  }

  lemma {:induction false} TakeNext(s: State, log: seq<nat>, k: nat, incarnation: nat, earlier: seq<Bundle>)
    requires Increasing(log) && k < |log| && Synced(s, log, k, incarnation, earlier)
    ensures ShouldProcess(Id(log, k, incarnation), s.last, s.incarnation)
    ensures Synced(Take(s, Id(log, k, incarnation), false), log, k + 1, incarnation, earlier)
  {
    IdentifiedAppend(s.handled, Id(log, k, incarnation));
    assert earlier + Events(log, k + 1, incarnation) ==
      earlier + Events(log, k, incarnation) + [Id(log, k, incarnation)];
  }

  lemma {:induction false} TakePassing(s: State, b: Bundle, log: seq<nat>, k: nat, incarnation: nat,
      earlier: seq<Bundle>)
    requires Passing(b) && Synced(s, log, k, incarnation, earlier)
    ensures Synced(Take(s, b, false), log, k, incarnation, earlier)
  {
    IdentifiedAppend(s.handled, b);
  }

  lemma {:induction false} SkipHandled(s: State, log: seq<nat>, k: nat, incarnation: nat, earlier: seq<Bundle>, a: nat)
    requires Increasing(log) && Synced(s, log, k, incarnation, earlier) && a < k
    ensures !ShouldProcess(Id(log, a, incarnation), s.last, s.incarnation)
  {
  }

  /**
    A connection that replays from no later than the next event takes the handled events further along the log, in
    order, each once.
   */
  lemma {:induction false} ConnectionKeeps(s: State, log: seq<nat>, k: nat, incarnation: nat, earlier: seq<Bundle>,
      a: nat, lines: seq<Line>, replies: seq<Reply>) returns (k': nat)
    requires Increasing(log) && Synced(s, log, k, incarnation, earlier) && a <= k
    requires |replies| == |lines| && Replays(log, a, incarnation, lines) && !CutShort(s, lines, replies)
    ensures k <= k' && Synced(Receive(s, lines, replies), log, k', incarnation, earlier)
    decreases |lines|
  {
    k' := k;
    if lines != [] && !replies[0].Gone? && !lines[0].Undecodable? {
      if lines[0].Comment? {
        k' := ConnectionKeeps(s, log, k, incarnation, earlier, a, lines[1..], replies[1..]);
      } else if Passing(lines[0].bundle) {
        if replies[0].processed && replies[0].cancelled {
          IdentifiedAppend(s.handled, lines[0].bundle);
        } else if replies[0].processed {
          TakePassing(s, lines[0].bundle, log, k, incarnation, earlier);
          k' := ConnectionKeeps(Take(s, lines[0].bundle, false), log, k, incarnation,
            earlier, a, lines[1..], replies[1..]);
        }
      } else if a < k {
        SkipHandled(s, log, k, incarnation, earlier, a);
        k' := ConnectionKeeps(s, log, k, incarnation, earlier, a + 1, lines[1..], replies[1..]);
      } else {
        TakeNext(s, log, k, incarnation, earlier);
        if replies[0].processed {
          k' := ConnectionKeeps(Take(s, Id(log, k, incarnation), false), log, k + 1, incarnation,
            earlier, a + 1, lines[1..], replies[1..]);
        }
      }
    }
  }

  /** The event at `k` was handled, but the cursor still stands before it. */
  predicate Behind(s: State, log: seq<nat>, k: nat, incarnation: nat, earlier: seq<Bundle>) {
    && k < |log|
    && Identified(s.handled) == earlier + Events(log, k + 1, incarnation)
    && (if k == 0 then s.last == None || s.incarnation != Some(incarnation)
        else s.last == Some(log[k - 1]) && s.incarnation == Some(incarnation))
  }

  lemma {:induction false} BehindIsNotSynced(s: State, log: seq<nat>, k: nat, incarnation: nat,
      earlier: seq<Bundle>, n: nat)
    requires Increasing(log) && Behind(s, log, k, incarnation, earlier)
    ensures !Synced(s, log, n, incarnation, earlier)
  {
    assert k > 0 ==> log[k - 1] < log[k];
    assert n <= |log| ==> |earlier + Events(log, n, incarnation)| == |earlier| + n;
    assert |earlier + Events(log, k + 1, incarnation)| == |earlier| + k + 1;
  }

  lemma {:induction false} CutLeavesBehind(s: State, log: seq<nat>, k: nat, incarnation: nat, earlier: seq<Bundle>)
    requires k < |log| && Synced(s, log, k, incarnation, earlier)
    ensures Behind(Take(s, Id(log, k, incarnation), true), log, k, incarnation, earlier)
  {
    IdentifiedAppend(s.handled, Id(log, k, incarnation));
    assert earlier + Events(log, k + 1, incarnation) ==
      earlier + Events(log, k, incarnation) + [Id(log, k, incarnation)];
  }

  /** A connection cut short leaves the cursor behind the last event it handled. */
  lemma {:induction false} CutConnection(s: State, log: seq<nat>, k: nat, incarnation: nat, earlier: seq<Bundle>,
      a: nat, lines: seq<Line>, replies: seq<Reply>) returns (k': nat)
    requires Increasing(log) && Synced(s, log, k, incarnation, earlier) && a <= k
    requires |replies| == |lines| && Replays(log, a, incarnation, lines) && CutShort(s, lines, replies)
    ensures Behind(Receive(s, lines, replies), log, k', incarnation, earlier)
    decreases |lines|
  {
    if lines[0].Comment? {
      k' := CutConnection(s, log, k, incarnation, earlier, a, lines[1..], replies[1..]);
    } else if Passing(lines[0].bundle) {
      TakePassing(s, lines[0].bundle, log, k, incarnation, earlier);
      k' := CutConnection(Take(s, lines[0].bundle, false), log, k, incarnation, earlier, a, lines[1..], replies[1..]);
    } else if a < k {
      SkipHandled(s, log, k, incarnation, earlier, a);
      k' := CutConnection(s, log, k, incarnation, earlier, a + 1, lines[1..], replies[1..]);
    } else {
      TakeNext(s, log, k, incarnation, earlier);
      if replies[0].cancelled {
        k' := k;
        CutLeavesBehind(s, log, k, incarnation, earlier);
      } else {
        k' := CutConnection(Take(s, Id(log, k, incarnation), false), log, k + 1, incarnation,
          earlier, a + 1, lines[1..], replies[1..]);
      }
    }
  }

  /** A connection: what the server sent, and how each line was met. */
  datatype Connection = Connection(lines: seq<Line>, replies: seq<Reply>)

  predicate Cut(s: State, c: Connection) {
    |c.replies| == |c.lines| && CutShort(s, c.lines, c.replies)
  }

  /** The client after a connection, and after the delays before the next one, which move only `attempts`. */
  ghost predicate Connects(s: State, c: Connection, t: State) {
    |c.replies| == |c.lines| && t.(attempts := 0) == Receive(s, c.lines, c.replies).(attempts := 0)
  }

  /**
    The server resumes by the cursor: it starts no later than after the last event the cursor names, at the start
    when it names none.
   */
  ghost predicate Resumes(s: State, log: seq<nat>, incarnation: nat, lines: seq<Line>) {
    exists a: nat :: Replays(log, a, incarnation, lines) && a <= |log|
      && if s.incarnation == Some(incarnation) && s.last.Some?
           then forall i :: 0 <= i < a ==> log[i] <= s.last.value else a == 0
  }

  /** Any number of connections to one incarnation, each resuming by the cursor the one before it left. */
  ghost predicate Session(states: seq<State>, connections: seq<Connection>, log: seq<nat>, incarnation: nat) {
    && |states| == |connections| + 1 && Increasing(log)
    && (states[0].last == None || states[0].incarnation != Some(incarnation))
    && forall i :: 0 <= i < |connections| ==>
         Connects(states[i], connections[i], states[i + 1]) &&
           Resumes(states[i], log, incarnation, connections[i].lines)
  }

  /**
    Over any number of connections with drops, undecodable lines and refusals, the handled ids are an initial run of
    the log, each once.
   */
  lemma {:induction false} HandledIsInitialRun(states: seq<State>, connections: seq<Connection>, log: seq<nat>,
      incarnation: nat) returns (k: nat)
    requires Session(states, connections, log, incarnation)
    requires forall i :: 0 <= i < |connections| ==> !Cut(states[i], connections[i])
    ensures Synced(states[|connections|], log, k, incarnation, Identified(states[0].handled))
    decreases |connections|
  {
    var n := |connections|;
    if n == 0 {
      k := 0;
      assert Identified(states[0].handled) + Events(log, 0, incarnation) == Identified(states[0].handled);
    } else {
      assert Session(states[..n], connections[..n - 1], log, incarnation);
      var before := HandledIsInitialRun(states[..n], connections[..n - 1], log, incarnation);
      var s, c := states[n - 1], connections[n - 1];
      assert states[..n][n - 1] == s;
      assert Connects(s, c, states[n]);
      var a := ServedInTime(s, log, before, incarnation, Identified(states[0].handled), c.lines);
      k := ConnectionKeeps(s, log, before, incarnation, Identified(states[0].handled), a, c.lines, c.replies);
    }
  }

  /** The log position from which a synced client is served. */
  lemma {:induction false} ServedInTime(s: State, log: seq<nat>, k: nat, incarnation: nat, earlier: seq<Bundle>,
      lines: seq<Line>) returns (a: nat)
    requires Increasing(log) && Synced(s, log, k, incarnation, earlier) && Resumes(s, log, incarnation, lines)
    ensures Replays(log, a, incarnation, lines) && a <= k
  {
    a :| Replays(log, a, incarnation, lines) && a <= |log|
      && if s.incarnation == Some(incarnation) && s.last.Some?
           then forall i :: 0 <= i < a ==> log[i] <= s.last.value else a == 0;
    assert 0 < k < |log| ==> log[k] > log[k - 1];
  }

  ghost predicate InStep(s: State, log: seq<nat>, incarnation: nat, earlier: seq<Bundle>) {
    exists k :: Synced(s, log, k, incarnation, earlier)
  }

  /**
    After every connection the handled ids are an initial run of the log, each once, with the
    cursor after them, if and only if no connection was cut short.
   */
  lemma {:induction false} HandledOnceExactly(states: seq<State>, connections: seq<Connection>, log: seq<nat>,
      incarnation: nat)
    requires Session(states, connections, log, incarnation)
    ensures (forall i :: 0 <= i < |states| ==> InStep(states[i], log, incarnation, Identified(states[0].handled)))
       <==> (forall i :: 0 <= i < |connections| ==> !Cut(states[i], connections[i]))
  {
    var earlier := Identified(states[0].handled);
    if forall i :: 0 <= i < |connections| ==> !Cut(states[i], connections[i]) {
      forall i | 0 <= i < |states| ensures InStep(states[i], log, incarnation, earlier) {
        assert Session(states[..i + 1], connections[..i], log, incarnation);
        var k := HandledIsInitialRun(states[..i + 1], connections[..i], log, incarnation);
        assert states[..i + 1][i] == states[i];
      }
    } else {
      var i :| 0 <= i < |connections| && Cut(states[i], connections[i]);
      if InStep(states[i], log, incarnation, earlier) {
        CutIsOutOfStep(states[i], connections[i], states[i + 1], log, incarnation, earlier);
      }
    }
  }

  lemma {:induction false} CutIsOutOfStep(s: State, c: Connection, t: State, log: seq<nat>, incarnation: nat,
      earlier: seq<Bundle>)
    requires Increasing(log) && InStep(s, log, incarnation, earlier)
    requires Connects(s, c, t) && Resumes(s, log, incarnation, c.lines) && Cut(s, c)
    ensures !InStep(t, log, incarnation, earlier)
  {
    var k :| Synced(s, log, k, incarnation, earlier);
    var a := ServedInTime(s, log, k, incarnation, earlier, c.lines);
    var last := CutConnection(s, log, k, incarnation, earlier, a, c.lines, c.replies);
    assert Behind(t, log, last, incarnation, earlier);
    forall n ensures !Synced(t, log, n, incarnation, earlier) {
      BehindIsNotSynced(t, log, last, incarnation, earlier, n);
    }
  }

  /** A server that restarts with a new incarnation is read from the start of its own log. */
  lemma {:induction false} RestartStartsAfresh(s: State, log: seq<nat>, k: nat, incarnation: nat,
      earlier: seq<Bundle>, next: seq<nat>, other: nat)
    requires Synced(s, log, k, incarnation, earlier) && incarnation != other && k > 0
    ensures Synced(s, next, 0, other, Identified(s.handled))
  {
    assert Identified(s.handled) + Events(next, 0, other) == Identified(s.handled);
  }

  /** A connection without refusals or undecodable lines catches up with all it replays. */
  lemma {:induction false} CleanConnectionCatchesUp(s: State, log: seq<nat>, k: nat, incarnation: nat,
      earlier: seq<Bundle>, a: nat, b: nat, replies: seq<Reply>)
    requires Increasing(log) && Synced(s, log, k, incarnation, earlier) && a <= k <= b <= |log|
    requires |replies| == b - a && forall i :: 0 <= i < |replies| ==> replies[i] == Answer(true, false)
    ensures Synced(Receive(s, Lines(log, a, b, incarnation), replies), log, b, incarnation, earlier)
    decreases b - a
  {
    var lines := Lines(log, a, b, incarnation);
    if a < b {
      assert lines[1..] == Lines(log, a + 1, b, incarnation);
      if a < k {
        SkipHandled(s, log, k, incarnation, earlier, a);
        CleanConnectionCatchesUp(s, log, k, incarnation, earlier, a + 1, b, replies[1..]);
      } else {
        TakeNext(s, log, k, incarnation, earlier);
        CleanConnectionCatchesUp(Take(s, Id(log, k, incarnation), false), log, k + 1, incarnation,
          earlier, a + 1, b, replies[1..]);
      }
    }
  }

  function Lines(log: seq<nat>, a: nat, b: nat, incarnation: nat): (r: seq<Line>)
    requires a <= b <= |log|
    ensures |r| == b - a && forall i :: 0 <= i < |r| ==> r[i] == Data(Id(log, a + i, incarnation))
  {
    seq(b - a, i requires 0 <= i < b - a => Data(Id(log, a + i, incarnation)))
  }

  /** A client whose cursor was left behind handles the last event again when it comes with the next connection. */
  lemma {:induction false} CancellationHandlesTwice(s: State, log: seq<nat>, k: nat, incarnation: nat,
      earlier: seq<Bundle>, more: seq<Line>, replies: seq<Reply>)
    requires Increasing(log) && Behind(s, log, k, incarnation, earlier) && |replies| == |more|
    ensures var e := Id(log, k, incarnation);
      earlier + Events(log, k + 1, incarnation) + [e] <=
      Identified(Receive(s, [Data(e)] + more, [Answer(true, false)] + replies).handled)
  {
    var e := Id(log, k, incarnation);
    assert ([Data(e)] + more)[1..] == more && ([Answer(true, false)] + replies)[1..] == replies;
    assert k > 0 ==> log[k - 1] < log[k];
    var t := Take(s, e, false);
    IdentifiedAppend(s.handled, e);
    HandledGrows(t, more, replies);
  }

  lemma {:induction false} TakeGrows(s: State, b: Bundle, cancelled: bool)
    ensures Take(s, b, cancelled).handled == s.handled + [b]
    ensures Identified(s.handled) <= Identified(Take(s, b, cancelled).handled)
  {
    IdentifiedAppend(s.handled, b);
  }

  lemma {:induction false} HandledGrows(s: State, lines: seq<Line>, replies: seq<Reply>)
    requires |replies| == |lines|
    ensures Identified(s.handled) <= Identified(Receive(s, lines, replies).handled)
    decreases |lines|
  {
    if lines != [] && replies[0].Answer? && !lines[0].Undecodable? {
      if lines[0].Data? && ShouldProcess(lines[0].bundle, s.last, s.incarnation) {
        TakeGrows(s, lines[0].bundle, replies[0].cancelled);
        if replies[0].processed && !replies[0].cancelled {
          HandledGrows(Take(s, lines[0].bundle, false), lines[1..], replies[1..]);
        }
      } else {
        HandledGrows(s, lines[1..], replies[1..]);
      }
    }
  }

  // ---------------------------------------------------------------- delays

  function Power(n: nat): nat {
    if n == 0 then 1 else 2 * Power(n - 1)
  }

  /** No delay at first, then half a second doubling up to fifteen seconds, in half seconds. */
  function Delay(attempts: nat): nat {
    if attempts <= 1 then 0 else if Power(attempts - 2) < 30 then Power(attempts - 2) else 30
  }

  lemma {:induction false} PowerGrows(m: nat, n: nat)
    requires m <= n
    ensures 0 < Power(m) <= Power(n)
  {
    if m < n {
      PowerGrows(m, n - 1);
    } else if m > 0 {
      PowerGrows(m - 1, m - 1);
    }
  }

  /** Delays never shrink while no event is acknowledged, and never exceed fifteen seconds. */
  lemma {:induction false} DelaysGrow(m: nat, n: nat)
    requires m <= n
    ensures Delay(m) <= Delay(n) <= 30
  {
    if m >= 2 {
      PowerGrows(m - 2, n - 2);
    }
  }

  // ---------------------------------------------------------------- markers

  /**
    A snapshot marker moves the cursor to the place it names: of its incarnation just the events after
    that place are processed.
   */
  lemma {:induction false} SnapshotResumes(s: State, incarnation: nat, resumeAfter: Option<nat>, id: nat)
    ensures var t := Acknowledge(s, Bundle(None, Some(incarnation), Snapshot(resumeAfter)));
      && (ShouldProcess(Bundle(Some(id), Some(incarnation), Ordinary), t.last, t.incarnation) <==>
           resumeAfter == None || id > resumeAfter.value)
      && t.handled == s.handled && t.attempts == s.attempts
  {
  }
}
