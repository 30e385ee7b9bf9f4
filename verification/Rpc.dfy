/**
  The bookkeeping of `JsonlRpc` in BoBeAgent/src/rpc.ts: callback ids and their settlement,
  accepted requests and their answers, the bounded output queue, and the one-shot finish.

  A step is the code that runs between two suspension points. The logs `issued`, `settled`,
  `accepted`, `answered`, `lines` and `handed` record what callers and the output saw.
  `flush` is the number of lines the closing flush waits for, or -1 before it starts: lines
  queued while it waits are not waited for.
 */
module Rpc {

  const MAX_LINE_BYTES: nat := 16 * 1024 * 1024
  const MAX_QUEUED_WRITES: nat := 1024
  const MAX_PENDING: nat := 256
  const MIN_SAFE_INTEGER: int := -9007199254740991

  datatype Message = Asks(id: int) | Answers(id: int) | Notes

  /** An output line and its length, newline included. */
  datatype Line = Line(message: Message, bytes: nat)

  datatype State = State(
    nextId: int,
    callbacks: seq<int>,  // a Map in insertion order
    lastRequest: int,
    handlers: set<int>,
    queuedWrites: int,
    queuedBytes: int,
    ending: bool,
    closed: bool,
    failed: bool,  // a terminal error is recorded
    broken: bool,  // the chain of writes is rejected
    issued: seq<int>,
    settled: seq<int>,
    accepted: seq<int>,
    answered: seq<int>,
    lines: seq<Line>,
    written: nat,  // lines whose place in the chain has settled
    delivered: nat,  // lines whose write succeeded
    flush: int,
    handed: seq<Line>)

  datatype Step =
    | Call(bytes: nat)
    | Reply(id: int)
    | Request(id: int)
    | Answer(id: int, bytes: nat, fault: bool, shutdown: bool)
    | Notify(bytes: nat)
    | Write
    | Written(ok: bool)
    | Skip
    | Fail
    | InputEnds
    | Flush
    | Close(clean: bool)

  const START: State := State(-1, [], 0, {}, 0, 0, false, false, false, false, [], [], [], [], [], 0, 0, -1, [])

  // ---------------------------------------------------------------- operations

  /** The synchronous part of `finish`: only the first call does anything. */
  function Finish(s: State): State {
    if s.ending then s else s.(ending := true, settled := s.settled + s.callbacks, callbacks := [])
  }

  function Terminate(s: State): State {
    Finish(s.(failed := true))
  }

  predicate Fits(s: State, line: Line) {
    s.queuedWrites < MAX_QUEUED_WRITES && s.queuedBytes + line.bytes <= 2 * MAX_LINE_BYTES
  }

  predicate Accepts(s: State, line: Line) {
    line.bytes - 1 <= MAX_LINE_BYTES && !s.closed && Fits(s, line)
  }

  function Enqueue(s: State, line: Line): State {
    if line.bytes - 1 > MAX_LINE_BYTES || s.closed then s
    else if !Fits(s, line) then Terminate(s)
    else s.(queuedWrites := s.queuedWrites + 1, queuedBytes := s.queuedBytes + line.bytes, lines := s.lines + [line])
  }

  function Remove(q: seq<int>, id: int): (r: seq<int>)
    ensures forall x :: x in r ==> x in q && x != id
    ensures forall x :: x in q && x != id ==> x in r
    ensures |r| <= |q|
  {
    if q == [] then [] else if q[0] == id then Remove(q[1..], id) else [q[0]] + Remove(q[1..], id)
  }

  function SettleCallback(s: State, id: int): State {
    s.(callbacks := Remove(s.callbacks, id), settled := s.settled + [id])
  }

  /** The next id is taken and its caller waits. */
  function Issue(s: State): State {
    s.(nextId := s.nextId - 1, callbacks := s.callbacks + [s.nextId], issued := s.issued + [s.nextId])
  }

  /** The request line of the id just issued is queued, or its caller is refused. */
  function SendCall(s: State, id: int, bytes: nat): State {
    var line := Line(Asks(id), bytes);
    var r := Enqueue(s, line);
    if !Accepts(s, line) && id in r.callbacks then SettleCallback(r, id) else r
  }

  function DoCall(s: State, bytes: nat): State {
    if s.closed || s.ending || |s.callbacks| >= MAX_PENDING then s
    else if s.nextId < MIN_SAFE_INTEGER then s.(nextId := s.nextId - 1)
    else SendCall(Issue(s), s.nextId, bytes)
  }

  function DoReply(s: State, id: int): State {
    if id in s.callbacks then SettleCallback(s, id) else Terminate(s)
  }

  function DoRequest(s: State, id: int): State {
    if s.ending || id <= s.lastRequest || |s.handlers| >= MAX_PENDING then Terminate(s)
    else s.(lastRequest := id, handlers := s.handlers + {id}, accepted := s.accepted + [id])
  }

  function DoAnswer(s: State, id: int, bytes: nat, fault: bool, shutdown: bool): State {
    var line := Line(Answers(id), bytes);
    var r := Enqueue(s, line).(handlers := s.handlers - {id});
    if !Accepts(s, line) then Terminate(r)
    else
      var a := r.(answered := s.answered + [id]);
      var t := if fault then Terminate(a) else a;
      if shutdown then Finish(t) else t
  }

  /** One place in the chain of writes settles. */
  function SettleLine(s: State): State
    requires s.written < |s.lines|
  {
    s.(written := s.written + 1, queuedWrites := s.queuedWrites - 1,
       queuedBytes := s.queuedBytes - s.lines[s.written].bytes)
  }

  /** The oldest unsettled line was written, or its write failed and every later one fails with it. */
  function DoWritten(s: State, ok: bool): State
    requires s.written < |s.lines|
  {
    if ok then SettleLine(s).(delivered := s.delivered + 1) else Terminate(SettleLine(s).(broken := true))
  }

  predicate Enabled(s: State, step: Step) {
    match step
    case Call(_) => true
    case Reply(_) => !s.closed
    case Request(id) => !s.closed
    case Answer(id, _, _, _) => id in s.handlers
    case Notify(_) => true
    case Write => !s.broken && |s.handed| == s.written < |s.lines|
    case Written(_) => !s.broken && |s.handed| == s.written + 1 <= |s.lines|
    case Skip => s.broken && s.written < |s.lines|
    case Fail => true
    case InputEnds => !s.closed
    case Flush => s.ending && !s.closed && s.handlers == {} && s.flush < 0
    case Close(clean) => s.ending && !s.closed && (clean ==> 0 <= s.flush <= s.delivered)
  }

  function Apply(s: State, step: Step): State
    requires Enabled(s, step)
  {
    match step
    case Call(bytes) => DoCall(s, bytes)
    case Reply(id) => DoReply(s, id)
    case Request(id) => DoRequest(s, id)
    case Answer(id, bytes, fault, shutdown) => DoAnswer(s, id, bytes, fault, shutdown)
    case Notify(bytes) => Enqueue(s, Line(Notes, bytes))
    case Write => s.(handed := s.handed + [s.lines[s.written]])
    case Written(ok) => DoWritten(s, ok)
    case Skip => Terminate(SettleLine(s))
    case Fail => Terminate(s)
    case InputEnds => Finish(s)
    case Flush => s.(flush := |s.lines|)
    case Close(clean) => s.(closed := true, failed := s.failed || !clean)
  }

  // ---------------------------------------------------------------- invariant

  function TotalBytes(lines: seq<Line>): nat {
    if lines == [] then 0 else lines[0].bytes + TotalBytes(lines[1..])
  }

  predicate Distinct(q: seq<int>) {
    forall i, j :: 0 <= i < j < |q| ==> q[i] != q[j]
  }

  /** The counters are those of the unsettled lines, within the limits, and the output saw a prefix. */
  ghost predicate OutputOk(s: State) {
    && s.written <= |s.lines|
    && s.queuedWrites == |s.lines| - s.written <= MAX_QUEUED_WRITES
    && s.queuedBytes == TotalBytes(s.lines[s.written..]) <= 2 * MAX_LINE_BYTES
    && s.handed <= s.lines
    && s.delivered <= |s.handed|
    && (if s.broken then |s.handed| <= s.written else s.delivered == s.written <= |s.handed| <= s.written + 1)
    && (s.broken ==> s.ending && s.failed)
  }

  /** Every id issued so far waits or is settled, once; after the end none waits. */
  ghost predicate CallbacksOk(s: State) {
    && s.nextId < 0
    && Distinct(s.callbacks + s.settled)
    && (forall id :: id in s.callbacks + s.settled <==> s.nextId < id < 0 && MIN_SAFE_INTEGER <= id)
    && (forall i, j :: 0 <= i < j < |s.issued| ==> s.issued[i] > s.issued[j])
    && (forall id :: id in s.issued <==> s.nextId < id < 0 && MIN_SAFE_INTEGER <= id)
    && (s.ending ==> s.callbacks == [])
  }

  predicate AnswerAt(lines: seq<Line>, k: int, id: int) {
    0 <= k < |lines| && lines[k].message == Answers(id)
  }

  /** The answer of every answered request is one line, and the flush waits for all of them. */
  ghost predicate AnswersOk(s: State) {
    && (forall id :: id in s.answered ==> exists k :: AnswerAt(s.lines, k, id))
    && (forall k, id :: AnswerAt(s.lines, k, id) ==> id in s.answered)
    && (forall j, k, id :: AnswerAt(s.lines, j, id) && AnswerAt(s.lines, k, id) ==> j == k)
    && (0 <= s.flush ==> s.ending && s.handlers == {} && s.flush <= |s.lines|)
    && (0 <= s.flush ==> forall k, id :: AnswerAt(s.lines, k, id) ==> k < s.flush)
    && (s.closed && !s.failed ==> 0 <= s.flush <= s.delivered)
  }

  predicate AskAt(lines: seq<Line>, k: int, id: int) {
    0 <= k < |lines| && lines[k].message == Asks(id)
  }

  /** Every caller that waits was asked for in one line, and every such line is that of an id issued. */
  ghost predicate AsksOk(s: State) {
    && (forall id :: id in s.callbacks ==> exists k :: AskAt(s.lines, k, id))
    && (forall k, id :: AskAt(s.lines, k, id) ==> id in s.issued)
    && (forall j, k, id :: AskAt(s.lines, j, id) && AskAt(s.lines, k, id) ==> j == k)
  }

  /** Request ids rise; each is running, answered once, or lost to a recorded failure. */
  ghost predicate RequestsOk(s: State) {
    && s.lastRequest == (if s.accepted == [] then 0 else s.accepted[|s.accepted| - 1])
    && (forall i, j :: 0 <= i < j < |s.accepted| ==> s.accepted[i] < s.accepted[j])
    && (forall id :: id in s.accepted ==> id <= s.lastRequest)
    && Distinct(s.answered)
    && (forall id :: id in s.answered ==> id in s.accepted && id !in s.handlers)
    && (forall id :: id in s.handlers ==> id in s.accepted)
    && (!s.failed ==> forall id :: id in s.accepted ==> id in s.handlers || id in s.answered)
    && (s.failed ==> s.ending)
  }

  /** All but the request lines: while a call is made its caller waits before the line is queued. */
  ghost predicate Books(s: State) {
    OutputOk(s) && CallbacksOk(s) && RequestsOk(s) && AnswersOk(s) && (s.closed ==> s.ending)
  }

  ghost predicate Inv(s: State) {
    Books(s) && AsksOk(s)
  }

  // ---------------------------------------------------------------- pieces

  lemma {:induction false} TotalAppend(lines: seq<Line>, line: Line)
    ensures TotalBytes(lines + [line]) == TotalBytes(lines) + line.bytes
  {
    if lines == [] {
      assert [] + [line] == [line] && [line][1..] == [];
    } else {
      assert (lines + [line])[1..] == lines[1..] + [line];
      TotalAppend(lines[1..], line);
    }
  }

  lemma {:induction false} FinishKeeps(s: State)
    requires Books(s)
    ensures Books(Finish(s)) && Finish(s).ending
  {
    if !s.ending {
      assert forall id :: id in [] + (s.settled + s.callbacks) <==> id in s.callbacks + s.settled;
      DistinctSwap(s.callbacks, s.settled);
      assert [] + (s.settled + s.callbacks) == s.settled + s.callbacks;
    }
  }

  lemma {:induction false} DistinctSwap(a: seq<int>, b: seq<int>)
    requires Distinct(a + b)
    ensures Distinct(b + a)
  {
    forall i, j | 0 <= i < j < |b + a| ensures (b + a)[i] != (b + a)[j] {
      var i' := if i < |b| then i + |a| else i - |b|;
      var j' := if j < |b| then j + |a| else j - |b|;
      assert (a + b)[i'] == (b + a)[i] && (a + b)[j'] == (b + a)[j];
    }
  }

  lemma {:induction false} TerminateKeeps(s: State)
    requires OutputOk(s) || (s.broken && OutputOk(s.(ending := true, failed := true)))
    requires CallbacksOk(s) && (s.closed ==> s.ending)
    requires RequestsOk(s.(failed := true, ending := true)) && AnswersOk(s.(failed := true, ending := true))
    ensures Books(Terminate(s)) && Terminate(s).ending
  {
    if !s.ending {
      assert forall id :: id in [] + (s.settled + s.callbacks) <==> id in s.callbacks + s.settled;
      DistinctSwap(s.callbacks, s.settled);
      assert [] + (s.settled + s.callbacks) == s.settled + s.callbacks;
    }
  }

  lemma {:induction false} EnqueueOutput(s: State, line: Line)
    requires OutputOk(s) && Accepts(s, line)
    ensures OutputOk(Enqueue(s, line))
  {
    var r := Enqueue(s, line);
    assert r.lines[s.written..] == s.lines[s.written..] + [line];
    TotalAppend(s.lines[s.written..], line);
  }

  lemma {:induction false} AppendOther(s: State, line: Line)
    requires AnswersOk(s) && !line.message.Answers?
    ensures AnswersOk(s.(lines := s.lines + [line]))
  {
    var lines := s.lines + [line];
    assert forall k, id :: AnswerAt(lines, k, id) <==> AnswerAt(s.lines, k, id);
  }

  lemma {:induction false} AppendAnswer(s: State, id: int, bytes: nat)
    requires AnswersOk(s) && s.flush < 0 && !s.closed && id !in s.answered
    ensures AnswersOk(s.(lines := s.lines + [Line(Answers(id), bytes)], answered := s.answered + [id]))
  {
    var lines := s.lines + [Line(Answers(id), bytes)];
    assert forall k, x :: AnswerAt(lines, k, x) <==> AnswerAt(s.lines, k, x) || (k == |s.lines| && x == id);
    assert AnswerAt(lines, |s.lines|, id);
    forall x | x in s.answered ensures exists k :: AnswerAt(lines, k, x) {
      var k :| AnswerAt(s.lines, k, x);
      assert AnswerAt(lines, k, x);
    }
  }

  lemma {:induction false} EnqueueKeeps(s: State, line: Line)
    requires Books(s) && !line.message.Answers?
    ensures Books(Enqueue(s, line))
  {
    if Accepts(s, line) {
      EnqueueOutput(s, line);
      AppendOther(s, line);
    } else if line.bytes - 1 <= MAX_LINE_BYTES && !s.closed {
      TerminateKeeps(s);
    }
  }

  lemma {:induction false} SettleLineKeeps(s: State)
    requires OutputOk(s) && s.written < |s.lines|
    ensures var r := SettleLine(s);
      && r.queuedWrites == |r.lines| - r.written && r.queuedBytes == TotalBytes(r.lines[r.written..])
      && r.queuedBytes <= s.queuedBytes
  {
    assert s.lines[s.written..][1..] == s.lines[s.written + 1..];
  }

  // ---------------------------------------------------------------- callbacks

  lemma {:induction false} DistinctAppend(q: seq<int>, x: int)
    requires Distinct(q) && x !in q
    ensures Distinct(q + [x]) && Distinct([x] + q)
  {
  }

  lemma {:induction false} DistinctParts(a: seq<int>, b: seq<int>)
    requires Distinct(a + b)
    ensures Distinct(a) && Distinct(b) && forall x :: x in a ==> x !in b
  {
    assert forall i :: 0 <= i < |a| ==> (a + b)[i] == a[i];
    assert forall i :: 0 <= i < |b| ==> (a + b)[|a| + i] == b[i];
  }

  lemma {:induction false} DistinctJoin(a: seq<int>, b: seq<int>)
    requires Distinct(a) && Distinct(b) && forall x :: x in a ==> x !in b
    ensures Distinct(a + b)
  {
    forall i, j | 0 <= i < j < |a + b| ensures (a + b)[i] != (a + b)[j] {
      if i < |a| <= j {
        assert (a + b)[i] == a[i] && (a + b)[j] == b[j - |a|];
        assert a[i] in a && b[j - |a|] in b;
      }
    }
  }

  lemma {:induction false} RemoveDistinct(q: seq<int>, id: int)
    requires Distinct(q)
    ensures Distinct(Remove(q, id))
  {
    if q != [] {
      assert forall j :: 0 <= j < |q| - 1 ==> q[1..][j] == q[j + 1];
      RemoveDistinct(q[1..], id);
      if q[0] != id {
        assert q[0] !in q[1..];
        DistinctAppend(Remove(q[1..], id), q[0]);
      }
    }
  }

  lemma {:induction false} SettleKeeps(s: State, id: int)
    requires CallbacksOk(s) && id in s.callbacks
    ensures CallbacksOk(SettleCallback(s, id))
  {
    var r := SettleCallback(s, id);
    DistinctParts(s.callbacks, s.settled);
    RemoveDistinct(s.callbacks, id);
    DistinctAppend(s.settled, id);
    DistinctJoin(r.callbacks, r.settled);
    assert forall x :: x in r.callbacks + r.settled <==> x in s.callbacks + s.settled;
  }

  /** Issuing the next id keeps the ledger of ids exact. */
  lemma {:induction false} IssueKeeps(s: State)
    requires CallbacksOk(s) && !s.ending && MIN_SAFE_INTEGER <= s.nextId
    ensures CallbacksOk(Issue(s))
  {
    var r := Issue(s);
    DistinctParts(s.callbacks, s.settled);
    assert s.nextId !in s.callbacks + s.settled;
    DistinctAppend(s.callbacks, s.nextId);
    DistinctJoin(r.callbacks, r.settled);
    assert forall x :: x in r.callbacks + r.settled <==> x in s.callbacks + s.settled || x == s.nextId;
    assert forall x :: x in r.issued <==> x in s.issued || x == s.nextId;
    assert forall i :: 0 <= i < |s.issued| ==> s.issued[i] in s.issued;
  }

  lemma {:induction false} SendCallKeeps(s: State, id: int, bytes: nat)
    requires Books(s)
    ensures Books(SendCall(s, id, bytes))
  {
    var line := Line(Asks(id), bytes);
    EnqueueKeeps(s, line);
    if !Accepts(s, line) && id in Enqueue(s, line).callbacks {
      SettleKeeps(Enqueue(s, line), id);
    }
  }

  lemma {:induction false} CallKeeps(s: State, bytes: nat)
    requires Books(s)
    ensures Books(DoCall(s, bytes))
  {
    if !(s.closed || s.ending || |s.callbacks| >= MAX_PENDING || s.nextId < MIN_SAFE_INTEGER) {
      IssueKeeps(s);
      assert Books(Issue(s));
      SendCallKeeps(Issue(s), s.nextId, bytes);
    }
  }

  // ---------------------------------------------------------------- requests

  lemma {:induction false} RequestKeeps(s: State, id: int)
    requires Books(s)
    ensures Books(DoRequest(s, id))
  {
    if s.ending || id <= s.lastRequest || |s.handlers| >= MAX_PENDING {
      TerminateKeeps(s);
    } else {
      assert forall i :: 0 <= i < |s.accepted| ==> s.accepted[i] in s.accepted;
      assert forall x :: x in s.accepted + [id] <==> x in s.accepted || x == id;
    }
  }

  lemma {:induction false} AnswerRecords(s: State, id: int)
    requires RequestsOk(s) && id in s.handlers
    ensures RequestsOk(s.(handlers := s.handlers - {id}, answered := s.answered + [id]))
    ensures RequestsOk(s.(handlers := s.handlers - {id}, failed := true, ending := true))
  {
    DistinctAppend(s.answered, id);
    assert forall x :: x in s.answered + [id] <==> x in s.answered || x == id;
  }

  lemma {:induction false} RefusedAnswerKeeps(s: State, id: int, line: Line)
    requires Books(s) && id in s.handlers && !Accepts(s, line)
    ensures Books(Terminate(Enqueue(s, line).(handlers := s.handlers - {id})))
  {
    if line.bytes - 1 <= MAX_LINE_BYTES && !s.closed {
      TerminateKeeps(s);
    }
    var e := Enqueue(s, line);
    AnswerRecords(e, id);
    TerminateKeeps(e.(handlers := s.handlers - {id}));
  }

  lemma {:induction false} AcceptedAnswerKeeps(s: State, id: int, bytes: nat)
    requires Books(s) && id in s.handlers && Accepts(s, Line(Answers(id), bytes))
    ensures Books(Enqueue(s, Line(Answers(id), bytes)).(handlers := s.handlers - {id}, answered := s.answered + [id]))
  {
    EnqueueOutput(s, Line(Answers(id), bytes));
    AppendAnswer(s, id, bytes);
    AnswerRecords(s, id);
  }

  lemma {:induction false} AnswerKeeps(s: State, id: int, bytes: nat, fault: bool, shutdown: bool)
    requires Books(s) && id in s.handlers
    ensures Books(DoAnswer(s, id, bytes, fault, shutdown))
  {
    var line := Line(Answers(id), bytes);
    if !Accepts(s, line) {
      RefusedAnswerKeeps(s, id, line);
    } else {
      AcceptedAnswerKeeps(s, id, bytes);
      var a := Enqueue(s, line).(handlers := s.handlers - {id}, answered := s.answered + [id]);
      if fault { TerminateKeeps(a); }
      var t := if fault then Terminate(a) else a;
      if shutdown { FinishKeeps(t); }
    }
  }

  // ---------------------------------------------------------------- the books

  lemma {:induction false} WrittenKeeps(s: State, ok: bool)
    requires Books(s) && Enabled(s, Written(ok))
    ensures Books(Apply(s, Written(ok)))
  {
    SettleLineKeeps(s);
    if !ok { TerminateKeeps(SettleLine(s).(broken := true)); }
  }

  lemma {:induction false} SkipKeeps(s: State)
    requires Books(s) && Enabled(s, Skip)
    ensures Books(Apply(s, Skip))
  {
    SettleLineKeeps(s);
    TerminateKeeps(SettleLine(s));
  }

  lemma {:induction false} PeerKeeps(s: State, step: Step)
    requires Books(s) && Enabled(s, step)
    requires step.Call? || step.Reply? || step.Request? || step.Answer? || step.Notify?
    ensures Books(Apply(s, step))
  {
    match step
    case Call(bytes) => CallKeeps(s, bytes);
    case Reply(id) => if id in s.callbacks { SettleKeeps(s, id); } else { TerminateKeeps(s); }
    case Request(id) => RequestKeeps(s, id);
    case Answer(id, bytes, fault, shutdown) => AnswerKeeps(s, id, bytes, fault, shutdown);
    case Notify(bytes) => EnqueueKeeps(s, Line(Notes, bytes));
  }

  lemma {:induction false} OutputKeeps(s: State, step: Step)
    requires Books(s) && Enabled(s, step)
    requires !(step.Call? || step.Reply? || step.Request? || step.Answer? || step.Notify?)
    ensures Books(Apply(s, step))
  {
    match step
    case Write =>
    case Written(ok) => WrittenKeeps(s, ok);
    case Skip => SkipKeeps(s);
    case Fail => TerminateKeeps(s);
    case InputEnds => FinishKeeps(s);
    case Flush =>
    case Close(clean) =>
  }

  // ---------------------------------------------------------------- request lines

  /** No caller begins to wait, and no request line is queued. */
  ghost predicate AsksNothing(s: State, t: State) {
    && (t.lines == s.lines ||
        (|t.lines| == |s.lines| + 1 && t.lines[..|s.lines|] == s.lines && !t.lines[|s.lines|].message.Asks?))
    && (forall id :: id in t.callbacks ==> id in s.callbacks)
    && t.issued == s.issued
  }

  lemma {:induction false} AsksStay(s: State, t: State)
    requires AsksOk(s) && AsksNothing(s, t)
    ensures AsksOk(t)
  {
    forall k, id | AskAt(t.lines, k, id) ensures AskAt(s.lines, k, id) {
      if k < |s.lines| { assert t.lines[k] == t.lines[..|s.lines|][k]; }
    }
    forall k, id | AskAt(s.lines, k, id) ensures AskAt(t.lines, k, id) {
      assert t.lines != s.lines ==> t.lines[k] == t.lines[..|s.lines|][k];
    }
    forall id | id in t.callbacks ensures exists k :: AskAt(t.lines, k, id) {
      var k :| AskAt(s.lines, k, id);
      assert AskAt(t.lines, k, id);
    }
  }

  lemma {:induction false} AnswerAsks(s: State, id: int, bytes: nat, fault: bool, shutdown: bool)
    ensures AsksNothing(s, DoAnswer(s, id, bytes, fault, shutdown))
  {
  }

  /** A call that queues its line asks for the new id. */
  lemma {:induction false} AcceptedCallAsks(s: State, bytes: nat)
    requires CallbacksOk(s) && AsksOk(s) && MIN_SAFE_INTEGER <= s.nextId
    requires Accepts(Issue(s), Line(Asks(s.nextId), bytes))
    ensures AsksOk(Enqueue(Issue(s), Line(Asks(s.nextId), bytes)))
  {
    var t := Enqueue(Issue(s), Line(Asks(s.nextId), bytes));
    assert s.nextId !in s.issued;
    assert forall k, id :: AskAt(t.lines, k, id) <==> AskAt(s.lines, k, id) || (k == |s.lines| && id == s.nextId);
    assert AskAt(t.lines, |s.lines|, s.nextId);
    forall id | id in t.callbacks ensures exists k :: AskAt(t.lines, k, id) {
      if id != s.nextId {
        var k :| AskAt(s.lines, k, id);
        assert AskAt(t.lines, k, id);
      }
    }
  }

  lemma {:induction false} CallAsks(s: State, bytes: nat)
    requires CallbacksOk(s) && AsksOk(s)
    ensures AsksOk(DoCall(s, bytes))
  {
    var line := Line(Asks(s.nextId), bytes);
    if !(s.closed || s.ending || |s.callbacks| >= MAX_PENDING || s.nextId < MIN_SAFE_INTEGER) {
      if Accepts(Issue(s), line) { AcceptedCallAsks(s, bytes); }
    }
  }

  lemma {:induction false} AsksKeep(s: State, step: Step)
    requires CallbacksOk(s) && AsksOk(s) && Enabled(s, step)
    ensures AsksOk(Apply(s, step))
  {
    match step
    case Call(bytes) => CallAsks(s, bytes);
    case Answer(id, bytes, fault, shutdown) =>
      AnswerAsks(s, id, bytes, fault, shutdown);
      AsksStay(s, DoAnswer(s, id, bytes, fault, shutdown));
    case _ => AsksStay(s, Apply(s, step));
  }

  // ---------------------------------------------------------------- every step

  lemma {:induction false} StepKeeps(s: State, step: Step)
    requires Inv(s) && Enabled(s, step)
    ensures Inv(Apply(s, step))
  {
    AsksKeep(s, step);
    if step.Call? || step.Reply? || step.Request? || step.Answer? || step.Notify? {
      PeerKeeps(s, step);
    } else {
      OutputKeeps(s, step);
    }
  }

  lemma {:induction false} CallKeepsFlush(s: State, bytes: nat)
    ensures DoCall(s, bytes).flush == s.flush
  {
  }

  lemma {:induction false} AnswerKeepsFlush(s: State, id: int, bytes: nat, fault: bool, shutdown: bool)
    ensures DoAnswer(s, id, bytes, fault, shutdown).flush == s.flush
  {
  }

  /** Only the flush itself moves its mark. */
  lemma {:induction false} FlushMoves(s: State, step: Step)
    requires Enabled(s, step) && !step.Flush?
    ensures Apply(s, step).flush == s.flush
  {
    match step
    case Call(bytes) => CallKeepsFlush(s, bytes);
    case Answer(id, bytes, fault, shutdown) => AnswerKeepsFlush(s, id, bytes, fault, shutdown);
    case _ =>
  }
}
