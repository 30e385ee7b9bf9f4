/**
  When a turn commits (BoBeAgent/src/events.ts), told from the events of the turn alone: which of
  them leave a failure standing, which message was the last, what was streamed of it, and which
  tool calls never ended.
 */
module TurnCommits {
  import opened Common
  import opened Turn
  import ToolBalance

  // ---------------------------------------------------------------- told from the events

  /** The text deltas of the events, in order. */
  function Deltas(es: seq<Event>): seq<string> {
    if es == [] then []
    else
      var last := es[|es| - 1];
      Deltas(es[..|es| - 1]) + if last.TextDelta? then [last.text] else []
  }

  /** The message begun at the index is the one being streamed. */
  ghost predicate Streams(es: seq<Event>, b: nat) {
    b < |es| && es[b].MessageStart? && forall j :: b < j < |es| ==> !es[j].MessageStart? && !es[j].MessageEnd?
  }

  /** Some message is being streamed. */
  ghost predicate Streaming(es: seq<Event>) {
    exists b: nat :: Streams(es, b)
  }

  /** Some text was sent to the person. */
  ghost predicate Shown(es: seq<Event>) {
    var sent := Run(true, es).sent;
    exists k :: 0 <= k < |sent| && sent[k].MessageDelta?
  }

  /** The message does not begin with what was streamed of it. */
  ghost predicate Differs(es: seq<Event>, m: Message) {
    exists b :: Streams(es, b) && !(Join(Deltas(es[b + 1..])) <= Content(m))
  }

  /** The event at the index makes the turn fail. */
  ghost predicate Fails(es: seq<Event>, i: nat)
    requires i < |es|
  {
    match es[i]
    case CompactionEnd(error) => error != ""
    case AutoRetryStart => Shown(es[..i])
    case AutoRetryEnd(success, error) => !success && error != Some("")
    case MessageEnd(m) => m.stop == ToolUse && Content(m) != "" && Differs(es[..i], m)
    case _ => false
  }

  /** The event at the index made the turn fail, and no blank report has taken that back. */
  ghost predicate StandsFrom(es: seq<Event>, i: nat)
  {
    i < |es| && Fails(es, i) && forall j :: i < j < |es| ==> !BlankRetryEnd(es[j])
  }

  /** A failure stands. */
  ghost predicate Stands(es: seq<Event>)
  {
    exists i: nat :: StandsFrom(es, i)
  }

  ghost predicate LastEnd(es: seq<Event>, e: nat) {
    e < |es| && es[e].MessageEnd? && forall j :: e < j < |es| ==> !es[j].MessageEnd?
  }

  /** The call was started and has not ended since. */
  ghost predicate CallOpen(es: seq<Event>, callId: string) {
    exists i :: CallOpenFrom(es, i, callId)
  }

  ghost predicate CallOpenFrom(es: seq<Event>, i: nat, callId: string) {
    i < |es| && es[i].ToolExecutionStart? && es[i].callId == callId &&
    forall j :: i < j < |es| ==> !(es[j].ToolExecutionEnd? && es[j].callId == callId)
  }

  ghost predicate AllCallsEnded(es: seq<Event>) {
    forall callId :: !CallOpen(es, callId)
  }

  // ---------------------------------------------------------------- the message being streamed

  lemma {:induction false} DeltasAppend(es: seq<Event>, e: Event)
    ensures Deltas(es + [e]) == Deltas(es) + if e.TextDelta? then [e.text] else []
  {
    assert (es + [e])[..|es|] == es;
  }

  lemma {:induction false} StreamsAppend(es: seq<Event>, e: Event, b: nat)
    ensures Streams(es + [e], b) <==>
      (e.MessageStart? && b == |es|) || (!e.MessageStart? && !e.MessageEnd? && Streams(es, b))
  {
    var all := es + [e];
    assert all[|es|] == e;
    assert forall j :: 0 <= j < |es| ==> all[j] == es[j];
  }

  /** The state's open message is the one the events stream, with the deltas since its start. */
  ghost predicate CurrentAgrees(es: seq<Event>, s: State) {
    && (forall b :: Streams(es, b) ==> s.current.Some? && s.current.value.chunks == Deltas(es[b + 1..]))
    && (s.current.Some? ==> Streaming(es))
  }

  lemma {:induction false} CurrentStep(s: State, e: Event)
    ensures var c := Step(s, e).current;
      match e
      case MessageStart => c.Some? && c.value.chunks == []
      case TextDelta(text) =>
        c.Some? == s.current.Some? && (c.Some? ==> c.value.chunks == s.current.value.chunks + [text])
      case MessageEnd(_) => c == None
      case _ => c == s.current
  {
  }

  lemma {:induction false} CurrentIs(es: seq<Event>)
    ensures CurrentAgrees(es, Run(true, es))
  {
    if es != [] {
      var front, e := es[..|es| - 1], es[|es| - 1];
      CurrentIs(front);
      CurrentStep(Run(true, front), e);
      assert es == front + [e];
      forall b: nat | Streams(es, b)
        ensures Run(true, es).current.Some? && Run(true, es).current.value.chunks == Deltas(es[b + 1..])
      {
        StreamsAppend(front, e, b);
        if b < |front| {
          assert es[b + 1..] == front[b + 1..] + [e];
          DeltasAppend(front[b + 1..], e);
        } else {
          assert es[b + 1..] == [];
        }
      }
      if Run(true, es).current.Some? {
        if e.MessageStart? {
          StreamsAppend(front, e, |front|);
        } else {
          var b :| Streams(front, b);
          StreamsAppend(front, e, b);
        }
      }
    }
  }

  // ---------------------------------------------------------------- the failure that stands

  lemma {:induction false} FailsPrefix(es: seq<Event>, e: Event, i: nat)
    requires i < |es|
    ensures Fails(es + [e], i) <==> Fails(es, i)
  {
    assert (es + [e])[..i] == es[..i];
  }

  lemma {:induction false} StandsAppend(es: seq<Event>, e: Event)
    ensures Stands(es + [e]) <==> Fails(es + [e], |es|) || (Stands(es) && !BlankRetryEnd(e))
  {
    var all := es + [e];
    assert all[|es|] == e && forall j :: 0 <= j < |es| ==> all[j] == es[j];
    forall i: nat
      ensures StandsFrom(all, i) <==>
        (i == |es| && Fails(all, i)) || (StandsFrom(es, i) && !BlankRetryEnd(e))
    {
      if i < |es| { FailsPrefix(es, e, i); }
    }
    assert Fails(all, |es|) ==> StandsFrom(all, |es|);
  }

  lemma {:induction false} HasTextMeans(blocks: seq<Block>)
    ensures Join(Texts(blocks)) != "" <==> exists i :: 0 <= i < |blocks| && blocks[i].Text? && blocks[i].text != ""
  {
    if blocks != [] {
      var front := blocks[..|blocks| - 1];
      HasTextMeans(front);
      match blocks[|blocks| - 1] {
        case Text(t) => JoinAppend(Texts(front), t);
        case OtherBlock =>
      }
      assert forall i :: 0 <= i < |front| ==> front[i] == blocks[i];
    }
  }

  /** Something was shown exactly when the state remembers it. */
  ghost predicate ShownAgrees(s: State) {
    s.visibleOutput <==> exists k :: 0 <= k < |s.sent| && s.sent[k].MessageDelta?
  }

  lemma {:induction false} CompleteShows(s: State, r: Reply)
    requires s.streams && ShownAgrees(s)
    ensures ShownAgrees(CompleteMessage(s, r))
  {
    var t := CompleteMessage(s, r);
    if t.visibleOutput && !s.visibleOutput {
      assert t.sent[|s.sent|].MessageDelta?;
    }
    assert forall k :: 0 <= k < |s.sent| ==> t.sent[k] == s.sent[k];
  }

  lemma {:induction false} TextShows(s: State, text: string)
    requires s.streams && ShownAgrees(s)
    ensures ShownAgrees(OnTextDelta(s, text))
  {
    var t := OnTextDelta(s, text);
    if t.sent != s.sent { assert t.sent[|s.sent|].MessageDelta?; }
    assert forall k :: 0 <= k < |s.sent| ==> t.sent[k] == s.sent[k];
  }

  lemma {:induction false} EndShows(s: State, m: Message)
    requires s.streams && ShownAgrees(s)
    ensures ShownAgrees(OnMessageEnd(s, m))
  {
    if s.current.Some? {
      var reply := s.current.value.(message := Some(m));
      var r := s.(last := Some(m));
      var kept := if m.stop == Stop then r.(final := Some(reply)) else r;
      CompleteShows(kept, reply);
    }
  }

  lemma {:induction false} OtherShows(s: State, d: Delta)
    requires ShownAgrees(s) && !d.MessageDelta?
    ensures ShownAgrees(Emit(s, d))
  {
    if s.streams {
      var sent := s.sent + [d];
      assert sent[..|s.sent|] == s.sent && sent[|s.sent|] == d;
    }
  }

  lemma {:induction false} ToolShows(s: State, callId: string, name: string, isError: bool)
    requires s.streams && ShownAgrees(s)
    ensures ShownAgrees(OnToolEnd(s, callId, name, isError))
  {
    var i := FindTool(s.openTools, callId);
    var r := s.(completedTools := s.completedTools + 1, failedTools := s.failedTools + (if isError then 1 else 0));
    if i < 0 {
      OtherShows(r.(nextId := s.nextId + 1), ToolComplete(s.nextId, name, !isError));
    } else {
      OtherShows(r.(openTools := s.openTools[..i] + s.openTools[i + 1..]),
                 ToolComplete(s.openTools[i].id, name, !isError));
    }
  }

  lemma {:induction false} StepShows(s: State, e: Event)
    requires s.streams && ShownAgrees(s)
    ensures ShownAgrees(Step(s, e))
  {
    match e
    case TextDelta(text) => TextShows(s, text);
    case MessageEnd(m) => EndShows(s, m);
    case ToolExecutionEnd(callId, name, isError) => ToolShows(s, callId, name, isError);
    case ToolExecutionStart(_, _) =>
      assert Step(s, e).sent[..|s.sent|] == s.sent && !Step(s, e).sent[|s.sent|].MessageDelta?;
    case _ =>
  }

  lemma {:induction false} RunShows(es: seq<Event>)
    ensures ShownAgrees(Run(true, es))
  {
    if es != [] {
      RunShows(es[..|es| - 1]);
      RunStreams(true, es[..|es| - 1]);
      StepShows(Run(true, es[..|es| - 1]), es[|es| - 1]);
    }
  }

  /** A message fails the turn as it ends exactly when it differs from its deltas and nothing has failed before. */
  lemma {:induction false} EndFails(es: seq<Event>, m: Message)
    ensures OnMessageEnd(Run(true, es), m).failure != "" <==>
      Run(true, es).failure != "" || (m.stop == ToolUse && Content(m) != "" && Differs(es, m))
  {
    var s := Run(true, es);
    CurrentIs(es);
    HasTextMeans(m.blocks);
    if s.current.Some? {
      var b :| Streams(es, b);
      assert s.current.value.chunks == Deltas(es[b + 1..]);
    }
  }

  lemma {:induction false} FailureStep(es: seq<Event>, e: Event)
    requires Run(true, es).failure != "" <==> Stands(es)
    ensures Step(Run(true, es), e).failure != "" <==> Stands(es + [e])
  {
    var s, all := Run(true, es), es + [e];
    assert all[..|es|] == es && all[|es|] == e;
    StandsAppend(es, e);
    RunShows(es);
    match e
    case MessageEnd(m) => EndFails(es, m);
    case _ =>
  }

  /** The state has a failure exactly when the events leave one standing. */
  lemma {:induction false} FailureIs(es: seq<Event>)
    ensures Run(true, es).failure != "" <==> Stands(es)
  {
    if es != [] {
      var front := es[..|es| - 1];
      FailureIs(front);
      FailureStep(front, es[|es| - 1]);
      assert front + [es[|es| - 1]] == es;
    }
  }

  // ---------------------------------------------------------------- the last message and the reply to commit

  lemma {:induction false} LastStep(s: State, e: Event)
    ensures Step(s, e).last == if e.MessageEnd? then Some(e.message) else s.last
  {
    if e.MessageEnd? && s.current.Some? {
      var r := s.(last := Some(e.message));
      var reply := s.current.value.(message := Some(e.message));
      CompleteFrame(if e.message.stop == Stop then r.(final := Some(reply)) else r, reply);
    }
  }

  lemma {:induction false} LastEndAppend(es: seq<Event>, e: Event, k: nat)
    ensures LastEnd(es + [e], k) <==> if e.MessageEnd? then k == |es| else LastEnd(es, k)
  {
    var all := es + [e];
    assert all[|es|] == e && forall j :: 0 <= j < |es| ==> all[j] == es[j];
  }

  /** The state remembers the message of the last end. */
  lemma {:induction false} LastIs(es: seq<Event>)
    ensures forall k: nat :: LastEnd(es, k) ==> Run(true, es).last == Some(es[k].message)
    ensures Run(true, es).last.Some? ==> exists k: nat :: LastEnd(es, k)
  {
    if es != [] {
      var front, e := es[..|es| - 1], es[|es| - 1];
      LastIs(front);
      LastStep(Run(true, front), e);
      assert front + [e] == es;
      forall k: nat ensures LastEnd(es, k) <==> if e.MessageEnd? then k == |front| else LastEnd(front, k) {
        LastEndAppend(front, e, k);
      }
      if e.MessageEnd? {
        assert LastEnd(es, |front|);
      } else if Run(true, front).last.Some? {
        var k: nat :| LastEnd(front, k);
        assert LastEnd(es, k);
      }
    }
  }

  /** The event ends, normally, the message being streamed. */
  ghost predicate Stops(es: seq<Event>, e: nat) {
    e < |es| && es[e].MessageEnd? && es[e].message.stop == Stop && Streaming(es[..e])
  }

  /** The message begun at `b` and ended at `e` is to be committed: the last that stopped, and no retry began since. */
  ghost predicate ToCommit(es: seq<Event>, b: nat, e: nat) {
    && Stops(es, e) && Streams(es[..e], b)
    && forall j: nat :: e < j < |es| ==> !es[j].AutoRetryStart? && !Stops(es, j)
  }

  ghost predicate FinalAgrees(es: seq<Event>, final: Option<Reply>) {
    && (forall b: nat, e: nat :: ToCommit(es, b, e) ==>
         final.Some? && final.value.message == Some(es[e].message) && final.value.chunks == Deltas(es[b + 1..e]))
    && (final.Some? ==> exists b: nat, e: nat :: ToCommit(es, b, e))
  }

  lemma {:induction false} FinalStep(s: State, e: Event)
    ensures Step(s, e).final ==
      if e.AutoRetryStart? then None
      else if e.MessageEnd? && e.message.stop == Stop && s.current.Some?
      then Some(s.current.value.(message := Some(e.message)))
      else s.final
  {
    if e.MessageEnd? && s.current.Some? {
      var r := s.(last := Some(e.message));
      var reply := s.current.value.(message := Some(e.message));
      CompleteFrame(if e.message.stop == Stop then r.(final := Some(reply)) else r, reply);
    }
  }

  lemma {:induction false} StopsAppend(es: seq<Event>, x: Event, e: nat)
    ensures Stops(es + [x], e) <==>
      Stops(es, e) || (e == |es| && x.MessageEnd? && x.message.stop == Stop && Streaming(es))
  {
    var all := es + [x];
    assert all[|es|] == x && all[..|es|] == es;
    if e < |es| { assert all[..e] == es[..e] && all[e] == es[e]; }
  }

  lemma {:induction false} ToCommitAppend(es: seq<Event>, x: Event, b: nat, e: nat)
    ensures ToCommit(es + [x], b, e) <==>
      if x.MessageEnd? && x.message.stop == Stop && Streaming(es) then e == |es| && Streams(es, b)
      else !x.AutoRetryStart? && ToCommit(es, b, e)
  {
    var all := es + [x];
    forall j: nat ensures Stops(all, j) <==>
      Stops(es, j) || (j == |es| && x.MessageEnd? && x.message.stop == Stop && Streaming(es))
    {
      StopsAppend(es, x, j);
    }
    assert all[|es|] == x && forall j :: 0 <= j < |es| ==> all[j] == es[j];
    if e <= |es| { assert all[..e] == es[..e]; }
    assert es[..|es|] == es;
  }

  /** A message that stops is the one to commit from now on. */
  lemma {:induction false} FinalEnds(es: seq<Event>, x: Event)
    requires x.MessageEnd? && x.message.stop == Stop && Streaming(es)
    ensures FinalAgrees(es + [x], Step(Run(true, es), x).final)
  {
    var all := es + [x];
    CurrentIs(es);
    FinalStep(Run(true, es), x);
    forall b: nat, e: nat ensures ToCommit(all, b, e) <==> e == |es| && Streams(es, b) {
      ToCommitAppend(es, x, b, e);
    }
    forall b: nat | Streams(es, b) ensures all[b + 1..|es|] == es[b + 1..] {}
    var b: nat :| Streams(es, b);
    assert ToCommit(all, b, |es|);
  }

  lemma {:induction false} FinalStays(es: seq<Event>, x: Event)
    requires FinalAgrees(es, Run(true, es).final)
    requires !(x.MessageEnd? && x.message.stop == Stop && Streaming(es))
    ensures FinalAgrees(es + [x], Step(Run(true, es), x).final)
  {
    var all := es + [x];
    CurrentIs(es);
    FinalStep(Run(true, es), x);
    forall b: nat, e: nat ensures ToCommit(all, b, e) <==> !x.AutoRetryStart? && ToCommit(es, b, e) {
      ToCommitAppend(es, x, b, e);
    }
    forall b: nat, e: nat | ToCommit(es, b, e) ensures all[b + 1..e] == es[b + 1..e] && all[e] == es[e] {}
  }

  /** The state keeps the message to commit, with the deltas between its start and its end. */
  lemma {:induction false} FinalIs(es: seq<Event>)
    ensures FinalAgrees(es, Run(true, es).final)
  {
    if es != [] {
      var front, x := es[..|es| - 1], es[|es| - 1];
      FinalIs(front);
      assert front + [x] == es;
      if x.MessageEnd? && x.message.stop == Stop && Streaming(front) {
        FinalEnds(front, x);
      } else {
        FinalStays(front, x);
      }
    }
  }

  // ---------------------------------------------------------------- the calls that never ended

  lemma {:induction false} CallOpenAppend(es: seq<Event>, e: Event, c: string)
    ensures CallOpen(es + [e], c) <==>
      (e.ToolExecutionStart? && e.callId == c) || (CallOpen(es, c) && !(e.ToolExecutionEnd? && e.callId == c))
  {
    var all := es + [e];
    assert all[|es|] == e && forall j :: 0 <= j < |es| ==> all[j] == es[j];
    forall i: nat
      ensures CallOpenFrom(all, i, c) <==>
        (i == |es| && e.ToolExecutionStart? && e.callId == c) ||
        (CallOpenFrom(es, i, c) && !(e.ToolExecutionEnd? && e.callId == c))
    {
    }
    assert e.ToolExecutionStart? && e.callId == c ==> CallOpenFrom(all, |es|, c);
  }

  predicate Named(tools: seq<OpenTool>, c: string) {
    exists i :: 0 <= i < |tools| && tools[i].callId == c
  }

  lemma {:induction false} PutNames(tools: seq<OpenTool>, tool: OpenTool, c: string)
    ensures Named(PutTool(tools, tool), c) <==> Named(tools, c) || c == tool.callId
  {
    var i, r := FindTool(tools, tool.callId), PutTool(tools, tool);
    assert r[if i < 0 then |tools| else i] == tool;
    assert forall j :: 0 <= j < |tools| && j != i ==> r[j] == tools[j];
  }

  lemma {:induction false} DropNames(tools: seq<OpenTool>, i: nat, c: string)
    requires ToolBalance.Distinct(tools) && i < |tools|
    ensures Named(tools[..i] + tools[i + 1..], c) <==> Named(tools, c) && c != tools[i].callId
  {
    var r := tools[..i] + tools[i + 1..];
    if Named(tools, c) && c != tools[i].callId {
      var j :| 0 <= j < |tools| && tools[j].callId == c;
      assert r[if j < i then j else j - 1] == tools[j];
    }
  }

  lemma {:induction false} ToolsStep(s: State, e: Event, c: string)
    requires ToolBalance.Distinct(s.openTools)
    ensures Named(Step(s, e).openTools, c) <==>
      (e.ToolExecutionStart? && e.callId == c) ||
      (Named(s.openTools, c) && !(e.ToolExecutionEnd? && e.callId == c))
  {
    match e
    case ToolExecutionStart(callId, name) => PutNames(s.openTools, OpenTool(callId, s.nextId, name), c);
    case ToolExecutionEnd(callId, _, _) =>
      var i := FindTool(s.openTools, callId);
      if i >= 0 { DropNames(s.openTools, i, c); }
    case _ => ToolBalance.OtherIsQuiet(s, e);
  }

  /** The open tools of the state are those of the calls that have not ended. */
  lemma {:induction false} ToolsAre(es: seq<Event>, c: string)
    ensures CallOpen(es, c) <==> Named(Run(true, es).openTools, c)
  {
    if es != [] {
      var front, e := es[..|es| - 1], es[|es| - 1];
      ToolsAre(front, c);
      CallOpenAppend(front, e, c);
      ToolBalance.RunLedger(front);
      ToolsStep(Run(true, front), e, c);
      assert front + [e] == es;
    }
  }

  lemma {:induction false} NoToolOpen(es: seq<Event>)
    ensures Run(true, es).openTools == [] <==> AllCallsEnded(es)
  {
    var tools := Run(true, es).openTools;
    forall c ensures CallOpen(es, c) <==> Named(tools, c) { ToolsAre(es, c); }
    if tools != [] { assert Named(tools, tools[0].callId); }
  }

  // ---------------------------------------------------------------- the exact conditions

  /** The message to commit begins with what was streamed of it. */
  ghost predicate Commits(es: seq<Event>, b: nat, e: nat) {
    ToCommit(es, b, e) && Join(Deltas(es[b + 1..e])) <= Content(es[e].message)
  }

  /** The last message ended in this way. */
  ghost predicate LastStopped(es: seq<Event>, stop: StopReason) {
    exists e: nat :: LastEnd(es, e) && es[e].message.stop == stop
  }

  lemma {:induction false} CommitOf(s: State)
    ensures Commit(s).ok <==>
      && s.failure == "" && s.openTools == [] && s.last.Some? && s.last.value.stop == Stop
      && s.final.Some? && s.final.value.message.Some?
      && Join(s.final.value.chunks) <= Content(s.final.value.message.value)
  {
  }

  /**
    A turn commits if and only if no failure stands, every tool call started has ended, its last
    message stopped normally, and the last message that was begun and stopped was not given up for a
    retry and begins with what was streamed of it.
   */
  lemma {:induction false} CommitsExactly(es: seq<Event>)
    ensures Commit(Run(true, es)).ok <==>
      !Stands(es) && AllCallsEnded(es) && LastStopped(es, Stop) && exists b: nat, e: nat :: Commits(es, b, e)
  {
    var s := Run(true, es);
    CommitOf(s);
    FailureIs(es);
    NoToolOpen(es);
    LastIs(es);
    FinalIs(es);
    if s.final.Some? {
      var b: nat, e: nat :| ToCommit(es, b, e);
      assert Commits(es, b, e) <==> Join(s.final.value.chunks) <= Content(s.final.value.message.value);
    }
  }

  /**
    An owner question is accepted if and only if no failure stands, every tool call started has
    ended, and the last message stopped normally or to use a tool.
   */
  lemma {:induction false} OwnerQuestionExactly(es: seq<Event>, prompt: string)
    ensures CommitOwnerQuestion(Run(true, es), prompt).ok <==>
      !Stands(es) && AllCallsEnded(es) && (LastStopped(es, Stop) || LastStopped(es, ToolUse))
  {
    FailureIs(es);
    NoToolOpen(es);
    LastIs(es);
  }

  // ---------------------------------------------------------------- turns that send nothing

  function Mute(s: State): State {
    s.(streams := false, sent := [])
  }

  lemma {:induction false} MuteComplete(s: State, reply: Reply)
    ensures CompleteMessage(Mute(s), reply) == Mute(CompleteMessage(s, reply))
  {
  }

  lemma {:induction false} MuteEnd(s: State, m: Message)
    ensures OnMessageEnd(Mute(s), m) == Mute(OnMessageEnd(s, m))
  {
    if s.current.Some? {
      var reply := s.current.value.(message := Some(m));
      var r := s.(last := Some(m));
      MuteComplete(if m.stop == Stop then r.(final := Some(reply)) else r, reply);
    }
  }

  lemma {:induction false} MuteText(s: State, text: string)
    ensures OnTextDelta(Mute(s), text) == Mute(OnTextDelta(s, text))
  {
  }

  lemma {:induction false} MuteTool(s: State, callId: string, name: string, isError: bool)
    ensures OnToolEnd(Mute(s), callId, name, isError) == Mute(OnToolEnd(s, callId, name, isError))
  {
  }

  /** A turn whose deltas nobody receives goes through the same states. */
  lemma {:induction false} MuteStep(s: State, e: Event)
    ensures Step(Mute(s), e) == Mute(Step(s, e))
  {
    match e
    case TextDelta(text) => MuteText(s, text);
    case MessageEnd(m) => MuteEnd(s, m);
    case ToolExecutionEnd(callId, name, isError) => MuteTool(s, callId, name, isError);
    case _ =>
  }

  lemma {:induction false} SilentRun(es: seq<Event>)
    ensures Run(false, es) == Mute(Run(true, es))
  {
    if es != [] {
      SilentRun(es[..|es| - 1]);
      MuteStep(Run(true, es[..|es| - 1]), es[|es| - 1]);
    }
  }

  /** So it commits in the same cases. */
  lemma {:induction false} SilentCommits(es: seq<Event>)
    ensures Commit(Run(false, es)).ok == Commit(Run(true, es)).ok
    ensures Commit(Run(false, es)).state.sent == []
  {
    SilentRun(es);
    CommitOf(Run(true, es));
    CommitOf(Run(false, es));
  }

  // ---------------------------------------------------------------- what the deltas of a tool say

  predicate HasTool(tools: seq<OpenTool>, callId: string, id: nat, name: string) {
    exists i :: 0 <= i < |tools| && tools[i] == OpenTool(callId, id, name)
  }

  lemma {:induction false} PutHas(tools: seq<OpenTool>, tool: OpenTool, callId: string, id: nat, name: string)
    ensures HasTool(PutTool(tools, tool), tool.callId, tool.id, tool.name)
    ensures callId != tool.callId && HasTool(tools, callId, id, name) ==>
      HasTool(PutTool(tools, tool), callId, id, name)
  {
    var i, r := FindTool(tools, tool.callId), PutTool(tools, tool);
    assert r[if i < 0 then |tools| else i] == tool;
    assert forall j :: 0 <= j < |tools| && j != i ==> r[j] == tools[j];
  }

  lemma {:induction false} DropHas(tools: seq<OpenTool>, i: nat, callId: string, id: nat, name: string)
    requires i < |tools| && tools[i].callId != callId && HasTool(tools, callId, id, name)
    ensures HasTool(tools[..i] + tools[i + 1..], callId, id, name)
  {
    var j :| 0 <= j < |tools| && tools[j] == OpenTool(callId, id, name);
    assert (tools[..i] + tools[i + 1..])[if j < i then j else j - 1] == tools[j];
  }

  lemma {:induction false} EndKeepsTool(s: State, e: Event, callId: string, id: nat, name: string)
    requires HasTool(s.openTools, callId, id, name) && e.ToolExecutionEnd? && e.callId != callId
    ensures HasTool(OnToolEnd(s, e.callId, e.name, e.isError).openTools, callId, id, name)
  {
    var i := FindTool(s.openTools, e.callId);
    if i >= 0 { DropHas(s.openTools, i, callId, id, name); }
  }

  lemma {:induction false} OtherKeepsTool(s: State, e: Event, callId: string, id: nat, name: string)
    requires HasTool(s.openTools, callId, id, name)
    requires !((e.ToolExecutionStart? || e.ToolExecutionEnd?) && e.callId == callId)
    ensures HasTool(Step(s, e).openTools, callId, id, name)
  {
    match e
    case ToolExecutionStart(c, n) => PutHas(s.openTools, OpenTool(c, s.nextId, n), callId, id, name);
    case ToolExecutionEnd(_, _, _) => EndKeepsTool(s, e, callId, id, name);
    case _ => ToolBalance.OtherIsQuiet(s, e);
  }

  /** Nothing is heard of the call between the two events. */
  predicate Between(es: seq<Event>, i: nat, j: nat, callId: string) {
    i < j <= |es| &&
    forall k :: i < k < j ==> !((es[k].ToolExecutionStart? || es[k].ToolExecutionEnd?) && es[k].callId == callId)
  }

  lemma {:induction false} StaysOpen(es: seq<Event>, i: nat, j: nat)
    requires i < |es| && es[i].ToolExecutionStart? && Between(es, i, j, es[i].callId)
    ensures HasTool(Run(true, es[..j]).openTools, es[i].callId, Run(true, es[..i]).nextId, es[i].name)
    decreases j
  {
    var s := Run(true, es[..j - 1]);
    assert es[..j] == es[..j - 1] + [es[j - 1]];
    RunAppend(true, es[..j - 1], es[j - 1]);
    if j == i + 1 {
      PutHas(s.openTools, OpenTool(es[i].callId, s.nextId, es[i].name), "", 0, "");
    } else {
      StaysOpen(es, i, j - 1);
      OtherKeepsTool(s, es[j - 1], es[i].callId, Run(true, es[..i]).nextId, es[i].name);
    }
  }

  lemma {:induction false} StartAnnounced(s: State, callId: string, name: string)
    requires s.streams
    ensures Step(s, ToolExecutionStart(callId, name)).sent == s.sent + [ToolStart(s.nextId, name)]
  {
  }

  lemma {:induction false} EndAnnounced(s: State, callId: string, name: string, isError: bool, id: nat, started: string)
    requires s.streams && ToolBalance.Distinct(s.openTools) && HasTool(s.openTools, callId, id, started)
    ensures Step(s, ToolExecutionEnd(callId, name, isError)).sent == s.sent + [ToolComplete(id, name, !isError)]
  {
  }

  /**
    A call that starts and later ends is announced twice under one identity: as started under its
    name when it starts, and as ended when it ends, a success exactly when it was no error.
   */
  lemma {:induction false} ToolIsAnnounced(es: seq<Event>, i: nat, j: nat)
    requires i < j < |es| && es[i].ToolExecutionStart? && es[j].ToolExecutionEnd? && es[j].callId == es[i].callId
    requires Between(es, i, j, es[i].callId)
    ensures var id := Run(true, es[..i]).nextId;
      && Run(true, es[..i + 1]).sent == Run(true, es[..i]).sent + [ToolStart(id, es[i].name)]
      && Run(true, es[..j + 1]).sent == Run(true, es[..j]).sent + [ToolComplete(id, es[j].name, !es[j].isError)]
  {
    var id := Run(true, es[..i]).nextId;
    StaysOpen(es, i, j);
    RunStreams(true, es[..i]);
    RunStreams(true, es[..j]);
    ToolBalance.RunLedger(es[..j]);
    assert es[..i + 1] == es[..i] + [es[i]] && es[..j + 1] == es[..j] + [es[j]];
    RunAppend(true, es[..i], es[i]);
    RunAppend(true, es[..j], es[j]);
    StartAnnounced(Run(true, es[..i]), es[i].callId, es[i].name);
    EndAnnounced(Run(true, es[..j]), es[j].callId, es[j].name, es[j].isError, id, es[i].name);
  }

  /** The end of a call that is not open is announced under an identity of its own. */
  lemma {:induction false} UnknownToolIsAnnounced(es: seq<Event>, callId: string, name: string, isError: bool)
    requires !CallOpen(es, callId)
    ensures var s := Run(true, es);
      var r := Run(true, es + [ToolExecutionEnd(callId, name, isError)]);
      && r.sent == s.sent + [ToolComplete(s.nextId, name, !isError)] && r.openTools == s.openTools
      && ToolBalance.Completions(s.sent, s.nextId) == 0 && !ToolBalance.Started(s.sent, s.nextId)
  {
    var s := Run(true, es);
    RunAppend(true, es, ToolExecutionEnd(callId, name, isError));
    RunStreams(true, es);
    ToolsAre(es, callId);
    ToolBalance.RunLedger(es);
    assert ToolBalance.Sound(s, s.nextId);
  }

  /** What closes a failed turn: each tool still open ends under its own identity and name, as no success. */
  lemma {:induction false} FailedToolsEnd(tools: seq<OpenTool>, k: nat)
    requires k < |tools|
    ensures |Endings(tools)| == |tools| && Endings(tools)[k] == ToolComplete(tools[k].id, tools[k].name, false)
  {
    if k < |tools| - 1 {
      FailedToolsEnd(tools[..|tools| - 1], k);
    } else if |tools| > 1 {
      FailedToolsEnd(tools[..|tools| - 1], 0);
    }
  }

  /** Closing a turn leaves no tool open, so doing it again sends nothing. */
  lemma {:induction false} ClosedOnce(s: State)
    ensures EndFailedTools(s).openTools == [] && EndFailedTools(EndFailedTools(s)) == EndFailedTools(s)
  {
    var r := EndFailedTools(s);
    assert r.sent + [] == r.sent;
  }

  // ---------------------------------------------------------------- texts and counters

  /** The content of a message is the text of its text blocks in order: nothing at first, and one more with each. */
  lemma {:induction false} ContentAppends(a: seq<Block>, block: Block, stop: StopReason, tokens: nat)
    ensures Content(Message(stop, [], tokens)) == ""
    ensures Content(Message(stop, a + [block], tokens)) ==
      Content(Message(stop, a, tokens)) + (if block.Text? then block.text else "")
  {
    assert (a + [block])[..|a|] == a;
    if block.Text? { JoinAppend(Texts(a), block.text); }
  }

  function Occurrences(es: seq<Event>, kind: Event -> bool): nat {
    if es == [] then 0
    else Occurrences(es[..|es| - 1], kind) + if kind(es[|es| - 1]) then 1 else 0
  }

  /** The counters are the numbers of their events. */
  lemma {:induction false} CountersAre(es: seq<Event>)
    ensures var s := Run(true, es);
      && s.textDeltas == Occurrences(es, (e: Event) => e.TextDelta?)
      && s.completedTools == Occurrences(es, (e: Event) => e.ToolExecutionEnd?)
      && s.failedTools == Occurrences(es, (e: Event) => e.ToolExecutionEnd? && e.isError)
      && s.turns == Occurrences(es, (e: Event) => e.TurnEnd?)
  {
    if es != [] {
      CountersAre(es[..|es| - 1]);
      CountersStep(Run(true, es[..|es| - 1]), es[|es| - 1]);
    }
  }

  lemma {:induction false} CountersStep(s: State, e: Event)
    ensures var r := Step(s, e);
      && r.textDeltas == s.textDeltas + (if e.TextDelta? then 1 else 0)
      && r.completedTools == s.completedTools + (if e.ToolExecutionEnd? then 1 else 0)
      && r.failedTools == s.failedTools + (if e.ToolExecutionEnd? && e.isError then 1 else 0)
      && r.turns == s.turns + (if e.TurnEnd? then 1 else 0)
  {
    if e.MessageEnd? { EndCountsNothing(s, e.message); }
  }

  lemma {:induction false} EndCountsNothing(s: State, m: Message)
    ensures var r := OnMessageEnd(s, m);
      && r.textDeltas == s.textDeltas && r.completedTools == s.completedTools
      && r.failedTools == s.failedTools && r.turns == s.turns
  {
    if s.current.Some? {
      var r := s.(last := Some(m));
      var reply := s.current.value.(message := Some(m));
      CompleteFrame(if m.stop == Stop then r.(final := Some(reply)) else r, reply);
    }
  }
}
