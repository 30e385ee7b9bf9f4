/**
  The translation of harness events into the deltas of one reply, `TurnEvents` of
  BoBeAgent/src/events.ts. `sent` is the sequence of deltas handed to `send`, and identities
  that the source draws at random come from the counter `nextId`. `withheld` records the text
  deltas that were not sent because a failure stood when they came.

  The source keeps its failure as a string and tests it for truth, so the empty string stands
  for no failure here, exactly as an empty or missing message does there.
 */
module Turn {
  import opened Common

  datatype Block = Text(text: string) | OtherBlock

  datatype StopReason = Stop | Length | ToolUse | Error | Aborted | Deferred

  datatype Message = Message(stop: StopReason, blocks: seq<Block>, outputTokens: nat)

  datatype Reply = Reply(id: nat, chunks: seq<string>, message: Option<Message>)

  datatype OpenTool = OpenTool(callId: string, id: nat, name: string)

  datatype Delta =
    | MessageDelta(messageId: nat, text: string)
    | MessageComplete(messageId: nat, content: string, outputTokens: nat)
    | ToolStart(toolId: nat, name: string)
    | ToolComplete(toolId: nat, name: string, success: bool)
    | Done

  /** Events of the harness; those about other roles and kinds are `Unrelated`. */
  datatype Event =
    | MessageStart
    | TextDelta(text: string)
    | MessageEnd(message: Message)
    | ToolExecutionStart(callId: string, name: string)
    | ToolExecutionEnd(callId: string, name: string, isError: bool)
    | CompactionEnd(errorMessage: string)
    | AutoRetryStart
    | AutoRetryEnd(success: bool, finalError: Option<string>)
    | TurnEnd
    | Unrelated

  datatype State = State(
    current: Option<Reply>,
    final: Option<Reply>,
    openTools: seq<OpenTool>,  // a Map in insertion order
    failure: string,
    visibleOutput: bool,
    last: Option<Message>,
    textDeltas: nat,
    completedTools: nat,
    failedTools: nat,
    turns: nat,
    streams: bool,
    nextId: nat,
    sent: seq<Delta>,
    withheld: seq<Delta>)

  // ---------------------------------------------------------------- operations

  function Join(parts: seq<string>): string {
    if parts == [] then "" else Join(parts[..|parts| - 1]) + parts[|parts| - 1]
  }

  function Texts(blocks: seq<Block>): seq<string> {
    if blocks == [] then []
    else
      var front := Texts(blocks[..|blocks| - 1]);
      match blocks[|blocks| - 1]
      case Text(t) => front + [t]
      case OtherBlock => front
  }

  /** The text blocks of a message, joined. */
  function Content(m: Message): string {
    Join(Texts(m.blocks))
  }

  predicate HasText(m: Message) {
    exists i :: 0 <= i < |m.blocks| && m.blocks[i].Text? && m.blocks[i].text != ""
  }

  function Emit(s: State, d: Delta): State {
    if s.streams then s.(sent := s.sent + [d]) else s
  }

  function CompleteMessage(s: State, reply: Reply): State {
    match reply.message
    case None => s
    case Some(m) =>
      var content := Content(m);
      var streamed := Join(reply.chunks);
      if !(streamed <= content) then s.(failure := "Provider changed text that was already streamed")
      else
        var remaining := content[|streamed|..];
        var r := if remaining == "" then s
                 else Emit(s.(visibleOutput := true), MessageDelta(reply.id, remaining));
        Emit(r, MessageComplete(reply.id, content, m.outputTokens))
  }

  function FindTool(tools: seq<OpenTool>, callId: string): (i: int)
    ensures -1 <= i < |tools|
    ensures i >= 0 ==> tools[i].callId == callId
    ensures i < 0 ==> forall j :: 0 <= j < |tools| ==> tools[j].callId != callId
  {
    if tools == [] then -1
    else if tools[0].callId == callId then 0
    else
      var r := FindTool(tools[1..], callId);
      if r < 0 then -1 else r + 1
  }

  /** `Map.set`: a key that is present keeps its place. */
  function PutTool(tools: seq<OpenTool>, tool: OpenTool): seq<OpenTool> {
    var i := FindTool(tools, tool.callId);
    if i < 0 then tools + [tool] else tools[i := tool]
  }

  function OnTextDelta(s: State, text: string): State {
    var r := s.(textDeltas := s.textDeltas + 1);
    match s.current
    case None => r
    case Some(c) =>
      var pushed := r.(current := Some(c.(chunks := c.chunks + [text])));
      if s.failure != "" then pushed.(withheld := s.withheld + [MessageDelta(c.id, text)])
      else Emit(pushed.(visibleOutput := true), MessageDelta(c.id, text))
  }

  function OnMessageEnd(s: State, m: Message): State {
    var r := s.(last := Some(m));
    match s.current
    case None => r
    case Some(c) =>
      var reply := c.(message := Some(m));
      var kept := if m.stop == Stop then r.(final := Some(reply)) else r;
      var done := if m.stop == ToolUse && s.failure == "" && HasText(m) then CompleteMessage(kept, reply) else kept;
      done.(current := None)
  }

  function OnToolEnd(s: State, callId: string, name: string, isError: bool): State {
    var i := FindTool(s.openTools, callId);
    var r := s.(completedTools := s.completedTools + 1, failedTools := s.failedTools + (if isError then 1 else 0));
    if i < 0 then Emit(r.(nextId := s.nextId + 1), ToolComplete(s.nextId, name, !isError))
    else
      Emit(r.(openTools := s.openTools[..i] + s.openTools[i + 1..]), ToolComplete(s.openTools[i].id, name, !isError))
  }

  function Step(s: State, e: Event): State {
    match e
    case MessageStart => s.(current := Some(Reply(s.nextId, [], None)), nextId := s.nextId + 1)
    case TextDelta(text) => OnTextDelta(s, text)
    case MessageEnd(m) => OnMessageEnd(s, m)
    case ToolExecutionStart(callId, name) =>
      Emit(s.(openTools := PutTool(s.openTools, OpenTool(callId, s.nextId, name)), nextId := s.nextId + 1),
           ToolStart(s.nextId, name))
    case ToolExecutionEnd(callId, name, isError) => OnToolEnd(s, callId, name, isError)
    case CompactionEnd(error) => if error == "" then s else s.(failure := "Session compaction failed: " + error)
    case AutoRetryStart =>
      s.(final := None,
         failure := if s.visibleOutput then "Provider attempted a retry after visible reply text" else s.failure)
    case AutoRetryEnd(success, error) =>
      if success then s else s.(failure := if error.Some? then error.value else "Provider retries exhausted")
    case TurnEnd => s.(turns := s.turns + 1)
    case Unrelated => s
  }

  /** Whether `assertSuccess` returns. */
  predicate Succeeds(s: State, allowToolTermination: bool) {
    && s.failure == ""
    && s.last.Some?
    && (s.last.value.stop == Stop || (allowToolTermination && s.last.value.stop == ToolUse))
    && s.openTools == []
  }

  function TextOfTurn(s: State): string {
    if s.last.Some? then Content(s.last.value) else ""
  }

  datatype Committed = Committed(state: State, ok: bool)

  function Commit(s: State): Committed {
    if !Succeeds(s, false) then Committed(s, false)
    else if s.final.None? || s.final.value.message.None? then Committed(s, false)
    else
      var r := CompleteMessage(s, s.final.value);
      if r.failure != "" then Committed(r, false) else Committed(Emit(r, Done), true)
  }

  function CommitOwnerQuestion(s: State, prompt: string): Committed {
    if !Succeeds(s, true) then Committed(s, false)
    else
      var r := s.(nextId := s.nextId + 1);
      Committed(Emit(Emit(Emit(r, MessageDelta(s.nextId, prompt)), MessageComplete(s.nextId, prompt, 0)), Done), true)
  }

  function Endings(tools: seq<OpenTool>): seq<Delta> {
    if tools == [] then []
    else Endings(tools[..|tools| - 1]) + [ToolComplete(tools[|tools| - 1].id, tools[|tools| - 1].name, false)]
  }

  function EndFailedTools(s: State): State {
    s.(openTools := [], sent := if s.streams then s.sent + Endings(s.openTools) else s.sent)
  }

  function Fresh(streams: bool): State {
    State(None, None, [], "", false, None, 0, 0, 0, 0, streams, 0, [], [])
  }

  function Run(streams: bool, es: seq<Event>): State {
    if es == [] then Fresh(streams) else Step(Run(streams, es[..|es| - 1]), es[|es| - 1])
  }

  // ---------------------------------------------------------------- what the stream promises

  /** The text sent so far for one message. */
  function Streamed(sent: seq<Delta>, id: nat): string {
    if sent == [] then ""
    else
      var front := Streamed(sent[..|sent| - 1], id);
      match sent[|sent| - 1]
      case MessageDelta(m, text) => if m == id then front + text else front
      case _ => front
  }

  predicate Mentions(d: Delta, id: nat) {
    (d.MessageDelta? || d.MessageComplete?) && d.messageId == id
  }

  predicate IsVisible(d: Delta) {
    d.MessageDelta? || d.MessageComplete? || d.Done?
  }

  /** At each completion the text already sent is the content, and the message is not heard of again. */
  ghost predicate Faithful(sent: seq<Delta>) {
    forall i :: 0 <= i < |sent| && sent[i].MessageComplete? ==>
      && Streamed(sent[..i], sent[i].messageId) == sent[i].content
      && (forall j :: i < j < |sent| ==> !Mentions(sent[j], sent[i].messageId))
  }

  /**
    What was sent for the message, with what was withheld from it, makes up the text; with nothing withheld it is
    the text.
   */
  predicate Adds(sent: seq<Delta>, withheld: seq<Delta>, id: nat, text: string) {
    && |Streamed(sent, id)| + |Streamed(withheld, id)| == |text|
    && (Streamed(withheld, id) == "" ==> Streamed(sent, id) == text)
  }

  /** At each completion what was sent and withheld adds up to the content, and the message is not heard of again. */
  ghost predicate Honest(sent: seq<Delta>, withheld: seq<Delta>) {
    forall i :: 0 <= i < |sent| && sent[i].MessageComplete? ==>
      && Adds(sent[..i], withheld, sent[i].messageId, sent[i].content)
      && (forall j :: i < j < |sent| ==> !Mentions(sent[j], sent[i].messageId))
  }

  /** No completed message lacks text that came while a failure stood. */
  ghost predicate NothingWithheld(sent: seq<Delta>, withheld: seq<Delta>) {
    forall i :: 0 <= i < |sent| && sent[i].MessageComplete? ==> Streamed(withheld, sent[i].messageId) == ""
  }

  ghost predicate Unfinished(sent: seq<Delta>, id: nat) {
    forall i :: 0 <= i < |sent| ==> !(sent[i].MessageComplete? && sent[i].messageId == id)
  }

  ghost predicate Known(sent: seq<Delta>, nextId: nat) {
    forall i :: 0 <= i < |sent| && (sent[i].MessageDelta? || sent[i].MessageComplete?) ==> sent[i].messageId < nextId
  }

  /** A reply still to be completed: everything it streamed has been sent or withheld. */
  ghost predicate Pending(s: State, r: Reply) {
    && r.id < s.nextId
    && Unfinished(s.sent, r.id)
    && (s.streams ==> Adds(s.sent, s.withheld, r.id, Join(r.chunks)))
  }

  ghost predicate Inv(s: State) {
    && Known(s.sent, s.nextId) && Known(s.withheld, s.nextId)
    && Honest(s.sent, s.withheld)
    && (s.current.Some? ==> Pending(s, s.current.value))
    && (s.final.Some? ==> Pending(s, s.final.value) && s.final.value.message.Some?)
    && (s.current.Some? && s.final.Some? ==> s.current.value.id != s.final.value.id)
    && (forall i :: 0 <= i < |s.sent| ==> !s.sent[i].Done?)
  }

  /** The one event that can take back a failure: exhausted retries reported with an empty message. */
  predicate BlankRetryEnd(e: Event) {
    e.AutoRetryEnd? && !e.success && e.finalError == Some("")
  }

  // ---------------------------------------------------------------- facts about the stream

  lemma {:induction false} StreamedAppend(sent: seq<Delta>, d: Delta, id: nat)
    ensures Streamed(sent + [d], id) ==
      Streamed(sent, id) + (if d.MessageDelta? && d.messageId == id then d.text else "")
  {
    assert (sent + [d])[..|sent|] == sent;
  }

  lemma {:induction false} StreamedNothing(sent: seq<Delta>, id: nat)
    requires Known(sent, id)
    ensures Streamed(sent, id) == ""
  {
    if sent != [] {
      StreamedNothing(sent[..|sent| - 1], id);
    }
  }

  /** An honest stream is faithful exactly when nothing was withheld from a completed message. */
  lemma {:induction false} HonestIsFaithful(sent: seq<Delta>, withheld: seq<Delta>)
    requires Honest(sent, withheld)
    ensures Faithful(sent) <==> NothingWithheld(sent, withheld)
  {
    forall i | 0 <= i < |sent| && sent[i].MessageComplete?
      ensures Streamed(sent[..i], sent[i].messageId) == sent[i].content <==> Streamed(withheld, sent[i].messageId) == ""
    {
      assert Adds(sent[..i], withheld, sent[i].messageId, sent[i].content);
    }
  }

  /** A delta for an unfinished message, or one of another kind, keeps the stream honest. */
  lemma {:induction false} HonestAppend(sent: seq<Delta>, withheld: seq<Delta>, d: Delta)
    requires Honest(sent, withheld)
    requires d.MessageDelta? || d.MessageComplete? ==> Unfinished(sent, d.messageId)
    requires d.MessageComplete? ==> Adds(sent, withheld, d.messageId, d.content)
    ensures Honest(sent + [d], withheld)
  {
    var all := sent + [d];
    forall i | 0 <= i < |all| && all[i].MessageComplete?
      ensures Adds(all[..i], withheld, all[i].messageId, all[i].content)
      ensures forall j :: i < j < |all| ==> !Mentions(all[j], all[i].messageId)
    {
      assert all[..i] == sent[..i];
      if i == |sent| { assert sent[..i] == sent; }
    }
  }

  /** Text withheld from an unfinished message changes no completed one. */
  lemma {:induction false} HonestWithhold(sent: seq<Delta>, withheld: seq<Delta>, d: Delta)
    requires Honest(sent, withheld) && d.MessageDelta? && Unfinished(sent, d.messageId)
    ensures Honest(sent, withheld + [d])
  {
    forall i | 0 <= i < |sent| && sent[i].MessageComplete?
      ensures Adds(sent[..i], withheld + [d], sent[i].messageId, sent[i].content)
    {
      StreamedAppend(withheld, d, sent[i].messageId);
    }
  }

  lemma {:induction false} UnfinishedAppend(sent: seq<Delta>, d: Delta, id: nat)
    requires Unfinished(sent, id) && !(d.MessageComplete? && d.messageId == id)
    ensures Unfinished(sent + [d], id)
  {
  }

  lemma {:induction false} JoinAppend(parts: seq<string>, part: string)
    ensures Join(parts + [part]) == Join(parts) + part
  {
    assert (parts + [part])[..|parts|] == parts;
  }

  // ---------------------------------------------------------------- one event

  /** A delta about neither pending reply leaves them pending. */
  lemma {:induction false} EmitKeepsPending(s: State, d: Delta, r: Reply)
    requires Pending(s, r) && !Mentions(d, r.id)
    ensures Pending(Emit(s, d), r)
  {
    if s.streams {
      StreamedAppend(s.sent, d, r.id);
      UnfinishedAppend(s.sent, d, r.id);
    }
  }

  lemma {:induction false} EmitOther(s: State, d: Delta)
    requires Inv(s) && (d.ToolStart? || d.ToolComplete?)
    ensures Inv(Emit(s, d))
  {
    HonestAppend(s.sent, s.withheld, d);
    if s.current.Some? { EmitKeepsPending(s, d, s.current.value); }
    if s.final.Some? { EmitKeepsPending(s, d, s.final.value); }
  }

  /** The current reply gains the chunk, and the stream the same text. */
  lemma {:induction false} ChunkIsSent(s: State, c: Reply, text: string)
    requires Pending(s, c) && s.streams
    ensures var d := MessageDelta(c.id, text);
      Pending(s.(sent := s.sent + [d]), c.(chunks := c.chunks + [text]))
  {
    JoinAppend(c.chunks, text);
    StreamedAppend(s.sent, MessageDelta(c.id, text), c.id);
    UnfinishedAppend(s.sent, MessageDelta(c.id, text), c.id);
  }

  lemma {:induction false} OtherStays(s: State, r: Reply, d: Delta)
    requires Pending(s, r) && !Mentions(d, r.id)
    ensures Pending(s.(sent := s.sent + [d]), r)
  {
    StreamedAppend(s.sent, d, r.id);
    UnfinishedAppend(s.sent, d, r.id);
  }

  lemma {:induction false} VisibleTextKeeps(s: State, text: string)
    requires Inv(s) && s.current.Some? && s.failure == "" && s.streams
    ensures Inv(OnTextDelta(s, text))
  {
    var c := s.current.value;
    var d := MessageDelta(c.id, text);
    ChunkIsSent(s, c, text);
    HonestAppend(s.sent, s.withheld, d);
    if s.final.Some? { OtherStays(s, s.final.value, d); }
  }

  /** While a failure stands the current reply gains the chunk, and the withheld text grows by it. */
  lemma {:induction false} ChunkIsWithheld(s: State, c: Reply, text: string)
    requires Pending(s, c)
    ensures var d := MessageDelta(c.id, text);
      Pending(s.(withheld := s.withheld + [d]), c.(chunks := c.chunks + [text]))
  {
    JoinAppend(c.chunks, text);
    StreamedAppend(s.withheld, MessageDelta(c.id, text), c.id);
  }

  lemma {:induction false} OtherKeepsItsText(s: State, r: Reply, d: Delta)
    requires Pending(s, r) && !Mentions(d, r.id)
    ensures Pending(s.(withheld := s.withheld + [d]), r)
  {
    StreamedAppend(s.withheld, d, r.id);
  }

  lemma {:induction false} WithheldTextKeeps(s: State, text: string)
    requires Inv(s) && s.current.Some? && s.failure != ""
    ensures Inv(OnTextDelta(s, text))
  {
    var c := s.current.value;
    var d := MessageDelta(c.id, text);
    ChunkIsWithheld(s, c, text);
    HonestWithhold(s.sent, s.withheld, d);
    if s.final.Some? { OtherKeepsItsText(s, s.final.value, d); }
  }

  lemma {:induction false} TextDeltaKeeps(s: State, text: string)
    requires Inv(s)
    ensures Inv(OnTextDelta(s, text))
  {
    if s.current.Some? {
      if s.failure != "" {
        WithheldTextKeeps(s, text);
      } else if s.streams {
        VisibleTextKeeps(s, text);
      }
    }
  }

  predicate Ends(sent: seq<Delta>, d: Delta) {
    sent != [] && sent[|sent| - 1] == d
  }

  /** Completing touches the stream and the failure only, and never ends the turn. */
  lemma {:induction false} CompleteFrame(s: State, r: Reply)
    ensures var t := CompleteMessage(s, r);
      && t == s.(sent := t.sent, failure := t.failure, visibleOutput := t.visibleOutput)
      && s.sent <= t.sent && (forall i :: |s.sent| <= i < |t.sent| ==> !t.sent[i].Done?)
      && (t.failure == s.failure || (t.failure != "" && t.sent == s.sent))
  {
  }

  /** The rest of the content and the completion, sent after what was streamed. */
  lemma {:induction false} RestAndCompletion(sent: seq<Delta>, withheld: seq<Delta>, id: nat, streamed: string,
      rest: string, tokens: nat)
    requires Honest(sent, withheld) && Unfinished(sent, id) && Adds(sent, withheld, id, streamed)
    ensures Honest(sent + [MessageDelta(id, rest)] + [MessageComplete(id, streamed + rest, tokens)], withheld)
  {
    var d := MessageDelta(id, rest);
    HonestAppend(sent, withheld, d);
    StreamedAppend(sent, d, id);
    UnfinishedAppend(sent, d, id);
    HonestAppend(sent + [d], withheld, MessageComplete(id, streamed + rest, tokens));
  }

  /** Completing a pending reply: what was sent and withheld adds up to the content it announces. */
  lemma {:induction false} CompleteKeeps(s: State, r: Reply)
    requires Known(s.sent, s.nextId) && Honest(s.sent, s.withheld) && Pending(s, r) && s.failure == ""
    requires r.message.Some?
    ensures var t := CompleteMessage(s, r);
      && Known(t.sent, t.nextId) && Honest(t.sent, t.withheld)
      && (t.failure == "" && s.streams ==>
            Ends(t.sent, MessageComplete(r.id, Content(r.message.value), r.message.value.outputTokens)))
      && (t.failure != "" ==> t.sent == s.sent)
  {
    var m := r.message.value;
    var content, streamed := Content(m), Join(r.chunks);
    if streamed <= content && s.streams {
      var remaining := content[|streamed|..];
      assert content == streamed + remaining;
      if remaining == "" {
        HonestAppend(s.sent, s.withheld, MessageComplete(r.id, content, m.outputTokens));
      } else {
        RestAndCompletion(s.sent, s.withheld, r.id, streamed, remaining, m.outputTokens);
      }
    }
  }

  lemma {:induction false} CompleteKeepsOther(s: State, r: Reply, o: Reply)
    requires Pending(s, o) && o.id != r.id
    ensures Pending(CompleteMessage(s, r), o)
  {
    if r.message.Some? && Join(r.chunks) <= Content(r.message.value) {
      var content := Content(r.message.value);
      var remaining := content[|Join(r.chunks)|..];
      var c := MessageComplete(r.id, content, r.message.value.outputTokens);
      var v := s.(visibleOutput := true);
      if remaining == "" {
        EmitKeepsPending(s, c, o);
      } else {
        EmitKeepsPending(v, MessageDelta(r.id, remaining), o);
        EmitKeepsPending(Emit(v, MessageDelta(r.id, remaining)), c, o);
      }
    }
  }

  lemma {:induction false} ToolUseKeeps(s: State, reply: Reply)
    requires Inv(s) && s.failure == "" && reply.message.Some?
    requires s.current.Some? && reply == s.current.value.(message := reply.message)
    ensures Inv(CompleteMessage(s, reply).(current := None))
  {
    CompleteFrame(s, reply);
    CompleteKeeps(s, reply);
    if s.final.Some? { CompleteKeepsOther(s, reply, s.final.value); }
  }

  lemma {:induction false} MessageEndKeeps(s: State, m: Message)
    requires Inv(s)
    ensures Inv(OnMessageEnd(s, m))
  {
    if s.current.Some? && m.stop == ToolUse && s.failure == "" && HasText(m) {
      ToolUseKeeps(s.(last := Some(m)), s.current.value.(message := Some(m)));
    }
  }

  lemma {:induction false} ToolEndKeeps(s: State, callId: string, name: string, isError: bool)
    requires Inv(s)
    ensures Inv(OnToolEnd(s, callId, name, isError))
  {
    var i := FindTool(s.openTools, callId);
    var r := s.(completedTools := s.completedTools + 1, failedTools := s.failedTools + (if isError then 1 else 0));
    if i < 0 { EmitOther(r.(nextId := s.nextId + 1), ToolComplete(s.nextId, name, !isError)); }
    else {
      var open := s.openTools[i];
      EmitOther(r.(openTools := s.openTools[..i] + s.openTools[i + 1..]), ToolComplete(open.id, name, !isError));
    }
  }

  lemma {:induction false} MessageStartKeeps(s: State)
    requires Inv(s)
    ensures Inv(Step(s, MessageStart))
  {
    StreamedNothing(s.sent, s.nextId);
    StreamedNothing(s.withheld, s.nextId);
  }

  lemma {:induction false} ToolStartKeeps(s: State, callId: string, name: string)
    requires Inv(s)
    ensures Inv(Step(s, ToolExecutionStart(callId, name)))
  {
    var tools := PutTool(s.openTools, OpenTool(callId, s.nextId, name));
    EmitOther(s.(openTools := tools, nextId := s.nextId + 1), ToolStart(s.nextId, name));
  }

  /** An event that neither sends nor changes the replies keeps the invariant, and so does giving up the final one. */
  lemma {:induction false} QuietKeeps(s: State, t: State)
    requires Inv(s) && t.sent == s.sent && t.withheld == s.withheld && t.nextId == s.nextId && t.streams == s.streams
    requires t.current == s.current && (t.final == s.final || t.final == None)
    ensures Inv(t)
  {
  }

  lemma {:induction false} StepKeeps(s: State, e: Event)
    requires Inv(s)
    ensures Inv(Step(s, e))
  {
    match e
    case MessageStart => MessageStartKeeps(s);
    case TextDelta(text) => TextDeltaKeeps(s, text);
    case MessageEnd(m) => MessageEndKeeps(s, m);
    case ToolExecutionStart(callId, name) => ToolStartKeeps(s, callId, name);
    case ToolExecutionEnd(callId, name, isError) => ToolEndKeeps(s, callId, name, isError);
    case _ => QuietKeeps(s, Step(s, e));
  }

  lemma {:induction false} EndingsKeep(s: State, tools: seq<OpenTool>)
    requires Inv(s) && s.streams
    ensures Inv(s.(sent := s.sent + Endings(tools)))
  {
    if tools == [] {
      assert s.sent + [] == s.sent;
    } else {
      var front, last := tools[..|tools| - 1], tools[|tools| - 1];
      var d := ToolComplete(last.id, last.name, false);
      EndingsKeep(s, front);
      EmitOther(s.(sent := s.sent + Endings(front)), d);
      assert s.sent + Endings(tools) == s.sent + Endings(front) + [d];
    }
  }

  lemma {:induction false} EndFailedKeeps(s: State)
    requires Inv(s)
    ensures Inv(EndFailedTools(s))
  {
    if s.streams { EndingsKeep(s, s.openTools); }
  }

  // ---------------------------------------------------------------- whole turns

  /** No event of the turn reports exhausted retries with an empty message. */
  predicate Clean(es: seq<Event>) {
    forall i :: 0 <= i < |es| ==> !BlankRetryEnd(es[i])
  }

  lemma {:induction false} RunKeeps(streams: bool, es: seq<Event>)
    ensures Inv(Run(streams, es))
  {
    if es != [] {
      RunKeeps(streams, es[..|es| - 1]);
      StepKeeps(Run(streams, es[..|es| - 1]), es[|es| - 1]);
    }
  }

  /**
    At every completion of a turn the deltas sent for that message concatenate to its content if
    and only if no completed message lost text that came while a failure stood.
   */
  lemma {:induction false} StreamedTextExactly(streams: bool, es: seq<Event>)
    ensures Faithful(Run(streams, es).sent) <==> NothingWithheld(Run(streams, es).sent, Run(streams, es).withheld)
    ensures forall i :: 0 <= i < |Run(streams, es).sent| ==> !Run(streams, es).sent[i].Done?
  {
    RunKeeps(streams, es);
    HonestIsFaithful(Run(streams, es).sent, Run(streams, es).withheld);
  }

  /** No failure of the turn is taken back: a blank report comes only while nothing has failed. */
  ghost predicate Unbroken(streams: bool, es: seq<Event>) {
    forall i :: 0 <= i < |es| && BlankRetryEnd(es[i]) ==> Run(streams, es[..i]).failure == ""
  }

  /** While nothing has failed nothing is withheld, and never from a completed message. */
  ghost predicate Whole(s: State) {
    (s.failure == "" ==> s.withheld == []) && NothingWithheld(s.sent, s.withheld)
  }

  lemma {:induction false} TextKeepsWhole(s: State, text: string)
    requires Inv(s) && Whole(s)
    ensures Whole(OnTextDelta(s, text))
  {
    if s.current.Some? && s.failure != "" {
      var d := MessageDelta(s.current.value.id, text);
      forall i | 0 <= i < |s.sent| && s.sent[i].MessageComplete?
        ensures Streamed(s.withheld + [d], s.sent[i].messageId) == ""
      {
        StreamedAppend(s.withheld, d, s.sent[i].messageId);
      }
    }
  }

  lemma {:induction false} EndKeepsWhole(s: State, m: Message)
    requires Whole(s)
    ensures Whole(OnMessageEnd(s, m))
  {
    assert s.failure == "" ==> forall id :: Streamed(s.withheld, id) == "";
  }

  /** A step that withholds nothing, takes no failure back and completes no message. */
  lemma {:induction false} OtherKeepsWhole(s: State, t: State)
    requires Whole(s) && t.withheld == s.withheld && (t.failure == "" ==> s.failure == "")
    requires t.sent == s.sent || (exists d: Delta :: !d.MessageComplete? && t.sent == s.sent + [d])
    ensures Whole(t)
  {
    if t.sent != s.sent {
      var d: Delta :| !d.MessageComplete? && t.sent == s.sent + [d];
      assert t.sent[|s.sent|] == d && forall i :: 0 <= i < |s.sent| ==> t.sent[i] == s.sent[i];
    }
  }

  lemma {:induction false} ToolEndKeepsWhole(s: State, callId: string, name: string, isError: bool)
    requires Whole(s)
    ensures Whole(OnToolEnd(s, callId, name, isError))
  {
    var i := FindTool(s.openTools, callId);
    var d := ToolComplete(if i < 0 then s.nextId else s.openTools[i].id, name, !isError);
    assert s.streams ==> OnToolEnd(s, callId, name, isError).sent == s.sent + [d];
    OtherKeepsWhole(s, OnToolEnd(s, callId, name, isError));
  }

  lemma {:induction false} ToolStartKeepsWhole(s: State, callId: string, name: string)
    requires Whole(s)
    ensures Whole(Step(s, ToolExecutionStart(callId, name)))
  {
    assert s.streams ==> Step(s, ToolExecutionStart(callId, name)).sent == s.sent + [ToolStart(s.nextId, name)];
    OtherKeepsWhole(s, Step(s, ToolExecutionStart(callId, name)));
  }

  lemma {:induction false} StepKeepsWhole(s: State, e: Event)
    requires Inv(s) && Whole(s) && (BlankRetryEnd(e) ==> s.failure == "")
    ensures Whole(Step(s, e))
  {
    match e
    case TextDelta(text) => TextKeepsWhole(s, text);
    case MessageEnd(m) => EndKeepsWhole(s, m);
    case ToolExecutionStart(callId, name) => ToolStartKeepsWhole(s, callId, name);
    case ToolExecutionEnd(callId, name, isError) => ToolEndKeepsWhole(s, callId, name, isError);
    case _ => OtherKeepsWhole(s, Step(s, e));
  }

  lemma {:induction false} RunKeepsWhole(streams: bool, es: seq<Event>)
    requires Unbroken(streams, es)
    ensures Whole(Run(streams, es))
  {
    if es != [] {
      var front := es[..|es| - 1];
      forall i | 0 <= i < |front| ensures front[..i] == es[..i] {}
      RunKeepsWhole(streams, front);
      RunKeeps(streams, front);
      StepKeepsWhole(Run(streams, front), es[|es| - 1]);
    }
  }

  /** So in a turn whose failures are never taken back every completion is faithful. */
  lemma {:induction false} StreamedTextIsCompletedText(streams: bool, es: seq<Event>)
    requires Unbroken(streams, es)
    ensures Faithful(Run(streams, es).sent)
  {
    RunKeepsWhole(streams, es);
    StreamedTextExactly(streams, es);
  }

  /** Only the stream's tool deltas may still grow once the turn has failed. */
  ghost predicate Silent(before: seq<Delta>, after: seq<Delta>) {
    before <= after && forall i :: |before| <= i < |after| ==> !IsVisible(after[i])
  }

  /** A failure survives an event exactly when the event is not a blank report of exhausted retries. */
  lemma {:induction false} FailureSurvives(s: State, e: Event)
    requires s.failure != ""
    ensures Step(s, e).failure != "" <==> !BlankRetryEnd(e)
    ensures Silent(s.sent, Step(s, e).sent)
  {
    match e
    case MessageEnd(m) => FailedMessageEnd(s, m);
    case ToolExecutionEnd(callId, name, isError) => FailedToolEnd(s, callId, name, isError);
    case _ =>
  }

  lemma {:induction false} FailedMessageEnd(s: State, m: Message)
    requires s.failure != ""
    ensures OnMessageEnd(s, m).failure == s.failure && OnMessageEnd(s, m).sent == s.sent
  {
  }

  lemma {:induction false} FailedToolEnd(s: State, callId: string, name: string, isError: bool)
    ensures OnToolEnd(s, callId, name, isError).failure == s.failure
    ensures Silent(s.sent, OnToolEnd(s, callId, name, isError).sent)
  {
  }

  /** Once a turn has failed it stays failed and says nothing more to the person. */
  lemma {:induction false} FailureIsAbsorbing(streams: bool, es: seq<Event>, more: seq<Event>)
    requires Run(streams, es).failure != "" && Clean(more)
    ensures Run(streams, es + more).failure != ""
    ensures Silent(Run(streams, es).sent, Run(streams, es + more).sent)
    ensures !Commit(Run(streams, es + more)).ok
    ensures Commit(Run(streams, es + more)).state.sent == Run(streams, es + more).sent
  {
    if more == [] {
      assert es + more == es;
    } else {
      var front := more[..|more| - 1];
      FailureIsAbsorbing(streams, es, front);
      assert (es + more)[..|es + more| - 1] == es + front;
      FailureSurvives(Run(streams, es + front), more[|more| - 1]);
    }
  }

  /**
    A failed turn stays failed through all that follows if and only if no blank report of exhausted retries follows.
   */
  lemma {:induction false} FailureIsAbsorbingExactly(streams: bool, es: seq<Event>, more: seq<Event>)
    requires Run(streams, es).failure != ""
    ensures (forall i :: 0 <= i <= |more| ==> Run(streams, es + more[..i]).failure != "") <==> Clean(more)
  {
    if Clean(more) {
      forall i | 0 <= i <= |more| ensures Run(streams, es + more[..i]).failure != "" {
        FailureIsAbsorbing(streams, es, more[..i]);
      }
    } else {
      var i :| 0 <= i < |more| && BlankRetryEnd(more[i]);
      assert es + more[..i + 1] == (es + more[..i]) + [more[i]];
      RunAppend(streams, es + more[..i], more[i]);
      if Run(streams, es + more[..i]).failure != "" {
        FailureSurvives(Run(streams, es + more[..i]), more[i]);
      }
    }
  }

  lemma {:induction false} RunAppend(streams: bool, es: seq<Event>, e: Event)
    ensures Run(streams, es + [e]) == Step(Run(streams, es), e)
  {
    assert (es + [e])[..|es|] == es;
  }

  const BLANK: seq<Event> :=
    [MessageStart, CompactionEnd("x"), TextDelta("a"), AutoRetryEnd(false, Some("")), MessageEnd(BLANK_MESSAGE)]
  const BLANK_MESSAGE: Message := Message(Stop, [Text("ab")], 1)
  const BLANK_REPLY: Reply := Reply(0, ["a"], Some(BLANK_MESSAGE))

  lemma {:induction false} BlankPrefix()
    ensures Run(true, BLANK[..2]).failure != ""
    ensures Run(true, BLANK[..3]) ==
      Fresh(true).(current := Some(Reply(0, ["a"], None)), nextId := 1, textDeltas := 1,
                    failure := "Session compaction failed: " + "x",
                    withheld := [MessageDelta(0, "a")])
  {
    assert BLANK[..1] == [] + [MessageStart] && BLANK[..2] == BLANK[..1] + [CompactionEnd("x")];
    assert BLANK[..3] == BLANK[..2] + [TextDelta("a")];
    RunAppend(true, [], MessageStart);
    RunAppend(true, BLANK[..1], CompactionEnd("x"));
    RunAppend(true, BLANK[..2], TextDelta("a"));
    assert [] + ["a"] == ["a"];
    assert [] + [MessageDelta(0, "a")] == [MessageDelta(0, "a")];
  }

  lemma {:induction false} BlankRun()
    ensures Run(true, BLANK) ==
      Fresh(true).(final := Some(BLANK_REPLY), last := Some(BLANK_MESSAGE), nextId := 1, textDeltas := 1,
                    withheld := [MessageDelta(0, "a")])
  {
    BlankPrefix();
    assert BLANK[..4] == BLANK[..3] + [AutoRetryEnd(false, Some(""))] &&
      BLANK == BLANK[..4] + [MessageEnd(BLANK_MESSAGE)];
    RunAppend(true, BLANK[..3], AutoRetryEnd(false, Some("")));
    RunAppend(true, BLANK[..4], MessageEnd(BLANK_MESSAGE));
  }

  lemma {:induction false} JoinOne(text: string)
    ensures Join([text]) == text
  {
    assert [text][..0] == [];
    assert "" + text == text;
  }

  lemma {:induction false} TextsOfOne(text: string)
    ensures Texts([Text(text)]) == [text]
  {
    assert [Text(text)][..0] == [];
    assert [] + [text] == [text];
  }

  lemma {:induction false} BlankTexts()
    ensures Content(BLANK_MESSAGE) == "ab" && Join(BLANK_REPLY.chunks) == "a"
  {
    TextsOfOne("ab");
    JoinOne("ab");
    JoinOne("a");
  }

  /** A reply whose content is what was streamed of it and a rest. */
  lemma {:induction false} RestIsSent(s: State, reply: Reply, m: Message, streamed: string, rest: string)
    requires s.streams && reply.message == Some(m) && rest != ""
    requires Join(reply.chunks) == streamed && Content(m) == streamed + rest
    ensures CompleteMessage(s, reply).failure == s.failure
    ensures CompleteMessage(s, reply).sent ==
      s.sent + [MessageDelta(reply.id, rest)] + [MessageComplete(reply.id, streamed + rest, m.outputTokens)]
  {
    assert (streamed + rest)[|streamed|..] == rest;
  }

  lemma {:induction false} BlankCompletion(s: State)
    requires s.streams && s.failure == "" && s.sent == []
    ensures CompleteMessage(s, BLANK_REPLY).failure == ""
    ensures CompleteMessage(s, BLANK_REPLY).sent == [MessageDelta(0, "b"), MessageComplete(0, "ab", 1)]
  {
    BlankTexts();
    assert "a" + "b" == "ab";
    RestIsSent(s, BLANK_REPLY, BLANK_MESSAGE, "a", "b");
  }

  /**
    The condition is needed: after a failure, a blank report of exhausted retries takes the failure
    back, and the turn then completes a message whose first words were never sent.
   */
  lemma {:induction false} BlankReportUnfails()
    ensures Run(true, BLANK[..2]).failure != ""
    ensures Commit(Run(true, BLANK)).ok && !Faithful(Commit(Run(true, BLANK)).state.sent)
  {
    BlankPrefix();
    BlankRun();
    BlankCompletion(Run(true, BLANK));
    var sent := [MessageDelta(0, "b"), MessageComplete(0, "ab", 1)] + [Done];
    assert Commit(Run(true, BLANK)).state.sent == sent;
    assert sent[..1] == [] + [MessageDelta(0, "b")];
    StreamedAppend([], MessageDelta(0, "b"), 0);
    assert sent[1] == MessageComplete(0, "ab", 1) && Streamed(sent[..1], 0) == "b";
  }

  // ---------------------------------------------------------------- committing

  /** Every end of an assistant message closes a message that was begun. */
  predicate Paired(streams: bool, es: seq<Event>) {
    forall i :: 0 <= i < |es| && es[i].MessageEnd? ==> Run(streams, es[..i]).current.Some?
  }

  /** If the turn's last message stopped normally, the reply to commit is that message. */
  ghost predicate FinalIsLast(s: State) {
    s.final.Some? && s.last.Some? && s.last.value.stop == Stop ==> s.final.value.message == s.last
  }

  lemma {:induction false} MessageEndPairs(s: State, m: Message)
    requires FinalIsLast(s) && s.current.Some?
    ensures FinalIsLast(OnMessageEnd(s, m))
  {
    var kept := if m.stop == Stop then s.(last := Some(m), final := Some(s.current.value.(message := Some(m))))
                else s.(last := Some(m));
    CompleteFrame(kept, s.current.value.(message := Some(m)));
  }

  lemma {:induction false} StepPairs(s: State, e: Event)
    requires FinalIsLast(s) && (e.MessageEnd? ==> s.current.Some?)
    ensures FinalIsLast(Step(s, e))
  {
    if e.MessageEnd? {
      MessageEndPairs(s, e.message);
    }
  }

  lemma {:induction false} RunPairs(streams: bool, es: seq<Event>)
    requires Paired(streams, es)
    ensures FinalIsLast(Run(streams, es))
  {
    if es != [] {
      var front := es[..|es| - 1];
      forall i | 0 <= i < |front| && front[i].MessageEnd? ensures Run(streams, front[..i]).current.Some? {
        assert front[..i] == es[..i];
      }
      RunPairs(streams, front);
      StepPairs(Run(streams, front), es[|es| - 1]);
    }
  }

  /**
    A successful commit ends the stream with the completion of the turn's last message, whose content
    is what `text()` returns, and one terminal delta; an unsuccessful one sends nothing. The stream
    is then faithful if and only if no completed message, the last included, lost text to a failure.
   */
  lemma {:induction false} CommitCompletesTheTurn(es: seq<Event>)
    requires Paired(true, es)
    ensures var s := Run(true, es);
      var c := Commit(s);
      && (c.ok ==>
            && s.sent < c.state.sent && Ends(c.state.sent, Done)
            && (var body := c.state.sent[..|c.state.sent| - 1];
                && (Faithful(body) <==> NothingWithheld(body, s.withheld)) && s.final.Some?
                && Ends(body, MessageComplete(s.final.value.id, TextOfTurn(s), s.last.value.outputTokens))
                && (forall i :: 0 <= i < |body| ==> !body[i].Done?)))
      && (!c.ok ==> c.state.sent == s.sent)
  {
    var s := Run(true, es);
    RunKeeps(true, es);
    RunPairs(true, es);
    RunStreams(true, es);
    var c := Commit(s);
    if Succeeds(s, false) && s.final.Some? {
      CompleteKeeps(s, s.final.value);
      CompleteFrame(s, s.final.value);
      var r := CompleteMessage(s, s.final.value);
      if c.ok {
        assert c.state.sent[..|c.state.sent| - 1] == r.sent;
        HonestIsFaithful(r.sent, s.withheld);
      }
    }
  }

  lemma {:induction false} RunStreams(streams: bool, es: seq<Event>)
    ensures Run(streams, es).streams == streams
  {
    if es != [] {
      RunStreams(streams, es[..|es| - 1]);
    }
  }

  lemma {:induction false} CompletedSame(sent: seq<Delta>, withheld: seq<Delta>, d: Delta, m: Delta)
    requires d.MessageDelta? && m.MessageComplete? && Streamed(withheld, m.messageId) == ""
    ensures NothingWithheld(sent + [d] + [m], withheld) <==> NothingWithheld(sent, withheld)
  {
    var all := sent + [d] + [m];
    assert forall i :: 0 <= i < |sent| ==> all[i] == sent[i];
    assert all[|sent|] == d && all[|sent| + 1] == m;
  }

  /** A deferred owner question is sent, completed and ended as one message of its own, itself faithful. */
  lemma {:induction false} OwnerQuestionCompletes(es: seq<Event>, prompt: string)
    ensures var s := Run(true, es);
      var c := CommitOwnerQuestion(s, prompt);
      && (c.ok ==>
            && c.state.sent == s.sent + [MessageDelta(s.nextId, prompt), MessageComplete(s.nextId, prompt, 0), Done]
            && (Faithful(c.state.sent[..|s.sent| + 2]) <==> Faithful(s.sent)))
      && (!c.ok ==> c.state.sent == s.sent)
  {
    var s := Run(true, es);
    RunKeeps(true, es);
    RunStreams(true, es);
    var c := CommitOwnerQuestion(s, prompt);
    if c.ok {
      var d, m := MessageDelta(s.nextId, prompt), MessageComplete(s.nextId, prompt, 0);
      StreamedNothing(s.sent, s.nextId);
      StreamedNothing(s.withheld, s.nextId);
      HonestAppend(s.sent, s.withheld, d);
      StreamedAppend(s.sent, d, s.nextId);
      HonestAppend(s.sent + [d], s.withheld, m);
      HonestIsFaithful(s.sent, s.withheld);
      HonestIsFaithful(s.sent + [d] + [m], s.withheld);
      CompletedSame(s.sent, s.withheld, d, m);
      assert c.state.sent == s.sent + [d, m, Done];
      assert c.state.sent[..|s.sent| + 2] == s.sent + [d] + [m];
    }
  }
}
