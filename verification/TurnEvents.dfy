/**
  `TurnEvents` as the source writes it: one object whose fields change with every event.
  Each method is tied to the function of module `Turn` whose runs carry the theorems, and an
  object stays valid: what it sent and withheld always adds up.
 */
module TurnEventsObject {
  import opened Common
  import opened Turn
  import TurnCommits

  class TurnEvents {
    var current: Option<Reply>
    var final: Option<Reply>
    var openTools: seq<OpenTool>
    var failure: string
    var visibleOutput: bool
    var last: Option<Message>
    var textDeltas: nat
    var completedTools: nat
    var failedTools: nat
    var turns: nat
    const streams: bool
    var nextId: nat
    var sent: seq<Delta>
    ghost var withheld: seq<Delta>

    ghost function Value(): State
      reads this
    {
      State(current, final, openTools, failure, visibleOutput, last, textDeltas, completedTools, failedTools, turns,
            streams, nextId, sent, withheld)
    }

    ghost predicate Valid()
      reads this
    {
      Inv(Value())
    }

    constructor (streams: bool)
      ensures Valid() && Value() == Fresh(streams)
    {
      current, final, openTools, failure, visibleOutput := None, None, [], "", false;
      last, textDeltas, completedTools, failedTools, turns := None, 0, 0, 0, 0;
      this.streams := streams;
      nextId, sent, withheld := 0, [], [];
    }

    /** `send?.(delta)` */
    method Send(d: Delta)
      modifies this`sent
      ensures Value() == Emit(old(Value()), d)
    {
      if streams { sent := sent + [d]; }
    }

    method Complete(reply: Reply)
      modifies this
      ensures Value() == CompleteMessage(old(Value()), reply)
    {
      if reply.message.None? { return; }
      var content := Content(reply.message.value);
      var streamed := Join(reply.chunks);
      if !(streamed <= content) {
        failure := "Provider changed text that was already streamed";
        return;
      }
      var remaining := content[|streamed|..];
      if remaining != "" {
        visibleOutput := true;
        Send(MessageDelta(reply.id, remaining));
      }
      Send(MessageComplete(reply.id, content, reply.message.value.outputTokens));
    }

    method TextArrives(text: string)
      modifies this
      ensures Value() == OnTextDelta(old(Value()), text)
    {
      textDeltas := textDeltas + 1;
      if current.Some? {
        var c := current.value;
        current := Some(c.(chunks := c.chunks + [text]));
        if failure == "" {
          visibleOutput := true;
          Send(MessageDelta(c.id, text));
        } else {
          withheld := withheld + [MessageDelta(c.id, text)];
        }
      }
    }

    method MessageEnds(m: Message)
      modifies this
      ensures Value() == OnMessageEnd(old(Value()), m)
    {
      last := Some(m);
      if current.Some? {
        var reply := current.value.(message := Some(m));
        current := Some(reply);
        if m.stop == Stop { final := current; }
        if m.stop == ToolUse && failure == "" && HasText(m) {
          ghost var before := Value();
          CompleteIgnoresCurrent(before, reply, old(current));
          Complete(reply);
        }
      }
      current := None;
    }

    method ToolEnds(callId: string, name: string, isError: bool)
      modifies this
      ensures Value() == OnToolEnd(old(Value()), callId, name, isError)
    {
      var i := FindTool(openTools, callId);
      var id := nextId;
      if i >= 0 { id := openTools[i].id; } else { nextId := nextId + 1; }
      if i >= 0 { openTools := openTools[..i] + openTools[i + 1..]; }
      completedTools := completedTools + 1;
      if isError { failedTools := failedTools + 1; }
      Send(ToolComplete(id, name, !isError));
    }

    /**
      A failed turn sends nothing visible; the stream is faithful exactly when nothing was withheld from a completed
      message.
     */
    method Event(e: Turn.Event)
      requires Valid()
      modifies this
      ensures Valid() && Value() == Step(old(Value()), e)
      ensures old(failure) != "" ==> Silent(old(sent), sent) && (failure != "" <==> !BlankRetryEnd(e))
      ensures Faithful(sent) <==> NothingWithheld(sent, withheld)
    {
      ghost var before := Value();
      StepKeeps(before, e);
      if failure != "" { FailureSurvives(before, e); }
      Change(e);
      HonestIsFaithful(sent, withheld);
    }

    method ToolStarts(callId: string, name: string)
      modifies this
      ensures Value() == Step(old(Value()), ToolExecutionStart(callId, name))
    {
      var id := nextId;
      nextId := nextId + 1;
      openTools := PutTool(openTools, OpenTool(callId, id, name));
      Send(ToolStart(id, name));
    }

    method Change(e: Turn.Event)
      modifies this
      ensures Value() == Step(old(Value()), e)
    {
      match e
      case MessageStart =>
        current := Some(Reply(nextId, [], None));
        nextId := nextId + 1;
      case TextDelta(text) => TextArrives(text);
      case MessageEnd(m) => MessageEnds(m);
      case ToolExecutionStart(callId, name) => ToolStarts(callId, name);
      case ToolExecutionEnd(callId, name, isError) => ToolEnds(callId, name, isError);
      case CompactionEnd(error) => if error != "" { failure := "Session compaction failed: " + error; }
      case AutoRetryStart =>
        final := None;
        if visibleOutput { failure := "Provider attempted a retry after visible reply text"; }
      case AutoRetryEnd(success, error) =>
        if !success { failure := if error.Some? then error.value else "Provider retries exhausted"; }
      case TurnEnd => turns := turns + 1;
      case Unrelated =>
    }

    /**
      `commit`, which throws when it returns false, and then has sent nothing. Otherwise it ends with
      the completion of the reply it committed, and `done`.
     */
    method CommitReply() returns (ok: bool)
      requires Valid()
      modifies this
      ensures Committed(Value(), ok) == Commit(old(Value()))
      ensures ok <==>
        && old(failure) == "" && old(openTools) == [] && old(last).Some? && old(last).value.stop == Stop
        && old(final).Some? && old(final).value.message.Some?
        && Join(old(final).value.chunks) <= Content(old(final).value.message.value)
      ensures !ok ==> sent == old(sent)
      ensures ok && streams ==>
        && old(sent) < sent && Ends(sent, Done)
        && (var body := sent[..|sent| - 1];
            && (Faithful(body) <==> NothingWithheld(body, withheld))
            && (var m := final.value.message.value;
                Ends(body, MessageComplete(final.value.id, Content(m), m.outputTokens))))
    {
      TurnCommits.CommitOf(Value());
      if !(failure == "" && last.Some? && last.value.stop == Stop && openTools == []) { return false; }
      if final.None? || final.value.message.None? { return false; }
      CompleteFrame(Value(), final.value);
      CompleteKeeps(Value(), final.value);
      Complete(final.value);
      if failure != "" { return false; }
      HonestIsFaithful(sent, withheld);
      ghost var body := sent;
      Send(Done);
      assert streams ==> sent[..|sent| - 1] == body;
      ok := true;
    }

    /** The loop over the tools that never reported an end: each ends once, in order, as failed. */
    method EndOpenTools()
      requires Valid()
      modifies this
      ensures Valid() && Value() == EndFailedTools(old(Value()))
    {
      EndFailedKeeps(Value());
      SendEndings();
      openTools := [];
    }

    method SendEndings()
      modifies this`sent
      ensures Value() == old(Value()).(sent := if streams then old(sent) + Endings(openTools) else old(sent))
    {
      for i := 0 to |openTools|
        modifies this`sent
        invariant Value() == old(Value()).(sent := if streams then old(sent) + Endings(openTools[..i]) else old(sent))
      {
        assert openTools[..i + 1][..i] == openTools[..i];
        Send(ToolComplete(openTools[i].id, openTools[i].name, false));
      }
      assert openTools[..|openTools|] == openTools;
    }
  }

  /** Completing a reply neither reads nor writes the open message. */
  lemma CompleteIgnoresCurrent(s: State, reply: Reply, c: Option<Reply>)
    ensures CompleteMessage(s.(current := c), reply).(current := None) == CompleteMessage(s, reply).(current := None)
  {
  }
}
