/**
  The balance of the tool deltas of a turn (BoBeAgent/src/events.ts): whether every tool announced
  as started is announced as ended, once, by the time `endFailedTools` has closed the turn.
 */
module ToolBalance {
  import opened Common
  import opened Turn

  // ---------------------------------------------------------------- what is counted

  /** How often the tool with this identity was announced as ended. */
  function Completions(sent: seq<Delta>, id: nat): nat {
    if sent == [] then 0
    else
      var last := sent[|sent| - 1];
      Completions(sent[..|sent| - 1], id) + if last.ToolComplete? && last.toolId == id then 1 else 0
  }

  predicate IsTool(d: Delta) {
    d.ToolStart? || d.ToolComplete?
  }

  predicate Started(sent: seq<Delta>, id: nat) {
    exists i :: 0 <= i < |sent| && sent[i].ToolStart? && sent[i].toolId == id
  }

  predicate IsOpen(tools: seq<OpenTool>, id: nat) {
    exists i :: 0 <= i < |tools| && tools[i].id == id
  }

  /** Every tool announced as started is announced as ended exactly once. */
  ghost predicate Balanced(sent: seq<Delta>) {
    forall id :: Started(sent, id) ==> Completions(sent, id) == 1
  }

  /** A call that is started while a call of the same name tag is open takes the other's place. */
  predicate Restarts(s: State, e: Event) {
    e.ToolExecutionStart? && FindTool(s.openTools, e.callId) >= 0
  }

  ghost predicate NeverRestarts(es: seq<Event>) {
    forall i :: 0 <= i < |es| ==> !Restarts(Run(true, es[..i]), es[i])
  }

  // ---------------------------------------------------------------- the ledger

  ghost predicate Distinct(tools: seq<OpenTool>) {
    forall i, j :: 0 <= i < j < |tools| ==> tools[i].id != tools[j].id && tools[i].callId != tools[j].callId
  }

  /** An identity in use was drawn before; an open one is announced and not ended; none is ended twice. */
  predicate Sound(s: State, id: nat) {
    && (Started(s.sent, id) || IsOpen(s.openTools, id) || Completions(s.sent, id) > 0 ==> id < s.nextId)
    && (IsOpen(s.openTools, id) ==> Started(s.sent, id) && Completions(s.sent, id) == 0)
    && Completions(s.sent, id) <= 1
  }

  ghost predicate Ledger(s: State) {
    Distinct(s.openTools) && forall id :: Sound(s, id)
  }

  /** The tool was announced as started and can no longer be announced as ended. */
  predicate Lost(s: State, id: nat) {
    Started(s.sent, id) && Completions(s.sent, id) == 0 && !IsOpen(s.openTools, id)
  }

  lemma {:induction false} Appended(sent: seq<Delta>, d: Delta, id: nat)
    ensures Completions(sent + [d], id) == Completions(sent, id) + if d.ToolComplete? && d.toolId == id then 1 else 0
    ensures Started(sent + [d], id) <==> Started(sent, id) || (d.ToolStart? && d.toolId == id)
  {
    var all := sent + [d];
    assert all[..|sent|] == sent;
    assert all[|sent|] == d;
    if Started(sent, id) {
      var i :| 0 <= i < |sent| && sent[i].ToolStart? && sent[i].toolId == id;
      assert all[i] == sent[i];
    }
  }

  /** Other deltas leave the ledger as it is. */
  ghost predicate Quiet(before: seq<Delta>, after: seq<Delta>) {
    before <= after && forall i :: |before| <= i < |after| ==> !IsTool(after[i])
  }

  lemma {:induction false} QuietKeeps(before: seq<Delta>, after: seq<Delta>, id: nat)
    requires Quiet(before, after)
    ensures Completions(after, id) == Completions(before, id) && (Started(after, id) <==> Started(before, id))
    decreases |after|
  {
    if |after| == |before| {
      assert after == before;
    } else {
      var n := |after| - 1;
      QuietKeeps(before, after[..n], id);
      Appended(after[..n], after[n], id);
      assert after[..n] + [after[n]] == after;
    }
  }

  lemma {:induction false} CompleteIsQuiet(s: State, reply: Reply)
    ensures var r := CompleteMessage(s, reply);
      Quiet(s.sent, r.sent) && r.openTools == s.openTools && r.nextId == s.nextId
  {
  }

  lemma {:induction false} OtherIsQuiet(s: State, e: Event)
    requires !e.ToolExecutionStart? && !e.ToolExecutionEnd?
    ensures var r := Step(s, e); Quiet(s.sent, r.sent) && r.openTools == s.openTools && r.nextId >= s.nextId
  {
    match e
    case MessageEnd(m) =>
      if s.current.Some? {
        var reply := s.current.value.(message := Some(m));
        var r := s.(last := Some(m));
        CompleteIsQuiet(if m.stop == Stop then r.(final := Some(reply)) else r, reply);
      }
    case _ =>
  }

  // ---------------------------------------------------------------- one event

  /** The ledger goes on: nothing lost is found again, and one more tool is lost exactly with `extra`. */
  ghost predicate Continues(s: State, r: State, extra: set<nat>) {
    Ledger(r) && forall id :: Lost(r, id) <==> Lost(s, id) || id in extra
  }

  lemma {:induction false} OtherContinues(s: State, e: Event)
    requires Ledger(s) && !e.ToolExecutionStart? && !e.ToolExecutionEnd?
    ensures Continues(s, Step(s, e), {})
  {
    var r := Step(s, e);
    OtherIsQuiet(s, e);
    forall id ensures Sound(r, id) && (Lost(r, id) <==> Lost(s, id)) {
      QuietKeeps(s.sent, r.sent, id);
      assert Sound(s, id);
    }
  }

  lemma {:induction false} PutOpens(tools: seq<OpenTool>, tool: OpenTool, id: nat)
    requires Distinct(tools)
    ensures var i := FindTool(tools, tool.callId);
      IsOpen(PutTool(tools, tool), id) <==> id == tool.id || (IsOpen(tools, id) && !(i >= 0 && tools[i].id == id))
  {
    var i, r := FindTool(tools, tool.callId), PutTool(tools, tool);
    assert r[if i < 0 then |tools| else i] == tool;
    if IsOpen(tools, id) {
      var j :| 0 <= j < |tools| && tools[j].id == id;
      assert j != i ==> r[j] == tools[j];
    }
  }

  lemma {:induction false} PutDistinct(tools: seq<OpenTool>, tool: OpenTool)
    requires Distinct(tools) && !IsOpen(tools, tool.id)
    ensures Distinct(PutTool(tools, tool))
  {
    assert forall j :: 0 <= j < |tools| ==> tools[j].id != tool.id;
  }

  lemma {:induction false} DropOpens(tools: seq<OpenTool>, i: nat, id: nat)
    requires Distinct(tools) && i < |tools|
    ensures IsOpen(tools[..i] + tools[i + 1..], id) <==> IsOpen(tools, id) && id != tools[i].id
  {
    var r := tools[..i] + tools[i + 1..];
    if IsOpen(tools, id) && id != tools[i].id {
      var j :| 0 <= j < |tools| && tools[j].id == id;
      assert r[if j < i then j else j - 1] == tools[j];
    }
  }

  /** What a start does to one identity. */
  lemma {:induction false} StartOne(s: State, r: State, tool: OpenTool, id: nat)
    requires Distinct(s.openTools) && Sound(s, id) && tool.id == s.nextId
    requires r.openTools == PutTool(s.openTools, tool) && r.nextId == s.nextId + 1
    requires r.sent == s.sent + [ToolStart(tool.id, tool.name)]
    ensures Sound(r, id)
    ensures var i := FindTool(s.openTools, tool.callId);
      Lost(r, id) <==> Lost(s, id) || (i >= 0 && id == s.openTools[i].id)
  {
    var i := FindTool(s.openTools, tool.callId);
    assert i >= 0 ==> IsOpen(s.openTools, s.openTools[i].id);
    PutOpens(s.openTools, tool, id);
    Appended(s.sent, ToolStart(tool.id, tool.name), id);
  }

  lemma {:induction false} StartContinues(s: State, callId: string, name: string)
    requires Ledger(s) && s.streams
    ensures var i := FindTool(s.openTools, callId);
      Continues(s, Step(s, ToolExecutionStart(callId, name)), if i >= 0 then {s.openTools[i].id} else {})
  {
    var r, tool := Step(s, ToolExecutionStart(callId, name)), OpenTool(callId, s.nextId, name);
    assert Sound(s, s.nextId);
    PutDistinct(s.openTools, tool);
    forall id
      ensures Sound(r, id)
      ensures var i := FindTool(s.openTools, callId);
        Lost(r, id) <==> Lost(s, id) || (i >= 0 && id == s.openTools[i].id)
    {
      StartOne(s, r, tool, id);
    }
  }

  lemma {:induction false} EndContinues(s: State, callId: string, name: string, isError: bool)
    requires Ledger(s) && s.streams
    ensures Continues(s, OnToolEnd(s, callId, name, isError), {})
  {
    var i, r := FindTool(s.openTools, callId), OnToolEnd(s, callId, name, isError);
    var ended := if i < 0 then s.nextId else s.openTools[i].id;
    assert i >= 0 ==> IsOpen(s.openTools, ended);
    assert Sound(s, ended);
    forall id ensures Sound(r, id) && (Lost(r, id) <==> Lost(s, id)) {
      assert Sound(s, id);
      if i >= 0 { DropOpens(s.openTools, i, id); }
      Appended(s.sent, ToolComplete(ended, name, !isError), id);
    }
  }

  lemma {:induction false} StepContinues(s: State, e: Event) returns (extra: set<nat>)
    requires Ledger(s) && s.streams
    ensures Continues(s, Step(s, e), extra) && (extra != {} <==> Restarts(s, e))
  {
    extra := {};
    match e
    case ToolExecutionStart(callId, name) =>
      StartContinues(s, callId, name);
      if Restarts(s, e) { extra := {s.openTools[FindTool(s.openTools, callId)].id}; }
    case ToolExecutionEnd(callId, name, isError) => EndContinues(s, callId, name, isError);
    case _ => OtherContinues(s, e);
  }

  // ---------------------------------------------------------------- whole turns

  lemma {:induction false} RunLedger(es: seq<Event>)
    ensures Ledger(Run(true, es))
    ensures NeverRestarts(es) <==> forall id :: !Lost(Run(true, es), id)
  {
    if es != [] {
      var front, e := es[..|es| - 1], es[|es| - 1];
      var s := Run(true, front);
      RunLedger(front);
      RunStreams(true, front);
      var extra := StepContinues(s, e);
      assert forall i :: 0 <= i < |front| ==> front[..i] == es[..i];
      if !NeverRestarts(es) {
        var i :| 0 <= i < |es| && Restarts(Run(true, es[..i]), es[i]);
        if i < |front| {
          assert Restarts(Run(true, front[..i]), front[i]);
        } else {
          var id :| id in extra;
          assert Lost(Run(true, es), id);
        }
      }
    }
  }

  lemma {:induction false} EndingsComplete(sent: seq<Delta>, tools: seq<OpenTool>, id: nat)
    requires Distinct(tools)
    ensures Completions(sent + Endings(tools), id) == Completions(sent, id) + if IsOpen(tools, id) then 1 else 0
    ensures Started(sent + Endings(tools), id) <==> Started(sent, id)
  {
    if tools == [] {
      assert sent + Endings(tools) == sent;
    } else {
      var front, last := tools[..|tools| - 1], tools[|tools| - 1];
      var d := ToolComplete(last.id, last.name, false);
      EndingsComplete(sent, front, id);
      Appended(sent + Endings(front), d, id);
      assert sent + Endings(tools) == sent + Endings(front) + [d];
      assert IsOpen(tools, id) <==> IsOpen(front, id) || last.id == id by {
        if IsOpen(front, id) {
          var i :| 0 <= i < |front| && front[i].id == id;
          assert tools[i] == front[i];
        }
      }
    }
  }

  /**
    After `endFailedTools` every tool announced as started has been announced as ended exactly once
    if and only if no call of the turn was started again while it was open. No tool is announced as
    ended twice in any turn.
   */
  lemma {:induction false} ToolsBalanceExactly(es: seq<Event>)
    ensures var sent := EndFailedTools(Run(true, es)).sent;
      (Balanced(sent) <==> NeverRestarts(es)) && forall id :: Completions(sent, id) <= 1
  {
    var s := Run(true, es);
    var sent := EndFailedTools(s).sent;
    RunLedger(es);
    RunStreams(true, es);
    forall id
      ensures Completions(sent, id) <= 1
      ensures Lost(s, id) <==> Started(sent, id) && Completions(sent, id) != 1
    {
      assert Sound(s, id);
      EndingsComplete(s.sent, s.openTools, id);
    }
  }
}
