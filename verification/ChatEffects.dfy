/**
  What the steps of a chat bring about: when a request gets its channel, what a commit sends, what
  the session of a channel carries, and how a worker that is closed comes to its end.
 */
module ChatEffects {
  import R = Rpc
  import RT = RpcTheorems
  import opened ChatWorker
  import opened ChatTheorems

  // ---------------------------------------------------------------- arrival

  /** No chat holds the channel. */
  predicate Unheld(s: State, channel: Channel) {
    forall x :: x in s.chats && Holds(s.chats[x].phase) ==> s.chats[x].channel != channel
  }

  /**
    A request is accepted exactly while the worker is open and its id is larger than all before it. It
    then gets its channel exactly if it is well formed and no other chat holds that; else it fails.
   */
  lemma {:induction false} ArrivalExactly(s: State, id: int, channel: Channel, wellFormed: bool)
    requires Inv(s)
    ensures var t := Apply(s, Arrive(id, channel, wellFormed));
      if !s.closing && id > 0 && (forall x :: x in s.chats ==> x < id)
      then t.chats == s.chats[id := Chat(channel, if wellFormed && Unheld(s, channel) then Holding else Freed)]
      else t == s
    ensures Apply(s, Arrive(id, channel, wellFormed)).log == s.log
  {
    if channel in s.busy {
      var x := s.busy[channel];
      assert x in s.chats && Holds(s.chats[x].phase) && s.chats[x].channel == channel;
    }
  }

  // ---------------------------------------------------------------- sending

  /** The updates of one chat as log entries. */
  function Updates(id: int, packets: seq<Packet>): (r: seq<Entry>)
    ensures |r| == |packets|
  {
    seq(|packets|, i requires 0 <= i < |packets| => Entry(id, id, Update(packets[i].content)))
  }

  /** All of the entries were sent, one line each, or all up to one that was too long or ended the transport. */
  predicate Sends(s: State, t: State, all: seq<Entry>, bytes: seq<nat>, ok: bool)
    requires |all| == |bytes|
  {
    var n := |t.log| - |s.log|;
    && 0 <= n <= |all| && t.log == s.log + all[..n] && |t.rpc.lines| == |s.rpc.lines| + n
    && (ok <==> n == |all|)
    && (!ok ==> t.rpc.ending || !RT.Short(bytes[n]))
  }

  lemma {:induction false} SendOne(s: State, entry: Entry, bytes: nat)
    requires R.Inv(s.rpc) && !s.closing
    ensures var r := Send(s, entry, bytes);
      Sends(s, r.state, [entry], [bytes], r.ok) && R.Inv(r.state.rpc) && !r.state.closing
  {
    SendKeepsRpc(s, entry, bytes);
    RT.LineTakenExactly(s.rpc, R.Line(R.Notes, bytes));
    assert [entry][..1] == [entry] && [entry][..0] == [];
    assert s.log + [] == s.log;
  }

  function Lengths(packets: seq<Packet>): (r: seq<nat>)
    ensures |r| == |packets|
  {
    seq(|packets|, i requires 0 <= i < |packets| => packets[i].bytes)
  }

  lemma {:induction false} SendMany(s: State, id: int, packets: seq<Packet>)
    requires R.Inv(s.rpc) && !s.closing
    ensures var r := SendAll(s, id, id, packets);
      Sends(s, r.state, Updates(id, packets), Lengths(packets), r.ok) && R.Inv(r.state.rpc) && !r.state.closing
    decreases |packets|
  {
    if packets == [] {
      assert Updates(id, packets)[..0] == [] && s.log + [] == s.log;
    } else {
      var entry := Entry(id, id, Update(packets[0].content));
      var first := Send(s, entry, packets[0].bytes);
      SendOne(s, entry, packets[0].bytes);
      if first.ok {
        SendMany(first.state, id, packets[1..]);
        var r := SendAll(first.state, id, id, packets[1..]);
        SendsOn(s, first.state, r.state, id, packets, r.ok);
      } else {
        assert Updates(id, packets)[..0] == [] && first.state.log == s.log + [];
      }
    }
  }

  lemma {:induction false} SendsOn(s: State, f: State, t: State, id: int, packets: seq<Packet>, ok: bool)
    requires packets != [] && |f.rpc.lines| == |s.rpc.lines| + 1
    requires f.log == s.log + [Entry(id, id, Update(packets[0].content))]
    requires Sends(f, t, Updates(id, packets[1..]), Lengths(packets[1..]), ok)
    ensures Sends(s, t, Updates(id, packets), Lengths(packets), ok)
  {
    var n := |t.log| - |f.log|;
    var head, rest := Entry(id, id, Update(packets[0].content)), Updates(id, packets[1..]);
    assert Updates(id, packets) == [head] + rest;
    assert ([head] + rest)[..n + 1] == [head] + rest[..n];
    assert s.log + [head] + rest[..n] == s.log + ([head] + rest[..n]);
  }

  lemma {:induction false} OpenCommitSends(s: State, id: int, packets: seq<Packet>, bytes: nat)
    requires R.Inv(s.rpc) && !s.closing && id in s.chats && Stamp(s, s.chats[id].channel) == id
    ensures var r := SendCommit(s, id, packets, bytes);
      Sends(s, r.state, Updates(id, packets) + [Entry(id, id, Finished)], Lengths(packets) + [bytes], r.ok)
  {
    var r := SendAll(s, id, id, packets);
    SendMany(s, id, packets);
    if r.ok {
      SendOne(r.state, Entry(id, id, Finished), bytes);
      var t := Send(r.state, Entry(id, id, Finished), bytes);
      SendsLast(s, r.state, t.state, Updates(id, packets), Entry(id, id, Finished), Lengths(packets), bytes, t.ok);
    } else {
      SendsSome(s, r.state, Updates(id, packets), Entry(id, id, Finished), Lengths(packets), bytes);
    }
  }

  /**
    A commit of an open worker sends the last updates in order and then `done`, a line for each, and
    succeeds exactly if all were sent; it stops at a line that is too long or finds the queue full. A
    worker that is closing sends nothing, and the chat still ends as committed.
   */
  lemma {:induction false} CommitSends(s: State, id: int, packets: seq<Packet>, bytes: nat)
    requires Inv(s) && In(s, id, Running)
    ensures var t := DoCommit(s, id, packets, bytes);
      var all := Updates(id, packets) + [Entry(id, id, Finished)];
      if s.closing then t.log == s.log && t.rpc == s.rpc && In(t, id, Committed)
      else Sends(s, t, all, Lengths(packets) + [bytes], In(t, id, Committed))
  {
    if s.closing {
      SilentSendAll(s, id, id, packets);
    } else {
      OpenCommitSends(s, id, packets, bytes);
      SendingKeeps(s, id, packets, bytes);
    }
  }

  lemma {:induction false} SendsLast(s: State, f: State, t: State, all: seq<Entry>, last: Entry, lengths: seq<nat>,
      bytes: nat, ok: bool)
    requires |all| == |lengths| && Sends(s, f, all, lengths, true) && Sends(f, t, [last], [bytes], ok)
    ensures Sends(s, t, all + [last], lengths + [bytes], ok)
  {
    var n := |t.log| - |f.log|;
    assert all[..|all|] == all;
    assert (all + [last])[..|all| + n] == all + [last][..n];
    assert t.log == s.log + (all + [last])[..|all| + n];
  }

  lemma {:induction false} SendsSome(s: State, f: State, all: seq<Entry>, last: Entry, lengths: seq<nat>, bytes: nat)
    requires |all| == |lengths| && Sends(s, f, all, lengths, false)
    ensures Sends(s, f, all + [last], lengths + [bytes], false)
  {
    var n := |f.log| - |s.log|;
    assert (all + [last])[..n] == all[..n];
  }

  /** An update of a running chat of an open worker is sent as one line, unless it is too long or ends the transport. */
  lemma {:induction false} UpdateSends(s: State, id: int, packet: Packet)
    requires Inv(s) && In(s, id, Running) && !s.closing
    ensures var t := Apply(s, Emit(id, packet));
      Sends(s, t, [Entry(id, id, Update(packet.content))], [packet.bytes], |t.log| > |s.log|)
  {
    SendOne(s, Entry(id, id, Update(packet.content)), packet.bytes);
  }

  // ---------------------------------------------------------------- what a session carries

  /** The step puts a chat's id into the channel's session. */
  predicate Installs(s: State, step: Step, c: Channel) {
    step.Install? && step.id in s.chats && s.chats[step.id].channel == c
  }

  lemma {:induction false} StampStep(s: State, step: Step, c: Channel)
    requires Enabled(s, step)
    ensures Stamp(Apply(s, step), c) ==
      if Installs(s, step, c) then step.id else if step == Retire(c) then 0 else Stamp(s, c)
    ensures c in Apply(s, step).current <==>
      (c in s.current && step != Retire(c)) ||
      ((step.Lease? || step.Install?) && s.chats[step.id].channel == c)
  {
    if step.Commit? { SendingKeeps(s, step.id, step.packets, step.bytes); }
  }

  /** Step `k` put the chat's id into the channel's session, which has been neither given another nor retired since. */
  ghost predicate CarriedFrom(states: seq<State>, steps: seq<Step>, n: nat, c: Channel, id: int, k: int)
    requires |states| == |steps| + 1 && n < |states|
  {
    && 0 <= k < n && Installs(states[k], steps[k], c) && steps[k].id == id
    && forall j :: k < j < n ==> steps[j] != Retire(c) && !Installs(states[j], steps[j], c)
  }

  ghost predicate Carried(states: seq<State>, steps: seq<Step>, n: nat, c: Channel, id: int)
    requires |states| == |steps| + 1 && n < |states|
  {
    exists k :: CarriedFrom(states, steps, n, c, id, k)
  }

  lemma {:induction false} CarriedLater(states: seq<State>, steps: seq<Step>, n: nat, c: Channel, id: int)
    requires |states| == |steps| + 1 && n < |steps|
    ensures Carried(states, steps, n + 1, c, id) <==>
      if Installs(states[n], steps[n], c) then steps[n].id == id
      else steps[n] != Retire(c) && Carried(states, steps, n, c, id)
  {
    var m := n + 1;
    if Carried(states, steps, m, c, id) {
      var k :| CarriedFrom(states, steps, m, c, id, k);
      assert k < n ==> CarriedFrom(states, steps, n, c, id, k);
    }
    if Installs(states[n], steps[n], c) {
      assert steps[n].id == id ==> CarriedFrom(states, steps, m, c, id, n);
    } else if steps[n] != Retire(c) && Carried(states, steps, n, c, id) {
      var k :| CarriedFrom(states, steps, n, c, id, k);
      assert CarriedFrom(states, steps, m, c, id, k);
    }
  }

  lemma {:induction false} NextStamp(states: seq<State>, steps: seq<Step>, n: nat, c: Channel)
    requires IsRun(states, steps) && n < |steps|
    ensures Stamp(states[n + 1], c) ==
      if Installs(states[n], steps[n], c) then steps[n].id else if steps[n] == Retire(c) then 0 else Stamp(states[n], c)
  {
    assert Enabled(states[n], steps[n]);
    StampStep(states[n], steps[n], c);
  }

  /** A session carries an id exactly if that chat was the last installed in it since it was opened. */
  lemma {:induction false} SessionCarriesLast(states: seq<State>, steps: seq<Step>, n: nat, c: Channel, id: int)
    requires IsRun(states, steps) && n < |states| && id != 0
    ensures Stamp(states[n], c) == id <==> Carried(states, steps, n, c, id)
  {
    if n > 0 {
      SessionCarriesLast(states, steps, n - 1, c, id);
      NextStamp(states, steps, n - 1, c);
      CarriedLater(states, steps, n - 1, c, id);
    }
  }

  // ---------------------------------------------------------------- the end of a closed worker

  ghost predicate IsPath(states: seq<State>, steps: seq<Step>) {
    && |states| == |steps| + 1
    && forall i {:trigger steps[i]} :: 0 <= i < |steps| ==>
         Enabled(states[i], steps[i]) && states[i + 1] == Apply(states[i], steps[i])
  }

  /** A path of the transport in which nobody notifies is one of the closed worker. */
  lemma {:induction false} Lifted(s: State, rs: seq<R.State>, moves: seq<R.Step>)
      returns (states: seq<State>, steps: seq<Step>)
    requires s.closing && RT.IsPath(rs, moves) && rs[0] == s.rpc
    requires forall i :: 0 <= i < |moves| ==> !moves[i].Notify?
    ensures IsPath(states, steps) && states[0] == s && |states| == |rs|
    ensures states[|steps|] == s.(rpc := rs[|moves|])
  {
    states := seq(|rs|, i requires 0 <= i < |rs| => s.(rpc := rs[i]));
    steps := seq(|moves|, i requires 0 <= i < |moves| => Transport(moves[i]));
    forall i {:trigger steps[i]} | 0 <= i < |steps|
      ensures Enabled(states[i], steps[i]) && states[i + 1] == Apply(states[i], steps[i])
    {
      assert R.Enabled(rs[i], moves[i]) && rs[i + 1] == R.Apply(rs[i], moves[i]);
    }
  }

  /** A closed worker whose requests are answered can always end cleanly, with every line that was queued delivered. */
  lemma {:induction false} ClosedWorkerEnds(s: State) returns (states: seq<State>, steps: seq<Step>)
    requires Inv(s) && s.closing && s.rpc.ending && s.rpc.handlers == {} && s.rpc.flush < 0
    requires !s.rpc.closed && !s.rpc.failed
    ensures IsPath(states, steps) && states[0] == s && RT.ClosedClean(states[|steps|].rpc)
    ensures states[|steps|].rpc.delivered >= |s.rpc.lines|
  {
    var rs, moves := RT.CanCloseClean(s.rpc);
    states, steps := Lifted(s, rs, moves);
  }
}
