/**
  The object of BoBeAgent/src/worker.ts as chats see it, with the transport it sends through. Its
  fields change in place as the steps of `ChatWorker` say, and it stays valid: one chat a channel,
  every delta under its own chat's id, and nothing after a terminal one.
 */
module WorkerHostObject {
  import R = Rpc
  import opened RpcObject
  import opened ChatWorker
  import opened ChatTheorems

  lemma {:induction false} CommitMeans(s: State, id: int, packets: seq<Packet>, bytes: nat)
    requires Inv(s) && In(s, id, Running)
    ensures var ok := SendCommit(s, id, packets, bytes).ok;
      var t := DoCommit(s, id, packets, bytes);
      && Inv(t) && In(t, id, if ok then Committed else Failing)
      && Terminals(t.log, id) == if ok && !s.closing then 1 else 0
  {
    StepKeeps(s, Commit(id, packets, bytes));
    CommitTerminals(s, id, packets, bytes, id);
    OpenHasNone(s.log, id);
  }

  lemma {:induction false} ReportMeans(s: State, id: int, bytes: nat)
    requires Inv(s) && Enabled(s, Report(id, bytes))
    ensures var t := Moved(Send(s, Entry(id, id, Error), bytes).state, id, Settled);
      && Inv(t) && t == Apply(s, Report(id, bytes))
      && Terminals(t.log, id) == if Heard(s, Report(id, bytes)) then 1 else 0
  {
    StepKeeps(s, Report(id, bytes));
    SendTerminals(s, Entry(id, id, Error), bytes, id);
    OpenHasNone(s.log, id);
  }

  class WorkerHost {
    const connection: JsonlRpc
    var lastRequest: int
    var closing: bool
    var channelRequests: map<Channel, int>
    ghost var current: map<Channel, int>
    ghost var chats: map<int, Chat>
    ghost var log: seq<Entry>

    ghost function View(): State
      reads this, connection
    {
      State(lastRequest, closing, channelRequests, current, chats, log, connection.View())
    }

    ghost predicate Valid()
      reads this, connection
    {
      Inv(View())
    }

    constructor (connection: JsonlRpc)
      requires connection.View() == R.START
      ensures Valid() && View() == START && this.connection == connection
    {
      this.connection := connection;
      lastRequest, closing, channelRequests := 0, false, map[];
      current, chats, log := map[], map[], [];
      new;
      assert R.Inv(R.START);
    }

    /** The start of `request` and of `channelActivity`; a refusal before the request is accepted reports nothing. */
    method Request(id: int, channel: Channel, wellFormed: bool) returns (accepted: bool, holds: bool)
      requires Valid()
      modifies this
      ensures Valid() && View() == DoArrive(old(View()), id, channel, wellFormed)
      ensures accepted <==> !closing && id > old(lastRequest)
      ensures holds <==> accepted && wellFormed && channel !in old(channelRequests)
      ensures holds ==> forall x :: x in chats && Holds(chats[x].phase) && chats[x].channel == channel ==> x == id
    {
      ghost var before := View();
      StepKeeps(before, Arrive(id, channel, wellFormed));
      accepted, holds := false, false;
      if closing { return; }
      if id <= lastRequest { return; }
      lastRequest := id;
      accepted := true;
      if !wellFormed || channel in channelRequests {
        chats := chats[id := Chat(channel, Freed)];
      } else {
        channelRequests := channelRequests[channel := id];
        chats := chats[id := Chat(channel, Holding)];
        holds := true;
      }
      assert View() == DoArrive(before, id, channel, wellFormed);
    }

    /** `notify`, which throws when it returns false. */
    method Notify(entry: Entry, bytes: nat) returns (ok: bool)
      requires connection.Valid()
      modifies this`log, connection
      ensures connection.Valid()
      ensures Sent(View(), ok) == Send(old(View()), entry, bytes)
    {
      if closing { return true; }
      ok := connection.NotifyHost(bytes);
      if ok {
        log := log + [entry];
      }
    }

    /**
      The end of a chat whose run succeeded: its last updates and `done`, unless one is refused. It
      has sent exactly one terminal delta if it returns and the worker is not closing, and none otherwise.
     */
    method CommitChat(id: int, packets: seq<Packet>, bytes: nat) returns (ok: bool)
      requires Valid() && In(View(), id, Running)
      modifies this, connection
      ensures Valid() && View() == DoCommit(old(View()), id, packets, bytes)
      ensures In(View(), id, if ok then Committed else Failing)
      ensures Terminals(log, id) == if ok && !closing then 1 else 0
    {
      ghost var before := View();
      CommitMeans(before, id, packets, bytes);
      ok := SendReply(id, packets, bytes);
      chats := chats[id := chats[id].(phase := if ok then Committed else Failing)];
      assert View() == DoCommit(before, id, packets, bytes);
    }

    /** The last updates and `done`, up to the first that is refused. */
    method SendReply(id: int, packets: seq<Packet>, bytes: nat) returns (ok: bool)
      requires connection.Valid() && id in chats && Stamp(View(), chats[id].channel) == id
      modifies this`log, connection
      ensures connection.Valid()
      ensures Sent(View(), ok) == SendCommit(old(View()), id, packets, bytes)
    {
      ok := SendUpdates(id, packets);
      if ok {
        ok := Notify(Entry(id, id, Finished), bytes);
      }
    }

    /** The updates go out one by one, up to the first that is refused. */
    method SendUpdates(id: int, packets: seq<Packet>) returns (ok: bool)
      requires connection.Valid()
      modifies this`log, connection
      ensures connection.Valid()
      ensures Sent(View(), ok) == SendAll(old(View()), id, id, packets)
    {
      var i := 0;
      while i < |packets|
        invariant i <= |packets| && connection.Valid()
        invariant SendAll(View(), id, id, packets[i..]) == SendAll(old(View()), id, id, packets)
      {
        assert packets[i..][1..] == packets[i + 1..];
        ghost var here := View();
        var sent := Notify(Entry(id, id, Update(packets[i].content)), packets[i].bytes);
        if !sent {
          assert SendAll(here, id, id, packets[i..]) == Sent(View(), false);
          return false;
        }
        i := i + 1;
      }
      return true;
    }

    /** The `finally` of `channelActivity`: no chat holds the channel any more. */
    method FreeChannel(id: int, channel: Channel)
      requires Valid() && Enabled(View(), Free(id)) && channel == chats[id].channel
      modifies this
      ensures Valid() && View() == DoFree(old(View()), id)
      ensures channel !in channelRequests
      ensures forall x :: x in chats && Holds(chats[x].phase) ==> chats[x].channel != channel
    {
      ghost var before := View();
      StepKeeps(before, Free(id));
      channelRequests := channelRequests - {channel};
      chats := chats[id := chats[id].(phase := if chats[id].phase == Committed then Returned else Freed)];
      assert View() == DoFree(before, id);
    }

    /** The `catch` of `request`: the chat settles, with one terminal delta exactly when the report is heard. */
    method ReportError(id: int, bytes: nat)
      requires Valid() && Enabled(View(), Report(id, bytes))
      modifies this, connection
      ensures Valid() && View() == Apply(old(View()), Report(id, bytes))
      ensures Terminals(log, id) == if Heard(old(View()), Report(id, bytes)) then 1 else 0
    {
      ghost var before := View();
      ReportMeans(before, id, bytes);
      var ok := Notify(Entry(id, id, Error), bytes);
      chats := chats[id := chats[id].(phase := Settled)];
      assert View() == Moved(Send(before, Entry(id, id, Error), bytes).state, id, Settled);
    }

    method Close()
      requires Valid()
      modifies this
      ensures Valid() && closing
    {
      StepKeeps(View(), Shutdown);
      closing := true;
    }
  }
}
