/**
  The object of BoBeAgent/src/rpc.ts: its fields change in place as the steps of `Rpc` say, and an
  object stays valid: the queue's accounting and the ledgers of callbacks and requests are exact.
 */
module RpcObject {
  import opened Rpc

  class JsonlRpc {
    var nextId: int
    var callbacks: seq<int>
    var lastRequest: int
    var handlers: set<int>
    var queuedWrites: int
    var queuedBytes: int
    var ending: bool
    var closed: bool
    var failed: bool
    ghost var broken: bool
    ghost var issued: seq<int>
    ghost var settled: seq<int>
    ghost var accepted: seq<int>
    ghost var answered: seq<int>
    ghost var lines: seq<Line>
    ghost var written: nat
    ghost var delivered: nat
    ghost var flush: int
    ghost var handed: seq<Line>

    /** The state of the transport as a value. */
    ghost function View(): State
      reads this
    {
      State(nextId, callbacks, lastRequest, handlers, queuedWrites, queuedBytes, ending, closed, failed, broken,
            issued, settled, accepted, answered, lines, written, delivered, flush, handed)
    }

    ghost predicate Valid()
      reads this
    {
      Inv(View())
    }

    constructor ()
      ensures Valid() && View() == START
    {
      nextId := -1;
      callbacks := [];
      lastRequest := 0;
      handlers := {};
      queuedWrites, queuedBytes := 0, 0;
      ending, closed, failed, broken := false, false, false, false;
      issued, settled, accepted, answered, lines, handed := [], [], [], [], [], [];
      written, delivered, flush := 0, 0, -1;
    }

    /** Every waiting caller is rejected, in order, and the table is cleared. */
    method RejectCallbacks()
      modifies this
      ensures View() == old(View()).(settled := old(settled) + old(callbacks), callbacks := [])
    {
      var i := 0;
      while i < |callbacks|
        invariant i <= |callbacks|
        invariant View() == old(View()).(settled := old(settled) + callbacks[..i])
      {
        settled := settled + [callbacks[i]];
        i := i + 1;
        assert callbacks[..i] == callbacks[..i - 1] + [callbacks[i - 1]];
      }
      assert callbacks[..i] == callbacks;
      callbacks := [];
    }

    method FinishOnce()
      modifies this
      ensures View() == Finish(old(View()))
    {
      if !ending {
        ending := true;
        RejectCallbacks();
      }
    }

    method Abort()
      modifies this
      ensures View() == Terminate(old(View()))
    {
      failed := true;
      FinishOnce();
    }

    method Push(line: Line) returns (ok: bool)
      modifies this
      ensures ok == Accepts(old(View()), line)
      ensures View() == Enqueue(old(View()), line)
    {
      if line.bytes - 1 > MAX_LINE_BYTES || closed {
        return false;
      }
      if queuedWrites >= MAX_QUEUED_WRITES || queuedBytes + line.bytes > MAX_LINE_BYTES * 2 {
        Abort();
        return false;
      }
      queuedWrites := queuedWrites + 1;
      queuedBytes := queuedBytes + line.bytes;
      lines := lines + [line];
      return true;
    }

    method Settle(id: int)
      modifies this
      ensures View() == SettleCallback(old(View()), id)
    {
      callbacks := Remove(callbacks, id);
      settled := settled + [id];
    }

    /**
      `notify`, which throws when it returns false: the line was too long, the transport closed, or the queue full,
      which ends it.
     */
    method NotifyHost(bytes: nat) returns (ok: bool)
      requires Valid()
      modifies this
      ensures Valid() && View() == Enqueue(old(View()), Line(Notes, bytes))
      ensures ok == Accepts(old(View()), Line(Notes, bytes))
      ensures ok ==> lines == old(lines) + [Line(Notes, bytes)]
      ensures !ok ==> lines == old(lines) && (bytes - 1 > MAX_LINE_BYTES || ending)
    {
      StepKeeps(View(), Step.Notify(bytes));
      ok := Push(Line(Notes, bytes));
    }

    /**
      The id of the call, or nothing when it was refused before an id was issued. An id that was
      issued waits, and then its request line was queued, or is settled.
     */
    method Ask(bytes: nat) returns (id: int)
      requires Valid()
      modifies this
      ensures Valid() && View() == DoCall(old(View()), bytes)
      ensures id != 0 ==> id == old(nextId) && issued == old(issued) + [id] && (id in callbacks || id in settled)
      ensures id != 0 && id in callbacks ==> lines == old(lines) + [Line(Asks(id), bytes)]
      ensures id == 0 ==> issued == old(issued)
    {
      StepKeeps(View(), Step.Call(bytes));
      id := Call(bytes);
    }

    method Call(bytes: nat) returns (id: int)
      requires nextId < 0
      modifies this
      ensures View() == DoCall(old(View()), bytes)
      ensures id != 0 ==> id == old(nextId) && issued == old(issued) + [id] && (id in callbacks || id in settled)
      ensures id == 0 ==> issued == old(issued)
    {
      if closed || ending || |callbacks| >= MAX_PENDING {
        return 0;
      }
      id := nextId;
      nextId := nextId - 1;
      if id < MIN_SAFE_INTEGER {
        return 0;
      }
      callbacks := callbacks + [id];
      issued := issued + [id];
      var ok := Push(Line(Asks(id), bytes));
      if !ok && id in callbacks {
        Settle(id);
      }
    }

    /** A reply settles the callback that waits for it; any other ends the transport, and then no callback waits. */
    method ReceiveReply(id: int)
      requires Valid()
      modifies this
      ensures Valid() && View() == DoReply(old(View()), id)
      ensures id !in callbacks && (id in old(callbacks) ==> settled == old(settled) + [id])
      ensures id !in old(callbacks) ==> ending && callbacks == []
    {
      ghost var before := View();
      AsksStay(before, DoReply(before, id));
      if id in callbacks {
        SettleKeeps(before, id);
        Settle(id);
      } else {
        TerminateKeeps(before);
        Abort();
      }
    }

    /** A request is accepted exactly when it comes in order, while the transport is open and few enough run. */
    method ReceiveRequest(id: int) returns (accept: bool)
      requires Valid()
      modifies this
      ensures Valid() && View() == DoRequest(old(View()), id)
      ensures accept <==> !old(ending) && id > old(lastRequest) && |old(handlers)| < MAX_PENDING
      ensures accept ==> id in handlers && accepted == old(accepted) + [id] && id !in old(accepted)
      ensures !accept ==> ending && accepted == old(accepted)
    {
      RequestKeeps(View(), id);
      AsksStay(View(), DoRequest(View(), id));
      accept := !ending && id > lastRequest && |handlers| < MAX_PENDING;
      if accept {
        lastRequest := id;
        handlers := handlers + {id};
        accepted := accepted + [id];
      } else {
        Abort();
      }
    }

    /** The handler of `id` settles. Its answer is one new line of the queue, or the transport ends with an error. */
    method Answered(id: int, bytes: nat, fault: bool, shutdown: bool) returns (ok: bool)
      requires Valid() && id in handlers
      modifies this
      ensures Valid() && View() == DoAnswer(old(View()), id, bytes, fault, shutdown)
      ensures id !in handlers
      ensures ok ==> AnswerAt(lines, |lines| - 1, id) && forall k :: AnswerAt(lines, k, id) ==> k == |lines| - 1
      ensures !ok || fault ==> failed && ending
      ensures ok && shutdown ==> ending
    {
      StepKeeps(View(), Step.Answer(id, bytes, fault, shutdown));
      ok := Answer(id, bytes, fault, shutdown);
    }

    method Answer(id: int, bytes: nat, fault: bool, shutdown: bool) returns (ok: bool)
      modifies this
      ensures View() == DoAnswer(old(View()), id, bytes, fault, shutdown)
      ensures id !in handlers && (ok ==> AnswerAt(lines, |lines| - 1, id))
      ensures (!ok || fault ==> failed) && (ok && shutdown ==> ending)
    {
      ok := Push(Line(Answers(id), bytes));
      handlers := handlers - {id};
      if !ok {
        Abort();
        return;
      }
      answered := answered + [id];
      if fault {
        Abort();
      }
      if shutdown {
        FinishOnce();
      }
    }

    /** The write of the oldest unsettled line, of the given length, settles; a failed one ends the transport. */
    method WriteSettled(bytes: nat, ok: bool)
      requires Valid() && Enabled(View(), Written(ok)) && bytes == lines[written].bytes
      modifies this
      ensures Valid() && View() == DoWritten(old(View()), ok)
      ensures queuedWrites == |lines| - written && queuedBytes == TotalBytes(lines[written..])
      ensures !ok ==> ending
    {
      StepKeeps(View(), Step.Written(ok));
      Settled(bytes, ok);
    }

    method Settled(bytes: nat, ok: bool)
      requires written < |lines| && bytes == lines[written].bytes
      modifies this
      ensures View() == DoWritten(old(View()), ok)
    {
      CountLine(bytes);
      if ok {
        delivered := delivered + 1;
      } else {
        broken := true;
        Abort();
      }
    }

    method CountLine(bytes: nat)
      requires written < |lines| && bytes == lines[written].bytes
      modifies this
      ensures View() == SettleLine(old(View()))
    {
      queuedWrites := queuedWrites - 1;
      queuedBytes := queuedBytes - bytes;
      written := written + 1;
    }

    /** The end of the input, or of a shutdown: every caller that waits is rejected. */
    method EndInput()
      requires Valid()
      modifies this
      ensures Valid() && View() == Finish(old(View())) && ending && callbacks == []
      ensures forall id :: id in issued <==> id in settled
    {
      FinishKeeps(View());
      AsksStay(View(), Finish(View()));
      FinishOnce();
      assert callbacks + settled == settled;
    }
  }
}
