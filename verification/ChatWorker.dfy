/**
  Chat requests of `WorkerHost` (BoBeAgent/src/worker.ts) and the deltas they send.

  Any number of chats run at once, one per conversation channel. A delta is stamped with the
  request id found in the channel's session when it is sent, not with the id of the chat that
  caused it; the log keeps both. A step is the code between two suspension points.

  Deltas go to the transport of BoBeAgent/src/rpc.ts, whose state is part of this one: it may
  refuse a line, and then the code that wanted to send it throws.
 */
module ChatWorker {
  import R = Rpc

  type Channel = nat

  datatype Delta = Update(content: nat) | Finished | Error {
    predicate Terminal() { Finished? || Error? }
  }

  /** An update and the length of its line. */
  datatype Packet = Packet(content: nat, bytes: nat)

  /** A delta the connection took: the chat that caused it, and the id it carries. */
  datatype Entry = Entry(origin: int, stamp: int, delta: Delta)

  datatype Phase =
    | Holding   // owns its channel, waits for a lease
    | Leased    // has the channel's session
    | Running   // its context is installed and its run streams
    | Committed // `done` was sent, the channel is not yet free
    | Failing   // an error is on its way out, the channel is not yet free
    | Freed     // the channel is free, the error is not yet reported
    | Returned  // the channel is free, the result is on its way
    | Settled

  datatype Chat = Chat(channel: Channel, phase: Phase)

  datatype State = State(
    lastRequest: int,
    closing: bool,
    busy: map<Channel, int>,     // channelRequests
    current: map<Channel, int>,  // the request id in each live channel's session
    chats: map<int, Chat>,       // every request accepted so far
    log: seq<Entry>,
    rpc: R.State)                // the connection

  datatype Step =
    | Arrive(id: int, channel: Channel, wellFormed: bool)
    | Lease(id: int)
    | Install(id: int)
    | Emit(id: int, packet: Packet)
    | Commit(id: int, packets: seq<Packet>, bytes: nat)
    | Throw(id: int)
    | Free(id: int)
    | Report(id: int, bytes: nat)
    | Return(id: int)
    | Retire(channel: Channel)
    | Shutdown
    | Transport(step: R.Step)  // anything else the connection does, other notifications of the worker included

  const START: State := State(0, false, map[], map[], map[], [], R.START)

  /** An error message has at most 2048 UTF-16 units, six bytes each when escaped, and a short envelope. */
  const MAX_REPORT: nat := 16 * 1024

  // ---------------------------------------------------------------- steps

  /** The state after a send, and whether the send returned; otherwise it threw. */
  datatype Sent = Sent(state: State, ok: bool)

  /** `notify`: nothing is sent once the worker is closing; a line the connection refuses is not sent either. */
  function Send(s: State, entry: Entry, bytes: nat): Sent {
    if s.closing then Sent(s, true)
    else
      var line := R.Line(R.Notes, bytes);
      var t := s.(rpc := R.Enqueue(s.rpc, line));
      if R.Accepts(s.rpc, line) then Sent(t.(log := s.log + [entry]), true) else Sent(t, false)
  }

  /** The updates of one chat, one after the other, up to the first that is refused. */
  function SendAll(s: State, id: int, stamp: int, packets: seq<Packet>): Sent
    decreases |packets|
  {
    if packets == [] then Sent(s, true)
    else
      var first := Send(s, Entry(id, stamp, Update(packets[0].content)), packets[0].bytes);
      if first.ok then SendAll(first.state, id, stamp, packets[1..]) else first
  }

  function Moved(s: State, id: int, phase: Phase): State
    requires id in s.chats
  {
    s.(chats := s.chats[id := s.chats[id].(phase := phase)])
  }

  predicate In(s: State, id: int, phase: Phase) {
    id in s.chats && s.chats[id].phase == phase
  }

  /** A chat that has the channel's session under a lease. */
  predicate Uses(s: State, id: int) {
    In(s, id, Leased) || In(s, id, Running)
  }

  function Stamp(s: State, channel: Channel): int {
    if channel in s.current then s.current[channel] else 0
  }

  /** A request refused here throws before the block that reports errors: no delta is sent. */
  function DoArrive(s: State, id: int, channel: Channel, wellFormed: bool): State {
    if s.closing || id <= s.lastRequest then s
    else if !wellFormed || channel in s.busy then s.(lastRequest := id, chats := s.chats[id := Chat(channel, Freed)])
    else s.(lastRequest := id, chats := s.chats[id := Chat(channel, Holding)], busy := s.busy[channel := id])
  }

  function DoFree(s: State, id: int): State
    requires id in s.chats
  {
    Moved(s, id, if s.chats[id].phase == Committed then Returned else Freed).(busy := s.busy - {s.chats[id].channel})
  }

  /** What a commit sends: its last updates, and `done`. */
  function SendCommit(s: State, id: int, packets: seq<Packet>, bytes: nat): Sent {
    var stamp := if id in s.chats then Stamp(s, s.chats[id].channel) else 0;
    var updates := SendAll(s, id, stamp, packets);
    if updates.ok then Send(updates.state, Entry(id, stamp, Finished), bytes) else updates
  }

  /** A commit that is refused throws, and the chat goes on to report an error. */
  function DoCommit(s: State, id: int, packets: seq<Packet>, bytes: nat): (t: State)
    requires id in s.chats
    ensures t == Moved(s, id, if SendCommit(s, id, packets, bytes).ok then Committed else Failing)
      .(log := t.log, rpc := t.rpc)
  {
    var r := SendCommit(s, id, packets, bytes);
    SendingKeeps(s, id, packets, bytes);
    Moved(r.state, id, if r.ok then Committed else Failing)
  }

  predicate Enabled(s: State, step: Step) {
    match step
    case Arrive(_, _, _) => true
    case Lease(id) => In(s, id, Holding)
    case Install(id) => In(s, id, Leased)
    case Emit(id, _) => In(s, id, Running)
    case Commit(id, _, _) => In(s, id, Running)
    case Throw(id) => In(s, id, Holding) || Uses(s, id)
    case Free(id) => In(s, id, Committed) || In(s, id, Failing)
    case Report(id, bytes) => In(s, id, Freed) && bytes <= MAX_REPORT
    case Return(id) => In(s, id, Returned)
    case Retire(channel) => forall id :: id in s.chats && s.chats[id].channel == channel ==> !Uses(s, id)
    case Shutdown => true
    case Transport(step) => R.Enabled(s.rpc, step) && Composed(s, step)
  }

  /**
    What the worker means for its transport: all its notifications are silent once it is closing,
    and the closing flush begins after the handler's `close`, which makes it so.
   */
  predicate Composed(s: State, step: R.Step) {
    (step.Notify? ==> !s.closing) && (step.Flush? ==> s.closing)
  }

  function Apply(s: State, step: Step): State
    requires Enabled(s, step)
  {
    match step
    case Arrive(id, channel, wellFormed) => DoArrive(s, id, channel, wellFormed)
    case Lease(id) => Moved(s, id, Leased).(current := s.current[s.chats[id].channel := Stamp(s, s.chats[id].channel)])
    case Install(id) => Moved(s, id, Running).(current := s.current[s.chats[id].channel := id])
    case Emit(id, packet) =>
      Send(s, Entry(id, Stamp(s, s.chats[id].channel), Update(packet.content)), packet.bytes).state
    case Commit(id, packets, bytes) => DoCommit(s, id, packets, bytes)
    case Throw(id) => Moved(s, id, Failing)
    case Free(id) => DoFree(s, id)
    case Report(id, bytes) => Moved(Send(s, Entry(id, id, Error), bytes).state, id, Settled)
    case Return(id) => Moved(s, id, Settled)
    case Retire(channel) => s.(current := s.current - {channel})
    case Shutdown => s.(closing := true)
    case Transport(step) => s.(rpc := R.Apply(s.rpc, step))
  }

  // ---------------------------------------------------------------- invariant

  predicate Holds(phase: Phase) {
    phase == Holding || phase == Leased || phase == Running || phase == Committed || phase == Failing
  }

  /** A chat that may still send its terminal delta. */
  predicate Open(s: State, id: int) {
    id in s.chats && !(s.chats[id].phase == Committed || s.chats[id].phase == Returned || s.chats[id].phase == Settled)
  }

  /** One channel never runs two chats, and the session of a running chat names that chat. */
  ghost predicate ChannelsOk(s: State) {
    && (forall id :: id in s.chats ==> id <= s.lastRequest)
    && 0 <= s.lastRequest && (s.lastRequest == 0 || s.lastRequest in s.chats)
    && (forall id :: id in s.chats && Holds(s.chats[id].phase) ==>
         s.chats[id].channel in s.busy && s.busy[s.chats[id].channel] == id)
    && (forall c :: c in s.busy ==>
         s.busy[c] in s.chats && Holds(s.chats[s.busy[c]].phase) && s.chats[s.busy[c]].channel == c)
    && (forall id :: In(s, id, Running) ==> s.chats[id].channel in s.current && s.current[s.chats[id].channel] == id)
  }

  ghost predicate LogOk(s: State) {
    && (forall i :: 0 <= i < |s.log| ==> s.log[i].stamp == s.log[i].origin && s.log[i].origin in s.chats)
    && (forall i :: 0 <= i < |s.log| && s.log[i].delta.Terminal() ==> !Open(s, s.log[i].origin))
    && (forall i, j :: 0 <= i < j < |s.log| && s.log[i].origin == s.log[j].origin ==> !s.log[i].delta.Terminal())
  }

  ghost predicate Inv(s: State) {
    ChannelsOk(s) && LogOk(s) && R.Inv(s.rpc) && FlushOk(s)
  }

  /** The closing flush waits for every line there is. */
  predicate FlushOk(s: State) {
    0 <= s.rpc.flush ==> s.closing && s.rpc.flush == |s.rpc.lines|
  }

  // ---------------------------------------------------------------- every step keeps it

  lemma {:induction false} ChannelsStay(s: State, step: Step)
    requires ChannelsOk(s) && Enabled(s, step)
    ensures ChannelsOk(Apply(s, step))
  {
    match step
    case Arrive(id, channel, wellFormed) => ChannelsArrive(s, id, channel, wellFormed);
    case Lease(id) => ChannelsLease(s, id);
    case Install(id) => ChannelsInstall(s, id);
    case Commit(id, packets, bytes) => ChannelsCommit(s, id, packets, bytes);
    case Free(id) => ChannelsFree(s, id);
    case Emit(_, _) => ChannelsSame(s, Apply(s, step));
    case Transport(_) => ChannelsSame(s, Apply(s, step));
    case Shutdown => ChannelsSame(s, Apply(s, step));
    case Throw(id) => ChannelsMove(s, Apply(s, step), id, Failing);
    case Report(id, _) => ChannelsMove(s, Apply(s, step), id, Settled);
    case Return(id) => ChannelsMove(s, Apply(s, step), id, Settled);
    case Retire(channel) => ChannelsRetire(s, channel);
  }

  lemma {:induction false} ChannelsSame(s: State, t: State)
    requires ChannelsOk(s) && t.chats == s.chats && t.busy == s.busy && t.current == s.current
    requires t.lastRequest == s.lastRequest
    ensures ChannelsOk(t)
  {
  }

  /** A chat goes on, and still holds its channel if it did. */
  lemma {:induction false} ChannelsMove(s: State, t: State, id: int, phase: Phase)
    requires ChannelsOk(s) && id in s.chats && t.chats == s.chats[id := s.chats[id].(phase := phase)]
    requires t.busy == s.busy && t.current == s.current && t.lastRequest == s.lastRequest
    requires phase != Running && (Holds(phase) <==> Holds(s.chats[id].phase))
    ensures ChannelsOk(t)
  {
  }

  lemma {:induction false} ChannelsRetire(s: State, channel: Channel)
    requires ChannelsOk(s) && Enabled(s, Retire(channel))
    ensures ChannelsOk(s.(current := s.current - {channel}))
  {
  }

  lemma {:induction false} ChannelsArrive(s: State, id: int, channel: Channel, wellFormed: bool)
    requires ChannelsOk(s)
    ensures ChannelsOk(DoArrive(s, id, channel, wellFormed))
  {
  }

  lemma {:induction false} ChannelsCommit(s: State, id: int, packets: seq<Packet>, bytes: nat)
    requires ChannelsOk(s) && In(s, id, Running)
    ensures ChannelsOk(DoCommit(s, id, packets, bytes))
  {
  }

  lemma {:induction false} ChannelsLease(s: State, id: int)
    requires ChannelsOk(s) && In(s, id, Holding)
    ensures ChannelsOk(Apply(s, Lease(id)))
  {
  }

  lemma {:induction false} ChannelsInstall(s: State, id: int)
    requires ChannelsOk(s) && In(s, id, Leased)
    ensures ChannelsOk(Apply(s, Install(id)))
  {
  }

  lemma {:induction false} ChannelsFree(s: State, id: int)
    requires ChannelsOk(s) && (In(s, id, Committed) || In(s, id, Failing))
    ensures ChannelsOk(Apply(s, Free(id)))
  {
  }

  /** Sending adds to the log and moves the connection; nothing else changes. */
  ghost predicate Sends(s: State, t: State, id: int, stamp: int) {
    && t == s.(log := t.log, rpc := t.rpc) && s.log <= t.log
    && forall i :: |s.log| <= i < |t.log| ==> t.log[i].origin == id && t.log[i].stamp == stamp
  }

  lemma {:induction false} SendAllSends(s: State, id: int, stamp: int, packets: seq<Packet>)
    ensures var t := SendAll(s, id, stamp, packets).state;
      Sends(s, t, id, stamp) && forall i :: |s.log| <= i < |t.log| ==> !t.log[i].delta.Terminal()
    decreases |packets|
  {
    if packets != [] {
      var first := Send(s, Entry(id, stamp, Update(packets[0].content)), packets[0].bytes);
      if first.ok { SendAllSends(first.state, id, stamp, packets[1..]); }
    }
  }

  lemma {:induction false} SendingKeeps(s: State, id: int, packets: seq<Packet>, bytes: nat)
    requires id in s.chats
    ensures var t := SendCommit(s, id, packets, bytes).state; t == s.(log := t.log, rpc := t.rpc)
  {
    SendAllSends(s, id, Stamp(s, s.chats[id].channel), packets);
  }

  /** What a chat sends keeps the log in order, if only its last delta can be terminal and then ends the chat. */
  lemma {:induction false} SendsKeepLog(s: State, t: State, id: int)
    requires LogOk(s) && Open(s, id) && s.log <= t.log && t.chats.Keys == s.chats.Keys
    requires forall i :: |s.log| <= i < |t.log| ==> t.log[i].stamp == t.log[i].origin == id
    requires forall i :: |s.log| <= i < |t.log| - 1 ==> !t.log[i].delta.Terminal()
    requires forall x :: Open(t, x) ==> Open(s, x)
    requires |t.log| > |s.log| && t.log[|t.log| - 1].delta.Terminal() ==> !Open(t, id)
    ensures LogOk(t)
  {
    forall i, j | 0 <= i < j < |t.log| && t.log[i].origin == t.log[j].origin ensures !t.log[i].delta.Terminal() {
      if i < |s.log| {
        assert t.log[i] == s.log[i];
        if j < |s.log| { assert t.log[j] == s.log[j]; }
      }
    }
    forall i | 0 <= i < |t.log| ensures t.log[i].stamp == t.log[i].origin && t.log[i].origin in t.chats
      ensures t.log[i].delta.Terminal() ==> !Open(t, t.log[i].origin)
    {
      if i < |s.log| { assert t.log[i] == s.log[i]; }
    }
  }

  lemma {:induction false} QuietKeepsLog(s: State, t: State)
    requires LogOk(s) && t.log == s.log && s.chats.Keys <= t.chats.Keys
    requires forall x :: x in s.chats && Open(t, x) ==> Open(s, x)
    ensures LogOk(t)
  {
  }

  lemma {:induction false} OthersKeepLog(s: State, step: Step)
    requires Inv(s) && Enabled(s, step) && !step.Emit? && !step.Commit? && !step.Report?
    ensures LogOk(Apply(s, step))
  {
    QuietKeepsLog(s, Apply(s, step));
  }

  lemma {:induction false} CommitLog(s: State, id: int, packets: seq<Packet>, bytes: nat)
    requires Inv(s) && In(s, id, Running)
    ensures LogOk(DoCommit(s, id, packets, bytes))
  {
    SendAllSends(s, id, id, packets);
    SendsKeepLog(s, DoCommit(s, id, packets, bytes), id);
  }

  lemma {:induction false} EmitLog(s: State, id: int, packet: Packet)
    requires Inv(s) && In(s, id, Running)
    ensures LogOk(Apply(s, Emit(id, packet)))
  {
    SendsKeepLog(s, Apply(s, Emit(id, packet)), id);
  }

  lemma {:induction false} ReportLog(s: State, id: int, bytes: nat)
    requires Inv(s) && Enabled(s, Report(id, bytes))
    ensures LogOk(Apply(s, Report(id, bytes)))
  {
    SendsKeepLog(s, Apply(s, Report(id, bytes)), id);
  }

  lemma {:induction false} LogStays(s: State, step: Step)
    requires Inv(s) && Enabled(s, step)
    ensures LogOk(Apply(s, step))
  {
    match step
    case Emit(id, packet) => EmitLog(s, id, packet);
    case Commit(id, packets, bytes) => CommitLog(s, id, packets, bytes);
    case Report(id, bytes) => ReportLog(s, id, bytes);
    case _ => OthersKeepLog(s, step);
  }

  lemma {:induction false} SendKeepsRpc(s: State, entry: Entry, bytes: nat)
    requires R.Inv(s.rpc)
    ensures R.Inv(Send(s, entry, bytes).state.rpc)
  {
    R.StepKeeps(s.rpc, R.Notify(bytes));
  }

  lemma {:induction false} SendAllKeepsRpc(s: State, id: int, stamp: int, packets: seq<Packet>)
    requires R.Inv(s.rpc)
    ensures R.Inv(SendAll(s, id, stamp, packets).state.rpc)
    decreases |packets|
  {
    if packets != [] {
      var entry := Entry(id, stamp, Update(packets[0].content));
      SendKeepsRpc(s, entry, packets[0].bytes);
      var first := Send(s, entry, packets[0].bytes);
      if first.ok { SendAllKeepsRpc(first.state, id, stamp, packets[1..]); }
    }
  }

  lemma {:induction false} RpcStays(s: State, step: Step)
    requires Inv(s) && Enabled(s, step)
    ensures R.Inv(Apply(s, step).rpc)
  {
    match step
    case Emit(id, packet) =>
      SendKeepsRpc(s, Entry(id, Stamp(s, s.chats[id].channel), Update(packet.content)), packet.bytes);
    case Commit(id, packets, bytes) =>
      var stamp := Stamp(s, s.chats[id].channel);
      SendAllKeepsRpc(s, id, stamp, packets);
      SendKeepsRpc(SendAll(s, id, stamp, packets).state, Entry(id, stamp, Finished), bytes);
    case Report(id, bytes) => SendKeepsRpc(s, Entry(id, id, Error), bytes);
    case Transport(step) => R.StepKeeps(s.rpc, step);
    case _ =>
  }

  lemma {:induction false} SilentSendAll(s: State, id: int, stamp: int, packets: seq<Packet>)
    requires s.closing
    ensures SendAll(s, id, stamp, packets) == Sent(s, true)
    decreases |packets|
  {
    if packets != [] { SilentSendAll(s, id, stamp, packets[1..]); }
  }

  lemma {:induction false} OpenSendAll(s: State, id: int, stamp: int, packets: seq<Packet>)
    requires s.rpc.flush < 0
    ensures SendAll(s, id, stamp, packets).state.rpc.flush < 0
    decreases |packets|
  {
    if packets != [] {
      var first := Send(s, Entry(id, stamp, Update(packets[0].content)), packets[0].bytes);
      if first.ok { OpenSendAll(first.state, id, stamp, packets[1..]); }
    }
  }

  /** Once the flush has begun no call, answer or notification adds a line. */
  lemma {:induction false} TransportFlush(s: State, step: R.Step)
    requires Inv(s) && Enabled(s, Transport(step))
    ensures FlushOk(Apply(s, Transport(step)))
  {
    if s.rpc.flush < 0 && !step.Flush? {
      R.FlushMoves(s.rpc, step);
    }
  }

  lemma {:induction false} FlushStays(s: State, step: Step)
    requires Inv(s) && Enabled(s, step)
    ensures FlushOk(Apply(s, step))
  {
    match step
    case Commit(id, packets, bytes) =>
      var stamp := Stamp(s, s.chats[id].channel);
      if s.closing { SilentSendAll(s, id, stamp, packets); } else { OpenSendAll(s, id, stamp, packets); }
    case Transport(t) => TransportFlush(s, t);
    case _ =>
  }

  lemma {:induction false} StepKeeps(s: State, step: Step)
    requires Inv(s) && Enabled(s, step)
    ensures Inv(Apply(s, step))
  {
    ChannelsStay(s, step);
    LogStays(s, step);
    RpcStays(s, step);
    FlushStays(s, step);
  }
}
