/**
  The reader of BoBeAgent/src/rpc.ts: bytes arrive in chunks of any size, lines end with LF.
  `read` keeps the unfinished line in a buffer; the reference `Batch` looks at the whole stream
  at once. Parsing and dispatching a line is a parameter that may fail and that carries the
  state of the dispatcher.
 */
module RpcRead {
  import opened Common

  const LF: byte := 10
  const MAX_LINE_BYTES: nat := 16 * 1024 * 1024

  datatype End = Eof | Oversize | EmptyLine | Rejected | Incomplete

  /** The dispatcher after the last accepted line, and why reading stopped. */
  datatype Outcome<S> = Outcome(state: S, end: End)

  type Handler<!S> = (S, seq<byte>) -> Option<S>

  function IndexOfLf(data: seq<byte>): (i: int)
    ensures -1 <= i < |data|
    ensures i >= 0 ==> data[i] == LF && forall j :: 0 <= j < i ==> data[j] != LF
    ensures i < 0 ==> forall j :: 0 <= j < |data| ==> data[j] != LF
  {
    if data == [] then -1
    else if data[0] == LF then 0
    else
      var r := IndexOfLf(data[1..]);
      if r < 0 then -1 else r + 1
  }

  /** The meaning of a whole stream: its lines in order up to the first bad one. */
  function Batch<S>(handle: Handler<S>, state: S, data: seq<byte>): Outcome<S>
    decreases |data|
  {
    var n := IndexOfLf(data);
    if n < 0 then
      Outcome(state, if |data| > MAX_LINE_BYTES then Oversize else if data != [] then Incomplete else Eof)
    else if n > MAX_LINE_BYTES then Outcome(state, Oversize)
    else if n == 0 then Outcome(state, EmptyLine)
    else
      match handle(state, data[..n])
      case None => Outcome(state, Rejected)
      case Some(next) => Batch(handle, next, data[n + 1..])
  }

  function Concat(chunks: seq<seq<byte>>): seq<byte> {
    if chunks == [] then [] else chunks[0] + Concat(chunks[1..])
  }

  lemma {:induction false} FirstLf(data: seq<byte>, n: nat)
    requires n < |data| && data[n] == LF && forall j :: 0 <= j < n ==> data[j] != LF
    ensures IndexOfLf(data) == n
  {
  }

  /** Bytes that arrive after the first complete line do not change what that line is. */
  lemma {:induction false} LfIsStable(data: seq<byte>, more: seq<byte>)
    requires IndexOfLf(data) >= 0
    ensures IndexOfLf(data + more) == IndexOfLf(data)
  {
    FirstLf(data + more, IndexOfLf(data));
  }

  /** An unfinished line over the limit fails, whatever follows. */
  lemma {:induction false} OversizeWins<S>(handle: Handler<S>, state: S, data: seq<byte>, more: seq<byte>)
    requires IndexOfLf(data) < 0 && |data| > MAX_LINE_BYTES
    ensures Batch(handle, state, data + more) == Outcome(state, Oversize)
  {
    var n := IndexOfLf(data + more);
    if 0 <= n < |data| {
      assert false;
    }
  }

  /** One complete line at the front of the buffer. */
  lemma {:induction false} BatchLine<S>(handle: Handler<S>, state: S, data: seq<byte>, more: seq<byte>)
    requires 0 <= IndexOfLf(data) <= MAX_LINE_BYTES
    ensures var n := IndexOfLf(data);
      Batch(handle, state, data + more) ==
        if n == 0 then Outcome(state, EmptyLine)
        else match handle(state, data[..n])
             case None => Outcome(state, Rejected)
             case Some(next) => Batch(handle, next, data[n + 1..] + more)
  {
    var n := IndexOfLf(data);
    LfIsStable(data, more);
    assert (data + more)[..n] == data[..n];
    assert (data + more)[n + 1..] == data[n + 1..] + more;
  }

  lemma {:induction false} ConcatSplit(chunks: seq<seq<byte>>, i: nat)
    requires i < |chunks|
    ensures Concat(chunks[i..]) == chunks[i] + Concat(chunks[i + 1..])
  {
    assert chunks[i..][1..] == chunks[i + 1..];
  }

  /** The lines a buffer holds, dispatched until none is complete. */
  method DrainLines<S>(handle: Handler<S>, state: S, buffer: seq<byte>, ghost rest: seq<byte>)
    returns (outcome: Outcome<S>, left: seq<byte>)
    ensures outcome.end == Eof ==> IndexOfLf(left) < 0
    ensures outcome.end == Eof ==> Batch(handle, state, buffer + rest) == Batch(handle, outcome.state, left + rest)
    ensures outcome.end != Eof ==> Batch(handle, state, buffer + rest) == outcome
  {
    var current := state;
    left := buffer;
    var newline := IndexOfLf(left);
    while newline != -1
      invariant newline == IndexOfLf(left)
      invariant Batch(handle, state, buffer + rest) == Batch(handle, current, left + rest)
      decreases |left|
    {
      if newline > MAX_LINE_BYTES {
        LfIsStable(left, rest);
        return Outcome(current, Oversize), left;
      }
      BatchLine(handle, current, left, rest);
      var line := left[..newline];
      left := left[newline + 1..];
      if line == [] { return Outcome(current, EmptyLine), left; }
      var next := handle(current, line);
      if next.None? { return Outcome(current, Rejected), left; }
      current := next.value;
      newline := IndexOfLf(left);
    }
    outcome := Outcome(current, Eof);
  }

  /**
    `read`: however the stream is cut into chunks, the lines dispatched, the state they leave and
    the way reading ends are those of the whole stream.
   */
  method Read<S>(handle: Handler<S>, state: S, chunks: seq<seq<byte>>) returns (outcome: Outcome<S>)
    ensures outcome == Batch(handle, state, Concat(chunks))
  {
    var current := state;
    var buffer: seq<byte> := [];
    assert chunks[0..] == chunks && buffer + Concat(chunks) == Concat(chunks);
    for i := 0 to |chunks|
      invariant IndexOfLf(buffer) < 0 && |buffer| <= MAX_LINE_BYTES
      invariant Batch(handle, state, Concat(chunks)) == Batch(handle, current, buffer + Concat(chunks[i..]))
    {
      ConcatSplit(chunks, i);
      assert buffer + (chunks[i] + Concat(chunks[i + 1..])) == (buffer + chunks[i]) + Concat(chunks[i + 1..]);
      var drained, left := DrainLines(handle, current, buffer + chunks[i], Concat(chunks[i + 1..]));
      current := drained.state;
      if drained.end != Eof { return drained; }
      buffer := left;
      if |buffer| > MAX_LINE_BYTES {
        OversizeWins(handle, current, buffer, Concat(chunks[i + 1..]));
        return Outcome(current, Oversize);
      }
    }
    assert chunks[|chunks|..] == [] && buffer + [] == buffer;
    outcome := Outcome(current, if buffer != [] then Incomplete else Eof);
  }

  // ---------------------------------------------------------------- framing round trip

  /** Lines as the peer writes them. */
  function Frame(lines: seq<seq<byte>>): seq<byte> {
    if lines == [] then [] else lines[0] + [LF] + Frame(lines[1..])
  }

  predicate Sendable(line: seq<byte>) {
    0 < |line| <= MAX_LINE_BYTES && forall i :: 0 <= i < |line| ==> line[i] != LF
  }

  /** The dispatcher fed line by line. */
  function Fold<S>(handle: Handler<S>, state: S, lines: seq<seq<byte>>): Outcome<S>
    decreases |lines|
  {
    if lines == [] then Outcome(state, Eof)
    else
      match handle(state, lines[0])
      case None => Outcome(state, Rejected)
      case Some(next) => Fold(handle, next, lines[1..])
  }

  /** What a peer frames line by line is dispatched line by line. */
  lemma {:induction false} FramingRoundTrip<S>(handle: Handler<S>, state: S, lines: seq<seq<byte>>)
    requires forall i :: 0 <= i < |lines| ==> Sendable(lines[i])
    ensures Batch(handle, state, Frame(lines)) == Fold(handle, state, lines)
    decreases |lines|
  {
    if lines != [] {
      var line := lines[0];
      var data := Frame(lines);
      assert data[|line|] == LF && data[..|line|] == line && data[|line| + 1..] == Frame(lines[1..]);
      FirstLf(data, |line|);
      match handle(state, line) {
        case None =>
        case Some(next) => FramingRoundTrip(handle, next, lines[1..]);
      }
    }
  }

  // ---------------------------------------------------------------- how reading ends

  /** Why reading stops at what follows the last good line. */
  function EndOf(tail: seq<byte>): End {
    if tail == [] then Eof
    else if tail[0] == 10 then EmptyLine
    else if |tail| > 16 * 1024 * 1024 && forall i :: 0 <= i <= 16 * 1024 * 1024 ==> tail[i] != 10 then Oversize
    else Incomplete
  }

  lemma {:induction false} TailEnds<S>(handle: Handler<S>, state: S, tail: seq<byte>)
    requires EndOf(tail) == Incomplete ==> 10 !in tail
    ensures Batch(handle, state, tail) == Outcome(state, EndOf(tail))
  {
    var n := IndexOfLf(tail);
    if tail != [] && tail[0] == 10 { FirstLf(tail, 0); }
    assert n >= 0 ==> tail[n] in tail;
  }

  /**
    Any stream is lines that are good as they stand and a tail without one. Reading dispatches the
    lines up to the first refused. If none is, it ends cleanly when nothing is left, and otherwise
    with the error of the tail: an empty line, a line too long, or one that was never finished.
   */
  lemma {:induction false} EndsExactly<S>(handle: Handler<S>, state: S, lines: seq<seq<byte>>, tail: seq<byte>)
    requires forall i :: 0 <= i < |lines| ==> Sendable(lines[i])
    requires EndOf(tail) == Incomplete ==> 10 !in tail
    ensures var whole := Fold(handle, state, lines);
      Batch(handle, state, Frame(lines) + tail) ==
        if whole.end == Eof then Outcome(whole.state, EndOf(tail)) else whole
    decreases |lines|
  {
    if lines == [] {
      assert Frame(lines) + tail == tail;
      TailEnds(handle, state, tail);
    } else {
      var line, data := lines[0], Frame(lines) + tail;
      assert data[|line|] == LF && data[..|line|] == line && data[|line| + 1..] == Frame(lines[1..]) + tail;
      FirstLf(data, |line|);
      match handle(state, line) {
        case None =>
        case Some(next) => EndsExactly(handle, next, lines[1..], tail);
      }
    }
  }

  /** Every stream is cut in that way in one place. */
  lemma {:induction false} EveryStreamSplits(data: seq<byte>) returns (lines: seq<seq<byte>>, tail: seq<byte>)
    ensures data == Frame(lines) + tail && forall i :: 0 <= i < |lines| ==> Sendable(lines[i])
    ensures EndOf(tail) == Incomplete ==> 10 !in tail
    decreases |data|
  {
    var n := IndexOfLf(data);
    if 0 < n <= MAX_LINE_BYTES {
      lines, tail := EveryStreamSplits(data[n + 1..]);
      assert data == data[..n] + [LF] + data[n + 1..];
      var all := [data[..n]] + lines;
      assert all[1..] == lines;
      lines := all;
    } else {
      lines, tail := [], data;
    }
  }
}
