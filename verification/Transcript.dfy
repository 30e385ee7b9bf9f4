/**
  The transcript validator of BoBeAgent/src/persistence.ts. A line is what JSON parsing makes of it;
  `shape` stands for the checks of one entry that involve no other entry.
 */
module Transcript {
  import opened Common

  datatype Payload =
    | Plain
    | Compaction(firstKept: Option<string>)
    | BranchSummary(fromId: string)
    | ContextEdit(targetId: string)
    | Label(targetId: string)

  datatype Line =
    | Garbage
    | Entry(id: string, parent: Option<string>, payload: Payload, shape: bool)

  datatype Header = NoHeader | Header(session: string, shape: bool)

  /** `complete`: the text ends with a newline. */
  datatype Transcript = Transcript(complete: bool, header: Header, lines: seq<Line>)

  datatype Outcome = Valid | IncompleteFinalEntry | InvalidJson | HeaderMismatch | InvalidEntry

  // ---------------------------------------------------------------- the validator

  function PayloadRefs(p: Payload): set<string> {
    match p
    case Plain => {}
    case Compaction(None) => {}
    case Compaction(Some(id)) => {id}
    case BranchSummary(id) => {id}
    case ContextEdit(id) => {id}
    case Label(id) => {id}
  }

  /** `entryPayload`: the kinds that name another entry must name a known one. */
  predicate PayloadOk(e: Line, ids: set<string>)
    requires e.Entry?
  {
    && e.shape
    && match e.payload
       case Plain => true
       case Compaction(kept) => kept == None || (kept.value != "" && kept.value in ids)
       case BranchSummary(from) => from != "" && from in ids
       case ContextEdit(target) => target != "" && target in ids
       case Label(target) => target != "" && target in ids
  }

  predicate EntryOk(e: Line, ids: set<string>)
    requires e.Entry?
  {
    e.id != "" && e.id !in ids && (e.parent == None || e.parent.value in ids) && PayloadOk(e, ids)
  }

  /** The ids of the first `n` lines. */
  function Ids(lines: seq<Line>, n: nat): (r: set<string>)
    requires n <= |lines|
  {
    set i | 0 <= i < n && lines[i].Entry? :: lines[i].id
  }

  method Validate(t: Transcript, session: string) returns (r: Outcome)
    ensures r == Valid <==> Accepted(t, session)
    ensures r == IncompleteFinalEntry <==> !t.complete
    ensures r == HeaderMismatch <==> t.complete && t.header.Header? && !(t.header.shape && t.header.session == session)
    ensures r == InvalidJson && t.header.Header? ==>
      exists i :: 0 <= i < |t.lines| && t.lines[i].Garbage? && Sound(t.lines, i)
    ensures r == InvalidEntry ==>
      exists i :: 0 <= i < |t.lines| && t.lines[i].Entry? && Sound(t.lines, i) && !Sound(t.lines, i + 1)
  {
    if !t.complete { return IncompleteFinalEntry; }
    if t.header.NoHeader? { return InvalidJson; }
    if !t.header.shape || t.header.session != session { return HeaderMismatch; }
    var ids: set<string> := {};
    var n := 0;
    while n < |t.lines|
      invariant n <= |t.lines|
      invariant ids == Ids(t.lines, n)
      invariant Sound(t.lines, n)
    {
      var entry := t.lines[n];
      if entry.Garbage? { return InvalidJson; }
      SoundStep(t.lines, n);
      if !EntryOk(entry, ids) {
        return InvalidEntry;
      }
      ids := ids + {entry.id};
      assert ids == Ids(t.lines, n + 1);
      n := n + 1;
    }
    return Valid;
  }

  // ---------------------------------------------------------------- what it promises

  predicate Refers(e: Line, id: string)
    requires e.Entry?
  {
    e.parent == Some(id) || id in PayloadRefs(e.payload)
  }

  /** Line `j` is the one line, before line `i`, that has the id. */
  predicate Resolves(lines: seq<Line>, i: nat, id: string, j: nat)
    requires i <= |lines|
  {
    j < i && lines[j].Entry? && lines[j].id == id
  }

  /** The first `n` lines are entries with distinct ids, and each reference names an earlier one. */
  ghost predicate Sound(lines: seq<Line>, n: nat)
    requires n <= |lines|
  {
    && (forall i :: 0 <= i < n ==> lines[i].Entry? && lines[i].shape && lines[i].id != "")
    && (forall i, j :: 0 <= j < i < n ==> lines[i].id != lines[j].id)
    && (forall i, id :: 0 <= i < n && Refers(lines[i], id) ==> exists j :: Resolves(lines, i, id, j))
  }

  ghost predicate Accepted(t: Transcript, session: string) {
    t.complete && t.header == Header(session, true) && Sound(t.lines, |t.lines|)
  }

  lemma {:induction false} InIds(lines: seq<Line>, n: nat, id: string)
    requires n <= |lines|
    ensures id in Ids(lines, n) <==> exists j :: Resolves(lines, n, id, j)
  {
    if id in Ids(lines, n) {
      var j :| 0 <= j < n && lines[j].Entry? && lines[j].id == id;
      assert Resolves(lines, n, id, j);
    }
  }

  lemma {:induction false} RefsOk(e: Line, ids: set<string>)
    requires e.Entry? && "" !in ids
    ensures e.shape && (forall id :: Refers(e, id) ==> id in ids) <==>
      (e.parent == None || e.parent.value in ids) && PayloadOk(e, ids)
  {
    if e.parent.Some? { assert Refers(e, e.parent.value); }
    match e.payload
    case Plain =>
    case Compaction(kept) => if kept.Some? { assert Refers(e, kept.value); }
    case BranchSummary(id) => assert Refers(e, id);
    case ContextEdit(id) => assert Refers(e, id);
    case Label(id) => assert Refers(e, id);
  }

  /** One turn of the loop: the entry passes against the ids so far exactly when the lines stay sound. */
  lemma {:induction false} SoundStep(lines: seq<Line>, n: nat)
    requires n < |lines| && Sound(lines, n) && lines[n].Entry?
    ensures EntryOk(lines[n], Ids(lines, n)) <==> Sound(lines, n + 1)
  {
    var ids := Ids(lines, n);
    RefsOk(lines[n], ids);
    forall id ensures id in ids <==> exists j :: Resolves(lines, n, id, j) {
      InIds(lines, n, id);
    }
    if EntryOk(lines[n], ids) {
      assert forall j :: 0 <= j < n ==> Resolves(lines, n, lines[j].id, j);
      assert Sound(lines, n + 1);
    }
  }

  // ---------------------------------------------------------------- the parent graph is a forest

  /** The line of the parent, found by its id. */
  ghost function Parent(lines: seq<Line>, i: nat): (p: Option<nat>)
    requires i < |lines| && Sound(lines, |lines|)
    ensures p == None <==> lines[i].parent == None
    ensures p.Some? ==> p.value < i && lines[p.value].id == lines[i].parent.value
  {
    match lines[i].parent
    case None => None
    case Some(id) =>
      assert Refers(lines[i], id);
      var j :| Resolves(lines, i, id, j);
      Some(j)
  }

  /** The walk from an entry to its root. */
  ghost function Path(lines: seq<Line>, i: nat): (path: seq<nat>)
    requires i < |lines| && Sound(lines, |lines|)
    ensures 0 < |path| <= i + 1 && path[0] == i
    ensures forall k :: 0 <= k < |path| ==> path[k] <= i
    ensures lines[path[|path| - 1]].parent == None
    ensures forall k :: 0 <= k < |path| - 1 ==> Parent(lines, path[k]) == Some(path[k + 1])
  {
    match Parent(lines, i)
    case None => [i]
    case Some(j) => [i] + Path(lines, j)
  }

  /**
    The walk from any entry of an accepted transcript ends at a root within the entry count and visits no entry
    twice.
   */
  lemma {:induction false} WalksToRoot(t: Transcript, session: string, i: nat)
    requires Accepted(t, session) && i < |t.lines|
    ensures var path := Path(t.lines, i);
      && |path| <= |t.lines|
      && t.lines[path[|path| - 1]].parent == None
      && forall a, b :: 0 <= a < b < |path| ==> path[a] > path[b]
  {
    Decreases(t.lines, i);
  }

  lemma {:induction false} Decreases(lines: seq<Line>, i: nat)
    requires i < |lines| && Sound(lines, |lines|)
    ensures forall a, b :: 0 <= a < b < |Path(lines, i)| ==> Path(lines, i)[a] > Path(lines, i)[b]
  {
    match Parent(lines, i)
    case None =>
    case Some(j) =>
      Decreases(lines, j);
      assert Path(lines, i)[1..] == Path(lines, j);
      assert forall b :: 0 < b < |Path(lines, i)| ==> Path(lines, i)[b] == Path(lines, j)[b - 1];
  }

  /** Line `i` names the entry at line `j`, as parent, target, kept entry or branch point. */
  ghost predicate Names(lines: seq<Line>, i: nat, j: nat) {
    i < |lines| && j < |lines| && lines[i].Entry? && lines[j].Entry? && Refers(lines[i], lines[j].id)
  }

  /** Every reference of an accepted transcript points back, to one entry only. */
  lemma {:induction false} NamesPointBack(t: Transcript, session: string, i: nat, j: nat)
    requires Accepted(t, session) && Names(t.lines, i, j)
    ensures j < i
  {
    var k :| Resolves(t.lines, i, t.lines[j].id, k);
    if k != j {
      assert false;
    }
  }

  /** So no chain of references, of whatever kinds, returns to where it started. */
  lemma {:induction false} NoCycles(t: Transcript, session: string, chain: seq<nat>)
    requires Accepted(t, session) && |chain| >= 2
    requires forall k :: 0 <= k < |chain| - 1 ==> Names(t.lines, chain[k], chain[k + 1])
    ensures chain[0] > chain[|chain| - 1]
  {
    NamesPointBack(t, session, chain[0], chain[1]);
    if |chain| > 2 {
      NoCycles(t, session, chain[1..]);
    }
  }

  lemma {:induction false} PathTail(lines: seq<Line>, i: nat, k: nat)
    requires Sound(lines, |lines|) && i < |lines| && k < |Path(lines, i)|
    ensures Path(lines, i)[k..] == Path(lines, Path(lines, i)[k])
  {
    if k > 0 {
      var j := Parent(lines, i).value;
      PathTail(lines, j, k - 1);
      assert Path(lines, i)[k..] == Path(lines, j)[k - 1..];
    }
  }

  /** An entry and each of its ancestors have the same root: the roots partition the entries into trees. */
  lemma {:induction false} AncestorsShareRoot(t: Transcript, session: string, i: nat, k: nat)
    requires Accepted(t, session) && i < |t.lines| && k < |Path(t.lines, i)|
    ensures var path := Path(t.lines, i);
      var above := Path(t.lines, path[k]); path[|path| - 1] == above[|above| - 1]
  {
    PathTail(t.lines, i, k);
  }

  // ---------------------------------------------------------------- appending and crashing

  /** Appending an entry keeps a transcript accepted exactly when the entry passes against the ids so far. */
  lemma {:induction false} AppendAccepted(t: Transcript, session: string, e: Line)
    requires Accepted(t, session) && e.Entry?
    ensures Accepted(t.(lines := t.lines + [e]), session) <==> EntryOk(e, Ids(t.lines, |t.lines|))
  {
    var lines := t.lines + [e];
    var n := |t.lines|;
    assert forall i :: 0 <= i < n ==> lines[i] == t.lines[i];
    forall i, id | 0 <= i < n && Refers(lines[i], id) ensures exists j :: Resolves(lines, i, id, j) {
      var j :| Resolves(t.lines, i, id, j);
      assert Resolves(lines, i, id, j);
    }
    SoundStep(lines, n);
    assert Ids(lines, n) == Ids(t.lines, n);
  }

  /** Losing whole lines from the end of an accepted transcript leaves an accepted one. */
  lemma {:induction false} TruncatedIsAccepted(t: Transcript, session: string, n: nat)
    requires Accepted(t, session) && n <= |t.lines|
    ensures Accepted(t.(lines := t.lines[..n]), session)
  {
    var lines := t.lines[..n];
    assert forall i :: 0 <= i < n ==> lines[i] == t.lines[i];
    forall i, id | 0 <= i < n && Refers(lines[i], id) ensures exists j :: Resolves(lines, i, id, j) {
      var j :| Resolves(t.lines, i, id, j);
      assert Resolves(lines, i, id, j);
    }
  }
}
