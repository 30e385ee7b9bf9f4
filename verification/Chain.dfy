/**
  The chain loop of `subagentTool` (BoBeAgent/src/delegation.ts): each task runs with `{previous}`
  replaced by the text of the result before it, until one fails.

  The replacement is `String.prototype.replaceAll` with a string, which reads `$$`, `$&`, `` $` ``
  and `$'` in the replacement as patterns (GetSubstitution in ECMA-262).
 */
module Chain {
  import opened Common

  const MARK: string := "{previous}"

  // ---------------------------------------------------------------- replacement

  predicate Pattern(c: char) {
    c == '$' || c == '&' || c == '`' || c == '\''
  }

  /** The replacement as the language reads it, for a match between `before` and `after`. */
  function Substitute(text: string, before: string, after: string): string {
    if text == "" then ""
    else if |text| >= 2 && text[0] == '$' && Pattern(text[1]) then
      (match text[1] case '$' => "$" case '&' => MARK case '`' => before case _ => after) +
        Substitute(text[2..], before, after)
    else [text[0]] + Substitute(text[1..], before, after)
  }

  predicate MarkAt(task: string, i: nat) {
    i + |MARK| <= |task| && task[i..i + |MARK|] == MARK
  }

  /** `task.replaceAll("{previous}", previous)` from position `i` on. */
  function ReplaceFrom(task: string, i: nat, previous: string): string
    requires i <= |task|
    decreases |task| - i
  {
    if i == |task| then ""
    else if MarkAt(task, i) then
      Substitute(previous, task[..i], task[i + |MARK|..]) + ReplaceFrom(task, i + |MARK|, previous)
    else [task[i]] + ReplaceFrom(task, i + 1, previous)
  }

  function Replace(task: string, previous: string): string {
    ReplaceFrom(task, 0, previous)
  }

  /** What the tool's description promises: the prior result itself takes the mark's place. */
  function InsertFrom(task: string, i: nat, previous: string): string
    requires i <= |task|
    decreases |task| - i
  {
    if i == |task| then ""
    else if MarkAt(task, i) then previous + InsertFrom(task, i + |MARK|, previous)
    else [task[i]] + InsertFrom(task, i + 1, previous)
  }

  function Insert(task: string, previous: string): string {
    InsertFrom(task, 0, previous)
  }

  /** The text contains one of the four patterns. */
  ghost predicate HasPattern(text: string) {
    exists i :: 0 <= i < |text| - 1 && text[i] == '$' && Pattern(text[i + 1])
  }

  lemma {:induction false} PlainSubstitute(text: string, before: string, after: string)
    requires !HasPattern(text)
    ensures Substitute(text, before, after) == text
  {
    if text != "" {
      assert forall i :: 0 <= i < |text| - 1 ==> text[1..][i] == text[i + 1];
      PlainSubstitute(text[1..], before, after);
    }
  }

  lemma {:induction false} PlainReplace(task: string, i: nat, previous: string)
    requires i <= |task| && !HasPattern(previous)
    ensures ReplaceFrom(task, i, previous) == InsertFrom(task, i, previous)
    decreases |task| - i
  {
    if i < |task| {
      if MarkAt(task, i) {
        PlainSubstitute(previous, task[..i], task[i + |MARK|..]);
        PlainReplace(task, i + |MARK|, previous);
      } else {
        PlainReplace(task, i + 1, previous);
      }
    }
  }

  function Dollars(text: string): nat {
    if text == "" then 0 else (if text[0] == '$' then 1 else 0) + Dollars(text[1..])
  }

  lemma {:induction false} DollarsJoin(a: string, b: string)
    ensures Dollars(a + b) == Dollars(a) + Dollars(b)
  {
    if a == "" {
      assert a + b == b;
    } else {
      assert (a + b)[1..] == a[1..] + b;
      DollarsJoin(a[1..], b);
    }
  }

  lemma {:induction false} MarkHasNoDollar()
    ensures Dollars(MARK) == 0
  {
    assert Dollars("}") == 0;
    assert MARK[9..] == "}";
    assert forall i :: 0 <= i < 10 ==> MARK[i] != '$';
    NoDollars(MARK);
  }

  lemma {:induction false} NoDollars(text: string)
    requires forall i :: 0 <= i < |text| ==> text[i] != '$'
    ensures Dollars(text) == 0
  {
    if text != "" {
      NoDollars(text[1..]);
    }
  }

  function Expansion(c: char): string {
    match c case '$' => "$" case '&' => MARK case _ => ""
  }

  lemma {:induction false} PatternStep(c: char, rest: string)
    requires Pattern(c)
    ensures Dollars(Expansion(c) + rest) < Dollars(['$', c]) + Dollars(rest)
  {
    MarkHasNoDollar();
    DollarsJoin(Expansion(c), rest);
    assert ['$', c][1..] == [c] && [c][1..] == "";
    assert "$"[1..] == "";
  }

  /** Alone in its task, a replacement with a pattern loses a dollar sign. */
  lemma {:induction false} PatternsLoseDollars(text: string)
    ensures Dollars(Substitute(text, "", "")) <= Dollars(text)
    ensures HasPattern(text) ==> Dollars(Substitute(text, "", "")) < Dollars(text)
  {
    if text == "" {
    } else if |text| >= 2 && text[0] == '$' && Pattern(text[1]) {
      PatternsLoseDollars(text[2..]);
      PatternStep(text[1], Substitute(text[2..], "", ""));
      assert text == ['$', text[1]] + text[2..];
      DollarsJoin(['$', text[1]], text[2..]);
    } else {
      PlainHead(text);
      PatternsLoseDollars(text[1..]);
    }
  }

  lemma {:induction false} PlainHead(text: string)
    requires text != "" && !(|text| >= 2 && text[0] == '$' && Pattern(text[1]))
    ensures HasPattern(text) ==> HasPattern(text[1..])
    ensures Dollars(text) == Dollars([text[0]]) + Dollars(text[1..])
    ensures Dollars(Substitute(text, "", "")) == Dollars([text[0]]) + Dollars(Substitute(text[1..], "", ""))
  {
    if HasPattern(text) {
      var i :| 0 <= i < |text| - 1 && text[i] == '$' && Pattern(text[i + 1]);
      assert text[1..][i - 1] == '$' && Pattern(text[1..][i]);
    }
    assert text == [text[0]] + text[1..];
    DollarsJoin([text[0]], text[1..]);
    DollarsJoin([text[0]], Substitute(text[1..], "", ""));
  }

  /** The prior result is inserted as it is, in every task, if and only if it contains none of the four patterns. */
  lemma {:induction false} InsertedVerbatimExactly(previous: string)
    ensures (forall task :: Replace(task, previous) == Insert(task, previous)) <==> !HasPattern(previous)
  {
    if HasPattern(previous) {
      PatternsLoseDollars(previous);
      MarkAlone(previous);
      assert Replace(MARK, previous) != Insert(MARK, previous);
    } else {
      forall task ensures Replace(task, previous) == Insert(task, previous) {
        PlainReplace(task, 0, previous);
      }
    }
  }

  lemma {:induction false} MarkAlone(previous: string)
    ensures Replace(MARK, previous) == Substitute(previous, "", "") && Insert(MARK, previous) == previous
  {
    assert MarkAt(MARK, 0);
    assert MARK[..0] == "" && MARK[|MARK|..] == "";
    assert ReplaceFrom(MARK, |MARK|, previous) == "" && InsertFrom(MARK, |MARK|, previous) == "";
    assert Substitute(previous, "", "") + "" == Substitute(previous, "", "");
    assert previous + "" == previous;
  }

  // ---------------------------------------------------------------- what is replaced, and by what

  /** The literal text stands at this place. */
  predicate Stands(task: string, i: nat)
    requires i <= |task|
  {
    "{previous}" <= task[i..]
  }

  lemma {:induction false} MarkStands(task: string, i: nat)
    requires i <= |task|
    ensures MarkAt(task, i) <==> Stands(task, i)
  {
    if i + 10 <= |task| {
      assert task[i..i + 10] == task[i..][..10];
    }
  }

  /** Up to the first mark the text is copied. */
  lemma {:induction false} CopiesBefore(task: string, i: nat, m: nat, previous: string)
    requires i <= m <= |task| && forall j :: i <= j < m ==> !Stands(task, j)
    ensures InsertFrom(task, i, previous) == task[i..m] + InsertFrom(task, m, previous)
    ensures ReplaceFrom(task, i, previous) == task[i..m] + ReplaceFrom(task, m, previous)
    decreases m - i
  {
    if i < m {
      MarkStands(task, i);
      CopiesBefore(task, i + 1, m, previous);
      JoinCopied(task, i, m, InsertFrom(task, m, previous));
      JoinCopied(task, i, m, ReplaceFrom(task, m, previous));
    } else {
      assert task[i..m] == "";
    }
  }

  lemma {:induction false} JoinCopied(task: string, i: nat, m: nat, rest: string)
    requires i < m <= |task|
    ensures task[i..m] + rest == [task[i]] + (task[i + 1..m] + rest)
  {
    assert task[i..m] == [task[i]] + task[i + 1..m];
  }

  /** A task without a mark is left as it is. */
  lemma {:induction false} NoMarkNoChange(task: string, previous: string)
    requires forall i :: 0 <= i < |task| ==> !Stands(task, i)
    ensures Insert(task, previous) == Replace(task, previous) == task
  {
    CopiesBefore(task, 0, |task|, previous);
    assert task[0..|task|] == task;
  }

  /** What is inserted behind a mark depends on the text behind it alone. */
  lemma {:induction false} InsertsBehind(front: string, rest: string, i: nat, previous: string)
    requires i <= |rest|
    ensures InsertFrom(front + rest, |front| + i, previous) == InsertFrom(rest, i, previous)
    decreases |rest| - i
  {
    if i < |rest| {
      SameMarks(front, rest, i);
      if MarkAt(rest, i) {
        InsertsBehind(front, rest, i + |MARK|, previous);
        assert InsertFrom(rest, i, previous) == previous + InsertFrom(rest, i + |MARK|, previous);
      } else {
        InsertsBehind(front, rest, i + 1, previous);
        assert InsertFrom(rest, i, previous) == [rest[i]] + InsertFrom(rest, i + 1, previous);
      }
    }
  }

  lemma {:induction false} SameMarks(front: string, rest: string, i: nat)
    requires i < |rest|
    ensures MarkAt(front + rest, |front| + i) <==> MarkAt(rest, i)
    ensures (front + rest)[|front| + i] == rest[i]
  {
    assert (front + rest)[|front| + i..] == rest[i..];
    MarkStands(front + rest, |front| + i);
    MarkStands(rest, i);
  }

  /** The first mark gives way to the prior result, and the text behind it is treated in the same way. */
  lemma {:induction false} FirstMarkInserted(a: string, b: string, previous: string)
    requires forall i :: 0 <= i < |a| ==> !Stands(a + "{previous}" + b, i)
    ensures Insert(a + "{previous}" + b, previous) == a + previous + Insert(b, previous)
  {
    var task := a + "{previous}" + b;
    CopiesBefore(task, 0, |a|, previous);
    assert task[0..|a|] == a && task[|a|..] == "{previous}" + b;
    MarkStands(task, |a|);
    InsertsBehind(a + "{previous}", b, 0, previous);
    assert a + (previous + Insert(b, previous)) == a + previous + Insert(b, previous);
  }

  /**
    From any place on, the first mark gives way to what the language makes of the prior result there,
    between all the text before it and all the text behind it.
   */
  lemma {:induction false} NextMarkReplaced(done: string, a: string, b: string, previous: string)
    requires forall i :: |done| <= i < |done + a| ==> !Stands(done + a + "{previous}" + b, i)
    ensures var task := done + a + "{previous}" + b;
      ReplaceFrom(task, |done|, previous) ==
        a + (Substitute(previous, done + a, b) + ReplaceFrom(task, |done + a| + 10, previous))
  {
    var task := done + a + "{previous}" + b;
    var m := |done + a|;
    assert task[|done|..m] == a && task[..m] == done + a && task[m + 10..] == b;
    assert task[m..] == "{previous}" + b;
    CopiesBefore(task, |done|, m, previous);
    MarkStands(task, m);
    MarkGivesWay(task, m, previous);
  }

  lemma {:induction false} MarkGivesWay(task: string, m: nat, previous: string)
    requires m + 10 <= |task| && MarkAt(task, m)
    ensures ReplaceFrom(task, m, previous) ==
      Substitute(previous, task[..m], task[m + 10..]) + ReplaceFrom(task, m + 10, previous)
  {
  }

  /** A task with one mark: the text before it, what replaces the mark, and the text behind it. */
  lemma {:induction false} OnlyMarkReplaced(a: string, b: string, previous: string)
    requires forall i :: 0 <= i < |a + "{previous}" + b| && i != |a| ==> !Stands(a + "{previous}" + b, i)
    ensures Replace(a + "{previous}" + b, previous) == a + (Substitute(previous, a, b) + b)
  {
    var task := a + "{previous}" + b;
    assert "" + a == a;
    NextMarkReplaced("", a, b, previous);
    CopiesBefore(task, |a| + 10, |task|, previous);
    assert task[|a| + 10..|task|] == b;
  }

  /** What a pattern stands for, behind text without a dollar sign. */
  lemma {:induction false} PatternsMean(plain: string, more: string, before: string, after: string)
    requires forall i :: 0 <= i < |plain| ==> plain[i] != '$'
    ensures Substitute(plain + ("$$" + more), before, after) == plain + ("$" + Substitute(more, before, after))
    ensures Substitute(plain + ("$&" + more), before, after) ==
      plain + ("{previous}" + Substitute(more, before, after))
    ensures Substitute(plain + ("$`" + more), before, after) == plain + (before + Substitute(more, before, after))
    ensures Substitute(plain + ("$'" + more), before, after) == plain + (after + Substitute(more, before, after))
  {
    PlainFirst(plain, "$$" + more, before, after);
    PlainFirst(plain, "$&" + more, before, after);
    PlainFirst(plain, "$`" + more, before, after);
    PlainFirst(plain, "$'" + more, before, after);
    assert ("$$" + more)[2..] == ("$&" + more)[2..] == ("$`" + more)[2..] == ("$'" + more)[2..] == more;
  }

  /** Text without a dollar sign stands for itself, and so does a dollar sign before any other character. */
  lemma {:induction false} OtherTextStays(plain: string, c: char, more: string, before: string, after: string)
    requires (forall i :: 0 <= i < |plain| ==> plain[i] != '$') && c !in ['$', '&', '`', '\'']
    ensures Substitute(plain, before, after) == plain
    ensures Substitute(plain + (['$', c] + more), before, after) ==
      plain + ("$" + Substitute([c] + more, before, after))
  {
    PlainFirst(plain, "", before, after);
    assert plain + "" == plain;
    PlainFirst(plain, ['$', c] + more, before, after);
    assert (['$', c] + more)[1..] == [c] + more;
  }

  lemma {:induction false} PlainFirst(plain: string, text: string, before: string, after: string)
    requires forall i :: 0 <= i < |plain| ==> plain[i] != '$'
    ensures Substitute(plain + text, before, after) == plain + Substitute(text, before, after)
  {
    if plain == "" {
      assert plain + text == text;
    } else {
      assert (plain + text)[1..] == plain[1..] + text;
      PlainFirst(plain[1..], text, before, after);
      assert plain == [plain[0]] + plain[1..];
      assert [plain[0]] + (plain[1..] + Substitute(text, before, after)) == plain + Substitute(text, before, after);
    }
  }

  // ---------------------------------------------------------------- the loop

  datatype Reply = Reply(text: string, success: bool)

  datatype Outcome = Results(values: seq<Reply>) | Cancelled(done: nat) | Threw(done: nat)

  /** The text that fills the mark of task `k`. */
  function Previous(replies: seq<Reply>, k: nat): string
    requires k <= |replies|
  {
    if k == 0 then "" else replies[k - 1].text
  }

  ghost predicate AnswersTask(tasks: seq<string>, replies: seq<Reply>, run: (nat, string) -> Option<Reply>, k: nat) {
    k < |replies| && k < |tasks| && run(k, Replace(tasks[k], Previous(replies, k))) == Some(replies[k])
  }

  /** Every reply answers its own task with the one before filled in, and only the last may be a failure. */
  ghost predicate IsChain(tasks: seq<string>, replies: seq<Reply>, run: (nat, string) -> Option<Reply>) {
    && |replies| <= |tasks|
    && (forall k: nat {:trigger AnswersTask(tasks, replies, run, k)} :: k < |replies| ==>
         AnswersTask(tasks, replies, run, k))
    && (forall k :: 0 <= k < |replies| - 1 ==> replies[k].success)
  }

  /**
    `run(k, task)` is what the runner answers for task `k`, or nothing when it throws; `aborted(k)` whether the
    signal is set before it.
   */
  method RunChain(tasks: seq<string>, run: (nat, string) -> Option<Reply>, aborted: nat -> bool) returns (r: Outcome)
    ensures r.Results? ==> IsChain(tasks, r.values, run)
    ensures r.Results? ==> forall k :: 0 <= k < |r.values| ==> !aborted(k)
    ensures r.Results? && |r.values| < |tasks| ==> r.values != [] && !r.values[|r.values| - 1].success
    ensures r.Cancelled? ==> r.done < |tasks| && aborted(r.done)
    ensures r.Threw? ==> r.done < |tasks| && !aborted(r.done)
    ensures r.Cancelled? || r.Threw? ==>
      exists replies :: |replies| == r.done && IsChain(tasks, replies, run) && AllSucceeded(replies) &&
        (r.Threw? ==> run(r.done, Replace(tasks[r.done], Previous(replies, r.done))) == None)
  {
    var replies: seq<Reply> := [];
    var previous := "";
    while |replies| < |tasks|
      invariant IsChain(tasks, replies, run) && AllSucceeded(replies)
      invariant previous == Previous(replies, |replies|)
      invariant forall k :: 0 <= k < |replies| ==> !aborted(k)
      decreases |tasks| - |replies|
    {
      if aborted(|replies|) {
        return Cancelled(|replies|);
      }
      var answer := run(|replies|, Replace(tasks[|replies|], previous));
      if answer == None {
        return Threw(|replies|);
      }
      var reply := answer.value;
      ExtendChain(tasks, replies, reply, run);
      replies := replies + [reply];
      if !reply.success {
        return Results(replies);
      }
      previous := reply.text;
    }
    return Results(replies);
  }

  lemma {:induction false} ExtendChain(tasks: seq<string>, replies: seq<Reply>, reply: Reply,
      run: (nat, string) -> Option<Reply>)
    requires IsChain(tasks, replies, run) && AllSucceeded(replies) && |replies| < |tasks|
    requires run(|replies|, Replace(tasks[|replies|], Previous(replies, |replies|))) == Some(reply)
    ensures IsChain(tasks, replies + [reply], run)
  {
    var all := replies + [reply];
    forall k: nat | k < |all| ensures AnswersTask(tasks, all, run, k) {
      assert k < |replies| ==> AnswersTask(tasks, replies, run, k);
      assert Previous(all, k) == Previous(replies, k);
    }
  }

  /** The first task runs with its marks taken out, and every later one with the text of the reply before it. */
  lemma {:induction false} ChainFeeds(tasks: seq<string>, replies: seq<Reply>, run: (nat, string) -> Option<Reply>)
    requires IsChain(tasks, replies, run)
    ensures replies != [] ==> run(0, Replace(tasks[0], "")) == Some(replies[0])
    ensures forall k: nat :: k + 1 < |replies| ==>
      run(k + 1, Replace(tasks[k + 1], replies[k].text)) == Some(replies[k + 1])
  {
    if replies != [] { assert AnswersTask(tasks, replies, run, 0); }
    forall k: nat | k + 1 < |replies|
      ensures run(k + 1, Replace(tasks[k + 1], replies[k].text)) == Some(replies[k + 1])
    {
      assert AnswersTask(tasks, replies, run, k + 1);
    }
  }

  ghost predicate AllSucceeded(replies: seq<Reply>) {
    forall k :: 0 <= k < |replies| ==> replies[k].success
  }

  /** The tasks and the runner determine the chain: two chains over them agree as far as both go. */
  lemma {:induction false} ChainsAgree(tasks: seq<string>, a: seq<Reply>, b: seq<Reply>,
      run: (nat, string) -> Option<Reply>, k: nat)
    requires IsChain(tasks, a, run) && IsChain(tasks, b, run) && k < |a| && k < |b|
    ensures a[k] == b[k]
  {
    if k > 0 {
      ChainsAgree(tasks, a, b, run, k - 1);
    }
    assert Previous(a, k) == Previous(b, k);
    assert AnswersTask(tasks, a, run, k) && AnswersTask(tasks, b, run, k);
  }
}
