/** The tool-call loop of a skill (SkillRunnerAgent in pawlia/agents/skill_runner.py):
    call the model, run the tools it asks for, append their results, repeat. */
module ToolLoop {
  import opened Texts
  import opened Messages
  import opened Errors
  import opened Retry
  import opened Sanitizer
  import opened SanitizerLaws

  const MAX_RETRIES := 3
  const NUDGE_SAME_CALL := 4
  const ABORT_SAME_CALL := 6
  const NUDGE_SILENT := 6
  const ABORT_SILENT := 10
  const MAX_OVERFLOWS := 3
  const MAX_NUDGES := 2

  datatype ToolResult = ToolResult(content: Text, ok: bool, retryable: bool)

  /** Everything outside the loop. In turn t the j-th attempt to reach the model
      answers `script(t)(j)` and the k-th tool call gives `tool(t, k)`; `skipped`
      and `broken` are the circuit breakers of the model chain and of the skill's
      own script; `visible` strips the hidden reasoning from a reply. */
  datatype World = World(
    script: nat -> nat -> Outcome,
    tool: (nat, nat) -> ToolResult,
    skipped: nat -> bool,
    broken: nat -> bool,
    visible: Text -> Text,
    looksUnfinished: Text -> bool,
    signature: ToolCall -> string,
    note: Text)

  datatype Stop = Answered | TooLarge | Silent | Repeated | BrokenSkill | Exhausted | Error(failure: Outcome)

  function CallsOf(m: Message): seq<ToolCall> {
    if m.AI? then m.calls else []
  }

  predicate AllNamed(calls: seq<ToolCall>) {
    forall c | c in calls :: c.id != ""
  }

  /** A reply whose tool calls all carry an id, or a failure other than an overflow. */
  predicate Regular(o: Outcome) {
    match o
    case Reply(m) => m.AI? && AllNamed(m.calls)
    case Failure(c, _) => c != ContextOverflow
  }

  ghost predicate RegularTurn(w: World, turn: nat) {
    forall j: nat :: Regular(w.script(turn)(j))
  }

  ghost predicate RegularWorld(w: World) {
    forall turn: nat :: RegularTurn(w, turn)
  }

  // ------------------------------------------------------------ tool results

  function ResultMessages(w: World, turn: nat, calls: seq<ToolCall>): (r: seq<Message>)
    ensures |r| == |calls|
  {
    seq(|calls|, k requires 0 <= k < |calls| => Tool(w.tool(turn, k).content, calls[k].id))
  }

  function CallIds(calls: seq<ToolCall>): (r: seq<string>)
    ensures |r| == |calls|
  {
    seq(|calls|, k requires 0 <= k < |calls| => calls[k].id)
  }

  method ExecuteCalls(w: World, turn: nat, calls: seq<ToolCall>, messages: seq<Message>)
    returns (out: seq<Message>, failed: bool, retryable: bool)
    ensures out == messages + ResultMessages(w, turn, calls)
    ensures failed <==> exists k: nat :: k < |calls| && !w.tool(turn, k).ok
    ensures retryable <==> exists k: nat :: k < |calls| && !w.tool(turn, k).ok && w.tool(turn, k).retryable
  {
    out, failed, retryable := messages, false, false;
    for k := 0 to |calls|
      invariant out == messages + ResultMessages(w, turn, calls)[..k]
      invariant failed <==> exists i: nat :: i < k && !w.tool(turn, i).ok
      invariant retryable <==> exists i: nat :: i < k && !w.tool(turn, i).ok && w.tool(turn, i).retryable
    {
      var result := w.tool(turn, k);
      out := out + [Tool(result.content, calls[k].id)];
      if !result.ok {
        failed := true;
        retryable := retryable || result.retryable;
      }
    }
  }

  // ------------------------------------------------------- repetition counter

  function Signatures(w: World, calls: seq<ToolCall>): multiset<string> {
    if calls == [] then multiset{}
    else Signatures(w, calls[..|calls| - 1]) + multiset{w.signature(calls[|calls| - 1])}
  }

  /** `counts.get(s, 0)` */
  function Times(counts: map<string, nat>, s: string): nat {
    if s in counts then counts[s] else 0
  }

  /** `counts` tallies the signatures in `seen`. */
  ghost predicate Tallies(counts: map<string, nat>, seen: multiset<string>) {
    forall s {:trigger Times(counts, s)} :: seen[s] == Times(counts, s)
  }

  lemma TallyOne(counts: map<string, nat>, seen: multiset<string>, s: string)
    requires Tallies(counts, seen)
    ensures Tallies(counts[s := Times(counts, s) + 1], seen + multiset{s})
  {
    var more := counts[s := Times(counts, s) + 1];
    forall other
      ensures (seen + multiset{s})[other] == Times(more, other)
    {
      assert seen[other] == Times(counts, other);
    }
  }

  method CountCalls(w: World, calls: seq<ToolCall>, counts: map<string, nat>, ghost seen: multiset<string>)
    returns (out: map<string, nat>)
    requires Tallies(counts, seen)
    ensures Tallies(out, seen + Signatures(w, calls))
  {
    out := counts;
    for k := 0 to |calls|
      invariant Tallies(out, seen + Signatures(w, calls[..k]))
    {
      assert calls[..k + 1][..k] == calls[..k];
      var s := w.signature(calls[k]);
      ghost var before := seen + Signatures(w, calls[..k]);
      TallyOne(out, before, s);
      assert before + multiset{s} == seen + Signatures(w, calls[..k + 1]);
      out := out[s := Times(out, s) + 1];
    }
    assert calls[..|calls|] == calls;
  }

  method Worst(counts: map<string, nat>) returns (worst: nat)
    ensures forall s | s in counts :: counts[s] <= worst
    ensures worst == 0 || exists s :: s in counts && counts[s] == worst
  {
    worst := 0;
    var rest := counts.Keys;
    while rest != {}
      invariant rest <= counts.Keys
      invariant forall s | s in counts && s !in rest :: counts[s] <= worst
      invariant worst == 0 || exists s :: s in counts && counts[s] == worst
      decreases rest
    {
      var s :| s in rest;
      if counts[s] > worst {
        worst := counts[s];
      }
      rest := rest - {s};
    }
  }

  // ------------------------------------------------------------- silent turns

  /** The number of silent turns at the end. */
  function TrailingSilent(turns: seq<bool>): (n: nat)
    ensures n <= |turns|
  {
    if turns == [] || !turns[|turns| - 1] then 0 else TrailingSilent(turns[..|turns| - 1]) + 1
  }

  /** The length of the longest run of silent turns. */
  function LongestSilent(turns: seq<bool>): nat {
    if turns == [] then 0
    else
      var before := LongestSilent(turns[..|turns| - 1]);
      if TrailingSilent(turns) > before then TrailingSilent(turns) else before
  }

  predicate AllSilent(turns: seq<bool>, i: nat, n: nat)
    requires i + n <= |turns|
  {
    forall j | i <= j < i + n :: turns[j]
  }

  /** Any n silent turns in a row are no more than the longest run. */
  lemma {:induction false} LongestBounds(turns: seq<bool>, i: nat, n: nat)
    requires i + n <= |turns| && AllSilent(turns, i, n)
    ensures n <= LongestSilent(turns)
  {
    if turns != [] && n > 0 {
      var init := turns[..|turns| - 1];
      if i + n < |turns| {
        assert AllSilent(init, i, n);
        LongestBounds(init, i, n);
      } else {
        TrailingReaches(turns, n);
      }
    }
  }

  lemma {:induction false} TrailingReaches(turns: seq<bool>, n: nat)
    requires n <= |turns| && AllSilent(turns, |turns| - n, n)
    ensures n <= TrailingSilent(turns)
  {
    if n > 0 {
      assert turns[|turns| - 1];
      assert AllSilent(turns[..|turns| - 1], |turns| - n, n - 1);
      TrailingReaches(turns[..|turns| - 1], n - 1);
    }
  }

  // ------------------------------------------------------- answered results

  /** The ids of the tool results that answer an open call, in order. */
  function AnswerIds(ms: seq<Message>): seq<string> {
    if ms == [] then []
    else
      var init, m := ms[..|ms| - 1], ms[|ms| - 1];
      if m.Tool? && m.callId in Open(init) then AnswerIds(init) + [m.callId] else AnswerIds(init)
  }

  /** The ids of all tool results, in order. */
  function ToolIds(ms: seq<Message>): seq<string> {
    if ms == [] then []
    else
      var init, m := ms[..|ms| - 1], ms[|ms| - 1];
      if m.Tool? then ToolIds(init) + [m.callId] else ToolIds(init)
  }

  lemma {:induction false} AnswerIdsOfValid(ms: seq<Message>)
    requires ToolValid(ms)
    ensures AnswerIds(ms) == ToolIds(ms)
  {
    if ms != [] {
      ValidPrefix(ms, |ms| - 1);
      AnswerIdsOfValid(ms[..|ms| - 1]);
    }
  }

  lemma {:induction false} ToolIdsResults(ms: seq<Message>)
    ensures |ToolIds(ms)| == |Results(ms)|
    ensures forall k | 0 <= k < |Results(ms)| :: Results(ms)[k].1.Tool? && ToolIds(ms)[k] == Results(ms)[k].1.callId
  {
    if ms != [] {
      ToolIdsResults(ms[..|ms| - 1]);
    }
  }

  lemma {:induction false} AnswerIdsAnswers(ms: seq<Message>)
    ensures |AnswerIds(ms)| == |Answers(ms)|
    ensures forall k | 0 <= k < |Answers(ms)| :: Answers(ms)[k].Tool? && AnswerIds(ms)[k] == Answers(ms)[k].callId
  {
    if ms != [] {
      AnswerIdsAnswers(ms[..|ms| - 1]);
    }
  }

  /** The repaired list holds exactly the ids of the answering results. */
  lemma AnswersSanitized(ms: seq<Message>)
    ensures ToolIds(Sanitized(ms)) == AnswerIds(ms)
    ensures AnswerIds(Sanitized(ms)) == AnswerIds(ms)
  {
    var out := Sanitized(ms);
    SanitizedWellFormed(ms);
    AnswerIdsOfValid(out);
    SanitizedResults(ms);
    ToolIdsResults(out);
    AnswerIdsAnswers(ms);
    SameIds(Results(out), Batches(out), Answers(ms), ToolIds(out), AnswerIds(ms));
  }

  lemma SameIds(rs: seq<(nat, Message)>, total: nat, answers: seq<Message>, a: seq<string>, b: seq<string>)
    requires |rs| == |answers| == |a| == |b|
    requires forall k | 0 <= k < |rs| :: rs[k].1.Tool? && a[k] == rs[k].1.callId
    requires forall k | 0 <= k < |rs| :: answers[k].Tool? && b[k] == answers[k].callId
    requires forall k | 0 <= k < |rs| ::
               var (batch, result) := rs[k];
               result == if batch + KEEP_BATCHES <= total
                         then ShrunkMessage(CleanMessage(answers[k]))
                         else CleanMessage(answers[k])
    ensures a == b
  {}

  lemma AnswerIdsPush(ms: seq<Message>, m: Message)
    ensures AnswerIds(ms + [m])
            == if m.Tool? && m.callId in Open(ms) then AnswerIds(ms) + [m.callId] else AnswerIds(ms)
  {
    assert (ms + [m])[..|ms|] == ms;
  }

  lemma {:induction false} AnswerIdsGrow(a: seq<Message>, b: seq<Message>)
    ensures AnswerIds(a) <= AnswerIds(a + b)
  {
    if b == [] {
      assert a + b == a;
    } else {
      var init := b[..|b| - 1];
      AnswerIdsGrow(a, init);
      assert a + b == a + init + [b[|b| - 1]];
      AnswerIdsPush(a + init, b[|b| - 1]);
    }
  }

  lemma FirstResults(w: World, turn: nat, calls: seq<ToolCall>, a: seq<Message>, n: nat)
    requires 0 < n <= |calls|
    ensures var r := ResultMessages(w, turn, calls);
            && a + r[..n] == (a + r[..n - 1]) + [r[n - 1]]
            && ((a + r[..n - 1]) + [r[n - 1]])[..|a| + n - 1] == a + r[..n - 1]
            && CallIds(calls)[..n] == CallIds(calls)[..n - 1] + [calls[n - 1].id]
  {}

  lemma CallIsNamed(calls: seq<ToolCall>, k: nat)
    requires k < |calls| && AllNamed(calls)
    ensures calls[k].id in Ids(calls)
  {
    assert calls[k] in calls;
  }

  /** The results that follow their call at once all count as answers. */
  lemma OneAnswer(ms: seq<Message>, m: Message, before: seq<string>, answers: seq<string>)
    requires m.Tool? && m.callId in Open(ms) && AnswerIds(ms) == before + answers
    ensures AnswerIds(ms + [m]) == before + (answers + [m.callId]) && Open(ms + [m]) == Open(ms)
  {
    AnswerIdsPush(ms, m);
    assert (ms + [m])[..|ms|] == ms;
    assert (before + answers) + [m.callId] == before + (answers + [m.callId]);
  }

  lemma {:induction false} AnswerIdsTurn(w: World, turn: nat, calls: seq<ToolCall>, a: seq<Message>, n: nat)
    requires n <= |calls| && AllNamed(calls) && Open(a) == Ids(calls)
    ensures AnswerIds(a + ResultMessages(w, turn, calls)[..n]) == AnswerIds(a) + CallIds(calls)[..n]
    ensures Open(a + ResultMessages(w, turn, calls)[..n]) == Ids(calls)
  {
    var results := ResultMessages(w, turn, calls);
    if n == 0 {
      assert a + results[..0] == a;
      assert AnswerIds(a) + CallIds(calls)[..0] == AnswerIds(a);
    } else {
      AnswerIdsTurn(w, turn, calls, a, n - 1);
      FirstResults(w, turn, calls, a, n);
      CallIsNamed(calls, n - 1);
      OneAnswer(a + results[..n - 1], results[n - 1], AnswerIds(a), CallIds(calls)[..n - 1]);
    }
  }
}
