/** What the retry loop of one model call does, told from the failures alone
    (BaseAgent._invoke in pawlia/agents/base.py). */
module RetryLaws {
  import opened Texts
  import opened Messages
  import opened Errors
  import opened Retry

  // ------------------------------------------------------------------ one failure

  /** Another attempt with the same prompt may help: neither the prompt nor the access is
      to blame. */
  predicate Passing(f: Outcome)
    requires f.Failure?
  {
    f.category != ContextOverflow && f.category != AuthError && f.category != FormatError
  }

  /** The last four messages after the first one and a note. */
  predicate Compacted(ms: seq<Message>, out: seq<Message>) {
    && |ms| >= 4 && |out| == 6
    && out[0] == ms[0] && out[1].Human?
    && out[2] == ms[|ms| - 4] && out[3] == ms[|ms| - 3] && out[4] == ms[|ms| - 2] && out[5] == ms[|ms| - 1]
  }

  /** What follows each failure: a passing one is tried again with the same prompt until
      maxRetries attempts have failed, a failed use of a tool in the same way with one more
      tool result, an overflow whenever there are seven messages or more, and anything else
      never. */
  lemma RecoveryExactly(ms: seq<Message>, f: Outcome, retries: nat, maxRetries: int)
    requires f.Failure?
    ensures var next := Recovery(ms, f, retries, maxRetries);
            match f.category
            case ContextOverflow => if |ms| >= 7 then next.Some? && Compacted(ms, next.value) else next == None
            case AuthError => next == None
            case FormatError =>
              if f.notice.Some? && retries + 1 < maxRetries
              then next == Some(ms + [Tool(f.notice.value, SyntheticId(retries + 1))])
              else next == None
            case _ => next == if retries + 1 < maxRetries then Some(ms) else None
  {}

  // --------------------------------------------------------------------- compaction

  /** Compaction cuts the list without looking: a tool result at the new beginning has lost
      its call. The prompt stays valid if and only if the fourth message from the end is
      none. */
  lemma CompactValid(ms: seq<Message>)
    requires ToolValid(ms) && |ms| >= 7
    ensures Compacted(ms, Compact(ms))
    ensures ToolValid(Compact(ms)) <==> !ms[|ms| - 4].Tool?
  {
    var note := Human(Lit("[Earlier conversation compacted due to context limit]"));
    var front, tail := ms[..|ms| - 4], ms[|ms| - 4..];
    var head := ms[..1] + [note];
    assert ms == front + tail && Compact(ms) == head + tail;
    assert Open(head) == {} by { assert head[|head| - 1] == note; }
    if ms[|ms| - 4].Tool? {
      assert Compact(ms)[..2] == head;
      assert Compact(ms)[2].Tool? && Compact(ms)[2].callId !in Open(Compact(ms)[..2]);
    } else {
      ValidSplit(front, tail);
      HeadValid(ms, note);
      ValidConcat(head, tail);
    }
  }

  lemma HeadValid(ms: seq<Message>, note: Message)
    requires ToolValid(ms) && ms != [] && note.Human?
    ensures ToolValid(ms[..1] + [note])
  {
    var head := ms[..1] + [note];
    assert head[..0] == ms[..0];
    assert head[0] == ms[0];
  }

  /** Nor has the result that is put in for a failed use of a tool a call to answer: the
      prompt stays valid only if the model happens to have named that very id. */
  lemma SyntheticValid(ms: seq<Message>, notice: Text, k: nat)
    requires ToolValid(ms)
    ensures ToolValid(ms + [Synthetic(k, notice)]) <==> SyntheticId(k) in Open(ms)
  {
    var m := Synthetic(k, notice);
    var all := ms + [m];
    assert all[..|ms|] == ms && all[|ms|] == m;
    forall i | 0 <= i < |ms| && all[i].Tool?
      ensures all[i].callId in Open(all[..i])
    {
      assert all[..i] == ms[..i];
    }
  }

  // ------------------------------------------------------------------------- ids

  /** The number that a numeral stands for. */
  function Value(s: string): int {
    if s == "" then 0 else 10 * Value(s[..|s| - 1]) + (s[|s| - 1] as int - '0' as int)
  }

  lemma {:induction false} NumeralReads(n: nat)
    ensures Value(Numeral(n)) == n
  {
    var s := Numeral(n);
    if n < 10 {
      assert s[..0] == "";
    } else {
      NumeralReads(n / 10);
      assert s[..|s| - 1] == Numeral(n / 10);
    }
  }

  /** The ids are the numbered ones, and no two attempts of a run have the same. */
  lemma SyntheticIds(a: nat, b: nat)
    ensures SyntheticId(a) == "synthetic_" + Numeral(a) && Value(Numeral(a)) == a
    ensures SyntheticId(a) == SyntheticId(b) ==> a == b
  {
    NumeralReads(a);
    NumeralReads(b);
    var s, t := SyntheticId(a), SyntheticId(b);
    assert s[10..] == Numeral(a) && t[10..] == Numeral(b);
  }

  // ------------------------------------------------------------------- all attempts

  /** The run is over: the last attempt was answered, or its failure is surfaced. */
  ghost predicate Over(sent: seq<seq<Message>>, script: nat -> Outcome, maxRetries: int) {
    && Attempts(sent, script, maxRetries)
    && var n := |sent| - 1;
       script(n).Reply? || Recovery(sent[n], script(n), n, maxRetries) == None
  }

  /** The first n attempts fail, each with a failure that may pass. */
  ghost predicate FailFirst(script: nat -> Outcome, n: nat) {
    forall k: nat | k < n :: script(k).Failure? && Passing(script(k))
  }

  lemma {:induction false} SamePrompt(sent: seq<seq<Message>>, script: nat -> Outcome, maxRetries: int, n: nat, j: nat)
    requires Attempts(sent, script, maxRetries) && FailFirst(script, n) && j < |sent| && j <= n
    ensures sent[j] == sent[0] && (j > 0 ==> j < maxRetries)
  {
    if j > 0 {
      SamePrompt(sent, script, maxRetries, n, j - 1);
      assert Retried(sent, script, maxRetries, j - 1);
      RecoveryExactly(sent[j - 1], script(j - 1), j - 1, maxRetries);
    }
  }

  lemma FailedBefore(sent: seq<seq<Message>>, script: nat -> Outcome, maxRetries: int, j: nat)
    requires Attempts(sent, script, maxRetries) && j + 1 < |sent|
    ensures script(j).Failure?
  {
    assert Retried(sent, script, maxRetries, j);
  }

  /** When the first n attempts fail so that it may pass and the next is answered, it is
      answered if n is below maxRetries, after n + 1 calls with the same prompt; else the
      failure is surfaced after maxRetries of them, and never before the first. */
  lemma PassingCourse(sent: seq<seq<Message>>, script: nat -> Outcome, maxRetries: int, n: nat)
    requires Over(sent, script, maxRetries) && FailFirst(script, n) && script(n).Reply?
    ensures |sent| == if n == 0 || n < maxRetries then n + 1 else if maxRetries < 1 then 1 else maxRetries
    ensures forall j | 0 <= j < |sent| :: sent[j] == sent[0]
  {
    var last := |sent| - 1;
    if last > n {
      FailedBefore(sent, script, maxRetries, n);
    }
    assert last <= n;
    SamePrompt(sent, script, maxRetries, n, last);
    if last < n {
      RecoveryExactly(sent[last], script(last), last, maxRetries);
    }
    forall j | 0 <= j < |sent|
      ensures sent[j] == sent[0]
    {
      SamePrompt(sent, script, maxRetries, n, j);
    }
  }

  /** With the three attempts that are usual: two passing failures are borne, a third is
      not. */
  lemma ThreeAttempts(sent: seq<seq<Message>>, script: nat -> Outcome, n: nat)
    requires Over(sent, script, 3) && FailFirst(script, n) && script(n).Reply?
    ensures |sent| == if n <= 2 then n + 1 else 3
  {
    PassingCourse(sent, script, 3, n);
  }

  /** What a run was given up for: nothing that may pass before maxRetries attempts, no
      overflow of seven messages or more. */
  lemma SurfacedExactly(sent: seq<seq<Message>>, script: nat -> Outcome, maxRetries: int)
    requires Over(sent, script, maxRetries) && script(|sent| - 1).Failure?
    ensures var f := script(|sent| - 1);
            match f.category
            case ContextOverflow => |sent[|sent| - 1]| <= 6
            case AuthError => true
            case FormatError => f.notice.None? || |sent| >= maxRetries
            case _ => |sent| >= maxRetries
  {
    RecoveryExactly(sent[|sent| - 1], script(|sent| - 1), |sent| - 1, maxRetries);
  }
}
