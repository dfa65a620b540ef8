/** The retry loop around one model call (BaseAgent._invoke in pawlia/agents/base.py).

    A model is an oracle: the k-th call of a run answers `script(k)`. */
module Retry {
  import opened Texts
  import opened Messages
  import opened Errors
  import Sanitizer

  /** `notice` is set for errors whose text reports a failed or forbidden tool
      use: it is the tool result that tells the model so. */
  datatype Outcome = Reply(message: Message) | Failure(category: Category, notice: Option<Text>)

  datatype Result = Returned(message: Message, prompt: seq<Message>) | Raised(failure: Outcome)

  /** System message, a note, and the last four messages. */
  function Compact(ms: seq<Message>): seq<Message> {
    if |ms| <= 4 then ms
    else ms[..1] + [Human(Lit("[Earlier conversation compacted due to context limit]"))] + ms[|ms| - 4..]
  }

  function SyntheticId(attempt: nat): string {
    "synthetic_" + Numeral(attempt)
  }

  function Numeral(n: nat): string {
    if n < 10 then ['0' + n as char] else Numeral(n / 10) + ['0' + (n % 10) as char]
  }

  function Synthetic(attempt: nat, notice: Text): Message {
    Tool(notice, SyntheticId(attempt))
  }

  predicate ToolUseFailed(f: Outcome) {
    f.Failure? && f.category == FormatError && f.notice.Some?
  }

  /** The prompt of the next attempt after the failure `f`, when `retries`
      attempts failed before; nothing when the failure is surfaced. */
  function Recovery(ms: seq<Message>, f: Outcome, retries: nat, maxRetries: int): Option<seq<Message>>
    requires f.Failure?
  {
    if ToolUseFailed(f) then
      if retries + 1 >= maxRetries then None else Some(ms + [Synthetic(retries + 1, f.notice.value)])
    else if f.category == ContextOverflow then
      if |Compact(ms)| < |ms| then Some(Compact(ms)) else None
    else if !Retryable(f.category) then None
    else if retries + 1 >= maxRetries then None
    else Some(ms)
  }

  /** Attempt j failed and attempt j + 1 is the recovery from it. */
  ghost predicate Retried(sent: seq<seq<Message>>, script: nat -> Outcome, maxRetries: int, j: nat)
    requires j + 1 < |sent|
  {
    script(j).Failure? && Recovery(sent[j], script(j), j, maxRetries) == Some(sent[j + 1])
  }

  /** `sent` are the prompts of a run of attempts. */
  ghost predicate Attempts(sent: seq<seq<Message>>, script: nat -> Outcome, maxRetries: int) {
    sent != [] && forall j: nat | j < |sent| - 1 :: Retried(sent, script, maxRetries, j)
  }

  lemma AttemptsPush(sent: seq<seq<Message>>, script: nat -> Outcome, maxRetries: int, next: seq<Message>)
    requires Attempts(sent, script, maxRetries)
    requires script(|sent| - 1).Failure?
    requires Recovery(sent[|sent| - 1], script(|sent| - 1), |sent| - 1, maxRetries) == Some(next)
    ensures Attempts(sent + [next], script, maxRetries)
  {
    var all := sent + [next];
    forall j: nat | j < |all| - 1
      ensures Retried(all, script, maxRetries, j)
    {
      if j < |sent| - 1 {
        assert Retried(sent, script, maxRetries, j);
      }
    }
  }

  method Invoke(messages: seq<Message>, maxRetries: int, script: nat -> Outcome)
    returns (r: Result, ghost sent: seq<seq<Message>>)
    ensures Attempts(sent, script, maxRetries)
    ensures sent[0] == Sanitizer.Sanitized(messages)
    ensures match script(|sent| - 1)
            case Reply(m) => r == Returned(m, sent[|sent| - 1])
            case Failure(_, _) =>
              && r == Raised(script(|sent| - 1))
              && Recovery(sent[|sent| - 1], script(|sent| - 1), |sent| - 1, maxRetries) == None
    ensures |sent| <= AttemptLimit(maxRetries)
  {
    var prompt := Sanitizer.Sanitize(messages);
    sent := [prompt];
    var retries := 0;
    while true
      invariant |sent| == retries + 1 && sent[retries] == prompt
      invariant sent[0] == Sanitizer.Sanitized(messages)
      invariant Attempts(sent, script, maxRetries)
      decreases AttemptLimit(maxRetries) - retries
    {
      AttemptsBounded(sent, script, maxRetries);
      var outcome := script(retries);
      if outcome.Reply? {
        return Returned(outcome.message, prompt), sent;
      }
      if ToolUseFailed(outcome) {
        retries := retries + 1;
        if retries >= maxRetries {
          return Raised(outcome), sent;
        }
        prompt := prompt + [Synthetic(retries, outcome.notice.value)];
        AttemptsPush(sent, script, maxRetries, prompt);
        sent := sent + [prompt];
        continue;
      }
      if outcome.category == ContextOverflow {
        var compacted := Compact(prompt);
        if |compacted| < |prompt| {
          prompt := compacted;
          retries := retries + 1;
          AttemptsPush(sent, script, maxRetries, prompt);
          sent := sent + [prompt];
          continue;
        }
        return Raised(outcome), sent;
      }
      if !Retryable(outcome.category) {
        return Raised(outcome), sent;
      }
      retries := retries + 1;
      if retries >= maxRetries {
        return Raised(outcome), sent;
      }
      AttemptsPush(sent, script, maxRetries, prompt);
      sent := sent + [prompt];
    }
  }

  function AttemptLimit(maxRetries: int): nat {
    if maxRetries <= 1 then 2 else maxRetries + 1
  }

  /** Compaction leaves six messages, so it shrinks a list only from seven on. */
  lemma CompactShrinks(ms: seq<Message>)
    ensures |Compact(ms)| < |ms| <==> |ms| >= 7
    ensures |ms| >= 7 ==> |Compact(ms)| == 6
  {}

  /** Although compaction checks no retry limit, a run makes at most
      maxRetries + 1 attempts (two when maxRetries is below 1), whatever fails:
      the attempt past the limit can only follow a compaction, whose result
      cannot be compacted again. */
  lemma AttemptsBounded(sent: seq<seq<Message>>, script: nat -> Outcome, maxRetries: int)
    requires Attempts(sent, script, maxRetries)
    ensures |sent| <= AttemptLimit(maxRetries)
  {
    var limit := AttemptLimit(maxRetries);
    if |sent| > limit {
      assert Retried(sent, script, maxRetries, limit - 2) && Retried(sent, script, maxRetries, limit - 1);
      CompactShrinks(sent[limit - 2]);
      CompactShrinks(sent[limit - 1]);
    }
  }

  /** The bound is reached: from seven messages, `maxRetries - 1` rate limits
      followed by an overflow use up every allowed attempt. */
  lemma BoundReached(ms: seq<Message>, maxRetries: int, script: nat -> Outcome) returns (sent: seq<seq<Message>>)
    requires |ms| == 7 && maxRetries >= 1
    requires forall k: nat :: script(k) == Failure(if k < maxRetries - 1 then RateLimit else ContextOverflow, None)
    ensures Attempts(sent, script, maxRetries)
    ensures |sent| == AttemptLimit(maxRetries) && sent[0] == ms
  {
    sent := seq(maxRetries, k requires 0 <= k < maxRetries => ms);
    forall j: nat | j < |sent| - 1
      ensures Retried(sent, script, maxRetries, j)
    {}
    CompactShrinks(ms);
    AttemptsPush(sent, script, maxRetries, Compact(ms));
    sent := sent + [Compact(ms)];
  }

  predicate NoOverflow(script: nat -> Outcome, n: nat) {
    forall j: nat | j < n :: script(j).Failure? ==> script(j).category != ContextOverflow
  }

  /** Without an overflow, retrying only ever adds synthetic tool results. */
  lemma {:induction false} RetriesAppend(sent: seq<seq<Message>>, script: nat -> Outcome, maxRetries: int, j: nat)
    requires Attempts(sent, script, maxRetries) && j < |sent| && NoOverflow(script, j)
    ensures sent[0] <= sent[j] && AllTools(sent[j][|sent[0]|..])
  {
    if j > 0 {
      RetriesAppend(sent, script, maxRetries, j - 1);
      assert Retried(sent, script, maxRetries, j - 1);
      var extra := sent[j - 1][|sent[0]|..];
      if sent[j] != sent[j - 1] {
        assert sent[j][|sent[0]|..] == extra + [Synthetic(j, script(j - 1).notice.value)];
      }
    }
  }
}
