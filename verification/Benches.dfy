/** When a model of a fallback chain is skipped, in numbers (pawlia/llm.py). */
module Benches {
  import opened Errors
  import opened Fallback
  import opened Strikes
  import opened Requests

  /** A request speaks against a model when its last call failed, unless the prompt, the
      format or the access was to blame; an answer speaks for it. */
  lemma EventExactly(v: Visit)
    ensures EventOf(v) == Success <==> Succeeded(v)
    ensures EventOf(v) == Strike
            <==> && (v.Called? || v.Recalled?) && LastReply(v).Error?
                 && LastReply(v).category != ContextOverflow && LastReply(v).category != AuthError
                 && LastReply(v).category != FormatError
    ensures EventOf(v) == Untried <==> v.Benched? || v.TooSmall?
  {}

  /** Model i was reached by a request that spoke against it. */
  ghost predicate Struck(before: Health, t: Trail, after: Health, i: nat) {
    Progress(before, t, after) && i < |t.visits| && EventOf(t.visits[i]) == Strike
  }

  /** One failed request after another: the first and the second change nothing yet, the
      third benches the model for 1800 seconds from its end, and the count starts again. */
  lemma ThreeStrikes(a: Health, s: Trail, b: Health, t: Trail, c: Health, u: Trail, d: Health, i: nat)
    requires Struck(a, s, b, i) && Struck(b, t, c, i) && Struck(c, u, d, i) && a.failures[i] == 0
    ensures b.benchedUntil[i] == c.benchedUntil[i] == a.benchedUntil[i]
    ensures d.benchedUntil[i] == u.ends[i] + 1800.0 && d.failures[i] == 0
  {}

  /** A request skips the benched model exactly as long as it comes to its turn before these
      1800 seconds are over. */
  lemma SkippedExactly(c: Health, u: Trail, d: Health, v: Trail, e: Health, i: nat)
    requires Struck(c, u, d, i) && c.failures[i] == 2
    requires Progress(d, v, e) && i < |v.visits|
    ensures v.visits[i].Benched? <==> v.starts[i] < u.ends[i] + 1800.0
  {}

  /** A success, at whatever number of failures below three, clears the count and the bench. */
  lemma Forgiven(a: Health, s: Trail, b: Health, i: nat)
    requires Progress(a, s, b) && i < |s.visits| && Succeeded(s.visits[i])
    ensures b.failures[i] == 0 && b.benchedUntil[i] == 0.0
  {
    EventExactly(s.visits[i]);
  }
}
