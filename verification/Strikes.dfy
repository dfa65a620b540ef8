/** Three strikes: how failed requests bench a model (pawlia/llm.py). */
module Strikes {
  import opened Errors
  import opened Fallback

  /** What one request means for the health of one model. */
  datatype Event = Untried | Success | Strike | Pass

  function FailureEvent(c: Category): Event {
    if BenchEligible(c) then Strike else Pass
  }

  function EventOf(v: Visit): Event {
    if v.Benched? || v.TooSmall? then Untried
    else
      match LastReply(v)
      case Answer(_) => Success
      case Error(c) => FailureEvent(c)
  }

  /** A success clears the count; a third strike benches the model, which also
      clears it. */
  function NextCount(n: nat, e: Event): (r: nat)
    ensures n < THRESHOLD ==> r < THRESHOLD
  {
    match e
    case Success => 0
    case Strike => if n + 1 >= THRESHOLD then 0 else n + 1
    case _ => n
  }

  /** The failure count of a model with this record. */
  function Count(es: seq<Event>): (n: nat)
    ensures n < THRESHOLD
  {
    if es == [] then 0 else NextCount(Count(es[..|es| - 1]), es[|es| - 1])
  }

  /** The record of a model, one event for each request. */
  function Record(history: seq<seq<Visit>>, i: nat): seq<Event> {
    seq(|history|, k requires 0 <= k < |history| => if i < |history[k]| then EventOf(history[k][i]) else Untried)
  }

  lemma RecordPush(history: seq<seq<Visit>>, visits: seq<Visit>, i: nat)
    ensures Record(history + [visits], i)
            == Record(history, i) + [if i < |visits| then EventOf(visits[i]) else Untried]
  {}

  lemma CountPush(es: seq<Event>, e: Event)
    ensures Count(es + [e]) == NextCount(Count(es), e)
  {
    assert (es + [e])[..|es|] == es;
  }

  /** The strikes since the last success. */
  function SinceSuccess(es: seq<Event>): nat {
    if es == [] then 0
    else
      var n := SinceSuccess(es[..|es| - 1]);
      match es[|es| - 1]
      case Success => 0
      case Strike => n + 1
      case _ => n
  }

  /** The count is the number of strikes since the last success, taken modulo
      three: every third one benches the model and starts over. */
  lemma {:induction false} CountIsModulo(es: seq<Event>)
    ensures Count(es) == SinceSuccess(es) % THRESHOLD
  {
    if es != [] {
      CountIsModulo(es[..|es| - 1]);
    }
  }

  /** A benching strike: it comes when two are already counted. */
  predicate Benches(es: seq<Event>, k: nat)
    requires k < |es|
  {
    es[k] == Strike && Count(es[..k]) == THRESHOLD - 1
  }

  /** No success and no bench from position a on, up to before b. */
  predicate Unforgiven(es: seq<Event>, a: nat, b: nat)
    requires a <= b <= |es|
  {
    forall k | a <= k < b :: es[k] != Success && !Benches(es, k)
  }

  /** A positive count points back at the strike that raised it. */
  lemma {:induction false} LatestStrike(es: seq<Event>, n: nat) returns (a: nat)
    requires n <= |es| && Count(es[..n]) > 0
    ensures a < n && es[a] == Strike && Count(es[..a]) == Count(es[..n]) - 1
    ensures Unforgiven(es, a, n)
  {
    assert es[..n][..n - 1] == es[..n - 1];
    if es[n - 1] == Strike {
      a := n - 1;
    } else {
      a := LatestStrike(es, n - 1);
      assert es[..n - 1] == es[..n][..n - 1];
    }
  }

  /** A bench takes three different requests that failed for a reason that counts,
      with no success and no earlier bench among or between them. */
  lemma BenchTakesThree(es: seq<Event>, c: nat) returns (a: nat, b: nat)
    requires c < |es| && Benches(es, c)
    ensures a < b < c && es[a] == es[b] == es[c] == Strike
    ensures Unforgiven(es, a, c)
    ensures Count(es[..a]) == 0
  {
    b := LatestStrike(es, c);
    a := LatestStrike(es, b);
  }
}
