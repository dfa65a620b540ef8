/** What one request to a fallback chain does, told without the chain's state
    (pawlia/llm.py): the models visited, the prompts, the result, and what becomes of
    the health of every model. */
module Requests {
  import opened Messages
  import opened Errors
  import opened Fallback
  import opened Strikes

  /** The exception a request remembers last. */
  datatype Failure = ModelError(model: nat, category: Category) | PromptTooLarge(model: nat)

  datatype Result = Answered(reply: Message) | Failed(last: Failure) | AllBenched

  /** Which exception, if any, a visit leaves behind. */
  function FailureOf(i: nat, v: Visit): Option<Failure> {
    if v.Benched? then None
    else if v.TooSmall? then Some(PromptTooLarge(i))
    else
      match LastReply(v)
      case Answer(_) => None
      case Error(c) => Some(ModelError(i, c))
  }

  /** The exception of the last visit that left one. */
  function LastFailure(visits: seq<Visit>): Option<Failure> {
    if visits == [] then None
    else
      var n := |visits| - 1;
      if FailureOf(n, visits[n]).Some? then FailureOf(n, visits[n]) else LastFailure(visits[..n])
  }

  lemma LastFailurePush(visits: seq<Visit>, v: Visit)
    ensures LastFailure(visits + [v])
            == if FailureOf(|visits|, v).Some? then FailureOf(|visits|, v) else LastFailure(visits)
  {
    assert (visits + [v])[..|visits|] == visits;
  }

  /** Some model was skipped because the prompt could not be made to fit it. */
  predicate SomeTooSmall(visits: seq<Visit>) {
    visits != [] && (SomeTooSmall(visits[..|visits| - 1]) || visits[|visits| - 1].TooSmall?)
  }

  /** The active model after a request: the one that answered at its first call. */
  function Active(active: nat, visits: seq<Visit>): nat {
    if visits != [] && visits[|visits| - 1].Called? && Succeeded(visits[|visits| - 1]) then |visits| - 1 else active
  }

  /** How the event of one visit changes the health of its model: the failure
      count moves on, a success ends a bench, a third strike starts one. */
  predicate HealthStep(e: Event, failures: nat, until: real, failures': nat, until': real, now: real) {
    && failures' == NextCount(failures, e)
    && until' == match e
                 case Success => 0.0
                 case Strike => if failures + 1 >= THRESHOLD then now + COOLDOWN else until
                 case _ => until
  }

  /** Failure counts and bench ends of all models, and the latest clock reading. */
  datatype Health = Health(failures: seq<nat>, benchedUntil: seq<real>, now: real)

  /** The request so far: the models it has reached were skipped exactly when
      benched, their health follows from what happened, and the other models'
      health is untouched. */
  ghost predicate Progress(before: Health, t: Trail, after: Health)
  {
    && |before.failures| == |before.benchedUntil| == |after.failures| == |after.benchedUntil|
    && |t.starts| == |t.ends| == |t.visits| <= |before.failures|
    && before.now <= after.now
    && (forall i | 0 <= i < |t.visits| ::
          && before.now <= t.starts[i]
          && (t.visits[i].Benched? <==> before.benchedUntil[i] > t.starts[i])
          && HealthStep(EventOf(t.visits[i]), before.failures[i], before.benchedUntil[i],
                        after.failures[i], after.benchedUntil[i], t.ends[i]))
    && (forall i | |t.visits| <= i < |before.failures| ::
          after.failures[i] == before.failures[i] && after.benchedUntil[i] == before.benchedUntil[i])
  }

  lemma ProgressPush(before: Health, t: Trail, mid: Health, v: Visit, next: seq<Message>, start: real, after: Health)
    requires Progress(before, t, mid) && |t.visits| < |before.failures|
    requires mid.now <= start <= after.now
    requires var i := |t.visits|;
             && (v.Benched? <==> mid.benchedUntil[i] > start)
             && |after.failures| == |mid.failures| && |after.benchedUntil| == |mid.benchedUntil|
             && after.failures == mid.failures[i := after.failures[i]]
             && after.benchedUntil == mid.benchedUntil[i := after.benchedUntil[i]]
             && HealthStep(EventOf(v), mid.failures[i], mid.benchedUntil[i],
                           after.failures[i], after.benchedUntil[i], after.now)
    ensures Progress(before, Pushed(t, v, next, start, after.now), after)
  {}

  /** The result of a request with these visits: the first success, or the last
      exception after every model was visited. */
  predicate ResultOk(size: nat, visits: seq<Visit>, r: Result) {
    match r
    case AllBenched => visits == []
    case Answered(reply) =>
      && visits != [] && NoneSucceeded(visits[..|visits| - 1])
      && Succeeded(visits[|visits| - 1]) && LastReply(visits[|visits| - 1]) == Answer(reply)
    case Failed(last) =>
      |visits| == size && NoneSucceeded(visits) && LastFailure(visits) == Some(last)
  }

  /** The course of one request: what was done with each model, the message list
      it found, and the clock when its turn began and ended. */
  datatype Trail = Trail(visits: seq<Visit>, lists: seq<seq<Message>>, starts: seq<real>, ends: seq<real>)

  ghost predicate TrailOk(w: World, ms: seq<Message>, t: Trail) {
    && |t.starts| == |t.ends| == |t.visits|
    && RequestOk(w, ms, t.visits, t.lists)
  }

  ghost function Pushed(t: Trail, v: Visit, next: seq<Message>, start: real, end: real): Trail {
    Trail(t.visits + [v], t.lists + [next], t.starts + [start], t.ends + [end])
  }

  lemma StepPush(w: World, ms: seq<Message>, visits: seq<Visit>, lists: seq<seq<Message>>, v: Visit,
                 next: seq<Message>, i: nat)
    requires RequestOk(w, ms, visits, lists) && VisitOk(w, |visits|, lists[|visits|], v, next) && i <= |visits|
    ensures StepOk(w, visits + [v], lists + [next], i)
  {
    var all, more := visits + [v], lists + [next];
    if i < |visits| {
      assert StepOk(w, visits, lists, i);
      assert all[i] == visits[i] && more[i] == lists[i] && more[i + 1] == lists[i + 1];
    } else {
      assert all[i] == v && more[i] == lists[i] && more[i + 1] == next;
    }
  }

  lemma TrailPush(w: World, ms: seq<Message>, t: Trail, v: Visit, next: seq<Message>, start: real, end: real)
    requires TrailOk(w, ms, t) && VisitOk(w, |t.visits|, t.lists[|t.visits|], v, next)
    ensures TrailOk(w, ms, Pushed(t, v, next, start, end))
  {
    var all, more := t.visits + [v], t.lists + [next];
    forall i | 0 <= i < |all|
      ensures StepOk(w, all, more, i)
    {
      StepPush(w, ms, t.visits, t.lists, v, next, i);
    }
  }

  predicate NoneSucceeded(visits: seq<Visit>) {
    visits == [] || (NoneSucceeded(visits[..|visits| - 1]) && !Succeeded(visits[|visits| - 1]))
  }

  lemma HistoryPush(history: seq<seq<Visit>>, visits: seq<Visit>)
    ensures forall i: nat :: Count(Record(history + [visits], i))
                        == NextCount(Count(Record(history, i)), if i < |visits| then EventOf(visits[i]) else Untried)
  {
    forall i: nat
      ensures Count(Record(history + [visits], i))
              == NextCount(Count(Record(history, i)), if i < |visits| then EventOf(visits[i]) else Untried)
    {
      RecordPush(history, visits, i);
      CountPush(Record(history, i), if i < |visits| then EventOf(visits[i]) else Untried);
    }
  }

  /** A visited model that was not benched and did not answer left an exception. */
  lemma {:induction false} LastFailureSome(visits: seq<Visit>, i: nat)
    requires i < |visits| && NoneSucceeded(visits) && !visits[i].Benched?
    ensures LastFailure(visits).Some?
  {
    var n := |visits| - 1;
    if i < n {
      LastFailureSome(visits[..n], i);
    }
  }

  /** A request under way: no model reached so far has answered, `last` is the exception
      remembered and `ms` the list that the next model finds. */
  ghost predicate Underway(w: World, messages: seq<Message>, before: Health, t: Trail, now: Health,
                           ms: seq<Message>, last: Option<Failure>) {
    && TrailOk(w, messages, t) && t.lists[|t.visits|] == ms
    && NoneSucceeded(t.visits) && last == LastFailure(t.visits)
    && Progress(before, t, now)
  }

  lemma Unreached(w: World, messages: seq<Message>, before: Health)
    requires |before.failures| == |before.benchedUntil|
    ensures Underway(w, messages, before, Trail([], [messages], [], []), before, messages, None)
  {}

  /** The next model did not answer: the request goes on. */
  lemma GoesOn(w: World, messages: seq<Message>, before: Health, t: Trail, mid: Health, ms: seq<Message>,
               last: Option<Failure>, t': Trail, v: Visit, next: seq<Message>, after: Health)
    requires Underway(w, messages, before, t, mid, ms, last) && !Succeeded(v)
    requires t'.visits == t.visits + [v] && t'.lists == t.lists + [next]
    requires TrailOk(w, messages, t') && Progress(before, t', after)
    ensures Underway(w, messages, before, t', after, next,
                     if FailureOf(|t.visits|, v).Some? then FailureOf(|t.visits|, v) else last)
  {
    LastFailurePush(t.visits, v);
    assert t'.visits[..|t.visits|] == t.visits;
  }

  /** It answered: this is the result. */
  lemma Ends(w: World, messages: seq<Message>, before: Health, t: Trail, mid: Health, ms: seq<Message>,
             last: Option<Failure>, v: Visit, size: nat)
    requires Underway(w, messages, before, t, mid, ms, last) && Succeeded(v)
    ensures ResultOk(size, t.visits + [v], Answered(LastReply(v).message))
  {
    assert (t.visits + [v])[..|t.visits|] == t.visits;
  }

  /** All models were reached, one of them awake from the start: there is an exception. */
  lemma Exhausted(w: World, messages: seq<Message>, before: Health, t: Trail, now: Health, ms: seq<Message>,
                  last: Option<Failure>, awake: nat)
    requires Underway(w, messages, before, t, now, ms, last) && awake < |t.visits| == |before.failures|
    requires before.benchedUntil[awake] <= before.now
    ensures last.Some? && ResultOk(|t.visits|, t.visits, Failed(last.value))
    ensures !Succeeded(t.visits[|t.visits| - 1])
  {
    LastFailureSome(t.visits, awake);
  }
}
