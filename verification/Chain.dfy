/** The state of a fallback chain and its request loop (pawlia/llm.py).

    One caller uses the chain; the clock never runs backwards. */
module Chain {
  import opened Messages
  import opened Errors
  import opened Fallback
  import opened Strikes
  import opened Requests

  class FallbackChain {
    const size: nat
    const clock: nat -> real
    var ticks: nat
    var failures: seq<nat>
    var benchedUntil: seq<real>
    var lastErrors: seq<Option<Category>>
    var activeModel: nat
    var contextSkipped: bool
    ghost var history: seq<seq<Visit>>

    ghost predicate Shaped()
      reads this
    {
      && size > 0
      && |failures| == |benchedUntil| == |lastErrors| == size
      && (forall j, k :: 0 <= j <= k ==> clock(j) <= clock(k))
    }

    /** No bench reaches further than 30 minutes past the latest clock reading. */
    ghost predicate BenchesBounded()
      reads this
      requires |benchedUntil| == size
    {
      forall i | 0 <= i < size ::
        benchedUntil[i] == 0.0 || (ticks > 0 && benchedUntil[i] <= clock(ticks - 1) + COOLDOWN)
    }

    ghost predicate Valid()
      reads this
    {
      && Shaped()
      && BenchesBounded()
      && forall i | 0 <= i < size :: failures[i] == Count(Record(history, i))
    }

    constructor (size: nat, clock: nat -> real)
      requires size > 0
      requires forall j, k :: 0 <= j <= k ==> clock(j) <= clock(k)
      ensures Valid()
      ensures this.size == size && this.clock == clock && ticks == 0 && history == []
      ensures forall i | 0 <= i < size :: benchedUntil[i] == 0.0
    {
      this.size := size;
      this.clock := clock;
      ticks := 0;
      failures := seq(size, _ => 0);
      benchedUntil := seq(size, _ => 0.0);
      lastErrors := seq(size, _ => None);
      activeModel := 0;
      contextSkipped := false;
      history := [];
      new;
      assert forall i :: Record([], i) == [];
    }

    /** Reads the clock. */
    method Now() returns (now: real)
      modifies this`ticks
      ensures now == clock(old(ticks)) && ticks == old(ticks) + 1
    {
      now := clock(ticks);
      ticks := ticks + 1;
    }

    predicate IsBenched(i: nat, now: real)
      reads this
      requires i < |benchedUntil|
    {
      benchedUntil[i] > now
    }

    method NoteSuccess(i: nat)
      requires Shaped() && i < size
      modifies this`failures, this`benchedUntil, this`lastErrors
      ensures failures == old(failures)[i := 0]
      ensures benchedUntil == old(benchedUntil)[i := 0.0]
      ensures lastErrors == old(lastErrors)[i := None]
    {
      failures := failures[i := 0];
      benchedUntil := benchedUntil[i := 0.0];
      lastErrors := lastErrors[i := None];
    }

    method NoteFailure(i: nat, category: Category)
      requires Shaped() && i < size
      modifies this`ticks, this`failures, this`benchedUntil, this`lastErrors
      ensures lastErrors == old(lastErrors)[i := Some(category)]
      ensures ticks == old(ticks) + (if BenchEligible(category) then 1 else 0)
      ensures if !BenchEligible(category) then
                failures == old(failures) && benchedUntil == old(benchedUntil)
              else if old(failures[i]) + 1 < THRESHOLD then
                failures == old(failures)[i := old(failures[i]) + 1] && benchedUntil == old(benchedUntil)
              else
                && failures == old(failures)[i := 0]
                && benchedUntil == old(benchedUntil)[i := clock(old(ticks)) + COOLDOWN]
    {
      lastErrors := lastErrors[i := Some(category)];
      if !BenchEligible(category) {
        return;
      }
      var now := Now();
      failures := failures[i := failures[i] + 1];
      if failures[i] >= THRESHOLD {
        benchedUntil := benchedUntil[i := now + COOLDOWN];
        failures := failures[i := 0];
      }
    }

    /** Whether every model is benched right now. */
    method AllAreBenched() returns (all: bool)
      requires Shaped()
      modifies this`ticks
      ensures ticks == old(ticks) + 1
      ensures all <==> forall i | 0 <= i < size :: benchedUntil[i] > clock(old(ticks))
    {
      var now := Now();
      all := true;
      for i := 0 to size
        invariant all <==> forall j | 0 <= j < i :: benchedUntil[j] > now
      {
        if !IsBenched(i, now) {
          all := false;
        }
      }
    }

    /** Visit v changed the state of model i only, and as it should. */
    twostate predicate Stepped(i: nat, v: Visit)
      requires old(Shaped()) && Shaped() && i < size && old(ticks) < ticks
      reads this
    {
      && failures == old(failures)[i := failures[i]]
      && benchedUntil == old(benchedUntil)[i := benchedUntil[i]]
      && HealthStep(EventOf(v), old(failures[i]), old(benchedUntil[i]), failures[i], benchedUntil[i], clock(ticks - 1))
      && lastErrors == (if v.Benched? || v.TooSmall? then old(lastErrors)
                        else old(lastErrors)[i := if Succeeded(v) then None else Some(LastReply(v).category)])
    }

    /** Calls model i, and once more with a condensed prompt after an overflow. */
    method CallModel(w: World, i: nat, prompt: seq<Message>) returns (v: Visit)
      requires Shaped() && i < size && ticks > 0
      modifies this`ticks, this`failures, this`benchedUntil, this`lastErrors, this`activeModel
      ensures Shaped() && old(ticks) <= ticks
      ensures CallOk(w, i, prompt, v)
      ensures failures == old(failures)[i := failures[i]]
      ensures benchedUntil == old(benchedUntil)[i := benchedUntil[i]]
      ensures HealthStep(EventOf(v), old(failures[i]), old(benchedUntil[i]), failures[i], benchedUntil[i],
                         clock(ticks - 1))
      ensures lastErrors == old(lastErrors)[i := if Succeeded(v) then None else Some(LastReply(v).category)]
      ensures activeModel == if v.Called? && Succeeded(v) then i else old(activeModel)
    {
      var first := w.reply(i, false);
      if first.Answer? {
        NoteSuccess(i);
        activeModel := i;
        return Called(prompt, first);
      }
      NoteFailure(i, first.category);
      if first.category != ContextOverflow {
        return Called(prompt, first);
      }
      var again := FitPrompt(w.Context(i), prompt, true, w.summary(i, true), w.toolName);
      if again.None? {
        return Called(prompt, first);
      }
      var second := w.reply(i, true);
      if second.Answer? {
        NoteSuccess(i);
      } else {
        NoteFailure(i, second.category);
      }
      return Recalled(prompt, first, again.value, second);
    }

    /** One turn of the request loop: what is done with model i. */
    method VisitModel(w: World, i: nat, ms: seq<Message>) returns (v: Visit, next: seq<Message>)
      requires Shaped() && i < size
      modifies this`ticks, this`failures, this`benchedUntil, this`lastErrors, this`activeModel, this`contextSkipped
      ensures VisitOk(w, i, ms, v, next)
      ensures v.Benched? <==> old(benchedUntil[i]) > clock(old(ticks))
      ensures Shaped() && old(ticks) < ticks && Stepped(i, v)
      ensures contextSkipped == (old(contextSkipped) || v.TooSmall?)
      ensures activeModel == if v.Called? && Succeeded(v) then i else old(activeModel)
    {
      var now := Now();
      if IsBenched(i, now) {
        return Benched, ms;
      }
      var fitted := FitPrompt(w.Context(i), ms, false, w.summary(i, false), w.toolName);
      if fitted.None? {
        contextSkipped := true;
        return TooSmall, ms;
      }
      next := fitted.value;
      v := CallModel(w, i, next);
    }

    /** One turn of the request loop, added to the trail of the request. */
    method Turn(w: World, i: nat, ms: seq<Message>, ghost t: Trail, ghost before: Health, ghost messages: seq<Message>)
      returns (v: Visit, next: seq<Message>, ghost t': Trail)
      requires Shaped() && BenchesBounded() && i == |t.visits| < size && ticks > 0
      requires TrailOk(w, messages, t) && t.lists[|t.visits|] == ms
      requires Progress(before, t, Health(failures, benchedUntil, clock(ticks - 1)))
      modifies this`ticks, this`failures, this`benchedUntil, this`lastErrors, this`activeModel, this`contextSkipped
      ensures Shaped() && BenchesBounded() && ticks > old(ticks)
      ensures t' == Pushed(t, v, next, clock(old(ticks)), clock(ticks - 1)) && TrailOk(w, messages, t')
      ensures Progress(before, t', Health(failures, benchedUntil, clock(ticks - 1)))
      ensures contextSkipped == (old(contextSkipped) || v.TooSmall?)
      ensures activeModel == if v.Called? && Succeeded(v) then i else old(activeModel)
    {
      v, next := VisitModel(w, i, ms);
      t' := Pushed(t, v, next, clock(old(ticks)), clock(ticks - 1));
      TrailPush(w, messages, t, v, next, clock(old(ticks)), clock(ticks - 1));
      ProgressPush(before, t, Health(old(failures), old(benchedUntil), clock(old(ticks) - 1)),
                   v, next, clock(old(ticks)), Health(failures, benchedUntil, clock(ticks - 1)));
    }

    /** Ends a request: its visits join the record. */
    ghost method Close(t: Trail, before: Health)
      requires Shaped() && BenchesBounded() && ticks > 0
      requires Progress(before, t, Health(failures, benchedUntil, clock(ticks - 1)))
      requires forall i | 0 <= i < size :: before.failures[i] == Count(Record(history, i))
      modifies this`history
      ensures Valid() && history == old(history) + [t.visits]
    {
      history := history + [t.visits];
      HistoryPush(old(history), t.visits);
    }

    /** One turn, and what is remembered after it: the result when the model answered, else
        the exception and the list for the next model. */
    method Advance(w: World, messages: seq<Message>, i: nat, ms: seq<Message>, last: Option<Failure>,
                   ghost t: Trail, ghost before: Health)
      returns (r: Option<Message>, next: seq<Message>, last': Option<Failure>, ghost t': Trail)
      requires Shaped() && BenchesBounded() && i == |t.visits| < size && ticks > 0
      requires Underway(w, messages, before, t, Health(failures, benchedUntil, clock(ticks - 1)), ms, last)
      modifies this`ticks, this`failures, this`benchedUntil, this`lastErrors, this`activeModel, this`contextSkipped
      ensures Shaped() && BenchesBounded() && ticks > old(ticks) && |t'.visits| == i + 1
      ensures TrailOk(w, messages, t') && Progress(before, t', Health(failures, benchedUntil, clock(ticks - 1)))
      ensures if r.Some? then ResultOk(size, t'.visits, Answered(r.value))
              else Underway(w, messages, before, t', Health(failures, benchedUntil, clock(ticks - 1)), next, last')
      ensures contextSkipped == (old(contextSkipped) || t'.visits[i].TooSmall?) && t'.visits[..i] == t.visits
      ensures activeModel == Active(old(activeModel), t'.visits)
    {
      ghost var mid := Health(failures, benchedUntil, clock(ticks - 1));
      var v;
      v, next, t' := Turn(w, i, ms, t, before, messages);
      last' := if FailureOf(i, v).Some? then FailureOf(i, v) else last;
      if Succeeded(v) {
        Ends(w, messages, before, t, mid, ms, last, v, size);
        return Some(LastReply(v).message), next, last', t';
      }
      GoesOn(w, messages, before, t, mid, ms, last, t', v, next, Health(failures, benchedUntil, clock(ticks - 1)));
      r := None;
    }

    /** The loop over the models, the model `awake` not being benched now. */
    method TryModels(w: World, messages: seq<Message>, ghost before: Health, ghost awake: nat)
      returns (r: Result, ghost t: Trail)
      requires Shaped() && BenchesBounded() && ticks > 0
      requires before == Health(failures, benchedUntil, clock(ticks - 1))
      requires awake < size && benchedUntil[awake] <= clock(ticks - 1)
      modifies this`ticks, this`failures, this`benchedUntil, this`lastErrors, this`activeModel, this`contextSkipped
      ensures Shaped() && BenchesBounded() && ticks > old(ticks)
      ensures TrailOk(w, messages, t) && |t.visits| <= size
      ensures Progress(before, t, Health(failures, benchedUntil, clock(ticks - 1)))
      ensures !r.AllBenched? && ResultOk(size, t.visits, r)
      ensures contextSkipped <==> old(contextSkipped) || SomeTooSmall(t.visits)
      ensures activeModel == Active(old(activeModel), t.visits)
    {
      var last: Option<Failure> := None;
      var ms := messages;
      t := Trail([], [messages], [], []);
      Unreached(w, messages, before);
      for i := 0 to size
        invariant i == |t.visits| && Shaped() && BenchesBounded() && ticks >= old(ticks) + i
        invariant Underway(w, messages, before, t, Health(failures, benchedUntil, clock(ticks - 1)), ms, last)
        invariant contextSkipped <==> old(contextSkipped) || SomeTooSmall(t.visits)
        invariant activeModel == Active(old(activeModel), t.visits)
      {
        var reply;
        reply, ms, last, t := Advance(w, messages, i, ms, last, t, before);
        if reply.Some? {
          return Answered(reply.value), t;
        }
      }
      Exhausted(w, messages, before, t, Health(failures, benchedUntil, clock(ticks - 1)), ms, last, awake);
      assert last.Some?;
      r := Failed(last.value);
    }

    method Run(w: World, messages: seq<Message>, ghost before: Health) returns (r: Result, ghost t: Trail)
      requires Shaped() && BenchesBounded()
      requires before == Health(failures, benchedUntil, clock(ticks))
      modifies this`ticks, this`failures, this`benchedUntil, this`lastErrors, this`activeModel, this`contextSkipped
      ensures Shaped() && BenchesBounded() && ticks > old(ticks)
      ensures TrailOk(w, messages, t) && |t.visits| <= size
      ensures Progress(before, t, Health(failures, benchedUntil, clock(ticks - 1)))
      ensures r.AllBenched? <==> forall i | 0 <= i < size :: before.benchedUntil[i] > before.now
      ensures ResultOk(size, t.visits, r)
      ensures contextSkipped <==> SomeTooSmall(t.visits)
      ensures activeModel == Active(old(activeModel), t.visits)
    {
      contextSkipped := false;
      var all := AllAreBenched();
      if all {
        r, t := AllBenched, Trail([], [messages], [], []);
      } else {
        ghost var awake: nat :| awake < size && before.benchedUntil[awake] <= before.now;
        r, t := TryModels(w, messages, before, awake);
      }
    }

    /** One request. */
    method Invoke(w: World, messages: seq<Message>) returns (r: Result, ghost t: Trail, ghost before: Health)
      requires Valid()
      modifies this
      ensures Valid() && history == old(history) + [t.visits] && ticks > old(ticks)
      ensures before == Health(old(failures), old(benchedUntil), clock(old(ticks)))
      ensures TrailOk(w, messages, t) && |t.visits| <= size
      ensures Progress(before, t, Health(failures, benchedUntil, clock(ticks - 1)))
      ensures r.AllBenched? <==> forall i | 0 <= i < size :: before.benchedUntil[i] > before.now
      ensures ResultOk(size, t.visits, r)
      ensures contextSkipped <==> SomeTooSmall(t.visits)
      ensures activeModel == Active(old(activeModel), t.visits)
    {
      before := Health(failures, benchedUntil, clock(ticks));
      r, t := Run(w, messages, before);
      Close(t, before);
    }
  }
}
