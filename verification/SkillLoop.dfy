/** The tool-call loop of a skill as it runs, and what any run of it keeps
    (SkillRunnerAgent._tool_call_loop in pawlia/agents/skill_runner.py). */
module SkillLoop {
  import opened Seqs
  import opened Texts
  import opened Messages
  import opened Errors
  import opened Retry
  import RetryLaws
  import Sanitizer
  import opened ToolLoop
  import opened LoopCourse

  /** The counters and flags of the loop. */
  datatype State = State(failed: bool, nudges: nat, totalCalls: nat, overflows: nat, silent: nat,
                         counts: map<string, nat>, silentNudged: bool, repeatNudged: bool)

  /** The counters and flags tell what is to be remembered. */
  ghost predicate Holds(s: State, t: Standing) {
    && t.memory == Memory(s.failed, s.nudges, s.totalCalls, s.overflows)
    && t.said == Said(s.silentNudged, s.repeatNudged)
    && s.silent == TrailingSilent(t.course.silent) && Tallies(s.counts, t.course.executed)
  }

  // ---------------------------------------------------------------- a reply with text

  /** A reply without tool calls: the model is nudged to go on, or has answered. */
  method TextReply(w: World, s: State, response: Message, messages: seq<Message>, ghost t: Standing)
    returns (stop: Option<Stop>, next: State, out: seq<Message>)
    requires Holds(s, t)
    ensures stop == TakenText(w, t, response).0 && Holds(next, TakenText(w, t, response).1)
    ensures out == if stop.None? then messages + [response] + [Human(w.note)] else messages
  {
    var text := w.visible(response.content);
    if (Trim(text) == [] || s.failed || w.looksUnfinished(text) || s.totalCalls == 0) && s.nudges < MAX_NUDGES {
      return None, s.(nudges := s.nudges + 1), messages + [response] + [Human(w.note)];
    }
    return Some(Answered), s, messages;
  }

  // ---------------------------------------------------------------- a reply with calls

  /** The greatest count tells whether some signature was seen n times. */
  lemma WorstExactly(counts: map<string, nat>, seen: multiset<string>, worst: nat, n: nat)
    requires Tallies(counts, seen) && n > 0 && forall s | s in counts :: counts[s] <= worst
    requires worst == 0 || exists s :: s in counts && counts[s] == worst
    ensures worst >= n <==> SomeTimes(seen, n)
  {
    if worst >= n {
      var s :| s in counts && counts[s] == worst;
      assert seen[s] == Times(counts, s) >= n;
    }
    if s :| seen[s] >= n {
      assert seen[s] == Times(counts, s);
    }
  }

  /** The repetition counter with the calls of the response added. */
  method Recount(w: World, counts: map<string, nat>, response: Message, ghost c: Course)
    returns (worst: nat, counted: map<string, nat>)
    requires Tallies(counts, c.executed)
    ensures worst >= 4 <==> SomeTimes(CallsWith(w, c, response), 4)
    ensures worst >= 6 <==> SomeTimes(CallsWith(w, c, response), 6)
    ensures Tallies(counted, CallsWith(w, c, response))
  {
    counted := CountCalls(w, CallsOf(response), counts, c.executed);
    worst := Worst(counted);
    WorstExactly(counted, CallsWith(w, c, response), worst, 4);
    WorstExactly(counted, CallsWith(w, c, response), worst, 6);
  }

  /** What is remembered when no breaker trips. */
  ghost function Progressed(w: World, t: Standing, reply: Message): Standing {
    t.(said := SaidNext(SilentWith(w, t.course.silent, reply), CallsWith(w, t.course, reply), t.said),
       course := CourseWith(w, t.course, reply))
  }

  /** The model is told something after this reply. */
  ghost predicate Told(w: World, t: Standing, reply: Message) {
    var silent := SilentWith(w, t.course.silent, reply);
    NudgesSilent(silent, t.said) || NudgesRepeat(silent, CallsWith(w, t.course, reply), t.said)
  }

  lemma ProgressHolds(w: World, s: State, next: State, t: Standing, reply: Message)
    requires Holds(s, t) && next.silent == SilentWith(w, t.course.silent, reply)
    requires Tallies(next.counts, CallsWith(w, t.course, reply))
    requires var silent, calls := SilentWith(w, t.course.silent, reply), CallsWith(w, t.course, reply);
             next == s.(silent := silent, counts := next.counts,
                        silentNudged := s.silentNudged || NudgesSilent(silent, t.said),
                        repeatNudged := s.repeatNudged || NudgesRepeat(silent, calls, t.said))
    ensures Holds(next, Progressed(w, t, reply))
  {
    TailSilent(t.course.silent, Blank(w, reply));
  }

  /** The two circuit breakers for a model that makes no progress: they trip at the tenth
      silent reply in a row, or else when a call has come six times. */
  method CheckProgress(w: World, s: State, response: Message, ghost t: Standing)
    returns (stop: Option<Stop>, nudge: bool, next: State)
    requires Holds(s, t)
    ensures stop == BreaksBy(SilentWith(w, t.course.silent, response), CallsWith(w, t.course, response))
    ensures stop.Some? ==> next == s
    ensures stop.None? ==> Holds(next, Progressed(w, t, response)) && (nudge <==> Told(w, t, response))
  {
    nudge, next := false, s;
    var quiet := Trim(w.visible(response.content)) == [];
    var silentNow := if quiet then s.silent + 1 else 0;
    if silentNow >= ABORT_SILENT {
      return Some(Silent), nudge, next;
    }
    var worst, counted := Recount(w, s.counts, response, t.course);
    if worst >= ABORT_SAME_CALL {
      return Some(Repeated), nudge, next;
    }
    var nudgeSilent := silentNow >= NUDGE_SILENT && !s.silentNudged;
    var nudgeRepeat := worst >= NUDGE_SAME_CALL && !s.repeatNudged && !nudgeSilent;
    next := s.(silent := silentNow, counts := counted, silentNudged := s.silentNudged || nudgeSilent,
               repeatNudged := s.repeatNudged || nudgeRepeat);
    stop, nudge := None, nudgeSilent || nudgeRepeat;
    ProgressHolds(w, s, next, t, response);
  }

  /** The messages that steer the model, n of them. */
  function Notes(w: World, n: nat): seq<Message> {
    seq(n, i => Human(w.note))
  }

  lemma NotesPush(w: World, ms: seq<Message>, n: nat)
    ensures ms + Notes(w, 0) == ms
    ensures (ms + Notes(w, n)) + [Human(w.note)] == ms + Notes(w, n + 1)
  {}

  /** Some tool call of the turn failed in a way worth another try. */
  predicate RetryAt(w: World, turn: nat, reply: Message) {
    exists k: nat | k < |CallsOf(reply)| :: !w.tool(turn, k).ok && w.tool(turn, k).retryable
  }

  /** How many messages steer the model after a turn. */
  function Steers(w: World, turn: nat, reply: Message, nudge: bool): nat {
    (if nudge then 1 else 0) + (if RetryAt(w, turn, reply) && !w.broken(turn) then 1 else 0)
  }

  /** Runs the calls of the response and steers the model afterwards. */
  method RunTurn(w: World, turn: nat, response: Message, messages: seq<Message>, nudge: bool)
    returns (stop: Option<Stop>, failed: bool, out: seq<Message>)
    ensures failed <==> FailedAt(w, turn, response)
    ensures stop == if w.broken(turn) then Some(BrokenSkill) else None
    ensures out == (messages + ResultMessages(w, turn, CallsOf(response)))
                   + Notes(w, Steers(w, turn, response, nudge))
  {
    var retryable;
    out, failed, retryable := ExecuteCalls(w, turn, CallsOf(response), messages);
    ghost var ran := out;
    NotesPush(w, ran, 0);
    if nudge {
      out := out + [Human(w.note)];
      NotesPush(w, ran, 1);
    }
    if w.broken(turn) {
      return Some(BrokenSkill), failed, out;
    }
    if retryable {
      out := out + [Human(w.note)];
    }
    stop := None;
  }

  /** What a reply with tool calls leaves in the message list. */
  ghost function Listed(w: World, t: Standing, turn: nat, reply: Message, messages: seq<Message>): seq<Message> {
    if Unrun(TakenTools(w, t, turn, reply).0) then messages + [reply]
    else
      ((messages + [reply]) + ResultMessages(w, turn, CallsOf(reply)))
      + Notes(w, Steers(w, turn, reply, Told(w, t, reply)))
  }

  /** What is remembered when a circuit breaker trips. */
  lemma BrokenOff(w: World, s: State, t: Standing, turn: nat, reply: Message)
    requires Holds(s, t) && BreaksBy(SilentWith(w, t.course.silent, reply), CallsWith(w, t.course, reply)).Some?
    ensures Holds(s.(totalCalls := s.totalCalls + |CallsOf(reply)|), TakenTools(w, t, turn, reply).1)
  {}

  /** And when the calls were run. */
  lemma RunOn(w: World, s: State, next: State, t: Standing, turn: nat, reply: Message)
    requires BreaksBy(SilentWith(w, t.course.silent, reply), CallsWith(w, t.course, reply)).None?
    requires Holds(s, Progressed(w, t, reply))
    requires next == s.(totalCalls := t.memory.totalCalls + |CallsOf(reply)|, failed := FailedAt(w, turn, reply))
    ensures Holds(next, TakenTools(w, t, turn, reply).1)
  {}

  /** A reply with tool calls: they are run unless a circuit breaker trips. */
  method ToolReply(w: World, s: State, turn: nat, response: Message, messages: seq<Message>, ghost t: Standing)
    returns (stop: Option<Stop>, next: State, out: seq<Message>)
    requires Holds(s, t)
    ensures stop == TakenTools(w, t, turn, response).0 && Holds(next, TakenTools(w, t, turn, response).1)
    ensures out == Listed(w, t, turn, response, messages)
  {
    out := messages + [response];
    var nudge, checked;
    stop, nudge, checked := CheckProgress(w, s, response, t);
    next := checked.(totalCalls := s.totalCalls + |CallsOf(response)|);
    if stop.Some? {
      BrokenOff(w, s, t, turn, response);
    } else {
      var failed;
      stop, failed, out := RunTurn(w, turn, response, out, nudge);
      next := next.(failed := failed);
      RunOn(w, checked, next, t, turn, response);
    }
  }

  // ------------------------------------------------------------------------- one turn

  /** The reply is taken up: it ends the loop, or the loop goes on. */
  method TakeUp(w: World, s: State, turn: nat, response: Message, messages: seq<Message>, ghost t: Standing)
    returns (stop: Option<Stop>, next: State, out: seq<Message>)
    requires Holds(s, t)
    ensures stop == Taken(w, t, turn, response).0 && Holds(next, Taken(w, t, turn, response).1)
    ensures stop.None? ==>
              out == if Asks(response) then Listed(w, Skipped(t, w.skipped(turn)), turn, response, messages)
                     else messages + [response] + [Human(w.note)]
  {
    var seen := s.(overflows := if w.skipped(turn) then s.overflows + 1 else 0);
    if seen.overflows >= MAX_OVERFLOWS {
      return Some(TooLarge), seen, messages;
    }
    if CallsOf(response) == [] {
      stop, next, out := TextReply(w, seen, response, messages, Skipped(t, w.skipped(turn)));
    } else {
      stop, next, out := ToolReply(w, seen, turn, response, messages, Skipped(t, w.skipped(turn)));
    }
  }

  // ------------------------------------------------------------------ attached results

  /** Every result appended so far is among the tool results of the prompt. */
  predicate Complete(p: Prompt) {
    Sublist(p.appended, ToolIds(p.sent))
  }

  predicate AllComplete(prompts: seq<Prompt>) {
    prompts == [] || (AllComplete(prompts[..|prompts| - 1]) && Complete(prompts[|prompts| - 1]))
  }

  lemma CompletePush(prompts: seq<Prompt>, p: Prompt)
    ensures AllComplete(prompts + [p]) <==> AllComplete(prompts) && Complete(p)
  {
    assert (prompts + [p])[..|prompts|] == prompts;
  }

  lemma ResultsAttached(w: World, turn: nat, a: seq<Message>, calls: seq<ToolCall>, appended: seq<string>)
    requires AllNamed(calls) && Open(a) == Ids(calls) && Sublist(appended, AnswerIds(a))
    ensures Sublist(appended + CallIds(calls), AnswerIds(a + ResultMessages(w, turn, calls)))
  {
    AnswerIdsTurn(w, turn, calls, a, |calls|);
    assert ResultMessages(w, turn, calls)[..|calls|] == ResultMessages(w, turn, calls);
    assert CallIds(calls)[..|calls|] == CallIds(calls);
    SublistBoth(appended, AnswerIds(a), CallIds(calls));
  }

  lemma Attached(ms: seq<Message>, more: seq<Message>, appended: seq<string>)
    requires Sublist(appended, AnswerIds(ms))
    ensures Sublist(appended, AnswerIds(ms + more))
  {
    AnswerIdsGrow(ms, more);
    SublistGrow(appended, AnswerIds(ms), AnswerIds(ms + more));
  }

  /** The results of a turn that runs its calls answer them. */
  lemma TurnAttached(w: World, turn: nat, ms: seq<Message>, reply: Message, n: nat, appended: seq<string>)
    requires reply.AI? && AllNamed(reply.calls) && Sublist(appended, AnswerIds(ms))
    ensures Sublist(appended + CallIds(CallsOf(reply)),
                    AnswerIds(((ms + [reply]) + ResultMessages(w, turn, CallsOf(reply))) + Notes(w, n)))
  {
    Attached(ms, [reply], appended);
    ResultsAttached(w, turn, ms + [reply], reply.calls, appended);
    Attached((ms + [reply]) + ResultMessages(w, turn, reply.calls), Notes(w, n), appended + CallIds(reply.calls));
  }

  /** What is left in the message list answers all calls that were run. */
  lemma ListAttached(w: World, first: Message, rounds: seq<Round>, r: Round, t: Standing, ms: seq<Message>,
                     out: seq<Message>)
    requires Regular(Reply(r.reply)) && Sublist(ResultIds(first, Asking(rounds)), AnswerIds(ms))
    requires Taken(w, t, |rounds| + 1, r.reply).0.None? && r.skipped == w.skipped(|rounds| + 1)
    requires out == if Asks(r.reply) then Listed(w, Skipped(t, r.skipped), |rounds| + 1, r.reply, ms)
                    else ms + [r.reply] + [Human(w.note)]
    ensures Sublist(ResultIds(first, Asking(rounds + [r])), AnswerIds(out))
  {
    var appended := ResultIds(first, Asking(rounds));
    AskingPush(rounds, r);
    if Asks(r.reply) {
      TurnAttached(w, |rounds| + 1, ms, r.reply,
                   Steers(w, |rounds| + 1, r.reply, Told(w, Skipped(t, r.skipped), r.reply)), appended);
      ResultIdsPush(first, Asking(rounds), r.reply);
    } else {
      Attached(ms, [r.reply], appended);
      Attached(ms + [r.reply], [Human(w.note)], appended);
    }
  }

  /** Calling the model repairs the list without losing a result, and retries
      only ever add to it. */
  lemma CallKeeps(w: World, turn: nat, ms: seq<Message>, sent: seq<seq<Message>>, appended: seq<string>)
    requires RegularWorld(w) && Attempts(sent, w.script(turn), MAX_RETRIES) && sent[0] == Sanitizer.Sanitized(ms)
    requires Sublist(appended, AnswerIds(ms))
    ensures Complete(Prompt(appended, sent[0]))
    ensures Sublist(appended, AnswerIds(sent[|sent| - 1]))
  {
    var n := |sent| - 1;
    assert RegularTurn(w, turn);
    RetriesAppend(sent, w.script(turn), MAX_RETRIES, n);
    AnswersSanitized(ms);
    var extra := sent[n][|sent[0]|..];
    assert sent[n] == sent[0] + extra;
    AnswerIdsGrow(sent[0], extra);
    SublistGrow(appended, AnswerIds(ms), AnswerIds(sent[n]));
  }

  /** Calls the model on the messages so far. */
  method CallModel(w: World, turn: nat, messages: seq<Message>, ghost appended: seq<string>)
    returns (failure: Option<Outcome>, response: Message, out: seq<Message>, ghost p: Prompt)
    ensures p == Prompt(appended, Sanitizer.Sanitized(messages))
    ensures Given(w, turn, p.sent, if failure.Some? then failure.value else Reply(response))
    ensures failure.Some? ==> out == messages
    ensures RegularWorld(w) && Sublist(appended, AnswerIds(messages)) ==>
              Complete(p) && Sublist(appended, AnswerIds(out)) && (failure.None? ==> Regular(Reply(response)))
  {
    var r, sent := Retry.Invoke(messages, MAX_RETRIES, w.script(turn));
    ghost var last := w.script(turn)(|sent| - 1);
    p := Prompt(appended, sent[0]);
    assert RetryLaws.Over(sent, w.script(turn), MAX_RETRIES);
    if RegularWorld(w) && Sublist(appended, AnswerIds(messages)) {
      CallKeeps(w, turn, messages, sent, appended);
      assert RegularTurn(w, turn) && Regular(last);
    }
    if r.Raised? {
      assert r.failure == last;
      return Some(r.failure), Human([]), messages, p;
    }
    failure, response, out := None, r.message, r.prompt;
  }

  // ----------------------------------------------------------------------- the whole loop

  /** The first reply is taken up and its calls are run. */
  method TakeFirst(w: World, messages: seq<Message>, first: Message) returns (s: State, out: seq<Message>)
    ensures Holds(s, StandingOf(w, first, []))
    ensures out == ((messages + [first]) + ResultMessages(w, 0, CallsOf(first)))
                   + Notes(w, if RetryAt(w, 0, first) then 1 else 0)
  {
    var calls := CallsOf(first);
    var counts := CountCalls(w, calls, map[], multiset{});
    assert multiset{} + Signatures(w, calls) == Signatures(w, calls);
    var failed, retryable;
    out, failed, retryable := ExecuteCalls(w, 0, calls, messages + [first]);
    NotesPush(w, out, 0);
    if retryable {
      out := out + [Human(w.note)];
    }
    s := State(failed, 0, |calls|, 0, 0, counts, false, false);
  }

  /** And the results of these calls answer them. */
  method Start(w: World, messages: seq<Message>, first: Message) returns (s: State, out: seq<Message>)
    ensures Holds(s, StandingOf(w, first, []))
    ensures RegularWorld(w) && Regular(Reply(first)) ==> Sublist(ResultIds(first, []), AnswerIds(out))
  {
    s, out := TakeFirst(w, messages, first);
    assert Sublist([], AnswerIds(messages));
    if first.AI? && AllNamed(first.calls) {
      TurnAttached(w, 0, messages, first, if RetryAt(w, 0, first) then 1 else 0, []);
      assert [] + CallIds(CallsOf(first)) == CallIds(CallsOf(first));
    }
  }

  /** One turn: the model is called and its reply taken up. */
  method Turn(w: World, first: Message, s: State, turn: nat, list: seq<Message>, ghost rounds: seq<Round>)
    returns (failure: Option<Outcome>, stop: Option<Stop>, next: State, reply: Message, out: seq<Message>,
             ghost p: Prompt)
    requires Holds(s, StandingOf(w, first, rounds)) && turn == |rounds| + 1
    ensures p.appended == ResultIds(first, Asking(rounds))
    ensures Given(w, turn, p.sent, if failure.Some? then failure.value else Reply(reply))
    ensures failure.None? ==>
              var all := rounds + [Round(reply, w.skipped(turn))];
              && stop == Ends(w, first, all)
              && (stop.None? ==> Holds(next, StandingOf(w, first, all)))
    ensures RegularWorld(w) && Sublist(p.appended, AnswerIds(list)) ==>
              && Complete(p)
              && (failure.None? && stop.None? ==>
                    Sublist(ResultIds(first, Asking(rounds + [Round(reply, w.skipped(turn))])), AnswerIds(out)))
  {
    var sent;
    failure, reply, sent, p := CallModel(w, turn, list, ResultIds(first, Asking(rounds)));
    stop, next, out := None, s, sent;
    if failure.None? {
      ghost var r, t := Round(reply, w.skipped(turn)), StandingOf(w, first, rounds);
      stop, next, out := TakeUp(w, s, turn, reply, sent, t);
      TakenExactly(w, first, rounds, r);
      if RegularWorld(w) && Sublist(p.appended, AnswerIds(list)) && stop.None? {
        ListAttached(w, first, rounds, r, t, sent, out);
      }
    }
  }

  /** The model is called once more, on the results. */
  method LastCall(w: World, first: Message, turn: nat, list: seq<Message>, ghost rounds: seq<Round>,
                  ghost prompts: seq<Prompt>)
    returns (failure: Option<Outcome>, response: Message, ghost all: seq<Prompt>)
    requires turn == |rounds| + 1 && Prompted(w, first, rounds, prompts) && |prompts| == |rounds|
    ensures Prompted(w, first, rounds, all) && |all| == |prompts| + 1
    ensures Given(w, turn, all[|prompts|].sent, if failure.Some? then failure.value else Reply(response))
    ensures RegularWorld(w) && Sublist(ResultIds(first, Asking(rounds)), AnswerIds(list)) && AllComplete(prompts) ==>
              AllComplete(all)
  {
    var sent;
    ghost var p;
    failure, response, sent, p := CallModel(w, turn, list, ResultIds(first, Asking(rounds)));
    PromptedMore(w, first, rounds, prompts, p);
    CompletePush(prompts, p);
    all := prompts + [p];
  }

  /** All turns are used up: when the last reply still asks for calls, there is one call more. */
  method Finish(w: World, first: Message, turn: nat, list: seq<Message>, last: Message, ghost rounds: seq<Round>,
                ghost prompts: seq<Prompt>, ghost maxTurns: int)
    returns (stop: Stop, response: Message, ghost all: seq<Prompt>)
    requires GoesOn(w, first, rounds, |rounds|) && last == LastReply(first, rounds)
    requires turn == |rounds| + 1 && |rounds| == if maxTurns < 1 then 0 else maxTurns - 1
    requires Prompted(w, first, rounds, prompts) && |prompts| == |rounds|
    ensures RunEnds(w, first, rounds, stop, maxTurns) && Concluded(w, first, rounds, all, stop, response)
    ensures Prompted(w, first, rounds, all)
    ensures RegularWorld(w) && Sublist(ResultIds(first, Asking(rounds)), AnswerIds(list)) && AllComplete(prompts) ==>
              AllComplete(all)
  {
    stop, response, all := Exhausted, last, prompts;
    if CallsOf(last) != [] {
      var failure, reply;
      failure, reply, all := LastCall(w, first, turn, list, rounds, prompts);
      if failure.Some? {
        return Error(failure.value), last, all;
      }
      response := reply;
    }
  }

  lemma StepFails(w: World, first: Message, rounds: seq<Round>, prompts: seq<Prompt>, p: Prompt, failure: Outcome,
                  maxTurns: int)
    requires GoesOn(w, first, rounds, |rounds|) && |prompts| == |rounds| && |rounds| + 1 < maxTurns
    requires Prompted(w, first, rounds, prompts) && Given(w, |rounds| + 1, p.sent, failure)
    ensures Prompted(w, first, rounds, prompts + [p])
    ensures RunEnds(w, first, rounds, Error(failure), maxTurns)
    ensures Concluded(w, first, rounds, prompts + [p], Error(failure), LastReply(first, rounds))
  {
    PromptedMore(w, first, rounds, prompts, p);
  }

  lemma StepEnds(w: World, first: Message, rounds: seq<Round>, prompts: seq<Prompt>, r: Round, p: Prompt, stop: Stop,
                 maxTurns: int)
    requires GoesOn(w, first, rounds, |rounds|) && |prompts| == |rounds| && |rounds| + 1 < maxTurns
    requires Ends(w, first, rounds + [r]) == Some(stop)
    ensures RunEnds(w, first, rounds + [r], stop, maxTurns)
    ensures Concluded(w, first, rounds + [r], prompts + [p], stop, r.reply)
  {
    RoundEnds(w, first, rounds, r, stop, maxTurns);
  }

  /** One round of the loop: it ends the loop, or all stands as after one round more. */
  method Step(w: World, first: Message, s: State, turn: nat, list: seq<Message>, last: Message,
              ghost rounds: seq<Round>, ghost prompts: seq<Prompt>, ghost maxTurns: int)
    returns (stop: Option<Stop>, next: State, out: seq<Message>, response: Message,
             ghost all: seq<Round>, ghost sent: seq<Prompt>)
    requires Holds(s, StandingOf(w, first, rounds)) && turn == |rounds| + 1 == |prompts| + 1 < maxTurns
    requires GoesOn(w, first, rounds, |rounds|) && last == LastReply(first, rounds)
    requires Prompted(w, first, rounds, prompts)
    ensures Prompted(w, first, all, sent) && |sent| == turn
    ensures stop.Some? ==>
              RunEnds(w, first, all, stop.value, maxTurns) && Concluded(w, first, all, sent, stop.value, response)
    ensures stop.None? ==>
              && Holds(next, StandingOf(w, first, all)) && GoesOn(w, first, all, |all|) && |all| == turn
              && response == LastReply(first, all)
    ensures RegularWorld(w) && Sublist(ResultIds(first, Asking(rounds)), AnswerIds(list)) && AllComplete(prompts) ==>
              && AllComplete(sent)
              && (stop.None? ==> Sublist(ResultIds(first, Asking(all)), AnswerIds(out)))
  {
    var failure, reply;
    ghost var p;
    failure, stop, next, reply, out, p := Turn(w, first, s, turn, list, rounds);
    ghost var r := Round(reply, w.skipped(turn));
    CompletePush(prompts, p);
    sent := prompts + [p];
    if failure.Some? {
      StepFails(w, first, rounds, prompts, p, failure.value, maxTurns);
      return Some(Error(failure.value)), next, out, last, rounds, sent;
    }
    PromptedPush(w, first, rounds, prompts, r, p);
    all, response := rounds + [r], reply;
    if stop.Some? {
      StepEnds(w, first, rounds, prompts, r, p, stop.value, maxTurns);
    } else {
      GoesOnPush(w, first, rounds, r);
    }
  }

  /** The turns from any of them on. */
  method Turns(w: World, first: Message, s: State, turn: nat, list: seq<Message>, last: Message, maxTurns: int,
               ghost before: seq<Round>, ghost asked: seq<Prompt>)
    returns (stop: Stop, response: Message, ghost rounds: seq<Round>, ghost prompts: seq<Prompt>)
    requires |asked| == |before| == turn - 1 && (turn == 1 || turn <= maxTurns)
    requires GoesOn(w, first, before, |before|) && last == LastReply(first, before)
    requires Holds(s, StandingOf(w, first, before)) && Prompted(w, first, before, asked)
    ensures RunEnds(w, first, rounds, stop, maxTurns) && Concluded(w, first, rounds, prompts, stop, response)
    ensures Prompted(w, first, rounds, prompts) && |prompts| <= if maxTurns < 1 then 1 else maxTurns
    ensures RegularWorld(w) && Sublist(ResultIds(first, Asking(before)), AnswerIds(list)) && AllComplete(asked) ==>
              AllComplete(prompts)
  {
    ghost var regular :=
      RegularWorld(w) && Sublist(ResultIds(first, Asking(before)), AnswerIds(list)) && AllComplete(asked);
    response, rounds, prompts := last, before, asked;
    var now, state, messages, stopped := turn, s, list, None;
    while now < maxTurns
      invariant |prompts| == |rounds| == now - 1 && (now == 1 || now <= maxTurns)
      invariant GoesOn(w, first, rounds, |rounds|) && response == LastReply(first, rounds)
      invariant Holds(state, StandingOf(w, first, rounds))
      invariant Prompted(w, first, rounds, prompts)
      invariant regular ==> Sublist(ResultIds(first, Asking(rounds)), AnswerIds(messages)) && AllComplete(prompts)
    {
      stopped, state, messages, response, rounds, prompts :=
        Step(w, first, state, now, messages, response, rounds, prompts, maxTurns);
      if stopped.Some? {
        return stopped.value, response, rounds, prompts;
      }
      now := now + 1;
    }
    stop, response, prompts := Finish(w, first, now, messages, response, rounds, prompts, maxTurns);
  }

  /** The whole loop, for any replies, tool results and interruptions: it ends at the
      first reply that ends it, for the reason told by the replies alone, and runs the
      calls of all replies before; it calls the model at most maxTurns times (once when
      maxTurns is below 1). When all calls carry ids and no overflow is reported, every
      prompt contains the results of all the tool calls made so far. */
  method Run(w: World, messages: seq<Message>, first: Message, maxTurns: int)
    returns (stop: Stop, response: Message, ghost rounds: seq<Round>, ghost prompts: seq<Prompt>)
    ensures RunEnds(w, first, rounds, stop, maxTurns) && Concluded(w, first, rounds, prompts, stop, response)
    ensures Prompted(w, first, rounds, prompts) && |prompts| <= if maxTurns < 1 then 1 else maxTurns
    ensures RegularWorld(w) && Regular(Reply(first)) ==> AllComplete(prompts)
  {
    var s, list := Start(w, messages, first);
    stop, response, rounds, prompts := Turns(w, first, s, 1, list, first, maxTurns, [], []);
  }

  /** However the loop ends, no call was executed more than five times, unless the first
      reply alone holds more, and at most nine silent turns in a row; as many results were
      appended as calls executed. */
  lemma RunLimited(w: World, first: Message, rounds: seq<Round>, stop: Stop, maxTurns: int, s: string)
    requires RunEnds(w, first, rounds, stop, maxTurns)
    ensures var done := Executed(rounds, stop);
            && Called(w, first, done)[s]
               <= (if Signatures(w, CallsOf(first))[s] > 5 then Signatures(w, CallsOf(first))[s] else 5)
            && LongestSilent(Blanks(w, done)) <= 9
            && |ResultIds(first, done)| == |Called(w, first, done)|
  {
    var done := Executed(rounds, stop);
    ExecutedGoes(w, first, rounds, stop, maxTurns);
    CallsLimited(w, first, done, s);
    SilenceLimited(w, first, done);
    Balanced(w, first, done);
  }

  lemma {:induction false} Balanced(w: World, first: Message, replies: seq<Message>)
    ensures |ResultIds(first, replies)| == |Called(w, first, replies)|
  {
    if replies == [] {
      SignaturesSize(w, CallsOf(first));
    } else {
      Balanced(w, first, replies[..|replies| - 1]);
      SignaturesSize(w, CallsOf(replies[|replies| - 1]));
    }
  }

  lemma {:induction false} SignaturesSize(w: World, calls: seq<ToolCall>)
    ensures |Signatures(w, calls)| == |calls|
  {
    if calls != [] {
      SignaturesSize(w, calls[..|calls| - 1]);
    }
  }
}
