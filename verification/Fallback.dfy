/** The fallback chain of models (_FallbackLLMWrapper in pawlia/llm.py).

    A request goes through the models in order. A benched model is skipped, a
    prompt that is too large is condensed, a model that reports an overflow is
    called once more with a condensed prompt. Three failed requests in a row
    bench a model for 30 minutes. Replies, summaries and the clock are
    arbitrary. */
module Fallback {
  import opened Texts
  import opened Messages
  import opened Errors
  import opened Condense
  import CondenseLaws

  const THRESHOLD: nat := 3
  const COOLDOWN: real := 1800.0
  const DISTILL_KEEP: nat := 5

  datatype Reply = Answer(message: Message) | Error(category: Category)

  /** Everything outside the chain, for one request. Model i answers
      `reply(i, false)`, and `reply(i, true)` when called again with a condensed
      prompt; `summary` is what the summary model writes for it, if anything. */
  datatype World = World(
    contexts: seq<int>,
    reply: (nat, bool) -> Reply,
    summary: (nat, bool) -> Option<Text>,
    toolName: Text -> Text)
  {
    function Context(i: nat): int {
      if i < |contexts| then contexts[i] else 0
    }
  }

  // ------------------------------------------------------- fitting one prompt

  /** The prompt with its middle replaced by a summary the summary model wrote. */
  function Distilled(ms: seq<Message>, summary: Text): Option<seq<Message>> {
    if |ms| <= 2 + 2 * DISTILL_KEEP || summary == [] then None
    else Some(Spliced(ms, DISTILL_KEEP, Lit("[Earlier conversation summarized]\n") + summary))
  }

  predicate DistillWorks(context: int, ms: seq<Message>, summary: Option<Text>) {
    && summary.Some?
    && Distilled(ms, summary.value).Some?
    && Fits(context, Distilled(ms, summary.value).value)
  }

  /** `r` is what the chain makes of `ms` for a window of this size. */
  ghost predicate Fitted(context: int, ms: seq<Message>, force: bool, summary: Option<Text>,
                         toolName: Text -> Text, r: Option<seq<Message>>)
  {
    if !force && Fits(context, ms) then r == Some(ms)
    else if DistillWorks(context, ms, summary) then r == Distilled(ms, summary.value)
    else exists at :: FirstFit(context, ms, Ladder(Pairs(ms)), toolName, at, r)
  }

  method Distill(context: int, ms: seq<Message>, summary: Option<Text>) returns (r: Option<seq<Message>>)
    ensures DistillWorks(context, ms, summary) ==> r.Some? && r == Distilled(ms, summary.value)
    ensures !DistillWorks(context, ms, summary) ==> r == None
  {
    r := None;
    if summary.Some? && |ms| > 2 + 2 * DISTILL_KEEP && summary.value != [] {
      var cut := |ms| - DISTILL_KEEP * 2;
      var tail := CapTail(ms[cut..]);
      tail := DropLeadingTools(tail);
      var candidate := ms[..1] + [Human(Lit("[Earlier conversation summarized]\n") + summary.value)] + tail;
      var fits := FitsContext(context, candidate);
      if fits {
        r := Some(candidate);
      }
    }
  }

  method FitPrompt(context: int, ms: seq<Message>, force: bool, summary: Option<Text>, toolName: Text -> Text)
    returns (r: Option<seq<Message>>)
    ensures Fitted(context, ms, force, summary, toolName, r)
  {
    if !force {
      var fits := FitsContext(context, ms);
      if fits {
        return Some(ms);
      }
    }
    r := Distill(context, ms, summary);
    if r.None? {
      r := ClimbLadder(context, ms, toolName);
    }
  }

  /** Whatever is handed on fits the window and keeps tool results attached. */
  lemma FittedSafe(context: int, ms: seq<Message>, force: bool, summary: Option<Text>,
                   toolName: Text -> Text, r: Option<seq<Message>>)
    requires Fitted(context, ms, force, summary, toolName, r) && r.Some?
    ensures Fits(context, r.value)
    ensures ToolValid(ms) ==> ToolValid(r.value)
  {
    if !force && Fits(context, ms) {
    } else if DistillWorks(context, ms, summary) {
      if ToolValid(ms) {
        CondenseLaws.SplicedValid(ms, DISTILL_KEEP, Lit("[Earlier conversation summarized]\n") + summary.value);
      }
    } else {
      var at :| FirstFit(context, ms, Ladder(Pairs(ms)), toolName, at, r);
      CondenseLaws.FirstFitValid(context, ms, Ladder(Pairs(ms)), toolName, at, r);
    }
  }

  // ------------------------------------------------------ the log of a request

  /** What one request did with one model. */
  datatype Visit =
    | Benched
    | TooSmall
    | Called(prompt: seq<Message>, first: Reply)
    | Recalled(prompt: seq<Message>, first: Reply, condensed: seq<Message>, second: Reply)

  predicate Succeeded(v: Visit) {
    (v.Called? && v.first.Answer?) || (v.Recalled? && v.second.Answer?)
  }

  function LastReply(v: Visit): Reply
    requires v.Called? || v.Recalled?
  {
    if v.Called? then v.first else v.second
  }

  /** Visit v is a call of model i with this prompt, repeated with a condensed
      one exactly when the model reports an overflow and condensing succeeds. */
  ghost predicate CallOk(w: World, i: nat, prompt: seq<Message>, v: Visit) {
    match v
    case Called(p, first) =>
      && p == prompt && first == w.reply(i, false)
      && (first == Error(ContextOverflow) ==>
            Fitted(w.Context(i), prompt, true, w.summary(i, true), w.toolName, None))
    case Recalled(p, first, condensed, second) =>
      && p == prompt && first == w.reply(i, false) && second == w.reply(i, true)
      && first == Error(ContextOverflow)
      && Fitted(w.Context(i), prompt, true, w.summary(i, true), w.toolName, Some(condensed))
    case _ => false
  }

  /** Visit v of model i is right for the list `ms`, and leaves `next` behind. */
  ghost predicate VisitOk(w: World, i: nat, ms: seq<Message>, v: Visit, next: seq<Message>) {
    if v.Benched? then next == ms
    else
      && Fitted(w.Context(i), ms, false, w.summary(i, false), w.toolName, if v.TooSmall? then None else Some(next))
      && (if v.TooSmall? then next == ms else CallOk(w, i, next, v))
  }

  ghost predicate StepOk(w: World, visits: seq<Visit>, lists: seq<seq<Message>>, i: nat)
    requires i < |visits| && |lists| == |visits| + 1
  {
    VisitOk(w, i, lists[i], visits[i], lists[i + 1])
  }

  /** The visits of one request, in chain order; `lists[i]` is the message list
      that model i found. */
  ghost predicate RequestOk(w: World, ms: seq<Message>, visits: seq<Visit>, lists: seq<seq<Message>>) {
    && |lists| == |visits| + 1
    && lists[0] == ms
    && forall i | 0 <= i < |visits| :: StepOk(w, visits, lists, i)
  }

  predicate Safe(context: int, prompt: seq<Message>) {
    Fits(context, prompt) && ToolValid(prompt)
  }

  predicate VisitSafe(context: int, v: Visit) {
    match v
    case Benched => true
    case TooSmall => true
    case Called(prompt, _) => Safe(context, prompt)
    case Recalled(prompt, _, condensed, _) => Safe(context, prompt) && Safe(context, condensed)
  }

  lemma VisitOkSafe(w: World, i: nat, ms: seq<Message>, v: Visit, next: seq<Message>)
    requires VisitOk(w, i, ms, v, next) && ToolValid(ms)
    ensures VisitSafe(w.Context(i), v) && ToolValid(next)
  {
    if !v.Benched? && !v.TooSmall? {
      FittedSafe(w.Context(i), ms, false, w.summary(i, false), w.toolName, Some(next));
      if v.Recalled? {
        FittedSafe(w.Context(i), next, true, w.summary(i, true), w.toolName, Some(v.condensed));
      }
    }
  }

  lemma StepSafe(w: World, visits: seq<Visit>, lists: seq<seq<Message>>, i: nat)
    requires i < |visits| && |lists| == |visits| + 1 && StepOk(w, visits, lists, i) && ToolValid(lists[i])
    ensures ToolValid(lists[i + 1]) && VisitSafe(w.Context(i), visits[i])
  {
    VisitOkSafe(w, i, lists[i], visits[i], lists[i + 1]);
  }

  lemma StepOf(w: World, ms: seq<Message>, visits: seq<Visit>, lists: seq<seq<Message>>, i: nat)
    requires RequestOk(w, ms, visits, lists) && i < |visits|
    ensures StepOk(w, visits, lists, i)
  {}

  lemma {:induction false} ListsValid(w: World, ms: seq<Message>, visits: seq<Visit>, lists: seq<seq<Message>>, n: nat)
    requires RequestOk(w, ms, visits, lists) && ToolValid(ms)
    requires n <= |visits|
    ensures ToolValid(lists[n])
  {
    if n > 0 {
      ListsValid(w, ms, visits, lists, n - 1);
      StepOf(w, ms, visits, lists, n - 1);
      StepSafe(w, visits, lists, n - 1);
    }
  }

  /** Every prompt handed to a model in the whole request, first try or second,
      fits that model's window and keeps every tool result attached to its call. */
  lemma PromptsSafe(w: World, ms: seq<Message>, visits: seq<Visit>, lists: seq<seq<Message>>)
    requires RequestOk(w, ms, visits, lists) && ToolValid(ms)
    ensures forall i | 0 <= i < |visits| :: VisitSafe(w.Context(i), visits[i])
  {
    forall i | 0 <= i < |visits|
      ensures VisitSafe(w.Context(i), visits[i])
    {
      ListsValid(w, ms, visits, lists, i);
      StepOf(w, ms, visits, lists, i);
      StepSafe(w, visits, lists, i);
    }
  }
}
