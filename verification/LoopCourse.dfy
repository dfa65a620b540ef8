/** When the tool-call loop of a skill ends and why, told from the replies alone
    (SkillRunnerAgent._tool_call_loop in pawlia/agents/skill_runner.py). */
module LoopCourse {
  import opened Texts
  import opened Messages
  import opened Errors
  import opened Retry
  import RetryLaws
  import opened ToolLoop

  /** A reply of the model after the first one, and whether its prompt had to skip the
      intended model. The i-th round, from 0, is turn i + 1. */
  datatype Round = Round(reply: Message, skipped: bool)

  predicate Asks(m: Message) {
    CallsOf(m) != []
  }

  /** The replies that ask for tools, in order. */
  function Asking(rounds: seq<Round>): seq<Message> {
    if rounds == [] then []
    else
      var last, init := rounds[|rounds| - 1].reply, Asking(rounds[..|rounds| - 1]);
      if Asks(last) then init + [last] else init
  }

  /** How many replies did not ask for tools. */
  function Answers(rounds: seq<Round>): nat {
    if rounds == [] then 0
    else Answers(rounds[..|rounds| - 1]) + if Asks(rounds[|rounds| - 1].reply) then 0 else 1
  }

  /** A reply that shows nothing to the user. */
  predicate Blank(w: World, m: Message) {
    Trim(w.visible(m.content)) == []
  }

  /** Which of the replies are blank. */
  function Blanks(w: World, replies: seq<Message>): (r: seq<bool>)
    ensures |r| == |replies|
  {
    seq(|replies|, i requires 0 <= i < |replies| => Blank(w, replies[i]))
  }

  /** The last n replies are blank. */
  predicate BlankEnd(w: World, replies: seq<Message>, n: nat) {
    n <= |replies| && forall i | |replies| - n <= i < |replies| :: Blank(w, replies[i])
  }

  /** The calls of the first reply and of these. */
  function Called(w: World, first: Message, replies: seq<Message>): multiset<string> {
    if replies == [] then Signatures(w, CallsOf(first))
    else Called(w, first, replies[..|replies| - 1]) + Signatures(w, CallsOf(replies[|replies| - 1]))
  }

  /** Some signature comes n times. */
  ghost predicate SomeTimes(signatures: multiset<string>, n: nat) {
    exists s :: signatures[s] >= n
  }

  /** Why a circuit breaker trips with the last of these replies: ten blank ones in a row,
      or else some call that has come six times. */
  ghost function Breaks(w: World, first: Message, replies: seq<Message>): Option<Stop> {
    if BlankEnd(w, replies, 10) then Some(Silent)
    else if SomeTimes(Called(w, first, replies), 6) then Some(Repeated)
    else None
  }

  /** The last n prompts skipped the intended model. */
  predicate SkippedEnd(rounds: seq<Round>, n: nat) {
    n <= |rounds| && forall i | |rounds| - n <= i < |rounds| :: rounds[i].skipped
  }

  /** A tool that the reply of this turn asked for failed. */
  predicate FailedAt(w: World, turn: nat, reply: Message) {
    exists k: nat | k < |CallsOf(reply)| :: !w.tool(turn, k).ok
  }

  /** A tool failed in the last turn that asked for tools. */
  predicate Failing(w: World, first: Message, rounds: seq<Round>) {
    if rounds == [] then FailedAt(w, 0, first)
    else if Asks(rounds[|rounds| - 1].reply) then FailedAt(w, |rounds|, rounds[|rounds| - 1].reply)
    else Failing(w, first, rounds[..|rounds| - 1])
  }

  /** A reply without tool calls that is taken for the answer: after two others, or when it
      shows something finished and the tools that were called have worked. */
  predicate Accepted(w: World, first: Message, before: seq<Round>, reply: Message) {
    || Answers(before) >= 2
    || (&& !Blank(w, reply) && !w.looksUnfinished(w.visible(reply.content))
        && (Asks(first) || Asking(before) != []) && !Failing(w, first, before))
  }

  /** Why the loop ends with the last of these rounds, if it does. */
  ghost function Ends(w: World, first: Message, rounds: seq<Round>): Option<Stop>
    requires rounds != []
  {
    var reply := rounds[|rounds| - 1].reply;
    if SkippedEnd(rounds, 3) then Some(TooLarge)
    else if !Asks(reply) then if Accepted(w, first, rounds[..|rounds| - 1], reply) then Some(Answered) else None
    else if Breaks(w, first, Asking(rounds)).Some? then Breaks(w, first, Asking(rounds))
    else if w.broken(|rounds|) then Some(BrokenSkill)
    else None
  }

  /** The loop goes on after each of the first n rounds. */
  ghost predicate GoesOn(w: World, first: Message, rounds: seq<Round>, n: nat)
    requires n <= |rounds|
  {
    n == 0 || (Ends(w, first, rounds[..n]) == None && GoesOn(w, first, rounds, n - 1))
  }

  // -------------------------------------------------------------- nudges of a tool turn

  /** Six blank replies in a row have come before, or come now. */
  predicate SilentNudged(w: World, replies: seq<Message>) {
    replies != [] && (SilentNudged(w, replies[..|replies| - 1]) || BlankEnd(w, replies, 6))
  }

  /** The model is told that it has been silent: once. */
  predicate SilentNudge(w: World, replies: seq<Message>) {
    replies != [] && BlankEnd(w, replies, 6) && !SilentNudged(w, replies[..|replies| - 1])
  }

  /** The model was told that it repeats itself. */
  ghost predicate RepeatNudged(w: World, first: Message, replies: seq<Message>)
    decreases |replies|, 1
  {
    replies != [] && (RepeatNudged(w, first, replies[..|replies| - 1]) || RepeatNudge(w, first, replies))
  }

  /** The model is told that it repeats itself: once, when some call has come four times
      and it is not told of its silence. */
  ghost predicate RepeatNudge(w: World, first: Message, replies: seq<Message>)
    requires replies != []
    decreases |replies|, 0
  {
    && SomeTimes(Called(w, first, replies), 4) && !SilentNudge(w, replies)
    && !RepeatNudged(w, first, replies[..|replies| - 1])
  }

  // ------------------------------------------------------------ what the loop remembers

  /** The signatures of all executed calls, and which turns executed after the first
      reply were silent. */
  datatype Course = Course(executed: multiset<string>, silent: seq<bool>)

  /** What the loop remembers besides. */
  datatype Memory = Memory(failed: bool, nudges: nat, totalCalls: nat, overflows: nat)

  /** The prompts at the end that skipped the intended model. */
  function Skips(rounds: seq<Round>): nat {
    if rounds == [] || !rounds[|rounds| - 1].skipped then 0 else Skips(rounds[..|rounds| - 1]) + 1
  }

  /** How many calls the first reply and these make. */
  function Total(first: Message, replies: seq<Message>): nat {
    if replies == [] then |CallsOf(first)|
    else Total(first, replies[..|replies| - 1]) + |CallsOf(replies[|replies| - 1])|
  }

  /** The course of the executed replies. */
  function CourseOf(w: World, first: Message, replies: seq<Message>): Course {
    Course(Called(w, first, replies), Blanks(w, replies))
  }

  function MemoryOf(w: World, first: Message, rounds: seq<Round>): Memory {
    Memory(Failing(w, first, rounds), Answers(rounds), Total(first, Asking(rounds)), Skips(rounds))
  }

  /** What was said to the model: that it is silent, that it repeats itself. */
  datatype Said = Said(silence: bool, repetition: bool)

  ghost function SaidOf(w: World, first: Message, replies: seq<Message>): Said {
    Said(SilentNudged(w, replies), RepeatNudged(w, first, replies))
  }

  /** All that the loop remembers. */
  datatype Standing = Standing(memory: Memory, said: Said, course: Course)

  /** What it remembers of these rounds, all of which were executed. */
  ghost function StandingOf(w: World, first: Message, rounds: seq<Round>): Standing {
    Standing(MemoryOf(w, first, rounds), SaidOf(w, first, Asking(rounds)), CourseOf(w, first, Asking(rounds)))
  }

  lemma AskingPush(rounds: seq<Round>, r: Round)
    ensures Asking(rounds + [r]) == if Asks(r.reply) then Asking(rounds) + [r.reply] else Asking(rounds)
    ensures Answers(rounds + [r]) == Answers(rounds) + if Asks(r.reply) then 0 else 1
    ensures Skips(rounds + [r]) == if r.skipped then Skips(rounds) + 1 else 0
  {
    assert (rounds + [r])[..|rounds|] == rounds;
  }

  lemma CoursePush(w: World, first: Message, replies: seq<Message>, m: Message)
    ensures var c := CourseOf(w, first, replies);
            CourseOf(w, first, replies + [m])
            == Course(c.executed + Signatures(w, CallsOf(m)), c.silent + [Blank(w, m)])
  {
    assert (replies + [m])[..|replies|] == replies;
  }

  /** A text reply that did not end the loop. */
  lemma MemoryText(w: World, first: Message, rounds: seq<Round>, r: Round)
    requires !Asks(r.reply)
    ensures var m := MemoryOf(w, first, rounds);
            MemoryOf(w, first, rounds + [r]) == m.(nudges := m.nudges + 1, overflows := SkipsWith(m, r.skipped))
  {
    AskingPush(rounds, r);
    assert (rounds + [r])[..|rounds|] == rounds;
  }

  /** A tool reply that did not end the loop. */
  lemma MemoryTools(w: World, first: Message, rounds: seq<Round>, r: Round)
    requires Asks(r.reply)
    ensures var m := MemoryOf(w, first, rounds);
            MemoryOf(w, first, rounds + [r])
            == Memory(FailedAt(w, |rounds| + 1, r.reply), m.nudges, m.totalCalls + |CallsOf(r.reply)|,
                      SkipsWith(m, r.skipped))
  {
    AskingPush(rounds, r);
    assert (Asking(rounds) + [r.reply])[..|Asking(rounds)|] == Asking(rounds);
  }

  lemma {:induction false} AskingAsk(rounds: seq<Round>)
    ensures forall i | 0 <= i < |Asking(rounds)| :: Asks(Asking(rounds)[i])
  {
    if rounds != [] {
      AskingAsk(rounds[..|rounds| - 1]);
    }
  }

  lemma TotalZero(first: Message, rounds: seq<Round>)
    ensures Total(first, Asking(rounds)) == 0 <==> !Asks(first) && Asking(rounds) == []
  {
    AskingAsk(rounds);
    TotalAtLeast(first, Asking(rounds));
  }

  lemma {:induction false} TotalAtLeast(first: Message, replies: seq<Message>)
    ensures Total(first, replies) >= |CallsOf(first)|
    ensures replies != [] ==> Total(first, replies) >= |CallsOf(replies[|replies| - 1])|
  {
    if replies != [] {
      TotalAtLeast(first, replies[..|replies| - 1]);
    }
  }

  /** The run of skipped prompts at the end tells whether the last n were skipped. */
  lemma {:induction false} SkipsExactly(rounds: seq<Round>, n: nat)
    ensures Skips(rounds) >= n <==> SkippedEnd(rounds, n)
  {
    if n > 0 && rounds != [] {
      var init := rounds[..|rounds| - 1];
      SkipsExactly(init, n - 1);
      if rounds[|rounds| - 1].skipped {
        assert forall i | 0 <= i < |init| :: init[i] == rounds[i];
      }
    }
  }

  /** The run of silent turns at the end tells whether the last n were blank. */
  lemma {:induction false} SilenceExactly(w: World, replies: seq<Message>, n: nat)
    ensures TrailingSilent(Blanks(w, replies)) >= n <==> BlankEnd(w, replies, n)
  {
    if n > 0 && replies != [] {
      var init := replies[..|replies| - 1];
      SilenceExactly(w, init, n - 1);
      assert Blanks(w, replies)[..|replies| - 1] == Blanks(w, init);
      if Blank(w, replies[|replies| - 1]) {
        assert forall i | 0 <= i < |init| :: init[i] == replies[i];
      }
    }
  }

  // ------------------------------------------------------------- one turn, remembered

  /** The silent turns at the end, with this reply. */
  function SilentWith(w: World, silent: seq<bool>, m: Message): nat {
    if Blank(w, m) then TrailingSilent(silent) + 1 else 0
  }

  /** What the breakers say, told from the counters. */
  ghost function BreaksBy(silent: nat, calls: multiset<string>): Option<Stop> {
    if silent >= 10 then Some(Silent) else if SomeTimes(calls, 6) then Some(Repeated) else None
  }

  predicate NudgesSilent(silent: nat, said: Said) {
    silent >= 6 && !said.silence
  }

  ghost predicate NudgesRepeat(silent: nat, calls: multiset<string>, said: Said) {
    SomeTimes(calls, 4) && !said.repetition && !NudgesSilent(silent, said)
  }

  /** What has been said to the model after a turn. */
  ghost function SaidNext(silent: nat, calls: multiset<string>, said: Said): Said {
    Said(said.silence || NudgesSilent(silent, said), said.repetition || NudgesRepeat(silent, calls, said))
  }

  /** A text reply is answered with a nudge. */
  predicate NudgesText(w: World, m: Memory, reply: Message) {
    && m.nudges < 2
    && (Blank(w, reply) || m.failed || w.looksUnfinished(w.visible(reply.content)) || m.totalCalls == 0)
  }

  function SkipsWith(m: Memory, skipped: bool): nat {
    if skipped then m.overflows + 1 else 0
  }

  function Skipped(s: Standing, skipped: bool): Standing {
    s.(memory := s.memory.(overflows := SkipsWith(s.memory, skipped)))
  }

  ghost function TakenText(w: World, s: Standing, reply: Message): (Option<Stop>, Standing) {
    if NudgesText(w, s.memory, reply) then (None, s.(memory := s.memory.(nudges := s.memory.nudges + 1)))
    else (Some(Answered), s)
  }

  /** The executed calls and those of this reply. */
  function CallsWith(w: World, c: Course, reply: Message): multiset<string> {
    c.executed + Signatures(w, CallsOf(reply))
  }

  /** The course when the calls of this reply are run, too. */
  function CourseWith(w: World, c: Course, reply: Message): Course {
    Course(CallsWith(w, c, reply), c.silent + [Blank(w, reply)])
  }

  /** What is remembered of the counts when they are. */
  function MemoryWith(w: World, m: Memory, turn: nat, reply: Message): Memory {
    m.(totalCalls := m.totalCalls + |CallsOf(reply)|, failed := FailedAt(w, turn, reply))
  }

  ghost function TakenTools(w: World, s: Standing, turn: nat, reply: Message): (Option<Stop>, Standing) {
    var silent, calls := SilentWith(w, s.course.silent, reply), CallsWith(w, s.course, reply);
    if BreaksBy(silent, calls).Some? then
      (BreaksBy(silent, calls), s.(memory := s.memory.(totalCalls := s.memory.totalCalls + |CallsOf(reply)|)))
    else
      (if w.broken(turn) then Some(BrokenSkill) else None,
       Standing(MemoryWith(w, s.memory, turn, reply), SaidNext(silent, calls, s.said),
                CourseWith(w, s.course, reply)))
  }

  /** A reply as the loop takes it up: whether it ends, and what it remembers then. */
  ghost function Taken(w: World, s: Standing, turn: nat, reply: Message): (Option<Stop>, Standing) {
    var t := Skipped(s, w.skipped(turn));
    if t.memory.overflows >= 3 then (Some(TooLarge), t)
    else if Asks(reply) then TakenTools(w, t, turn, reply)
    else TakenText(w, t, reply)
  }

  lemma TailSilent(turns: seq<bool>, quiet: bool)
    ensures TrailingSilent(turns + [quiet]) == if quiet then TrailingSilent(turns) + 1 else 0
  {
    assert (turns + [quiet])[..|turns|] == turns;
  }

  lemma SilentIs(w: World, replies: seq<Message>, m: Message, n: nat)
    ensures BlankEnd(w, replies + [m], n) <==> SilentWith(w, Blanks(w, replies), m) >= n
  {
    SilenceExactly(w, replies + [m], n);
    TailSilent(Blanks(w, replies), Blank(w, m));
    assert Blanks(w, replies + [m]) == Blanks(w, replies) + [Blank(w, m)];
  }

  /** The breakers look at the replies through their counters. */
  lemma BreaksExactly(w: World, first: Message, replies: seq<Message>, m: Message)
    ensures var c := CourseOf(w, first, replies);
            Breaks(w, first, replies + [m])
            == BreaksBy(SilentWith(w, c.silent, m), c.executed + Signatures(w, CallsOf(m)))
  {
    SilentIs(w, replies, m, 10);
    CoursePush(w, first, replies, m);
  }

  /** And so do the nudges. */
  lemma SaidExactly(w: World, first: Message, replies: seq<Message>, m: Message)
    ensures var c, said := CourseOf(w, first, replies), SaidOf(w, first, replies);
            SaidOf(w, first, replies + [m])
            == SaidNext(SilentWith(w, c.silent, m), c.executed + Signatures(w, CallsOf(m)), said)
  {
    SilentIs(w, replies, m, 6);
    CoursePush(w, first, replies, m);
    var all, c, said := replies + [m], CourseOf(w, first, replies), SaidOf(w, first, replies);
    var silent, calls := SilentWith(w, c.silent, m), c.executed + Signatures(w, CallsOf(m));
    assert all[..|replies|] == replies;
    assert SilentNudge(w, all) <==> NudgesSilent(silent, said);
    assert SilentNudged(w, all) <==> said.silence || NudgesSilent(silent, said);
    assert Called(w, first, all) == calls;
    assert RepeatNudge(w, first, all) <==> NudgesRepeat(silent, calls, said);
  }

  lemma SkipsEnd(rounds: seq<Round>, n: nat, r: Round)
    ensures SkippedEnd(rounds + [r], n) <==> (if r.skipped then Skips(rounds) + 1 else 0) >= n
  {
    SkipsExactly(rounds + [r], n);
    AskingPush(rounds, r);
  }

  lemma EndsLast(w: World, first: Message, all: seq<Round>, before: seq<Round>, r: Round)
    requires all == before + [r]
    ensures Ends(w, first, all)
            == if SkippedEnd(all, 3) then Some(TooLarge)
               else if !Asks(r.reply) then if Accepted(w, first, before, r.reply) then Some(Answered) else None
               else if Breaks(w, first, Asking(all)).Some? then Breaks(w, first, Asking(all))
               else if w.broken(|all|) then Some(BrokenSkill)
               else None
  {
    assert all[..|all| - 1] == before;
  }

  /** Why the loop ends with one round more. */
  lemma EndsPush(w: World, first: Message, rounds: seq<Round>, r: Round)
    ensures var breaks := Breaks(w, first, Asking(rounds) + [r.reply]);
            Ends(w, first, rounds + [r])
            == if SkipsWith(MemoryOf(w, first, rounds), r.skipped) >= 3 then Some(TooLarge)
               else if !Asks(r.reply) then if Accepted(w, first, rounds, r.reply) then Some(Answered) else None
               else if breaks.Some? then breaks
               else if w.broken(|rounds| + 1) then Some(BrokenSkill)
               else None
  {
    SkipsEnd(rounds, 3, r);
    AskingPush(rounds, r);
    EndsLast(w, first, rounds + [r], rounds, r);
  }

  lemma AcceptedBy(w: World, first: Message, rounds: seq<Round>, reply: Message)
    ensures Accepted(w, first, rounds, reply) <==> !NudgesText(w, MemoryOf(w, first, rounds), reply)
  {
    TotalZero(first, rounds);
  }

  lemma TextExactly(w: World, first: Message, rounds: seq<Round>, r: Round)
    requires !Asks(r.reply) && SkipsWith(MemoryOf(w, first, rounds), r.skipped) < 3
    ensures var (stop, t) := TakenText(w, Skipped(StandingOf(w, first, rounds), r.skipped), r.reply);
            Exact(w, first, rounds, r, stop, t)
  {
    EndsPush(w, first, rounds, r);
    AcceptedBy(w, first, rounds, r.reply);
    MemoryText(w, first, rounds, r);
    AskingPush(rounds, r);
  }

  /** A tool reply ends the loop as its counters tell. */
  lemma ToolsEnd(w: World, first: Message, rounds: seq<Round>, r: Round)
    requires Asks(r.reply) && SkipsWith(MemoryOf(w, first, rounds), r.skipped) < 3
    ensures var c := CourseOf(w, first, Asking(rounds));
            var breaks := BreaksBy(SilentWith(w, c.silent, r.reply), CallsWith(w, c, r.reply));
            Ends(w, first, rounds + [r])
            == if breaks.Some? then breaks else if w.broken(|rounds| + 1) then Some(BrokenSkill) else None
  {
    EndsPush(w, first, rounds, r);
    BreaksExactly(w, first, Asking(rounds), r.reply);
  }

  /** What is remembered when the calls of the reply were run. */
  lemma ToolsStanding(w: World, first: Message, rounds: seq<Round>, r: Round)
    requires Asks(r.reply)
    ensures var s := StandingOf(w, first, rounds);
            StandingOf(w, first, rounds + [r])
            == Standing(MemoryWith(w, Skipped(s, r.skipped).memory, |rounds| + 1, r.reply),
                        SaidNext(SilentWith(w, s.course.silent, r.reply), CallsWith(w, s.course, r.reply), s.said),
                        CourseWith(w, s.course, r.reply))
  {
    var asking := Asking(rounds);
    MemoryTools(w, first, rounds, r);
    AskingPush(rounds, r);
    SaidExactly(w, first, asking, r.reply);
    CoursePush(w, first, asking, r.reply);
  }

  lemma ToolsExactly(w: World, first: Message, rounds: seq<Round>, r: Round)
    requires Asks(r.reply) && SkipsWith(MemoryOf(w, first, rounds), r.skipped) < 3
    ensures var (stop, t) := TakenTools(w, Skipped(StandingOf(w, first, rounds), r.skipped), |rounds| + 1, r.reply);
            Exact(w, first, rounds, r, stop, t)
  {
    ToolsEnd(w, first, rounds, r);
    ToolsStanding(w, first, rounds, r);
  }

  /** The loop ended without running the calls of its last reply. */
  predicate Unrun(stop: Option<Stop>) {
    stop.Some? && (stop.value.TooLarge? || stop.value.Silent? || stop.value.Repeated?)
  }

  /** What the loop remembers is enough: it ends exactly as the replies say. */
  ghost predicate Exact(w: World, first: Message, rounds: seq<Round>, r: Round, stop: Option<Stop>, t: Standing) {
    && stop == Ends(w, first, rounds + [r])
    && (stop.None? ==> t == StandingOf(w, first, rounds + [r]))
    && t.course == CourseOf(w, first, Asking(if Unrun(stop) then rounds else rounds + [r]))
  }

  lemma TakenExactly(w: World, first: Message, rounds: seq<Round>, r: Round)
    requires r.skipped == w.skipped(|rounds| + 1)
    ensures var (stop, t) := Taken(w, StandingOf(w, first, rounds), |rounds| + 1, r.reply);
            Exact(w, first, rounds, r, stop, t)
  {
    AskingPush(rounds, r);
    if SkipsWith(MemoryOf(w, first, rounds), r.skipped) >= 3 {
      EndsPush(w, first, rounds, r);
    } else if Asks(r.reply) {
      ToolsExactly(w, first, rounds, r);
    } else {
      TextExactly(w, first, rounds, r);
    }
  }

  // ---------------------------------------------------------------------------- runs

  function LastReply(first: Message, rounds: seq<Round>): Message {
    if rounds == [] then first else rounds[|rounds| - 1].reply
  }

  /** The replies whose calls were run, when the loop has ended. */
  function Executed(rounds: seq<Round>, stop: Stop): seq<Message> {
    if Unrun(Some(stop)) && rounds != [] then Asking(rounds[..|rounds| - 1]) else Asking(rounds)
  }

  /** Why the loop ended: at the first round that ends it, for the reason that this round
      gives; or no round does, and all turns are used up, or calling the model failed. */
  ghost predicate RunEnds(w: World, first: Message, rounds: seq<Round>, stop: Stop, maxTurns: int) {
    match stop
    case Exhausted =>
      GoesOn(w, first, rounds, |rounds|) && |rounds| == if maxTurns < 1 then 0 else maxTurns - 1
    case Error(_) =>
      && GoesOn(w, first, rounds, |rounds|)
      && (|rounds| + 1 < maxTurns
          || (|rounds| == (if maxTurns < 1 then 0 else maxTurns - 1) && Asks(LastReply(first, rounds))))
    case _ =>
      && 0 < |rounds| < maxTurns && GoesOn(w, first, rounds, |rounds| - 1)
      && Ends(w, first, rounds) == Some(stop)
  }

  lemma {:induction false} GoesOnSame(w: World, first: Message, rounds: seq<Round>, more: seq<Round>, n: nat)
    requires n <= |rounds| && n <= |more| && rounds[..n] == more[..n]
    ensures GoesOn(w, first, rounds, n) <==> GoesOn(w, first, more, n)
  {
    if n > 0 {
      assert rounds[..n - 1] == rounds[..n][..n - 1] == more[..n - 1];
      GoesOnSame(w, first, rounds, more, n - 1);
    }
  }

  lemma GoesOnPush(w: World, first: Message, rounds: seq<Round>, r: Round)
    requires GoesOn(w, first, rounds, |rounds|)
    ensures GoesOn(w, first, rounds + [r], |rounds|)
    ensures Ends(w, first, rounds + [r]) == None ==> GoesOn(w, first, rounds + [r], |rounds| + 1)
  {
    var all := rounds + [r];
    assert all[..|rounds| + 1] == all;
    assert all[..|rounds|] == rounds == rounds[..|rounds|];
    GoesOnSame(w, first, rounds, all, |rounds|);
  }

  lemma RoundEnds(w: World, first: Message, rounds: seq<Round>, r: Round, stop: Stop, maxTurns: int)
    requires GoesOn(w, first, rounds, |rounds|) && |rounds| + 1 < maxTurns
    requires Ends(w, first, rounds + [r]) == Some(stop)
    ensures RunEnds(w, first, rounds + [r], stop, maxTurns)
  {
    GoesOnPush(w, first, rounds, r);
  }

  // -------------------------------------------------------------------------- limits

  /** No breaker tripped at any of these replies. */
  ghost predicate NoBreak(w: World, first: Message, replies: seq<Message>) {
    replies == []
    || (NoBreak(w, first, replies[..|replies| - 1]) && Breaks(w, first, replies) == None)
  }

  /** No call was executed more than five times, unless the first reply alone holds more. */
  lemma {:induction false} CallsLimited(w: World, first: Message, replies: seq<Message>, s: string)
    requires NoBreak(w, first, replies)
    ensures Called(w, first, replies)[s]
            <= if Signatures(w, CallsOf(first))[s] > 5 then Signatures(w, CallsOf(first))[s] else 5
  {}

  /** At most nine silent turns were executed in a row. */
  lemma {:induction false} SilenceLimited(w: World, first: Message, replies: seq<Message>)
    requires NoBreak(w, first, replies)
    ensures LongestSilent(Blanks(w, replies)) <= 9
  {
    if replies != [] {
      var n := |replies| - 1;
      SilenceLimited(w, first, replies[..n]);
      assert Blanks(w, replies)[..n] == Blanks(w, replies[..n]);
      SilenceExactly(w, replies, 10);
    }
  }

  lemma NoBreakPush(w: World, first: Message, replies: seq<Message>, m: Message)
    requires NoBreak(w, first, replies) && Breaks(w, first, replies + [m]) == None
    ensures NoBreak(w, first, replies + [m])
  {
    assert (replies + [m])[..|replies|] == replies;
  }

  /** A round whose calls were run, or that asks for none. */
  lemma NoBreakRound(w: World, first: Message, rounds: seq<Round>, r: Round)
    requires NoBreak(w, first, Asking(rounds)) && !Unrun(Ends(w, first, rounds + [r]))
    ensures NoBreak(w, first, Asking(rounds + [r]))
  {
    AskingPush(rounds, r);
    EndsPush(w, first, rounds, r);
    if Asks(r.reply) {
      NoBreakPush(w, first, Asking(rounds), r.reply);
      assert Asking(rounds + [r]) == Asking(rounds) + [r.reply];
    } else {
      assert Asking(rounds + [r]) == Asking(rounds);
    }
  }

  lemma GoesOnInit(w: World, first: Message, rounds: seq<Round>, n: nat)
    requires 0 < |rounds| && n < |rounds| && GoesOn(w, first, rounds, n)
    ensures GoesOn(w, first, rounds[..|rounds| - 1], n)
  {
    var init := rounds[..|rounds| - 1];
    assert init[..n] == rounds[..n];
    GoesOnSame(w, first, rounds, init, n);
  }

  lemma {:induction false} GoingOn(w: World, first: Message, rounds: seq<Round>)
    requires GoesOn(w, first, rounds, |rounds|)
    ensures NoBreak(w, first, Asking(rounds))
  {
    if rounds != [] {
      var init, last := rounds[..|rounds| - 1], rounds[|rounds| - 1];
      assert rounds == init + [last] && rounds[..|rounds|] == rounds;
      GoesOnInit(w, first, rounds, |init|);
      GoingOn(w, first, init);
      NoBreakRound(w, first, init, last);
    }
  }

  /** And so it was with all replies that were executed, however the loop ended. */
  lemma ExecutedGoes(w: World, first: Message, rounds: seq<Round>, stop: Stop, maxTurns: int)
    requires RunEnds(w, first, rounds, stop, maxTurns)
    ensures NoBreak(w, first, Executed(rounds, stop))
  {
    if stop.Exhausted? || stop.Error? {
      GoingOn(w, first, rounds);
    } else {
      var init, last := rounds[..|rounds| - 1], rounds[|rounds| - 1];
      assert rounds == init + [last];
      GoesOnInit(w, first, rounds, |init|);
      GoingOn(w, first, init);
      if !Unrun(Some(stop)) {
        NoBreakRound(w, first, init, last);
      }
    }
  }

  // ------------------------------------------------------------------------- results

  /** The ids of the results of all these calls, in order. */
  function ResultIds(first: Message, replies: seq<Message>): seq<string> {
    if replies == [] then CallIds(CallsOf(first))
    else
      var init, m := ResultIds(first, replies[..|replies| - 1]), replies[|replies| - 1];
      if CallsOf(m) == [] then init else init + CallIds(CallsOf(m))
  }

  lemma ResultIdsPush(first: Message, replies: seq<Message>, m: Message)
    ensures ResultIds(first, replies + [m]) == ResultIds(first, replies) + CallIds(CallsOf(m))
  {
    assert (replies + [m])[..|replies|] == replies;
  }

  /** One call of the model: the tool results appended before it, and the
      repaired prompt of its first attempt. */
  datatype Prompt = Prompt(appended: seq<string>, sent: seq<Message>)

  /** What comes of calling the model with a prompt in this turn: the outcome of the last
      attempt of those that begin with it. */
  ghost predicate Given(w: World, turn: nat, prompt: seq<Message>, o: Outcome) {
    exists sent ::
      RetryLaws.Over(sent, w.script(turn), MAX_RETRIES) && sent[0] == prompt && w.script(turn)(|sent| - 1) == o
  }

  /** Each prompt comes after the results of all calls before, and its round is the reply. */
  ghost predicate Prompted(w: World, first: Message, rounds: seq<Round>, prompts: seq<Prompt>) {
    && |rounds| <= |prompts|
    && (rounds == []
        || var n := |rounds| - 1;
           && rounds[n].skipped == w.skipped(n + 1)
           && prompts[n].appended == ResultIds(first, Asking(rounds[..n]))
           && Given(w, n + 1, prompts[n].sent, Reply(rounds[n].reply))
           && Prompted(w, first, rounds[..n], prompts))
  }

  lemma {:induction false} PromptedMore(w: World, first: Message, rounds: seq<Round>, prompts: seq<Prompt>, p: Prompt)
    requires Prompted(w, first, rounds, prompts)
    ensures Prompted(w, first, rounds, prompts + [p])
  {
    if rounds != [] {
      PromptedMore(w, first, rounds[..|rounds| - 1], prompts, p);
    }
  }

  lemma PromptedPush(w: World, first: Message, rounds: seq<Round>, prompts: seq<Prompt>, r: Round, p: Prompt)
    requires Prompted(w, first, rounds, prompts) && |rounds| == |prompts|
    requires p.appended == ResultIds(first, Asking(rounds)) && r.skipped == w.skipped(|rounds| + 1)
    requires Given(w, |rounds| + 1, p.sent, Reply(r.reply))
    ensures Prompted(w, first, rounds + [r], prompts + [p])
  {
    var all := rounds + [r];
    PromptedMore(w, first, rounds, prompts, p);
    assert all[..|rounds|] == rounds;
  }

  /** What the loop returns: the reply that ended it, or, when all turns are used up, that to
      one prompt more if the last reply asks for calls. */
  ghost predicate Concluded(w: World, first: Message, rounds: seq<Round>, prompts: seq<Prompt>, stop: Stop,
                            response: Message)
  {
    var last, n := LastReply(first, rounds), |rounds|;
    match stop
    case Error(failure) =>
      |prompts| == n + 1 && response == last && Given(w, n + 1, prompts[n].sent, failure)
    case Exhausted =>
      if Asks(last) then |prompts| == n + 1 && Given(w, n + 1, prompts[n].sent, Reply(response))
      else |prompts| == n && response == last
    case _ => |prompts| == n && response == last
  }
}
