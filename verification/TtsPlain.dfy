/** Playback told simply, as a list of frames to come (TTSFrameBuffer in
    pawlia/interfaces/call_core.py): a sentence goes behind it, a frame is taken from its
    front, an interruption empties it, and stopping after the sentence leaves what still
    belongs to the sentence heard last. The course of playback does just that. */
module TtsPlain {
  import opened Seqs
  import opened Errors
  import opened TtsFrames
  import opened TtsCourse

  /** The frames to come, the output so far and how many sentences were queued. */
  datatype Plain = Plain(rest: seq<Event>, log: seq<Event>, said: nat)

  const SILENT := Plain([], [], 0)

  /** How many frames at the front belong to this sentence. */
  function Lead(rest: seq<Event>, id: nat): (n: nat)
    ensures n <= |rest|
  {
    if rest != [] && rest[0].Speech? && rest[0].sentence == id then 1 + Lead(rest[1..], id) else 0
  }

  /** How many frames to come belong to the sentence that is being heard. */
  function Mine(p: Plain): (n: nat)
    ensures n <= |p.rest|
  {
    if p.log != [] && p.log[|p.log| - 1].Speech? then Lead(p.rest, p.log[|p.log| - 1].sentence) else 0
  }

  /** The frames of a sentence: 960 samples each, zeros behind the last ones. */
  function AllFrames(s: Sentence): seq<Event> {
    Frames(s, (|s.pcm| + 959) / 960)
  }

  function PlainStep(p: Plain, op: Op): Plain {
    match op
    case Say(pcm) =>
      if pcm == [] then p else Plain(p.rest + AllFrames(Sentence(p.said + 1, pcm)), p.log, p.said + 1)
    case Frame(idle) =>
      if p.rest == [] then p.(log := p.log + [idle]) else p.(rest := p.rest[1..], log := p.log + [p.rest[0]])
    case StopAfter => p.(rest := p.rest[..Mine(p)])
    case Cancel => p.(rest := [])
  }

  function PlainRun(ops: seq<Op>): Plain {
    if ops == [] then SILENT else PlainStep(PlainRun(ops[..|ops| - 1]), ops[|ops| - 1])
  }

  // ------------------------------------------------------------------ what is to come

  /** The frames of a sentence from frame k on. */
  function Tail(s: Sentence, k: nat): seq<Event>
    decreases Count(s.pcm) - k
  {
    if k >= Count(s.pcm) then [] else [Speech(s.id, k, Padded(Piece(s.pcm, k)))] + Tail(s, k + 1)
  }

  function Tails(pending: seq<Sentence>): seq<Event> {
    if pending == [] then [] else Tail(pending[0], 0) + Tails(pending[1..])
  }

  function Remaining(c: Course): seq<Event> {
    (if c.current.Some? then Tail(c.current.value, c.played) else []) + Tails(c.pending)
  }

  lemma {:induction false} FramesTail(s: Sentence, k: nat)
    requires k <= Count(s.pcm)
    ensures Frames(s, k) + Tail(s, k) == Frames(s, Count(s.pcm))
    decreases Count(s.pcm) - k
  {
    if k < Count(s.pcm) {
      var e := Speech(s.id, k, Padded(Piece(s.pcm, k)));
      FramesTail(s, k + 1);
      Seqs.Assoc(Frames(s, k), [e], Tail(s, k + 1));
    } else {
      assert Frames(s, k) + [] == Frames(s, k);
    }
  }

  lemma TailWhole(s: Sentence)
    ensures Tail(s, 0) == AllFrames(s)
  {
    FramesTail(s, 0);
    assert [] + Tail(s, 0) == Tail(s, 0);
  }

  lemma {:induction false} TailsPush(pending: seq<Sentence>, s: Sentence)
    ensures Tails(pending + [s]) == Tails(pending) + Tail(s, 0)
  {
    if pending == [] {
      assert pending + [s] == [s] && [s][1..] == [];
      assert Tail(s, 0) + [] == [] + Tail(s, 0);
    } else {
      assert (pending + [s])[1..] == pending[1..] + [s];
      TailsPush(pending[1..], s);
      Seqs.Assoc(Tail(pending[0], 0), Tails(pending[1..]), Tail(s, 0));
    }
  }

  lemma RemainingEnqueued(c: Course, pcm: seq<int>)
    ensures Remaining(Enqueued(c, pcm)) == Remaining(c) + AllFrames(Sentence(|c.enqueued| + 1, pcm))
  {
    var s := Sentence(|c.enqueued| + 1, pcm);
    var mine := if c.current.Some? then Tail(c.current.value, c.played) else [];
    TailsPush(c.pending, s);
    TailWhole(s);
    Seqs.Assoc(mine, Tails(c.pending), Tail(s, 0));
  }

  /** The next frame comes from the front. */
  lemma RemainingContinues(c: Course)
    requires HalfPlayed(c) && Talking(c)
    ensures var (s, k) := Coming(c);
            Remaining(c) == [Speech(s.id, k, Padded(Piece(s.pcm, k)))] + Remaining(Continued(c))
  {
    ComingInside(c);
    var (s, k) := Coming(c);
    var e := Speech(s.id, k, Padded(Piece(s.pcm, k)));
    var rest := if c.current.Some? then c.pending else c.pending[1..];
    assert Remaining(c) == Tail(s, k) + Tails(rest) by {
      if c.current.None? {
        assert [] + Tails(c.pending) == Tails(c.pending);
      }
    }
    assert Remaining(Continued(c)) == Tail(s, k + 1) + Tails(rest);
    Seqs.Assoc([e], Tail(s, k + 1), Tails(rest));
  }

  lemma RemainingNone(c: Course)
    requires HalfPlayed(c)
    ensures Remaining(c) == [] <==> !Talking(c)
  {
    if Talking(c) {
      RemainingContinues(c);
    }
  }

  // ----------------------------------------------------------- whose frames they are

  lemma {:induction false} LeadTail(s: Sentence, k: nat, more: seq<Event>)
    requires more == [] || !more[0].Speech? || more[0].sentence != s.id
    ensures Lead(Tail(s, k) + more, s.id) == |Tail(s, k)|
    decreases Count(s.pcm) - k
  {
    if k < Count(s.pcm) {
      LeadTail(s, k + 1, more);
      assert (Tail(s, k) + more)[1..] == Tail(s, k + 1) + more;
    } else {
      assert Tail(s, k) + more == more;
    }
  }

  lemma TailsFirst(pending: seq<Sentence>)
    requires Audible(pending) && pending != []
    ensures Tails(pending) != [] && Tails(pending)[0].Speech? && Tails(pending)[0].sentence == pending[0].id
  {}

  /** No sentence that waits has this number. */
  predicate NoneHas(pending: seq<Sentence>, id: nat) {
    forall s | s in pending :: s.id != id
  }

  /** The last frame that was heard belongs to the current sentence, or to none that waits;
      its number is one of those that were given. */
  predicate LastKnown(c: Course) {
    c.log != [] && c.log[|c.log| - 1].Speech? ==>
      var id := c.log[|c.log| - 1].sentence;
      && id <= |c.enqueued| && NoneHas(c.pending, id)
      && (c.current.Some? ==> c.current.value.id == id)
  }

  lemma LastIsCurrent(c: Course)
    requires CourseOk(c) && c.current.Some?
    ensures c.log != [] && c.log[|c.log| - 1].Speech? && c.log[|c.log| - 1].sentence == c.current.value.id
  {
    var s, n := c.current.value, c.played;
    assert Frames(s, n)[|Frames(s, n)| - 1] == Speech(s.id, n - 1, Padded(Piece(s.pcm, n - 1)));
  }

  /** In a numbered list no sentence has the number of one before it. */
  lemma LaterDiffer(before: seq<Sentence>, rest: seq<Sentence>, all: seq<Sentence>)
    requires before != [] && Numbered(all) && Sublist(before + rest, all)
    ensures before[|before| - 1].id <= |all| && NoneHas(rest, before[|before| - 1].id)
  {
    var last := |before| - 1;
    SublistPrefix(before, rest, all);
    SublistOrdered(before, all, last);
    forall r | r in rest
      ensures r.id != before[last].id
    {
      var i :| 0 <= i < |rest| && rest[i] == r;
      var upto := before + rest[..i + 1];
      assert before + rest == upto + rest[i + 1..];
      SublistPrefix(upto, rest[i + 1..], all);
      SublistOrdered(upto, all, last);
    }
  }

  /** The sentences that wait behind the one whose frame comes next. */
  function Behind(c: Course): seq<Sentence>
    requires Talking(c)
  {
    if c.current.Some? then c.pending else c.pending[1..]
  }

  lemma KeptSplit(c: Course)
    requires Talking(c)
    ensures Kept(c) == Spoken(c.blocks) + [Coming(c).0] + Behind(c)
  {
    if c.current.None? {
      assert c.pending == [c.pending[0]] + c.pending[1..];
    }
  }

  /** The number of the sentence whose frame comes next is none of those that wait behind
      it. */
  lemma ComingAlone(c: Course)
    requires CourseOk(c) && Talking(c)
    ensures Coming(c).0.id <= |c.enqueued| && NoneHas(Behind(c), Coming(c).0.id)
  {
    var before := Spoken(c.blocks) + [Coming(c).0];
    KeptSplit(c);
    LaterDiffer(before, Behind(c), c.enqueued);
  }

  lemma LastSays(c: Course, pcm: seq<int>)
    requires CourseOk(c) && LastKnown(c)
    ensures LastKnown(Enqueued(c, pcm))
  {}

  lemma LastContinues(c: Course)
    requires CourseOk(c) && Talking(c)
    ensures LastKnown(Continued(c))
  {
    ComingAlone(c);
  }

  lemma LastSteps(c: Course, op: Op)
    requires CourseOk(c) && LastKnown(c) && OpOk(op)
    ensures LastKnown(Step(c, op))
  {
    match op
    case Say(pcm) => if |pcm| > 0 { LastSays(c, pcm); }
    case Frame(idle) => if Talking(c) { LastContinues(c); }
    case StopAfter =>
    case Cancel =>
  }

  // -------------------------------------------------------------------------- laws

  /** What the simple account makes of a course. */
  function Told(c: Course): Plain {
    Plain(Remaining(c), c.log, |c.enqueued|)
  }

  lemma MineExactly(c: Course)
    requires CourseOk(c) && LastKnown(c)
    ensures Mine(Told(c)) == if c.current.Some? then |Tail(c.current.value, c.played)| else 0
  {
    if c.pending != [] {
      TailsFirst(c.pending);
      assert c.pending[0] in c.pending;
    }
    if c.current.Some? {
      LastIsCurrent(c);
      LeadTail(c.current.value, c.played, Tails(c.pending));
    } else {
      assert [] + Tails(c.pending) == Tails(c.pending);
    }
  }

  lemma StopTold(c: Course)
    requires CourseOk(c) && LastKnown(c)
    ensures Told(Step(c, StopAfter)) == PlainStep(Told(c), StopAfter)
  {
    MineExactly(c);
    if c.current.Some? {
      var mine := Tail(c.current.value, c.played);
      assert Remaining(c)[..|mine|] == mine;
      assert mine + [] == mine;
    }
  }

  lemma FrameTold(c: Course, idle: Event)
    requires CourseOk(c)
    ensures Told(Step(c, Frame(idle))) == PlainStep(Told(c), Frame(idle))
  {
    RemainingNone(c);
    if Talking(c) {
      RemainingContinues(c);
      var (s, k) := Coming(c);
      var e := Speech(s.id, k, Padded(Piece(s.pcm, k)));
      assert ([e] + Remaining(Continued(c)))[1..] == Remaining(Continued(c));
    }
  }

  lemma StepTold(c: Course, op: Op)
    requires CourseOk(c) && LastKnown(c) && OpOk(op)
    ensures Told(Step(c, op)) == PlainStep(Told(c), op)
  {
    match op
    case Say(pcm) => RemainingEnqueued(c, pcm);
    case Frame(idle) => FrameTold(c, idle);
    case StopAfter => StopTold(c);
    case Cancel =>
  }

  /** Over any run of enqueuing, taking frames, stopping and interrupting the output is that
      of the simple account, and so is what is still to come. */
  lemma {:induction false} RunTold(ops: seq<Op>)
    requires forall i | 0 <= i < |ops| :: OpOk(ops[i])
    ensures CourseOk(Run(ops)) && LastKnown(Run(ops)) && Told(Run(ops)) == PlainRun(ops)
  {
    RunKeeps(ops);
    if ops != [] {
      var init := ops[..|ops| - 1];
      RunTold(init);
      LastSteps(Run(init), ops[|ops| - 1]);
      StepTold(Run(init), ops[|ops| - 1]);
    }
  }

  // ------------------------------------------------------------------ nothing is lost

  function SpeechOf(log: seq<Event>): seq<Event> {
    if log == [] then []
    else SpeechOf(log[..|log| - 1]) + if log[|log| - 1].Speech? then [log[|log| - 1]] else []
  }

  /** Everything that was to be said, frame by frame, and how many sentences that is. */
  datatype Said = Said(frames: seq<Event>, count: nat)

  function SaidNext(b: Said, op: Op): Said {
    if op.Say? && op.pcm != [] then Said(b.frames + AllFrames(Sentence(b.count + 1, op.pcm)), b.count + 1) else b
  }

  function SaidAll(ops: seq<Op>): Said {
    if ops == [] then Said([], 0) else SaidNext(SaidAll(ops[..|ops| - 1]), ops[|ops| - 1])
  }

  lemma {:induction false} AllSpeech(s: Sentence, n: nat)
    ensures forall e | e in Frames(s, n) :: e.Speech?
  {
    if n > 0 {
      AllSpeech(s, n - 1);
    }
  }

  predicate OnlySpeech(events: seq<Event>) {
    forall e | e in events :: e.Speech?
  }

  /** What was heard and what is to come are together all that was to be said. */
  predicate Whole(p: Plain, b: Said) {
    SpeechOf(p.log) + p.rest == b.frames && p.said == b.count && OnlySpeech(p.rest)
  }

  lemma SpeechPush(log: seq<Event>, e: Event)
    ensures SpeechOf(log + [e]) == SpeechOf(log) + if e.Speech? then [e] else []
  {
    assert (log + [e])[..|log|] == log;
  }

  lemma SayWhole(p: Plain, b: Said, pcm: seq<int>)
    requires Whole(p, b) && pcm != []
    ensures Whole(PlainStep(p, Say(pcm)), SaidNext(b, Say(pcm)))
  {
    var s := Sentence(p.said + 1, pcm);
    AllSpeech(s, (|pcm| + 959) / 960);
    Seqs.Assoc(SpeechOf(p.log), p.rest, AllFrames(s));
  }

  lemma FrameWhole(p: Plain, b: Said, idle: Event)
    requires Whole(p, b) && !idle.Speech?
    ensures Whole(PlainStep(p, Frame(idle)), b)
  {
    if p.rest == [] {
      SpeechPush(p.log, idle);
      assert SpeechOf(p.log) + [] == SpeechOf(p.log);
    } else {
      var e, rest := p.rest[0], p.rest[1..];
      assert e in p.rest && forall x | x in rest :: x in p.rest;
      SpeechPush(p.log, e);
      assert p.rest == [e] + rest;
      Seqs.Assoc(SpeechOf(p.log), [e], rest);
    }
  }

  /** As long as nothing stops it, what was heard and what is to come are together all that
      was to be said, frame for frame. */
  lemma {:induction false} NothingLost(ops: seq<Op>)
    requires forall i | 0 <= i < |ops| :: OpOk(ops[i]) && (ops[i].Say? || ops[i].Frame?)
    ensures Whole(PlainRun(ops), SaidAll(ops))
  {
    if ops != [] {
      var init, op := ops[..|ops| - 1], ops[|ops| - 1];
      NothingLost(init);
      match op
      case Say(pcm) => if pcm != [] { SayWhole(PlainRun(init), SaidAll(init), pcm); }
      case Frame(idle) => FrameWhole(PlainRun(init), SaidAll(init), idle);
    }
  }
}
