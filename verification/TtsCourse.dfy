/** The course of playback in a call, without a queue: which sentences were queued, which
    was heard, and what is to come (TTSFrameBuffer in pawlia/interfaces/call_core.py). */
module TtsCourse {
  import opened Seqs
  import opened Errors
  import opened TtsFrames

  // ------------------------------------------------------- the course of playback

  /** All sentences ever queued, the ones still waiting, the one being played and
      how many of its frames were put out, and the whole output so far, both as
      stretches and frame by frame. */
  datatype Course = Course(
    enqueued: seq<Sentence>,
    pending: seq<Sentence>,
    current: Option<Sentence>,
    played: nat,
    blocks: seq<Block>,
    log: seq<Event>)

  const START := Course([], [], None, 0, [], [])

  function Now(c: Course): seq<Sentence> {
    if c.current.Some? then [c.current.value] else []
  }

  /** The sentences heard or still to be heard. */
  function Kept(c: Course): seq<Sentence> {
    Spoken(c.blocks) + Now(c) + c.pending
  }

  predicate HalfPlayed(c: Course) {
    && (c.current.Some? ==> 1 <= c.played < Count(c.current.value.pcm))
    && Audible(c.pending)
  }

  /** The sentences are heard in the order in which they were queued, and the
      output consists of whole stretches and the begun part of the current one. */
  predicate CourseOk(c: Course) {
    && HalfPlayed(c)
    && Numbered(c.enqueued) && Sublist(Kept(c), c.enqueued)
    && c.log == Rendered(c.blocks) + Partial(c)
  }

  /** The frames of the current sentence that were put out. */
  function Partial(c: Course): seq<Event> {
    if c.current.None? then [] else Frames(c.current.value, c.played)
  }

  /** What the queue must hold: the rest of the current sentence, then the others. */
  function Waiting(c: Course): seq<Item> {
    (if c.current.None? then [] else Items(c.current.value, c.played)) + Queued(c.pending)
  }

  /** A new sentence. */
  function Enqueued(c: Course, pcm: seq<int>): Course {
    var s := Sentence(|c.enqueued| + 1, pcm);
    c.(enqueued := c.enqueued + [s], pending := c.pending + [s])
  }

  lemma WaitingEnqueued(c: Course, pcm: seq<int>)
    ensures Waiting(Enqueued(c, pcm)) == Waiting(c) + Items(Sentence(|c.enqueued| + 1, pcm), 0)
  {
    QueuedPush(c.pending, Sentence(|c.enqueued| + 1, pcm));
  }

  lemma KeptEnqueued(c: Course, pcm: seq<int>)
    ensures Kept(Enqueued(c, pcm)) == Kept(c) + [Sentence(|c.enqueued| + 1, pcm)]
  {
    Seqs.Assoc(Spoken(c.blocks) + Now(c), c.pending, [Sentence(|c.enqueued| + 1, pcm)]);
  }

  lemma NumberedPush(b: seq<Sentence>, pcm: seq<int>)
    requires Numbered(b)
    ensures Numbered(b + [Sentence(|b| + 1, pcm)])
  {
    assert (b + [Sentence(|b| + 1, pcm)])[..|b|] == b;
  }

  lemma HalfEnqueued(c: Course, pcm: seq<int>)
    requires HalfPlayed(c) && |pcm| > 0
    ensures HalfPlayed(Enqueued(c, pcm))
  {
    AudiblePush(c.pending, Sentence(|c.enqueued| + 1, pcm));
  }

  lemma CourseEnqueued(c: Course, pcm: seq<int>)
    requires CourseOk(c) && |pcm| > 0
    ensures CourseOk(Enqueued(c, pcm))
  {
    var s := Sentence(|c.enqueued| + 1, pcm);
    KeptEnqueued(c, pcm);
    SublistPush(Kept(c), c.enqueued, s);
    HalfEnqueued(c, pcm);
    NumberedPush(c.enqueued, pcm);
  }

  /** Only the rest of the current sentence still waits. */
  function Stopped(c: Course): Course {
    c.(pending := [])
  }

  lemma CourseStopped(c: Course)
    requires CourseOk(c)
    ensures CourseOk(Stopped(c))
    ensures Waiting(Stopped(c)) == if c.current.None? then [] else Items(c.current.value, c.played)
  {
    SublistPrefix(Spoken(c.blocks) + Now(c), c.pending, c.enqueued);
    assert Kept(Stopped(c)) == Spoken(c.blocks) + Now(c);
  }

  /** Nothing waits, and the current sentence is cut short. */
  function Interrupted(c: Course): Course {
    var blocks := if c.current.None? then c.blocks else c.blocks + [Cut(c.current.value, c.played)];
    c.(pending := [], current := None, played := 0, blocks := blocks)
  }

  lemma SpokenInterrupted(c: Course)
    ensures Spoken(Interrupted(c).blocks) == Spoken(c.blocks) + Now(c)
  {
    if c.current.Some? {
      RenderedPush(c.blocks, Cut(c.current.value, c.played));
    } else {
      assert Spoken(c.blocks) + [] == Spoken(c.blocks);
    }
  }

  lemma LogInterrupted(c: Course)
    ensures Rendered(Interrupted(c).blocks) == Rendered(c.blocks) + Partial(c)
  {
    if c.current.Some? {
      RenderedPush(c.blocks, Cut(c.current.value, c.played));
    } else {
      assert Rendered(c.blocks) + [] == Rendered(c.blocks);
    }
  }

  lemma NothingMore<T>(x: seq<T>)
    ensures x + [] == x
  {}

  lemma NoneWaiting(c: Course)
    requires c.current.None? && c.pending == []
    ensures Waiting(c) == []
  {
    NothingMore<Item>([]);
  }

  lemma CourseInterrupted(c: Course)
    requires CourseOk(c)
    ensures CourseOk(Interrupted(c)) && Waiting(Interrupted(c)) == []
  {
    NoneWaiting(Interrupted(c));
    var w := Interrupted(c);
    SublistPrefix(Spoken(c.blocks) + Now(c), c.pending, c.enqueued);
    SpokenInterrupted(c);
    LogInterrupted(c);
    NothingMore(Spoken(w.blocks));
    NothingMore(Spoken(w.blocks) + Now(w));
    NothingMore(Rendered(w.blocks));
  }

  /** A frame of hold music or silence. */
  function Idled(c: Course, e: Event): Course {
    c.(blocks := c.blocks + [Idle(e)], log := c.log + [e])
  }

  lemma CourseIdles(c: Course, e: Event)
    requires CourseOk(c) && c.current.None?
    ensures CourseOk(Idled(c, e)) && Waiting(Idled(c, e)) == Waiting(c)
  {
    RenderedPush(c.blocks, Idle(e));
    assert Kept(Idled(c, e)) == Kept(c);
  }

  predicate Talking(c: Course) {
    c.current.Some? || c.pending != []
  }

  /** The sentence whose frame comes next, and the number of that frame. */
  function Coming(c: Course): (r: (Sentence, nat))
    requires Talking(c)
  {
    if c.current.Some? then (c.current.value, c.played) else (c.pending[0], 0)
  }

  /** The course when the next frame of speech is put out. */
  function Continued(c: Course): Course
    requires Talking(c)
  {
    var (s, k) := Coming(c);
    var rest := if c.current.Some? then c.pending else c.pending[1..];
    var log := c.log + [Speech(s.id, k, Padded(Piece(s.pcm, k)))];
    if k == Count(s.pcm) - 1
    then Course(c.enqueued, rest, None, 0, c.blocks + [Whole(s)], log)
    else Course(c.enqueued, rest, Some(s), k + 1, c.blocks, log)
  }

  lemma ComingInside(c: Course)
    requires HalfPlayed(c) && Talking(c)
    ensures var (s, k) := Coming(c); k < Count(s.pcm) && |s.pcm| > 0
    ensures HalfPlayed(Continued(c))
  {}

  lemma Regroup<T>(a: seq<T>, x: T, b: seq<T>)
    ensures a + [] + ([x] + b) == a + [x] + b
    ensures (a + [x]) + [] + b == a + [x] + b
  {}

  lemma KeptContinues(c: Course)
    requires Talking(c)
    ensures Kept(Continued(c)) == Kept(c)
  {
    var (s, k) := Coming(c);
    var rest := if c.current.Some? then c.pending else c.pending[1..];
    Regroup(Spoken(c.blocks), s, rest);
    assert Kept(c) == Spoken(c.blocks) + [s] + rest by {
      if c.current.None? {
        assert c.pending == [s] + rest;
      }
    }
    if k == Count(s.pcm) - 1 {
      RenderedPush(c.blocks, Whole(s));
    }
  }

  lemma LogContinues(c: Course)
    requires Talking(c) && c.log == Rendered(c.blocks) + Partial(c)
    ensures Continued(c).log == Rendered(Continued(c).blocks) + Partial(Continued(c))
  {
    var (s, k) := Coming(c);
    var e := Speech(s.id, k, Padded(Piece(s.pcm, k)));
    FramesPush(s, k, Rendered(c.blocks));
    assert Continued(c).log == c.log + [e];
    assert c.log == Rendered(c.blocks) + Frames(s, k);
    if k == Count(s.pcm) - 1 {
      RenderedPush(c.blocks, Whole(s));
      assert Continued(c).log == Rendered(Continued(c).blocks) + [];
    }
  }

  lemma FramesPush(s: Sentence, k: nat, before: seq<Event>)
    ensures before + Frames(s, k) + [Speech(s.id, k, Padded(Piece(s.pcm, k)))] == before + Frames(s, k + 1)
  {
    Seqs.Assoc(before, Frames(s, k), [Speech(s.id, k, Padded(Piece(s.pcm, k)))]);
  }

  lemma WaitingContinues(c: Course)
    requires HalfPlayed(c) && Talking(c)
    ensures var (s, k) := Coming(c);
            Waiting(c) == [Item(Piece(s.pcm, k), s.id, k == Count(s.pcm) - 1)] + Waiting(Continued(c))
  {
    var (s, k) := Coming(c);
    var c' := Continued(c);
    ComingInside(c);
    var item := Item(Piece(s.pcm, k), s.id, k == Count(s.pcm) - 1);
    assert Items(s, k) == [item] + Items(s, k + 1);
    Seqs.Assoc([item], Items(s, k + 1), Queued(c'.pending));
    assert Waiting(c) == Items(s, k) + Queued(c'.pending);
    assert Waiting(c') == Items(s, k + 1) + Queued(c'.pending);
  }

  /** One more frame of speech keeps the course right. */
  lemma CourseContinues(c: Course)
    requires CourseOk(c) && Talking(c)
    ensures CourseOk(Continued(c))
    ensures var (s, k) := Coming(c);
            Waiting(c) == [Item(Piece(s.pcm, k), s.id, k == Count(s.pcm) - 1)] + Waiting(Continued(c))
  {
    ComingInside(c);
    KeptContinues(c);
    LogContinues(c);
    WaitingContinues(c);
  }

  /** When a sentence is being played, the head of the queue belongs to it. */
  lemma HeadIsCurrent(c: Course)
    requires CourseOk(c)
    ensures Waiting(c) == [] <==> !Talking(c)
    ensures c.current.Some? ==> Waiting(c)[0].sentence == c.current.value.id
  {
    if Talking(c) {
      CourseContinues(c);
    }
  }

  /** No waiting item belongs to the current sentence, except its own rest. */
  lemma OthersDiffer(c: Course)
    requires CourseOk(c) && c.current.Some?
    ensures forall i | 0 <= i < |Items(c.current.value, c.played)| ::
              Items(c.current.value, c.played)[i].sentence == c.current.value.id
    ensures forall i | 0 <= i < |Queued(c.pending)| :: Queued(c.pending)[i].sentence != c.current.value.id
  {
    var before := Spoken(c.blocks) + Now(c);
    forall i | 0 <= i < |c.pending|
      ensures c.pending[i].id != c.current.value.id
    {
      var upto := before + c.pending[..i + 1];
      assert Kept(c) == upto + c.pending[i + 1..];
      SublistPrefix(upto, c.pending[i + 1..], c.enqueued);
      SublistOrdered(upto, c.enqueued, |before| - 1);
    }
    QueuedSentences(c.pending, c.current.value.id);
    ItemsSentence(c.current.value, c.played);
  }

  // ------------------------------------------------------------------ whole runs

  /** What can happen to the buffer; `Frame` asks for the next frame, which is
      `idle` when no speech waits. */
  datatype Op = Say(pcm: seq<int>) | Frame(idle: Event) | StopAfter | Cancel

  predicate OpOk(op: Op) {
    op.Frame? ==> !op.idle.Speech?
  }

  function Step(c: Course, op: Op): Course {
    match op
    case Say(pcm) => if |pcm| == 0 then c else Enqueued(c, pcm)
    case Frame(idle) => if Talking(c) then Continued(c) else Idled(c, idle)
    case StopAfter => if c.current.Some? then Stopped(c) else Interrupted(c)
    case Cancel => Interrupted(c)
  }

  function Run(ops: seq<Op>): Course {
    if ops == [] then START else Step(Run(ops[..|ops| - 1]), ops[|ops| - 1])
  }

  predicate NoCut(blocks: seq<Block>) {
    blocks == [] || (!blocks[|blocks| - 1].Cut? && NoCut(blocks[..|blocks| - 1]))
  }

  lemma NoCutPush(blocks: seq<Block>, b: Block)
    requires NoCut(blocks) && !b.Cut?
    ensures NoCut(blocks + [b])
  {
    assert (blocks + [b])[..|blocks|] == blocks;
  }

  lemma StepKeeps(c: Course, op: Op)
    requires CourseOk(c) && OpOk(op)
    ensures CourseOk(Step(c, op))
  {
    match op
    case Say(pcm) => if |pcm| > 0 { CourseEnqueued(c, pcm); }
    case Frame(idle) => if Talking(c) { CourseContinues(c); } else { CourseIdles(c, idle); }
    case StopAfter => CourseStopped(c); CourseInterrupted(c);
    case Cancel => CourseInterrupted(c);
  }

  lemma StepCuts(c: Course, op: Op)
    requires NoCut(c.blocks) && OpOk(op) && !op.Cancel?
    ensures NoCut(Step(c, op).blocks)
  {
    match op
    case Say(_) =>
    case Frame(idle) =>
      NoCutPush(c.blocks, Idle(idle));
      if Talking(c) {
        NoCutPush(c.blocks, Whole(Coming(c).0));
      }
    case StopAfter =>
  }

  /** Over any run the listener hears the sentences in the order in which they
      were queued, each from start to end without music or silence inside, up to
      the begun part of the current one; only a cancellation cuts one short. */
  lemma {:induction false} RunKeeps(ops: seq<Op>)
    requires forall i | 0 <= i < |ops| :: OpOk(ops[i])
    ensures CourseOk(Run(ops))
    ensures (forall i | 0 <= i < |ops| :: !ops[i].Cancel?) ==> NoCut(Run(ops).blocks)
  {
    if ops != [] {
      var init := ops[..|ops| - 1];
      RunKeeps(init);
      StepKeeps(Run(init), ops[|ops| - 1]);
      if forall i | 0 <= i < |ops| :: !ops[i].Cancel? {
        StepCuts(Run(init), ops[|ops| - 1]);
      }
    }
  }

  // ------------------------------------------------------------------ the buffer

  /** The buffer holds what the course says. */
  ghost predicate Follows(c: Course, queue: seq<Item>, nextId: nat, current: Option<nat>) {
    && CourseOk(c) && queue == Waiting(c) && nextId == |c.enqueued| + 1
    && current == if c.current.None? then None else Some(c.current.value.id)
  }

  lemma FollowsEnqueued(c: Course, queue: seq<Item>, nextId: nat, current: Option<nat>, pcm: seq<int>)
    requires Follows(c, queue, nextId, current) && |pcm| > 0
    ensures Follows(Enqueued(c, pcm), queue + Items(Sentence(nextId, pcm), 0), nextId + 1, current)
  {
    CourseEnqueued(c, pcm);
    WaitingEnqueued(c, pcm);
  }

  lemma FollowsContinued(c: Course, queue: seq<Item>, nextId: nat, current: Option<nat>)
    requires Follows(c, queue, nextId, current) && Talking(c)
    ensures queue != [] && |Padded(queue[0].samples)| == FRAME
    ensures Follows(Continued(c), queue[1..], nextId, if queue[0].isLast then None else Some(queue[0].sentence))
    ensures Continued(c).log == c.log + [Speech(Coming(c).0.id, Coming(c).1, Padded(queue[0].samples))]
  {
    CourseContinues(c);
    ComingInside(c);
    assert queue[1..] == Waiting(Continued(c));
  }

  lemma FollowsIdled(c: Course, queue: seq<Item>, nextId: nat, current: Option<nat>, e: Event)
    requires Follows(c, queue, nextId, current) && !Talking(c)
    ensures Follows(Idled(c, e), queue, nextId, current)
  {
    CourseIdles(c, e);
  }

  lemma FollowsInterrupted(c: Course, queue: seq<Item>, nextId: nat, current: Option<nat>)
    requires Follows(c, queue, nextId, current)
    ensures Follows(Interrupted(c), [], nextId, None)
  {
    CourseInterrupted(c);
  }

  lemma FollowsStopped(c: Course, queue: seq<Item>, nextId: nat, current: Option<nat>)
    requires Follows(c, queue, nextId, current) && c.current.Some?
    ensures Follows(Stopped(c), Items(c.current.value, c.played), nextId, current)
  {
    CourseStopped(c);
  }
}
