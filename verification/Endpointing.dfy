/** When an utterance starts and ends, told without buffers or counters: the rules
    that the segmenter of a call follows (CallCore._audio_pipeline in
    pawlia/interfaces/call_core.py). */
module Endpointing {
  import opened Vad
  import opened Utterances

  const SETTLE := 40

  /** What the signal analysis says about one frame: it is speech-like, loud
      enough to break in while the bot plays, the surroundings are loud, the noise
      level relative to the threshold, and whether the bot plays. */
  datatype Input = Input(speechLike: bool, loudEnough: bool, loud: bool, noise: real, playing: bool)

  /** A frame counts as speech once the start of the call is over, and over the
      bot's voice only when it is loud enough. */
  predicate Speaks(i: Input, t: nat) {
    i.speechLike && t > SETTLE && (i.playing ==> i.loudEnough)
  }

  function PreFrames(c: Config): nat {
    Whole(Max(0.0, c.preSpeech) * FPS as real)
  }

  function PreLength(c: Config): nat {
    if PreFrames(c) > 1 then PreFrames(c) else 1
  }

  function Spoken(start: nat, t: nat): real {
    (t - start) as real / FPS as real
  }

  /** A call after t frames: whether an utterance is open, its start frame and
      pre-roll, its frames since the pause was last cleared (true for speech), or
      else the pre-roll that is ready; the chunks cut so far and the frames that
      counted as speech. */
  datatype View = View(t: nat, open: bool, start: nat, roll: nat, tail: seq<bool>, ready: nat,
                       chunks: seq<Chunk>, heard: set<nat>)

  const SILENT := View(0, false, 0, 0, [], 0, [], {})

  /** The pause is over: speech came back for as long as is asked for. */
  predicate Cancels(tail: seq<bool>, needed: int) {
    Pauses(tail) > 0 && Returning(tail) + 1 >= needed
  }

  function Needed(c: Config, v: View, i: Input): int {
    ResumeNeeded(c, Tolerance(c, Spoken(v.start, v.t + 1), i.loud), i.noise)
  }

  function Tolerated(c: Config, v: View, i: Input): nat {
    ToleranceFrames(c, Spoken(v.start, v.t + 1), i.loud)
  }

  /** The open utterance reaches the length cap. */
  predicate Capped(c: Config, cap: real, v: View, i: Input) {
    v.open && CapFrames(c, cap, i.loud) > 0 && v.t + 1 - v.start >= CapFrames(c, cap, i.loud)
  }

  function Cut(v: View, end: nat, bargeIn: bool): View {
    v.(open := false, ready := 0, tail := [], chunks := v.chunks + [Chunk(v.start, v.roll, end, bargeIn)])
  }

  function Arrive(v: View, i: Input): View {
    v.(t := v.t + 1, heard := if Speaks(i, v.t + 1) then v.heard + {v.t + 1} else v.heard)
  }

  /** One more frame in an open utterance. */
  function Continue(c: Config, v: View, i: Input): View {
    if Speaks(i, v.t + 1) then
      Arrive(v, i).(tail := if Cancels(v.tail, Needed(c, v, i)) then [] else v.tail + [true])
    else if Pauses(v.tail) + 1 >= Tolerated(c, v, i) then Cut(Arrive(v, i), v.t + 1, i.playing)
    else Arrive(v, i).(tail := v.tail + [false])
  }

  /** A frame that arrives with nothing open; `ready` frames of pre-roll. */
  function Start(v: View, i: Input, ready: nat): View {
    if Speaks(i, v.t + 1) then Arrive(v, i).(open := true, start := v.t + 1, roll := ready, tail := [], ready := 0)
    else Arrive(v, i).(ready := ready)
  }

  function Rolled(c: Config, ready: nat): nat {
    if PreFrames(c) == 0 then 0 else if ready < PreLength(c) then ready + 1 else ready
  }

  function Next(c: Config, cap: real, v: View, i: Input): View {
    if Capped(c, cap, v, i) then Start(Cut(v, v.t, false), i, 0)
    else if v.open then Continue(c, v, i)
    else Start(v, i, Rolled(c, v.ready))
  }

  /** A whole call. */
  function Call(c: Config, cap: real, v: View, inputs: seq<Input>): View {
    if inputs == [] then v else Next(c, cap, Call(c, cap, v, inputs[..|inputs| - 1]), inputs[|inputs| - 1])
  }

  // -------------------------------------------------------------------- bounds

  /** No tolerance of this configuration is longer, in frames. */
  function LongestTolerance(c: Config): nat {
    Whole(Max(Ceiling(c), Max(MIN_TOLERANCE, c.loudSilence)) * FPS as real)
  }

  /** No cap of this configuration is longer, in frames. */
  function LongestCap(c: Config, cap: real): nat {
    if CapFrames(c, cap, false) >= CapFrames(c, cap, true) then CapFrames(c, cap, false) else CapFrames(c, cap, true)
  }

  /** The length is limited both in quiet and in loud surroundings. */
  predicate Limited(c: Config, cap: real) {
    CapFrames(c, cap, false) > 0 && CapFrames(c, cap, true) > 0
  }

  lemma ToleranceBounded(c: Config, spoken: real, loud: bool)
    ensures 60 <= ToleranceFrames(c, spoken, loud) <= LongestTolerance(c)
  {
    ToleranceRange(c, spoken, loud);
    WholeMonotone(Tolerance(c, spoken, loud) * FPS as real,
                  Max(Ceiling(c), Max(MIN_TOLERANCE, c.loudSilence)) * FPS as real);
  }

  /** An open utterance is shorter than the cap and its pause than the tolerance. */
  predicate Bounded(c: Config, cap: real, v: View) {
    v.open ==>
      && Pauses(v.tail) < LongestTolerance(c)
      && (Limited(c, cap) ==> v.t - v.start < LongestCap(c, cap))
  }

  /** The chunks, the open utterance and the ready pre-roll share no frame. */
  predicate Apart(c: Config, v: View) {
    if v.open then
      && v.roll <= v.start && 1 <= v.start <= v.t && v.roll <= PreLength(c)
      && Disjoint(v.chunks, if v.roll == 0 then v.start else v.start - v.roll + 1)
    else
      && v.ready <= PreLength(c) && v.ready <= v.t && (PreFrames(c) == 0 ==> v.ready == 0)
      && Disjoint(v.chunks, v.t - v.ready + 1)
  }

  /** Every frame that counted as speech is in a chunk or in the open utterance. */
  ghost predicate NothingLost(v: View) {
    forall t | t in v.heard :: Caught(v.chunks, t) || (v.open && v.start <= t <= v.t)
  }

  ghost predicate Sound(c: Config, cap: real, v: View) {
    Bounded(c, cap, v) && Apart(c, v) && NothingLost(v)
  }

  // ---------------------------------------------------------------------- laws

  lemma CutApart(c: Config, v: View, end: nat, bargeIn: bool)
    requires v.open && Apart(c, v) && v.start <= end <= v.t
    ensures Disjoint(Cut(v, end, bargeIn).chunks, end + 1)
  {
    DisjointPush(v.chunks, Chunk(v.start, v.roll, end, bargeIn), end + 1);
  }

  lemma CutLosesNothing(v: View, bargeIn: bool)
    requires v.open && NothingLost(v)
    ensures NothingLost(Cut(v, v.t, bargeIn))
  {
    forall t | t in v.heard ensures Caught(Cut(v, v.t, bargeIn).chunks, t) {
      CaughtPush(v.chunks, Chunk(v.start, v.roll, v.t, bargeIn), t);
    }
  }

  lemma StartApart(c: Config, v: View, i: Input, ready: nat)
    requires !v.open && ready <= PreLength(c) && ready <= v.t + 1 && (PreFrames(c) == 0 ==> ready == 0)
    requires Disjoint(v.chunks, if ready == 0 then v.t + 1 else v.t + 2 - ready)
    ensures Apart(c, Start(v, i, ready))
  {
    DisjointGrow(v.chunks, if ready == 0 then v.t + 1 else v.t + 2 - ready, v.t + 2 - ready);
  }

  /** A frame in an open utterance only changes its tail, or cuts it. */
  lemma ContinueWays(c: Config, v: View, i: Input)
    ensures var w := Continue(c, v, i);
            w == Cut(Arrive(v, i), v.t + 1, i.playing) || w == Arrive(v, i).(tail := w.tail)
  {}

  lemma TailApart(c: Config, v: View, i: Input, tail: seq<bool>)
    requires v.open && Apart(c, v)
    ensures Apart(c, Arrive(v, i).(tail := tail))
  {}

  lemma ClosedApart(c: Config, v: View, end: nat, bargeIn: bool)
    requires v.open && Apart(c, v) && v.start <= end == v.t
    ensures Apart(c, Cut(v, end, bargeIn))
  {
    CutApart(c, v, end, bargeIn);
  }

  lemma ContinueApart(c: Config, v: View, i: Input)
    requires v.open && Apart(c, v)
    ensures Apart(c, Continue(c, v, i))
  {
    var w := Continue(c, v, i);
    ContinueWays(c, v, i);
    if w == Arrive(v, i).(tail := w.tail) {
      TailApart(c, v, i, w.tail);
    } else {
      TailApart(c, v, i, Arrive(v, i).tail);
      ClosedApart(c, Arrive(v, i), v.t + 1, i.playing);
    }
  }

  lemma NextApart(c: Config, cap: real, v: View, i: Input)
    requires Apart(c, v)
    ensures Apart(c, Next(c, cap, v, i))
  {
    if Capped(c, cap, v, i) {
      CutApart(c, v, v.t, false);
      StartApart(c, Cut(v, v.t, false), i, 0);
    } else if v.open {
      ContinueApart(c, v, i);
    } else {
      var ready := Rolled(c, v.ready);
      DisjointGrow(v.chunks, v.t - v.ready + 1, if ready == 0 then v.t + 1 else v.t + 2 - ready);
      StartApart(c, v, i, ready);
    }
  }

  lemma ContinueBounded(c: Config, v: View, i: Input)
    requires v.open && Pauses(v.tail) < LongestTolerance(c)
    ensures Continue(c, v, i).open ==> Pauses(Continue(c, v, i).tail) < LongestTolerance(c)
  {
    ToleranceBounded(c, Spoken(v.start, v.t + 1), i.loud);
    TailPush(v.tail, true);
    TailPush(v.tail, false);
  }

  lemma NextBounded(c: Config, cap: real, v: View, i: Input)
    requires Bounded(c, cap, v)
    ensures Bounded(c, cap, Next(c, cap, v, i))
  {
    ToleranceBounded(c, 0.0, i.loud);
    if v.open && !Capped(c, cap, v, i) {
      ContinueBounded(c, v, i);
    }
  }

  lemma ContinueLosesNothing(c: Config, v: View, i: Input)
    requires v.open && v.start <= v.t && NothingLost(v)
    ensures NothingLost(Continue(c, v, i))
  {
    var a := Arrive(v, i);
    assert NothingLost(a);
    CutLosesNothing(a, i.playing);
  }

  lemma NextLosesNothing(c: Config, cap: real, v: View, i: Input)
    requires Apart(c, v) && NothingLost(v)
    ensures NothingLost(Next(c, cap, v, i))
  {
    if Capped(c, cap, v, i) {
      CutLosesNothing(v, false);
    } else if v.open {
      ContinueLosesNothing(c, v, i);
    }
  }

  lemma NextSound(c: Config, cap: real, v: View, i: Input)
    requires Sound(c, cap, v)
    ensures Sound(c, cap, Next(c, cap, v, i))
  {
    NextApart(c, cap, v, i);
    NextBounded(c, cap, v, i);
    NextLosesNothing(c, cap, v, i);
  }

  /** In every state of every call: the chunks, the open utterance and the ready
      pre-roll are disjoint frame ranges in order, no speech is lost, the pause is
      below the tolerance and the length below the cap. */
  lemma {:induction false} CallSound(c: Config, cap: real, v: View, inputs: seq<Input>)
    requires Sound(c, cap, v)
    ensures Sound(c, cap, Call(c, cap, v, inputs))
  {
    if inputs != [] {
      var last := |inputs| - 1;
      CallSound(c, cap, v, inputs[..last]);
      NextSound(c, cap, Call(c, cap, v, inputs[..last]), inputs[last]);
    }
  }

  /** A cap flush in running speech loses no frame: the chunk ends at one frame and
      the next utterance starts at the following one, with no frame twice. */
  lemma CapFlushContinues(c: Config, cap: real, v: View, i: Input)
    requires Sound(c, cap, v) && Capped(c, cap, v, i) && Speaks(i, v.t + 1)
    ensures var w := Next(c, cap, v, i);
            && w.open && w.roll == 0 && |w.chunks| == |v.chunks| + 1
            && w.chunks[|v.chunks|].end + 1 == w.start == w.t
            && w.chunks[|v.chunks|].start == v.start
  {}

  /** As long as no chunk comes out of a run, the open utterance stays the same. */
  lemma {:induction false} SameUtterance(c: Config, cap: real, v: View, inputs: seq<Input>)
    requires v.open
    ensures var w := Call(c, cap, v, inputs);
            && w.t == v.t + |inputs| && |w.chunks| >= |v.chunks|
            && (|w.chunks| == |v.chunks| ==> w.open && w.start == v.start)
  {
    if inputs != [] {
      SameUtterance(c, cap, v, inputs[..|inputs| - 1]);
    }
  }

  /** With both caps at work, an open utterance is cut within the longer of them. */
  lemma CapCloses(c: Config, cap: real, v: View, inputs: seq<Input>)
    requires Sound(c, cap, v) && v.open && Limited(c, cap)
    requires v.t - v.start + |inputs| >= LongestCap(c, cap)
    ensures |Call(c, cap, v, inputs).chunks| > |v.chunks|
  {
    CallSound(c, cap, v, inputs);
    SameUtterance(c, cap, v, inputs);
  }

  /** When the cap for the surroundings at hand is shorter than one frame, nothing
      bounds the length: unbroken speech stays one utterance. */
  lemma {:induction false} Unbounded(c: Config, cap: real, v: View, inputs: seq<Input>, loud: bool)
    requires v.open && CapFrames(c, cap, loud) == 0
    requires forall k | 0 <= k < |inputs| :: inputs[k].loud == loud && Speaks(inputs[k], v.t + k + 1)
    ensures var w := Call(c, cap, v, inputs);
            w.open && w.chunks == v.chunks && w.start == v.start && w.t == v.t + |inputs|
  {
    if inputs != [] {
      Unbounded(c, cap, v, inputs[..|inputs| - 1], loud);
    }
  }

  // --------------------------------------------------------------------- gusts

  /** The speech at the end of a run of frames after frame t, `r` before it. */
  function Running(r: nat, t: nat, inputs: seq<Input>): nat {
    if inputs == [] then r
    else if Speaks(inputs[|inputs| - 1], t + |inputs|) then Running(r, t, inputs[..|inputs| - 1]) + 1
    else 0
  }

  /** Every return of speech in the run stays shorter than what is asked for at its
      frame, which depends on the tolerance and the noise at that moment. */
  predicate Fleeting(c: Config, cap: real, v: View, inputs: seq<Input>) {
    inputs == []
    || (var n := |inputs| - 1;
        && Fleeting(c, cap, v, inputs[..n])
        && !Reaches(c, cap, v, inputs))
  }

  /** The last frame of the run brings its speech up to what is asked for. */
  predicate Reaches(c: Config, cap: real, v: View, inputs: seq<Input>)
    requires inputs != []
  {
    var n := |inputs| - 1;
    && Speaks(inputs[n], v.t + |inputs|)
    && Running(Returning(v.tail), v.t, inputs) >= Needed(c, Call(c, cap, v, inputs[..n]), inputs[n])
  }

  /** The frames that do not count as speech. */
  function Quiet(t: nat, inputs: seq<Input>): nat {
    if inputs == [] then 0
    else Quiet(t, inputs[..|inputs| - 1]) + if Speaks(inputs[|inputs| - 1], t + |inputs|) then 0 else 1
  }

  /** Frames that come within one utterance, after a pause has begun. */
  predicate Pausing(c: Config, cap: real, v: View, inputs: seq<Input>) {
    v.open && Pauses(v.tail) > 0 && |Call(c, cap, v, inputs).chunks| <= |v.chunks|
  }

  lemma PauseStep(c: Config, cap: real, w: View, i: Input)
    requires w.open && Pauses(w.tail) > 0 && |Next(c, cap, w, i).chunks| <= |w.chunks|
    ensures var n := Next(c, cap, w, i);
            if !Speaks(i, w.t + 1) then Pauses(n.tail) == Pauses(w.tail) + 1 && Returning(n.tail) == 0
            else if Returning(w.tail) + 1 < Needed(c, w, i)
            then Pauses(n.tail) == Pauses(w.tail) && Returning(n.tail) == Returning(w.tail) + 1
            else Pauses(n.tail) == 0
  {
    TailPush(w.tail, true);
    TailPush(w.tail, false);
  }

  lemma OneMore(c: Config, cap: real, v: View, inputs: seq<Input>)
    requires v.open && inputs != []
    ensures var w := Call(c, cap, v, inputs[..|inputs| - 1]);
            && w.t == v.t + |inputs| - 1
            && |v.chunks| <= |w.chunks| <= |Call(c, cap, v, inputs).chunks|
            && (|w.chunks| == |v.chunks| ==> w.open)
  {
    SameUtterance(c, cap, v, inputs[..|inputs| - 1]);
  }

  /** However many gusts blow into a pause: as long as none of them lasts for what is
      asked for at its frame, none takes a frame off the pause, and all quiet frames together stay fewer than
      the tolerance. */
  lemma {:induction false} GustsHoldNothing(c: Config, cap: real, v: View, inputs: seq<Input>)
    requires Pausing(c, cap, v, inputs) && Fleeting(c, cap, v, inputs)
    ensures var w := Call(c, cap, v, inputs);
            && w.open && w.start == v.start
            && Pauses(w.tail) == Pauses(v.tail) + Quiet(v.t, inputs)
            && Returning(w.tail) == Running(Returning(v.tail), v.t, inputs)
    ensures Sound(c, cap, v) ==> Pauses(v.tail) + Quiet(v.t, inputs) < LongestTolerance(c)
  {
    SameUtterance(c, cap, v, inputs);
    if Sound(c, cap, v) {
      CallSound(c, cap, v, inputs);
    }
    if inputs != [] {
      var n := |inputs| - 1;
      OneMore(c, cap, v, inputs);
      GustsHoldNothing(c, cap, v, inputs[..n]);
      PauseStep(c, cap, Call(c, cap, v, inputs[..n]), inputs[n]);
    }
  }

  /** And the first return of speech that lasts for what is asked for clears it: a
      pause that was not cleared before is cleared by this frame exactly then. */
  lemma PauseCleared(c: Config, cap: real, v: View, inputs: seq<Input>)
    requires inputs != [] && Pausing(c, cap, v, inputs) && Fleeting(c, cap, v, inputs[..|inputs| - 1])
    ensures Pauses(Call(c, cap, v, inputs).tail) == 0 <==> Reaches(c, cap, v, inputs)
  {
    var n := |inputs| - 1;
    OneMore(c, cap, v, inputs);
    GustsHoldNothing(c, cap, v, inputs[..n]);
    PauseStep(c, cap, Call(c, cap, v, inputs[..n]), inputs[n]);
  }

  /** A pause lives through a run of frames, without being cleared once. */
  predicate Lasts(c: Config, cap: real, v: View, inputs: seq<Input>) {
    && Pauses(Call(c, cap, v, inputs).tail) > 0
    && (inputs != [] ==> Lasts(c, cap, v, inputs[..|inputs| - 1]))
  }

  /** A pause lasts through a run if and only if every return of speech in the run
      stays shorter than what is asked for at its frame. */
  lemma {:induction false} LastsExactly(c: Config, cap: real, v: View, inputs: seq<Input>)
    requires Pausing(c, cap, v, inputs)
    ensures Lasts(c, cap, v, inputs) <==> Fleeting(c, cap, v, inputs)
  {
    if inputs != [] {
      OneMore(c, cap, v, inputs);
      LastsExactly(c, cap, v, inputs[..|inputs| - 1]);
      if Fleeting(c, cap, v, inputs[..|inputs| - 1]) {
        PauseCleared(c, cap, v, inputs);
      }
    }
  }

  /** A pause that was not cleared ends the utterance at a frame short of the cap exactly
      when this frame is quiet and, with all quiet frames since the pause began, makes
      up the tolerance at this frame. */
  lemma PauseCloses(c: Config, cap: real, v: View, inputs: seq<Input>)
    requires inputs != []
    requires var init := inputs[..|inputs| - 1];
             && Pausing(c, cap, v, init) && Fleeting(c, cap, v, init)
             && !Capped(c, cap, Call(c, cap, v, init), inputs[|inputs| - 1])
    ensures var n := |inputs| - 1;
            |Call(c, cap, v, inputs).chunks| > |v.chunks|
            <==> !Speaks(inputs[n], v.t + |inputs|)
                 && Pauses(v.tail) + Quiet(v.t, inputs) >= Tolerated(c, Call(c, cap, v, inputs[..n]), inputs[n])
  {
    OneMore(c, cap, v, inputs);
    GustsHoldNothing(c, cap, v, inputs[..|inputs| - 1]);
  }
}
