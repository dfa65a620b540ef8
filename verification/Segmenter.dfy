/** The frame loop of a call with its buffers and counters
    (CallCore._audio_pipeline in pawlia/interfaces/call_core.py, start_buffer and
    resume_after_pause in pawlia/audio/vad.py). Frames are known by their number. */
module Segmenter {
  import Seqs
  import opened Vad
  import opened Utterances
  import opened Endpointing

  /** Whether the pause is over, and the new count of returning speech frames. */
  function ResumeAfterPause(speech: bool, silence: nat, resume: nat, needed: int): (bool, nat) {
    if !speech || silence == 0 then (false, 0) else (resume + 1 >= needed, resume + 1)
  }

  /** The two pause counters tell the tail of the open utterance. */
  predicate Counted(silence: nat, resume: nat, tail: seq<bool>) {
    && silence == Pauses(tail)
    && resume == if Pauses(tail) == 0 then 0 else Returning(tail)
  }

  lemma CountSpeech(silence: nat, resume: nat, tail: seq<bool>, needed: int)
    requires Counted(silence, resume, tail)
    ensures var (confirmed, count) := ResumeAfterPause(true, silence, resume, needed);
            && confirmed == Cancels(tail, needed)
            && (!confirmed ==> Counted(silence, if silence == 0 then 0 else count, tail + [true]))
  {
    TailPush(tail, true);
  }

  lemma CountQuiet(silence: nat, resume: nat, tail: seq<bool>)
    requires Counted(silence, resume, tail)
    ensures Counted(silence + 1, 0, tail + [false])
  {
    TailPush(tail, false);
  }

  lemma ContentLength(start: nat, roll: nat, end: nat)
    requires roll <= start <= end
    ensures |Content(start, roll, end)| == roll + 1 + end - start
    ensures Content(start, roll, end)[roll] == start
    ensures roll > 0 ==> Content(start, roll, end)[roll - 1] == start
  {
    RangeLength(start - roll + 1, start);
    RangeLength(start, end);
  }

  lemma ContentPush(start: nat, roll: nat, end: nat)
    requires roll <= start <= end
    ensures Content(start, roll, end + 1) == Content(start, roll, end) + [end + 1]
  {
    RangePush(start, end);
    var a, b := Range(start - roll + 1, start), Range(start, end);
    assert a + (b + [end + 1]) == (a + b) + [end + 1];
  }

  lemma ContentStart(start: nat, roll: nat)
    requires roll <= start && start > 0
    ensures Content(start, roll, start) == Range(start - roll + 1, start) + [start]
  {
    RangeLength(start, start);
    assert Range(start, start) == [start];
  }

  /** The open buffer and the start frame of the view. */
  predicate Buffered(buffer: seq<nat>, start: nat, v: View) {
    if v.open then
      v.roll <= v.start <= v.t && v.start > 0 && start == v.start && buffer == Content(v.start, v.roll, v.t)
    else buffer == []
  }

  lemma OpenBuffer(buffer: seq<nat>, start: nat, v: View)
    requires Buffered(buffer, start, v)
    ensures v.open <==> buffer != []
  {
    if v.open {
      ContentLength(v.start, v.roll, v.t);
    }
  }

  /** The pre-roll buffer: the latest frames up to t. */
  predicate PreRoll(pre: seq<nat>, ready: nat, t: nat) {
    ready <= t && pre == Range(t - ready + 1, t)
  }

  lemma PreRollLength(pre: seq<nat>, ready: nat, t: nat)
    requires PreRoll(pre, ready, t)
    ensures |pre| == ready
  {
    RangeLength(t - ready + 1, t);
  }

  lemma PreRollEmpty(t: nat)
    ensures PreRoll([], 0, t)
  {
    RangeEmpty(t);
  }

  /** The chunk that one frame adds to the view, as its frames. */
  function Flushed(v: View, w: View): seq<nat> {
    if |w.chunks| > |v.chunks| then
      var k := w.chunks[|w.chunks| - 1];
      Content(k.start, k.roll, k.end)
    else []
  }

  /** The frames of each chunk. */
  function Contents(chunks: seq<Chunk>): seq<seq<nat>> {
    if chunks == [] then []
    else
      var k := chunks[|chunks| - 1];
      Contents(chunks[..|chunks| - 1]) + [Content(k.start, k.roll, k.end)]
  }

  lemma NextGrows(c: Config, cap: real, v: View, i: Input)
    ensures var w := Next(c, cap, v, i);
            w.chunks == v.chunks || (w.chunks != [] && w.chunks[..|w.chunks| - 1] == v.chunks)
  {}

  lemma LastHolds(chunks: seq<Chunk>, limit: nat)
    requires Disjoint(chunks, limit) && chunks != []
    ensures var k := chunks[|chunks| - 1]; Content(k.start, k.roll, k.end) != []
  {
    var k := chunks[|chunks| - 1];
    ContentLength(k.start, k.roll, k.end);
  }

  /** A frame adds no chunk, or one, which is not empty. */
  lemma NextAdds(c: Config, cap: real, v: View, i: Input)
    requires Apart(c, v)
    ensures var w := Next(c, cap, v, i);
            if Flushed(v, w) == [] then Contents(w.chunks) == Contents(v.chunks)
            else Contents(w.chunks) == Contents(v.chunks) + [Flushed(v, w)]
  {
    var w := Next(c, cap, v, i);
    NextApart(c, cap, v, i);
    NextGrows(c, cap, v, i);
    Grown(c, v, w);
  }

  lemma Grown(c: Config, v: View, w: View)
    requires Apart(c, w)
    requires w.chunks == v.chunks || (w.chunks != [] && w.chunks[..|w.chunks| - 1] == v.chunks)
    ensures if Flushed(v, w) == [] then Contents(w.chunks) == Contents(v.chunks)
            else Contents(w.chunks) == Contents(v.chunks) + [Flushed(v, w)]
  {
    if w.chunks != v.chunks {
      LastHolds(w.chunks, if !w.open then w.t - w.ready + 1 else if w.roll == 0 then w.start else w.start - w.roll + 1);
    }
  }

  /** The buffers and counters that belong to a view. */
  predicate Told(frames: nat, buffer: seq<nat>, pre: seq<nat>, silence: nat, resume: nat, start: nat, v: View) {
    && frames == v.t
    && Buffered(buffer, start, v)
    && if v.open then Counted(silence, resume, v.tail)
       else silence == resume == 0 && PreRoll(pre, v.ready, frames)
  }

  function Heard(c: Config, v: View, i: Input, ready: nat): View {
    if v.open then Continue(c, v, i) else Start(v, i, ready)
  }

  /** A frame is at most a cut by the cap, and then the rest. */
  lemma NextParts(c: Config, cap: real, v: View, i: Input)
    ensures !Capped(c, cap, v, i) ==> Next(c, cap, v, i) == Heard(c, v, i, Rolled(c, v.ready))
    ensures Capped(c, cap, v, i) ==>
              && Next(c, cap, v, i) == Heard(c, Cut(v, v.t, false), i, 0)
              && Flushed(v, Next(c, cap, v, i)) == Content(v.start, v.roll, v.t)
              && Flushed(Cut(v, v.t, false), Next(c, cap, v, i)) == []
  {}

  lemma StartTold(pre: seq<nat>, start: nat, v: View, i: Input, ready: nat)
    requires !v.open && PreRoll(pre, ready, v.t + 1)
    ensures var t := v.t + 1;
            if Speaks(i, t) then Told(t, pre + [t], pre, 0, 0, t, Start(v, i, ready))
            else Told(t, [], pre, 0, 0, start, Start(v, i, ready))
  {
    ContentStart(v.t + 1, ready);
  }

  lemma SpeechTold(buffer: seq<nat>, pre: seq<nat>, silence: nat, resume: nat, start: nat, c: Config, v: View, i: Input)
    requires v.open && Told(v.t, buffer, pre, silence, resume, start, v) && Speaks(i, v.t + 1)
    ensures var (confirmed, count) := ResumeAfterPause(true, silence, resume, Needed(c, v, i));
            Told(v.t + 1, buffer + [v.t + 1], pre, if confirmed then 0 else silence,
                 if confirmed || silence == 0 then 0 else count, start, Continue(c, v, i))
  {
    CountSpeech(silence, resume, v.tail, Needed(c, v, i));
    ContentPush(v.start, v.roll, v.t);
  }

  lemma PauseTold(buffer: seq<nat>, pre: seq<nat>, silence: nat, resume: nat, start: nat, c: Config, v: View, i: Input)
    requires v.open && Told(v.t, buffer, pre, silence, resume, start, v) && !Speaks(i, v.t + 1)
    ensures silence + 1 < Tolerated(c, v, i) ==>
              Told(v.t + 1, buffer + [v.t + 1], pre, silence + 1, 0, start, Continue(c, v, i))
    ensures silence + 1 >= Tolerated(c, v, i) ==>
              && Told(v.t + 1, [], [], 0, 0, 0, Continue(c, v, i))
              && Flushed(v, Continue(c, v, i)) == buffer + [v.t + 1]
  {
    CountQuiet(silence, resume, v.tail);
    ContentPush(v.start, v.roll, v.t);
    PreRollEmpty(v.t + 1);
  }

  class Segmenter {
    const c: Config
    const cap: real
    var frames: nat
    var buffer: seq<nat>
    var pre: seq<nat>
    var silence: nat
    var resume: nat
    var start: nat
    ghost var view: View

    ghost predicate Valid()
      reads this
    {
      Told(frames, buffer, pre, silence, resume, start, view) && Sound(c, cap, view)
    }

    constructor (config: Config, longest: real)
      ensures c == config && cap == longest && Valid() && view == SILENT
    {
      c, cap := config, longest;
      frames, buffer, pre, silence, resume, start := 0, [], [], 0, 0, 0;
      view := SILENT;
      PreRollEmpty(0);
    }

    /** Keep the frame in the pre-roll buffer, whose oldest frame falls out. */
    method Roll(ghost ready: nat)
      requires frames > 0 && ready <= PreLength(c) && PreRoll(pre, ready, frames - 1)
      modifies `pre
      ensures PreRoll(pre, if ready < PreLength(c) then ready + 1 else ready, frames)
    {
      PreRollLength(pre, ready, frames - 1);
      RangePush(frames - ready, frames - 1);
      pre := pre + [frames];
      if |pre| > PreLength(c) {
        RangePop(frames - ready, frames);
        pre := pre[1..];
      }
    }

    /** Clear everything after a chunk was handed over. */
    method Clear()
      modifies `buffer, `pre, `silence, `resume, `start
      ensures buffer == pre == [] && silence == resume == start == 0
    {
      buffer, pre, silence, resume, start := [], [], 0, 0, 0;
    }

    /** A speech frame: it opens the buffer, after the pre-roll, or goes on in it. */
    method Speech(needed: int)
      modifies `buffer, `silence, `resume, `start
      ensures old(buffer) == [] && old(silence) == 0 ==>
              && buffer == old(pre) + [frames] && start == frames && silence == resume == 0
      ensures old(buffer) != [] ==>
              && buffer == old(buffer) + [frames] && start == old(start)
              && var (confirmed, count) := ResumeAfterPause(true, old(silence), old(resume), needed);
                 && silence == (if confirmed then 0 else old(silence))
                 && resume == (if confirmed || old(silence) == 0 then 0 else count)
    {
      if buffer == [] && silence == 0 {
        buffer := pre + [frames];
        start := frames;
      } else {
        buffer := buffer + [frames];
      }
      var (confirmed, count) := ResumeAfterPause(true, silence, resume, needed);
      resume := count;
      if confirmed {
        silence, resume := 0, 0;
      } else if silence == 0 {
        resume := 0;
      }
    }

    /** A frame that is not speech in an open utterance, which it may close. */
    method Pause(tolerance: nat) returns (flushed: seq<nat>)
      requires buffer != []
      modifies `buffer, `pre, `silence, `resume, `start
      ensures old(silence) + 1 >= tolerance ==>
              && flushed == old(buffer) + [frames]
              && buffer == pre == [] && silence == resume == start == 0
      ensures old(silence) + 1 < tolerance ==>
              && flushed == [] && buffer == old(buffer) + [frames] && start == old(start)
              && pre == old(pre) && silence == old(silence) + 1 && resume == 0
    {
      flushed := [];
      silence := silence + 1;
      resume := 0;
      buffer := buffer + [frames];
      if silence >= tolerance {
        flushed := buffer;
        Clear();
      }
    }

    /** The frame opens, continues or closes an utterance, or passes by. */
    method Listen(i: Input, needed: int, tolerance: nat, ghost v: View, ghost ready: nat) returns (flushed: seq<nat>)
      requires frames == v.t + 1
      requires v.open ==>
                 && Told(v.t, buffer, pre, silence, resume, start, v)
                 && needed == Needed(c, v, i) && tolerance == Tolerated(c, v, i)
      requires !v.open ==> buffer == [] && silence == resume == 0 && PreRoll(pre, ready, frames)
      modifies `buffer, `pre, `silence, `resume, `start
      ensures Told(frames, buffer, pre, silence, resume, start, Heard(c, v, i, ready))
      ensures flushed == Flushed(v, Heard(c, v, i, ready))
    {
      flushed := [];
      if v.open {
        OpenBuffer(buffer, start, v);
        if Speaks(i, frames) {
          SpeechTold(buffer, pre, silence, resume, start, c, v, i);
        } else {
          PauseTold(buffer, pre, silence, resume, start, c, v, i);
        }
      } else {
        StartTold(pre, start, v, i, ready);
      }
      var speech := i.speechLike && frames > SETTLE;
      if i.playing {
        if i.loudEnough && speech {
          Speech(needed);
        } else if buffer != [] {
          flushed := Pause(tolerance);
        }
      } else if speech {
        Speech(needed);
      } else if buffer != [] {
        flushed := Pause(tolerance);
      }
    }

    /** The frame is kept as pre-roll, or cuts an utterance that reached the cap. */
    method Arrive(longest: nat, ghost v: View) returns (capped: seq<nat>)
      requires Told(frames, buffer, pre, silence, resume, start, v)
      requires !v.open ==> v.ready <= PreLength(c) && (PreFrames(c) == 0 ==> v.ready == 0)
      modifies `frames, `buffer, `pre, `silence, `resume, `start
      ensures frames == v.t + 1
      ensures v.open && longest > 0 && v.t + 1 - v.start >= longest ==>
                && capped == Content(v.start, v.roll, v.t) != []
                && buffer == [] && silence == resume == 0 && PreRoll(pre, 0, frames)
      ensures v.open && !(longest > 0 && v.t + 1 - v.start >= longest) ==>
                capped == [] && Told(v.t, buffer, pre, silence, resume, start, v)
      ensures !v.open ==>
                capped == [] && buffer == [] && silence == resume == 0 && PreRoll(pre, Rolled(c, v.ready), frames)
    {
      OpenBuffer(buffer, start, v);
      frames := frames + 1;
      if buffer == [] && PreFrames(c) > 0 {
        Roll(v.ready);
      }
      capped := [];
      if longest > 0 && buffer != [] && frames - start >= longest {
        capped := buffer;
        Clear();
      }
      PreRollEmpty(frames);
    }

    /** One frame of the call: what it hands over is the chunk by which the view
        grows, frame by frame. */
    method Frame(i: Input) returns (flushed: seq<nat>)
      requires Valid()
      modifies this
      ensures Valid() && view == Next(c, cap, old(view), i)
      ensures flushed == Flushed(old(view), view)
    {
      ghost var v := view;
      NextSound(c, cap, v, i);
      OpenBuffer(buffer, start, v);
      var tolerance := Tolerance(c, if buffer == [] then 0.0 else Spoken(start, frames + 1), i.loud);
      var needed := ResumeNeeded(c, tolerance, i.noise);
      NextParts(c, cap, v, i);
      view := Next(c, cap, v, i);
      var capped := Arrive(CapFrames(c, cap, i.loud), v);
      if capped == [] {
        flushed := Listen(i, needed, Whole(tolerance * FPS as real), v, Rolled(c, v.ready));
      } else {
        flushed := Listen(i, needed, Whole(tolerance * FPS as real), Cut(v, v.t, false), 0);
        flushed := capped;
      }
    }

    /** A whole call: exactly the chunks of the rules come out, frame for frame. */
    method Run(inputs: seq<Input>) returns (utterances: seq<seq<nat>>)
      requires Valid()
      modifies this
      ensures Valid() && view == Call(c, cap, old(view), inputs)
      ensures Contents(old(view).chunks) + utterances == Contents(view.chunks)
    {
      utterances := [];
      for n := 0 to |inputs|
        invariant Valid() && view == Call(c, cap, old(view), inputs[..n])
        invariant Contents(old(view).chunks) + utterances == Contents(view.chunks)
      {
        assert inputs[..n + 1][..n] == inputs[..n];
        NextAdds(c, cap, view, inputs[n]);
        var flushed := Frame(inputs[n]);
        if flushed != [] {
          Seqs.Assoc(Contents(old(view).chunks), utterances, [flushed]);
          utterances := utterances + [flushed];
        }
      }
      assert inputs[..|inputs|] == inputs;
    }
  }
}
