/** When utterances begin and end, in numbers (CallCore._audio_pipeline in
    pawlia/interfaces/call_core.py, pawlia/audio/vad.py): the frames of a call are
    counted from the start of the utterance, and with the default settings the frame
    that closes one can be said beforehand. */
module CallTiming {
  import opened Vad
  import opened Utterances
  import opened Endpointing

  // ------------------------------------------------------------ settings in use

  /** The tolerance after k frames with the default settings: 1.8 seconds, 0.12 more
      for each second spoken, and 3 at most. */
  lemma DefaultTolerance(c: Config, k: nat)
    requires c.silence == 1.8 && c.silenceMax == 3.0 && c.growth == 0.12
    ensures ToleranceFrames(c, k as real / 50.0, false) == if k < 500 then (9000 + 12 * k) / 100 else 150
  {
    var spoken := k as real / 50.0;
    assert Grown(c, spoken) == k as real * 0.0024;
    assert Base(c) == 1.8 && Ceiling(c) == 3.0;
    if k < 500 {
      assert Tolerance(c, spoken, false) * 50.0 == 90.0 + k as real * 0.12;
      FloorOfCents(9000 + 12 * k);
    } else {
      assert Tolerance(c, spoken, false) == 3.0;
    }
  }

  lemma FloorOfCents(n: nat)
    ensures (n as real * 0.01).Floor == n / 100
  {
    var q, r := n / 100, n % 100;
    assert n as real * 0.01 == q as real + r as real * 0.01;
  }

  /** In loud surroundings it is as long as set, but at least 1.2 seconds. */
  lemma LoudTolerance(c: Config, spoken: real)
    ensures c.loudSilence <= 1.2 ==> ToleranceFrames(c, spoken, true) == 60
    ensures c.loudSilence >= 1.2 ==>
              ToleranceFrames(c, spoken, true) as real <= 50.0 * c.loudSilence
              < ToleranceFrames(c, spoken, true) as real + 1.0
  {}

  /** The nearest whole number, the even one of two that are as near. */
  lemma RoundNearest(x: real)
    ensures Round(x) as real - 0.5 <= x <= Round(x) as real + 0.5
    ensures (x == Round(x) as real - 0.5 || x == Round(x) as real + 0.5) ==> Round(x) % 2 == 0
  {}

  /** With the default settings a return of speech has to last for 3 frames, and one more
      for each 100 frames spoken, up to 8. */
  lemma DefaultResume(c: Config, k: nat)
    requires c.silence == 1.8 && c.silenceMax == 3.0 && c.growth == 0.12
    requires c.minResume == 3 && c.resumeAtMax == 8
    ensures var n := ResumeFrames(c, Tolerance(c, k as real / 50.0, false));
            if k <= 500 then -50 <= 100 * (n - 3) - k <= 50 else n == 8
  {
    var spoken := k as real / 50.0;
    assert Grown(c, spoken) == k as real * 0.0024;
    assert Base(c) == 1.8 && Ceiling(c) == 3.0 && Span(c) == 5;
    var tolerance := Tolerance(c, spoken, false);
    if k <= 500 {
      assert tolerance - 1.8 == k as real * 0.0024;
      assert Share(c, tolerance) == k as real * 0.002;
      assert Scaled(Share(c, tolerance), 5) == k as real * 0.01;
      RoundNearest(k as real * 0.01);
    } else {
      assert tolerance == 3.0;
      ResumeEnds(c);
    }
  }

  /** `n` is the largest of two whole numbers and a real one rounded down, up to 20. */
  predicate LargestOf(m: nat, x: real, resume: int, n: int) {
    if m >= 20 || resume >= 20 || x >= 20.0 then n == 20
    else
      && m <= n < 20 && resume <= n && x < n as real + 1.0
      && (n == m || n == resume || n as real <= x)
  }

  /** Noise asks for more, but never for more than 20 frames. */
  lemma NeededExactly(c: Config, tolerance: real, noise: real)
    ensures LargestOf(c.minResume, Noisy(c.minResume, noise), ResumeFrames(c, tolerance),
                      ResumeNeeded(c, tolerance, noise))
  {
    LargestLimited(c.minResume, Noisy(c.minResume, noise), ResumeFrames(c, tolerance));
  }

  lemma LargestLimited(m: nat, x: real, resume: int)
    ensures LargestOf(m, x, resume, Strictest(m, x, resume))
  {
    WholeBelow(x);
  }

  lemma WholeBelow(x: real)
    ensures x >= 0.0 ==> Whole(x) as real <= x < Whole(x) as real + 1.0
    ensures x < 0.0 ==> Whole(x) == 0
  {}

  /** The cap in loud surroundings is its own where one is set; without a cap in quiet
      surroundings there is none. By default they are 8 and 15 seconds. */
  lemma CapExactly(c: Config, base: real, loud: bool)
    ensures base <= 0.0 ==> CapFrames(c, base, loud) == 0
    ensures base > 0.0 && (!loud || c.loudCap <= 0.0) ==>
              CapFrames(c, base, loud) as real <= 50.0 * base < CapFrames(c, base, loud) as real + 1.0
    ensures base > 0.0 && loud && c.loudCap > 0.0 ==>
              CapFrames(c, base, loud) as real <= 50.0 * c.loudCap < CapFrames(c, base, loud) as real + 1.0
    ensures base == 15.0 && c.loudCap == 8.0 ==> CapFrames(c, base, loud) == if loud then 400 else 750
  {}

  // ------------------------------------------------------------ whenever it begins

  /** These chunks, d frames later. */
  function Moved(chunks: seq<Chunk>, d: nat): seq<Chunk> {
    if chunks == [] then []
    else
      var k := chunks[|chunks| - 1];
      Moved(chunks[..|chunks| - 1], d) + [Chunk(k.start + d, k.roll, k.end + d, k.bargeIn)]
  }

  /** Two calls that differ only in that the second is d frames ahead. */
  predicate Ahead(v: View, w: View, d: nat) {
    && w.t == v.t + d && w.start == v.start + d
    && w.open == v.open && w.roll == v.roll && w.tail == v.tail && w.ready == v.ready
    && w.chunks == Moved(v.chunks, d)
  }

  lemma CutAhead(v: View, w: View, d: nat, end: nat, bargeIn: bool)
    requires Ahead(v, w, d)
    ensures Ahead(Cut(v, end, bargeIn), Cut(w, end + d, bargeIn), d)
  {
    var k := Chunk(v.start, v.roll, end, bargeIn);
    assert (v.chunks + [k])[..|v.chunks|] == v.chunks;
  }

  lemma ArriveAhead(v: View, w: View, d: nat, i: Input)
    requires Ahead(v, w, d) && v.t >= 40
    ensures Ahead(Arrive(v, i), Arrive(w, i), d)
    ensures Speaks(i, v.t + 1) == Speaks(i, w.t + 1)
    ensures Spoken(w.start, w.t + 1) == Spoken(v.start, v.t + 1)
  {}

  lemma ContinueAhead(c: Config, v: View, w: View, d: nat, i: Input)
    requires Ahead(v, w, d) && v.t >= 40
    ensures Ahead(Continue(c, v, i), Continue(c, w, i), d)
  {
    ArriveAhead(v, w, d, i);
    CutAhead(Arrive(v, i), Arrive(w, i), d, v.t + 1, i.playing);
  }

  lemma StartAhead(v: View, w: View, d: nat, i: Input, ready: nat)
    requires Ahead(v, w, d) && v.t >= 40
    ensures Ahead(Start(v, i, ready), Start(w, i, ready), d)
  {
    ArriveAhead(v, w, d, i);
  }

  lemma NextAhead(c: Config, cap: real, v: View, w: View, d: nat, i: Input)
    requires Ahead(v, w, d) && v.t >= 40
    ensures Ahead(Next(c, cap, v, i), Next(c, cap, w, i), d)
  {
    if Capped(c, cap, v, i) {
      CutAhead(v, w, d, v.t, false);
      StartAhead(Cut(v, v.t, false), Cut(w, w.t, false), d, i, 0);
    } else if v.open {
      ContinueAhead(c, v, w, d, i);
    } else {
      StartAhead(v, w, d, i, Rolled(c, v.ready));
    }
  }

  lemma NextArrives(c: Config, cap: real, v: View, i: Input)
    ensures Next(c, cap, v, i).t == v.t + 1
  {}

  lemma {:induction false} Arrives(c: Config, cap: real, v: View, inputs: seq<Input>)
    ensures Call(c, cap, v, inputs).t == v.t + |inputs|
  {
    if inputs != [] {
      var w := Call(c, cap, v, inputs[..|inputs| - 1]);
      Arrives(c, cap, v, inputs[..|inputs| - 1]);
      NextArrives(c, cap, w, inputs[|inputs| - 1]);
    }
  }

  /** Once the call has settled, it makes no difference when: the same frames d frames
      later open, hold and close the same utterances d frames later. */
  lemma {:induction false} CallAhead(c: Config, cap: real, v: View, w: View, d: nat, inputs: seq<Input>)
    requires Ahead(v, w, d) && v.t >= 40
    ensures Ahead(Call(c, cap, v, inputs), Call(c, cap, w, inputs), d)
  {
    if inputs != [] {
      var n := |inputs| - 1;
      CallAhead(c, cap, v, w, d, inputs[..n]);
      Arrives(c, cap, v, inputs[..n]);
      NextAhead(c, cap, Call(c, cap, v, inputs[..n]), Call(c, cap, w, inputs[..n]), d, inputs[n]);
    }
  }

  // ------------------------------------------------------------ where it begins

  /** The frame sounds like the caller, loud enough over the bot's voice if it plays. */
  predicate Talks(i: Input) {
    i.speechLike && (i.playing ==> i.loudEnough)
  }

  predicate NobodyTalks(inputs: seq<Input>) {
    forall i | i in inputs :: !Talks(i)
  }

  function Fewer(a: nat, b: nat): nat {
    if a < b then a else b
  }

  /** The first 40 frames of a call open nothing, whatever they sound like. */
  lemma {:induction false} Settling(c: Config, cap: real, inputs: seq<Input>)
    requires |inputs| <= 40
    ensures var w := Call(c, cap, SILENT, inputs);
            && w.t == |inputs| && !w.open && w.chunks == [] && w.heard == {}
            && w.ready == Fewer(|inputs|, PreFrames(c))
  {
    if inputs != [] {
      Settling(c, cap, inputs[..|inputs| - 1]);
    }
  }

  /** Between utterances the pre-roll gathers the frames since the last one, as many as
      it holds. */
  lemma {:induction false} Waiting(c: Config, cap: real, v: View, inputs: seq<Input>)
    requires !v.open && v.ready == 0 && NobodyTalks(inputs)
    ensures var w := Call(c, cap, v, inputs);
            && w.t == v.t + |inputs| && !w.open && w.chunks == v.chunks
            && w.ready == Fewer(|inputs|, PreFrames(c))
  {
    if inputs != [] {
      var n := |inputs| - 1;
      assert inputs[n] in inputs && forall i | i in inputs[..n] :: i in inputs;
      Waiting(c, cap, v, inputs[..n]);
    }
  }

  /** The frame at which the caller begins to talk opens an utterance there, with the
      frames since the last one, itself among them, as pre-roll. */
  lemma Opening(c: Config, cap: real, v: View, inputs: seq<Input>, i: Input)
    requires !v.open && v.ready == 0 && NobodyTalks(inputs) && Talks(i) && v.t + |inputs| >= 40
    ensures var w := Call(c, cap, v, inputs + [i]);
            && w.open && w.start == w.t == v.t + |inputs| + 1 && w.tail == [] && w.chunks == v.chunks
            && w.roll == Fewer(|inputs| + 1, PreFrames(c))
  {
    Waiting(c, cap, v, inputs);
    assert (inputs + [i])[..|inputs|] == inputs;
  }

  // ------------------------------------------------------------ where it ends

  predicate AllTalk(inputs: seq<Input>) {
    forall i | i in inputs :: Talks(i)
  }

  predicate AllQuiet(inputs: seq<Input>) {
    forall i | i in inputs :: !Talks(i) && !i.loud
  }

  /** An utterance of n frames is not yet cut for its length. */
  predicate Short(c: Config, cap: real, n: nat) {
    && (CapFrames(c, cap, false) == 0 || CapFrames(c, cap, false) >= n)
    && (CapFrames(c, cap, true) == 0 || CapFrames(c, cap, true) >= n)
  }

  /** None of these frames cuts an utterance of n frames. */
  predicate Uncapped(c: Config, cap: real, inputs: seq<Input>, n: nat) {
    forall i | i in inputs :: CapFrames(c, cap, i.loud) == 0 || CapFrames(c, cap, i.loud) >= n
  }

  lemma ShortUncapped(c: Config, cap: real, inputs: seq<Input>, n: nat, m: nat)
    requires Short(c, cap, m) && n <= m
    ensures Uncapped(c, cap, inputs, n)
  {}

  predicate Default(c: Config) {
    c.silence == 1.8 && c.silenceMax == 3.0 && c.growth == 0.12
  }

  /** The quiet frames that end an utterance of n frames of speech, by default. */
  function DefaultPause(n: nat): nat {
    Fewer((8976 + 12 * n) / 88, 150)
  }

  lemma {:induction false} CallConcat(c: Config, cap: real, v: View, a: seq<Input>, b: seq<Input>)
    ensures Call(c, cap, v, a + b) == Call(c, cap, Call(c, cap, v, a), b)
  {
    if b == [] {
      assert a + b == a;
    } else {
      assert (a + b)[..|a + b| - 1] == a + b[..|b| - 1];
      CallConcat(c, cap, v, a, b[..|b| - 1]);
    }
  }

  /** The caller has been talking since frame `start`, or fell silent `s` frames ago. */
  predicate Utters(v: View, w: View, start: nat, roll: nat, s: nat) {
    && w.open && w.start == start && w.roll == roll && w.chunks == v.chunks && Pauses(w.tail) == s
  }

  lemma {:induction false} Talking(c: Config, cap: real, v: View, talk: seq<Input>)
    requires !v.open && v.t >= 40 && talk != [] && AllTalk(talk)
    requires Uncapped(c, cap, talk, |talk|)
    ensures var w := Call(c, cap, v, talk);
            w.t == v.t + |talk| && Utters(v, w, v.t + 1, Rolled(c, v.ready), 0)
  {
    var n := |talk| - 1;
    assert talk[n] in talk && forall i | i in talk[..n] :: i in talk;
    if n > 0 {
      Talking(c, cap, v, talk[..n]);
      var w := Call(c, cap, v, talk[..n]);
      TailPush(w.tail, true);
    } else {
      assert talk[..n] == [];
    }
  }

  /** What has become of an utterance of n frames of speech after s quiet ones, at frame
      t, with the bot playing or not: it closes if the pause is long enough. */
  predicate Lapsed(v: View, x: View, start: nat, roll: nat, n: nat, s: nat, t: nat, playing: bool) {
    if s < DefaultPause(n) then x.t == t && Utters(v, x, start, roll, s)
    else !x.open && x.chunks == v.chunks + [Chunk(start, roll, t, playing)]
  }

  lemma QuietStep(c: Config, cap: real, v: View, w: View, i: Input, n: nat, s: nat)
    requires Default(c) && !Talks(i) && !i.loud && Short(c, cap, n + s + 1) && n >= 1
    requires w.t + 1 == w.start + n + s && Utters(v, w, w.start, w.roll, s) && s < DefaultPause(n)
    ensures Lapsed(v, Next(c, cap, w, i), w.start, w.roll, n, s + 1, w.t + 1, i.playing)
  {
    var k := n + s;
    TailPush(w.tail, false);
    DefaultTolerance(c, k);
    assert Spoken(w.start, w.t + 1) == k as real / 50.0;
    assert Tolerated(c, w, i) == if k < 500 then (9000 + 12 * k) / 100 else 150;
    assert s + 1 >= Tolerated(c, w, i) <==> s + 1 >= DefaultPause(n);
  }

  /** The pause as it grows, frame by frame, until the utterance closes. */
  lemma {:induction false} Pausing(c: Config, cap: real, v: View, w: View, quiet: seq<Input>, n: nat)
    requires Default(c) && AllQuiet(quiet) && Short(c, cap, n + |quiet|) && n >= 1
    requires w.t + 1 == w.start + n && Utters(v, w, w.start, w.roll, 0)
    requires quiet != [] && |quiet| <= DefaultPause(n)
    ensures Lapsed(v, Call(c, cap, w, quiet), w.start, w.roll, n, |quiet|, w.t + |quiet|, quiet[|quiet| - 1].playing)
  {
    var s := |quiet| - 1;
    var i, init := quiet[s], quiet[..s];
    assert i in quiet && forall j | j in init :: j in quiet;
    var x := Call(c, cap, w, init);
    if s > 0 {
      Pausing(c, cap, v, w, init, n);
    }
    QuietStep(c, cap, v, x, i, n, s);
  }

  /** With the default settings, in quiet surroundings and whenever it begins: an
      utterance of n frames of speech is closed by exactly the quiet frame with the number
      (8976 + 12 n) / 88, or 150 if that is more, and not before. The chunk runs from
      the first frame of speech, after its pre-roll, to this frame. */
  lemma ClosedExactly(c: Config, cap: real, v: View, talk: seq<Input>, quiet: seq<Input>)
    requires Default(c) && !v.open && v.t >= 40
    requires talk != [] && AllTalk(talk) && quiet != [] && AllQuiet(quiet)
    requires Short(c, cap, |talk| + |quiet|) && |quiet| <= DefaultPause(|talk|)
    ensures Lapsed(v, Call(c, cap, v, talk + quiet), v.t + 1, Rolled(c, v.ready), |talk|, |quiet|,
                   v.t + |talk| + |quiet|, quiet[|quiet| - 1].playing)
  {
    ShortUncapped(c, cap, talk, |talk|, |talk| + |quiet|);
    Talking(c, cap, v, talk);
    CallConcat(c, cap, v, talk, quiet);
    var w := Call(c, cap, v, talk);
    Pausing(c, cap, v, w, quiet, |talk|);
  }

  /** Fifty frames of speech, a second of it: the 108th quiet frame closes, the 107th does
      not. After 352 frames of speech and more it is the 150th, after 3 seconds. */
  lemma ClosedAfterOneSecond()
    ensures DefaultPause(50) == 108 && DefaultPause(1) == 102
    ensures forall n: nat :: DefaultPause(n) == 150 <==> n >= 352
  {}

  /** An utterance of n frames was cut for its length, and the next one begins at once. */
  predicate Flushed(v: View, x: View, start: nat, roll: nat, n: nat)
    requires n >= 1
  {
    && x.chunks == v.chunks + [Chunk(start, roll, start + n - 1, false)]
    && x.open && x.start == x.t == start + n && x.roll == 0 && x.tail == []
  }

  lemma FlushStep(c: Config, cap: real, v: View, w: View, i: Input, start: nat, roll: nat, n: nat)
    requires Utters(v, w, start, roll, 0) && Talks(i) && n >= 1 && w.t + 1 == start + n && w.t >= 40
    requires CapFrames(c, cap, i.loud) == n
    ensures Flushed(v, Next(c, cap, w, i), start, roll, n)
  {
    assert Capped(c, cap, w, i);
    assert Next(c, cap, w, i) == Start(Cut(w, w.t, false), i, 0);
  }

  /** Who goes on talking is cut at the cap: by default in quiet surroundings after 750
      frames, 15 seconds, and in loud ones after 400. The next frame begins an utterance at
      once, without pre-roll. */
  lemma FlushedExactly(c: Config, v: View, talk: seq<Input>, i: Input)
    requires !v.open && v.t >= 40 && AllTalk(talk) && Talks(i) && c.loudCap == 8.0
    requires forall k | k in talk :: k.loud == i.loud
    requires |talk| == if i.loud then 400 else 750
    ensures Flushed(v, Next(c, 15.0, Call(c, 15.0, v, talk), i), v.t + 1, Rolled(c, v.ready), |talk|)
  {
    var n := |talk|;
    CapExactly(c, 15.0, i.loud);
    assert Uncapped(c, 15.0, talk, n);
    Talking(c, 15.0, v, talk);
    FlushStep(c, 15.0, v, Call(c, 15.0, v, talk), i, v.t + 1, Rolled(c, v.ready), n);
  }
}
