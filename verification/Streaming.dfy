/** Speaking while the answer streams in (ChatAgent._stream_with_sentences in
    pawlia/agents/chat.py). */
module Streaming {
  import Seqs
  import opened Errors
  import opened Texts
  import opened DayLog
  import opened DayLogSearch
  import opened Sentences
  import opened Thinking
  import opened CallMarkers

  /** A sentence as it is spoken: cleaned, unless nothing is left of it. */
  function Uttered(cleaner: Text -> Text, sentence: Text): seq<Text> {
    if Trim(cleaner(sentence)) != [] then [cleaner(sentence)] else []
  }

  function Spoken(cleaner: Text -> Text, sentences: seq<Text>): seq<Text> {
    if sentences == [] then []
    else Spoken(cleaner, sentences[..|sentences| - 1]) + Uttered(cleaner, sentences[|sentences| - 1])
  }

  /** The end of an answer, spoken at last. */
  function Flush(cleaner: Text -> Text, rest: Text): seq<Text> {
    if Trim(cleaner(rest)) != [] then [Trim(cleaner(rest))] else []
  }

  /** Speaking a whole text at once. */
  function Batch(cleaner: Text -> Text, t: Text): seq<Text> {
    Spoken(cleaner, Sentences.Split(t).0) + Flush(cleaner, Sentences.Split(t).1)
  }

  function Concat(chunks: seq<Text>): Text {
    if chunks == [] then [] else Concat(chunks[..|chunks| - 1]) + chunks[|chunks| - 1]
  }

  lemma SpokenPush(cleaner: Text -> Text, x: seq<Text>, s: Text)
    ensures Spoken(cleaner, x + [s]) == Spoken(cleaner, x) + Uttered(cleaner, s)
  {
    assert (x + [s])[..|x|] == x;
  }

  lemma SpokenJoinStep(cleaner: Text -> Text, x: seq<Text>, y: seq<Text>, s: Text)
    requires Spoken(cleaner, x + y) == Spoken(cleaner, x) + Spoken(cleaner, y)
    ensures Spoken(cleaner, x + (y + [s])) == Spoken(cleaner, x) + Spoken(cleaner, y + [s])
  {
    Seqs.Assoc(x, y, [s]);
    SpokenPush(cleaner, x + y, s);
    SpokenPush(cleaner, y, s);
    Seqs.Assoc(Spoken(cleaner, x), Spoken(cleaner, y), Uttered(cleaner, s));
  }

  lemma LastApart(y: seq<Text>)
    requires y != []
    ensures y == y[..|y| - 1] + [y[|y| - 1]]
  {}

  lemma SpokenNothing(cleaner: Text -> Text, x: seq<Text>)
    ensures Spoken(cleaner, x + []) == Spoken(cleaner, x) + Spoken(cleaner, [])
  {
    assert x + [] == x;
  }

  lemma {:induction false} SpokenJoin(cleaner: Text -> Text, x: seq<Text>, y: seq<Text>)
    ensures Spoken(cleaner, x + y) == Spoken(cleaner, x) + Spoken(cleaner, y)
  {
    if y == [] {
      SpokenNothing(cleaner, x);
    } else {
      var init, s := y[..|y| - 1], y[|y| - 1];
      SpokenJoin(cleaner, x, init);
      SpokenJoinStep(cleaner, x, init, s);
      LastApart(y);
    }
  }

  method Speak(cleaner: Text -> Text, sentences: seq<Text>) returns (spoken: seq<Text>)
    ensures spoken == Spoken(cleaner, sentences)
  {
    spoken := [];
    for k := 0 to |sentences|
      invariant spoken == Spoken(cleaner, sentences[..k])
    {
      assert sentences[..k + 1][..k] == sentences[..k];
      var s := cleaner(sentences[k]);
      if Trim(s) != [] {
        spoken := spoken + [s];
      }
    }
    assert sentences[..|sentences|] == sentences;
  }

  /** Of the clean text, the sentences up to `emitted` were spoken and the rest is no
      complete sentence. */
  predicate Caught(cleaner: Text -> Text, clean: Text, emitted: nat, spoken: seq<Text>) {
    && emitted <= |clean|
    && clean[emitted..] == Sentences.Split(clean).1
    && spoken == Spoken(cleaner, Sentences.Split(clean).0)
  }

  lemma StripClosed(g: Tags, t: Text)
    ensures Closed(StripThinking(g, t))
  {}

  lemma SeamAt(clean: Text, more: Text, emitted: nat)
    requires clean <= more && emitted <= |clean|
    ensures var d := more[|clean|..]; more == clean + d && more[emitted..] == clean[emitted..] + d
  {}

  lemma Resumed(clean: Text, more: Text, emitted: nat)
    requires clean <= more && Closed(clean) && emitted <= |clean| && clean[emitted..] == Sentences.Split(clean).1
    ensures var r := Sentences.Split(more[emitted..]);
            Sentences.Split(more) == (Sentences.Split(clean).0 + r.0, r.1)
  {
    SeamAt(clean, more, emitted);
    SplitGrows(clean, more[|clean|..]);
  }

  /** More clean text has come: speaking the new complete sentences catches up. */
  lemma CatchUp(cleaner: Text -> Text, clean: Text, more: Text, emitted: nat, spoken: seq<Text>)
    requires Caught(cleaner, clean, emitted, spoken) && clean <= more && Closed(clean)
    ensures var r := Sentences.Split(more[emitted..]);
            && |r.1| <= |more|
            && Caught(cleaner, more, |more| - |r.1|, spoken + Spoken(cleaner, r.0))
  {
    Resumed(clean, more, emitted);
    RestIsEnd(more);
    SpokenJoin(cleaner, Sentences.Split(clean).0, Sentences.Split(more[emitted..]).0);
  }

  lemma {:induction false} ConcatStart(chunks: seq<Text>, i: nat)
    requires i <= |chunks|
    ensures Concat(chunks[..i]) <= Concat(chunks)
  {
    if i < |chunks| {
      ConcatStart(chunks[..|chunks| - 1], i);
      assert chunks[..|chunks| - 1][..i] == chunks[..i];
    } else {
      assert chunks[..i] == chunks;
    }
  }

  lemma PrefixTagFree(g: Tags, x: Text, t: Text)
    requires x <= t && TagFree(g, t)
    ensures TagFree(g, x)
  {
    assert t == x + t[|x|..];
    TagFreeStart(g, x, t[|x|..]);
  }

  /** The text of the first i chunks has the marker of a written-out tool call. */
  predicate MarkedAt(wordy: Code -> bool, chunks: seq<Text>, i: nat)
    requires i <= |chunks|
  {
    Marked(wordy, Concat(chunks[..i]))
  }

  predicate FirstMark(wordy: Code -> bool, chunks: seq<Text>, cut: nat) {
    && 0 < cut <= |chunks| && MarkedAt(wordy, chunks, cut)
    && forall j | 0 <= j < cut :: !MarkedAt(wordy, chunks, j)
  }

  predicate NeverMarked(wordy: Code -> bool, chunks: seq<Text>, n: nat)
    requires n <= |chunks|
  {
    forall j | 0 <= j <= n :: !MarkedAt(wordy, chunks, j)
  }

  /** What is known while the stream is heard: everything was caught up with, or a
      marker has come and silenced the rest. */
  predicate Heard(g: Tags, cleaner: Text -> Text, wordy: Code -> bool, chunks: seq<Text>, n: nat,
                  on: bool, emitted: nat, spoken: seq<Text>, cut: nat)
    requires n <= |chunks|
  {
    if on then
      && NeverMarked(wordy, chunks, n)
      && Caught(cleaner, StripThinking(g, Concat(chunks[..n])), emitted, spoken)
    else
      && cut <= n && FirstMark(wordy, chunks, cut)
      && spoken == Spoken(cleaner, Sentences.Split(Clean(g, chunks, cut)).0)
  }

  lemma ConcatNext(chunks: seq<Text>, n: nat)
    requires n < |chunks|
    ensures Concat(chunks[..n + 1]) == Concat(chunks[..n]) + chunks[n]
  {
    assert chunks[..n + 1][..n] == chunks[..n];
  }

  lemma EmptyChunk(g: Tags, cleaner: Text -> Text, wordy: Code -> bool, chunks: seq<Text>, n: nat,
                   on: bool, emitted: nat, spoken: seq<Text>, cut: nat)
    requires n < |chunks| && chunks[n] == [] && Heard(g, cleaner, wordy, chunks, n, on, emitted, spoken, cut)
    ensures Heard(g, cleaner, wordy, chunks, n + 1, on, emitted, spoken, cut)
  {
    ConcatNext(chunks, n);
    assert Concat(chunks[..n + 1]) == Concat(chunks[..n]);
    if on {
      forall j | 0 <= j <= n + 1 ensures !MarkedAt(wordy, chunks, j) {
        assert !MarkedAt(wordy, chunks, n);
      }
    }
  }

  /** `text[n:]` */
  function From(t: Text, n: nat): (r: Text)
    ensures |r| <= |t|
  {
    if n <= |t| then t[n..] else []
  }

  /** What hearing more text does: the sentences spoken so far, how much of the clean
      text that is, and whether to go on. */
  datatype State = State(spoken: seq<Text>, emitted: nat, on: bool)

  function Heed(g: Tags, cleaner: Text -> Text, wordy: Code -> bool, raw: Text, s: State): State {
    if Unclosed(g, raw) then s else HeedClean(cleaner, Marked(wordy, raw), StripThinking(g, raw), s)
  }

  function HeedClean(cleaner: Text -> Text, marked: bool, clean: Text, s: State): State {
    var r := Sentences.Split(From(clean, s.emitted));
    RestIsEnd(From(clean, s.emitted));
    if marked then State(s.spoken + Spoken(cleaner, r.0), |clean|, false)
    else if From(clean, s.emitted) == [] then s
    else State(s.spoken + Spoken(cleaner, r.0), |clean| - |r.1|, true)
  }

  lemma NextUnmarked(wordy: Code -> bool, chunks: seq<Text>, n: nat)
    requires n < |chunks| && NeverMarked(wordy, chunks, n)
    ensures if MarkedAt(wordy, chunks, n + 1) then FirstMark(wordy, chunks, n + 1)
            else NeverMarked(wordy, chunks, n + 1)
  {}

  lemma CleanCatchesUp(cleaner: Text -> Text, marked: bool, before: Text, clean: Text, s: State)
    requires s.on && before <= clean && Closed(before) && Caught(cleaner, before, s.emitted, s.spoken)
    ensures var w := HeedClean(cleaner, marked, clean, s);
            && w.on == !marked
            && w.spoken == Spoken(cleaner, Sentences.Split(clean).0)
            && (w.on ==> Caught(cleaner, clean, w.emitted, w.spoken))
  {
    CatchUp(cleaner, before, clean, s.emitted, s.spoken);
    if clean[s.emitted..] == [] {
      assert before == clean;
    }
  }

  /** Hearing more plain text catches up with it. */
  lemma HeedCatchesUp(g: Tags, cleaner: Text -> Text, wordy: Code -> bool, raw: Text, delta: Text, s: State)
    requires TagFree(g, raw + delta) && s.on
    requires Caught(cleaner, StripThinking(g, raw), s.emitted, s.spoken)
    ensures var clean := StripThinking(g, raw + delta);
            var w := Heed(g, cleaner, wordy, raw + delta, s);
            && w.on == !Marked(wordy, raw + delta)
            && w.spoken == Spoken(cleaner, Sentences.Split(clean).0)
            && (w.on ==> Caught(cleaner, clean, w.emitted, w.spoken))
  {
    StripGrows(g, raw, delta);
    PlainText(g, raw + delta);
    StripClosed(g, raw);
    CleanCatchesUp(cleaner, Marked(wordy, raw + delta), StripThinking(g, raw), StripThinking(g, raw + delta), s);
  }

  /** One chunk of plain text: the new sentences are spoken, marker or not. */
  lemma PlainChunk(g: Tags, cleaner: Text -> Text, wordy: Code -> bool, chunks: seq<Text>, n: nat, s: State, cut: nat)
    requires n < |chunks| && TagFree(g, Concat(chunks[..n + 1])) && s.on
    requires Heard(g, cleaner, wordy, chunks, n, true, s.emitted, s.spoken, cut)
    ensures var w := Heed(g, cleaner, wordy, Concat(chunks[..n + 1]), s);
            Heard(g, cleaner, wordy, chunks, n + 1, w.on, w.emitted, w.spoken, if w.on then cut else n + 1)
  {
    ConcatNext(chunks, n);
    NextUnmarked(wordy, chunks, n);
    HeedCatchesUp(g, cleaner, wordy, Concat(chunks[..n]), chunks[n], s);
  }

  /** The body of the stream loop, for a chunk that is not empty. */
  method Hear(g: Tags, cleaner: Text -> Text, wordy: Code -> bool, raw: Text, s: State) returns (w: State)
    requires s.on
    ensures w == Heed(g, cleaner, wordy, raw, s)
  {
    if Unclosed(g, raw) {
      return s;
    }
    var clean := StripThinking(g, raw);
    var latest := From(clean, s.emitted);
    var sentences, rest := SplitSentences(latest);
    RestIsEnd(latest);
    if Marked(wordy, raw) {
      var more := [];
      if latest != [] {
        more := Speak(cleaner, sentences);
      }
      w := State(s.spoken + more, |clean|, false);
    } else if latest == [] {
      w := s;
    } else {
      var more := Speak(cleaner, sentences);
      w := State(s.spoken + more, |clean| - |rest|, true);
    }
  }

  /** The clean text of the first i chunks. */
  function Clean(g: Tags, chunks: seq<Text>, i: nat): Text
    requires i <= |chunks|
  {
    StripThinking(g, Concat(chunks[..i]))
  }

  /** What was spoken when the stream is over. */
  ghost predicate Right(g: Tags, cleaner: Text -> Text, wordy: Code -> bool, chunks: seq<Text>, spoken: seq<Text>) {
    && (!Marked(wordy, Concat(chunks)) ==> spoken == Batch(cleaner, StripThinking(g, Concat(chunks))))
    && forall cut: nat | FirstMark(wordy, chunks, cut) ::
         spoken == Spoken(cleaner, Sentences.Split(Clean(g, chunks, cut)).0)
  }

  lemma MarksOnce(wordy: Code -> bool, chunks: seq<Text>, a: nat, b: nat)
    requires FirstMark(wordy, chunks, a) && FirstMark(wordy, chunks, b)
    ensures a == b
  {}

  lemma MarkedLater(wordy: Code -> bool, chunks: seq<Text>, i: nat)
    requires i <= |chunks| && MarkedAt(wordy, chunks, i)
    ensures Marked(wordy, Concat(chunks))
  {
    ConcatStart(chunks, i);
    var t := Concat(chunks);
    assert t == Concat(chunks[..i]) + t[|Concat(chunks[..i])|..];
    MarkedGrows(wordy, Concat(chunks[..i]), t[|Concat(chunks[..i])|..]);
  }

  lemma OneCut(g: Tags, cleaner: Text -> Text, wordy: Code -> bool, chunks: seq<Text>, spoken: seq<Text>, cut: nat)
    requires FirstMark(wordy, chunks, cut)
    requires spoken == Spoken(cleaner, Sentences.Split(Clean(g, chunks, cut)).0)
    ensures Right(g, cleaner, wordy, chunks, spoken)
  {
    MarkedLater(wordy, chunks, cut);
    forall c: nat | FirstMark(wordy, chunks, c) ensures c == cut {
      MarksOnce(wordy, chunks, c, cut);
    }
  }

  lemma NoCut(g: Tags, cleaner: Text -> Text, wordy: Code -> bool, chunks: seq<Text>, spoken: seq<Text>)
    requires NeverMarked(wordy, chunks, |chunks|)
    requires spoken == Batch(cleaner, StripThinking(g, Concat(chunks)))
    ensures Right(g, cleaner, wordy, chunks, spoken)
  {}

  lemma AllHeard(g: Tags, cleaner: Text -> Text, wordy: Code -> bool, chunks: seq<Text>, s: State, cut: nat)
    requires Heard(g, cleaner, wordy, chunks, |chunks|, s.on, s.emitted, s.spoken, cut)
    ensures var end := Flush(cleaner, From(StripThinking(g, Concat(chunks)), s.emitted));
            Right(g, cleaner, wordy, chunks, if s.on then s.spoken + end else s.spoken)
  {
    assert chunks[..|chunks|] == chunks;
    if s.on {
      NoCut(g, cleaner, wordy, chunks, s.spoken + Flush(cleaner, From(StripThinking(g, Concat(chunks)), s.emitted)));
    } else {
      OneCut(g, cleaner, wordy, chunks, s.spoken, cut);
    }
  }

  /** Streaming an answer. For text without tags, however it is cut into chunks, what
      is spoken is what speaking the whole text at once gives; a marker ends it after
      the sentences complete by then. */
  method Stream(g: Tags, cleaner: Text -> Text, wordy: Code -> bool, chunks: seq<Text>, listening: bool)
    returns (spoken: seq<Text>, raw: Text)
    ensures raw == Concat(chunks)
    ensures !listening ==> spoken == []
    ensures listening && TagFree(g, raw) ==> Right(g, cleaner, wordy, chunks, spoken)
  {
    raw := [];
    var s := State([], 0, listening);
    ghost var cut := 0;
    ghost var plain := listening && TagFree(g, Concat(chunks));
    StripNothing(g, cleaner);
    assert chunks[..0] == [];
    for n := 0 to |chunks|
      invariant raw == Concat(chunks[..n])
      invariant !listening ==> !s.on && s.spoken == []
      invariant plain ==> Heard(g, cleaner, wordy, chunks, n, s.on, s.emitted, s.spoken, cut)
    {
      ConcatNext(chunks, n);
      var delta := chunks[n];
      raw := raw + delta;
      if plain {
        PlainStep(g, cleaner, wordy, chunks, n, s, cut);
      }
      if delta != [] && s.on {
        s := Hear(g, cleaner, wordy, raw, s);
        cut := if s.on then cut else n + 1;
      }
    }
    assert chunks[..|chunks|] == chunks;
    if plain {
      AllHeard(g, cleaner, wordy, chunks, s, cut);
    }
    spoken := s.spoken;
    if s.on {
      var end := cleaner(From(StripThinking(g, raw), s.emitted));
      if Trim(end) != [] {
        spoken := spoken + [Trim(end)];
      }
    }
  }

  lemma PlainStep(g: Tags, cleaner: Text -> Text, wordy: Code -> bool, chunks: seq<Text>, n: nat, s: State, cut: nat)
    requires n < |chunks| && TagFree(g, Concat(chunks))
    requires Heard(g, cleaner, wordy, chunks, n, s.on, s.emitted, s.spoken, cut)
    ensures var w := if chunks[n] == [] || !s.on then s else Heed(g, cleaner, wordy, Concat(chunks[..n + 1]), s);
            Heard(g, cleaner, wordy, chunks, n + 1, w.on, w.emitted, w.spoken,
                  if w.on || !s.on then cut else n + 1)
  {
    if chunks[n] == [] {
      EmptyChunk(g, cleaner, wordy, chunks, n, s.on, s.emitted, s.spoken, cut);
    } else if s.on {
      ConcatStart(chunks, n + 1);
      PrefixTagFree(g, Concat(chunks[..n + 1]), Concat(chunks));
      PlainChunk(g, cleaner, wordy, chunks, n, s, cut);
    }
  }

  lemma StripNothing(g: Tags, cleaner: Text -> Text)
    ensures Concat([]) == []
    ensures TagFree(g, []) ==> Caught(cleaner, StripThinking(g, []), 0, [])
  {
    if TagFree(g, []) {
      PlainText(g, []);
      assert StripThinking(g, []) == [];
    }
  }

  // ------------------------------------------------------------- before the marker

  /** Where the first marker stands in the clean text. */
  function MarkIn(wordy: Code -> bool, raw: Text): int
    requires Marked(wordy, raw)
  {
    Marker(wordy, raw).value - (|raw| - |DropNewlines(raw)|)
  }

  lemma {:induction false} LeadingBreaks(t: Text, n: nat)
    requires n < |t| && t[n] != NL
    ensures |t| - |DropNewlines(t)| <= n
    ensures DropNewlines(t)[n - (|t| - |DropNewlines(t)|)] == t[n]
  {
    if t[0] == NL {
      LeadingBreaks(t[1..], n - 1);
    }
  }

  lemma {:induction false} InkStays(t: Text, n: nat)
    requires n < |t| && !IsSpace(t[n])
    ensures n < |TrimRight(t)| && TrimRight(t)[n] == t[n]
  {
    if IsSpace(t[|t| - 1]) {
      InkStays(t[..|t| - 1], n);
    }
  }

  /** The marker is in the clean text. */
  lemma MarkerKept(g: Tags, wordy: Code -> bool, raw: Text)
    requires TagFree(g, raw) && Marked(wordy, raw)
    ensures 0 <= MarkIn(wordy, raw) < |StripThinking(g, raw)|
    ensures StripThinking(g, raw)[MarkIn(wordy, raw)] == OPEN
  {
    PlainText(g, raw);
    LeadingBreaks(raw, Marker(wordy, raw).value);
    InkStays(DropNewlines(raw), MarkIn(wordy, raw));
  }

  /** The sentences that are complete before position m. */
  function Before(clean: Text, m: nat): seq<Text>
    requires m <= |clean|
  {
    Sentences.Split(clean[..m]).0
  }

  /** The sentences that end at m or later. */
  function Later(clean: Text, m: nat): seq<Text>
    requires m <= |clean|
  {
    Sentences.Split(Sentences.Split(clean[..m]).1 + clean[m..]).0
  }

  /** The sentences of a text are those before a marker and those that end behind its
      start; there are none of these exactly when no stop with white space comes. */
  lemma AtMarker(clean: Text, m: nat)
    requires m < |clean| && !IsSpace(clean[m])
    ensures Sentences.Split(clean).0 == Before(clean, m) + Later(clean, m)
    ensures Later(clean, m) == [] <==> End(clean[m..]) == |clean[m..]|
  {
    assert clean == clean[..m] + clean[m..];
    SplitGrows(clean[..m], clean[m..]);
    SplitRest(clean[..m]);
    EndLater(Sentences.Split(clean[..m]).1, clean[m..]);
  }

  /** The cleaner leaves nothing of any of the sentences. */
  predicate Wiped(cleaner: Text -> Text, sentences: seq<Text>) {
    sentences == []
    || (var n := |sentences| - 1; Trim(cleaner(sentences[n])) == [] && Wiped(cleaner, sentences[..n]))
  }

  lemma {:induction false} WipedExactly(cleaner: Text -> Text, sentences: seq<Text>)
    ensures Spoken(cleaner, sentences) == [] <==> Wiped(cleaner, sentences)
  {
    if sentences != [] {
      WipedExactly(cleaner, sentences[..|sentences| - 1]);
    }
  }

  /** Only the sentences complete before the marker are spoken, as the comment in the
      loop has it, if and only if from the start of the marker on no sentence ends in
      what has come with the chunk that completes it, or the cleaner leaves nothing of
      those that do. */
  lemma OnlyBefore(g: Tags, cleaner: Text -> Text, wordy: Code -> bool, chunks: seq<Text>, spoken: seq<Text>, cut: nat)
    requires TagFree(g, Concat(chunks)) && Right(g, cleaner, wordy, chunks, spoken) && FirstMark(wordy, chunks, cut)
    ensures var clean, m := Clean(g, chunks, cut), MarkIn(wordy, Concat(chunks[..cut]));
            && 0 <= m < |clean| && clean[m] == OPEN
            && (spoken == Spoken(cleaner, Before(clean, m))
                <==> End(clean[m..]) == |clean[m..]| || Wiped(cleaner, Later(clean, m)))
  {
    ConcatStart(chunks, cut);
    PrefixTagFree(g, Concat(chunks[..cut]), Concat(chunks));
    MarkerKept(g, wordy, Concat(chunks[..cut]));
    var clean, m := Clean(g, chunks, cut), MarkIn(wordy, Concat(chunks[..cut]));
    AtMarker(clean, m);
    SpokenJoin(cleaner, Before(clean, m), Later(clean, m));
    WipedExactly(cleaner, Later(clean, m));
    NothingMore(Spoken(cleaner, Before(clean, m)), Spoken(cleaner, Later(clean, m)));
  }

  lemma NothingMore(x: seq<Text>, y: seq<Text>)
    ensures x + y == x <==> y == []
  {
    assert |x + y| == |x| + |y|;
  }

  // ------------------------------------------------------------------- a witness

  lemma {:induction false} FreeWithout(p: Text, t: Text)
    requires p != [] && p[0] !in t
    ensures Free(p, t)
  {
    if t != [] {
      FreeWithout(p, t[1..]);
    }
  }

  lemma {:induction false} EndAt(t: Text, n: nat)
    requires n + 1 < |t| && IsStop(t[n]) && IsSpace(t[n + 1]) && forall k | 0 <= k < n :: !IsStop(t[k])
    ensures End(t) == n
  {
    if n > 0 {
      EndAt(t[1..], n - 1);
    }
  }

  lemma TextWithoutTags(t: Text)
    requires 60 !in t
    ensures TagFree(TAGS, t)
  {
    assert '<' as int == 60;
    FreeWithout(TAGS.think, t);
    FreeWithout(TAGS.thinking, t);
    FreeWithout(TAGS.endThink, t);
    FreeWithout(TAGS.endThinking, t);
    FreeWithout(TAGS.call, t);
    FreeWithout(TAGS.token, t);
  }

  /** A marker, a stop, a blank and a letter. */
  function Leak(marker: Text): Text {
    marker + [46] + [32] + [65]
  }

  lemma LeakSplit(marker: Text)
    requires marker != [] && !IsSpace(marker[0]) && forall c | c in marker :: !IsStop(c)
    ensures Sentences.Split(Leak(marker)) == ([marker + [46]], [65])
  {
    var t, n := Leak(marker), |marker|;
    EndAt(t, n);
    assert t[..n + 1] == marker + [46] && t[n + 1..] == [32, 65];
    assert [32, 65][1..] == [65];
    assert TrimLeft([32, 65]) == [65];
    assert Trim(marker + [46]) == marker + [46];
    assert !Ends([65]) && End([65]) == 1;
    assert Sentences.Split([65]).0 == [];
    assert [marker + [46]] + Sentences.Split([65]).0 == [marker + [46]];
  }

  lemma OneChunk(wordy: Code -> bool, t: Text)
    requires Marked(wordy, t)
    ensures [t][..1] == [t] && Concat([t]) == t && FirstMark(wordy, [t], 1)
  {
    var chunks: seq<Text> := [t];
    var none: seq<Text> := [];
    assert chunks[..0] == none && Concat(none) == [] && !Marked(wordy, []);
    assert chunks[..1] == chunks && Concat(chunks) == Concat(none) + t == t;
    assert MarkedAt(wordy, chunks, 1) && !MarkedAt(wordy, chunks, 0);
  }

  lemma LeakMarked(wordy: Code -> bool, marker: Text)
    requires Begins(wordy, CALL, marker)
    ensures marker != [] && marker[0] == OPEN && Marker(wordy, Leak(marker)) == Some(0)
  {
    CallEnded();
    BeginsMore(wordy, CALL, marker, [46] + [32] + [65]);
    assert Leak(marker) == marker + ([46] + [32] + [65]);
  }

  lemma LeakClean(g: Tags, wordy: Code -> bool, marker: Text)
    requires Begins(wordy, CALL, marker) && TagFree(g, Leak(marker))
    ensures StripThinking(g, Leak(marker)) == DropNewlines(Leak(marker)) == Leak(marker)
  {
    LeakMarked(wordy, marker);
    PlainText(g, Leak(marker));
  }

  lemma SpokenOne(cleaner: Text -> Text, sentence: Text)
    ensures Spoken(cleaner, [sentence]) == Uttered(cleaner, sentence)
  {
    SpokenPush(cleaner, [], sentence);
    assert [] + [sentence] == [sentence];
  }

  lemma SentenceInk(marker: Text)
    requires marker != [] && !IsSpace(marker[0])
    ensures Trim(marker + [46]) != []
  {
    assert (marker + [46])[0] == marker[0];
  }

  /** One chunk is enough to have a marker read out: it holds a marker and the end of a
      sentence behind it, and this sentence is spoken although none comes before. */
  lemma MarkerSpoken(g: Tags, cleaner: Text -> Text, wordy: Code -> bool, marker: Text, spoken: seq<Text>)
    requires Begins(wordy, CALL, marker) && forall c | c in marker :: !IsStop(c)
    requires TagFree(g, Leak(marker)) && Right(g, cleaner, wordy, [Leak(marker)], spoken)
    requires cleaner(marker + [46]) == marker + [46]
    ensures var chunks := [Leak(marker)];
            && FirstMark(wordy, chunks, 1) && MarkIn(wordy, Concat(chunks[..1])) == 0
            && Before(Clean(g, chunks, 1), 0) == []
    ensures spoken == [marker + [46]]
  {
    LeakMarked(wordy, marker);
    LeakClean(g, wordy, marker);
    OneChunk(wordy, Leak(marker));
    LeakSplit(marker);
    SpokenOne(cleaner, marker + [46]);
    SentenceInk(marker);
  }

  /** There are such markers, and texts with the tags that are really looked for. */
  lemma MarkerExists(wordy: Code -> bool) returns (marker: Text)
    requires wordy(102) && !wordy(PAREN)
    ensures Begins(wordy, CALL, marker) && TagFree(TAGS, Leak(marker))
    ensures forall c | c in marker :: !IsStop(c)
  {
    CallWritten(wordy);
    marker := Written(CALL);
    TextWithoutTags(Leak(marker));
  }

  // ------------------------------------------------------------- nothing is left unsaid

  /** Cleaning takes no more than white space. */
  ghost predicate Gentle(cleaner: Text -> Text) {
    forall s :: Ink(cleaner(s)) == Ink(s)
  }

  lemma {:induction false} InkOfBoth(x: seq<Text>, y: seq<Text>)
    ensures InkOfAll(x + y) == InkOfAll(x) + InkOfAll(y)
  {
    if x == [] {
      assert x + y == y;
    } else {
      assert (x + y)[1..] == x[1..] + y;
      InkOfBoth(x[1..], y);
      Seqs.Assoc(Ink(x[0]), InkOfAll(x[1..]), InkOfAll(y));
    }
  }

  lemma InkOfOne(t: Text)
    ensures InkOfAll([t]) == Ink(t)
  {
    assert [t][1..] == [];
    assert Ink(t) + [] == Ink(t);
  }

  lemma UtteredInk(cleaner: Text -> Text, s: Text)
    requires Gentle(cleaner)
    ensures InkOfAll(Uttered(cleaner, s)) == Ink(s)
  {
    InkTrim(cleaner(s));
    InkOfOne(cleaner(s));
  }

  lemma {:induction false} SpokenInk(cleaner: Text -> Text, sentences: seq<Text>)
    requires Gentle(cleaner)
    ensures InkOfAll(Spoken(cleaner, sentences)) == InkOfAll(sentences)
  {
    if sentences != [] {
      var init, s := sentences[..|sentences| - 1], sentences[|sentences| - 1];
      SpokenInk(cleaner, init);
      UtteredInk(cleaner, s);
      InkOfBoth(Spoken(cleaner, init), Uttered(cleaner, s));
      InkOfBoth(init, [s]);
      InkOfOne(s);
      LastApart(sentences);
    }
  }

  lemma FlushInk(cleaner: Text -> Text, rest: Text)
    requires Gentle(cleaner)
    ensures InkOfAll(Flush(cleaner, rest)) == Ink(rest)
  {
    InkTrim(cleaner(rest));
    InkOfOne(Trim(cleaner(rest)));
  }

  /** An answer without a marker is spoken to its last character, in order, but for white
      space and for what the cleaner takes. */
  lemma AllSpoken(g: Tags, cleaner: Text -> Text, wordy: Code -> bool, chunks: seq<Text>, spoken: seq<Text>)
    requires TagFree(g, Concat(chunks)) && !Marked(wordy, Concat(chunks)) && Gentle(cleaner)
    requires Right(g, cleaner, wordy, chunks, spoken)
    ensures InkOfAll(spoken) == Ink(Concat(chunks))
  {
    var t := Concat(chunks);
    var clean := StripThinking(g, t);
    PlainText(g, t);
    InkTrimRight(DropNewlines(t));
    InkDropped(t);
    SplitKeeps(clean);
    SpokenInk(cleaner, Sentences.Split(clean).0);
    FlushInk(cleaner, Sentences.Split(clean).1);
    InkOfBoth(Spoken(cleaner, Sentences.Split(clean).0), Flush(cleaner, Sentences.Split(clean).1));
  }

  lemma {:induction false} InkDropped(t: Text)
    ensures Ink(DropNewlines(t)) == Ink(t)
  {
    if t != [] && t[0] == NL {
      InkDropped(t[1..]);
      assert t == [NL] + t[1..];
      InkConcat([NL], t[1..]);
      assert [NL][..0] == [] && Ink([NL]) == [] + [];
    }
  }
}
