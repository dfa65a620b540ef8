/** What the four repair passes guarantee together. */
module SanitizerLaws {
  import opened Texts
  import opened Messages
  import opened Sanitizer

  // ------------------------------------------------------------ vocabulary

  predicate NoTwins(ms: seq<Message>) {
    forall i | 0 < i < |ms| :: !Twins(ms[i - 1], ms[i])
  }

  /** All tool calls, in order. */
  function Calls(ms: seq<Message>): seq<ToolCall> {
    if ms == [] then []
    else
      var init, m := ms[..|ms| - 1], ms[|ms| - 1];
      if m.AI? then Calls(init) + m.calls else Calls(init)
  }

  /** The tool results with their batch numbers, in order. */
  function Results(ms: seq<Message>): seq<(nat, Message)> {
    if ms == [] then []
    else
      var init, m := ms[..|ms| - 1], ms[|ms| - 1];
      if m.Tool? then Results(init) + [(Batches(ms), m)] else Results(init)
  }

  /** The tool results that answer the latest non-tool message before them. */
  function Answers(ms: seq<Message>): seq<Message> {
    if ms == [] then []
    else
      var init, m := ms[..|ms| - 1], ms[|ms| - 1];
      if m.Tool? && m.callId in Open(init) then Answers(init) + [m] else Answers(init)
  }

  datatype Speaker = ByHuman | ByAI | BySystem

  predicate Speaks(m: Message, who: Speaker) {
    match who
    case ByHuman => m.Human?
    case ByAI => m.AI?
    case BySystem => m.System?
  }

  /** Everything one speaker says, white space aside. */
  function Said(ms: seq<Message>, who: Speaker): Text {
    if ms == [] then []
    else
      var init, m := ms[..|ms| - 1], ms[|ms| - 1];
      if Speaks(m, who) then Said(init, who) + Ink(m.content) else Said(init, who)
  }

  // ------------------------------------------------------------- pass 1 and 2

  lemma {:induction false} OpenSameCalls(a: seq<Message>, b: seq<Message>)
    requires |a| == |b|
    requires forall i | 0 <= i < |a| :: b[i] == a[i].(content := b[i].content)
    ensures Open(a) == Open(b)
    ensures Calls(a) == Calls(b)
    ensures Batches(a) == Batches(b)
  {
    if a != [] {
      OpenSameCalls(a[..|a| - 1], b[..|b| - 1]);
    }
  }

  lemma {:induction false} RepairedValid(ms: seq<Message>)
    ensures ToolValid(Repaired(ms))
    ensures Open(Repaired(ms)) == Open(ms)
    ensures Calls(Repaired(ms)) == Calls(ms)
    ensures forall who :: Said(Repaired(ms), who) == Said(ms, who)
  {
    if ms != [] {
      var init, m := ms[..|ms| - 1], ms[|ms| - 1];
      RepairedValid(init);
      var r := Repaired(init);
      var out := Repaired(ms);
      if out == r + [m] {
        assert out[..|out| - 1] == r;
        forall i | 0 <= i < |out| && out[i].Tool?
          ensures out[i].callId in Open(out[..i])
        {
          if i < |r| {
            assert out[..i] == r[..i];
          }
        }
      }
    }
  }

  lemma {:induction false} RepairedFixes(ms: seq<Message>)
    requires ToolValid(ms)
    ensures Repaired(ms) == ms
  {
    if ms != [] {
      var init := ms[..|ms| - 1];
      ValidPrefix(ms, |ms| - 1);
      RepairedFixes(init);
      assert ms == init + [ms[|ms| - 1]];
    }
  }

  lemma ValidPrefix(ms: seq<Message>, n: nat)
    requires ToolValid(ms) && n <= |ms|
    ensures ToolValid(ms[..n])
  {
    forall i | 0 <= i < n && ms[i].Tool?
      ensures ms[i].callId in Open(ms[..n][..i])
    {
      assert ms[..n][..i] == ms[..i];
    }
  }

  /** Exactly the answering tool results survive the repair. */
  lemma {:induction false} RepairedResults(ms: seq<Message>)
    ensures |Results(Repaired(ms))| == |Answers(ms)|
    ensures forall k | 0 <= k < |Answers(ms)| :: Results(Repaired(ms))[k].1 == Answers(ms)[k]
  {
    if ms != [] {
      var init, m := ms[..|ms| - 1], ms[|ms| - 1];
      RepairedResults(init);
      if Repaired(ms) != Repaired(init) {
        assert Repaired(ms)[..|Repaired(ms)| - 1] == Repaired(init);
      }
    }
  }

  // ------------------------------------------------------------------ pass 3

  lemma CompressedKeepsRoles(ms: seq<Message>)
    ensures forall i | 0 <= i < |ms| :: Compressed(ms)[i] == ms[i].(content := Compressed(ms)[i].content)
    ensures forall i | 0 <= i < |ms| && !ms[i].Tool? :: Compressed(ms)[i] == ms[i]
  {}

  lemma CompressedValid(ms: seq<Message>)
    requires ToolValid(ms)
    ensures ToolValid(Compressed(ms))
  {
    CompressedKeepsRoles(ms);
    var c := Compressed(ms);
    forall i | 0 <= i < |c| && c[i].Tool?
      ensures c[i].callId in Open(c[..i])
    {
      OpenSameCalls(ms[..i], c[..i]);
    }
  }

  lemma {:induction false} SaidSame(a: seq<Message>, b: seq<Message>, who: Speaker)
    requires |a| == |b|
    requires forall i | 0 <= i < |a| :: a[i] == b[i] || (a[i].Tool? && b[i].Tool?)
    ensures Said(a, who) == Said(b, who)
  {
    if a != [] {
      SaidSame(a[..|a| - 1], b[..|b| - 1], who);
    }
  }

  /** Result k of the compressed list: shrunk when its batch is old, else as it was. */
  function Aged(total: nat, r: (nat, Message)): (nat, Message) {
    if r.0 + KEEP_BATCHES <= total then (r.0, ShrunkMessage(r.1)) else r
  }

  /** `a` and its compressed form `b`, seen up to position n. */
  lemma {:induction false} ResultsAged(ms: seq<Message>, n: nat)
    requires n <= |ms|
    ensures |Results(Compressed(ms)[..n])| == |Results(ms[..n])|
    ensures forall k | 0 <= k < |Results(ms[..n])| ::
              Results(Compressed(ms)[..n])[k] == Aged(Batches(ms), Results(ms[..n])[k])
  {
    var c := Compressed(ms);
    if n > 0 {
      ResultsAged(ms, n - 1);
      assert ms[..n][..n - 1] == ms[..n - 1] && c[..n][..n - 1] == c[..n - 1];
      CompressedKeepsRoles(ms);
      OpenSameCalls(ms[..n], c[..n]);
    }
  }

  lemma CompressedResults(ms: seq<Message>)
    ensures |Results(Compressed(ms))| == |Results(ms)|
    ensures forall k | 0 <= k < |Results(ms)| :: Results(Compressed(ms))[k] == Aged(Batches(ms), Results(ms)[k])
  {
    ResultsAged(ms, |ms|);
    assert ms[..|ms|] == ms && Compressed(ms)[..|ms|] == Compressed(ms);
  }

  // ------------------------------------------------------------------ pass 4

  lemma {:induction false} MergedEnds(ms: seq<Message>)
    ensures Merged(ms) == [] <==> ms == []
    ensures ms != [] ==>
              var a, b := Merged(ms)[|Merged(ms)| - 1], ms[|ms| - 1];
              a.Tool? == b.Tool? && a.AI? == b.AI? && a.Human? == b.Human? && (a.Tool? ==> a == b)
  {
    if ms != [] {
      MergedEnds(ms[..|ms| - 1]);
    }
  }

  lemma {:induction false} MergedNoTwins(ms: seq<Message>)
    ensures NoTwins(Merged(ms))
  {
    if ms != [] {
      MergedNoTwins(ms[..|ms| - 1]);
    }
  }

  lemma {:induction false} MergedFixes(ms: seq<Message>)
    requires NoTwins(ms)
    ensures Merged(ms) == ms
  {
    if ms != [] {
      var init := ms[..|ms| - 1];
      MergedFixes(init);
      assert ms == init + [ms[|ms| - 1]];
      if init != [] {
        assert !Twins(ms[|ms| - 2], ms[|ms| - 1]);
      }
    }
  }

  /** One merging step seen from the functions that read the last message. */
  lemma AppendedShape(r: seq<Message>, m: Message)
    ensures var out := Appended(r, m);
            if r != [] && Twins(r[|r| - 1], m)
            then out[..|out| - 1] == r[..|r| - 1] && out[|out| - 1] == Fuse(r[|r| - 1], m)
            else out[..|out| - 1] == r && out[|out| - 1] == m
  {}

  lemma CallsPush(ms: seq<Message>, m: Message)
    ensures Calls(ms + [m]) == Calls(ms) + (if m.AI? then m.calls else [])
  {
    assert (ms + [m])[..|ms|] == ms;
  }

  lemma SaidPush(ms: seq<Message>, m: Message, who: Speaker)
    ensures Said(ms + [m], who) == Said(ms, who) + (if Speaks(m, who) then Ink(m.content) else [])
  {
    assert (ms + [m])[..|ms|] == ms;
  }

  lemma AppendedCalls(r: seq<Message>, m: Message)
    ensures Calls(Appended(r, m)) == Calls(r) + (if m.AI? then m.calls else [])
  {
    if r != [] && Twins(r[|r| - 1], m) {
      var front, last := r[..|r| - 1], r[|r| - 1];
      assert r == front + [last];
      CallsPush(front, last);
      CallsPush(front, Fuse(last, m));
    } else {
      CallsPush(r, m);
    }
  }

  lemma AppendedSaid(r: seq<Message>, m: Message, who: Speaker)
    ensures Said(Appended(r, m), who) == Said(r, who) + (if Speaks(m, who) then Ink(m.content) else [])
  {
    if r != [] && Twins(r[|r| - 1], m) {
      var front, last := r[..|r| - 1], r[|r| - 1];
      assert r == front + [last];
      InkFuse(last, m);
      SaidPush(front, last, who);
      SaidPush(front, Fuse(last, m), who);
    } else {
      SaidPush(r, m, who);
    }
  }

  lemma {:induction false} MergedCalls(ms: seq<Message>)
    ensures Calls(Merged(ms)) == Calls(ms)
  {
    if ms != [] {
      MergedCalls(ms[..|ms| - 1]);
      AppendedCalls(Merged(ms[..|ms| - 1]), ms[|ms| - 1]);
    }
  }

  lemma {:induction false} MergedResults(ms: seq<Message>)
    ensures Batches(Merged(ms)) == Batches(ms)
    ensures Results(Merged(ms)) == Results(ms)
  {
    if ms != [] {
      var init, m := ms[..|ms| - 1], ms[|ms| - 1];
      MergedResults(init);
      MergedEnds(init);
      AppendedShape(Merged(init), m);
    }
  }

  lemma ValidPush(ms: seq<Message>, m: Message)
    requires ToolValid(ms) && (m.Tool? ==> m.callId in Open(ms))
    ensures ToolValid(ms + [m])
  {
    forall i | 0 <= i < |ms + [m]| && (ms + [m])[i].Tool?
      ensures (ms + [m])[i].callId in Open((ms + [m])[..i])
    {
      assert (ms + [m])[..i] == ms[..i];
    }
  }

  lemma OpenPush(ms: seq<Message>, m: Message)
    ensures Open(ms + [m]) == match m { case AI(_, calls) => Ids(calls) case Tool(_, _) => Open(ms) case _ => {} }
  {
    assert (ms + [m])[..|ms|] == ms;
  }

  lemma AppendedValid(r: seq<Message>, m: Message)
    requires ToolValid(r) && (m.Tool? ==> m.callId in Open(r))
    ensures ToolValid(Appended(r, m))
  {
    if r != [] && Twins(r[|r| - 1], m) {
      ValidPrefix(r, |r| - 1);
      ValidPush(r[..|r| - 1], Fuse(r[|r| - 1], m));
    } else {
      ValidPush(r, m);
    }
  }

  lemma AppendedOpen(r: seq<Message>, m: Message)
    ensures Open(Appended(r, m)) >= match m { case AI(_, calls) => Ids(calls) case Tool(_, _) => Open(r) case _ => {} }
  {
    if r != [] && Twins(r[|r| - 1], m) {
      OpenPush(r[..|r| - 1], Fuse(r[|r| - 1], m));
    } else {
      OpenPush(r, m);
    }
  }

  lemma ToolIsOpen(ms: seq<Message>)
    requires ToolValid(ms) && ms != [] && ms[|ms| - 1].Tool?
    ensures ms[|ms| - 1].callId in Open(ms[..|ms| - 1])
  {}

  lemma {:induction false} MergedValid(ms: seq<Message>)
    requires ToolValid(ms)
    ensures ToolValid(Merged(ms))
    ensures Open(ms) <= Open(Merged(ms))
  {
    if ms != [] {
      var init, m := ms[..|ms| - 1], ms[|ms| - 1];
      ValidPrefix(ms, |ms| - 1);
      MergedValid(init);
      if m.Tool? {
        ToolIsOpen(ms);
      }
      AppendedValid(Merged(init), m);
      AppendedOpen(Merged(init), m);
    }
  }

  lemma InkGap(a: Text, b: Text)
    ensures Ink(a + [NL, NL] + b) == Ink(a) + Ink(b)
  {
    InkConcat(a + [NL, NL], b);
    InkConcat(a, [NL, NL]);
    assert [NL, NL][..1] == [NL];
    assert Ink([NL]) == Ink([]);
    assert Ink([NL, NL]) == [];
    assert Ink(a) + [] == Ink(a);
  }

  lemma InkFuse(a: Message, b: Message)
    requires Twins(a, b)
    ensures Ink(Fuse(a, b).content) == Ink(a.content) + Ink(b.content)
  {
    InkTrim(a.content + [NL, NL] + b.content);
    InkGap(a.content, b.content);
  }

  /** Merging loses no word of any speaker. */
  lemma {:induction false} MergedSaid(ms: seq<Message>, who: Speaker)
    ensures Said(Merged(ms), who) == Said(ms, who)
  {
    if ms != [] {
      MergedSaid(ms[..|ms| - 1], who);
      AppendedSaid(Merged(ms[..|ms| - 1]), ms[|ms| - 1], who);
    }
  }

  // --------------------------------------------------------- condensed results

  /** Two numerals followed by a non-digit agree only if their numbers agree. */
  lemma NumberSplit(a: nat, x: Text, b: nat, y: Text)
    requires x != [] && y != [] && !(48 <= x[0] <= 57) && !(48 <= y[0] <= 57)
    requires Decimal(a) + x == Decimal(b) + y
    ensures a == b && x == y
  {
    var s, t := Decimal(a), Decimal(b);
    DigitsFirst(s, x, t, y);
    DigitsFirst(t, y, s, x);
    assert s == (s + x)[..|s|] && t == (t + y)[..|t|];
    DecimalInjective(a, b);
    assert x == (s + x)[|s|..] && y == (t + y)[|t|..];
  }

  lemma DigitsFirst(s: Text, x: Text, t: Text, y: Text)
    requires x != [] && !(48 <= x[0] <= 57)
    requires forall c | c in t :: 48 <= c <= 57
    requires s + x == t + y
    ensures |t| <= |s|
  {
    var i := |s|;
    var at := (t + y)[i];
    assert i < |t| ==> at in t;
  }

  lemma {:induction false} DecimalShort(n: nat)
    ensures |Decimal(n)| <= 3 + n / 1000
  {
    if n >= 1000 {
      DecimalShort(n / 10);
      assert n / 10 / 1000 == n / 10000;
    } else {
      assert Pow10(3) == 10 * Pow10(2) && Pow10(2) == 10 * Pow10(1);
      DecimalLength(n, 3);
    }
  }

  lemma {:induction false} OneMoreLine(a: Text, b: Text)
    requires NL !in a
    ensures CountNewlines(a + [NL] + b) == 1 + CountNewlines(b)
  {
    var t := a + [NL] + b;
    if a == [] {
      assert t == [NL] + b && t[1..] == b;
    } else {
      assert t[1..] == a[1..] + [NL] + b;
      OneMoreLine(a[1..], b);
    }
  }

  lemma {:induction false} NoNewline(t: Text)
    requires NL !in t
    ensures CountNewlines(t) == 0
  {
    if t != [] {
      NoNewline(t[1..]);
    }
  }

  lemma TwoNumbers(pre: Text, mid: Text, end: Text, l: nat, c: nat, m: nat, d: nat)
    requires mid != [] && end != [] && !(48 <= mid[0] <= 57) && !(48 <= end[0] <= 57)
    requires pre + Decimal(l) + mid + Decimal(c) + end == pre + Decimal(m) + mid + Decimal(d) + end
    ensures l == m && c == d
  {
    var x, y := mid + (Decimal(c) + end), mid + (Decimal(d) + end);
    Regroup(pre, Decimal(l), mid, Decimal(c), end);
    Regroup(pre, Decimal(m), mid, Decimal(d), end);
    Cancel(pre, Decimal(l) + x, Decimal(m) + y);
    NumberSplit(l, x, m, y);
    Cancel(mid, Decimal(c) + end, Decimal(d) + end);
    NumberSplit(c, end, d, end);
  }

  lemma Regroup(a: Text, b: Text, c: Text, d: Text, e: Text)
    ensures a + b + c + d + e == a + (b + (c + (d + e)))
  {}

  lemma Cancel(p: Text, u: Text, v: Text)
    requires p + u == p + v
    ensures u == v
  {
    assert u == (p + u)[|p|..] && v == (p + v)[|p|..];
  }

  /** The two numbers in the head of a condensed result can be read back. */
  lemma HeadInjective(l: nat, c: nat, m: nat, d: nat)
    requires SummaryHead(l, c) == SummaryHead(m, d)
    ensures l == m && c == d
  {
    TwoNumbers(Lit("[Tool result compressed \U{2014} "), Lit(" lines, "), Lit(" chars]"), l, c, m, d);
  }

  lemma HeadNoNewline(l: nat, c: nat)
    ensures NL !in SummaryHead(l, c)
  {
  }

  lemma TwoLines(head: Text, tail: Text, head2: Text, tail2: Text)
    requires NL !in head && NL !in head2
    requires head + [NL] + tail == head2 + [NL] + tail2
    ensures head == head2
  {
    FirstLineOf(head, [NL] + tail);
    FirstLineOf(head2, [NL] + tail2);
    assert head + [NL] + tail == head + ([NL] + tail) && head2 + [NL] + tail2 == head2 + ([NL] + tail2);
  }

  /** A condensed text that stays the same when condensed again tells its own size. */
  lemma SettledSizes(content: Text)
    requires |Shrunk(content)| > COMPRESS_THRESHOLD && Shrunk(Shrunk(content)) == Shrunk(content)
    ensures CountNewlines(content) == CountNewlines(Shrunk(content)) && |content| == |Shrunk(content)|
  {
    var s := Shrunk(content);
    var lines, again := CountNewlines(content) + 1, CountNewlines(s) + 1;
    HeadNoNewline(lines, |content|);
    HeadNoNewline(again, |s|);
    TwoLines(SummaryHead(lines, |content|), Headline(content), SummaryHead(again, |s|), Headline(s));
    HeadInjective(lines, |content|, again, |s|);
  }

  /** A condensed text has two lines. */
  lemma TwoLinesLong(content: Text)
    requires |content| > COMPRESS_THRESHOLD
    ensures CountNewlines(Shrunk(content)) == 1
  {
    var head := SummaryHead(CountNewlines(content) + 1, |content|);
    HeadNoNewline(CountNewlines(content) + 1, |content|);
    OneMoreLine(head, Headline(content));
    NoNewline(Headline(content));
  }

  /** Condensing a second time changes nothing exactly when the first result
      is no longer than the threshold. */
  lemma ShrunkTwice(content: Text)
    ensures Shrunk(Shrunk(content)) == Shrunk(content) <==> |Shrunk(content)| <= COMPRESS_THRESHOLD
  {
    if |Shrunk(content)| > COMPRESS_THRESHOLD && Shrunk(Shrunk(content)) == Shrunk(content) {
      TwoLinesLong(content);
      DecimalShort(|content|);
      SettledSizes(content);
    }
  }

  /** Tool output of any realistic length condenses to at most 200 characters. */
  lemma ShrunkFits(content: Text)
    requires |content| + 1 < Pow10(19)
    ensures |Shrunk(content)| <= COMPRESS_THRESHOLD
  {
    DecimalLength(|content|, 19);
    DecimalLength(CountNewlines(content) + 1, 19);
  }

  // ------------------------------------------------------------ main results

  lemma CleanedShape(ms: seq<Message>)
    ensures forall i | 0 <= i < |ms| :: Cleaned(ms)[i] == ms[i].(content := Cleaned(ms)[i].content)
  {}

  lemma {:induction false} AnswersCleaned(ms: seq<Message>)
    ensures |Answers(Cleaned(ms))| == |Answers(ms)|
    ensures forall k | 0 <= k < |Answers(ms)| :: Answers(Cleaned(ms))[k] == CleanMessage(Answers(ms)[k])
  {
    if ms != [] {
      var init := ms[..|ms| - 1];
      AnswersCleaned(init);
      assert Cleaned(ms)[..|ms| - 1] == Cleaned(init);
      CleanedShape(init);
      OpenSameCalls(init, Cleaned(init));
    }
  }

  lemma NoTwinsSameRoles(a: seq<Message>, b: seq<Message>)
    requires NoTwins(a) && |a| == |b|
    requires forall i | 0 <= i < |a| :: b[i] == a[i].(content := b[i].content)
    ensures NoTwins(b)
  {
    forall i | 0 < i < |b|
      ensures !Twins(b[i - 1], b[i])
    {
      assert !Twins(a[i - 1], a[i]);
    }
  }

  /** The repaired list is well formed for strict model providers: every tool
      result answers an open call, no two neighbours share the human or the
      assistant role, no tool call is lost, and no speaker loses a word. */
  lemma SanitizedWellFormed(ms: seq<Message>)
    ensures ToolValid(Sanitized(ms))
    ensures NoTwins(Sanitized(ms))
    ensures Calls(Sanitized(ms)) == Calls(ms)
    ensures forall who :: Said(Sanitized(ms), who) == Said(Cleaned(ms), who)
  {
    var clean := Cleaned(ms);
    var repaired := Repaired(clean);
    var short := Compressed(repaired);
    CleanedShape(ms);
    OpenSameCalls(ms, clean);
    RepairedValid(clean);
    CompressedKeepsRoles(repaired);
    CompressedValid(repaired);
    OpenSameCalls(repaired, short);
    MergedValid(short);
    MergedNoTwins(short);
    MergedCalls(short);
    forall who
      ensures Said(Sanitized(ms), who) == Said(clean, who)
    {
      SaidSame(repaired, short, who);
      MergedSaid(short, who);
    }
  }

  /** Exactly the tool results that answer the latest non-tool message remain,
      in order; those outside the last two batches are condensed. */
  lemma SanitizedResults(ms: seq<Message>)
    ensures |Results(Sanitized(ms))| == |Answers(ms)|
    ensures forall k | 0 <= k < |Answers(ms)| ::
              var (batch, result) := Results(Sanitized(ms))[k];
              result == if batch + KEEP_BATCHES <= Batches(Sanitized(ms))
                        then ShrunkMessage(CleanMessage(Answers(ms)[k]))
                        else CleanMessage(Answers(ms)[k])
  {
    var clean := Cleaned(ms);
    var repaired := Repaired(clean);
    var short := Compressed(repaired);
    AnswersCleaned(ms);
    RepairedResults(clean);
    CompressedResults(repaired);
    CompressedKeepsRoles(repaired);
    OpenSameCalls(repaired, short);
    MergedResults(short);
  }

  /** Every condensed tool result of a list is at most 200 long. */
  predicate Short(ms: seq<Message>) {
    forall i | 0 <= i < |ms| && Old(ms, i) :: |Shrunk(ms[i].content)| <= COMPRESS_THRESHOLD
  }

  /** Every condensed tool result of the repaired list is at most 200 long. */
  predicate Settles(ms: seq<Message>) {
    Short(Repaired(Cleaned(ms)))
  }

  lemma {:induction false} ResultAt(ms: seq<Message>, i: nat)
    requires i < |ms| && ms[i].Tool?
    ensures (Batches(ms[..i + 1]), ms[i]) in Results(ms)
  {
    var init := ms[..|ms| - 1];
    if i == |ms| - 1 {
      assert ms[..i + 1] == ms;
    } else {
      ResultAt(init, i);
      assert init[..i + 1] == ms[..i + 1];
    }
  }

  lemma {:induction false} ResultIndex(ms: seq<Message>, r: (nat, Message)) returns (i: nat)
    requires r in Results(ms)
    ensures i < |ms| && ms[i].Tool? && r == (Batches(ms[..i + 1]), ms[i])
  {
    var init, last := ms[..|ms| - 1], |ms| - 1;
    if ms[last].Tool? && r == (Batches(ms), ms[last]) {
      i := last;
      assert ms[..i + 1] == ms;
    } else {
      i := ResultIndex(init, r);
      assert init[..i + 1] == ms[..i + 1];
    }
  }

  lemma OldMatches(a: seq<Message>, b: seq<Message>, i: nat) returns (j: nat)
    requires Batches(a) == Batches(b) && Results(a) == Results(b)
    requires i < |a| && Old(a, i)
    ensures j < |b| && Old(b, j) && b[j] == a[i]
  {
    ResultAt(a, i);
    j := ResultIndex(b, (Batches(a[..i + 1]), a[i]));
  }

  /** Condensing the old results of a list again does not change them. */
  predicate Settled(ms: seq<Message>) {
    forall i | 0 <= i < |ms| && Old(ms, i) :: Shrunk(ms[i].content) == ms[i].content
  }

  lemma CompressedFixed(ms: seq<Message>)
    ensures Compressed(ms) == ms <==> Settled(ms)
  {
    if Settled(ms) {
      assert forall i | 0 <= i < |ms| :: Compressed(ms)[i] == ms[i];
    } else {
      var i :| 0 <= i < |ms| && Old(ms, i) && Shrunk(ms[i].content) != ms[i].content;
      assert Compressed(ms)[i] != ms[i];
    }
  }

  lemma OldCompressed(ms: seq<Message>, i: nat)
    requires i < |ms|
    ensures Old(Compressed(ms), i) == Old(ms, i)
  {
    CompressedKeepsRoles(ms);
    OpenSameCalls(ms, Compressed(ms));
    OpenSameCalls(ms[..i + 1], Compressed(ms)[..i + 1]);
  }

  /** The merged list has the old results of the list before merging. */
  lemma OldAfterMerge(repaired: seq<Message>)
    ensures Settled(Merged(Compressed(repaired))) <==> Short(repaired)
  {
    var short, out := Compressed(repaired), Merged(Compressed(repaired));
    MergedResults(short);
    forall i | 0 <= i < |repaired| && Old(repaired, i)
      ensures exists j :: 0 <= j < |out| && Old(out, j) && out[j] == short[i]
    {
      OldCompressed(repaired, i);
      var j := OldMatches(short, out, i);
    }
    forall j | 0 <= j < |out| && Old(out, j)
      ensures exists i :: 0 <= i < |repaired| && Old(repaired, i) && out[j] == short[i]
    {
      var i := OldMatches(out, short, j);
      OldCompressed(repaired, i);
    }
    forall i | 0 <= i < |repaired| && Old(repaired, i)
      ensures Shrunk(short[i].content) == short[i].content
              <==> |Shrunk(repaired[i].content)| <= COMPRESS_THRESHOLD
    {
      ShrunkTwice(repaired[i].content);
    }
  }

  predicate NoSurrogates(ms: seq<Message>) {
    forall i | 0 <= i < |ms| :: forall c | c in ms[i].content :: !IsSurrogate(c)
  }

  lemma CleanedFixes(ms: seq<Message>)
    requires NoSurrogates(ms)
    ensures Cleaned(ms) == ms
  {}

  lemma TrimKeepsClean(t: Text)
    requires forall c | c in t :: !IsSurrogate(c)
    ensures forall c | c in Trim(t) :: !IsSurrogate(c)
  {
    TrimLeftIn(t);
  }

  lemma {:induction false} TrimLeftIn(t: Text)
    ensures forall c | c in TrimLeft(t) :: c in t
  {
    if t != [] && IsSpace(t[0]) {
      TrimLeftIn(t[1..]);
    }
  }

  lemma {:induction false} RepairedClean(ms: seq<Message>)
    requires NoSurrogates(ms)
    ensures NoSurrogates(Repaired(ms))
  {
    if ms != [] {
      RepairedClean(ms[..|ms| - 1]);
    }
  }

  lemma HeadClean(lines: nat, chars: nat)
    ensures forall c | c in SummaryHead(lines, chars) :: !IsSurrogate(c)
  {}

  lemma CompressedClean(ms: seq<Message>)
    requires NoSurrogates(ms)
    ensures NoSurrogates(Compressed(ms))
  {
    forall i | 0 <= i < |ms|
      ensures forall c | c in Shrunk(ms[i].content) :: !IsSurrogate(c)
    {
      HeadClean(CountNewlines(ms[i].content) + 1, |ms[i].content|);
    }
  }

  lemma FuseClean(a: Message, b: Message)
    requires Twins(a, b)
    requires (forall c | c in a.content :: !IsSurrogate(c)) && (forall c | c in b.content :: !IsSurrogate(c))
    ensures forall c | c in Fuse(a, b).content :: !IsSurrogate(c)
  {
    var t := a.content + [NL, NL] + b.content;
    assert forall c | c in t :: c in a.content || c == NL || c in b.content;
    TrimKeepsClean(t);
  }

  lemma {:induction false} MergedClean(ms: seq<Message>)
    requires NoSurrogates(ms)
    ensures NoSurrogates(Merged(ms))
  {
    if ms != [] {
      var r, m := Merged(ms[..|ms| - 1]), ms[|ms| - 1];
      MergedClean(ms[..|ms| - 1]);
      if r != [] && Twins(r[|r| - 1], m) {
        FuseClean(r[|r| - 1], m);
      }
    }
  }

  lemma SanitizedClean(ms: seq<Message>)
    ensures NoSurrogates(Sanitized(ms))
  {
    RepairedClean(Cleaned(ms));
    CompressedClean(Repaired(Cleaned(ms)));
    MergedClean(Compressed(Repaired(Cleaned(ms))));
  }

  /** Of a list that was repaired, only the condensing of old results may change anything. */
  lemma FixedExactly(out: seq<Message>)
    requires NoSurrogates(out) && ToolValid(out) && NoTwins(out)
    ensures Sanitized(out) == out <==> Settled(out)
  {
    CleanedFixes(out);
    RepairedFixes(out);
    CompressedKeepsRoles(out);
    NoTwinsSameRoles(out, Compressed(out));
    MergedFixes(Compressed(out));
    CompressedFixed(out);
  }

  /** Repairing twice equals repairing once exactly when every condensed result
      is at most 200 characters long. */
  lemma SanitizedTwice(ms: seq<Message>)
    ensures Sanitized(Sanitized(ms)) == Sanitized(ms) <==> Settles(ms)
  {
    SanitizedClean(ms);
    SanitizedWellFormed(ms);
    FixedExactly(Sanitized(ms));
    OldAfterMerge(Repaired(Cleaned(ms)));
  }

  lemma {:induction false} RepairedFrom(ms: seq<Message>)
    ensures forall m | m in Repaired(ms) :: m in ms
  {
    if ms != [] {
      RepairedFrom(ms[..|ms| - 1]);
    }
  }

  /** In practice: no tool output has 10^19 characters, so repairing is idempotent. */
  lemma SanitizedIdempotent(ms: seq<Message>)
    requires forall m | m in ms && m.Tool? :: |m.content| + 1 < Pow10(19)
    ensures Sanitized(Sanitized(ms)) == Sanitized(ms)
  {
    var clean := Cleaned(ms);
    var repaired := Repaired(clean);
    RepairedFrom(clean);
    forall i | 0 <= i < |repaired| && Old(repaired, i)
      ensures |Shrunk(repaired[i].content)| <= COMPRESS_THRESHOLD
    {
      assert repaired[i] in clean;
      var j :| 0 <= j < |clean| && clean[j] == repaired[i];
      assert ms[j] in ms && |clean[j].content| == |ms[j].content|;
      ShrunkFits(repaired[i].content);
    }
    SanitizedTwice(ms);
  }
}
