/** What a condensed prompt keeps (pawlia/llm.py): the first message, a note for the
    middle, and the end of the conversation; and that no request loses the question
    it was made for. */
module PromptTail {
  import opened Seqs
  import opened Texts
  import opened Messages
  import opened Errors
  import opened Condense
  import opened Fallback
  import CondenseLaws

  // ------------------------------------------------------------ one message

  /** `k` stands for `m`: the same message, except that of a tool result of more than
      800 characters only the first 800 are certain. */
  predicate KeptAs(m: Message, k: Message) {
    match m
    case Tool(content, id) =>
      && k.Tool? && k.callId == id
      && (if |content| > 800 then |k.content| >= 800 && k.content[..800] == content[..800]
          else k.content == content)
    case _ => k == m
  }

  lemma KeptTwice(m: Message, k: Message, l: Message)
    requires KeptAs(m, k) && KeptAs(k, l)
    ensures KeptAs(m, l)
  {}

  /** A tool result over the limit loses what follows its first 800 characters, and says
      how much that is. */
  lemma CapExactly(m: Message)
    ensures KeptAs(m, CapMessage(m))
    ensures m.Tool? && |m.content| > 800 ==>
              CapMessage(m).content
              == m.content[..800] + Lit("\n\U{2026}[truncated ") + Decimal(|m.content| - 800) + Lit(" chars]")
  {
    assert Lit("\n\U{2026}[truncated ") == [NL] + Lit("\U{2026}[truncated ");
  }

  // ---------------------------------------------------------------- the end

  /** The messages of `tail` stand for the last ones of `ms`. */
  predicate EndsAs(ms: seq<Message>, tail: seq<Message>) {
    |tail| <= |ms| && forall i | 0 <= i < |tail| :: KeptAs(ms[|ms| - |tail| + i], tail[i])
  }

  /** Of the last n messages only tool results are missing in front of the last `kept`. */
  predicate OnlyToolsMissing(ms: seq<Message>, n: nat, kept: nat) {
    forall i | 0 <= i < |ms| && |ms| - n <= i < |ms| - kept :: ms[i].Tool?
  }

  /** `out` is the first message of `ms`, one note, and the end of `ms`: the last n
      messages but for tool results that the end would otherwise begin with. */
  predicate Shortened(ms: seq<Message>, n: nat, out: seq<Message>) {
    && n < |ms| && 2 <= |out|
    && out[0] == ms[0]
    && out[1].Human?
    && EndsAs(ms, out[2..])
    && OnlyToolsMissing(ms, n, |out| - 2)
    && (|out| > 2 ==> !out[2].Tool?)
  }

  lemma {:induction false} HeadedSkips(tail: seq<Message>)
    ensures OnlyToolsMissing(tail, |tail|, |Headed(tail)|)
  {
    if tail != [] && tail[0].Tool? {
      HeadedSkips(tail[1..]);
      assert forall i | 0 < i < |tail| :: tail[i] == tail[1..][i - 1];
    }
  }

  /** A condensed list is the first message, the note, and the last 2 * keep messages of
      the list but for leading tool results. */
  lemma SplicedKeeps(ms: seq<Message>, keep: nat, note: Text)
    requires |ms| > 2 + 2 * keep
    ensures Shortened(ms, 2 * keep, Spliced(ms, keep, note))
    ensures |Spliced(ms, keep, note)| <= 2 + 2 * keep && Spliced(ms, keep, note)[1].content == note
  {
    var cut := |ms| - 2 * keep;
    var tail, out := Headed(Capped(ms[cut..])), Spliced(ms, keep, note);
    assert out[2..] == tail;
    CondenseLaws.HeadedSuffix(Capped(ms[cut..]));
    HeadedSkips(Capped(ms[cut..]));
    forall i | 0 <= i < |tail|
      ensures KeptAs(ms[|ms| - |tail| + i], tail[i])
    {
      CapExactly(ms[|ms| - |tail| + i]);
    }
    forall i | |ms| - 2 * keep <= i < |ms| - |tail|
      ensures ms[i].Tool?
    {
      assert Capped(ms[cut..])[i - cut].Tool?;
    }
  }

  lemma CondensedKeeps(ms: seq<Message>, keep: nat, toolName: Text -> Text)
    ensures var out := Condensed(ms, keep, toolName);
            if |ms| <= 2 + 2 * keep then out == ms else Shortened(ms, 2 * keep, out) && |out| <= 2 + 2 * keep
  {
    if |ms| > 2 + 2 * keep {
      SplicedKeeps(ms, keep, DigestText(ms[1..|ms| - 2 * keep], toolName));
    }
  }

  // --------------------------------------- "the last pairs intact", or not

  /** No cap changes this message: no tool result over 800 characters, unless what
      follows them is already the mark that the cap puts there. */
  predicate Uncut(m: Message) {
    m.Tool? && |m.content| > 800 ==> m.content[800..] == Lit("\n\U{2026}[truncated 22 chars]")
  }

  lemma {:induction false} DecimalShort(n: nat)
    ensures |Decimal(n)| <= 1 + n / 10
  {
    if n >= 10 {
      DecimalShort(n / 10);
    }
  }

  lemma TwentyTwo()
    ensures Lit("\n\U{2026}[truncated 22 chars]")
            == Lit("\n\U{2026}[truncated ") + Decimal(22) + Lit(" chars]")
  {
    assert Decimal(22) == Decimal(2) + [50] == [50, 50];
    var a, b, c := Lit("\n\U{2026}[truncated "), Lit("22"), Lit(" chars]");
    assert b == [50, 50];
  }

  lemma CapChanges(m: Message)
    ensures CapMessage(m) == m <==> Uncut(m)
  {
    if m.Tool? && |m.content| > 800 {
      CapExactly(m);
      var n := |m.content| - 800;
      var head, gone := m.content[..800], m.content[800..];
      var mark := Lit("\n\U{2026}[truncated ") + Decimal(n) + Lit(" chars]");
      assert m.content == head + gone;
      assert CapMessage(m).content == head + mark;
      assert CapMessage(m) == m <==> gone == mark;
      TwentyTwo();
      if gone == mark {
        assert n == 20 + |Decimal(n)|;
        DecimalShort(n);
        assert 20 < n < 25 && |Decimal(n)| == 1 + |Decimal(2)|;
      }
    }
  }

  /** The last 2 * keep messages are kept intact exactly when they do not begin with a
      tool result and none of them is a tool result that the cap changes. */
  lemma IntactExactly(ms: seq<Message>, keep: nat, note: Text)
    requires |ms| > 2 + 2 * keep
    ensures Spliced(ms, keep, note)[2..] == ms[|ms| - 2 * keep..]
            <==> && (keep > 0 ==> !ms[|ms| - 2 * keep].Tool?)
                 && forall i | |ms| - 2 * keep <= i < |ms| :: Uncut(ms[i])
  {
    var tail := ms[|ms| - 2 * keep..];
    var out := Spliced(ms, keep, note);
    assert out[2..] == Headed(Capped(tail));
    if out[2..] == tail {
      CondenseLaws.HeadedSuffix(Capped(tail));
      assert Capped(tail)[0..] == Capped(tail);
      assert Capped(tail) == tail;
      forall i | |ms| - 2 * keep <= i < |ms|
        ensures Uncut(ms[i])
      {
        assert Capped(tail)[i - (|ms| - 2 * keep)] == CapMessage(ms[i]);
        CapChanges(ms[i]);
      }
    } else if forall i | |ms| - 2 * keep <= i < |ms| :: Uncut(ms[i]) {
      forall i | 0 <= i < |tail|
        ensures Capped(tail)[i] == tail[i]
      {
        CapChanges(ms[|ms| - 2 * keep + i]);
      }
      assert Capped(tail) == tail;
    }
  }

  // ------------------------------------------------------- from list to prompt

  /** What may become of a list on its way to a model: nothing, or it is shortened and
      keeps at least its last two messages, but for tool results. */
  predicate Carried(ms: seq<Message>, out: seq<Message>) {
    out == ms || Shortened(ms, 2, out)
  }

  lemma FewerMissing(ms: seq<Message>, n: nat, out: seq<Message>)
    requires Shortened(ms, n, out) && n >= 2
    ensures Shortened(ms, 2, out)
  {}

  lemma CarriedTwice(ms: seq<Message>, mid: seq<Message>, out: seq<Message>)
    requires Carried(ms, mid) && Carried(mid, out)
    requires out != mid ==> |out| <= |mid| && |mid| > 4
    ensures Carried(ms, out)
  {
    if mid != ms && out != mid {
      var a, b := mid[2..], out[2..];
      forall i | 0 <= i < |b|
        ensures KeptAs(ms[|ms| - |b| + i], b[i])
      {
        var j := |a| - |b| + i;
        assert a[j] == mid[|mid| - |b| + i];
        KeptTwice(ms[|ms| - |b| + i], a[j], b[i]);
      }
      forall i | 0 <= i < |ms| && |ms| - 2 <= i < |ms| - |b|
        ensures ms[i].Tool?
      {
        var j := i - (|ms| - |a|);
        assert a[j] == mid[j + 2];
        assert KeptAs(ms[i], a[j]);
      }
    }
  }

  lemma {:induction false} LevelsPositive(pairs: nat, at: nat)
    requires at < |Ladder(pairs)|
    ensures Ladder(pairs)[at] >= 1
  {
    CondenseLaws.LadderDescends(pairs);
  }

  lemma DistilledKeeps(ms: seq<Message>, summary: Text)
    requires Distilled(ms, summary).Some?
    ensures var out := Distilled(ms, summary).value;
            Shortened(ms, 10, out) && Shortened(ms, 2, out) && |out| < |ms| && |ms| > 12
  {
    var note := Lit("[Earlier conversation summarized]\n") + summary;
    SplicedKeeps(ms, 5, note);
    FewerMissing(ms, 10, Spliced(ms, 5, note));
  }

  lemma RungKeeps(context: int, ms: seq<Message>, levels: seq<nat>, toolName: Text -> Text, at: nat,
                  out: seq<Message>)
    requires FirstFit(context, ms, levels, toolName, at, Some(out))
    requires levels == Ladder(Pairs(ms))
    ensures Shortened(ms, 2, out) && |out| < |ms| && |ms| > 4
  {
    LevelsPositive(Pairs(ms), at);
    CondensedKeeps(ms, levels[at], toolName);
    FewerMissing(ms, 2 * levels[at], out);
  }

  lemma FittedCarries(context: int, ms: seq<Message>, force: bool, summary: Option<Text>,
                      toolName: Text -> Text, out: seq<Message>)
    requires Fitted(context, ms, force, summary, toolName, Some(out))
    ensures Carried(ms, out)
    ensures out != ms ==> |out| < |ms| && |ms| > 4
  {
    if !force && Fits(context, ms) {
    } else if DistillWorks(context, ms, summary) {
      DistilledKeeps(ms, summary.value);
    } else {
      var levels := Ladder(Pairs(ms));
      var at :| FirstFit(context, ms, levels, toolName, at, Some(out));
      RungKeeps(context, ms, levels, toolName, at, out);
    }
  }

  predicate VisitCarries(ms: seq<Message>, v: Visit) {
    match v
    case Called(prompt, _) => Carried(ms, prompt)
    case Recalled(prompt, _, condensed, _) => Carried(ms, prompt) && Carried(ms, condensed)
    case _ => true
  }

  lemma StepCarries(w: World, ms: seq<Message>, visits: seq<Visit>, lists: seq<seq<Message>>, i: nat)
    requires RequestOk(w, ms, visits, lists) && i < |visits| && Carried(ms, lists[i])
    ensures Carried(ms, lists[i + 1]) && VisitCarries(ms, visits[i])
  {
    StepOf(w, ms, visits, lists, i);
    var v, found, next := visits[i], lists[i], lists[i + 1];
    if !v.Benched? && !v.TooSmall? {
      FittedCarries(w.Context(i), found, false, w.summary(i, false), w.toolName, next);
      CarriedTwice(ms, found, next);
      if v.Recalled? {
        FittedCarries(w.Context(i), next, true, w.summary(i, true), w.toolName, v.condensed);
        CarriedTwice(ms, next, v.condensed);
      }
    }
  }

  lemma {:induction false} ListsCarry(w: World, ms: seq<Message>, visits: seq<Visit>, lists: seq<seq<Message>>,
                                      n: nat)
    requires RequestOk(w, ms, visits, lists) && n <= |visits|
    ensures Carried(ms, lists[n])
  {
    if n > 0 {
      ListsCarry(w, ms, visits, lists, n - 1);
      StepCarries(w, ms, visits, lists, n - 1);
    }
  }

  /** Whatever the models of a request have done before, each prompt that a model gets is
      the list of the request, or its first message, a note and its end. */
  lemma PromptsCarry(w: World, ms: seq<Message>, visits: seq<Visit>, lists: seq<seq<Message>>, i: nat)
    requires RequestOk(w, ms, visits, lists) && i < |visits|
    ensures VisitCarries(ms, visits[i])
  {
    ListsCarry(w, ms, visits, lists, i);
    StepCarries(w, ms, visits, lists, i);
  }

  /** A second call comes only after the model has reported an overflow, with a shorter
      prompt that fits its window; when the window is not known, any prompt does. */
  lemma SecondCalls(w: World, ms: seq<Message>, visits: seq<Visit>, lists: seq<seq<Message>>, i: nat)
    requires RequestOk(w, ms, visits, lists) && i < |visits| && visits[i].Recalled?
    ensures visits[i].first == Error(ContextOverflow) && |visits[i].condensed| < |visits[i].prompt|
    ensures i < |w.contexts| && w.contexts[i] >= 1036 ==> Tokens(visits[i].condensed) + 1024 <= w.contexts[i]
    ensures i >= |w.contexts| ==> Fits(w.Context(i), visits[i].prompt)
  {
    StepOf(w, ms, visits, lists, i);
    var v := visits[i];
    ForcedShorter(w.Context(i), v.prompt, w.summary(i, true), w.toolName, v.condensed);
    CondenseLaws.WindowExactly(w.Context(i), v.condensed);
  }

  lemma ForcedShorter(context: int, ms: seq<Message>, summary: Option<Text>, toolName: Text -> Text,
                      out: seq<Message>)
    requires Fitted(context, ms, true, summary, toolName, Some(out))
    ensures |out| < |ms| && Fits(context, out)
  {
    if DistillWorks(context, ms, summary) {
      DistilledKeeps(ms, summary.value);
    } else {
      var levels := Ladder(Pairs(ms));
      var at :| FirstFit(context, ms, levels, toolName, at, Some(out));
      RungKeeps(context, ms, levels, toolName, at, out);
    }
  }

  // ------------------------------------------------------------ the question

  /** The prompt begins and ends with these messages. */
  predicate Frames(first: Message, last: Message, prompt: seq<Message>) {
    prompt != [] && prompt[0] == first && prompt[|prompt| - 1] == last
  }

  lemma CarriedFrames(ms: seq<Message>, out: seq<Message>)
    requires Carried(ms, out) && ms != [] && !ms[|ms| - 1].Tool?
    ensures Frames(ms[0], ms[|ms| - 1], out)
  {
    if out != ms {
      var tail := out[2..];
      assert tail != [];
      assert tail[|tail| - 1] == out[|out| - 1];
      assert KeptAs(ms[|ms| - 1], tail[|tail| - 1]);
    }
  }

  /** A request that ends with a question asks every model that question, after the same
      first message. */
  lemma QuestionAsked(w: World, ms: seq<Message>, visits: seq<Visit>, lists: seq<seq<Message>>, i: nat)
    requires RequestOk(w, ms, visits, lists) && i < |visits|
    requires ms != [] && ms[|ms| - 1].Human?
    ensures match visits[i]
            case Called(prompt, _) => Frames(ms[0], ms[|ms| - 1], prompt)
            case Recalled(prompt, _, condensed, _) =>
              Frames(ms[0], ms[|ms| - 1], prompt) && Frames(ms[0], ms[|ms| - 1], condensed)
            case _ => true
  {
    PromptsCarry(w, ms, visits, lists, i);
    match visits[i]
    case Called(prompt, _) => CarriedFrames(ms, prompt);
    case Recalled(prompt, _, condensed, _) =>
      CarriedFrames(ms, prompt);
      CarriedFrames(ms, condensed);
    case _ =>
  }

  // ---------------------------------------------------------------- the note

  /** The lines of a text. */
  function Rows(t: Text): seq<Text>
    decreases |t|
  {
    var row := FirstLine(t);
    if |row| == |t| then [row] else [row] + Rows(t[|row| + 1..])
  }

  predicate NoBreaks(lines: seq<Text>) {
    forall line | line in lines :: NL !in line
  }

  lemma {:induction false} RowsOfJoin(lines: seq<Text>)
    requires lines != [] && NoBreaks(lines)
    ensures Rows(Join(lines)) == lines
  {
    var line, rest := lines[0], lines[1..];
    assert line in lines;
    if rest == [] {
      assert line + [] == line;
      FirstLineOf(line, []);
      assert lines == [line];
      assert Join(lines) == line;
    } else {
      var more := Join(rest);
      assert Join(lines) == line + ([NL] + more);
      FirstLineOf(line, [NL] + more);
      assert Join(lines)[|line| + 1..] == more;
      assert forall x | x in rest :: x in lines;
      RowsOfJoin(rest);
      assert lines == [line] + rest;
    }
  }

  /** What the note says of a message: of a question and an answer the first 500
      characters and of a tool result the first 200, all on one line; of a system message
      nothing. */
  lemma LineShows(m: Message, toolName: Text -> Text)
    ensures m.System? <==> Line(m, toolName) == None
    ensures m.Human? && |m.content| <= 500 && NL !in m.content ==>
              Line(m, toolName) == Some(Lit("[User: ") + m.content + Lit("]"))
    ensures m.AI? && |m.content| <= 500 && NL !in m.content ==>
              Line(m, toolName) == Some(Lit("[Assistant: ") + m.content + Lit("]"))
    ensures m.Tool? && |m.content| <= 200 && NL !in m.content ==>
              Line(m, toolName) == Some(Lit("[") + toolName(m.content) + Lit(" \U{2192} ") + m.content + Lit("]"))
    ensures m.Human? && |m.content| > 500 ==> Line(m, toolName) == Line(Human(m.content[..500]), toolName)
    ensures m.AI? && |m.content| > 500 ==> Line(m, toolName) == Line(AI(m.content[..500], []), toolName)
  {
    if NL !in m.content {
      assert Flatten(m.content) == m.content;
      var line := Lit("[") + toolName(m.content) + Lit(" \U{2192} ") + m.content;
      assert line + [] == line;
    }
  }

  lemma LineBare(m: Message, toolName: Text -> Text)
    requires m.Tool? ==> NL !in toolName(m.content)
    ensures Line(m, toolName).Some? ==> NL !in Line(m, toolName).value
  {
    assert NL !in Flatten(Take(m.content, 500)) && NL !in Flatten(Take(m.content, 200));
    LitBare();
  }

  lemma LitBare()
    ensures NL !in Lit("[User: ") && NL !in Lit("[Assistant: ") && NL !in Lit("[") && NL !in Lit("]")
    ensures NL !in Lit("...") && NL !in Lit(" \U{2192} ")
  {}

  predicate PlainNames(ms: seq<Message>, toolName: Text -> Text) {
    forall m | m in ms && m.Tool? :: NL !in toolName(m.content)
  }

  lemma {:induction false} LinesBare(ms: seq<Message>, toolName: Text -> Text)
    requires PlainNames(ms, toolName)
    ensures NoBreaks(Lines(ms, toolName))
  {
    if ms != [] {
      var init, m := ms[..|ms| - 1], ms[|ms| - 1];
      assert m in ms && forall x | x in init :: x in ms;
      LinesBare(init, toolName);
      LineBare(m, toolName);
    }
  }

  lemma {:induction false} SublistBare(a: seq<Text>, b: seq<Text>)
    requires Sublist(a, b) && NoBreaks(b)
    ensures NoBreaks(a)
  {
    if a != [] {
      var bi := b[..|b| - 1];
      assert b[|b| - 1] in b && forall x | x in bi :: x in b;
      if a[|a| - 1] == b[|b| - 1] && Sublist(a[..|a| - 1], bi) {
        SublistBare(a[..|a| - 1], bi);
      } else {
        SublistBare(a, bi);
      }
    }
  }

  lemma HeaderBare(messages: nat, dropped: nat)
    ensures NL !in Header(messages, dropped)
  {
    assert NL !in Lit("[Earlier conversation summarized \U{2014} ");
    assert NL !in Lit(" messages condensed");
    assert NL !in Lit(", ") && NL !in Lit(" oldest dropped]") && NL !in Lit("]");
  }

  /** The text of a note, read row by row. */
  lemma DigestReads(middle: seq<Message>, toolName: Text -> Text)
    requires PlainNames(middle, toolName)
    ensures var p := Pick(Lines(middle, toolName));
            Rows(DigestText(middle, toolName)) == [Header(|middle|, p.dropped)] + p.kept
  {
    var lines := Lines(middle, toolName);
    var p := Pick(lines);
    var head := Header(|middle|, p.dropped);
    CondenseLaws.PickSound(lines);
    LinesBare(middle, toolName);
    SublistBare(p.kept, lines);
    HeaderBare(|middle|, p.dropped);
    RowsOfJoin([head] + p.kept);
  }

  lemma NoteIs(ms: seq<Message>, keep: nat, toolName: Text -> Text)
    requires |ms| > 2 + 2 * keep
    ensures Condensed(ms, keep, toolName)[1].content == DigestText(ms[1..|ms| - 2 * keep], toolName)
  {
    var note := DigestText(ms[1..|ms| - 2 * keep], toolName);
    assert Spliced(ms, keep, note)[1] == Human(note);
  }

  lemma PlainPart(ms: seq<Message>, i: nat, j: nat, toolName: Text -> Text)
    requires i <= j <= |ms| && PlainNames(ms, toolName)
    ensures PlainNames(ms[i..j], toolName)
  {
    assert forall m | m in ms[i..j] :: m in ms;
  }

  /** These rows are a heading with the number of messages and of missing lines, and some of
      the lines in their order. */
  predicate Reads(rows: seq<Text>, messages: nat, lines: seq<Text>) {
    && rows != [] && |rows| - 1 <= |lines|
    && rows[0] == Header(messages, |lines| - (|rows| - 1))
    && Sublist(rows[1..], lines)
  }

  lemma PickReads(messages: nat, lines: seq<Text>)
    ensures Reads([Header(messages, Pick(lines).dropped)] + Pick(lines).kept, messages, lines)
  {
    var p := Pick(lines);
    var head := Header(messages, p.dropped);
    CondenseLaws.PickSound(lines);
    assert ([head] + p.kept)[1..] == p.kept;
  }

  lemma MiddleReads(middle: seq<Message>, toolName: Text -> Text)
    requires PlainNames(middle, toolName)
    ensures Reads(Rows(DigestText(middle, toolName)), |middle|, Lines(middle, toolName))
  {
    DigestReads(middle, toolName);
    PickReads(|middle|, Lines(middle, toolName));
  }

  /** The note can be read again: a heading with the number of messages it stands for and
      of lines that are missing, and the other lines in their order. */
  lemma NoteReads(ms: seq<Message>, keep: nat, toolName: Text -> Text)
    requires |ms| > 2 + 2 * keep && PlainNames(ms, toolName)
    ensures Reads(Rows(Condensed(ms, keep, toolName)[1].content), |ms| - 1 - 2 * keep,
                  Lines(ms[1..|ms| - 2 * keep], toolName))
  {
    PlainPart(ms, 1, |ms| - 2 * keep, toolName);
    MiddleReads(ms[1..|ms| - 2 * keep], toolName);
    NoteIs(ms, keep, toolName);
  }
}
