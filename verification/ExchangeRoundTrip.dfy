/** Reading a log of exchanges gives back the exchanges that were written. */
module ExchangeRoundTrip {
  import Seqs
  import opened Texts
  import opened DayLog
  import opened DayLogSearch
  import opened DayLogRuns
  import opened Errors
  import opened ExchangeLog
  import opened ExchangeParts
  import opened ExchangeLaws

  // ----------------------------------------------------------- trimming and erasing

  lemma TrimSpaceEnd(y: Text, c: Code)
    requires IsSpace(c)
    ensures Trim(y + [c]) == Trim(y)
  {
    TrimLeftOf(y, [c]);
    assert [c][1..] == [];
    var x := TrimLeft(y);
    assert (x + [c])[..|x|] == x;
  }

  predicate Blank(t: Text) {
    t == [] || (IsSpace(t[|t| - 1]) && Blank(t[..|t| - 1]))
  }

  lemma {:induction false} TrimBlank(y: Text, s: Text)
    requires Blank(s)
    ensures Trim(y + s) == Trim(y)
  {
    if s == [] {
      assert y + s == y;
    } else {
      var n := |s| - 1;
      assert y + s == (y + s[..n]) + [s[n]];
      TrimSpaceEnd(y + s[..n], s[n]);
      TrimBlank(y, s[..n]);
    }
  }

  /** A text that neither begins nor ends with a blank. */
  predicate Firm(p: Text) {
    p != [] && !IsSpace(p[0]) && !IsSpace(p[|p| - 1])
  }

  lemma {:induction false} EraseTrimLeft(t: Text, p: Text)
    requires Firm(p)
    ensures TrimLeft(Erase(TrimLeft(t), p)) == TrimLeft(Erase(t, p))
  {
    if t != [] && IsSpace(t[0]) {
      EraseNot(t, p);
      EraseTrimLeft(t[1..], p);
      assert ([t[0]] + Erase(t[1..], p))[1..] == Erase(t[1..], p);
    }
  }

  lemma {:induction false} EraseSpaceEnd(x: Text, c: Code, p: Text)
    requires Firm(p) && IsSpace(c)
    ensures Erase(x + [c], p) == Erase(x, p) + [c]
    decreases |x|
  {
    var t := x + [c];
    if p <= t {
      assert p[|p| - 1] == t[|p| - 1];
      Within(p, x, [c]);
      assert t[|p|..] == x[|p|..] + [c];
      EraseSpaceEnd(x[|p|..], c, p);
    } else if x == [] {
      assert t[1..] == [];
      assert Erase(t, p) == [c] + Erase([], p);
    } else {
      EraseNot(t, p);
      assert !(p <= x);
      EraseNot(x, p);
      assert t[1..] == x[1..] + [c];
      EraseSpaceEnd(x[1..], c, p);
    }
  }

  lemma {:induction false} EraseTrimRight(t: Text, p: Text)
    requires Firm(p)
    ensures Trim(Erase(TrimRight(t), p)) == Trim(Erase(t, p))
  {
    if t != [] && IsSpace(t[|t| - 1]) {
      var x := t[..|t| - 1];
      assert t == x + [t[|t| - 1]];
      EraseSpaceEnd(x, t[|t| - 1], p);
      TrimSpaceEnd(Erase(x, p), t[|t| - 1]);
      EraseTrimRight(x, p);
    }
  }

  /** Blanks around a text do not matter when something firm is erased from it. */
  lemma EraseTrim(t: Text, p: Text)
    requires Firm(p)
    ensures Trim(Erase(Trim(t), p)) == Trim(Erase(t, p))
  {
    EraseTrimRight(TrimLeft(t), p);
    EraseTrimLeft(t, p);
  }

  lemma CommentFirm(w: Words, json: Text)
    requires Wordy(w)
    ensures Firm(Comment(w, json))
  {
    var c := Comment(w, json);
    assert c[0] == w.opening[0] && w.opening[0] in w.opening;
    assert c[|c| - 1] == w.closing[|w.closing| - 1] && w.closing[|w.closing| - 1] in w.closing;
  }

  // ------------------------------------------------------------------ visible text

  function Elems(calls: seq<Text>): set<Text> {
    if calls == [] then {} else Elems(calls[..|calls| - 1]) + {calls[|calls| - 1]}
  }

  lemma {:induction false} ElemsHold(calls: seq<Text>, j: Text)
    requires j in calls
    ensures j in Elems(calls)
  {
    var n := |calls| - 1;
    if j != calls[n] {
      assert j in calls[..n];
      ElemsHold(calls[..n], j);
    }
  }

  predicate CallsOk(w: Words, valid: Text -> bool, calls: seq<Text>, tools: seq<Text>) {
    forall j | j in calls :: valid(j) && JsonOk(w, j) && UnnestedIn(w, j, tools)
  }

  /** Every comment that was read is erased from the visible text. */
  lemma {:induction false} VisibleLeft(w: Words, valid: Text -> bool, bot: Text, tools: seq<Text>, calls: seq<Text>)
    requires Wordy(w) && AllJson(w, tools) && CallsOk(w, valid, calls, tools) && (calls != [] ==> NoneBegun(w, bot))
    ensures Visible(w, valid, Trim(bot + Left(w, tools, {})), calls) == Trim(bot + Left(w, tools, Elems(calls)))
  {
    if calls != [] {
      var n := |calls| - 1;
      var init, json := calls[..n], calls[n];
      assert json in calls && forall j | j in init :: j in calls;
      VisibleLeft(w, valid, bot, tools, init);
      CommentFirm(w, json);
      EraseTrim(bot + Left(w, tools, Elems(init)), Comment(w, json));
      EraseInReply(w, bot, tools, Elems(init), json);
    }
  }

  lemma {:induction false} LeftBlank(w: Words, tools: seq<Text>, done: set<Text>)
    requires forall j | j in tools :: j in done
    ensures Blank(Left(w, tools, done))
  {
    if tools != [] {
      LeftBlank(w, tools[1..], done);
      assert [] + Left(w, tools[1..], done) == Left(w, tools[1..], done);
      BlankFront(Left(w, tools[1..], done));
    }
  }

  lemma {:induction false} BlankFront(s: Text)
    requires Blank(s)
    ensures Blank([NL] + s)
  {
    if s == [] {
      assert [NL] + s == [NL] && [NL][..0] == [];
    } else {
      BlankFront(s[..|s| - 1]);
      assert ([NL] + s)[..|s|] == [NL] + s[..|s| - 1];
    }
  }

  lemma {:induction false} AllValid(valid: Text -> bool, calls: seq<Text>)
    requires forall j | j in calls :: valid(j)
    ensures Decoded(valid, calls) == calls
  {
    if calls != [] {
      var n := |calls| - 1;
      assert calls[n] in calls;
      AllValid(valid, calls[..n]);
    }
  }

  lemma {:induction false} JsonAll(w: Words, tools: seq<Text>, j: Text)
    requires AllJson(w, tools) && j in tools
    ensures JsonOk(w, j)
  {
    if j != tools[0] {
      JsonAll(w, tools[1..], j);
    }
  }

  /** The exchange an entry stands for. */
  function Of(e: Entry): Exchange {
    Exchange(e.user, e.bot, if e.tools == [] then None else Some(e.tools))
  }

  predicate Decodes(valid: Text -> bool, e: Entry) {
    forall j | j in e.tools :: valid(j)
  }

  lemma ReplyVisible(w: Words, valid: Text -> bool, e: Entry)
    requires Wordy(w) && EntryOk(w, e) && Decodes(valid, e)
    ensures Visible(w, valid, Trim(Reply(w, e)), e.tools) == e.bot
  {
    forall j | j in e.tools ensures JsonOk(w, j) && j in Elems(e.tools) {
      JsonAll(w, e.tools, j);
      ElemsHold(e.tools, j);
    }
    LeftAll(w, e.tools);
    VisibleLeft(w, valid, e.bot, e.tools, e.tools);
    LeftBlank(w, e.tools, Elems(e.tools));
    TrimBlank(e.bot, Left(w, e.tools, Elems(e.tools)));
  }

  lemma ReplyTrimmed(w: Words, e: Entry)
    requires Wordy(w) && EntryOk(w, e)
    ensures Trim(TrimLeft(Reply(w, e))) == Trim(Reply(w, e)) == TrimLeft(Reply(w, e))
  {
    TrimLeftEnds(Reply(w, e));
    ReplyEnds(w, e);
  }

  lemma {:induction false} CommentsEnd(w: Words, tools: seq<Text>)
    requires Wordy(w) && tools != []
    ensures var c := Comments(w, tools); c != [] && !IsSpace(c[|c| - 1])
  {
    CommentFirm(w, tools[0]);
    if |tools| > 1 {
      CommentsEnd(w, tools[1..]);
    }
  }

  lemma ReplyLast(w: Words, e: Entry)
    requires Wordy(w) && EntryOk(w, e) && Reply(w, e) != []
    ensures !IsSpace(Reply(w, e)[|Reply(w, e)| - 1])
  {
    if e.tools == [] {
      assert Reply(w, e) == e.bot;
      TrimEnds(e.bot);
    } else {
      CommentsEnd(w, e.tools);
    }
  }

  lemma ReplyEnds(w: Words, e: Entry)
    requires Wordy(w) && EntryOk(w, e)
    ensures TrimRight(TrimLeft(Reply(w, e))) == TrimLeft(Reply(w, e))
  {
    var r := Reply(w, e);
    if r != [] {
      ReplyStart(w, e);
      ReplyLast(w, e);
      var x := TrimLeft(r);
      assert x[|x| - 1] == r[|r| - 1];
    }
  }

  /** An entry that was read is the exchange that was written. */
  lemma EntryFinished(w: Words, valid: Text -> bool, e: Entry)
    requires Wordy(w) && EntryOk(w, e) && Decodes(valid, e)
    ensures Finish(w, valid, e.user, TrimLeft(Reply(w, e))) == Of(e)
  {
    ReplyTrimmed(w, e);
    ReplyCalls(w, e);
    ReplyVisible(w, valid, e);
    AllValid(valid, e.tools);
  }

  // --------------------------------------------------------------------- whole logs

  function Exchanges(entries: seq<Entry>): seq<Exchange> {
    if entries == [] then [] else [Of(entries[0])] + Exchanges(entries[1..])
  }

  predicate AllOk(w: Words, valid: Text -> bool, entries: seq<Entry>) {
    entries == []
    || (EntryOk(w, entries[0]) && Decodes(valid, entries[0]) && AllOk(w, valid, entries[1..]))
  }

  /** Every entry but the last has an answer or a tool call. */
  predicate Answered(entries: seq<Entry>) {
    |entries| <= 1
    || ((entries[0].bot != [] || entries[0].tools != []) && Answered(entries[1..]))
  }

  lemma ReplyEmpty(w: Words, e: Entry)
    ensures Reply(w, e) == [] <==> e.bot == [] && e.tools == []
  {}

  /** What comes after an entry: nothing, or a line break and the next entries. */
  function After(w: Words, entries: seq<Entry>): Text {
    if entries == [] then [] else [NL] + Log(w, entries)
  }

  lemma LogWritten(w: Words, entries: seq<Entry>)
    requires entries != []
    ensures Log(w, entries) == Written(w, entries[0], After(w, entries[1..]))
  {
    FormatWritten(w, entries[0], After(w, entries[1..]));
    if |entries| == 1 {
      assert Format(w, entries[0]) + [] == Format(w, entries[0]);
    }
  }

  lemma WrittenStart(w: Words, e: Entry, z: Text)
    requires Wordy(w) && EntryOk(w, e)
    ensures Written(w, e, z) != [] && Written(w, e, z)[0] == LB && Head(w, Written(w, e, z)).Some?
    ensures |Written(w, e, z)| > 1
  {
    HeadIs(w, e.stamp, [SPACE] + (e.user + ([NL] + (w.assistant + ([SPACE] + (Reply(w, e) + z))))));
  }

  lemma AfterStops(w: Words, entries: seq<Entry>)
    requires Wordy(w) && (entries != [] ==> EntryOk(w, entries[0]))
    ensures Stops(w, After(w, entries)) && (entries == [] || Delimits(w, After(w, entries)))
  {
    if entries != [] {
      LogWritten(w, entries);
      WrittenStart(w, entries[0], After(w, entries[1..]));
      assert After(w, entries)[1..] == Log(w, entries);
    }
  }

  lemma BreakNoEntry(w: Words, valid: Text -> bool, t: Text)
    ensures Parse(w, valid, [NL] + t) == Parse(w, valid, t)
  {
    assert ([NL] + t)[1..] == t;
    ParseSkips(w, valid, [NL] + t);
  }

  lemma ParseFirst(w: Words, valid: Text -> bool, t: Text, user: Text, bot: Text, rest: Text)
    requires t != [] && ReadEntry(w, t) == Raw(user, bot, rest)
    ensures |rest| < |t|
    ensures Parse(w, valid, t) == [Finish(w, valid, user, bot)] + Parse(w, valid, rest)
  {
    ReadShrinks(w, t);
  }

  /** The first entry is read, and then the others. */
  lemma LogStep(w: Words, valid: Text -> bool, entries: seq<Entry>)
    requires Wordy(w) && entries != [] && AllOk(w, valid, entries)
    requires |entries| == 1 || entries[0].bot != [] || entries[0].tools != []
    ensures Parse(w, valid, Log(w, entries)) == [Of(entries[0])] + Parse(w, valid, Log(w, entries[1..]))
  {
    var e, z := entries[0], After(w, entries[1..]);
    LogWritten(w, entries);
    WrittenStart(w, e, z);
    AfterStops(w, entries[1..]);
    ReplyEmpty(w, e);
    EntryRead(w, e, z);
    ReplyRead(w, e, z);
    ParseFirst(w, valid, Written(w, e, z), e.user, TrimLeft(Reply(w, e)), z);
    EntryFinished(w, valid, e);
    if entries[1..] != [] {
      BreakNoEntry(w, valid, Log(w, entries[1..]));
    }
  }

  /** Reading the log gives the exchanges that were written. */
  lemma {:induction false} LogParsed(w: Words, valid: Text -> bool, entries: seq<Entry>)
    requires Wordy(w) && AllOk(w, valid, entries) && Answered(entries)
    ensures Parse(w, valid, Log(w, entries)) == Exchanges(entries)
  {
    if entries != [] {
      LogStep(w, valid, entries);
      if |entries| > 1 {
        LogParsed(w, valid, entries[1..]);
      }
    }
  }

  lemma NoDelimiterAtStart(w: Words, t: Text)
    requires t != [] && t[0] == LB
    ensures UntilNext(w, t).0 != [] && UntilNext(w, t).0[0] == LB
  {}

  lemma BracketStays(t: Text)
    requires t != [] && t[0] == LB
    ensures Trim(t) != []
  {
    TrimKeeps(t, 0);
  }

  lemma SwallowedRead(w: Words, e: Entry, next: Text)
    requires Wordy(w) && EntryOk(w, e) && e.bot == [] && e.tools == []
    requires next != [] && next[0] == LB
    ensures var r := UntilNext(w, next);
            ReadEntry(w, Written(w, e, [NL] + next)) == Raw(e.user, r.0, r.1)
  {
    var z := [NL] + next;
    EntryRead(w, e, z);
    ReplyEmpty(w, e);
    assert [] + z == z;
    TrimSpace(z);
    assert z[1..] == next;
    assert TrimLeft(z) == TrimLeft(next) == next;
  }

  lemma LogStarts(w: Words, entries: seq<Entry>)
    requires Wordy(w) && entries != [] && EntryOk(w, entries[0])
    ensures Log(w, entries) != [] && Log(w, entries)[0] == LB
  {
    LogWritten(w, entries);
    WrittenStart(w, entries[0], After(w, entries[1..]));
  }

  /** An entry without answer and tool calls swallows the head of the next one. */
  lemma Swallowed(w: Words, valid: Text -> bool, entries: seq<Entry>)
    requires Wordy(w) && AllOk(w, valid, entries) && |entries| > 1
    requires entries[0].bot == [] && entries[0].tools == []
    ensures Parse(w, valid, Log(w, entries)) != [] && Parse(w, valid, Log(w, entries))[0] != Of(entries[0])
  {
    var next := Log(w, entries[1..]);
    LogStarts(w, entries[1..]);
    LogStarts(w, entries);
    LogWritten(w, entries);
    SwallowedRead(w, entries[0], next);
    var (bot, end) := UntilNext(w, next);
    NoDelimiterAtStart(w, next);
    ParseFirst(w, valid, Log(w, entries), entries[0].user, bot, end);
    BracketStays(bot);
    SwallowedFinish(w, valid, entries[0].user, bot);
  }

  lemma SwallowedFinish(w: Words, valid: Text -> bool, user: Text, bot: Text)
    requires Trim(bot) != []
    ensures Finish(w, valid, user, bot) != Exchange(user, [], None)
  {
    if Calls(w, Trim(bot)) == [] {
      assert Visible(w, valid, Trim(bot), []) == Trim(bot);
    }
  }

  lemma {:induction false} LogLost(w: Words, valid: Text -> bool, entries: seq<Entry>)
    requires Wordy(w) && AllOk(w, valid, entries) && !Answered(entries)
    ensures Parse(w, valid, Log(w, entries)) != Exchanges(entries)
  {
    if entries[0].bot == [] && entries[0].tools == [] {
      Swallowed(w, valid, entries);
    } else {
      LogStep(w, valid, entries);
      LogLost(w, valid, entries[1..]);
      var x, y := Parse(w, valid, Log(w, entries[1..])), Exchanges(entries[1..]);
      assert ([Of(entries[0])] + x)[1..] == x && ([Of(entries[0])] + y)[1..] == y;
    }
  }

  /** A log of trimmed, delimiter-free exchanges is read back as it was written if and
      only if every exchange but the last has an answer or a tool call. */
  lemma RoundTrip(w: Words, valid: Text -> bool, entries: seq<Entry>)
    requires Wordy(w) && AllOk(w, valid, entries)
    ensures Parse(w, valid, Log(w, entries)) == Exchanges(entries) <==> Answered(entries)
  {
    if Answered(entries) {
      LogParsed(w, valid, entries);
    } else {
      LogLost(w, valid, entries);
    }
  }

  // ------------------------------------------------------------------ with the day log

  lemma {:induction false} LogSnoc(w: Words, entries: seq<Entry>, e: Entry)
    requires entries != []
    ensures Log(w, entries + [e]) == Log(w, entries) + [NL] + Format(w, e)
  {
    var all := entries + [e];
    assert all[0] == entries[0] && all[1..] == entries[1..] + [e];
    if |entries| == 1 {
      assert all[1..] == [e];
      Seqs.Assoc(Format(w, entries[0]), [NL], Format(w, e));
    } else {
      LogSnoc(w, entries[1..], e);
      var x, y, z := Format(w, entries[0]), Log(w, entries[1..]), Format(w, e);
      Seqs.Assoc(x, [NL] + y, [NL] + z);
      Seqs.Assoc([NL], y, [NL] + z);
      Seqs.Assoc(y, [NL], z);
      Seqs.Assoc(x + ([NL] + y), [NL], z);
    }
  }

  lemma FormatTrimmed(w: Words, e: Entry)
    requires Wordy(w) && EntryOk(w, e) && (e.bot != [] || e.tools != [])
    ensures Trim(Format(w, e)) == Format(w, e) != []
  {
    ReplyEmpty(w, e);
    ReplyLast(w, e);
    FormatEnds(w, e);
    EndsTrim(Format(w, e));
  }

  lemma FormatEnds(w: Words, e: Entry)
    requires Reply(w, e) != []
    ensures Format(w, e) != [] && Format(w, e)[0] == LB
    ensures Format(w, e)[|Format(w, e)| - 1] == Reply(w, e)[|Reply(w, e)| - 1]
  {}
}
