/** What is written to the exchange log is read back. */
module ExchangeLaws {
  import Seqs
  import opened Texts
  import opened DayLog
  import opened DayLogSearch
  import opened ExchangeLog
  import opened ExchangeParts

  // ---------------------------------------------------------------- tool comments

  lemma {:induction false} FreeSuffix(p: Text, t: Text)
    requires Free(p, t)
    ensures Free(p, TrimLeft(t))
  {
    if t != [] && IsSpace(t[0]) {
      FreeSuffix(p, t[1..]);
    }
  }

  /** The end of a comment is not found inside its JSON. */
  lemma ClosingAcross(w: Words, y: Text, rest: Text)
    requires Wordy(w) && Free(w.closing, y) && TrimLeft(y) != []
    ensures !(w.closing <= TrimLeft(y + ([SPACE] + (w.closing + rest))))
  {
    var z := [SPACE] + (w.closing + rest);
    TrimLeftOf(y, z);
    FreeSuffix(w.closing, y);
    SolidFree(w);
    NotAcross(w.closing, TrimLeft(y), z);
  }

  lemma {:induction false} BraceKept(y: Text)
    requires y != [] && y[|y| - 1] == RBRACE
    ensures TrimLeft(y) != []
  {
    if IsSpace(y[0]) {
      BraceKept(y[1..]);
    }
  }

  /** The JSON text ends at its last brace, before the end of the comment. */
  lemma {:induction false} BraceEnds(w: Words, y: Text, rest: Text)
    requires Wordy(w) && y != [] && y[|y| - 1] == RBRACE && Free(w.closing, y)
    ensures Brace(w, y + ([SPACE] + (w.closing + rest))) == Call(y, rest)
  {
    var z := [SPACE] + (w.closing + rest);
    var t := y + z;
    if |y| == 1 {
      assert t[1..] == z;
      TrimSpace(w.closing + rest);
      SolidStays(w.closing, rest);
      assert (w.closing + rest)[|w.closing|..] == rest;
    } else {
      assert t[1..] == y[1..] + z;
      BraceKept(y[1..]);
      ClosingAcross(w, y[1..], rest);
      BraceEnds(w, y[1..], rest);
      assert [y[0]] + y[1..] == y;
    }
  }

  lemma CommentWith(w: Words, json: Text, rest: Text)
    ensures Comment(w, json) + rest
            == w.opening + ([SPACE] + (w.tool + ([SPACE] + (json + ([SPACE] + (w.closing + rest))))))
  {
    var a := [SPACE] + w.closing;
    var b := json + a;
    var c := [SPACE] + b;
    var d := w.tool + c;
    Seqs.Assoc(w.opening, [SPACE] + d, rest);
    Seqs.Assoc([SPACE], d, rest);
    Seqs.Assoc(w.tool, c, rest);
    Seqs.Assoc([SPACE], b, rest);
    Seqs.Assoc(json, a, rest);
    Seqs.Assoc([SPACE], w.closing, rest);
  }

  lemma BehindText(x: Text, y: Text)
    ensures (x + y)[|x|..] == y && x <= x + y
  {}

  lemma WordRead(word: Text, y: Text)
    requires Solid(word)
    ensures TrimLeft([SPACE] + (word + y)) == word + y && word <= word + y && (word + y)[|word|..] == y
  {
    TrimSpace(word + y);
    SolidStays(word, y);
    BehindText(word, y);
  }

  lemma JsonRead(w: Words, json: Text, rest: Text)
    requires Wordy(w) && JsonOk(w, json)
    ensures var b := json + ([SPACE] + (w.closing + rest));
            && TrimLeft([SPACE] + b) == b && b[0] == LBRACE
            && Brace(w, b[1..]) == Call(json[1..], rest)
  {
    var z := [SPACE] + (w.closing + rest);
    var b := json + z;
    TrimSpace(b);
    assert b[0] == json[0];
    assert b[1..] == json[1..] + z;
    BraceEnds(w, json[1..], rest);
  }

  lemma CallParts(w: Words, t: Text, a: Text, b: Text, json: Text, rest: Text)
    requires w.opening <= t && TrimLeft(t[|w.opening|..]) == a && w.tool <= a && TrimLeft(a[|w.tool|..]) == b
    requires b != [] && b[0] == LBRACE && Brace(w, b[1..]) == Call(json, rest)
    ensures ReadCall(w, t) == Call([LBRACE] + json, rest)
  {}

  /** A comment is read as its JSON text. */
  lemma CommentRead(w: Words, json: Text, rest: Text)
    requires Wordy(w) && JsonOk(w, json)
    ensures ReadCall(w, Comment(w, json) + rest) == Call(json, rest)
  {
    var b := json + ([SPACE] + (w.closing + rest));
    var a := w.tool + ([SPACE] + b);
    CommentWith(w, json, rest);
    BehindText(w.opening, [SPACE] + a);
    WordRead(w.tool, [SPACE] + b);
    JsonRead(w, json, rest);
    CallParts(w, Comment(w, json) + rest, a, b, json[1..], rest);
    assert [LBRACE] + json[1..] == json;
  }

  lemma NoCallHere(w: Words, t: Text)
    requires t != [] && !Begun(w, t)
    ensures Calls(w, t) == Calls(w, t[1..])
  {}

  /** What may follow an answer: nothing, or a line break and a comment. */
  predicate Commented(w: Words, rest: Text) {
    rest == [] || (|rest| >= 2 && rest[0] == NL && w.opening != [] && rest[1] == w.opening[0])
  }

  lemma CommentedStart(w: Words, rest: Text)
    requires Wordy(w) && Commented(w, rest)
    ensures !(w.tool <= TrimLeft(rest)) && (TrimLeft(rest) != [] ==> TrimLeft(rest)[0] != LBRACE)
  {
    if rest != [] {
      assert w.opening[0] in w.opening;
      assert TrimLeft(rest) == rest[1..];
    }
  }

  lemma ToolAcross(w: Words, y: Text, rest: Text)
    requires Wordy(w) && Commented(w, rest) && w.tool <= TrimLeft(y + rest)
    ensures w.tool <= TrimLeft(y) && TrimLeft(y + rest)[|w.tool|..] == TrimLeft(y)[|w.tool|..] + rest
  {
    TrimLeftOf(y, rest);
    CommentedStart(w, rest);
    SolidFree(w);
    if !(w.tool <= TrimLeft(y)) {
      NotAcross(w.tool, TrimLeft(y), rest);
    }
  }

  lemma BraceAcross(w: Words, y: Text, rest: Text)
    requires Wordy(w) && Commented(w, rest) && TrimLeft(y + rest) != [] && TrimLeft(y + rest)[0] == LBRACE
    ensures TrimLeft(y) != [] && TrimLeft(y)[0] == LBRACE
  {
    TrimLeftOf(y, rest);
    CommentedStart(w, rest);
  }

  /** No comment begins in a text only because of the comments behind it. */
  lemma BegunAcross(w: Words, x: Text, rest: Text)
    requires Wordy(w) && Commented(w, rest) && x != [] && Begun(w, x + rest)
    ensures Begun(w, x)
  {
    SolidFree(w);
    if !(w.opening <= x) {
      NotAcross(w.opening, x, rest);
    }
    var n := |w.opening|;
    assert (x + rest)[n..] == x[n..] + rest;
    ToolAcross(w, x[n..], rest);
    BraceAcross(w, TrimLeft(x[n..])[|w.tool|..], rest);
  }

  lemma {:induction false} CallsSkip(w: Words, x: Text, rest: Text)
    requires Wordy(w) && NoneBegun(w, x) && Commented(w, rest)
    ensures Calls(w, x + rest) == Calls(w, rest)
  {
    if x == [] {
      assert x + rest == rest;
    } else {
      if Begun(w, x + rest) {
        BegunAcross(w, x, rest);
      }
      NoCallHere(w, x + rest);
      assert (x + rest)[1..] == x[1..] + rest;
      CallsSkip(w, x[1..], rest);
    }
  }

  lemma CallsStep(w: Words, t: Text, json: Text, rest: Text)
    requires t != [] && ReadCall(w, t) == Call(json, rest)
    ensures Calls(w, t) == [json] + Calls(w, rest)
  {}

  lemma BreakSkips(w: Words, x: Text)
    requires Wordy(w)
    ensures Calls(w, [NL] + x) == Calls(w, x)
  {
    assert IsSpace(NL);
    assert ([NL] + x)[0] == NL && ([NL] + x)[1..] == x;
    SolidFree(w);
    NoCallHere(w, [NL] + x);
  }

  /** All comments are found, in order. */
  lemma {:induction false} CommentsRead(w: Words, tools: seq<Text>)
    requires Wordy(w) && AllJson(w, tools)
    ensures Calls(w, Comments(w, tools)) == tools
  {
    if tools != [] {
      var c, more := Comment(w, tools[0]), Comments(w, tools[1..]);
      CommentLine(w, tools[0]);
      CommentRead(w, tools[0], more);
      BreakSkips(w, c + more);
      CallsStep(w, c + more, tools[0], more);
      CommentsRead(w, tools[1..]);
      assert [tools[0]] + tools[1..] == tools;
    }
  }

  lemma {:induction false} CallsTrim(w: Words, t: Text)
    requires Wordy(w)
    ensures Calls(w, TrimLeft(t)) == Calls(w, t)
  {
    if t != [] && IsSpace(t[0]) {
      assert w.opening[0] in w.opening;
      NoCallHere(w, t);
      CallsTrim(w, t[1..]);
    }
  }

  lemma CommentsFollow(w: Words, tools: seq<Text>)
    requires Wordy(w)
    ensures Commented(w, Comments(w, tools))
  {}

  lemma ReplyCalls(w: Words, e: Entry)
    requires Wordy(w) && EntryOk(w, e)
    ensures Calls(w, TrimLeft(Reply(w, e))) == e.tools
  {
    CallsTrim(w, Reply(w, e));
    if e.tools == [] {
      assert e.bot + [] == e.bot;
    } else {
      CommentsFollow(w, e.tools);
      CallsSkip(w, e.bot, Comments(w, e.tools));
      CommentsRead(w, e.tools);
    }
  }

  // ---------------------------------------------------------------- visible text

  /** The comments after those of the texts in `done` were erased. */
  function Left(w: Words, tools: seq<Text>, done: set<Text>): Text {
    if tools == [] then []
    else [NL] + ((if tools[0] in done then [] else Comment(w, tools[0])) + Left(w, tools[1..], done))
  }

  lemma {:induction false} LeftAll(w: Words, tools: seq<Text>)
    ensures Left(w, tools, {}) == Comments(w, tools)
  {
    if tools != [] {
      LeftAll(w, tools[1..]);
    }
  }

  lemma EraseHere(p: Text, rest: Text)
    requires p != []
    ensures Erase(p + rest, p) == Erase(rest, p)
  {
    BehindText(p, rest);
  }

  lemma EraseNot(t: Text, p: Text)
    requires p != [] && t != [] && !(p <= t)
    ensures Erase(t, p) == [t[0]] + Erase(t[1..], p)
  {}

  lemma EraseOne(x: Text, p: Text, rest: Text)
    requires x != [] && p != [] && NL !in p && !(p <= x) && (rest == [] || rest[0] == NL)
    ensures Erase(x + rest, p) == [x[0]] + Erase(x[1..] + rest, p)
  {
    NotAcross(p, x, rest);
    FirstApart(x, rest);
    EraseNot(x + rest, p);
  }

  lemma FirstApart(x: Text, rest: Text)
    requires x != []
    ensures x + rest != [] && (x + rest)[0] == x[0] && (x + rest)[1..] == x[1..] + rest
  {}

  lemma FreeParts(p: Text, x: Text)
    requires Free(p, x) && x != []
    ensures !(p <= x) && Free(p, x[1..])
  {}

  lemma HeadTail(x: Text, y: Text)
    requires x != []
    ensures [x[0]] + (x[1..] + y) == x + y
  {}

  lemma {:induction false} EraseSkips(x: Text, p: Text, rest: Text)
    requires p != [] && NL !in p && Free(p, x) && (rest == [] || rest[0] == NL)
    ensures Erase(x + rest, p) == x + Erase(rest, p)
  {
    if x == [] {
      assert x + rest == rest;
      assert [] + Erase(rest, p) == Erase(rest, p);
    } else {
      FreeParts(p, x);
      EraseOne(x, p, rest);
      EraseSkips(x[1..], p, rest);
      HeadTail(x, Erase(rest, p));
    }
  }

  lemma {:induction false} FreeStep(p: Text, t: Text)
    requires p != [] && !(p <= t) && (t != [] ==> Free(p, t[1..]))
    ensures Free(p, t)
  {}

  lemma SameComment(w: Words, i: Text, j: Text)
    requires Wordy(w) && JsonOk(w, i) && JsonOk(w, j) && Comment(w, i) <= Comment(w, j)
    ensures i == j
  {
    var p, t := Comment(w, i), Comment(w, j);
    CommentRead(w, j, []);
    assert t + [] == t;
    CommentRead(w, i, t[|p|..]);
    assert p + t[|p|..] == t;
  }

  /** Different JSON texts have different comments, neither inside the other. */
  lemma CommentsApart(w: Words, i: Text, j: Text)
    requires Wordy(w) && JsonOk(w, i) && JsonOk(w, j) && i != j
    requires Free(Comment(w, i), Comment(w, j)[1..])
    ensures Free(Comment(w, i), Comment(w, j))
  {
    if Comment(w, i) <= Comment(w, j) {
      SameComment(w, i, j);
    }
    FreeStep(Comment(w, i), Comment(w, j));
  }

  lemma EraseBreak(x: Text, p: Text)
    requires p != [] && NL !in p
    ensures Erase([NL] + x, p) == [NL] + Erase(x, p)
  {
    var t := [NL] + x;
    assert t[0] == NL && t[1..] == x;
    EraseNot(t, p);
  }

  lemma LeftBreak(w: Words, tools: seq<Text>, done: set<Text>)
    ensures Left(w, tools, done) == [] || Left(w, tools, done)[0] == NL
  {}

  predicate UnnestedIn(w: Words, json: Text, tools: seq<Text>) {
    forall j | j in tools :: Free(Comment(w, json), Comment(w, j)[1..])
  }

  /** Erasing one comment takes all its copies and nothing else. */
  lemma {:induction false} EraseComment(w: Words, tools: seq<Text>, done: set<Text>, json: Text)
    requires Wordy(w) && AllJson(w, tools) && JsonOk(w, json) && UnnestedIn(w, json, tools)
    ensures Erase(Left(w, tools, done), Comment(w, json)) == Left(w, tools, done + {json})
  {
    var p := Comment(w, json);
    CommentLine(w, json);
    if tools != [] {
      var more := Left(w, tools[1..], done);
      var c := if tools[0] in done then [] else Comment(w, tools[0]);
      EraseComment(w, tools[1..], done, json);
      LeftBreak(w, tools[1..], done);
      EraseBreak(c + more, p);
      if tools[0] in done {
        EraseSkips([], p, more);
      } else if tools[0] == json {
        EraseHere(p, more);
        assert [] + Erase(more, p) == Erase(more, p);
      } else {
        assert tools[0] in tools;
        CommentsApart(w, json, tools[0]);
        EraseSkips(c, p, more);
      }
    }
  }

  lemma EraseInReply(w: Words, bot: Text, tools: seq<Text>, done: set<Text>, json: Text)
    requires Wordy(w) && AllJson(w, tools) && JsonOk(w, json) && UnnestedIn(w, json, tools) && NoneBegun(w, bot)
    ensures Erase(bot + Left(w, tools, done), Comment(w, json)) == bot + Left(w, tools, done + {json})
  {
    CommentLine(w, json);
    FreeOf(w, json, bot);
    LeftBreak(w, tools, done);
    EraseSkips(bot, Comment(w, json), Left(w, tools, done));
    EraseComment(w, tools, done, json);
  }

  /** A comment begins like one. */
  lemma CommentBegun(w: Words, json: Text, rest: Text)
    requires Wordy(w) && JsonOk(w, json)
    ensures Begun(w, Comment(w, json) + rest)
  {
    var b := json + ([SPACE] + (w.closing + rest));
    CommentWith(w, json, rest);
    BehindText(w.opening, [SPACE] + (w.tool + ([SPACE] + b)));
    WordRead(w.tool, [SPACE] + b);
    JsonRead(w, json, rest);
  }

  lemma {:induction false} FreeOf(w: Words, json: Text, t: Text)
    requires Wordy(w) && JsonOk(w, json) && NoneBegun(w, t)
    ensures Free(Comment(w, json), t)
  {
    var p := Comment(w, json);
    if p <= t {
      CommentBegun(w, json, t[|p|..]);
      assert p + t[|p|..] == t;
    }
    if t != [] {
      FreeOf(w, json, t[1..]);
    }
  }
}
