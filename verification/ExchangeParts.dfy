/** How the parser of the exchange log takes one entry apart. */
module ExchangeParts {
  import Seqs
  import opened Texts
  import opened DayLog
  import opened DayLogSearch
  import opened Errors
  import opened ExchangeLog

  /** No white space in a text. */
  predicate Solid(t: Text) {
    t != [] && forall c | c in t :: !IsSpace(c)
  }

  /** What the proofs need of the fixed words; see LogProper. */
  predicate Wordy(w: Words) {
    && Solid(w.user) && Solid(w.assistant) && Solid(w.opening) && Solid(w.tool) && Solid(w.closing)
    && w.user[0] != LB && w.opening[0] != LB && w.opening[0] != w.user[0]
    && w.opening[0] != w.tool[0] && w.opening[0] != LBRACE
  }

  lemma SolidWord(s: string)
    requires s != "" && forall c | c in s :: '!' <= c <= '~'
    ensures Solid(Lit(s))
  {
    forall c | c in Lit(s) ensures !IsSpace(c) {
      var k :| 0 <= k < |s| && Lit(s)[k] == c;
      assert s[k] in s;
    }
  }

  lemma LogProper()
    ensures Wordy(LOG)
  {
    SolidWord("User:");
    SolidWord("Assistant:");
    SolidWord("<!--");
    SolidWord("TOOL_CALL:");
    SolidWord("-->");
    assert "User:"[0] == 'U' && "<!--"[0] == '<' && "TOOL_CALL:"[0] == 'T';
  }

  /** No delimiter of entries begins in the text. */
  predicate Undelimited(w: Words, t: Text) {
    t == [] || (!Delimits(w, t) && Undelimited(w, t[1..]))
  }

  predicate JsonOk(w: Words, json: Text) {
    && |json| >= 2 && json[0] == LBRACE && json[|json| - 1] == RBRACE
    && NL !in json && Free(w.closing, json)
  }

  predicate AllJson(w: Words, tools: seq<Text>) {
    tools == [] || (JsonOk(w, tools[0]) && AllJson(w, tools[1..]))
  }

  /** No tool comment has another one inside. */
  predicate Unnested(w: Words, tools: seq<Text>) {
    forall i, j | i in tools && j in tools :: Free(Comment(w, i), Comment(w, j)[1..])
  }

  predicate Stamp(t: Text) {
    t != [] && forall c | c in t :: IsStamp(c)
  }

  /** The text starts like a tool comment, up to the brace. */
  predicate Begun(w: Words, t: Text) {
    && w.opening <= t && w.tool <= TrimLeft(t[|w.opening|..])
    && var b := TrimLeft(TrimLeft(t[|w.opening|..])[|w.tool|..]);
       b != [] && b[0] == LBRACE
  }

  predicate NoneBegun(w: Words, t: Text) {
    !Begun(w, t) && (t != [] ==> NoneBegun(w, t[1..]))
  }

  /** Nothing in the answer is read as a tool comment: it holds none, and when comments
      follow that could end one, none begins in it. */
  predicate Plain(w: Words, e: Entry) {
    if e.tools == [] then Calls(w, e.bot) == [] else NoneBegun(w, e.bot)
  }

  /** Texts that are trimmed and free of delimiters, and a question that is asked. */
  predicate EntryOk(w: Words, e: Entry) {
    && Stamp(e.stamp)
    && e.user != [] && Trim(e.user) == e.user && Free([NL] + w.assistant, e.user)
    && Trim(e.bot) == e.bot && Undelimited(w, e.bot) && Plain(w, e)
    && AllJson(w, e.tools) && Unnested(w, e.tools)
  }

  // ------------------------------------------------------------------ small parts

  lemma Reaches(p: Text, y: Text, rest: Text)
    requires p <= y + rest && |p| > |y|
    ensures rest != [] && rest[0] in p && p[|y|] == rest[0]
  {
    assert p[|y|] == (y + rest)[|y|];
  }

  /** A text that lacks a character is not found across it. */
  lemma NotAcross(p: Text, y: Text, rest: Text)
    requires !(p <= y) && (rest == [] || rest[0] !in p)
    ensures !(p <= y + rest)
  {
    if p <= y + rest && |p| <= |y| {
      Within(p, y, rest);
    } else if p <= y + rest {
      Reaches(p, y, rest);
    }
  }

  lemma {:induction false} DropStampOf(x: Text, y: Text)
    requires y == [] || !IsStamp(y[0])
    ensures DropStamp(x + y) == DropStamp(x) + y
    ensures (forall c | c in x :: IsStamp(c)) ==> DropStamp(x) == []
  {
    if x == [] {
      assert x + y == y;
    } else {
      assert (x + y)[1..] == x[1..] + y;
      DropStampOf(x[1..], y);
    }
  }

  lemma TrimSpace(y: Text)
    ensures TrimLeft([SPACE] + y) == TrimLeft(y)
  {
    assert ([SPACE] + y)[1..] == y;
  }

  lemma SolidStays(x: Text, y: Text)
    requires Solid(x)
    ensures TrimLeft(x + y) == x + y
  {
    assert (x + y)[0] == x[0] && x[0] in x;
  }

  /** `[stamp] User:` is a head. */
  lemma HeadIs(w: Words, stamp: Text, q: Text)
    requires Wordy(w) && Stamp(stamp)
    ensures Head(w, [LB] + (stamp + ([RB] + ([SPACE] + (w.user + q))))) == Some(q)
  {
    var s := [SPACE] + (w.user + q);
    var r := [RB] + s;
    var t := [LB] + (stamp + r);
    assert t[1..] == stamp + r;
    DropStampOf(stamp, r);
    assert DropStamp(t[1..]) == r by {
      assert [] + r == r;
    }
    assert r[1..] == s;
    TrimSpace(w.user + q);
    SolidStays(w.user, q);
    assert (w.user + q)[|w.user|..] == q;
  }

  /** What may follow a text without being taken into a head. */
  predicate Stops(w: Words, rest: Text) {
    rest == [] || (|rest| >= 2 && w.user != [] && rest[0] == NL && !IsSpace(rest[1]) && rest[1] != w.user[0])
  }

  lemma StopStart(w: Words, rest: Text)
    requires Wordy(w) && Stops(w, rest)
    ensures !(w.user <= TrimLeft(rest))
  {
    if rest != [] {
      assert rest[1..] == TrimLeft(rest);
    }
  }

  lemma UserAcross(w: Words, y: Text, rest: Text)
    requires Wordy(w) && Stops(w, rest)
    ensures w.user <= TrimLeft(y + rest) ==> w.user <= TrimLeft(y)
  {
    TrimLeftOf(y, rest);
    StopStart(w, rest);
    assert IsSpace(NL);
    if TrimLeft(y) != [] && !(w.user <= TrimLeft(y)) {
      NotAcross(w.user, TrimLeft(y), rest);
    }
  }

  /** No head begins in a text only because of what follows it. */
  lemma HeadAcross(w: Words, x: Text, rest: Text)
    requires Wordy(w) && Stops(w, rest)
    ensures Head(w, x + rest).Some? ==> Head(w, x).Some?
  {
    if x == [] {
      assert x + rest == rest;
    } else if x[0] == LB {
      assert (x + rest)[1..] == x[1..] + rest;
      DropStampOf(x[1..], rest);
      var r := DropStamp(x[1..]);
      if r == [] {
        assert r + rest == rest;
      } else {
        assert (r + rest)[1..] == r[1..] + rest;
        UserAcross(w, r[1..], rest);
      }
    }
  }

  /** No delimiter begins in x when `rest` follows. */
  predicate Open(w: Words, x: Text, rest: Text) {
    x == [] || (!Delimits(w, x + rest) && Open(w, x[1..], rest))
  }

  lemma {:induction false} UndelimitedOpen(w: Words, x: Text, rest: Text)
    requires Wordy(w) && Stops(w, rest) && Undelimited(w, x)
    ensures Open(w, x, rest)
  {
    if x != [] {
      UndelimitedOpen(w, x[1..], rest);
      assert (x + rest)[1..] == x[1..] + rest;
      HeadAcross(w, x[1..], rest);
    }
  }

  lemma {:induction false} LineOpen(w: Words, x: Text, rest: Text)
    requires NL !in x
    ensures Open(w, x, rest)
  {
    if x != [] {
      LineOpen(w, x[1..], rest);
    }
  }

  lemma {:induction false} OpenJoin(w: Words, x: Text, y: Text, rest: Text)
    requires Open(w, x, y + rest) && Open(w, y, rest)
    ensures Open(w, x + y, rest)
  {
    if x == [] {
      assert x + y == y;
    } else {
      assert (x + y)[1..] == x[1..] + y;
      assert x + (y + rest) == (x + y) + rest;
      OpenJoin(w, x[1..], y, rest);
    }
  }

  lemma {:induction false} UntilNextOf(w: Words, x: Text, rest: Text)
    requires Open(w, x, rest) && (rest == [] || Delimits(w, rest))
    ensures UntilNext(w, x + rest) == (x, rest)
  {
    if x == [] {
      assert x + rest == rest;
    } else {
      assert (x + rest)[1..] == x[1..] + rest;
      UntilNextOf(w, x[1..], rest);
      assert [x[0]] + x[1..] == x;
    }
  }

  lemma CommentLine(w: Words, json: Text)
    requires Wordy(w) && NL !in json
    ensures NL !in Comment(w, json) && Comment(w, json) != [] && Comment(w, json)[0] == w.opening[0]
  {
    assert IsSpace(NL);
  }

  lemma CommentsStop(w: Words, tools: seq<Text>, rest: Text)
    requires Wordy(w) && AllJson(w, tools) && Stops(w, rest)
    ensures Stops(w, Comments(w, tools) + rest)
  {
    if tools != [] {
      CommentLine(w, tools[0]);
      assert w.opening[0] in w.opening;
    } else {
      assert [] + rest == rest;
    }
  }

  lemma {:induction false} CommentsOpen(w: Words, tools: seq<Text>, rest: Text)
    requires Wordy(w) && AllJson(w, tools)
    ensures Open(w, Comments(w, tools), rest)
  {
    if tools != [] {
      var c := Comment(w, tools[0]);
      var more := Comments(w, tools[1..]);
      CommentLine(w, tools[0]);
      CommentsOpen(w, tools[1..], rest);
      LineOpen(w, c, more + rest);
      OpenJoin(w, c, more, rest);
      BreakOpen(w, c + more, rest);
    }
  }

  lemma BreakOpen(w: Words, x: Text, rest: Text)
    requires x != [] && x[0] != LB && Open(w, x, rest)
    ensures Open(w, [NL] + x, rest)
  {
    assert ([NL] + x)[1..] == x;
    assert ([NL] + x + rest)[1..] == x + rest;
  }

  /** No delimiter begins in the answer part of an entry. */
  lemma ReplyOpen(w: Words, e: Entry, rest: Text)
    requires Wordy(w) && EntryOk(w, e) && Stops(w, rest)
    ensures Open(w, Reply(w, e), rest)
  {
    CommentsStop(w, e.tools, rest);
    CommentsOpen(w, e.tools, rest);
    UndelimitedOpen(w, e.bot, Comments(w, e.tools) + rest);
    OpenJoin(w, e.bot, Comments(w, e.tools), rest);
  }

  // -------------------------------------------------------------------- one entry

  /** An entry and what follows it. */
  function Written(w: Words, e: Entry, z: Text): Text {
    [LB] + (e.stamp + ([RB] + ([SPACE] + (w.user + ([SPACE]
    + (e.user + ([NL] + (w.assistant + ([SPACE] + (Reply(w, e) + z))))))))))
  }

  lemma FormatWritten(w: Words, e: Entry, z: Text)
    ensures Format(w, e) + z == Written(w, e, z)
  {
    var a := [SPACE] + Reply(w, e);
    var b := w.assistant + a;
    var c := [NL] + b;
    var d := e.user + c;
    var f := [SPACE] + d;
    var g := w.user + f;
    var h := [SPACE] + g;
    var i := [RB] + h;
    var j := e.stamp + i;
    Seqs.Assoc([LB], j, z);
    Seqs.Assoc(e.stamp, i, z);
    Seqs.Assoc([RB], h, z);
    Seqs.Assoc([SPACE], g, z);
    Seqs.Assoc(w.user, f, z);
    Seqs.Assoc([SPACE], d, z);
    Seqs.Assoc(e.user, c, z);
    Seqs.Assoc([NL], b, z);
    Seqs.Assoc(w.assistant, a, z);
    Seqs.Assoc([SPACE], Reply(w, e), z);
  }

  /** A text that begins with its only line break is not found across a later one. */
  lemma AnswerAcross(b: Text, q: Text, rest: Text)
    requires b != [] && !([NL] + q <= b) && NL !in q && rest != [] && rest[0] == NL
    ensures !([NL] + q <= b + rest)
  {
    var p := [NL] + q;
    assert |b| < |p| ==> p[|b|] == q[|b| - 1];
    if p <= b + rest && |p| <= |b| {
      Within(p, b, rest);
    } else if p <= b + rest {
      Reaches(p, b, rest);
    }
  }

  lemma {:induction false} FindAnswer(b: Text, q: Text, y: Text)
    requires Free([NL] + q, b) && NL !in q
    ensures Find(b + ([NL] + (q + y)), [NL] + q) == Split(b, y)
  {
    var p := [NL] + q;
    var t := b + ([NL] + (q + y));
    if b == [] {
      assert t == p + y;
      assert t[|p|..] == y;
    } else {
      assert t[1..] == b[1..] + ([NL] + (q + y));
      FindAnswer(b[1..], q, y);
      AnswerAcross(b, q, [NL] + (q + y));
      assert [b[0]] + b[1..] == b;
    }
  }

  lemma SolidFree(w: Words)
    requires Wordy(w)
    ensures NL !in w.assistant && NL !in w.user && NL !in w.opening && NL !in w.closing && NL !in w.tool
    ensures SPACE !in w.closing && SPACE !in w.opening
  {
    assert IsSpace(NL) && IsSpace(SPACE);
  }

  lemma TrimmedStart(x: Text, y: Text)
    requires x != [] && Trim(x) == x
    ensures TrimLeft(x + y) == x + y
  {}

  /** An entry is read as its question and its answer part. */
  lemma EntryRead(w: Words, e: Entry, z: Text)
    requires Wordy(w) && EntryOk(w, e)
    ensures ReadEntry(w, Written(w, e, z)) == ReadReply(w, e.user, [SPACE] + (Reply(w, e) + z))
  {
    var y := [SPACE] + (Reply(w, e) + z);
    var u := e.user + ([NL] + (w.assistant + y));
    HeadIs(w, e.stamp, [SPACE] + u);
    TrimSpace(u);
    TrimmedStart(e.user, [NL] + (w.assistant + y));
    SolidFree(w);
    FindAnswer(e.user, w.assistant, y);
  }

  /** The answer part runs to the end of the entry, unless it is empty. */
  lemma ReplyRead(w: Words, e: Entry, z: Text)
    requires Wordy(w) && EntryOk(w, e) && Stops(w, z) && (z == [] || Delimits(w, z))
    requires Reply(w, e) != [] || z == []
    ensures ReadReply(w, e.user, [SPACE] + (Reply(w, e) + z)) == Raw(e.user, TrimLeft(Reply(w, e)), z)
  {
    var r := Reply(w, e);
    TrimSpace(r + z);
    TrimLeftOf(r, z);
    ReplyOpen(w, e, z);
    if r == [] {
      assert r + z == z;
    } else {
      ReplyStart(w, e);
      if e.bot == [] {
        assert r[1..] == TrimLeft(r);
        UntilNextOf(w, r[1..], z);
      } else {
        UntilNextOf(w, r, z);
      }
    }
  }

  lemma ReplyStart(w: Words, e: Entry)
    requires Wordy(w) && EntryOk(w, e) && Reply(w, e) != []
    ensures TrimLeft(Reply(w, e)) != []
    ensures if e.bot == [] then Reply(w, e)[0] == NL && TrimLeft(Reply(w, e)) == Reply(w, e)[1..]
            else TrimLeft(Reply(w, e)) == Reply(w, e)
  {
    if e.bot == [] {
      var c := Comment(w, e.tools[0]) + Comments(w, e.tools[1..]);
      assert Reply(w, e) == [NL] + c;
      assert ([NL] + c)[1..] == c;
      CommentLine(w, e.tools[0]);
      assert c[0] == w.opening[0] && w.opening[0] in w.opening;
    } else {
      TrimmedStart(e.bot, Comments(w, e.tools));
    }
  }
}
