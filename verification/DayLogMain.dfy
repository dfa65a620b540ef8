/** Adding an entry to the main history of a daily log, and whole days. */
module DayLogMain {
  import Seqs
  import opened Texts
  import opened DayLog
  import opened DayLogSearch
  import opened DayLogLaws
  import opened DayLogRuns

  predicate Opening(m: Marks, v: Text) {
    m.opener <= v || m.oldOpener <= v
  }

  /** Of the line breaks among the first n characters, none is followed by an opener. */
  predicate Bare(m: Marks, t: Text, n: nat) {
    n == 0 || t == [] || ((t[0] == NL ==> !Opening(m, t[1..])) && Bare(m, t[1..], n - 1))
  }

  lemma {:induction false} BareLine(m: Marks, t: Text, n: nat)
    requires Bare(m, t, n) && |FirstLine(t)| < n && |FirstLine(t)| < |t|
    ensures !Opening(m, t[|FirstLine(t)| + 1..])
  {
    if t[0] != NL {
      BareLine(m, t[1..], n - 1);
      assert t[1..][|FirstLine(t[1..])| + 1..] == t[|FirstLine(t)| + 1..];
    }
  }

  lemma {:induction false} BareStep(m: Marks, x: Text, y: Text, k: nat)
    requires Proper(m) && Calm(m.opener, x) && Calm(m.oldOpener, x)
    requires !Opening(m, y) && Bare(m, y, k)
    ensures Bare(m, x + ([NL] + y), |x| + 1 + k)
  {
    var t := x + ([NL] + y);
    if x == [] {
      assert t[1..] == y;
    } else {
      assert t[1..] == x[1..] + ([NL] + y);
      BareStep(m, x[1..], y, k);
      if x[0] == NL {
        NotPrefix(m.opener, x[1..], [NL] + y);
        NotPrefix(m.oldOpener, x[1..], [NL] + y);
      }
    }
  }

  function PrependSplit(x: Text, s: Split): Split {
    if s.Split? then Split(x + s.before, s.after) else Nowhere
  }

  lemma PrependSplitTwice(x: Text, y: Text, s: Split)
    ensures PrependSplit(x, PrependSplit(y, s)) == PrependSplit(x + y, s)
  {
    if s.Split? {
      assert x + (y + s.before) == (x + y) + s.before;
    }
  }

  lemma PrependSplitNothing(s: Split)
    ensures PrependSplit([], s) == s
  {
    if s.Split? {
      assert [] + s.before == s.before;
    }
  }

  lemma HeadsOpens(m: Marks, t: Text)
    requires Heads(m, t)
    ensures t != [] && t[0] == NL && 1 + |FirstLine(t[1..])| < |t|
    ensures Opening(m, t[1..][|FirstLine(t[1..])| + 1..])
  {
    assert t[1..][|FirstLine(t[1..])| + 1..] == t[|FirstLine(t[1..])| + 2..];
  }

  lemma NotHeads(m: Marks, t: Text, n: nat)
    requires 0 < n <= |t| && (n < |t| ==> t[n] == NL) && Bare(m, t, n + 1)
    ensures !Heads(m, t)
  {
    if Heads(m, t) {
      HeadsOpens(m, t);
      if n < |t| {
        FirstLineBound(t[1..], n - 1);
      }
      BareLine(m, t[1..], n);
    }
  }

  lemma HeadStep(m: Marks, t: Text)
    requires t != [] && !Heads(m, t)
    ensures FirstHead(m, t) == PrependSplit([t[0]], FirstHead(m, t[1..]))
  {}

  /** No section begins in the first n characters. */
  lemma {:induction false} HeadSkips(m: Marks, t: Text, n: nat)
    requires n <= |t| && (0 < n < |t| ==> t[n] == NL) && (n > 0 ==> Bare(m, t, n + 1))
    ensures FirstHead(m, t) == PrependSplit(t[..n], FirstHead(m, t[n..]))
  {
    if n == 0 {
      assert t[..0] == [] && t[0..] == t;
      PrependSplitNothing(FirstHead(m, t));
    } else {
      NotHeads(m, t, n);
      HeadStep(m, t);
      HeadSkips(m, t[1..], n - 1);
      Regroup(t, n);
      PrependSplitTwice([t[0]], t[1..][..n - 1], FirstHead(m, t[n..]));
    }
  }

  lemma BareBreak(m: Marks, y: Text)
    requires Proper(m) && (y == [] || y[0] == NL || y[0] == HASH)
    ensures !Opening(m, y)
  {}

  lemma BlankHead(m: Marks, y: Text)
    requires Proper(m) && (y == [] || y[0] == NL)
    ensures !Heads(m, [NL] + y)
  {
    assert ([NL] + y)[1..] == y;
    assert FirstLine(y) == [];
  }

  /** The first section head comes after the main history. */
  lemma HeadAfterMain(m: Marks, main: Text, y: Text)
    requires Proper(m) && Calm(m.opener, main) && Calm(m.oldOpener, main) && (y == [] || y[0] == NL)
    ensures FirstHead(m, main + ([NL] + y)) == PrependSplit(main + [NL], FirstHead(m, y))
  {
    var t := main + ([NL] + y);
    BareBreak(m, y);
    BareStep(m, main, y, 0);
    HeadSkips(m, t, |main|);
    assert t[..|main|] == main && t[|main|..] == [NL] + y;
    BlankHead(m, y);
    HeadStep(m, [NL] + y);
    assert ([NL] + y)[1..] == y;
    PrependSplitTwice(main, [NL], FirstHead(m, y));
  }

  lemma HeadsImage(m: Marks, s: Section, rest: Text)
    requires Proper(m) && SectionOk(m, s)
    ensures Heads(m, [NL] + (Image(m, s) + rest))
    ensures FirstHead(m, [NL] + (Image(m, s) + rest)) == Split([], [NL] + (Image(m, s) + rest))
  {
    var u := Image(m, s) + rest;
    var y := s.body + ([NL] + (m.closer + rest));
    var t := [NL] + u;
    SectionHeading(m, s, rest);
    ImageLength(m, s, rest);
    OpenerLine(m, s.id, y);
    assert t[1..] == u;
    assert t[|HASHES + s.title| + 2..] == u[|HASHES + s.title| + 1..];
    assert HASHES <= HASHES + s.title;
  }

  function Appended(d: Doc, entry: Text): Doc {
    Doc(Grown(d.main, entry), false, d.sections)
  }

  /** Adding an entry between what is kept and the section that follows. */
  lemma AppendBetween(m: Marks, t: Text, entry: Text, kept: Text, u: Text)
    requires FirstHead(m, t) == Split(kept + [NL], [NL] + u) && TrimRight(kept) == kept
    requires u != [] && u[0] == HASH
    ensures AppendMain(m, t, entry)
            == (if kept != [] then kept + [NL] else []) + Trim(entry) + [NL, NL] + u
  {
    TrimBreak(kept);
    DropOne(u);
  }

  lemma TailParts(m: Marks, ss: seq<Section>)
    requires ss != []
    ensures Tail(m, ss) == [NL] + ([NL] + (Image(m, ss[0]) + Tail(m, ss[1..])))
  {
    assert [NL, NL] == [NL] + [NL];
    Seqs.Assoc([NL], [NL], Image(m, ss[0]) + Tail(m, ss[1..]));
  }

  lemma SectionOf(m: Marks, ss: seq<Section>)
    requires SectionsOk(m, ss) && ss != []
    ensures SectionOk(m, ss[0])
  {}

  /** Where a heading follows, the search stops behind the text before it. */
  lemma PrependNothing(x: Text, after: Text)
    ensures PrependSplit(x, Split([], after)) == Split(x, after)
  {
    assert x + [] == x;
  }

  lemma ShownHead(m: Marks, d: Doc)
    requires Proper(m) && DocOk(m, d) && (d.main != [] || d.lead) && d.sections != []
    ensures FirstHead(m, Show(m, d))
            == Split(d.main + [NL], [NL] + (Image(m, d.sections[0]) + Tail(m, d.sections[1..])))
  {
    var u := Image(m, d.sections[0]) + Tail(m, d.sections[1..]);
    TailParts(m, d.sections);
    SectionOf(m, d.sections);
    HeadAfterMain(m, d.main, [NL] + u);
    HeadsImage(m, d.sections[0], Tail(m, d.sections[1..]));
    PrependNothing(d.main + [NL], [NL] + u);
  }

  /** Adding an entry where the main history comes first, or blank lines do. */
  lemma AppendShown(m: Marks, d: Doc, entry: Text)
    requires Proper(m) && DocOk(m, d) && (d.main != [] || d.lead) && d.sections != [] && Trim(entry) != []
    ensures AppendMain(m, Show(m, d), entry) == Show(m, Appended(d, Trim(entry)))
  {
    var u := Image(m, d.sections[0]) + Tail(m, d.sections[1..]);
    ShownHead(m, d);
    ImageHead(m, d.sections[0], Tail(m, d.sections[1..]));
    AppendBetween(m, Show(m, d), entry, d.main, u);
    Leading(d.main, Trim(entry), u);
    AppendedText(m, d, Trim(entry));
  }

  lemma Leading(main: Text, e: Text, u: Text)
    ensures (if main != [] then main + [NL] else []) + e + [NL, NL] + u == Grown(main, e) + ([NL, NL] + u) || e == []
  {
    if main != [] {
      Seqs.Assoc(main + [NL] + e, [NL, NL], u);
    } else {
      Seqs.Assoc(e, [NL, NL], u);
      assert [] + e == e;
    }
  }

  lemma AppendedText(m: Marks, d: Doc, e: Text)
    requires d.sections != [] && e != []
    ensures Show(m, Appended(d, e))
            == Grown(d.main, e) + ([NL, NL] + (Image(m, d.sections[0]) + Tail(m, d.sections[1..])))
  {}

  lemma DropOne(u: Text)
    requires u != [] && u[0] == HASH
    ensures DropNewlines([NL] + u) == u
  {
    assert ([NL] + u)[1..] == u;
    assert DropNewlines(u) == u;
  }

  lemma NoHead(m: Marks)
    requires Proper(m)
    ensures FirstHead(m, []) == Nowhere
  {}

  lemma AppendNowhere(m: Marks, t: Text, entry: Text)
    requires FirstHead(m, t) == Nowhere
    ensures AppendMain(m, t, entry)
            == (if Trim(t) != [] then TrimRight(t) + [NL] else []) + Trim(entry) + [NL]
  {}

  /** Adding an entry to a log without sections. */
  lemma AppendPlain(m: Marks, d: Doc, entry: Text)
    requires Proper(m) && DocOk(m, d) && d.sections == [] && Trim(entry) != []
    ensures AppendMain(m, Show(m, d), entry) == Show(m, Appended(d, Trim(entry)))
  {
    NoHead(m);
    if d.main == [] {
      AppendNowhere(m, [], entry);
      assert Trim([]) == [];
      assert [] + Trim(entry) + [NL] == Trim(entry) + [NL];
    } else {
      HeadAfterMain(m, d.main, []);
      assert [NL] + [] == [NL];
      AppendNowhere(m, Show(m, d), entry);
      ShownTrimmed(m, d);
      assert Upto(m, d, 0) == d.main;
    }
  }

  lemma AppendedOk(m: Marks, d: Doc, entry: Text)
    requires Proper(m) && DocOk(m, d) && Unmarked(m, Trim(entry)) && Trim(entry) != []
    ensures DocOk(m, Appended(d, Trim(entry)))
  {
    var e := Trim(entry);
    TrimTwice(entry);
    TrimEnds(e);
    UnmarkedJoin(m, d.main, e);
    LastStays(Grown(d.main, e));
  }

  /** The log begins with its main history, or at least not with a section. */
  predicate MainFirst(d: Doc) {
    d.main != [] || d.lead || d.sections == []
  }

  lemma AppendDoc(m: Marks, d: Doc, entry: Text)
    requires Proper(m) && DocOk(m, d) && MainFirst(d) && Trim(entry) != []
    ensures AppendMain(m, Show(m, d), entry) == Show(m, Appended(d, Trim(entry)))
  {
    if d.sections == [] {
      AppendPlain(m, d, entry);
    } else {
      AppendShown(m, d, entry);
    }
  }

  /** Adding an entry extends the main history by exactly the entry and leaves every
      thread as it was. */
  lemma AppendHistories(m: Marks, d: Doc, entry: Text, id: Text)
    requires Proper(m) && DocOk(m, d) && MainFirst(d) && Unmarked(m, Trim(entry)) && Trim(entry) != []
    ensures var before := Show(m, d);
            var after := AppendMain(m, before, entry);
            && MainHistory(m, after) == Grown(MainHistory(m, before), Trim(entry))
            && ThreadHistory(m, after, id) == ThreadHistory(m, before, id)
  {
    AppendDoc(m, d, entry);
    AppendedOk(m, d, entry);
    MainShown(m, d);
    MainShown(m, Appended(d, Trim(entry)));
    ThreadShown(m, d, id);
    ThreadShown(m, Appended(d, Trim(entry)), id);
  }

  // ------------------------------------------------- logs that begin with a section

  lemma {:induction false} HeadLine(m: Marks, x: Text, y: Text)
    requires NL !in x
    ensures FirstHead(m, x + y) == PrependSplit(x, FirstHead(m, y))
  {
    if x == [] {
      assert x + y == y;
      PrependSplitNothing(FirstHead(m, y));
    } else {
      assert (x + y)[1..] == x[1..] + y;
      HeadLine(m, x[1..], y);
      HeadStep(m, x + y);
      assert [x[0]] + x[1..] == x;
      PrependSplitTwice([x[0]], x[1..], FirstHead(m, y));
    }
  }

  lemma {:induction false} FirstLineStart(t: Text)
    ensures FirstLine(t) != [] ==> t != [] && FirstLine(t)[0] == t[0]
  {}

  /** The line after the heading is no heading. */
  lemma OpenerNoHead(m: Marks, v: Text)
    requires Proper(m) && v != [] && v[0] != HASH
    ensures FirstHead(m, [NL] + v) == PrependSplit([NL], FirstHead(m, v))
  {
    assert ([NL] + v)[1..] == v;
    FirstLineStart(v);
    assert HASHES[0] == HASH;
    HeadStep(m, [NL] + v);
  }

  lemma CalmSection(m: Marks, p: Text, s: Section)
    requires Proper(m) && SectionOk(m, s) && (p == m.opener || p == m.oldOpener)
    ensures Calm(p, (m.opener + (s.id + DASHES)) + [NL] + (s.body + [NL] + m.closer))
  {
    CalmLine(p, m.closer);
    CalmJoin(p, s.body, m.closer);
    NotPrefix(p, s.body, [NL] + m.closer);
    assert s.body + ([NL] + m.closer) == s.body + [NL] + m.closer;
    CalmLine(p, m.opener + (s.id + DASHES));
    CalmJoin(p, m.opener + (s.id + DASHES), s.body + [NL] + m.closer);
  }

  /** Looking for a section head passes over the section that a log begins with. */
  lemma HeadAfterSection(m: Marks, s: Section, y: Text)
    requires Proper(m) && SectionOk(m, s) && (y == [] || y[0] == NL)
    ensures FirstHead(m, Image(m, s) + ([NL] + y)) == PrependSplit(Image(m, s) + [NL], FirstHead(m, y))
  {
    var h := HASHES + s.title;
    var w := (m.opener + (s.id + DASHES)) + [NL] + (s.body + [NL] + m.closer);
    var v := w + ([NL] + y);
    Unfold(m, s, y);
    HeadLine(m, h, [NL] + v);
    assert v[0] == m.opener[0];
    OpenerNoHead(m, v);
    CalmSection(m, m.opener, s);
    CalmSection(m, m.oldOpener, s);
    HeadAfterMain(m, w, y);
    PrependSplitTwice([NL], w + [NL], FirstHead(m, y));
    PrependSplitTwice(h, [NL] + (w + [NL]), FirstHead(m, y));
  }

  lemma Unfold(m: Marks, s: Section, y: Text)
    ensures var w := (m.opener + (s.id + DASHES)) + [NL] + (s.body + [NL] + m.closer);
            && Image(m, s) + ([NL] + y) == (HASHES + s.title) + ([NL] + (w + ([NL] + y)))
            && (HASHES + s.title) + ([NL] + (w + [NL])) == Image(m, s) + [NL]
  {
    var w := (m.opener + (s.id + DASHES)) + [NL] + (s.body + [NL] + m.closer);
    assert Image(m, s) == (HASHES + s.title) + ([NL] + w);
    Nest(HASHES + s.title, [NL], w, [NL]);
    Nest(HASHES + s.title, [NL], w, [NL] + y);
  }

  lemma BehindOne(m: Marks, d: Doc, entry: Text)
    requires Proper(m) && DocOk(m, d) && !MainFirst(d) && Trim(entry) != [] && |d.sections| == 1
    ensures AppendMain(m, Show(m, d), entry) == Image(m, d.sections[0]) + [NL] + Trim(entry) + [NL]
  {
    var i := Image(m, d.sections[0]);
    assert d.sections[1..] == [];
    LastOfImage(m, d.sections[0]);
    HeadAfterSection(m, d.sections[0], []);
    assert [NL] + [] == [NL];
    NoHead(m);
    AppendNowhere(m, Show(m, d), entry);
    ShownTrimmed(m, d);
    assert Upto(m, d, 1) == i by {
      assert d.sections[1..1] == [];
      assert i + [] == i;
    }
  }

  lemma BehindHead(m: Marks, d: Doc)
    requires Proper(m) && DocOk(m, d) && !MainFirst(d) && |d.sections| > 1
    ensures FirstHead(m, Show(m, d))
            == Split(Image(m, d.sections[0]) + [NL],
                     [NL] + (Image(m, d.sections[1]) + Tail(m, d.sections[1..][1..])))
  {
    var rest := d.sections[1..];
    var u := Image(m, rest[0]) + Tail(m, rest[1..]);
    TailParts(m, rest);
    SectionOf(m, d.sections);
    SectionOf(m, rest);
    HeadAfterSection(m, d.sections[0], [NL] + u);
    HeadsImage(m, rest[0], Tail(m, rest[1..]));
    PrependNothing(Image(m, d.sections[0]) + [NL], [NL] + u);
  }

  lemma BehindMore(m: Marks, d: Doc, entry: Text)
    requires Proper(m) && DocOk(m, d) && !MainFirst(d) && Trim(entry) != [] && |d.sections| > 1
    ensures AppendMain(m, Show(m, d), entry)
            == Image(m, d.sections[0]) + [NL] + Trim(entry) + Tail(m, d.sections[1..])
  {
    var rest := d.sections[1..];
    var i := Image(m, d.sections[0]);
    var u := Image(m, rest[0]) + Tail(m, rest[1..]);
    BehindHead(m, d);
    LastOfImage(m, d.sections[0]);
    LastStays(i);
    ImageHead(m, rest[0], Tail(m, rest[1..]));
    AppendBetween(m, Show(m, d), entry, i, u);
    Seqs.Assoc(i + [NL] + Trim(entry), [NL, NL], u);
  }

  /** Adding an entry to a log that begins with a section puts it after that section. */
  lemma AppendBehind(m: Marks, d: Doc, entry: Text)
    requires Proper(m) && DocOk(m, d) && !MainFirst(d) && Trim(entry) != []
    ensures AppendMain(m, Show(m, d), entry)
            == Image(m, d.sections[0]) + (([NL] + Trim(entry)) + Tail(m, d.sections[1..]))
  {
    if |d.sections| == 1 {
      BehindOne(m, d, entry);
      assert d.sections[1..] == [];
    } else {
      BehindMore(m, d, entry);
    }
    Three(Image(m, d.sections[0]), [NL], Trim(entry), Tail(m, d.sections[1..]));
  }

  lemma Three(a: Text, b: Text, c: Text, d: Text)
    ensures a + ((b + c) + d) == a + b + c + d
  {}

  /** A section at the start of a text is left out of its main history. */
  lemma MainAfterSection(m: Marks, s: Section, t: Text)
    requires Proper(m) && SectionOk(m, s)
    ensures MainHistory(m, Image(m, s) + t) == MainHistory(m, t)
  {
    var all := Image(m, s) + t;
    GapMatches(m, s, t, Any, []);
    assert [] + all == all;
    SearchHere(m, all, Any);
    WithoutFound(m, all);
    assert [] + Without(m, false, t) == Without(m, false, t);
  }

  lemma EntryMain(m: Marks, entry: Text)
    requires Proper(m) && Unmarked(m, Trim(entry)) && Trim(entry) != []
    ensures Unmarked(m, [NL] + Trim(entry)) && TrimRight([NL] + Trim(entry)) == [NL] + Trim(entry)
  {
    TrimTwice(entry);
    TrimEnds(Trim(entry));
    LastStays([NL] + Trim(entry));
    assert ([NL] + Trim(entry))[1..] == Trim(entry);
  }

  /** The entry then comes back with a line break before it. */
  lemma MainBehind(m: Marks, d: Doc, entry: Text)
    requires Proper(m) && DocOk(m, d) && !MainFirst(d) && Unmarked(m, Trim(entry)) && Trim(entry) != []
    ensures MainHistory(m, AppendMain(m, Show(m, d), entry)) == [NL] + Trim(entry)
  {
    var f := Doc([NL] + Trim(entry), false, d.sections[1..]);
    EntryMain(m, entry);
    AppendBehind(m, d, entry);
    MainAfterSection(m, d.sections[0], Show(m, f));
    MainShown(m, f);
  }

  /** An entry extends the main history by exactly itself if and only if the log does
      not begin with a section. */
  lemma AppendExactly(m: Marks, d: Doc, entry: Text)
    requires Proper(m) && DocOk(m, d) && Unmarked(m, Trim(entry)) && Trim(entry) != []
    ensures MainHistory(m, AppendMain(m, Show(m, d), entry)) == Grown(MainHistory(m, Show(m, d)), Trim(entry))
            <==> MainFirst(d)
  {
    MainShown(m, d);
    if MainFirst(d) {
      AppendHistories(m, d, entry, []);
    } else {
      MainBehind(m, d, entry);
      assert |[NL] + Trim(entry)| == |Trim(entry)| + 1;
    }
  }

  // ------------------------------------------------------------------ whole days

  datatype Op = Main(entry: Text) | Thread(id: Text, block: Text, title: Text)

  predicate OpOk(m: Marks, op: Op) {
    match op
    case Main(entry) => Unmarked(m, Trim(entry)) && Trim(entry) != []
    case Thread(id, block, title) => BlockOk(m, block) && Line(id) && NL !in Trim(title)
  }

  function Write(m: Marks, titleOf: Text -> Text, t: Text, op: Op): Text {
    match op
    case Main(entry) => AppendMain(m, t, entry)
    case Thread(id, block, title) => Upsert(m, titleOf, t, id, block, title)
  }

  /** The log of a day. */
  function Day(m: Marks, titleOf: Text -> Text, ops: seq<Op>): Text {
    if ops == [] then [] else Write(m, titleOf, Day(m, titleOf, ops[..|ops| - 1]), ops[|ops| - 1])
  }

  function DayDoc(ops: seq<Op>): Doc {
    if ops == [] then Doc([], false, [])
    else
      var d := DayDoc(ops[..|ops| - 1]);
      match ops[|ops| - 1]
      case Main(entry) => Appended(d, Trim(entry))
      case Thread(id, block, title) => Upserted(d, id, block, title)
  }

  /** All main entries, one after the other. */
  function Entries(ops: seq<Op>): Text {
    if ops == [] then []
    else
      var before := Entries(ops[..|ops| - 1]);
      match ops[|ops| - 1]
      case Main(entry) => Grown(before, Trim(entry))
      case Thread(_, _, _) => before
  }

  /** All blocks of one thread, one after the other. */
  function Blocks(ops: seq<Op>, id: Text): Text {
    if ops == [] then []
    else
      var before := Blocks(ops[..|ops| - 1], id);
      match ops[|ops| - 1]
      case Main(_) => before
      case Thread(i, block, _) => if i == id then Grown(before, Trim(block)) else before
  }

  lemma {:induction false} DayShown(m: Marks, titleOf: Text -> Text, ops: seq<Op>, id: Text)
    requires Proper(m) && (forall k | 0 <= k < |ops| :: OpOk(m, ops[k])) && (ops != [] ==> ops[0].Main?)
    ensures DocOk(m, DayDoc(ops)) && Day(m, titleOf, ops) == Show(m, DayDoc(ops))
    ensures DayDoc(ops).main == Entries(ops) && (ops != [] ==> Entries(ops) != [])
    ensures Body(DayDoc(ops).sections, id) == Blocks(ops, id)
  {
    if ops != [] {
      var init := ops[..|ops| - 1];
      DayShown(m, titleOf, init, id);
      DayStep(m, titleOf, DayDoc(init), ops[|ops| - 1], id);
    }
  }

  lemma DayStep(m: Marks, titleOf: Text -> Text, d: Doc, op: Op, id: Text)
    requires Proper(m) && DocOk(m, d) && OpOk(m, op)
    requires op.Main? ==> MainFirst(d)
    ensures var e := match op
                     case Main(entry) => Appended(d, Trim(entry))
                     case Thread(i, block, title) => Upserted(d, i, block, title);
            && DocOk(m, e) && Write(m, titleOf, Show(m, d), op) == Show(m, e)
            && e.main == (if op.Main? then Grown(d.main, Trim(op.entry)) else d.main)
            && Body(e.sections, id)
               == if op.Thread? && op.id == id then Grown(Body(d.sections, id), Trim(op.block))
                  else Body(d.sections, id)
  {
    match op
    case Main(entry) =>
      AppendDoc(m, d, entry);
      AppendedOk(m, d, entry);
    case Thread(i, block, title) =>
      UpsertShown(m, titleOf, d, i, block, title);
      UpsertedOk(m, d, i, block, title);
      UpsertedBody(d, i, block, title, id);
  }

  /** A day that begins with a main entry: the two kinds of history read back from
      the one text are all the entries and all the blocks of the thread, in order,
      whatever else was written in between. */
  lemma DayHistories(m: Marks, titleOf: Text -> Text, ops: seq<Op>, id: Text)
    requires Proper(m) && (forall k | 0 <= k < |ops| :: OpOk(m, ops[k])) && (ops != [] ==> ops[0].Main?)
    ensures MainHistory(m, Day(m, titleOf, ops)) == Entries(ops)
    ensures ThreadHistory(m, Day(m, titleOf, ops), id) == Blocks(ops, id)
  {
    DayShown(m, titleOf, ops, id);
    MainShown(m, DayDoc(ops));
    ThreadShown(m, DayDoc(ops), id);
  }

  // ------------------------------------------------------------- what was written

  /** The main entries of a day, and the blocks of one thread that hold anything. */
  function Mains(ops: seq<Op>): seq<Text> {
    if ops == [] then []
    else
      Mains(ops[..|ops| - 1])
      + match ops[|ops| - 1]
        case Main(entry) => [Trim(entry)]
        case Thread(_, _, _) => []
  }

  function BlocksOf(ops: seq<Op>, id: Text): seq<Text> {
    if ops == [] then []
    else
      BlocksOf(ops[..|ops| - 1], id)
      + match ops[|ops| - 1]
        case Main(_) => []
        case Thread(i, block, _) => if i == id && Trim(block) != [] then [Trim(block)] else []
  }

  predicate NoneEmpty(parts: seq<Text>) {
    forall p | p in parts :: p != []
  }

  lemma {:induction false} JoinGrows(parts: seq<Text>, p: Text)
    requires NoneEmpty(parts) && p != []
    ensures Join(parts + [p]) == Grown(Join(parts), p) && (parts != [] ==> Join(parts) != [])
  {
    if parts == [] {
      assert [] + [p] == [p];
    } else {
      var first, rest := parts[0], parts[1..];
      assert first in parts && forall x | x in rest :: x in parts;
      JoinGrows(rest, p);
      assert (parts + [p])[1..] == rest + [p];
      if rest != [] {
        assert first + [NL] + (Join(rest) + [NL] + p) == (first + [NL] + Join(rest)) + [NL] + p;
      } else {
        assert rest + [p] == [p];
      }
    }
  }

  lemma {:induction false} EntriesJoined(m: Marks, ops: seq<Op>)
    requires forall k | 0 <= k < |ops| :: OpOk(m, ops[k])
    ensures NoneEmpty(Mains(ops)) && Entries(ops) == Join(Mains(ops))
  {
    if ops != [] {
      var init, last := ops[..|ops| - 1], ops[|ops| - 1];
      var parts := Mains(init);
      EntriesJoined(m, init);
      if last.Main? {
        JoinGrows(parts, Trim(last.entry));
      } else {
        assert parts + [] == parts;
      }
    }
  }

  lemma {:induction false} BlocksJoined(ops: seq<Op>, id: Text)
    ensures NoneEmpty(BlocksOf(ops, id)) && Blocks(ops, id) == Join(BlocksOf(ops, id))
  {
    if ops != [] {
      var init, last := ops[..|ops| - 1], ops[|ops| - 1];
      var parts := BlocksOf(init, id);
      BlocksJoined(init, id);
      if last.Thread? && last.id == id && Trim(last.block) != [] {
        JoinGrows(parts, Trim(last.block));
      } else {
        assert parts + [] == parts;
      }
    }
  }

  /** The histories of a day are its main entries and the blocks of the thread, one behind
      the other, each on lines of its own. */
  lemma DayJoined(m: Marks, titleOf: Text -> Text, ops: seq<Op>, id: Text)
    requires Proper(m) && (forall k | 0 <= k < |ops| :: OpOk(m, ops[k])) && (ops != [] ==> ops[0].Main?)
    ensures MainHistory(m, Day(m, titleOf, ops)) == Join(Mains(ops))
    ensures ThreadHistory(m, Day(m, titleOf, ops), id) == Join(BlocksOf(ops, id))
  {
    DayHistories(m, titleOf, ops, id);
    EntriesJoined(m, ops);
    BlocksJoined(ops, id);
  }
}
