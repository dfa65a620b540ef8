/** What adding to a thread and adding to the main history do to a daily log, and
    to the histories read back from it. */
module DayLogRuns {
  import Seqs
  import opened Texts
  import opened DayLog
  import opened DayLogSearch
  import opened DayLogLaws

  // ------------------------------------------------------------------ trimming

  lemma LastStays(x: Text)
    requires x != [] && !IsSpace(x[|x| - 1])
    ensures TrimRight(x) == x
  {}

  lemma {:induction false} TrimLeftKeeps(t: Text, i: nat)
    requires i < |t| && !IsSpace(t[i])
    ensures |TrimLeft(t)| >= |t| - i && TrimLeft(t) == t[|t| - |TrimLeft(t)|..]
  {
    if IsSpace(t[0]) {
      TrimLeftKeeps(t[1..], i - 1);
      assert t[1..][|t| - 1 - |TrimLeft(t)|..] == t[|t| - |TrimLeft(t)|..];
    }
  }

  lemma {:induction false} TrimRightKeeps(t: Text, i: nat)
    requires i < |t| && !IsSpace(t[i])
    ensures |TrimRight(t)| > i
  {
    if IsSpace(t[|t| - 1]) {
      TrimRightKeeps(t[..|t| - 1], i);
    }
  }

  lemma TrimKeeps(t: Text, i: nat)
    requires i < |t| && !IsSpace(t[i])
    ensures Trim(t) != []
  {
    TrimLeftKeeps(t, i);
    var u := TrimLeft(t);
    var j := i - (|t| - |u|);
    assert u[j] == t[i];
    TrimRightKeeps(u, j);
  }

  lemma TrimEnds(x: Text)
    requires x != [] && Trim(x) == x
    ensures !IsSpace(x[0]) && !IsSpace(x[|x| - 1])
  {
    TrimFixed(x);
  }

  lemma EndsTrim(x: Text)
    requires x != [] && !IsSpace(x[0]) && !IsSpace(x[|x| - 1])
    ensures Trim(x) == x
  {}

  lemma {:induction false} TrimLeftEnds(t: Text)
    ensures TrimLeft(TrimLeft(t)) == TrimLeft(t)
    ensures TrimLeft(t) != [] ==> !IsSpace(TrimLeft(t)[0])
  {
    if t != [] && IsSpace(t[0]) {
      TrimLeftEnds(t[1..]);
    }
  }

  lemma TrimTwice(t: Text)
    ensures Trim(Trim(t)) == Trim(t)
  {
    var u := TrimLeft(t);
    TrimLeftEnds(t);
    if Trim(t) != [] {
      assert Trim(t)[0] == u[0];
      EndsTrim(Trim(t));
    }
  }

  // ------------------------------------------------------- where the parts are

  lemma {:induction false} TailHead(m: Marks, ss: seq<Section>)
    ensures Tail(m, ss) == Head(m, ss) + [NL]
  {
    if ss != [] {
      TailHead(m, ss[1..]);
      assert [NL, NL] + (Image(m, ss[0]) + (Head(m, ss[1..]) + [NL]))
          == [NL, NL] + (Image(m, ss[0]) + Head(m, ss[1..])) + [NL];
    }
  }

  lemma Nest(a: Text, b: Text, c: Text, d: Text)
    ensures a + (b + (c + d)) == (a + (b + c)) + d
  {}

  lemma {:induction false} TailAppend(m: Marks, ss: seq<Section>, rest: seq<Section>)
    ensures Tail(m, ss + rest) == Head(m, ss) + Tail(m, rest)
  {
    if ss == [] {
      assert ss + rest == rest;
      assert [] + Tail(m, rest) == Tail(m, rest);
    } else {
      assert (ss + rest)[1..] == ss[1..] + rest;
      TailAppend(m, ss[1..], rest);
      Nest([NL, NL], Image(m, ss[0]), Head(m, ss[1..]), Tail(m, rest));
    }
  }

  lemma {:induction false} HeadEnds(m: Marks, ss: seq<Section>)
    requires Proper(m) && ss != []
    ensures Head(m, ss) != [] && !IsSpace(Head(m, ss)[|Head(m, ss)| - 1])
  {
    LastOfImage(m, ss[0]);
    if |ss| > 1 {
      HeadEnds(m, ss[1..]);
    }
  }

  /** Where a thread is found among the sections: after those before it. */
  lemma {:induction false} LocatedParts(m: Marks, ss: seq<Section>, id: Text)
    requires Position(ss, id) < |ss|
    ensures var k := Position(ss, id);
            Located(m, ss, id) == Found(Head(m, ss[..k]), HASHES + ss[k].title, ss[k].body + [NL], Tail(m, ss[k + 1..]))
  {
    var k := Position(ss, id);
    if k > 0 {
      var rest := ss[1..];
      LocatedParts(m, rest, id);
      assert ss[..k][1..] == rest[..k - 1];
      assert rest[k - 1 + 1..] == ss[k + 1..];
      Seqs.Assoc([NL, NL], Image(m, ss[0]), Head(m, rest[..k - 1]));
    }
  }

  /** The log up to the first k sections, without a line break at the end. */
  function Upto(m: Marks, d: Doc, k: nat): Text
    requires k <= |d.sections|
  {
    if d.main != [] || d.lead then d.main + Head(m, d.sections[..k])
    else if k == 0 then []
    else Image(m, d.sections[0]) + Head(m, d.sections[1..k])
  }

  lemma PlaceParts(m: Marks, d: Doc, id: Text)
    requires Position(d.sections, id) < |d.sections|
    ensures var k := Position(d.sections, id);
            Place(m, d, id) == Found(Upto(m, d, k), HASHES + d.sections[k].title, d.sections[k].body + [NL],
                                     Tail(m, d.sections[k + 1..]))
  {
    var ss := d.sections;
    var k := Position(ss, id);
    if d.main != [] || d.lead {
      LocatedParts(m, ss, id);
    } else if k > 0 {
      LocatedParts(m, ss[1..], id);
      assert ss[1..][..k - 1] == ss[1..k];
      assert ss[1..][k - 1 + 1..] == ss[k + 1..];
    }
  }

  lemma UptoEnds(m: Marks, d: Doc, k: nat)
    requires Proper(m) && DocOk(m, d) && k <= |d.sections|
    ensures TrimRight(Upto(m, d, k)) == Upto(m, d, k)
  {
    var x := Upto(m, d, k);
    if d.main != [] || d.lead {
      if k > 0 {
        HeadEnds(m, d.sections[..k]);
        LastStays(x);
      } else {
        assert x == d.main;
      }
    } else if k > 0 {
      LastOfImage(m, d.sections[0]);
      if k > 1 {
        HeadEnds(m, d.sections[1..k]);
      }
      LastStays(x);
    }
  }

  // ------------------------------------------------------------ adding a block

  /** A section put in, or in the place of, position k of a log. */
  function Put(d: Doc, k: nat, s: Section, rest: seq<Section>): Doc
    requires k <= |d.sections|
  {
    Doc(d.main, d.lead || (d.main == [] && k == 0), d.sections[..k] + ([s] + rest))
  }

  lemma PutShown(m: Marks, d: Doc, k: nat, s: Section, rest: seq<Section>)
    requires k <= |d.sections|
    ensures Show(m, Put(d, k, s, rest)) == Upto(m, d, k) + ([NL, NL] + (Image(m, s) + Tail(m, rest)))
  {
    var ss := d.sections;
    var all := [s] + rest;
    assert all[0] == s && all[1..] == rest;
    if d.main != [] || d.lead {
      TailAppend(m, ss[..k], all);
      Seqs.Assoc(d.main, Head(m, ss[..k]), Tail(m, all));
    } else if k == 0 {
      assert ss[..0] + all == all;
      assert [] + Tail(m, all) == Tail(m, all);
    } else {
      assert (ss[..k] + all)[1..] == ss[1..k] + all;
      TailAppend(m, ss[1..k], all);
      Seqs.Assoc(Image(m, ss[0]), Head(m, ss[1..k]), Tail(m, all));
    }
  }

  lemma RestDropped(m: Marks, rest: seq<Section>)
    requires Proper(m) && SectionsOk(m, rest)
    ensures var r := DropNewlines(Tail(m, rest));
            if rest == [] then r == [] else Trim(r) != [] && [NL, NL] + r == Tail(m, rest)
  {
    if rest == [] {
      assert [NL][1..] == [];
    } else {
      var u := Image(m, rest[0]) + Tail(m, rest[1..]);
      ImageHead(m, rest[0], Tail(m, rest[1..]));
      GapDrops(u, [NL, NL]);
      TrimKeeps(u, 0);
    }
  }

  lemma ReplacedText(m: Marks, x: Text, section: Text, rest: seq<Section>)
    requires Proper(m) && SectionsOk(m, rest) && TrimRight(x) == x
    ensures Replaced(x, section, Tail(m, rest)) == TrimRight(x + [NL, NL] + section + Tail(m, rest)) + [NL]
  {
    RestDropped(m, rest);
    assert Trim([]) == [];
  }

  lemma CoreBreak(m: Marks, x: Text, s: Section, rest: seq<Section>)
    ensures var y := x + ([NL, NL] + (Image(m, s) + Head(m, rest)));
            && x + [NL, NL] + Image(m, s) + Tail(m, rest) == y + [NL]
            && x + ([NL, NL] + (Image(m, s) + Tail(m, rest))) == y + [NL]
  {
    TailHead(m, rest);
    var i, h := Image(m, s), Head(m, rest);
    Five(x, [NL, NL], i, h, [NL]);
  }

  lemma Five(a: Text, b: Text, c: Text, d: Text, e: Text)
    ensures a + b + c + (d + e) == (a + (b + (c + d))) + e
    ensures a + (b + (c + (d + e))) == (a + (b + (c + d))) + e
  {}

  /** Putting a section in place keeps what is before and after it. */
  lemma ReplacedShown(m: Marks, x: Text, s: Section, rest: seq<Section>)
    requires Proper(m) && SectionsOk(m, rest) && TrimRight(x) == x
    ensures Replaced(x, Image(m, s), Tail(m, rest)) == x + ([NL, NL] + (Image(m, s) + Tail(m, rest)))
  {
    ReplacedText(m, x, Image(m, s), rest);
    CoreBreak(m, x, s, rest);
    CoreEnds(m, x, s, rest);
    TrimBreak(x + ([NL, NL] + (Image(m, s) + Head(m, rest))));
  }

  lemma CoreEnds(m: Marks, x: Text, s: Section, rest: seq<Section>)
    requires Proper(m)
    ensures var y := x + ([NL, NL] + (Image(m, s) + Head(m, rest))); TrimRight(y) == y
  {
    LastOfImage(m, s);
    if rest != [] {
      HeadEnds(m, rest);
    }
    LastStays(x + ([NL, NL] + (Image(m, s) + Head(m, rest))));
  }

  /** The body of a thread after a block was added. */
  function Grown(body: Text, block: Text): Text {
    if block == [] then body else Extended(body, block)
  }

  lemma GrownTrimmed(body: Text, block: Text)
    requires Trim(body) == body && Trim(block) == block
    ensures Trim(Extended(body, block)) == Grown(body, block)
    ensures Trim(Grown(body, block)) == Grown(body, block)
  {
    if body != [] && block != [] {
      TrimEnds(body);
      TrimEnds(block);
      var e := body + [NL] + block;
      assert e[0] == body[0] && e[|e| - 1] == block[|block| - 1];
      EndsTrim(e);
    } else if body != [] {
      TrimBody(body);
      assert Extended(body, block) == body + [NL];
    } else {
      assert Extended(body, block) == block;
    }
  }

  lemma TitleShown(title: Text)
    requires Line(title) && Trim(title) == title
    ensures OrThread(Trim(Title(HASHES + title))) == title
  {
    var t := HASHES + title;
    var u := [SPACE] + title;
    assert t[1..] == [HASH] + u && t[1..][1..] == u;
    assert DropHashes(t) == DropHashes(t[1..]) == DropHashes(u) == u;
    assert u[1..] == title;
    TrimFixed(title);
    assert TrimLeft(u) == TrimLeft(title);
  }

  lemma RenderedImage(m: Marks, id: Text, body: Text, title: Text)
    ensures Rendered(m, id, body, title) == Image(m, Section(OrThread(Trim(title)), id, Trim(body)))
  {}

  /** The log after a block was added to a thread. */
  function Upserted(d: Doc, id: Text, block: Text, title: Text): Doc {
    var k := Position(d.sections, id);
    if k < |d.sections| then
      Put(d, k, Section(d.sections[k].title, id, Grown(d.sections[k].body, Trim(block))), d.sections[k + 1..])
    else
      Doc(d.main, d.lead, d.sections + [Section(OrThread(Trim(title)), id, Trim(block))])
  }

  lemma {:induction false} SectionsAfter(m: Marks, ss: seq<Section>, k: nat)
    requires SectionsOk(m, ss) && k <= |ss|
    ensures SectionsOk(m, ss[k..])
  {
    if k > 0 {
      SectionsAfter(m, ss[1..], k - 1);
      assert ss[1..][k - 1..] == ss[k..];
    } else {
      assert ss[0..] == ss;
    }
  }

  lemma UpsertFound(m: Marks, titleOf: Text -> Text, t: Text, id: Text, block: Text, title: Text, f: Found)
    requires Search(m, false, t, One(id)) == f && f.Found?
    ensures Upsert(m, titleOf, t, id, block, title)
            == Replaced(f.before, Rendered(m, id, Extended(Trim(f.body), Trim(block)), Title(f.heading)), f.after)
  {}

  lemma SectionGrown(m: Marks, s: Section, block: Text)
    requires SectionOk(m, s)
    ensures Rendered(m, s.id, Extended(Trim(s.body + [NL]), Trim(block)), Title(HASHES + s.title))
            == Image(m, Section(s.title, s.id, Grown(s.body, Trim(block))))
  {
    TrimBody(s.body);
    TrimTwice(block);
    GrownTrimmed(s.body, Trim(block));
    TitleShown(s.title);
    RenderedImage(m, s.id, Extended(s.body, Trim(block)), Title(HASHES + s.title));
  }

  lemma KnownFound(m: Marks, d: Doc, k: nat, id: Text)
    requires Proper(m) && DocOk(m, d) && k == Position(d.sections, id) < |d.sections|
    ensures Search(m, false, Show(m, d), One(id))
            == Found(Upto(m, d, k), HASHES + d.sections[k].title, d.sections[k].body + [NL],
                     Tail(m, d.sections[k + 1..]))
  {
    SearchShown(m, d, id);
    PlaceParts(m, d, id);
  }

  lemma KnownReplaced(m: Marks, titleOf: Text -> Text, d: Doc, k: nat, id: Text, block: Text, title: Text, s: Section)
    requires Proper(m) && DocOk(m, d) && k == Position(d.sections, id) < |d.sections|
    requires s == Section(d.sections[k].title, id, Grown(d.sections[k].body, Trim(block)))
    ensures Upsert(m, titleOf, Show(m, d), id, block, title)
            == Replaced(Upto(m, d, k), Image(m, s), Tail(m, d.sections[k + 1..]))
  {
    PositionOk(m, d.sections, k);
    KnownFound(m, d, k, id);
    SectionGrown(m, d.sections[k], block);
    UpsertFound(m, titleOf, Show(m, d), id, block, title, Search(m, false, Show(m, d), One(id)));
  }

  lemma KnownText(m: Marks, d: Doc, k: nat, s: Section)
    requires Proper(m) && DocOk(m, d) && k < |d.sections|
    ensures Replaced(Upto(m, d, k), Image(m, s), Tail(m, d.sections[k + 1..]))
            == Show(m, Put(d, k, s, d.sections[k + 1..]))
  {
    SectionsAfter(m, d.sections, k + 1);
    UptoEnds(m, d, k);
    ReplacedShown(m, Upto(m, d, k), s, d.sections[k + 1..]);
    PutShown(m, d, k, s, d.sections[k + 1..]);
  }

  lemma KnownShown(m: Marks, titleOf: Text -> Text, d: Doc, k: nat, id: Text, block: Text, title: Text, s: Section)
    requires Proper(m) && DocOk(m, d) && k == Position(d.sections, id) < |d.sections|
    requires s == Section(d.sections[k].title, id, Grown(d.sections[k].body, Trim(block)))
    ensures Upsert(m, titleOf, Show(m, d), id, block, title) == Show(m, Put(d, k, s, d.sections[k + 1..]))
  {
    KnownReplaced(m, titleOf, d, k, id, block, title, s);
    KnownText(m, d, k, s);
  }

  lemma UpsertKnown(m: Marks, titleOf: Text -> Text, d: Doc, id: Text, block: Text, title: Text)
    requires Proper(m) && DocOk(m, d) && Position(d.sections, id) < |d.sections|
    ensures Upsert(m, titleOf, Show(m, d), id, block, title) == Show(m, Upserted(d, id, block, title))
  {
    var k := Position(d.sections, id);
    var s := Section(d.sections[k].title, id, Grown(d.sections[k].body, Trim(block)));
    var e := Upserted(d, id, block, title);
    assert e == Put(d, k, s, d.sections[k + 1..]) by {
      UpsertedKnown(d, id, block, title);
    }
    KnownShown(m, titleOf, d, k, id, block, title, s);
  }

  lemma UpsertedKnown(d: Doc, id: Text, block: Text, title: Text)
    requires Position(d.sections, id) < |d.sections|
    ensures var k := Position(d.sections, id);
            Upserted(d, id, block, title)
            == Put(d, k, Section(d.sections[k].title, id, Grown(d.sections[k].body, Trim(block))), d.sections[k + 1..])
  {}

  /** The whole log without the line break at its end. */
  lemma WholeShown(m: Marks, d: Doc)
    requires Proper(m) && DocOk(m, d) && Show(m, d) != []
    ensures Show(m, d) == Upto(m, d, |d.sections|) + [NL]
    ensures Upto(m, d, |d.sections|) != []
  {
    var ss := d.sections;
    assert ss[..|ss|] == ss;
    if d.main != [] || d.lead {
      TailHead(m, ss);
      Seqs.Assoc(d.main, Head(m, ss), [NL]);
      if d.main == [] {
        HeadEnds(m, ss);
      }
    } else {
      TailHead(m, ss[1..]);
      Seqs.Assoc(Image(m, ss[0]), Head(m, ss[1..]), [NL]);
    }
  }

  lemma UpsertAbsent(m: Marks, titleOf: Text -> Text, t: Text, id: Text, block: Text, title: Text)
    requires Search(m, false, t, One(id)) == Absent && Search(m, true, t, One(id)) == Absent
    ensures var section := Rendered(m, id, Trim(block), title);
            Upsert(m, titleOf, t, id, block, title)
            == if Trim(t) != [] then TrimRight(t) + [NL, NL] + section + [NL] else section + [NL]
  {}

  lemma ShownTrimmed(m: Marks, d: Doc)
    requires Proper(m) && DocOk(m, d) && Show(m, d) != []
    ensures Trim(Show(m, d)) != [] && TrimRight(Show(m, d)) == Upto(m, d, |d.sections|)
  {
    var x := Upto(m, d, |d.sections|);
    WholeShown(m, d);
    UptoEnds(m, d, |d.sections|);
    TrimBreak(x);
    assert TrimRight(x) == x && !IsSpace(x[|x| - 1]);
    TrimKeeps(Show(m, d), |x| - 1);
  }

  lemma NewSectionLast(m: Marks, d: Doc, s: Section)
    requires Proper(m) && DocOk(m, d) && Show(m, d) != []
    ensures Show(m, Doc(d.main, d.lead, d.sections + [s]))
            == Upto(m, d, |d.sections|) + [NL, NL] + Image(m, s) + [NL]
  {
    var n := |d.sections|;
    PutShown(m, d, n, s, []);
    assert d.sections[..n] + ([s] + []) == d.sections + [s];
    Four(Upto(m, d, n), [NL, NL], Image(m, s), [NL]);
  }

  lemma Four(a: Text, b: Text, c: Text, d: Text)
    ensures a + (b + (c + d)) == a + b + c + d
  {}

  lemma UpsertNew(m: Marks, titleOf: Text -> Text, d: Doc, id: Text, block: Text, title: Text)
    requires Proper(m) && DocOk(m, d) && Position(d.sections, id) == |d.sections|
    ensures Upsert(m, titleOf, Show(m, d), id, block, title) == Show(m, Upserted(d, id, block, title))
  {
    var s := Section(OrThread(Trim(title)), id, Trim(block));
    var t := Show(m, d);
    SearchShown(m, d, id);
    PlaceBody(m, d, id);
    LegacyShown(m, d, One(id));
    UpsertAbsent(m, titleOf, t, id, block, title);
    RenderedImage(m, id, Trim(block), title);
    TrimTwice(block);
    if t == [] {
      assert Trim([]) == [];
      ShownNothing(m, d);
      assert d.sections + [s] == [s];
    } else {
      ShownTrimmed(m, d);
      NewSectionLast(m, d, s);
    }
  }

  lemma ShownNothing(m: Marks, d: Doc)
    requires Proper(m) && Show(m, d) == []
    ensures d.main == [] && !d.lead && d.sections == []
  {
    if d.main == [] && !d.lead && d.sections != [] {
      ImageHead(m, d.sections[0], Tail(m, d.sections[1..]));
    }
  }

  /** Adding a block to a thread of a log gives the log with that block added. */
  lemma UpsertShown(m: Marks, titleOf: Text -> Text, d: Doc, id: Text, block: Text, title: Text)
    requires Proper(m) && DocOk(m, d)
    ensures Upsert(m, titleOf, Show(m, d), id, block, title) == Show(m, Upserted(d, id, block, title))
  {
    if Position(d.sections, id) < |d.sections| {
      UpsertKnown(m, titleOf, d, id, block, title);
    } else {
      UpsertNew(m, titleOf, d, id, block, title);
    }
  }

  // ------------------------------------------------------------ what is kept

  /** No line of a block starts with a section opener, and no closer is in it. */
  predicate BlockOk(m: Marks, block: Text) {
    Unmarked(m, Trim(block)) && Free(m.closer, Trim(block))
  }

  lemma UnmarkedJoin(m: Marks, x: Text, y: Text)
    requires Proper(m) && Unmarked(m, x) && Unmarked(m, y)
    ensures Unmarked(m, x + [NL] + y)
  {
    CalmJoin(m.opener, x, y);
    CalmJoin(m.oldOpener, x, y);
    NotPrefix(m.opener, x, [NL] + y);
    NotPrefix(m.oldOpener, x, [NL] + y);
    assert x + [NL] + y == x + ([NL] + y);
  }

  lemma ThreadTitle()
    ensures Line(THREAD) && Trim(THREAD) == THREAD
  {
    EndsTrim(THREAD);
  }

  lemma NewOk(m: Marks, id: Text, block: Text, title: Text)
    requires BlockOk(m, block) && Line(id) && NL !in Trim(title)
    ensures SectionOk(m, Section(OrThread(Trim(title)), id, Trim(block)))
  {
    ThreadTitle();
    TrimTwice(title);
    TrimTwice(block);
  }

  lemma GrownOk(m: Marks, s: Section, block: Text)
    requires Proper(m) && SectionOk(m, s) && BlockOk(m, block)
    ensures SectionOk(m, Section(s.title, s.id, Grown(s.body, Trim(block))))
  {
    TrimTwice(block);
    GrownTrimmed(s.body, Trim(block));
    UnmarkedJoin(m, s.body, Trim(block));
    FreeJoin(m.closer, s.body, Trim(block));
  }

  lemma {:induction false} SectionsPut(m: Marks, ss: seq<Section>, k: nat, rest: seq<Section>)
    requires SectionsOk(m, ss) && k <= |ss| && SectionsOk(m, rest)
    ensures SectionsOk(m, ss[..k] + rest)
  {
    if k == 0 {
      assert ss[..0] + rest == rest;
    } else {
      SectionsPut(m, ss[1..], k - 1, rest);
      assert (ss[..k] + rest)[1..] == ss[1..][..k - 1] + rest;
    }
  }

  lemma GrowKeeps(m: Marks, d: Doc, k: nat, block: Text)
    requires Proper(m) && DocOk(m, d) && BlockOk(m, block) && k < |d.sections|
    ensures var s := d.sections[k];
            DocOk(m, Put(d, k, Section(s.title, s.id, Grown(s.body, Trim(block))), d.sections[k + 1..]))
  {
    var ss := d.sections;
    var s := Section(ss[k].title, ss[k].id, Grown(ss[k].body, Trim(block)));
    PositionOk(m, ss, k);
    GrownOk(m, ss[k], block);
    SectionsAfter(m, ss, k + 1);
    SectionsCons(m, s, ss[k + 1..]);
    SectionsPut(m, ss, k, [s] + ss[k + 1..]);
  }

  lemma SectionsCons(m: Marks, s: Section, rest: seq<Section>)
    requires SectionOk(m, s) && SectionsOk(m, rest)
    ensures SectionsOk(m, [s] + rest)
  {
    assert ([s] + rest)[1..] == rest;
  }

  /** The layout is kept when a block is added to a thread. */
  lemma UpsertedOk(m: Marks, d: Doc, id: Text, block: Text, title: Text)
    requires Proper(m) && DocOk(m, d) && BlockOk(m, block) && Line(id) && NL !in Trim(title)
    ensures DocOk(m, Upserted(d, id, block, title))
  {
    var ss := d.sections;
    var k := Position(ss, id);
    if k < |ss| {
      GrowKeeps(m, d, k, block);
      UpsertedKnown(d, id, block, title);
    } else {
      var s := Section(OrThread(Trim(title)), id, Trim(block));
      NewOk(m, id, block, title);
      SectionsCons(m, s, []);
      SectionsPut(m, ss, k, [s] + []);
      assert ss[..k] + ([s] + []) == ss + [s];
    }
  }

  lemma Rejoin(ss: seq<Section>, k: nat, s: Section, rest: seq<Section>)
    requires 0 < k <= |ss|
    ensures var all := ss[..k] + ([s] + rest);
            all[0] == ss[0] && all[1..] == ss[1..][..k - 1] + ([s] + rest)
  {}

  lemma {:induction false} PositionPut(ss: seq<Section>, id: Text, s: Section, rest: seq<Section>, other: Text)
    requires s.id == id
    requires Position(ss, id) < |ss| ==> rest == ss[Position(ss, id) + 1..]
    requires Position(ss, id) == |ss| ==> rest == []
    ensures Body(ss[..Position(ss, id)] + ([s] + rest), other) == if other == id then s.body else Body(ss, other)
  {
    var k := Position(ss, id);
    if k == 0 {
      var all := [s] + rest;
      assert ss[..k] + all == all && all[0] == s && all[1..] == rest;
      BodyOf(all, other);
      BodyOf(ss, other);
    } else {
      PositionPut(ss[1..], id, s, rest, other);
      Rejoin(ss, k, s, rest);
      BodyOf(ss, other);
      BodyOf(ss[..k] + ([s] + rest), other);
    }
  }

  lemma BodyOf(ss: seq<Section>, id: Text)
    ensures Body(ss, id) == if ss == [] then [] else if ss[0].id == id then ss[0].body else Body(ss[1..], id)
  {}

  /** Of the threads, the block extends its own and changes no other. */
  lemma UpsertedBody(d: Doc, id: Text, block: Text, title: Text, other: Text)
    ensures Body(Upserted(d, id, block, title).sections, other)
            == if other == id then Grown(Body(d.sections, id), Trim(block)) else Body(d.sections, other)
  {
    var ss := d.sections;
    var k := Position(ss, id);
    if k < |ss| {
      UpsertedKnown(d, id, block, title);
      PositionPut(ss, id, Section(ss[k].title, id, Grown(ss[k].body, Trim(block))), ss[k + 1..], other);
    } else {
      var s := Section(OrThread(Trim(title)), id, Trim(block));
      PositionPut(ss, id, s, [], other);
      assert ss[..k] + ([s] + []) == ss + [s];
    }
  }

  /** Adding a block to a thread extends the history of that thread by exactly the
      block and leaves every other thread and the main history as they were. */
  lemma UpsertHistories(m: Marks, titleOf: Text -> Text, d: Doc, id: Text, block: Text, title: Text, other: Text)
    requires Proper(m) && DocOk(m, d) && BlockOk(m, block) && Line(id) && NL !in Trim(title)
    ensures var before := Show(m, d);
            var after := Upsert(m, titleOf, before, id, block, title);
            && MainHistory(m, after) == MainHistory(m, before)
            && ThreadHistory(m, after, id) == Grown(ThreadHistory(m, before, id), Trim(block))
            && (other != id ==> ThreadHistory(m, after, other) == ThreadHistory(m, before, other))
  {
    var e := Upserted(d, id, block, title);
    UpsertShown(m, titleOf, d, id, block, title);
    UpsertedOk(m, d, id, block, title);
    MainShown(m, d);
    MainShown(m, e);
    ThreadShown(m, d, id);
    ThreadShown(m, e, id);
    ThreadShown(m, d, other);
    ThreadShown(m, e, other);
    UpsertedBody(d, id, block, title, id);
    UpsertedBody(d, id, block, title, other);
  }
}
