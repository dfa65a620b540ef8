/** The daily log as a document: a main history and thread sections. What the
    operations on the text do to the histories. */
module DayLogLaws {
  import opened Texts
  import opened DayLog
  import opened DayLogSearch

  /** A log: the main history, whether blank lines come before the first section
      even without one, and the sections in order. */
  datatype Doc = Doc(main: Text, lead: bool, sections: seq<Section>)

  function Head(m: Marks, ss: seq<Section>): Text {
    if ss == [] then [] else [NL, NL] + (Image(m, ss[0]) + Head(m, ss[1..]))
  }

  /** The sections, each after a blank line, up to the end of the text. */
  function Tail(m: Marks, ss: seq<Section>): (t: Text)
    ensures t != [] && t[0] == NL && (ss != [] ==> |t| > 2)
  {
    if ss == [] then [NL] else [NL, NL] + (Image(m, ss[0]) + Tail(m, ss[1..]))
  }

  function Show(m: Marks, d: Doc): Text {
    if d.main != [] || d.lead then d.main + Tail(m, d.sections)
    else if d.sections == [] then []
    else Image(m, d.sections[0]) + Tail(m, d.sections[1..])
  }

  predicate SectionsOk(m: Marks, ss: seq<Section>) {
    ss == [] || (SectionOk(m, ss[0]) && SectionsOk(m, ss[1..]))
  }

  predicate DocOk(m: Marks, d: Doc) {
    && Unmarked(m, d.main) && TrimRight(d.main) == d.main
    && SectionsOk(m, d.sections)
    && (d.lead ==> d.main == [] && d.sections != [])
  }

  function Position(ss: seq<Section>, id: Text): (k: nat)
    ensures k <= |ss| && (k < |ss| ==> ss[k].id == id)
  {
    if ss == [] || ss[0].id == id then 0 else Position(ss[1..], id) + 1
  }

  /** What searching a thread finds in the sections. */
  function Located(m: Marks, ss: seq<Section>, id: Text): Found {
    if ss == [] then Absent
    else if ss[0].id == id then Found([], HASHES + ss[0].title, ss[0].body + [NL], Tail(m, ss[1..]))
    else Prepend([NL, NL] + Image(m, ss[0]), Located(m, ss[1..], id))
  }

  lemma LastOfImage(m: Marks, s: Section)
    requires Proper(m)
    ensures Image(m, s) != [] && Image(m, s)[|Image(m, s)| - 1] == m.closer[|m.closer| - 1] != NL
  {}

  lemma SearchBreak(m: Marks, legacy: bool, want: Want)
    requires Proper(m)
    ensures Search(m, legacy, [NL], want) == Absent
    ensures Search(m, legacy, [], want) == Absent
  {
    assert FirstLine([]) == [];
    assert DropNewlines([NL]) == [];
    assert MatchAt(m, legacy, [], want) == NoMatch;
    assert MatchAt(m, legacy, [NL], want) == NoMatch;
    assert [NL][1..] == [];
  }

  lemma PassGap(m: Marks, legacy: bool, u: Text, n: nat, want: Want)
    requires Proper(m) && 0 < n < |u| && u[0] == HASH && u[n - 1] != NL && u[n] == NL
    requires Quiet(m, legacy, u, n + 1, want)
    ensures Search(m, legacy, [NL, NL] + u, want) == Prepend([NL, NL] + u[..n], Search(m, legacy, u[n..], want))
  {
    var t := [NL, NL] + u;
    GapQuiet(m, legacy, u, n + 1, want);
    SearchSkips(m, legacy, t, n + 2, want);
    assert t[..n + 2] == [NL, NL] + u[..n] && t[n + 2..] == u[n..];
  }

  lemma ImageEnds(m: Marks, s: Section, y: Text)
    requires Proper(m)
    ensures var u := Image(m, s) + ([NL] + y);
            var n := |Image(m, s)|;
            && 0 < n < |u| && u[0] == HASH && u[n - 1] != NL && u[n] == NL
            && u[..n] == Image(m, s) && u[n..] == [NL] + y
  {
    LastOfImage(m, s);
    ImageHead(m, s, [NL] + y);
    var u := Image(m, s) + ([NL] + y);
    assert u[|Image(m, s)| - 1] == Image(m, s)[|Image(m, s)| - 1];
  }

  /** A section that is not wanted is passed by. */
  lemma PassFirst(m: Marks, legacy: bool, s: Section, y: Text, want: Want)
    requires Proper(m) && SectionOk(m, s) && (y == [] || y[0] == NL)
    requires legacy || (want.One? && want != One(s.id))
    ensures Search(m, legacy, Image(m, s) + ([NL] + y), want)
            == Prepend(Image(m, s), Search(m, legacy, [NL] + y, want))
  {
    ImageEnds(m, s, y);
    SectionQuiet(m, legacy, s, y, want);
    SearchSkips(m, legacy, Image(m, s) + ([NL] + y), |Image(m, s)|, want);
  }

  lemma PassBy(m: Marks, legacy: bool, s: Section, y: Text, want: Want)
    requires Proper(m) && SectionOk(m, s) && (y == [] || y[0] == NL)
    requires legacy || (want.One? && want != One(s.id))
    ensures Search(m, legacy, [NL, NL] + (Image(m, s) + ([NL] + y)), want)
            == Prepend([NL, NL] + Image(m, s), Search(m, legacy, [NL] + y, want))
  {
    ImageEnds(m, s, y);
    SectionQuiet(m, legacy, s, y, want);
    PassGap(m, legacy, Image(m, s) + ([NL] + y), |Image(m, s)|, want);
  }

  lemma TailSplit(m: Marks, ss: seq<Section>)
    ensures Tail(m, ss) == [NL] + Tail(m, ss)[1..]
    ensures Tail(m, ss)[1..] == [] || Tail(m, ss)[1..][0] == NL
  {}

  lemma SearchHere(m: Marks, t: Text, want: Want)
    requires MatchAt(m, false, t, want).Match?
    ensures var f := MatchAt(m, false, t, want);
            Search(m, false, t, want) == Found([], f.heading, f.body, f.after)
  {}

  /** Searching a thread finds its first section; old-format sections there are none. */
  lemma {:induction false} SearchTail(m: Marks, ss: seq<Section>, id: Text)
    requires Proper(m) && SectionsOk(m, ss)
    ensures Search(m, false, Tail(m, ss), One(id)) == Located(m, ss, id)
  {
    if ss == [] {
      SearchBreak(m, false, One(id));
    } else {
      TailSplit(m, ss[1..]);
      if ss[0].id == id {
        GapMatches(m, ss[0], Tail(m, ss[1..]), One(id), [NL, NL]);
        SearchHere(m, Tail(m, ss), One(id));
      } else {
        PassBy(m, false, ss[0], Tail(m, ss[1..])[1..], One(id));
        SearchTail(m, ss[1..], id);
      }
    }
  }

  lemma {:induction false} LegacyTail(m: Marks, ss: seq<Section>, want: Want)
    requires Proper(m) && SectionsOk(m, ss)
    ensures Search(m, true, Tail(m, ss), want) == Absent
  {
    if ss == [] {
      SearchBreak(m, true, want);
    } else {
      TailSplit(m, ss[1..]);
      PassBy(m, true, ss[0], Tail(m, ss[1..])[1..], want);
      LegacyTail(m, ss[1..], want);
    }
  }

  lemma LastKept(t: Text)
    requires TrimRight(t) == t && t != []
    ensures t[|t| - 1] != NL
  {}

  /** The main history holds nothing that a search could take. */
  lemma MainPassed(m: Marks, legacy: bool, main: Text, y: Text, want: Want)
    requires Proper(m) && Unmarked(m, main) && TrimRight(main) == main
    requires y == [] || y[0] == NL
    ensures Search(m, legacy, main + ([NL] + y), want) == Prepend(main, Search(m, legacy, [NL] + y, want))
  {
    var t := main + ([NL] + y);
    if main == [] {
      assert t == [NL] + y;
      PrependNothing(Search(m, legacy, t, want));
    } else {
      LastKept(main);
      BreakQuiet(m, legacy, y, want);
      QuietStep(m, legacy, main, y, 0, want);
      SearchSkips(m, legacy, t, |main|, want);
      assert t[..|main|] == main && t[|main|..] == [NL] + y;
    }
  }

  /** Where a thread is found in a log. */
  function Place(m: Marks, d: Doc, id: Text): Found {
    if d.main != [] || d.lead then Prepend(d.main, Located(m, d.sections, id))
    else if d.sections == [] then Absent
    else if d.sections[0].id == id then
      Found([], HASHES + d.sections[0].title, d.sections[0].body + [NL], Tail(m, d.sections[1..]))
    else Prepend(Image(m, d.sections[0]), Located(m, d.sections[1..], id))
  }

  lemma SearchShown(m: Marks, d: Doc, id: Text)
    requires Proper(m) && DocOk(m, d)
    ensures Search(m, false, Show(m, d), One(id)) == Place(m, d, id)
  {
    var ss := d.sections;
    if d.main != [] || d.lead {
      TailSplit(m, ss);
      MainPassed(m, false, d.main, Tail(m, ss)[1..], One(id));
      SearchTail(m, ss, id);
    } else if ss == [] {
      SearchBreak(m, false, One(id));
    } else {
      TailSplit(m, ss[1..]);
      if ss[0].id == id {
        GapMatches(m, ss[0], Tail(m, ss[1..]), One(id), []);
        assert [] + (Image(m, ss[0]) + Tail(m, ss[1..])) == Show(m, d);
        SearchHere(m, Show(m, d), One(id));
      } else {
        PassFirst(m, false, ss[0], Tail(m, ss[1..])[1..], One(id));
        SearchTail(m, ss[1..], id);
      }
    }
  }

  lemma LegacyShown(m: Marks, d: Doc, want: Want)
    requires Proper(m) && DocOk(m, d)
    ensures Search(m, true, Show(m, d), want) == Absent
  {
    var ss := d.sections;
    if d.main != [] || d.lead {
      TailSplit(m, ss);
      MainPassed(m, true, d.main, Tail(m, ss)[1..], want);
      LegacyTail(m, ss, want);
    } else if ss == [] {
      SearchBreak(m, true, want);
    } else {
      TailSplit(m, ss[1..]);
      PassFirst(m, true, ss[0], Tail(m, ss[1..])[1..], want);
      LegacyTail(m, ss[1..], want);
    }
  }

  // ----------------------------------------------------------------- histories

  /** The history of a thread: the body of its section, or nothing. */
  function Body(ss: seq<Section>, id: Text): Text {
    if Position(ss, id) < |ss| then ss[Position(ss, id)].body else []
  }

  lemma {:induction false} LocatedBody(m: Marks, ss: seq<Section>, id: Text)
    ensures var f := Located(m, ss, id);
            if Position(ss, id) < |ss| then f.Found? && f.body == Body(ss, id) + [NL]
            else f == Absent
  {
    if ss != [] && ss[0].id != id {
      LocatedBody(m, ss[1..], id);
    }
  }

  lemma PlaceBody(m: Marks, d: Doc, id: Text)
    ensures var f := Place(m, d, id);
            if Position(d.sections, id) < |d.sections| then f.Found? && f.body == Body(d.sections, id) + [NL]
            else f == Absent
  {
    LocatedBody(m, d.sections, id);
    if d.sections != [] {
      LocatedBody(m, d.sections[1..], id);
    }
  }

  lemma TrimFixed(x: Text)
    requires Trim(x) == x
    ensures TrimLeft(x) == x == TrimRight(x)
  {}

  lemma TrimBreak(x: Text)
    ensures TrimRight(x + [NL]) == TrimRight(x)
  {
    assert (x + [NL])[..|x|] == x;
  }

  lemma TrimBody(x: Text)
    requires Trim(x) == x
    ensures Trim(x + [NL]) == x
  {
    TrimFixed(x);
    TrimBreak(x);
    if x == [] {
      assert x + [NL] == [NL] && [NL][1..] == [];
    } else {
      assert TrimLeft(x + [NL]) == x + [NL];
    }
  }

  lemma {:induction false} PositionOk(m: Marks, ss: seq<Section>, k: nat)
    requires SectionsOk(m, ss) && k < |ss|
    ensures SectionOk(m, ss[k])
  {
    if k > 0 {
      PositionOk(m, ss[1..], k - 1);
    }
  }

  /** Reading a thread back gives the body of its section. */
  lemma ThreadShown(m: Marks, d: Doc, id: Text)
    requires Proper(m) && DocOk(m, d)
    ensures ThreadHistory(m, Show(m, d), id) == Body(d.sections, id)
  {
    SearchShown(m, d, id);
    PlaceBody(m, d, id);
    LegacyShown(m, d, One(id));
    var k := Position(d.sections, id);
    if k < |d.sections| {
      PositionOk(m, d.sections, k);
      TrimBody(Body(d.sections, id));
    }
  }

  lemma {:induction false} WithoutTail(m: Marks, ss: seq<Section>)
    requires Proper(m) && SectionsOk(m, ss)
    ensures Without(m, false, Tail(m, ss)) == [NL]
  {
    if ss == [] {
      SearchBreak(m, false, Any);
    } else {
      GapMatches(m, ss[0], Tail(m, ss[1..]), Any, [NL, NL]);
      SearchHere(m, Tail(m, ss), Any);
      WithoutTail(m, ss[1..]);
    }
  }

  lemma WithoutFound(m: Marks, t: Text)
    requires m.closer != [] && m.oldCloser != [] && Search(m, false, t, Any).Found?
    ensures Without(m, false, t) == Search(m, false, t, Any).before + Without(m, false, Search(m, false, t, Any).after)
  {}

  lemma WithoutAbsent(m: Marks, legacy: bool, t: Text)
    requires m.closer != [] && m.oldCloser != [] && Search(m, legacy, t, Any) == Absent
    ensures Without(m, legacy, t) == t
  {}

  /** Only the main history is left without the sections. */
  lemma WithoutShown(m: Marks, d: Doc)
    requires Proper(m) && DocOk(m, d)
    ensures Without(m, false, Show(m, d)) == if Show(m, d) == [] then [] else d.main + [NL]
  {
    var ss := d.sections;
    var t := Show(m, d);
    if d.main == [] && !d.lead && ss == [] {
      SearchBreak(m, false, Any);
    } else if ss == [] {
      MainPassed(m, false, d.main, [], Any);
      SearchBreak(m, false, Any);
      assert [NL] + [] == [NL];
      WithoutAbsent(m, false, t);
    } else if d.main != [] || d.lead {
      TailSplit(m, ss);
      MainPassed(m, false, d.main, Tail(m, ss)[1..], Any);
      GapMatches(m, ss[0], Tail(m, ss[1..]), Any, [NL, NL]);
      SearchHere(m, Tail(m, ss), Any);
      WithoutFound(m, t);
      WithoutTail(m, ss[1..]);
      assert d.main + [] == d.main;
    } else {
      GapMatches(m, ss[0], Tail(m, ss[1..]), Any, []);
      assert [] + t == t;
      SearchHere(m, t, Any);
      WithoutFound(m, t);
      WithoutTail(m, ss[1..]);
    }
  }

  /** Reading the main history back. */
  lemma MainShown(m: Marks, d: Doc)
    requires Proper(m) && DocOk(m, d)
    ensures MainHistory(m, Show(m, d)) == d.main
  {
    WithoutShown(m, d);
    if Show(m, d) == [] {
      SearchBreak(m, true, Any);
    } else {
      MainPassed(m, true, d.main, [], Any);
      assert [NL] + [] == [NL];
      SearchBreak(m, true, Any);
      WithoutAbsent(m, true, d.main + [NL]);
      TrimBreak(d.main);
    }
  }
}
