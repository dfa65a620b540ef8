/** Where the section patterns match in a text made of a main history and rendered
    sections: exactly at the sections. */
module DayLogSearch {
  import opened Texts
  import opened DayLog

  /** What the proofs need of the markers; see PawliaProper. */
  predicate Proper(m: Marks) {
    && NL !in m.opener && NL !in m.oldOpener && NL !in m.closer
    && Differ(m.opener, m.oldOpener) && Differ(m.opener, m.closer) && Differ(m.oldOpener, m.closer)
    && m.opener[0] != HASH && m.oldOpener[0] != HASH && m.oldCloser != []
    && m.oldHead != [] && m.oldHead[0] == HASH
    && !IsSpace(m.closer[|m.closer| - 1])
  }

  predicate Differ(a: Text, b: Text) {
    |a| > 5 && |b| > 5 && a[5] != b[5]
  }

  lemma PawliaProper()
    ensures Proper(PAWLIA)
  {
    var h := "## Thread ";
    assert h[0] == '#';
    var o, c, q := "<!-- pawlia-thread: ", "<!-- /pawlia-thread -->", "<!-- PAWLIA_THREAD_SECTION -->";
    assert o[5] == 'p' && c[5] == '/' && q[5] == 'P' && c[22] == '>';
    assert o[0] == q[0] == '<';
    assert '\n' !in o && '\n' !in c && '\n' !in q;
  }

  function OpenerOf(m: Marks, legacy: bool): Text {
    if legacy then m.oldOpener else m.opener
  }

  /** No line of the text, but maybe the first, starts with p. */
  predicate Calm(p: Text, t: Text) {
    t == [] || ((t[0] == NL ==> !(p <= t[1..])) && Calm(p, t[1..]))
  }

  /** p occurs nowhere in the text. */
  predicate Free(p: Text, t: Text) {
    !(p <= t) && (t != [] ==> Free(p, t[1..]))
  }

  /** What follows a heading line of a section. */
  predicate Starts(m: Marks, legacy: bool, v: Text, want: Want) {
    if legacy then m.oldOpener <= v else Opens(m, v, want)
  }

  /** Of the line breaks among the first n characters, none is followed by a
      section opener. */
  predicate Quiet(m: Marks, legacy: bool, t: Text, n: nat, want: Want) {
    n == 0 || t == []
    || ((t[0] == NL ==> !Starts(m, legacy, t[1..], want)) && Quiet(m, legacy, t[1..], n - 1, want))
  }

  // ---------------------------------------------------------------- line facts

  lemma {:induction false} FirstLineBound(t: Text, n: nat)
    requires n < |t| && t[n] == NL
    ensures |FirstLine(t)| <= n
  {
    if n > 0 && t[0] != NL {
      FirstLineBound(t[1..], n - 1);
    }
  }

  lemma Crossing(p: Text, y: Text, rest: Text)
    requires p <= y + rest && |p| > |y| && rest != [] && rest[0] == NL
    ensures NL in p
  {
    assert p[|y|] == (y + rest)[|y|];
  }

  lemma Within(p: Text, y: Text, rest: Text)
    requires p <= y + rest && |p| <= |y|
    ensures p <= y
  {
    assert (y + rest)[..|p|] == y[..|p|];
  }

  /** A text without line breaks is not found across one. */
  lemma NotPrefix(p: Text, y: Text, rest: Text)
    requires NL !in p && !(p <= y) && rest != [] && rest[0] == NL
    ensures !(p <= y + rest)
  {
    if p <= y + rest && |p| <= |y| {
      Within(p, y, rest);
    } else if p <= y + rest {
      Crossing(p, y, rest);
    }
  }

  lemma {:induction false} CalmLine(p: Text, x: Text)
    requires NL !in x
    ensures Calm(p, x)
  {
    if x != [] {
      CalmLine(p, x[1..]);
    }
  }

  lemma {:induction false} CalmJoin(p: Text, x: Text, y: Text)
    requires NL !in p && Calm(p, x) && Calm(p, y) && !(p <= y)
    ensures Calm(p, x + [NL] + y)
  {
    var t := x + [NL] + y;
    if x == [] {
      assert t[1..] == y;
    } else {
      assert t[1..] == x[1..] + [NL] + y;
      CalmJoin(p, x[1..], y);
      if x[0] == NL {
        NotPrefix(p, x[1..], [NL] + y);
        assert x[1..] + ([NL] + y) == t[1..];
      }
    }
  }

  lemma {:induction false} FreeJoin(p: Text, x: Text, y: Text)
    requires p != [] && NL !in p && Free(p, x) && Free(p, y)
    ensures Free(p, x + [NL] + y)
  {
    var t := x + [NL] + y;
    NotPrefix(p, x, [NL] + y);
    assert x + ([NL] + y) == t;
    if x == [] {
      assert t[1..] == y;
    } else {
      assert t[1..] == x[1..] + [NL] + y;
      FreeJoin(p, x[1..], y);
    }
  }

  lemma {:induction false} FindFirst(b: Text, p: Text, y: Text)
    requires p != [] && NL !in p && Free(p, b)
    ensures Find(b + [NL] + p + y, p) == Split(b + [NL], y)
  {
    var t := b + [NL] + p + y;
    var rest := [NL] + p + y;
    NotPrefix(p, b, rest);
    assert b + rest == t;
    if b == [] {
      assert t[1..] == p + y;
      assert t[1..][|p|..] == y;
    } else {
      assert t[1..] == b[1..] + [NL] + p + y;
      FindFirst(b[1..], p, y);
    }
  }

  // --------------------------------------------------------------- no matches

  lemma {:induction false} QuietLine(m: Marks, legacy: bool, t: Text, n: nat, want: Want)
    requires Quiet(m, legacy, t, n, want) && |FirstLine(t)| < n && |FirstLine(t)| < |t|
    ensures !Starts(m, legacy, t[|FirstLine(t)| + 1..], want)
  {
    if t[0] != NL {
      QuietLine(m, legacy, t[1..], n - 1, want);
      assert t[1..][|FirstLine(t[1..])| + 1..] == t[|FirstLine(t)| + 1..];
    }
  }

  lemma MatchDrops(m: Marks, legacy: bool, t: Text, want: Want)
    requires t != [] && t[0] == NL
    ensures MatchAt(m, legacy, t, want) == MatchAt(m, legacy, t[1..], want)
  {}

  lemma MatchStarts(m: Marks, legacy: bool, t: Text, want: Want)
    requires MatchAt(m, legacy, t, want) != NoMatch && t != [] && t[0] != NL
    ensures |FirstLine(t)| < |t| && Starts(m, legacy, t[|FirstLine(t)| + 1..], want)
  {
    assert DropNewlines(t) == t;
  }

  lemma QuietStarts(m: Marks, legacy: bool, t: Text, n: nat, want: Want)
    requires 0 < n <= |t| && (n < |t| ==> t[n] == NL) && |FirstLine(t)| < |t|
    requires Quiet(m, legacy, t, n + 1, want)
    ensures !Starts(m, legacy, t[|FirstLine(t)| + 1..], want)
  {
    if n < |t| {
      FirstLineBound(t, n);
    }
    QuietLine(m, legacy, t, n + 1, want);
  }

  lemma NoMatchLine(m: Marks, legacy: bool, t: Text, n: nat, want: Want)
    requires 0 < n <= |t| && t[0] != NL && (n < |t| ==> t[n] == NL)
    requires Quiet(m, legacy, t, n + 1, want)
    ensures MatchAt(m, legacy, t, want) == NoMatch
  {
    if |FirstLine(t)| < |t| {
      QuietStarts(m, legacy, t, n, want);
    }
    if MatchAt(m, legacy, t, want) != NoMatch {
      MatchStarts(m, legacy, t, want);
    }
  }

  lemma {:induction false} NoMatchHere(m: Marks, legacy: bool, t: Text, n: nat, want: Want)
    requires 0 < n <= |t| && t[n - 1] != NL && (n < |t| ==> t[n] == NL)
    requires Quiet(m, legacy, t, n + 1, want)
    ensures MatchAt(m, legacy, t, want) == NoMatch
  {
    if t[0] == NL {
      NoMatchHere(m, legacy, t[1..], n - 1, want);
      MatchDrops(m, legacy, t, want);
    } else {
      NoMatchLine(m, legacy, t, n, want);
    }
  }

  lemma SearchStep(m: Marks, legacy: bool, t: Text, want: Want)
    requires t != [] && MatchAt(m, legacy, t, want) == NoMatch
    ensures Search(m, legacy, t, want) == Prepend([t[0]], Search(m, legacy, t[1..], want))
  {}

  /** Nothing matches in the first n characters: the search goes on behind them. */
  lemma {:induction false} SearchSkips(m: Marks, legacy: bool, t: Text, n: nat, want: Want)
    requires n <= |t| && (n > 0 ==> t[n - 1] != NL) && (0 < n < |t| ==> t[n] == NL)
    requires n > 0 ==> Quiet(m, legacy, t, n + 1, want)
    ensures Search(m, legacy, t, want) == Prepend(t[..n], Search(m, legacy, t[n..], want))
  {
    if n == 0 {
      assert t[..0] == [] && t[0..] == t;
      PrependNothing(Search(m, legacy, t, want));
    } else {
      NoMatchHere(m, legacy, t, n, want);
      SearchStep(m, legacy, t, want);
      var u := t[1..];
      SearchSkips(m, legacy, u, n - 1, want);
      Regroup(t, n);
      PrependTwice([t[0]], u[..n - 1], Search(m, legacy, u[n - 1..], want));
    }
  }

  lemma Regroup(t: Text, n: nat)
    requires 0 < n <= |t|
    ensures t[1..][n - 1..] == t[n..] && [t[0]] + t[1..][..n - 1] == t[..n]
  {}

  lemma PrependNothing(f: Found)
    ensures Prepend([], f) == f
  {
    if f.Found? {
      assert [] + f.before == f.before;
    }
  }

  lemma PrependTwice(x: Text, y: Text, f: Found)
    ensures Prepend(x, Prepend(y, f)) == Prepend(x + y, f)
  {
    if f.Found? {
      assert x + (y + f.before) == (x + y) + f.before;
    }
  }

  /** A calm line or paragraph before a line break keeps the text quiet. */
  lemma {:induction false} QuietStep(m: Marks, legacy: bool, x: Text, y: Text, k: nat, want: Want)
    requires Proper(m) && Calm(OpenerOf(m, legacy), x)
    requires !Starts(m, legacy, y, want) && Quiet(m, legacy, y, k, want)
    ensures Quiet(m, legacy, x + ([NL] + y), |x| + 1 + k, want)
  {
    var t := x + ([NL] + y);
    if x == [] {
      assert t[1..] == y;
    } else {
      assert t[1..] == x[1..] + ([NL] + y);
      QuietStep(m, legacy, x[1..], y, k, want);
      if x[0] == NL {
        NotPrefix(OpenerOf(m, legacy), x[1..], [NL] + y);
      }
    }
  }

  // ----------------------------------------------------------------- sections

  datatype Section = Section(title: Text, id: Text, body: Text)

  /** A line of text that is kept as it is. */
  predicate Line(t: Text) {
    t != [] && NL !in t
  }

  /** Not a line of the text starts with a section opener. */
  predicate Unmarked(m: Marks, t: Text) {
    && !(m.opener <= t) && Calm(m.opener, t)
    && !(m.oldOpener <= t) && Calm(m.oldOpener, t)
  }

  predicate SectionOk(m: Marks, s: Section) {
    && Line(s.title) && Trim(s.title) == s.title && Line(s.id)
    && Unmarked(m, s.body) && Free(m.closer, s.body) && Trim(s.body) == s.body
  }

  function Image(m: Marks, s: Section): Text {
    HASHES + s.title + [NL] + m.opener + s.id + DASHES + [NL] + s.body + [NL] + m.closer
  }

  lemma ImageParts(m: Marks, s: Section, rest: Text)
    ensures Image(m, s) + rest
            == (HASHES + s.title)
               + ([NL] + ((m.opener + (s.id + DASHES)) + ([NL] + (s.body + ([NL] + (m.closer + rest))))))
  {}

  lemma SectionHeading(m: Marks, s: Section, rest: Text)
    requires SectionOk(m, s)
    ensures FirstLine(Image(m, s) + rest) == HASHES + s.title
    ensures (Image(m, s) + rest)[|HASHES + s.title| + 1..]
            == (m.opener + (s.id + DASHES)) + ([NL] + (s.body + ([NL] + (m.closer + rest))))
  {
    ImageParts(m, s, rest);
    var y := (m.opener + (s.id + DASHES)) + ([NL] + (s.body + ([NL] + (m.closer + rest))));
    FirstLineOf(HASHES + s.title, [NL] + y);
    Behind(HASHES + s.title, y);
  }

  lemma Behind(x: Text, y: Text)
    ensures (x + ([NL] + y))[|x| + 1..] == y
  {}

  lemma OpenerLine(m: Marks, id: Text, y: Text)
    requires NL !in id
    ensures var v := (m.opener + (id + DASHES)) + ([NL] + y);
            && m.opener <= v
            && v[|m.opener|..] == (id + DASHES) + ([NL] + y)
            && FirstLine(v[|m.opener|..]) == id + DASHES
            && v[|m.opener|..][|id + DASHES| + 1..] == y
  {
    var v := (m.opener + (id + DASHES)) + ([NL] + y);
    assert v == m.opener + ((id + DASHES) + ([NL] + y));
    assert v[|m.opener|..] == (id + DASHES) + ([NL] + y);
    FirstLineOf(id + DASHES, [NL] + y);
    Behind(id + DASHES, y);
  }

  lemma NamesIt(id: Text, want: Want)
    requires Line(id)
    ensures Names(id + DASHES, want) <==> want == Any || want == One(id)
  {
    assert (id + DASHES)[|id|..] == DASHES && (id + DASHES)[..|id|] == id;
  }

  /** An opener line opens exactly the thread that it names. */
  lemma OpensIt(m: Marks, id: Text, y: Text, want: Want)
    requires Line(id)
    ensures Opens(m, (m.opener + (id + DASHES)) + ([NL] + y), want) <==> want == Any || want == One(id)
  {
    OpenerLine(m, id, y);
    NamesIt(id, want);
  }

  lemma BodyEnds(m: Marks, s: Section, heading: Text, rest: Text)
    requires Proper(m) && SectionOk(m, s)
    ensures Ending(heading, s.body + ([NL] + (m.closer + rest)), m.closer) == Match(heading, s.body + [NL], rest)
  {
    FindFirst(s.body, m.closer, rest);
    assert s.body + [NL] + m.closer + rest == s.body + ([NL] + (m.closer + rest));
  }

  lemma AfterIt(m: Marks, id: Text, y: Text)
    requires Line(id)
    ensures var v := (m.opener + (id + DASHES)) + ([NL] + y);
            && m.opener <= v && |m.opener| + |FirstLine(v[|m.opener|..])| < |v|
            && AfterOpener(m, v) == y
  {
    OpenerLine(m, id, y);
  }

  /** A section matches where it starts, with its own heading, body and rest. */
  lemma SectionMatches(m: Marks, s: Section, rest: Text, want: Want)
    requires Proper(m) && SectionOk(m, s) && (want == Any || want == One(s.id))
    ensures NewSection(m, Image(m, s) + rest, want) == Match(HASHES + s.title, s.body + [NL], rest)
  {
    var u := Image(m, s) + rest;
    var y := s.body + ([NL] + (m.closer + rest));
    var v := (m.opener + (s.id + DASHES)) + ([NL] + y);
    SectionHeading(m, s, rest);
    ImageHead(m, s, rest);
    ImageLength(m, s, rest);
    OpensIt(m, s.id, y, want);
    AfterIt(m, s.id, y);
    BodyEnds(m, s, HASHES + s.title, rest);
    HereNew(m, u, want);
  }

  lemma HereNew(m: Marks, u: Text, want: Want)
    requires HASHES <= u && |HASHES| < |FirstLine(u)| < |u|
    requires Opens(m, u[|FirstLine(u)| + 1..], want)
    ensures NewSection(m, u, want) == Ending(FirstLine(u), AfterOpener(m, u[|FirstLine(u)| + 1..]), m.closer)
  {}

  lemma GapDrops(u: Text, gap: Text)
    requires u != [] && u[0] == HASH && (gap == [] || gap == [NL, NL])
    ensures DropNewlines(gap + u) == u
  {
    if gap == [] {
      assert gap + u == u;
    } else {
      assert (gap + u)[1..] == [NL] + u && ([NL] + u)[1..] == u;
      assert DropNewlines([NL] + u) == DropNewlines(u) == u;
    }
  }

  lemma ImageLength(m: Marks, s: Section, rest: Text)
    ensures |HASHES + s.title| < |Image(m, s) + rest|
  {}

  lemma ImageHead(m: Marks, s: Section, rest: Text)
    ensures Image(m, s) + rest != [] && (Image(m, s) + rest)[0] == HASH && HASHES <= Image(m, s) + rest
  {
    ImageParts(m, s, rest);
    assert (Image(m, s) + rest)[..3] == HASHES;
  }

  lemma GapMatches(m: Marks, s: Section, rest: Text, want: Want, gap: Text)
    requires Proper(m) && SectionOk(m, s) && (want == Any || want == One(s.id))
    requires gap == [] || gap == [NL, NL]
    ensures MatchAt(m, false, gap + (Image(m, s) + rest), want) == Match(HASHES + s.title, s.body + [NL], rest)
  {
    SectionMatches(m, s, rest, want);
    ImageHead(m, s, rest);
    GapDrops(Image(m, s) + rest, gap);
  }

  // -------------------------------------------------------- sections passed by

  lemma OldStarts(m: Marks, id: Text, y: Text)
    requires Proper(m)
    ensures !(m.oldOpener <= (m.opener + (id + DASHES)) + y)
  {
    assert ((m.opener + (id + DASHES)) + y)[5] == m.opener[5];
  }

  lemma CloserQuiet(m: Marks, legacy: bool, y: Text, want: Want)
    requires Proper(m)
    ensures !Starts(m, legacy, m.closer + y, want)
  {
    assert (m.closer + y)[5] == m.closer[5];
  }

  lemma BreakQuiet(m: Marks, legacy: bool, y: Text, want: Want)
    requires Proper(m) && (y == [] || y[0] == NL || y[0] == HASH)
    ensures !Starts(m, legacy, y, want)
  {}

  lemma BodyQuiet(m: Marks, legacy: bool, body: Text, y: Text, want: Want)
    requires Proper(m) && Unmarked(m, body)
    ensures !Starts(m, legacy, body + ([NL] + y), want)
  {
    NotPrefix(OpenerOf(m, legacy), body, [NL] + y);
  }

  lemma CloserPart(m: Marks, legacy: bool, y: Text, want: Want)
    requires Proper(m) && (y == [] || y[0] == NL)
    ensures Quiet(m, legacy, m.closer + ([NL] + y), |m.closer| + 1, want)
  {
    BreakQuiet(m, legacy, y, want);
    CalmLine(OpenerOf(m, legacy), m.closer);
    QuietStep(m, legacy, m.closer, y, 0, want);
  }

  lemma BodyPart(m: Marks, legacy: bool, body: Text, y: Text, want: Want)
    requires Proper(m) && Unmarked(m, body) && (y == [] || y[0] == NL)
    ensures Quiet(m, legacy, body + ([NL] + (m.closer + ([NL] + y))), |body| + |m.closer| + 2, want)
  {
    CloserPart(m, legacy, y, want);
    CloserQuiet(m, legacy, [NL] + y, want);
    QuietStep(m, legacy, body, m.closer + ([NL] + y), |m.closer| + 1, want);
  }

  lemma OpenerPart(m: Marks, legacy: bool, s: Section, y: Text, want: Want)
    requires Proper(m) && SectionOk(m, s) && (y == [] || y[0] == NL)
    ensures Quiet(m, legacy, (m.opener + (s.id + DASHES)) + ([NL] + (s.body + ([NL] + (m.closer + ([NL] + y))))),
                  |m.opener| + |s.id| + |s.body| + |m.closer| + 7, want)
  {
    var t2 := s.body + ([NL] + (m.closer + ([NL] + y)));
    BodyPart(m, legacy, s.body, y, want);
    BodyQuiet(m, legacy, s.body, m.closer + ([NL] + y), want);
    CalmLine(OpenerOf(m, legacy), m.opener + (s.id + DASHES));
    QuietStep(m, legacy, m.opener + (s.id + DASHES), t2, |s.body| + |m.closer| + 2, want);
  }

  lemma OpenerQuiet(m: Marks, legacy: bool, s: Section, y: Text, want: Want)
    requires Proper(m) && Line(s.id) && (legacy || (want.One? && want != One(s.id)))
    ensures !Starts(m, legacy, (m.opener + (s.id + DASHES)) + ([NL] + y), want)
  {
    if legacy {
      OldStarts(m, s.id, [NL] + y);
    } else {
      OpensIt(m, s.id, y, want);
    }
  }

  /** A section of another thread holds nothing that the search could take. */
  lemma SectionQuiet(m: Marks, legacy: bool, s: Section, y: Text, want: Want)
    requires Proper(m) && SectionOk(m, s) && (y == [] || y[0] == NL)
    requires legacy || (want.One? && want != One(s.id))
    ensures Quiet(m, legacy, Image(m, s) + ([NL] + y), |Image(m, s)| + 1, want)
  {
    var t2 := s.body + ([NL] + (m.closer + ([NL] + y)));
    OpenerPart(m, legacy, s, y, want);
    OpenerQuiet(m, legacy, s, t2, want);
    CalmLine(OpenerOf(m, legacy), HASHES + s.title);
    QuietStep(m, legacy, HASHES + s.title, (m.opener + (s.id + DASHES)) + ([NL] + t2),
              |m.opener| + |s.id| + |s.body| + |m.closer| + 7, want);
    ImageParts(m, s, [NL] + y);
  }

  lemma GapQuiet(m: Marks, legacy: bool, u: Text, k: nat, want: Want)
    requires Proper(m) && u != [] && u[0] == HASH && Quiet(m, legacy, u, k, want)
    ensures Quiet(m, legacy, [NL, NL] + u, k + 2, want)
  {
    BreakQuiet(m, legacy, u, want);
    BreakQuiet(m, legacy, [NL] + u, want);
    assert ([NL, NL] + u)[1..] == [NL] + u;
    assert ([NL] + u)[1..] == u;
  }
}
