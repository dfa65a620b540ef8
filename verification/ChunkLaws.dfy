/** Where the chunks of a document begin and end (pawlia/rag_backend.py). */
module ChunkLaws {
  import Seqs
  import opened Texts
  import opened Chunker

  // ------------------------------------------------------------------- paragraphs

  lemma {:induction false} JoinedFront(p: Text, ps: seq<Text>)
    requires ps != []
    ensures Joined([p] + ps) == p + [NL, NL] + Joined(ps)
  {
    var n := |ps| - 1;
    if n == 0 {
      assert ([p] + ps)[..1] == [p] && Joined([p]) == p;
    } else {
      assert ([p] + ps)[..|ps|] == [p] + ps[..n];
      JoinedFront(p, ps[..n]);
      Seqs.Assoc(p + [NL, NL], Joined(ps[..n]), [NL, NL]);
      Seqs.Assoc(p + [NL, NL], Joined(ps[..n]) + [NL, NL], ps[n]);
    }
  }

  lemma Regroup(c: Code, x: Text, y: Text)
    ensures [c] + x + [NL, NL] + y == [c] + (x + [NL, NL] + y)
  {}

  lemma JoinedGrown(c: Code, ps: seq<Text>)
    requires ps != []
    ensures Joined([[c] + ps[0]] + ps[1..]) == [c] + Joined(ps)
  {
    var rest := ps[1..];
    assert ps == [ps[0]] + rest;
    if rest == [] {
      assert [[c] + ps[0]] + rest == [[c] + ps[0]];
    } else {
      JoinedFront(ps[0], rest);
      JoinedFront([c] + ps[0], rest);
      Regroup(c, ps[0], Joined(rest));
    }
  }

  /** The pieces, with the empty lines put back, are the text. */
  lemma {:induction false} PiecesJoined(t: Text)
    ensures Joined(Pieces(t)) == t
  {
    if t == [] {
    } else if |t| >= 2 && t[0] == NL && t[1] == NL {
      PiecesJoined(t[2..]);
      JoinedFront([], Pieces(t[2..]));
      assert [] + [NL, NL] + t[2..] == t;
    } else {
      PiecesJoined(t[1..]);
      JoinedGrown(t[0], Pieces(t[1..]));
    }
  }

  /** No two line breaks in a row. */
  predicate Dense(t: Text) {
    forall i, j | 0 <= i < |t| && 0 <= j < |t| && j == i + 1 :: !(t[i] == NL && t[j] == NL)
  }

  /** Each piece reaches to the first empty line: it has none inside, and only the last one
      may end with a line break. */
  predicate Cut(pieces: seq<Text>) {
    pieces != []
    && Dense(pieces[0])
    && (|pieces| > 1 ==> (pieces[0] == [] || pieces[0][|pieces[0]| - 1] != NL) && Cut(pieces[1..]))
  }

  lemma PiecesBegin(t: Text)
    ensures Pieces(t)[0] != [] ==> t != [] && Pieces(t)[0][0] == t[0]
    ensures Pieces(t)[0] == [] ==> t == [] || (|t| >= 2 && t[0] == NL && t[1] == NL)
  {}

  lemma {:induction false} PiecesCut(t: Text)
    ensures Cut(Pieces(t))
  {
    if t == [] {
    } else if |t| >= 2 && t[0] == NL && t[1] == NL {
      PiecesCut(t[2..]);
      assert ([[]] + Pieces(t[2..]))[1..] == Pieces(t[2..]);
    } else {
      var more := Pieces(t[1..]);
      PiecesCut(t[1..]);
      PiecesBegin(t[1..]);
      assert ([[t[0]] + more[0]] + more[1..])[1..] == more[1..];
      assert |t| >= 2 ==> !(t[0] == NL && t[1] == NL);
      LeadingBreak(t[0], more);
    }
  }

  /** One character more in front of the first piece. */
  lemma LeadingBreak(c: Code, pieces: seq<Text>)
    requires Cut(pieces)
    requires c == NL ==> if pieces[0] == [] then |pieces| == 1 else pieces[0][0] != NL
    ensures Cut([[c] + pieces[0]] + pieces[1..])
  {
    var first := [c] + pieces[0];
    assert first[1..] == pieces[0];
    assert ([first] + pieces[1..])[1..] == pieces[1..];
  }

  /** What is written in all these texts, white space aside. */
  function AllInk(ps: seq<Text>): Text {
    if ps == [] then [] else Ink(ps[0]) + AllInk(ps[1..])
  }

  lemma {:induction false} TrimmedInk(pieces: seq<Text>)
    ensures AllInk(Trimmed(pieces)) == AllInk(pieces)
  {
    if pieces != [] {
      TrimmedInk(pieces[1..]);
      InkTrim(pieces[0]);
      var p := Trim(pieces[0]);
      if p != [] {
        assert ([p] + Trimmed(pieces[1..]))[1..] == Trimmed(pieces[1..]);
      } else {
        assert [] + Trimmed(pieces[1..]) == Trimmed(pieces[1..]);
      }
    }
  }

  lemma {:induction false} JoinedInk(ps: seq<Text>)
    ensures Ink(Joined(ps)) == AllInk(ps)
  {
    if |ps| == 1 {
      assert |ps[1..]| == 0;
    } else if |ps| > 1 {
      var rest := ps[1..];
      assert ps == [ps[0]] + rest;
      JoinedFront(ps[0], rest);
      JoinedInk(rest);
      InkConcat(ps[0] + [NL, NL], Joined(rest));
      InkConcat(ps[0], [NL, NL]);
      assert [NL, NL][..1] == [NL] && [NL][..0] == [] && Ink([]) == [] && Ink([NL]) == [];
      assert Ink([NL, NL]) == [];
    }
  }

  lemma {:induction false} TrimLeftAt(t: Text) returns (i: nat)
    ensures i <= |t| && TrimLeft(t) == t[i..] && (i < |t| ==> !IsSpace(t[i]))
    ensures forall c | c in t[..i] :: IsSpace(c)
  {
    i := 0;
    if t != [] && IsSpace(t[0]) {
      i := TrimLeftAt(t[1..]);
      assert t[..i + 1] == [t[0]] + t[1..][..i];
      i := i + 1;
    }
  }

  lemma {:induction false} TrimRightAt(t: Text) returns (j: nat)
    ensures j <= |t| && TrimRight(t) == t[..j] && (j > 0 ==> !IsSpace(t[j - 1]))
    ensures forall c | c in t[j..] :: IsSpace(c)
  {
    j := |t|;
    if t != [] && IsSpace(t[|t| - 1]) {
      j := TrimRightAt(t[..|t| - 1]);
      assert t[j..] == t[..|t| - 1][j..] + [t[|t| - 1]];
    }
  }

  /** Trimming takes the white space at both ends and nothing else. */
  lemma TrimAt(t: Text) returns (i: nat, j: nat)
    ensures i <= j <= |t| && Trim(t) == t[i..j]
    ensures i < j ==> !IsSpace(t[i]) && !IsSpace(t[j - 1])
    ensures (forall c | c in t[..i] :: IsSpace(c)) && (forall c | c in t[j..] :: IsSpace(c))
  {
    i := TrimLeftAt(t);
    var n := TrimRightAt(t[i..]);
    j := i + n;
    assert t[i..][..n] == t[i..j] && t[i..][n..] == t[j..];
  }

  /** A paragraph begins and ends with something written. */
  predicate Firm(p: Text) {
    p != [] && !IsSpace(p[0]) && !IsSpace(p[|p| - 1])
  }

  lemma {:induction false} TrimmedFirm(pieces: seq<Text>)
    ensures forall p | p in Trimmed(pieces) :: Firm(p)
  {
    if pieces != [] {
      TrimmedFirm(pieces[1..]);
      var i, j := TrimAt(pieces[0]);
    }
  }

  /** The paragraphs hold, in order, all that is written in the text; none begins or ends
      with white space. */
  lemma ParagraphsHold(t: Text)
    ensures AllInk(Paragraphs(t)) == Ink(t)
    ensures forall p | p in Paragraphs(t) :: Firm(p)
  {
    PiecesJoined(t);
    JoinedInk(Pieces(t));
    TrimmedInk(Pieces(t));
    TrimmedFirm(Pieces(t));
  }

  // ------------------------------------------------------------------------ groups

  /** Each chunk is closed only by a paragraph that would take it over 800 characters. */
  predicate Tight(groups: seq<seq<Text>>) {
    |groups| <= 1
    || (|groups[1]| >= 2 && Sum(groups[0]) + |groups[1][1]| > 800 && Tight(groups[1..]))
  }

  lemma {:induction false} GroupsTight(ps: seq<Text>, buf: seq<Text>)
    ensures Tight(Groups(ps, buf))
    decreases |ps|
  {
    if ps != [] {
      if buf != [] && Sum(buf) + |ps[0]| > 800 {
        var next := [buf[|buf| - 1], ps[0]];
        var more := Groups(ps[1..], next);
        GroupsTight(ps[1..], next);
        GroupsStart(ps[1..], next);
        assert ([buf] + more)[1..] == more;
        assert more[0][..2] == next && more[0][1] == next[1];
      } else {
        GroupsTight(ps[1..], buf + [ps[0]]);
      }
    }
  }

  /** From the second on a chunk may be too long for the sake of its first two paragraphs,
      one repeated and one new; the first one only for one. */
  predicate Filled(groups: seq<seq<Text>>) {
    && (groups != [] ==> |groups[0]| <= 1 || Sum(groups[0]) <= 800)
    && forall k | 0 <= k < |groups| :: |groups[k]| <= 2 || Sum(groups[k]) <= 800
  }

  lemma {:induction false} FirstFilled(ps: seq<Text>, buf: seq<Text>)
    requires |buf| <= 1 || Sum(buf) <= 800
    ensures var g := Groups(ps, buf); g != [] ==> |g[0]| <= 1 || Sum(g[0]) <= 800
    decreases |ps|
  {
    if ps != [] && (buf == [] || Sum(buf) + |ps[0]| <= 800) {
      SumPush(buf, ps[0]);
      FirstFilled(ps[1..], buf + [ps[0]]);
    }
  }

  /** The chunks are the paragraphs in order, each from the second on after the last
      paragraph of the one before; as many go into one as fit in 800 characters, and at
      least one new one does. */
  lemma GroupsExactly(ps: seq<Text>)
    ensures var groups := Groups(ps, []);
            Flat(groups) == ps && Overlapping(groups) && Tight(groups) && Filled(groups)
  {
    NothingLostAtAll(ps);
    GroupsTight(ps, []);
    GroupsFit(ps, []);
    FirstFilled(ps, []);
  }

  lemma {:induction false} SumPrefix(a: seq<Text>, b: seq<Text>)
    requires a <= b
    ensures Sum(a) <= Sum(b)
  {
    if a != b {
      SumPrefix(a, b[..|b| - 1]);
    } else {
      assert a == b;
    }
  }

  /** The first chunk has no more than n paragraphs unless it fits, the others not more than
      two. */
  predicate Fits(groups: seq<seq<Text>>, n: nat) {
    groups != []
    && (|groups[0]| <= n || Sum(groups[0]) <= 800)
    && forall k | 0 < k < |groups| :: |groups[k]| <= 2 || Sum(groups[k]) <= 800
  }

  /** These chunks begin with these paragraphs, and come from them and those that follow. */
  predicate Chunked(groups: seq<seq<Text>>, ps: seq<Text>, buf: seq<Text>) {
    && buf != [] && groups != [] && buf <= groups[0] && Flat(groups) == buf + ps
    && Overlapping(groups) && Tight(groups) && Fits(groups, |buf|)
  }

  lemma FreshAfter(groups: seq<seq<Text>>, ps: seq<Text>, buf: seq<Text>)
    requires groups != [] && groups[0] == buf && Flat(groups) == buf + ps
    ensures Fresh(groups[1..]) == ps
  {
    assert Flat(groups)[|buf|..] == Fresh(groups[1..]);
    assert (buf + ps)[|buf|..] == ps;
  }

  lemma SecondFirst(g: seq<Text>, tail: seq<Text>, ps: seq<Text>)
    requires |g| >= 2 && g[1..] + tail == ps
    ensures ps != [] && ps[0] == g[1] && g + tail == [g[0], ps[0]] + ps[1..]
  {
    assert (g[1..] + tail)[0] == g[1];
  }

  lemma FlatOf(rest: seq<seq<Text>>, ps: seq<Text>)
    requires rest != [] && |rest[0]| >= 2 && Fresh(rest) == ps
    ensures ps != [] && ps[0] == rest[0][1] && Flat(rest) == [rest[0][0], ps[0]] + ps[1..]
  {
    var tail := Fresh(rest[1..]);
    SecondFirst(rest[0], tail, ps);
  }

  lemma FitsAfter(groups: seq<seq<Text>>, n: nat)
    requires Fits(groups, n) && |groups| > 1
    ensures Fits(groups[1..], 2)
  {
    assert forall k | 0 <= k < |groups| - 1 :: groups[1..][k] == groups[k + 1];
  }

  lemma Closed(groups: seq<seq<Text>>, ps: seq<Text>, buf: seq<Text>)
    requires Chunked(groups, ps, buf) && groups[0] == buf
    ensures if |groups| == 1 then ps == []
            else
              && ps != [] && Sum(buf) + |ps[0]| > 800
              && Chunked(groups[1..], ps[1..], [buf[|buf| - 1], ps[0]])
  {
    var rest := groups[1..];
    FreshAfter(groups, ps, buf);
    if rest != [] {
      assert rest[0] == groups[1];
      FlatOf(rest, ps);
      FitsAfter(groups, |buf|);
      assert rest[0][..2] == [buf[|buf| - 1], ps[0]];
    }
  }

  lemma Continued(groups: seq<seq<Text>>, ps: seq<Text>, buf: seq<Text>)
    requires Chunked(groups, ps, buf) && groups[0] != buf
    ensures ps != [] && Sum(buf) + |ps[0]| <= 800 && Chunked(groups, ps[1..], buf + [ps[0]])
  {
    var first, next := groups[0], groups[0][..|buf| + 1];
    assert Flat(groups) == first + Fresh(groups[1..]);
    assert first[|buf|] == Flat(groups)[|buf|] == ps[0];
    assert next == buf + [ps[0]] && next + ps[1..] == buf + ps;
    SumPush(buf, ps[0]);
    SumPrefix(next, first);
  }

  lemma {:induction false} GroupsUnique(groups: seq<seq<Text>>, ps: seq<Text>, buf: seq<Text>)
    requires Chunked(groups, ps, buf)
    ensures groups == Groups(ps, buf)
    decreases |ps|
  {
    if groups[0] == buf {
      Closed(groups, ps, buf);
      assert groups == [buf] + groups[1..];
      if |groups| > 1 {
        GroupsUnique(groups[1..], ps[1..], [buf[|buf| - 1], ps[0]]);
      }
    } else {
      Continued(groups, ps, buf);
      GroupsUnique(groups, ps[1..], buf + [ps[0]]);
    }
  }

  /** And there is no other way to do so. */
  lemma GroupsOnly(ps: seq<Text>, groups: seq<seq<Text>>)
    requires Flat(groups) == ps && Overlapping(groups) && Tight(groups) && Filled(groups)
    requires groups != [] ==> groups[0] != []
    ensures groups == Groups(ps, [])
  {
    if groups != [] {
      assert ps[0] == groups[0][0];
      assert [ps[0]] + ps[1..] == ps && [] + [ps[0]] == [ps[0]];
      GroupsUnique(groups, ps[1..], [ps[0]]);
    }
  }

  /** Without paragraphs the only chunk is the beginning of the text. */
  lemma BlankExactly(t: Text)
    requires Paragraphs(t) == []
    ensures Chunks(t) == [if |t| <= 800 then t else t[..800]]
  {}
}
