/** Cutting a document into overlapping chunks (SimpleVectorBackend._chunk_text in
    pawlia/rag_backend.py). */
module Chunker {
  import opened Texts

  const SIZE := 800

  /** `text.split("\n\n")` */
  function Pieces(t: Text): (r: seq<Text>)
    ensures r != []
  {
    if t == [] then [[]]
    else if |t| >= 2 && t[0] == NL && t[1] == NL then [[]] + Pieces(t[2..])
    else
      var more := Pieces(t[1..]);
      [[t[0]] + more[0]] + more[1..]
  }

  /** The pieces, trimmed, without the blank ones. */
  function Trimmed(pieces: seq<Text>): seq<Text> {
    if pieces == [] then []
    else (if Trim(pieces[0]) != [] then [Trim(pieces[0])] else []) + Trimmed(pieces[1..])
  }

  function Paragraphs(t: Text): seq<Text> {
    Trimmed(Pieces(t))
  }

  function Sum(ps: seq<Text>): nat {
    if ps == [] then 0 else Sum(ps[..|ps| - 1]) + |ps[|ps| - 1]|
  }

  /** `"\n\n".join(ps)` */
  function Joined(ps: seq<Text>): Text {
    if ps == [] then [] else if |ps| == 1 then ps[0] else Joined(ps[..|ps| - 1]) + [NL, NL] + ps[|ps| - 1]
  }

  /** The paragraphs of each chunk, from a buffer on: a chunk that would grow too long
      is closed, and its last paragraph begins the next one. */
  function Groups(ps: seq<Text>, buf: seq<Text>): seq<seq<Text>>
    decreases |ps|
  {
    if ps == [] then if buf != [] then [buf] else []
    else if buf != [] && Sum(buf) + |ps[0]| > SIZE then
      [buf] + Groups(ps[1..], [buf[|buf| - 1], ps[0]])
    else Groups(ps[1..], buf + [ps[0]])
  }

  function AllJoined(groups: seq<seq<Text>>): seq<Text> {
    if groups == [] then [] else [Joined(groups[0])] + AllJoined(groups[1..])
  }

  function Chunks(t: Text): (r: seq<Text>)
    ensures r != []
  {
    var chunks := AllJoined(Groups(Paragraphs(t), []));
    if chunks != [] then chunks else [Take(t, SIZE)]
  }

  lemma SumPush(buf: seq<Text>, p: Text)
    ensures Sum(buf + [p]) == Sum(buf) + |p|
  {
    assert (buf + [p])[..|buf|] == buf;
  }

  /** Cutting, as it runs. */
  method ChunkText(t: Text) returns (chunks: seq<Text>)
    ensures chunks == Chunks(t)
  {
    var ps := Paragraphs(t);
    var buf: seq<Text> := [];
    var size: nat := 0;
    chunks := [];
    assert ps[0..] == ps;
    for k := 0 to |ps|
      invariant size == Sum(buf)
      invariant chunks + AllJoined(Groups(ps[k..], buf)) == AllJoined(Groups(ps, []))
    {
      var p := ps[k];
      assert ps[k..][0] == p && ps[k..][1..] == ps[k + 1..];
      if size + |p| > SIZE && buf != [] {
        Tidy(chunks, buf, Groups(ps[k + 1..], [buf[|buf| - 1], p]));
        chunks := chunks + [Joined(buf)];
        buf := [buf[|buf| - 1]];
        size := |buf[0]|;
        assert buf[..0] == [];
        assert buf + [p] == [buf[0], p];
      }
      SumPush(buf, p);
      buf := buf + [p];
      size := size + |p|;
    }
    if buf != [] {
      assert AllJoined([buf]) == [Joined(buf)];
      chunks := chunks + [Joined(buf)];
    }
    if chunks == [] {
      chunks := [Take(t, SIZE)];
    }
  }

  lemma Tidy(chunks: seq<Text>, buf: seq<Text>, y: seq<seq<Text>>)
    ensures chunks + AllJoined([buf] + y) == (chunks + [Joined(buf)]) + AllJoined(y)
  {
    assert ([buf] + y)[1..] == y;
  }

  // ----------------------------------------------------------------------- laws

  /** The paragraphs of all groups, without the one that a group repeats. */
  function Fresh(groups: seq<seq<Text>>): seq<Text> {
    if groups == [] then []
    else (if groups[0] != [] then groups[0][1..] else []) + Fresh(groups[1..])
  }

  function Flat(groups: seq<seq<Text>>): seq<Text> {
    if groups == [] then [] else groups[0] + Fresh(groups[1..])
  }

  lemma {:induction false} GroupsStart(ps: seq<Text>, buf: seq<Text>)
    requires buf != []
    ensures Groups(ps, buf) != [] && buf <= Groups(ps, buf)[0]
    decreases |ps|
  {
    if ps != [] && Sum(buf) + |ps[0]| <= SIZE {
      GroupsStart(ps[1..], buf + [ps[0]]);
    }
  }

  /** A group that follows begins with the last paragraph of the one before. */
  predicate Overlapping(groups: seq<seq<Text>>) {
    |groups| <= 1
    || (&& groups[0] != [] && |groups[1]| >= 2 && groups[1][0] == groups[0][|groups[0]| - 1]
        && Overlapping(groups[1..]))
  }

  lemma {:induction false} GroupsOverlap(ps: seq<Text>, buf: seq<Text>)
    requires buf != []
    ensures Overlapping(Groups(ps, buf))
    decreases |ps|
  {
    if ps != [] {
      if Sum(buf) + |ps[0]| > SIZE {
        var next := [buf[|buf| - 1], ps[0]];
        var more := Groups(ps[1..], next);
        GroupsOverlap(ps[1..], next);
        GroupsStart(ps[1..], next);
        assert ([buf] + more)[1..] == more;
        assert more[0][..2] == next;
      } else {
        GroupsOverlap(ps[1..], buf + [ps[0]]);
      }
    }
  }

  lemma FlatStep(buf: seq<Text>, p: Text, more: seq<seq<Text>>, rest: seq<Text>)
    requires buf != [] && more != [] && more[0] != [] && Flat(more) == [buf[|buf| - 1], p] + rest
    ensures Flat([buf] + more) == buf + ([p] + rest)
  {
    assert ([buf] + more)[1..] == more;
    assert Fresh(more) == more[0][1..] + Fresh(more[1..]);
    assert Flat(more)[1..] == more[0][1..] + Fresh(more[1..]);
    assert ([buf[|buf| - 1], p] + rest)[1..] == [p] + rest;
  }

  /** Without the repetitions the chunks are the paragraphs, in order. */
  lemma {:induction false} NothingLost(ps: seq<Text>, buf: seq<Text>)
    requires buf != []
    ensures Flat(Groups(ps, buf)) == buf + ps
    decreases |ps|
  {
    if ps == [] {
      assert [buf][1..] == [];
      assert buf + [] == buf;
    } else {
      assert [ps[0]] + ps[1..] == ps;
      if Sum(buf) + |ps[0]| > SIZE {
        var next := [buf[|buf| - 1], ps[0]];
        NothingLost(ps[1..], next);
        GroupsStart(ps[1..], next);
        FlatStep(buf, ps[0], Groups(ps[1..], next), ps[1..]);
      } else {
        NothingLost(ps[1..], buf + [ps[0]]);
        assert (buf + [ps[0]]) + ps[1..] == buf + ([ps[0]] + ps[1..]);
      }
    }
  }

  lemma NothingLostAtAll(ps: seq<Text>)
    ensures Flat(Groups(ps, [])) == ps && Overlapping(Groups(ps, []))
  {
    if ps != [] {
      assert [] + [ps[0]] == [ps[0]];
      GroupsOverlap(ps[1..], [ps[0]]);
      NothingLost(ps[1..], [ps[0]]);
      assert [ps[0]] + ps[1..] == ps;
    }
  }

  /** A chunk of more than two paragraphs holds at most 800 characters of them. */
  predicate Fitting(group: seq<Text>) {
    |group| <= 2 || Sum(group) <= SIZE
  }

  lemma {:induction false} GroupsFit(ps: seq<Text>, buf: seq<Text>)
    requires Fitting(buf)
    ensures forall k | 0 <= k < |Groups(ps, buf)| :: Fitting(Groups(ps, buf)[k])
    decreases |ps|
  {
    if ps != [] {
      if buf != [] && Sum(buf) + |ps[0]| > SIZE {
        GroupsFit(ps[1..], [buf[|buf| - 1], ps[0]]);
      } else {
        SumPush(buf, ps[0]);
        GroupsFit(ps[1..], buf + [ps[0]]);
      }
    }
  }

  lemma {:induction false} JoinedLength(ps: seq<Text>)
    requires ps != []
    ensures |Joined(ps)| == Sum(ps) + 2 * (|ps| - 1)
  {
    if |ps| > 1 {
      JoinedLength(ps[..|ps| - 1]);
    } else {
      assert ps[..0] == [];
    }
  }

  lemma {:induction false} JoinedAt(groups: seq<seq<Text>>, k: nat)
    requires k < |groups|
    ensures |AllJoined(groups)| == |groups| && AllJoined(groups)[k] == Joined(groups[k])
  {
    if k > 0 {
      JoinedAt(groups[1..], k - 1);
    } else if |groups| > 1 {
      JoinedAt(groups[1..], 0);
    }
  }

  lemma {:induction false} GroupsFilled(ps: seq<Text>, buf: seq<Text>, k: nat)
    requires k < |Groups(ps, buf)|
    ensures Groups(ps, buf)[k] != []
    decreases |ps|
  {
    if ps != [] {
      if buf != [] && Sum(buf) + |ps[0]| > SIZE {
        if k > 0 {
          GroupsFilled(ps[1..], [buf[|buf| - 1], ps[0]], k - 1);
        }
      } else {
        GroupsFilled(ps[1..], buf + [ps[0]], k);
      }
    }
  }

  /** A chunk longer than 800 characters has at most two paragraphs, except if and only if
      its paragraphs fit and the blank lines between them, which are not counted, take it
      over. */
  lemma LongChunk(t: Text, k: nat)
    requires k < |Groups(Paragraphs(t), [])|
    ensures k < |Chunks(t)| && Chunks(t)[k] == Joined(Groups(Paragraphs(t), [])[k])
    ensures var g := Groups(Paragraphs(t), [])[k];
            |Chunks(t)[k]| > SIZE && |g| > 2 <==> |g| > 2 && SIZE - 2 * (|g| - 1) < Sum(g) <= SIZE
  {
    var groups := Groups(Paragraphs(t), []);
    GroupsFit(Paragraphs(t), []);
    GroupsFilled(Paragraphs(t), [], k);
    JoinedAt(groups, k);
    JoinedLength(groups[k]);
  }

  /** A text without paragraphs is one chunk of at most 800 characters. */
  lemma BlankChunk(t: Text)
    requires Groups(Paragraphs(t), []) == []
    ensures |Chunks(t)| == 1 && |Chunks(t)[0]| <= SIZE
  {}

  /** Three paragraphs stay together when they fit in without their blank lines. */
  lemma ThreeTogether(a: Text, b: Text, c: Text)
    requires |a| + |b| + |c| <= SIZE
    ensures Groups([a, b, c], []) == [[a, b, c]]
  {
    assert [] + [a] == [a] && [a] + [b] == [a, b] && [a, b] + [c] == [a, b, c];
    SumPush([], a);
    SumPush([a], b);
    SumPush([a, b], c);
    assert [a, b, c][1..] == [b, c] && [b, c][1..] == [c] && |[c][1..]| == 0;
    assert Groups([c], [a, b]) == Groups([], [a, b, c]);
    assert Groups([b, c], [a]) == Groups([c], [a, b]);
    assert Groups([a, b, c], []) == Groups([b, c], [a]);
  }

  lemma {:induction false} PiecesFirst(x: Text, rest: Text)
    requires NL !in x
    ensures Pieces(x + ([NL, NL] + rest)) == [x] + Pieces(rest)
  {
    var t := x + ([NL, NL] + rest);
    if x == [] {
      assert t[2..] == rest;
    } else {
      assert t[1..] == x[1..] + ([NL, NL] + rest);
      PiecesFirst(x[1..], rest);
      assert [x[0]] + x[1..] == x;
      assert ([x[1..]] + Pieces(rest))[1..] == Pieces(rest);
    }
  }

  lemma {:induction false} PiecesOne(x: Text)
    requires NL !in x
    ensures Pieces(x) == [x]
  {
    if x != [] {
      PiecesOne(x[1..]);
      assert [x[0]] + x[1..] == x;
      assert |[x[1..]][1..]| == 0;
    }
  }

  /** A paragraph as it stands in a text. */
  predicate IsParagraph(p: Text) {
    NL !in p && p != [] && Trim(p) == p
  }

  function Three(a: Text, b: Text, c: Text): Text {
    a + ([NL, NL] + (b + ([NL, NL] + c)))
  }

  lemma ThreeParagraphs(a: Text, b: Text, c: Text)
    requires IsParagraph(a) && IsParagraph(b) && IsParagraph(c)
    ensures Paragraphs(Three(a, b, c)) == [a, b, c]
  {
    PiecesFirst(a, b + ([NL, NL] + c));
    PiecesFirst(b, c);
    PiecesOne(c);
    assert Pieces(Three(a, b, c)) == [a, b, c];
    assert [a, b, c][1..] == [b, c] && [b, c][1..] == [c] && |[c][1..]| == 0;
    assert Trimmed([c]) == [c];
    assert Trimmed([b, c]) == [b, c];
  }

  /** Texts of three paragraphs of together 797 to 800 characters make one chunk of more
      than 800. */
  lemma OverlongChunk(a: Text, b: Text, c: Text)
    requires IsParagraph(a) && IsParagraph(b) && IsParagraph(c)
    requires SIZE - 4 < |a| + |b| + |c| <= SIZE
    ensures var t := Three(a, b, c); Chunks(t) == [t] && |t| > SIZE
  {
    ThreeParagraphs(a, b, c);
    ThreeTogether(a, b, c);
    assert Joined([a]) == a && [a, b][..1] == [a] && [a, b, c][..2] == [a, b];
    assert Joined([a, b]) == a + [NL, NL] + b;
    assert Joined([a, b, c]) == (a + [NL, NL] + b) + [NL, NL] + c == Three(a, b, c);
    assert AllJoined([[a, b, c]]) == [Joined([a, b, c])];
  }

  function Repeated(c: Code, n: nat): (t: Text)
    ensures |t| == n
  {
    if n == 0 then [] else Repeated(c, n - 1) + [c]
  }

  lemma {:induction false} LetterParagraph(n: nat)
    requires n > 0
    ensures IsParagraph(Repeated(97, n)) && Repeated(97, n)[0] == 97
  {
    if n > 1 {
      LetterParagraph(n - 1);
    }
    assert TrimLeft(Repeated(97, n)) == Repeated(97, n);
  }

  /** There are such texts: letters in three paragraphs. */
  lemma OverlongLetters()
    ensures var t := Three(Repeated(97, 266), Repeated(97, 266), Repeated(97, 267));
            Chunks(t) == [t] && |t| == SIZE + 3
  {
    LetterParagraph(266);
    LetterParagraph(267);
    OverlongChunk(Repeated(97, 266), Repeated(97, 266), Repeated(97, 267));
  }
}
