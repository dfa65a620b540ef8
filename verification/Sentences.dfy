/** Speaking an answer sentence by sentence while it streams in (_split_sentences and
    ChatAgent._stream_with_sentences in pawlia/agents/chat.py, strip_thinking in
    pawlia/agents/base.py). */
module Sentences {
  import Seqs
  import opened Texts

  const ELLIPSIS: Code := 0x2026

  predicate IsStop(c: Code) {
    c == 46 || c == 33 || c == 63 || c == ELLIPSIS
  }

  /** A stop with white space behind it, at the start of the text. */
  predicate Ends(t: Text) {
    |t| >= 2 && IsStop(t[0]) && IsSpace(t[1])
  }

  /** The first place where a sentence ends, or the length of the text. */
  function End(t: Text): (n: nat)
    ensures n <= |t| && (n < |t| ==> n + 1 < |t| && IsStop(t[n]) && IsSpace(t[n + 1]))
  {
    if t == [] then 0 else if Ends(t) then 0 else End(t[1..]) + 1
  }

  /** The complete sentences of a text, and what remains. */
  function Split(t: Text): (r: (seq<Text>, Text))
    decreases |t|
  {
    var n := End(t);
    if n == |t| then ([], t)
    else
      var (more, rest) := Split(TrimLeft(t[n + 1..]));
      ([Trim(t[..n + 1])] + more, rest)
  }

  method SplitSentences(t: Text) returns (sentences: seq<Text>, rest: Text)
    ensures (sentences, rest) == Split(t)
  {
    sentences, rest := [], t;
    assert [] + Split(t).0 == Split(t).0;
    while true
      invariant (sentences + Split(rest).0, Split(rest).1) == Split(t)
      decreases |rest|
    {
      var n := End(rest);
      if n == |rest| {
        assert sentences + [] == sentences;
        return;
      }
      Shift(sentences, Trim(rest[..n + 1]), Split(TrimLeft(rest[n + 1..])).0);
      sentences := sentences + [Trim(rest[..n + 1])];
      rest := TrimLeft(rest[n + 1..]);
    }
  }

  lemma Shift(x: seq<Text>, s: Text, y: seq<Text>)
    ensures x + ([s] + y) == (x + [s]) + y
  {}

  // ----------------------------------------------------------------- split laws

  function InkOfAll(ss: seq<Text>): Text {
    if ss == [] then [] else Ink(ss[0]) + InkOfAll(ss[1..])
  }

  /** Splitting loses nothing but white space. */
  lemma {:induction false} SplitKeeps(t: Text)
    ensures InkOfAll(Split(t).0) + Ink(Split(t).1) == Ink(t)
    decreases |t|
  {
    var n := End(t);
    if n < |t| {
      var next := TrimLeft(t[n + 1..]);
      SplitKeeps(next);
      Halves(t, n + 1);
      InkParts(t[..n + 1], t[n + 1..]);
      KeepsStep(Trim(t[..n + 1]), Split(next).0, Split(next).1, Ink(next));
    }
  }

  /** Trimming the two parts of a text takes only white space. */
  lemma InkParts(x: Text, y: Text)
    ensures Ink(x + y) == Ink(Trim(x)) + Ink(TrimLeft(y))
  {
    InkTrim(x);
    InkTrimLeft(y);
    InkConcat(x, y);
  }

  lemma Halves(t: Text, n: nat)
    requires n <= |t|
    ensures t == t[..n] + t[n..]
  {}

  lemma KeepsStep(head: Text, more: seq<Text>, rest: Text, ink: Text)
    requires InkOfAll(more) + Ink(rest) == ink
    ensures InkOfAll([head] + more) + Ink(rest) == Ink(head) + ink
  {
    assert ([head] + more)[1..] == more;
    Seqs.Assoc(Ink(head), InkOfAll(more), Ink(rest));
  }

  /** What remains holds no further sentence. */
  lemma {:induction false} SplitRest(t: Text)
    ensures End(Split(t).1) == |Split(t).1|
    ensures Split(Split(t).1) == ([], Split(t).1)
    decreases |t|
  {
    var n := End(t);
    if n < |t| {
      SplitRest(TrimLeft(t[n + 1..]));
    }
  }

  // -------------------------------------------------------------------- growing

  lemma {:induction false} EndStays(t: Text, d: Text)
    requires End(t) < |t|
    ensures End(t + d) == End(t)
  {
    assert (t + d)[1..] == t[1..] + d;
    if !Ends(t) {
      EndStays(t[1..], d);
    }
  }

  /** The text does not end in white space. */
  predicate Closed(t: Text) {
    t == [] || !IsSpace(t[|t| - 1])
  }

  /** No white space of the text goes on in what comes next. */
  predicate Apart(t: Text, d: Text) {
    Closed(t) || d == [] || !IsSpace(d[0])
  }

  lemma {:induction false} TrimLeftGrows(t: Text, d: Text)
    requires (t != [] && Closed(t)) || d == [] || !IsSpace(d[0])
    ensures (Closed(t) ==> Closed(TrimLeft(t))) && TrimLeft(t + d) == TrimLeft(t) + d
  {
    if t == [] {
      assert t + d == d;
    } else if IsSpace(t[0]) {
      assert (t + d)[1..] == t[1..] + d;
      TrimLeftGrows(t[1..], d);
    }
  }

  lemma ShiftMore(s: Text, x: seq<Text>, y: seq<Text>)
    ensures [s] + (x + y) == ([s] + x) + y
  {}

  lemma CutBefore(t: Text, d: Text, n: nat)
    requires n <= |t|
    ensures (t + d)[..n] == t[..n] && (t + d)[n..] == t[n..] + d
  {}

  /** Splitting what remains, when more text has come, goes on with the splitting of
      the whole text. */
  lemma {:induction false} SplitGrows(t: Text, d: Text)
    requires Apart(t, d)
    ensures Split(t + d) == (Split(t).0 + Split(Split(t).1 + d).0, Split(Split(t).1 + d).1)
    decreases |t|
  {
    var n := End(t);
    if n < |t| {
      var next := TrimLeft(t[n + 1..]);
      SplitMore(t, d);
      SplitGrows(next, d);
      SplitFirst(t);
      ShiftMore(Trim(t[..n + 1]), Split(next).0, Split(Split(t).1 + d).0);
    } else {
      assert [] + Split(t + d).0 == Split(t + d).0;
    }
  }

  lemma SplitFirst(t: Text)
    requires End(t) < |t|
    ensures var next := TrimLeft(t[End(t) + 1..]);
            Split(t) == ([Trim(t[..End(t) + 1])] + Split(next).0, Split(next).1)
  {}

  /** The first sentence is the same when more text comes, and the rest has that text, too. */
  lemma SplitMore(t: Text, d: Text)
    requires Apart(t, d) && End(t) < |t|
    ensures var n := End(t);
            var next := TrimLeft(t[n + 1..]);
            && Apart(next, d)
            && Split(t + d) == ([Trim(t[..n + 1])] + Split(next + d).0, Split(next + d).1)
  {
    var n := End(t);
    EndStays(t, d);
    CutBefore(t, d, n + 1);
    TrimLeftGrows(t[n + 1..], d);
  }

  lemma {:induction false} EndLater(t: Text, d: Text)
    requires End(t) == |t| && (d == [] || !IsSpace(d[0]))
    ensures End(t + d) == |t| + End(d)
  {
    if t == [] {
      assert t + d == d;
    } else {
      assert (t + d)[1..] == t[1..] + d;
      EndLater(t[1..], d);
    }
  }

  /** s is an end of the text. */
  predicate IsEnd(s: Text, t: Text) {
    |s| <= |t| && t[|t| - |s|..] == s
  }

  /** What remains is an end of the text. */
  lemma {:induction false} RestIsEnd(t: Text)
    ensures IsEnd(Split(t).1, t)
    decreases |t|
  {
    var n := End(t);
    if n < |t| {
      var next := TrimLeft(t[n + 1..]);
      RestIsEnd(next);
      LeftIsEnd(t[n + 1..]);
      EndOfEnd(t, n + 1, next, Split(next).1);
    }
  }

  lemma EndOfEnd(t: Text, n: nat, a: Text, b: Text)
    requires n <= |t| && IsEnd(a, t[n..]) && IsEnd(b, a)
    ensures IsEnd(b, t)
  {
    assert IsEnd(t[n..], t);
    EndTwice(t[n..], a, b);
    EndTwice(t, t[n..], b);
  }

  lemma {:induction false} LeftIsEnd(t: Text)
    ensures IsEnd(TrimLeft(t), t)
  {
    if t != [] && IsSpace(t[0]) {
      LeftIsEnd(t[1..]);
      EndTwice(t, t[1..], TrimLeft(t));
    }
  }

  lemma EndTwice(t: Text, a: Text, b: Text)
    requires IsEnd(a, t) && IsEnd(b, a)
    ensures IsEnd(b, t)
  {
    assert t[|t| - |a|..][|a| - |b|..] == t[|t| - |b|..];
  }
}
