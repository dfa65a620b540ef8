/** What a repaired message list looks like, in numbers (pawlia/agents/base.py). */
module SanitizedForm {
  import opened Texts
  import opened Messages
  import opened Sanitizer
  import opened SanitizerLaws

  // ------------------------------------------------------------------- surrogates

  /** Each lone surrogate, U+D800 to U+DFFF, becomes U+FFFD; nothing else changes, and not
      who says it. */
  lemma CleanedExactly(ms: seq<Message>, i: nat)
    requires i < |ms|
    ensures var m, c := ms[i], Cleaned(ms)[i];
            && c == m.(content := c.content) && |c.content| == |m.content|
            && forall k | 0 <= k < |m.content| ::
                 c.content[k] == if 55_296 <= m.content[k] <= 57_343 then 65_533 else m.content[k]
  {}

  // -------------------------------------------------------------------- old results

  /** A batch of tool results begins here. */
  predicate Begins(ms: seq<Message>, j: nat)
    requires j < |ms|
  {
    ms[j].Tool? && (j == 0 || !ms[j - 1].Tool?)
  }

  /** Two batches begin after message i. */
  predicate TwoLater(ms: seq<Message>, i: nat) {
    exists j, k :: i < j < k < |ms| && Begins(ms, j) && Begins(ms, k)
  }

  /** How many batches begin after message i and before message n. */
  function Begun(ms: seq<Message>, i: nat, n: nat): nat
    requires n <= |ms|
    decreases n
  {
    if n <= i + 1 then 0 else Begun(ms, i, n - 1) + if Begins(ms, n - 1) then 1 else 0
  }

  lemma BatchesStep(ms: seq<Message>, n: nat)
    requires 0 < n <= |ms|
    ensures Batches(ms[..n]) == Batches(ms[..n - 1]) + if Begins(ms, n - 1) then 1 else 0
  {
    RankStep(ms, n - 1);
  }

  lemma {:induction false} BegunCounts(ms: seq<Message>, i: nat, n: nat)
    requires i < n <= |ms|
    ensures Batches(ms[..n]) == Batches(ms[..i + 1]) + Begun(ms, i, n)
    decreases n
  {
    if n > i + 1 {
      BegunCounts(ms, i, n - 1);
      BatchesStep(ms, n);
    }
  }

  lemma {:induction false} BegunLast(ms: seq<Message>, i: nat, n: nat) returns (k: nat)
    requires n <= |ms| && Begun(ms, i, n) > 0
    ensures i < k < n && Begins(ms, k) && Begun(ms, i, k) == Begun(ms, i, n) - 1
    decreases n
  {
    k := n - 1;
    if !Begins(ms, k) {
      k := BegunLast(ms, i, n - 1);
    }
  }

  lemma {:induction false} BegunLeast(ms: seq<Message>, i: nat, k: nat, n: nat)
    requires i < k < n <= |ms| && Begins(ms, k)
    ensures Begun(ms, i, n) > Begun(ms, i, k)
    decreases n
  {
    if n > k + 1 {
      BegunLeast(ms, i, k, n - 1);
    }
  }

  lemma BegunTwo(ms: seq<Message>, i: nat)
    ensures Begun(ms, i, |ms|) >= 2 <==> TwoLater(ms, i)
  {
    if Begun(ms, i, |ms|) >= 2 {
      var k := BegunLast(ms, i, |ms|);
      var j := BegunLast(ms, i, k);
    }
    if j, k :| i < j < k < |ms| && Begins(ms, j) && Begins(ms, k) {
      BegunLeast(ms, i, j, k);
      BegunLeast(ms, i, k, |ms|);
    }
  }

  /** The results that are condensed are those after which two more batches begin: the last
      two batches are left whole. */
  lemma OldExactly(ms: seq<Message>, i: nat)
    requires i < |ms|
    ensures Old(ms, i) <==> ms[i].Tool? && TwoLater(ms, i)
  {
    assert ms[..|ms|] == ms;
    BegunCounts(ms, i, |ms|);
    BegunTwo(ms, i);
  }

  // ---------------------------------------------------------------- condensed results

  /** `line` is what is shown of the first line of a text: the whole of it up to 120
      characters, else 117 of them, without white space at their end, and three dots. */
  ghost predicate Shows(content: Text, line: Text) {
    var first := FirstLine(content);
    if |first| <= 120 then line == first
    else exists cut :: ShowsCut(first, line, cut)
  }

  predicate ShowsCut(first: Text, line: Text, cut: nat) {
    && cut <= 117 < |first| && line == first[..cut] + [46, 46, 46]
    && (cut > 0 ==> !IsSpace(first[cut - 1]))
    && forall k | cut <= k < 117 :: IsSpace(first[k])
  }

  /** The first line ends where the first line break is, or the text. */
  lemma {:induction false} FirstLineExactly(content: Text)
    ensures var n := |FirstLine(content)|;
            && FirstLine(content) == content[..n] && NL !in content[..n]
            && (n < |content| ==> content[n] == NL)
  {
    if content != [] && content[0] != NL {
      FirstLineExactly(content[1..]);
    }
  }

  lemma {:induction false} TrimRightExactly(t: Text)
    ensures var n := |TrimRight(t)|;
            && TrimRight(t) == t[..n] && (n > 0 ==> !IsSpace(t[n - 1]))
            && forall k | n <= k < |t| :: IsSpace(t[k])
  {
    if t != [] && IsSpace(t[|t| - 1]) {
      TrimRightExactly(t[..|t| - 1]);
    }
  }

  lemma CutShown(first: Text, line: Text)
    requires |first| > 120 && line == TrimRight(first[..117]) + [46, 46, 46]
    ensures ShowsCut(first, line, |line| - 3)
  {
    var head := first[..117];
    TrimRightExactly(head);
    assert line[..|line| - 3] == TrimRight(head) == first[..|line| - 3];
    assert forall k | 0 <= k < 117 :: head[k] == first[k];
  }

  lemma HeadlineShows(content: Text)
    ensures Shows(content, Headline(content))
  {
    var first := FirstLine(content);
    if |first| > 120 {
      assert Lit("...") == [46, 46, 46];
      var line := Headline(content);
      assert line == TrimRight(first[..117]) + [46, 46, 46];
      CutShown(first, line);
    }
  }

  /** A result of more than 200 characters is condensed to two lines: how many lines and
      characters it had, and what is shown of the first; a shorter one stays. */
  lemma ShrunkExactly(content: Text)
    ensures |content| <= 200 ==> Shrunk(content) == content
    ensures |content| > 200 ==>
              && Shrunk(content) == SummaryHead(CountNewlines(content) + 1, |content|) + [NL] + Headline(content)
              && Shows(content, Headline(content)) && |Headline(content)| <= 120
              && NL !in SummaryHead(CountNewlines(content) + 1, |content|)
  {
    HeadlineShows(content);
    HeadNoNewline(CountNewlines(content) + 1, |content|);
  }

  // ----------------------------------------------------------------------- merging

  /** Neighbours with the same voice are one message afterwards, and only they. */
  lemma NeighboursDiffer(ms: seq<Message>, i: nat)
    requires 0 < i < |Sanitized(ms)|
    ensures var a, b := Sanitized(ms)[i - 1], Sanitized(ms)[i]; !(a.AI? && b.AI?) && !(a.Human? && b.Human?)
  {
    SanitizedWellFormed(ms);
    assert !Twins(Sanitized(ms)[i - 1], Sanitized(ms)[i]);
  }

  /** Two messages are joined with an empty line between them; the white space around
      both is lost. */
  lemma JoinedExactly(a: Message, b: Message)
    requires (a.AI? && b.AI?) || (a.Human? && b.Human?)
    ensures Merged([a, b]) == [Fuse(a, b)]
    ensures a.content != [] && !IsSpace(a.content[0]) && b.content != [] && !IsSpace(b.content[|b.content| - 1]) ==>
              Fuse(a, b).content == a.content + [10, 10] + b.content
    ensures a.AI? ==> Fuse(a, b).AI? && Fuse(a, b).calls == a.calls + b.calls
    ensures a.Human? ==> Fuse(a, b).Human?
  {
    assert [a, b][..1] == [a] && [a][..0] == [];
    assert Merged([]) == [] && Merged([a]) == [a];
    var joined := a.content + [NL, NL] + b.content;
    if a.content != [] && !IsSpace(a.content[0]) && b.content != [] && !IsSpace(b.content[|b.content| - 1]) {
      assert joined[0] == a.content[0] && joined[|joined| - 1] == b.content[|b.content| - 1];
      assert TrimLeft(joined) == joined && TrimRight(joined) == joined;
    }
  }

  /** A list without two neighbours of one voice is not changed by merging. */
  lemma OthersStay(ms: seq<Message>)
    requires forall i | 0 < i < |ms| :: !(ms[i - 1].AI? && ms[i].AI?) && !(ms[i - 1].Human? && ms[i].Human?)
    ensures Merged(ms) == ms
  {
    MergedFixes(ms);
  }
}
