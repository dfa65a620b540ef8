/** What a sentence, a thought and a written-out tool call are, in the words of the regular
    expressions that look for them (pawlia/agents/chat.py, pawlia/agents/base.py). */
module SentenceForm {
  import opened Texts
  import opened Errors
  import opened Sentences
  import opened CallMarkers

  // ------------------------------------------------------------------- sentences

  /** A sentence ends at position k: a full stop, an exclamation or question mark or an
      ellipsis, with white space behind it. */
  predicate EndsAt(t: Text, k: nat) {
    && k + 1 < |t| && IsSpace(t[k + 1])
    && (t[k] == 46 || t[k] == 33 || t[k] == 63 || t[k] == 8230)
  }

  lemma {:induction false} EndExactly(t: Text)
    ensures forall k: nat | k < End(t) :: !EndsAt(t, k)
    ensures End(t) < |t| ==> EndsAt(t, End(t))
  {
    if t != [] && !Ends(t) {
      EndExactly(t[1..]);
      forall k: nat | k < End(t)
        ensures !EndsAt(t, k)
      {
        assert k > 0 ==> !EndsAt(t[1..], k - 1);
      }
    }
  }

  lemma {:induction false} TrimRightWhole(t: Text, k: nat)
    requires k < |t| && !IsSpace(t[k])
    ensures |TrimRight(t)| > k
  {
    if IsSpace(t[|t| - 1]) {
      TrimRightWhole(t[..|t| - 1], k);
    }
  }

  lemma {:induction false} TrimLeftSame(t: Text)
    requires t != [] && !IsSpace(t[|t| - 1])
    ensures TrimLeft(t) != [] && !IsSpace(TrimLeft(t)[0]) && TrimLeft(t) == t[|t| - |TrimLeft(t)|..]
  {
    if IsSpace(t[0]) {
      TrimLeftSame(t[1..]);
    }
  }

  /** A sentence: it begins with something written, has one of the four stops at its end,
      and no other sentence ends in it. */
  predicate IsSentence(s: Text) {
    && s != [] && !IsSpace(s[0])
    && (s[|s| - 1] == 46 || s[|s| - 1] == 33 || s[|s| - 1] == 63 || s[|s| - 1] == 8230)
    && forall k: nat | k < |s| :: !EndsAt(s, k)
  }

  /** The end of a text in which a sentence ends only at the very end. */
  lemma TailSentence(t: Text, n: nat, gap: nat)
    requires EndsAt(t, n) && (forall k: nat | k < n :: !EndsAt(t, k)) && gap <= n && !IsSpace(t[gap])
    ensures IsSentence(t[gap..n + 1])
  {
    var s := t[gap..n + 1];
    assert s[|s| - 1] == t[n];
    forall k: nat | k < |s|
      ensures !EndsAt(s, k)
    {
      if k + 1 < |s| {
        assert s[k] == t[gap + k] && s[k + 1] == t[gap + k + 1];
        assert !EndsAt(t, gap + k);
      }
    }
  }

  lemma TrimStopped(head: Text) returns (gap: nat)
    requires head != [] && !IsSpace(head[|head| - 1])
    ensures gap < |head| && Trim(head) == head[gap..] && !IsSpace(head[gap])
  {
    TrimLeftSame(head);
    var s := TrimLeft(head);
    gap := |head| - |s|;
    assert s[|s| - 1] == head[|head| - 1] && s[0] == head[gap];
  }

  lemma SameTail(t: Text, gap: nat, n: nat)
    requires gap <= n < |t|
    ensures t[..n + 1][gap..] == t[gap..n + 1] && t[..n + 1][gap] == t[gap]
  {}

  lemma SentenceTo(t: Text, n: nat)
    requires EndsAt(t, n) && forall k: nat | k < n :: !EndsAt(t, k)
    ensures IsSentence(Trim(t[..n + 1]))
  {
    var head := t[..n + 1];
    assert head[|head| - 1] == t[n];
    var gap := TrimStopped(head);
    SameTail(t, gap, n);
    TailSentence(t, n, gap);
  }

  lemma FirstSentence(t: Text)
    requires End(t) < |t|
    ensures IsSentence(Trim(t[..End(t) + 1]))
  {
    EndExactly(t);
    SentenceTo(t, End(t));
  }

  /** What is cut off as sentences are sentences, one each. */
  lemma {:induction false} SplitExactly(t: Text)
    ensures forall s | s in Split(t).0 :: IsSentence(s)
    ensures forall k: nat | k < |Split(t).1| :: !EndsAt(Split(t).1, k)
    decreases |t|
  {
    EndExactly(t);
    if End(t) < |t| {
      FirstSentence(t);
      SplitExactly(TrimLeft(t[End(t) + 1..]));
    }
  }

  // ------------------------------------------------------------ written-out tool calls

  predicate AllSpace(t: Text) {
    t == [] || (IsSpace(t[0]) && AllSpace(t[1..]))
  }

  predicate AllWord(wordy: Code -> bool, t: Text) {
    t == [] || (wordy(t[0]) && AllWord(wordy, t[1..]))
  }

  /** The text starts with something that the regular expression matches: any white space,
      of any length, and any word. */
  ghost predicate Matches(wordy: Code -> bool, p: Pattern, t: Text) {
    match p
    case Done => true
    case Either(a, b, next) => t != [] && (t[0] == a || t[0] == b) && Matches(wordy, next, t[1..])
    case Spaces(next) => exists k: nat :: k <= |t| && AllSpace(t[..k]) && Matches(wordy, next, t[k..])
    case Name(next) => exists k: nat :: 1 <= k <= |t| && AllWord(wordy, t[..k]) && Matches(wordy, next, t[k..])
  }

  /** No piece of the pattern can begin with what the piece before it takes. */
  predicate Sharp(wordy: Code -> bool, p: Pattern) {
    match p
    case Done => true
    case Either(_, _, next) => Sharp(wordy, next)
    case Spaces(next) =>
      && Sharp(wordy, next)
      && (next.Name? || (next.Either? && !IsSpace(next.a) && !IsSpace(next.b)))
    case Name(next) =>
      && Sharp(wordy, next)
      && next.Spaces? && next.next.Either? && !wordy(next.next.a) && !wordy(next.next.b)
  }

  /** White space is no part of a word. */
  ghost predicate Words(wordy: Code -> bool) {
    forall c :: IsSpace(c) ==> !wordy(c)
  }

  lemma {:induction false} TrimLeftAt(t: Text, k: nat)
    requires k <= |t| && AllSpace(t[..k]) && (k < |t| ==> !IsSpace(t[k]))
    ensures TrimLeft(t) == t[k..]
  {
    if k > 0 {
      assert t[..k][0] == t[0] && t[..k][1..] == t[1..][..k - 1];
      TrimLeftAt(t[1..], k - 1);
    }
  }

  lemma {:induction false} TrimLeftTakes(t: Text) returns (k: nat)
    ensures k <= |t| && AllSpace(t[..k]) && TrimLeft(t) == t[k..]
  {
    k := 0;
    if t != [] && IsSpace(t[0]) {
      var j := TrimLeftTakes(t[1..]);
      k := j + 1;
      assert t[..k][0] == t[0] && t[..k][1..] == t[1..][..j];
    }
  }

  lemma {:induction false} DropWordAt(wordy: Code -> bool, t: Text, k: nat)
    requires k <= |t| && AllWord(wordy, t[..k]) && (k < |t| ==> !wordy(t[k]))
    ensures DropWord(wordy, t) == t[k..]
  {
    if k > 0 {
      assert t[..k][0] == t[0] && t[..k][1..] == t[1..][..k - 1];
      DropWordAt(wordy, t[1..], k - 1);
    }
  }

  lemma {:induction false} DropWordTakes(wordy: Code -> bool, t: Text) returns (k: nat)
    ensures k <= |t| && AllWord(wordy, t[..k]) && DropWord(wordy, t) == t[k..]
    ensures t != [] && wordy(t[0]) ==> k >= 1
  {
    k := 0;
    if t != [] && wordy(t[0]) {
      var j := DropWordTakes(wordy, t[1..]);
      k := j + 1;
      assert t[..k][0] == t[0] && t[..k][1..] == t[1..][..j];
    }
  }

  lemma BeginsUnspaced(wordy: Code -> bool, p: Pattern, t: Text)
    requires Words(wordy) && Sharp(wordy, Spaces(p)) && Matches(wordy, p, t)
    ensures t != [] && !IsSpace(t[0])
  {
    if p.Name? {
      var k: nat :| 1 <= k <= |t| && AllWord(wordy, t[..k]) && Matches(wordy, p.next, t[k..]);
      assert t[..k][0] == t[0];
    }
  }

  lemma BeginsUnworded(wordy: Code -> bool, p: Pattern, t: Text)
    requires Words(wordy) && Sharp(wordy, Name(p)) && Matches(wordy, p, t)
    ensures t != [] && !wordy(t[0])
  {
    var k: nat :| k <= |t| && AllSpace(t[..k]) && Matches(wordy, p.next, t[k..]);
    if k > 0 {
      assert t[..k][0] == t[0];
    }
  }

  /** The two readings agree on whatever is left of a text. */
  ghost predicate Agree(wordy: Code -> bool, p: Pattern, t: Text) {
    forall k: nat | k <= |t| :: Begins(wordy, p, t[k..]) == Matches(wordy, p, t[k..])
  }

  lemma SpacesExactly(wordy: Code -> bool, next: Pattern, t: Text)
    requires Words(wordy) && Sharp(wordy, Spaces(next)) && Agree(wordy, next, t)
    ensures Begins(wordy, Spaces(next), t) == Matches(wordy, Spaces(next), t)
  {
    var n := TrimLeftTakes(t);
    if k: nat :| k <= |t| && AllSpace(t[..k]) && Matches(wordy, next, t[k..]) {
      BeginsUnspaced(wordy, next, t[k..]);
      TrimLeftAt(t, k);
    }
  }

  lemma NameFound(wordy: Code -> bool, next: Pattern, t: Text)
    requires Agree(wordy, next, t) && Begins(wordy, Name(next), t)
    ensures Matches(wordy, Name(next), t)
  {
    var n := DropWordTakes(wordy, t);
    assert Begins(wordy, next, t[n..]);
    assert Matches(wordy, next, t[n..]);
  }

  lemma NameBegins(wordy: Code -> bool, next: Pattern, t: Text, k: nat)
    requires Words(wordy) && Sharp(wordy, Name(next)) && Agree(wordy, next, t)
    requires 1 <= k <= |t| && AllWord(wordy, t[..k]) && Matches(wordy, next, t[k..])
    ensures Begins(wordy, Name(next), t)
  {
    var rest := t[k..];
    BeginsUnworded(wordy, next, rest);
    assert t[..k][0] == t[0] && rest[0] == t[k];
    DropWordAt(wordy, t, k);
    assert Begins(wordy, next, rest);
  }

  lemma {:induction false} AgreeAll(wordy: Code -> bool, p: Pattern, t: Text)
    requires Words(wordy) && Sharp(wordy, p)
    ensures Agree(wordy, p, t)
    decreases p, 1
  {
    forall k: nat | k <= |t|
      ensures Begins(wordy, p, t[k..]) == Matches(wordy, p, t[k..])
    {
      BeginsExactly(wordy, p, t[k..]);
    }
  }

  /** Taking as much white space as there is, and as much of a word, finds every match. */
  lemma {:induction false} BeginsExactly(wordy: Code -> bool, p: Pattern, t: Text)
    requires Words(wordy) && Sharp(wordy, p)
    ensures Begins(wordy, p, t) == Matches(wordy, p, t)
    decreases p, 0
  {
    match p
    case Done =>
    case Either(a, b, next) =>
      if t != [] {
        BeginsExactly(wordy, next, t[1..]);
      }
    case Spaces(next) =>
      AgreeAll(wordy, next, t);
      SpacesExactly(wordy, next, t);
    case Name(next) =>
      AgreeAll(wordy, next, t);
      if Begins(wordy, p, t) {
        NameFound(wordy, next, t);
      }
      if Matches(wordy, p, t) {
        var k: nat :| 1 <= k <= |t| && AllWord(wordy, t[..k]) && Matches(wordy, next, t[k..]);
        NameBegins(wordy, next, t, k);
      }
  }

  lemma CallSharp(wordy: Code -> bool)
    requires Words(wordy) && !wordy(40)
    ensures Sharp(wordy, CALL)
  {
    var tail := Either(COLON, COLON, Spaces(Name(Spaces(Either(PAREN, PAREN, Done)))));
    assert Sharp(wordy, tail);
    var all := Either(97, 97, Either(108, 108, Either(108, 108, Spaces(tail))));
    assert Sharp(wordy, all);
    var word := Either(111, 111, Either(111, 111, Either(108, 108, Spaces(Either(67, 99, all)))));
    assert Sharp(wordy, word);
  }

  /** The pattern of a call begins at none of the first n positions. */
  predicate NoneBegins(wordy: Code -> bool, t: Text, n: nat) {
    n == 0 || t == [] || (!Begins(wordy, CALL, t) && NoneBegins(wordy, t[1..], n - 1))
  }

  lemma {:induction false} MarkerFirst(wordy: Code -> bool, t: Text)
    ensures match Marker(wordy, t)
            case None => NoneBegins(wordy, t, |t|)
            case Some(n) => Begins(wordy, CALL, t[n..]) && NoneBegins(wordy, t, n)
  {
    if t != [] {
      assert t[0..] == t;
      var rest := t[1..];
      MarkerFirst(wordy, rest);
      if Marker(wordy, rest).Some? {
        assert rest[Marker(wordy, rest).value..] == t[Marker(wordy, rest).value + 1..];
      }
    }
  }

  lemma {:induction false} NoneMatches(wordy: Code -> bool, t: Text, n: nat, k: nat)
    requires Words(wordy) && !wordy(40) && NoneBegins(wordy, t, n) && k < n && k < |t|
    ensures !Matches(wordy, CALL, t[k..])
  {
    if k == 0 {
      assert t[0..] == t;
      CallSharp(wordy);
      BeginsExactly(wordy, CALL, t);
    } else {
      NoneMatches(wordy, t[1..], n - 1, k - 1);
      assert t[1..][k - 1..] == t[k..];
    }
  }

  /** A text is marked exactly when the regular expression matches somewhere in it, and the
      marker is where it first does. */
  lemma MarkedExactly(wordy: Code -> bool, t: Text)
    requires Words(wordy) && !wordy(40)
    ensures match Marker(wordy, t)
            case None => forall k: nat | k < |t| :: !Matches(wordy, CALL, t[k..])
            case Some(n) => Matches(wordy, CALL, t[n..]) && forall k: nat | k < n :: !Matches(wordy, CALL, t[k..])
  {
    MarkerFirst(wordy, t);
    var n := if Marker(wordy, t).Some? then Marker(wordy, t).value else |t|;
    forall k: nat | k < n
      ensures !Matches(wordy, CALL, t[k..])
    {
      NoneMatches(wordy, t, n, k);
    }
    CallSharp(wordy);
    BeginsExactly(wordy, CALL, t[n..]);
  }

  /** A pattern as a regular expression. */
  function Shown(p: Pattern): Text {
    match p
    case Done => []
    case Either(a, b, next) =>
      (if a != b then [91, a, b, 93] else if a == 91 || a == 40 then [92, a] else [a]) + Shown(next)
    case Spaces(next) => [92, 115, 42] + Shown(next)
    case Name(next) => [92, 119, 43] + Shown(next)
  }

  lemma BracketShown(p: Pattern)
    ensures Shown(Either(91, 91, Spaces(p))) == Lit("\\[\\s*") + Shown(p)
  {}

  lemma ToolShown(p: Pattern)
    ensures Shown(Either(84, 116, Either(111, 111, Either(111, 111, Either(108, 108, Spaces(p))))))
            == Lit("[Tt]ool\\s*") + Shown(p)
  {
    var x := Spaces(p);
    var y := Either(108, 108, x);
    var z := Either(111, 111, y);
    var w := Either(111, 111, z);
    assert Shown(x) == [92, 115, 42] + Shown(p);
    assert Shown(y) == [108] + Shown(x);
    assert Shown(z) == [111] + Shown(y);
    assert Shown(w) == [111] + Shown(z);
    assert Shown(Either(84, 116, w)) == [91, 84, 116, 93] + Shown(w);
  }

  lemma CallShown(p: Pattern)
    ensures Shown(Either(67, 99, Either(97, 97, Either(108, 108, Either(108, 108, Spaces(p))))))
            == Lit("[Cc]all\\s*") + Shown(p)
  {
    var x := Spaces(p);
    var y := Either(108, 108, x);
    var z := Either(108, 108, y);
    var w := Either(97, 97, z);
    assert Shown(x) == [92, 115, 42] + Shown(p);
    assert Shown(y) == [108] + Shown(x);
    assert Shown(z) == [108] + Shown(y);
    assert Shown(w) == [97] + Shown(z);
    assert Shown(Either(67, 99, w)) == [91, 67, 99, 93] + Shown(w);
  }

  lemma NameShown()
    ensures Shown(Either(58, 58, Spaces(Name(Spaces(Either(40, 40, Done)))))) == Lit(":\\s*\\w+\\s*\\(")
  {
    assert Shown(Spaces(Either(40, 40, Done))) == [92, 115, 42, 92, 40];
  }

  /** The pattern of a call is the regular expression \[\s*[Tt]ool\s*[Cc]all\s*:\s*\w+\s*\( */
  lemma PatternShown()
    ensures Shown(CALL)
            == Lit("\\[\\s*") + (Lit("[Tt]ool\\s*") + (Lit("[Cc]all\\s*") + Lit(":\\s*\\w+\\s*\\(")))
  {
    var name := Either(58, 58, Spaces(Name(Spaces(Either(40, 40, Done)))));
    var all := Either(67, 99, Either(97, 97, Either(108, 108, Either(108, 108, Spaces(name)))));
    var tool := Either(84, 116, Either(111, 111, Either(111, 111, Either(108, 108, Spaces(all)))));
    NameShown();
    CallShown(name);
    ToolShown(all);
    BracketShown(tool);
  }
}
