/** What is removed from a model's text: thoughts, the end of a thought whose beginning is
    missing, leaked calls, and everything from a template token on
    (BaseAgent.strip_thinking in pawlia/agents/base.py). */
module Thoughts {
  import opened Texts
  import opened DayLog
  import opened DayLogSearch
  import opened Thinking

  const LESS: Code := 60

  /** A text without "<". */
  predicate Bare(t: Text) {
    LESS !in t
  }

  /** A tag begins with "<" and has no other. */
  predicate Angled(tag: Text) {
    |tag| >= 2 && tag[0] == LESS && Bare(tag[1..])
  }

  predicate Unlike(p: Text, q: Text) {
    !(p <= q) && !(q <= p)
  }

  /** The tags that are looked for, none of which begins with another. */
  predicate Tagged(g: Tags) {
    && Angled(g.think) && Angled(g.thinking) && Angled(g.endThink) && Angled(g.endThinking)
    && Angled(g.call) && Angled(g.endCall) && Angled(g.token)
    && Unlike(g.think, g.endThink) && Unlike(g.thinking, g.endThink) && Unlike(g.think, g.endThinking)
    && Unlike(g.think, g.call) && Unlike(g.thinking, g.call)
    && Unlike(g.endThink, g.call) && Unlike(g.endThinking, g.call)
    && Unlike(g.think, g.endCall) && Unlike(g.thinking, g.endCall)
    && Unlike(g.endThink, g.endCall) && Unlike(g.endThinking, g.endCall)
    && Unlike(g.think, g.token) && Unlike(g.thinking, g.token)
    && Unlike(g.endThink, g.token) && Unlike(g.endThinking, g.token) && Unlike(g.call, g.token)
  }

  lemma Differ(p: Text, q: Text, k: nat)
    requires k < |p| && k < |q| && p[k] != q[k]
    ensures Unlike(p, q)
  {}

  lemma AngledLit(s: string)
    requires |s| >= 2 && s[0] == '<' && '<' !in s[1..]
    ensures Angled(Lit(s))
  {
    var t := Lit(s);
    assert '<' as int == 60;
    forall k | 1 <= k < |t|
      ensures t[k] != 60
    {
      assert s[1..][k - 1] == s[k] && s[k] in s[1..];
    }
  }

  lemma TagsAngled()
    ensures Angled(TAGS.think) && Angled(TAGS.thinking) && Angled(TAGS.endThink) && Angled(TAGS.endThinking)
    ensures Angled(TAGS.call) && Angled(TAGS.endCall) && Angled(TAGS.token)
  {
    AngledLit("<think>");
    AngledLit("<thinking>");
    AngledLit("</think>");
    AngledLit("</thinking>");
    AngledLit("<tool_call>");
    AngledLit("</tool_call>");
    AngledLit("<|");
  }

  lemma TagsTagged()
    ensures Tagged(TAGS)
  {
    TagsAngled();
    Differ(TAGS.think, TAGS.endThink, 1);
    Differ(TAGS.thinking, TAGS.endThink, 1);
    Differ(TAGS.think, TAGS.endThinking, 1);
    Differ(TAGS.think, TAGS.call, 2);
    Differ(TAGS.thinking, TAGS.call, 2);
    Differ(TAGS.endThink, TAGS.call, 1);
    Differ(TAGS.endThinking, TAGS.call, 1);
    Differ(TAGS.think, TAGS.endCall, 1);
    Differ(TAGS.thinking, TAGS.endCall, 1);
    Differ(TAGS.endThink, TAGS.endCall, 3);
    Differ(TAGS.endThinking, TAGS.endCall, 3);
    Differ(TAGS.think, TAGS.token, 1);
    Differ(TAGS.thinking, TAGS.token, 1);
    Differ(TAGS.endThink, TAGS.token, 1);
    Differ(TAGS.endThinking, TAGS.token, 1);
    Differ(TAGS.call, TAGS.token, 1);
  }

  // ---------------------------------------------------------------- passing bare text

  lemma NotHere(p: Text, q: Text, z: Text)
    requires Unlike(p, q)
    ensures !(p <= q + z)
  {
    if |p| <= |q| {
      assert (q + z)[..|p|] == q[..|p|];
    } else {
      var k :| 0 <= k < |q| && p[k] != q[k];
      assert (q + z)[k] == q[k];
    }
  }

  lemma {:induction false} PassThoughts(g: Tags, x: Text, t: Text)
    requires Angled(g.think) && Angled(g.thinking) && Bare(x)
    ensures DropThoughts(g, x + t) == x + DropThoughts(g, t)
  {
    if x == [] {
      assert x + t == t;
    } else {
      assert (x + t)[0] == x[0] && (x + t)[1..] == x[1..] + t;
      PassThoughts(g, x[1..], t);
    }
  }

  lemma {:induction false} PassClosing(g: Tags, y: Text, t: Text)
    requires Angled(g.endThink) && Angled(g.endThinking) && Bare(y)
    ensures Closing(g, y + t) == Closing(g, t)
  {
    if y == [] {
      assert y + t == t;
    } else {
      assert (y + t)[0] == y[0] && (y + t)[1..] == y[1..] + t;
      PassClosing(g, y[1..], t);
    }
  }

  lemma {:induction false} FindBehind(x: Text, p: Text, z: Text)
    requires Angled(p) && Bare(x)
    ensures Find(x + (p + z), p) == Split(x, z)
  {
    if x == [] {
      assert x + (p + z) == p + z && (p + z)[|p|..] == z;
    } else {
      var t := x + (p + z);
      assert t[0] == x[0] && t[1..] == x[1..] + (p + z);
      FindBehind(x[1..], p, z);
    }
  }

  lemma {:induction false} PassCalls(g: Tags, x: Text, t: Text)
    requires Angled(g.call) && Bare(x)
    ensures DropCalls(g, x + t) == x + DropCalls(g, t)
  {
    if x == [] {
      assert x + t == t;
    } else {
      assert (x + t)[0] == x[0] && (x + t)[1..] == x[1..] + t;
      PassCalls(g, x[1..], t);
    }
  }

  lemma {:induction false} PassCallEnd(g: Tags, y: Text, z: Text)
    requires Angled(g.endCall) && Bare(y)
    ensures CallEnd(g, y + (g.endCall + z)) == z
  {
    var t := y + (g.endCall + z);
    if y == [] {
      assert t == g.endCall + z && t[|g.endCall|..] == z;
    } else {
      assert t[0] == y[0] && t[1..] == y[1..] + (g.endCall + z);
      PassCallEnd(g, y[1..], z);
    }
  }

  lemma {:induction false} PassTokens(g: Tags, x: Text, t: Text)
    requires Angled(g.token) && Bare(x)
    ensures DropTokens(g, x + t) == x + DropTokens(g, t)
  {
    if x == [] {
      assert x + t == t;
    } else {
      assert (x + t)[0] == x[0] && (x + t)[1..] == x[1..] + t;
      PassTokens(g, x[1..], t);
    }
  }

  lemma {:induction false} BareFree(p: Text, t: Text)
    requires Angled(p) && Bare(t)
    ensures Free(p, t)
  {
    if t != [] {
      BareFree(p, t[1..]);
    }
  }

  lemma BareTagFree(g: Tags, t: Text)
    requires Tagged(g) && Bare(t)
    ensures TagFree(g, t)
  {
    BareFree(g.think, t);
    BareFree(g.thinking, t);
    BareFree(g.endThink, t);
    BareFree(g.endThinking, t);
    BareFree(g.call, t);
    BareFree(g.token, t);
  }

  /** Tag p does not come where only q does. */
  lemma {:induction false} FreeOf(p: Text, x: Text, q: Text, z: Text)
    requires Angled(p) && Angled(q) && Unlike(p, q) && Bare(x) && Free(p, z)
    ensures Free(p, x + (q + z))
    decreases |x|
  {
    var t := x + (q + z);
    if x == [] {
      assert t == q + z;
      NotHere(p, q, z);
      FreeInside(p, q[1..], z);
      assert t[1..] == q[1..] + z;
    } else {
      assert t[0] == x[0] && t[1..] == x[1..] + (q + z);
      FreeOf(p, x[1..], q, z);
    }
  }

  lemma {:induction false} FreeInside(p: Text, x: Text, z: Text)
    requires Angled(p) && Bare(x) && Free(p, z)
    ensures Free(p, x + z)
  {
    if x == [] {
      assert x + z == z;
    } else {
      assert (x + z)[0] == x[0] && (x + z)[1..] == x[1..] + z;
      FreeInside(p, x[1..], z);
    }
  }

  // --------------------------------------------------------------------------- laws

  function Plain(t: Text): Text {
    TrimRight(DropNewlines(t))
  }

  /** What remains once the thoughts are gone. */
  function Rest(g: Tags, t: Text): Text {
    TrimRight(DropNewlines(DropTokens(g, DropCalls(g, Thinking.Behind(Thinking.Behind(t, g.endThink), g.endThinking)))))
  }

  lemma RestPlain(g: Tags, t: Text)
    requires Tagged(g) && Bare(t)
    ensures Rest(g, t) == Plain(t)
  {
    BareTagFree(g, t);
    NoThoughts(g, t);
    PlainText(g, t);
  }

  /** A thought between its tags is taken out of the text, tags and all. */
  lemma ThoughtGone(g: Tags, x: Text, y: Text, z: Text)
    requires Tagged(g) && Bare(x) && Bare(y) && Bare(z)
    ensures StripThinking(g, x + (g.think + (y + (g.endThink + z)))) == Plain(x + z)
  {
    var end := y + (g.endThink + z);
    var t := g.think + end;
    PassThoughts(g, x, t);
    assert t[|g.think|..] == end;
    PassClosing(g, y, g.endThink + z);
    assert (g.endThink + z)[|g.endThink|..] == z;
    assert Closing(g, end).value == z;
    BareTagFree(g, z);
    NoThoughts(g, z);
    assert DropThoughts(g, t) == z;
    RestPlain(g, x + z);
  }

  /** When a thought ends that was not seen to begin, everything up to its end is one. */
  lemma EndGone(g: Tags, x: Text, z: Text)
    requires Tagged(g) && Bare(x) && Bare(z)
    ensures StripThinking(g, x + (g.endThink + z)) == Plain(z)
  {
    var t := x + (g.endThink + z);
    BareTagFree(g, z);
    FreeOf(g.think, x, g.endThink, z);
    FreeOf(g.thinking, x, g.endThink, z);
    NoThoughts(g, t);
    FindBehind(x, g.endThink, z);
    NotFound(z, g.endThinking);
    NotFound(z, g.endThink);
    RestPlain(g, z);
  }

  lemma NothingBehind(g: Tags, t: Text)
    requires Free(g.think, t) && Free(g.thinking, t) && Free(g.endThink, t) && Free(g.endThinking, t)
    ensures Thinking.Behind(Thinking.Behind(DropThoughts(g, t), g.endThink), g.endThinking) == t
  {
    NoThoughts(g, t);
    NotFound(t, g.endThink);
    NotFound(t, g.endThinking);
  }

  lemma CallFree(g: Tags, p: Text, x: Text, y: Text, z: Text)
    requires Tagged(g) && Angled(p) && Unlike(p, g.call) && Unlike(p, g.endCall) && Bare(x) && Bare(y) && Bare(z)
    ensures Free(p, x + (g.call + (y + (g.endCall + z))))
  {
    BareFree(p, z);
    FreeOf(p, y, g.endCall, z);
    FreeOf(p, x, g.call, y + (g.endCall + z));
  }

  /** A leaked call is taken out, tags and all. */
  lemma CallGone(g: Tags, x: Text, y: Text, z: Text)
    requires Tagged(g) && Bare(x) && Bare(y) && Bare(z)
    ensures StripThinking(g, x + (g.call + (y + (g.endCall + z)))) == Plain(x + z)
  {
    var end := y + (g.endCall + z);
    var t := x + (g.call + end);
    CallFree(g, g.think, x, y, z);
    CallFree(g, g.thinking, x, y, z);
    CallFree(g, g.endThink, x, y, z);
    CallFree(g, g.endThinking, x, y, z);
    NothingBehind(g, t);
    PassCalls(g, x, g.call + end);
    assert (g.call + end)[|g.call|..] == end;
    PassCallEnd(g, y, z);
    BareTagFree(g, z);
    NoCalls(g, z);
    BareTagFree(g, x + z);
    NoTokens(g, x + z);
  }

  lemma {:induction false} Present(y: Text, p: Text, z: Text)
    ensures Find(y + (p + z), p).Split?
  {
    if y == [] {
      assert y + (p + z) == p + z;
    } else {
      assert (y + (p + z))[1..] == y[1..] + (p + z);
      Present(y[1..], p, z);
    }
  }

  /** From a template token on nothing is left. */
  lemma TokenGone(g: Tags, x: Text, y: Text, z: Text)
    requires Tagged(g) && Bare(x) && Bare(y) && Bare(z) && Bare(g.endToken)
    ensures StripThinking(g, x + (g.token + (y + (g.endToken + z)))) == Plain(x)
  {
    var end := y + (g.endToken + z);
    var t := x + (g.token + end);
    BareTagFree(g, end);
    FreeOf(g.think, x, g.token, end);
    FreeOf(g.thinking, x, g.token, end);
    FreeOf(g.endThink, x, g.token, end);
    FreeOf(g.endThinking, x, g.token, end);
    FreeOf(g.call, x, g.token, end);
    NothingBehind(g, t);
    NoCalls(g, t);
    PassTokens(g, x, g.token + end);
    assert (g.token + end)[|g.token|..] == end;
    Present(y, g.endToken, z);
    assert x + [] == x;
  }

  lemma {:induction false} PassCount(x: Text, a: Text, b: Text, t: Text)
    requires Angled(a) && Angled(b) && Bare(x)
    ensures Count(x + t, a, b) == Count(t, a, b)
  {
    if x == [] {
      assert x + t == t;
    } else {
      assert (x + t)[0] == x[0] && (x + t)[1..] == x[1..] + t;
      PassCount(x[1..], a, b, t);
    }
  }

  /** One opening tag and no closing one. */
  lemma CountOpen(g: Tags, y: Text)
    requires Tagged(g) && Bare(y)
    ensures Count(g.think + y, g.think, g.thinking) == 1
  {
    assert (g.think + y)[|g.think|..] == y;
    BareFree(g.think, y);
    BareFree(g.thinking, y);
    NoTag(y, g.think, g.thinking);
  }

  lemma CountNoEnd(g: Tags, y: Text)
    requires Tagged(g) && Bare(y)
    ensures Count(g.think + y, g.endThink, g.endThinking) == 0
  {
    BareFree(g.endThink, y);
    BareFree(g.endThinking, y);
    FreeOf(g.endThink, [], g.think, y);
    FreeOf(g.endThinking, [], g.think, y);
    assert [] + (g.think + y) == g.think + y;
    NoTag(g.think + y, g.endThink, g.endThinking);
  }

  /** A thought that has begun and not ended is noticed: more opening tags have come than
      closing ones. */
  lemma Thinks(g: Tags, x: Text, y: Text)
    requires Tagged(g) && Bare(x) && Bare(y)
    ensures Unclosed(g, x + (g.think + y))
  {
    CountOpen(g, y);
    CountNoEnd(g, y);
    PassCount(x, g.think, g.thinking, g.think + y);
    PassCount(x, g.endThink, g.endThinking, g.think + y);
  }
}
