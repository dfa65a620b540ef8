/** Removing thoughts, leaked tool calls and template tokens from a model's text
    (BaseAgent.strip_thinking in pawlia/agents/base.py). */
module Thinking {
  import opened Texts
  import opened Errors
  import opened DayLog
  import opened DayLogSearch

  datatype Tags = Tags(think: Text, thinking: Text, endThink: Text, endThinking: Text,
                       call: Text, endCall: Text, token: Text, endToken: Text)

  const TAGS := Tags(Lit("<think>"), Lit("<thinking>"), Lit("</think>"), Lit("</thinking>"),
                     Lit("<tool_call>"), Lit("</tool_call>"), Lit("<|"), Lit("|>"))

  /** The length of either tag at the start of a text, or 0. */
  function TagAt(t: Text, a: Text, b: Text): (n: nat)
    ensures n <= |t|
  {
    if a <= t then |a| else if b <= t then |b| else 0
  }

  /** The text behind the first closing tag. */
  function Closing(g: Tags, t: Text): (r: Option<Text>)
    ensures r.Some? ==> |r.value| <= |t|
  {
    if g.endThink <= t then Some(t[|g.endThink|..])
    else if g.endThinking <= t then Some(t[|g.endThinking|..])
    else if t == [] then None
    else Closing(g, t[1..])
  }

  function DropThoughts(g: Tags, t: Text): (r: Text)
    decreases |t|
  {
    if t == [] then []
    else
      var n := TagAt(t, g.think, g.thinking);
      var end := if n > 0 then Closing(g, t[n..]) else None;
      if end.Some? then DropThoughts(g, end.value) else [t[0]] + DropThoughts(g, t[1..])
  }

  /** Only what comes behind the first such tag, if there is one. */
  function Behind(t: Text, tag: Text): Text {
    match Find(t, tag)
    case Split(_, after) => after
    case Nowhere => t
  }

  /** The text behind the end of a leaked call; the end of the text ends it, too,
      before a last line break. */
  function CallEnd(g: Tags, t: Text): (r: Text)
    ensures |r| <= |t|
  {
    if g.endCall <= t then t[|g.endCall|..]
    else if t == [] || t == [NL] then t
    else CallEnd(g, t[1..])
  }

  function DropCalls(g: Tags, t: Text): Text
    decreases |t|
  {
    if t == [] then []
    else if g.call != [] && g.call <= t then DropCalls(g, CallEnd(g, t[|g.call|..]))
    else [t[0]] + DropCalls(g, t[1..])
  }

  /** Everything from the first template token on is dropped. */
  function DropTokens(g: Tags, t: Text): Text {
    if g.token <= t && Find(t[|g.token|..], g.endToken).Split? then []
    else if t == [] then []
    else [t[0]] + DropTokens(g, t[1..])
  }

  function StripThinking(g: Tags, t: Text): Text {
    var a := Behind(Behind(DropThoughts(g, t), g.endThink), g.endThinking);
    TrimRight(DropNewlines(DropTokens(g, DropCalls(g, a))))
  }

  /** How often one of two tags comes. */
  function Count(t: Text, a: Text, b: Text): nat
    decreases |t|
  {
    if t == [] then 0
    else
      var n := TagAt(t, a, b);
      if n > 0 then 1 + Count(t[n..], a, b) else Count(t[1..], a, b)
  }

  /** A thought was begun and not ended yet. */
  predicate Unclosed(g: Tags, t: Text) {
    Count(t, g.think, g.thinking) > Count(t, g.endThink, g.endThinking)
  }

  /** No tag comes in the text. */
  predicate TagFree(g: Tags, t: Text) {
    && Free(g.think, t) && Free(g.thinking, t) && Free(g.endThink, t) && Free(g.endThinking, t)
    && Free(g.call, t) && Free(g.token, t)
  }

  lemma StartLonger(p: Text, x: Text, y: Text)
    requires p <= x
    ensures p <= x + y
  {
    assert (x + y)[..|p|] == p;
  }

  lemma {:induction false} FreeStart(p: Text, x: Text, y: Text)
    requires Free(p, x + y)
    ensures Free(p, x)
  {
    if p <= x {
      StartLonger(p, x, y);
    }
    if x != [] {
      assert (x + y)[1..] == x[1..] + y;
      FreeStart(p, x[1..], y);
    }
  }

  lemma TagFreeStart(g: Tags, x: Text, y: Text)
    requires TagFree(g, x + y)
    ensures TagFree(g, x)
  {
    FreeStart(g.think, x, y);
    FreeStart(g.thinking, x, y);
    FreeStart(g.endThink, x, y);
    FreeStart(g.endThinking, x, y);
    FreeStart(g.call, x, y);
    FreeStart(g.token, x, y);
  }

  lemma {:induction false} NoTag(t: Text, a: Text, b: Text)
    requires Free(a, t) && Free(b, t)
    ensures Count(t, a, b) == 0
    decreases |t|
  {
    if t != [] {
      NoTag(t[1..], a, b);
    }
  }

  lemma {:induction false} NoThoughts(g: Tags, t: Text)
    requires Free(g.think, t) && Free(g.thinking, t)
    ensures DropThoughts(g, t) == t
    decreases |t|
  {
    if t != [] {
      NoThoughts(g, t[1..]);
    }
  }

  lemma {:induction false} NotFound(t: Text, p: Text)
    requires Free(p, t)
    ensures Find(t, p) == Nowhere
  {
    if t != [] {
      NotFound(t[1..], p);
    }
  }

  lemma {:induction false} NoCalls(g: Tags, t: Text)
    requires Free(g.call, t)
    ensures DropCalls(g, t) == t
    decreases |t|
  {
    if t != [] {
      NoCalls(g, t[1..]);
    }
  }

  lemma {:induction false} NoTokens(g: Tags, t: Text)
    requires Free(g.token, t)
    ensures DropTokens(g, t) == t
  {
    if t != [] {
      NoTokens(g, t[1..]);
    }
  }

  /** Without tags only line breaks at the start and white space at the end go. */
  lemma PlainText(g: Tags, t: Text)
    requires TagFree(g, t)
    ensures StripThinking(g, t) == TrimRight(DropNewlines(t)) && !Unclosed(g, t)
  {
    NoThoughts(g, t);
    NotFound(t, g.endThink);
    NotFound(t, g.endThinking);
    NoCalls(g, t);
    NoTokens(g, t);
    NoTag(t, g.think, g.thinking);
  }

  lemma {:induction false} TrimRightGrows(x: Text, y: Text)
    ensures TrimRight(x) <= TrimRight(x + y)
  {
    if y == [] {
      assert x + y == x;
    } else if IsSpace(y[|y| - 1]) {
      assert (x + y)[..|x + y| - 1] == x + y[..|y| - 1];
      TrimRightGrows(x, y[..|y| - 1]);
    } else {
      assert TrimRight(x + y) == x + y;
    }
  }

  lemma {:induction false} DropNewlinesGrows(x: Text, y: Text)
    ensures DropNewlines(x + y) == if DropNewlines(x) == [] then DropNewlines(y) else DropNewlines(x) + y
  {
    if x == [] {
      assert x + y == y;
    } else {
      assert (x + y)[1..] == x[1..] + y;
      DropNewlinesGrows(x[1..], y);
    }
  }

  /** The stripped text only grows while text without tags comes in. */
  lemma StripGrows(g: Tags, x: Text, y: Text)
    requires TagFree(g, x + y)
    ensures TagFree(g, x) && StripThinking(g, x) <= StripThinking(g, x + y)
  {
    TagFreeStart(g, x, y);
    PlainText(g, x);
    PlainText(g, x + y);
    DropNewlinesGrows(x, y);
    if DropNewlines(x) != [] {
      TrimRightGrows(DropNewlines(x), y);
    }
  }
}
