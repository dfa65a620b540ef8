/** Fitting a prompt into a context window (pawlia/llm.py): token estimate,
    mechanical condensation of the older messages, and the ladder of ever
    stronger condensations. */
module Condense {
  import opened Texts
  import opened Messages
  import opened Errors

  const CHARS_PER_TOKEN := 4
  const RESERVE_TOKENS := 1024
  const MESSAGE_OVERHEAD := 12
  const TOOL_RESULT_OVERHEAD := 8
  const CALL_OVERHEAD := 24
  const CHAR_BUDGET := 8000
  const TAIL_CAP := 800

  // ---------------------------------------------------------- token estimate

  function Chunks(chars: nat): nat {
    (chars + CHARS_PER_TOKEN - 1) / CHARS_PER_TOKEN
  }

  function CallTokens(calls: seq<ToolCall>): nat {
    if calls == [] then 0
    else CallTokens(calls[..|calls| - 1]) + CALL_OVERHEAD + Chunks(|calls[|calls| - 1].args|)
  }

  function MessageTokens(m: Message): nat {
    Chunks(|m.content|) + MESSAGE_OVERHEAD
    + (if m.Tool? && m.callId != "" then TOOL_RESULT_OVERHEAD else 0)
    + (if m.AI? then CallTokens(m.calls) else 0)
  }

  function Tokens(ms: seq<Message>): nat {
    if ms == [] then 0 else Tokens(ms[..|ms| - 1]) + MessageTokens(ms[|ms| - 1])
  }

  method EstimateTokens(ms: seq<Message>) returns (total: nat)
    ensures total == Tokens(ms)
  {
    total := 0;
    for i := 0 to |ms|
      invariant total == Tokens(ms[..i])
    {
      assert ms[..i + 1][..i] == ms[..i];
      var m := ms[i];
      if m.content != [] {
        total := total + (|m.content| + CHARS_PER_TOKEN - 1) / CHARS_PER_TOKEN;
      }
      total := total + MESSAGE_OVERHEAD;
      if m.Tool? && m.callId != "" {
        total := total + TOOL_RESULT_OVERHEAD;
      }
      if m.AI? {
        ghost var base := total;
        for j := 0 to |m.calls|
          invariant total == base + CallTokens(m.calls[..j])
        {
          assert m.calls[..j + 1][..j] == m.calls[..j];
          total := total + CALL_OVERHEAD + (|m.calls[j].args| + CHARS_PER_TOKEN - 1) / CHARS_PER_TOKEN;
        }
        assert m.calls[..|m.calls|] == m.calls;
      }
    }
    assert ms[..|ms|] == ms;
  }

  /** A context size of 0 or less means "unknown": everything fits. */
  predicate Fits(context: int, ms: seq<Message>) {
    context <= 0 || Tokens(ms) <= (if context - RESERVE_TOKENS > 1 then context - RESERVE_TOKENS else 1)
  }

  method FitsContext(context: int, ms: seq<Message>) returns (fits: bool)
    ensures fits == Fits(context, ms)
  {
    if context <= 0 {
      return true;
    }
    var total := EstimateTokens(ms);
    fits := total <= (if context - RESERVE_TOKENS > 1 then context - RESERVE_TOKENS else 1);
  }

  // ------------------------------------------------------ the condensed block

  /** The selected lines, their cost, and how many lines were left out. */
  datatype Picked = Picked(kept: seq<Text>, used: nat, dropped: nat)

  /** Newest first, every line that still fits the budget; the first always. */
  function Pick(lines: seq<Text>): Picked {
    if lines == [] then Picked([], 0, 0)
    else
      var newer, cost := Pick(lines[1..]), |lines[0]| + 1;
      if newer.used + cost > CHAR_BUDGET && newer.kept != []
      then newer.(dropped := newer.dropped + 1)
      else Picked([lines[0]] + newer.kept, newer.used + cost, newer.dropped)
  }

  function Reversed<T>(s: seq<T>): (r: seq<T>)
    ensures |r| == |s|
  {
    if s == [] then [] else Reversed(s[1..]) + [s[0]]
  }

  method PickLines(lines: seq<Text>) returns (p: Picked)
    ensures p == Pick(lines)
  {
    var kept: seq<Text> := [];
    var used: nat, dropped: nat := 0, 0;
    for i := |lines| downto 0
      invariant Picked(Reversed(kept), used, dropped) == Pick(lines[i..])
    {
      assert lines[i..][1..] == lines[i + 1..];
      var line := lines[i];
      var cost := |line| + 1;
      if used + cost > CHAR_BUDGET && kept != [] {
        dropped := dropped + 1;
      } else {
        ReversedPush(kept, line);
        kept := kept + [line];
        used := used + cost;
      }
    }
    assert lines[0..] == lines;
    p := Picked(Reverse(kept), used, dropped);
  }

  lemma {:induction false} ReversedPush<T>(s: seq<T>, x: T)
    ensures Reversed(s + [x]) == [x] + Reversed(s)
  {
    if s == [] {
      assert s + [x] == [x];
    } else {
      assert (s + [x])[1..] == s[1..] + [x];
      ReversedPush(s[1..], x);
    }
  }

  function Reverse<T>(s: seq<T>): (r: seq<T>)
    ensures r == Reversed(s)
  {
    ReverseAt(s);
    seq(|s|, i requires 0 <= i < |s| => s[|s| - 1 - i])
  }

  lemma {:induction false} ReverseAt<T>(s: seq<T>)
    ensures forall i | 0 <= i < |s| :: Reversed(s)[i] == s[|s| - 1 - i]
  {
    if s != [] {
      ReverseAt(s[1..]);
    }
  }

  function Preview(content: Text, n: nat): Text {
    Flatten(Take(content, n))
  }

  /** One line for an old message; system messages have none. `toolName` is the
      search for the tool's name in its output. */
  function Line(m: Message, toolName: Text -> Text): Option<Text> {
    match m
    case Tool(content, _) =>
      Some(Lit("[") + toolName(content) + Lit(" \U{2192} ") + Preview(content, 200)
           + (if |content| > 200 then Lit("...") else []) + Lit("]"))
    case Human(content) => Some(Lit("[User: ") + Preview(content, 500) + Lit("]"))
    case AI(content, _) => Some(Lit("[Assistant: ") + Preview(content, 500) + Lit("]"))
    case System(_) => None
  }

  function Lines(ms: seq<Message>, toolName: Text -> Text): seq<Text> {
    if ms == [] then []
    else
      var init := Lines(ms[..|ms| - 1], toolName);
      match Line(ms[|ms| - 1], toolName)
      case Some(line) => init + [line]
      case None => init
  }

  function Header(messages: nat, dropped: nat): Text {
    Lit("[Earlier conversation summarized \U{2014} ") + Decimal(messages) + Lit(" messages condensed")
    + (if dropped > 0 then Lit(", ") + Decimal(dropped) + Lit(" oldest dropped]") else Lit("]"))
  }

  function DigestText(middle: seq<Message>, toolName: Text -> Text): Text {
    var p := Pick(Lines(middle, toolName));
    Join([Header(|middle|, p.dropped)] + p.kept)
  }

  // -------------------------------------------------------------- recent tail

  function CapMessage(m: Message): Message {
    if m.Tool? && |m.content| > TAIL_CAP
    then
      Tool(m.content[..TAIL_CAP] + [NL] + Lit("\U{2026}[truncated ") + Decimal(|m.content| - TAIL_CAP) + Lit(" chars]"),
           m.callId)
    else m
  }

  function Capped(tail: seq<Message>): (r: seq<Message>)
    ensures |r| == |tail|
  {
    seq(|tail|, i requires 0 <= i < |tail| => CapMessage(tail[i]))
  }

  method CapTail(tail: seq<Message>) returns (out: seq<Message>)
    ensures out == Capped(tail)
  {
    out := [];
    for i := 0 to |tail|
      invariant |out| == i && forall j | 0 <= j < i :: out[j] == CapMessage(tail[j])
    {
      out := out + [CapMessage(tail[i])];
    }
  }

  /** The list from its first message that is no tool result. */
  function Headed(tail: seq<Message>): (r: seq<Message>)
    ensures |r| <= |tail|
  {
    if tail != [] && tail[0].Tool? then Headed(tail[1..]) else tail
  }

  method DropLeadingTools(tail: seq<Message>) returns (out: seq<Message>)
    ensures out == Headed(tail)
  {
    out := tail;
    while out != [] && out[0].Tool?
      invariant Headed(out) == Headed(tail)
    {
      out := out[1..];
    }
  }

  // ---------------------------------------------------------- one condensation

  /** First message, a note in place of the middle, and the last 2 * keep messages. */
  function Spliced(ms: seq<Message>, keep: nat, note: Text): seq<Message>
    requires |ms| > 2 * keep + 2
  {
    ms[..1] + [Human(note)] + Headed(Capped(ms[|ms| - 2 * keep..]))
  }

  function Condensed(ms: seq<Message>, keep: nat, toolName: Text -> Text): seq<Message> {
    if |ms| <= 2 + 2 * keep then ms
    else Spliced(ms, keep, DigestText(ms[1..|ms| - 2 * keep], toolName))
  }

  method CollectLines(middle: seq<Message>, toolName: Text -> Text) returns (lines: seq<Text>)
    ensures lines == Lines(middle, toolName)
  {
    lines := [];
    for i := 0 to |middle|
      invariant lines == Lines(middle[..i], toolName)
    {
      assert middle[..i + 1][..i] == middle[..i];
      var line := Line(middle[i], toolName);
      if line.Some? {
        lines := lines + [line.value];
      }
    }
    assert middle[..|middle|] == middle;
  }

  method CondenseMessages(ms: seq<Message>, keep: nat, toolName: Text -> Text) returns (out: seq<Message>)
    ensures out == Condensed(ms, keep, toolName)
  {
    if |ms| <= 2 + keep * 2 {
      return ms;
    }
    var cut := |ms| - keep * 2;
    var middle := ms[1..cut];
    var lines := CollectLines(middle, toolName);
    var p := PickLines(lines);
    var note := Join([Header(|middle|, p.dropped)] + p.kept);
    var tail := CapTail(ms[cut..]);
    tail := DropLeadingTools(tail);
    out := ms[..1] + [Human(note)] + tail;
  }

  // ---------------------------------------------------------------- the ladder

  function Next(k: nat): (r: nat)
    ensures r >= 2
    ensures k >= 3 ==> r < k
  {
    if k * 3 / 4 >= 2 then k * 3 / 4 else 2
  }

  /** The levels of three and more pairs, starting at k. */
  function Rungs(k: nat): seq<nat> {
    if k >= 3 then [k] + Rungs(Next(k)) else []
  }

  function Ladder(pairs: nat): seq<nat> {
    Rungs(pairs) + [2, 1]
  }

  predicate Upper(levels: seq<nat>) {
    forall i | 0 <= i < |levels| :: levels[i] >= 3
  }

  lemma Shift(levels: seq<nat>, k: nat, rest: seq<nat>)
    ensures levels + ([k] + rest) == (levels + [k]) + rest
  {}

  lemma UpperPush(levels: seq<nat>, k: nat)
    requires Upper(levels) && k >= 3
    ensures Upper(levels + [k])
  {}

  method UpperRungs(pairs: nat) returns (levels: seq<nat>)
    ensures levels == Rungs(pairs) && Upper(levels)
  {
    levels := [];
    var k := pairs;
    ghost var all := Rungs(pairs);
    while k >= 3
      invariant Upper(levels) && levels + Rungs(k) == all
      decreases k
    {
      Shift(levels, k, Rungs(Next(k)));
      UpperPush(levels, k);
      levels := levels + [k];
      k := Next(k);
    }
    assert levels == all;
  }

  method KeepLevels(pairs: nat) returns (levels: seq<nat>)
    ensures levels == Ladder(pairs)
  {
    levels := UpperRungs(pairs);
    ghost var upper := levels;
    assert 2 !in levels && 1 !in levels;
    if 2 !in levels {
      levels := levels + [2];
    }
    assert 1 !in levels;
    if 1 !in levels {
      levels := levels + [1];
    }
    assert levels == upper + [2, 1];
  }

  function Pairs(ms: seq<Message>): nat {
    if |ms| <= 2 then 1 else (|ms| - 1) / 2
  }

  /** Level k changes the list and makes it fit. */
  predicate Works(context: int, ms: seq<Message>, k: nat, toolName: Text -> Text) {
    Condensed(ms, k, toolName) != ms && Fits(context, Condensed(ms, k, toolName))
  }

  /** None of the first n levels works. */
  predicate NoneWorks(context: int, ms: seq<Message>, levels: seq<nat>, toolName: Text -> Text, n: nat)
    requires n <= |levels|
  {
    n == 0 || (NoneWorks(context, ms, levels, toolName, n - 1) && !Works(context, ms, levels[n - 1], toolName))
  }

  /** The rungs below `at` fail; the one at `at`, if any, works and gives `r`. */
  ghost predicate FirstFit(context: int, ms: seq<Message>, levels: seq<nat>, toolName: Text -> Text,
                           at: nat, r: Option<seq<Message>>)
  {
    && at <= |levels|
    && NoneWorks(context, ms, levels, toolName, at)
    && (if at == |levels| then r == None
        else Works(context, ms, levels[at], toolName) && r == Some(Condensed(ms, levels[at], toolName)))
  }

  method TryLevel(context: int, ms: seq<Message>, keep: nat, toolName: Text -> Text)
    returns (works: bool, out: seq<Message>)
    ensures works == Works(context, ms, keep, toolName)
    ensures out == Condensed(ms, keep, toolName)
  {
    out := CondenseMessages(ms, keep, toolName);
    works := false;
    if out != ms {
      works := FitsContext(context, out);
    }
  }

  method TryLevels(context: int, ms: seq<Message>, levels: seq<nat>, toolName: Text -> Text)
    returns (r: Option<seq<Message>>)
    ensures exists at :: FirstFit(context, ms, levels, toolName, at, r)
  {
    for i := 0 to |levels|
      invariant NoneWorks(context, ms, levels, toolName, i)
    {
      var works, out := TryLevel(context, ms, levels[i], toolName);
      if works {
        assert FirstFit(context, ms, levels, toolName, i, Some(out));
        return Some(out);
      }
    }
    r := None;
    assert FirstFit(context, ms, levels, toolName, |levels|, r);
  }

  /** `_summarize_to_fit` after its opening check. */
  method ClimbLadder(context: int, ms: seq<Message>, toolName: Text -> Text)
    returns (r: Option<seq<Message>>)
    ensures exists at :: FirstFit(context, ms, Ladder(Pairs(ms)), toolName, at, r)
  {
    var levels := KeepLevels(Pairs(ms));
    r := TryLevels(context, ms, levels, toolName);
  }
}
