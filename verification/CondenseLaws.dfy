/** What condensation keeps: tool results stay attached, the newest lines stay,
    the cost is bounded, and the ladder is short. */
module CondenseLaws {
  import opened Seqs
  import opened Texts
  import opened Messages
  import opened Errors
  import opened Condense

  // --------------------------------------------------------------- estimates

  function CallWeight(calls: seq<ToolCall>): nat {
    if calls == [] then 0 else CallWeight(calls[..|calls| - 1]) + |calls[|calls| - 1].args| + 96
  }

  /** The characters of a list, with 48 for each message, 32 for each result that names
      its call and 96 for each call. */
  function Weight(ms: seq<Message>): nat {
    if ms == [] then 0
    else
      var m := ms[|ms| - 1];
      Weight(ms[..|ms| - 1]) + |m.content| + 48
      + (match m
         case Tool(_, id) => if id != "" then 32 else 0
         case AI(_, calls) => CallWeight(calls)
         case _ => 0)
  }

  /** Messages and calls. */
  function Parts(ms: seq<Message>): nat {
    if ms == [] then 0
    else
      var m := ms[|ms| - 1];
      Parts(ms[..|ms| - 1]) + 1 + (if m.AI? then |m.calls| else 0)
  }

  lemma {:induction false} CallsWeighed(calls: seq<ToolCall>)
    ensures CallWeight(calls) <= 4 * CallTokens(calls) <= CallWeight(calls) + 3 * |calls|
  {
    if calls != [] {
      CallsWeighed(calls[..|calls| - 1]);
    }
  }

  /** Four characters make a token, and each text is rounded up on its own. */
  lemma {:induction false} TokensWeighed(ms: seq<Message>)
    ensures Weight(ms) <= 4 * Tokens(ms) <= Weight(ms) + 3 * Parts(ms)
  {
    if ms != [] {
      var m := ms[|ms| - 1];
      TokensWeighed(ms[..|ms| - 1]);
      if m.AI? {
        CallsWeighed(m.calls);
      }
    }
  }

  /** 1024 tokens are held back: a window that leaves fewer than the 12 of one message
      takes none. */
  lemma WindowExactly(context: int, ms: seq<Message>)
    ensures context <= 0 ==> Fits(context, ms)
    ensures 0 < context < 1036 ==> (Fits(context, ms) <==> ms == [])
    ensures context >= 1036 ==> (Fits(context, ms) <==> Tokens(ms) + 1024 <= context)
  {
    assert ms != [] ==> Tokens(ms) >= 12;
  }

  // -------------------------------------------------------- tool attachment

  lemma {:induction false} CappedOpen(ms: seq<Message>)
    ensures Open(Capped(ms)) == Open(ms)
  {
    if ms != [] {
      var init := ms[..|ms| - 1];
      CappedOpen(init);
      assert Capped(ms)[..|ms| - 1] == Capped(init);
    }
  }

  lemma CappedValid(ms: seq<Message>)
    requires ToolValid(ms)
    ensures ToolValid(Capped(ms))
  {
    forall i | 0 <= i < |ms| && Capped(ms)[i].Tool?
      ensures Capped(ms)[i].callId in Open(Capped(ms)[..i])
    {
      CappedOpen(ms[..i]);
      assert Capped(ms)[..i] == Capped(ms[..i]);
    }
  }

  lemma {:induction false} HeadedSuffix(tail: seq<Message>)
    ensures Headed(tail) == tail[|tail| - |Headed(tail)|..]
    ensures Headed(tail) == [] || !Headed(tail)[0].Tool?
  {
    if tail != [] && tail[0].Tool? {
      HeadedSuffix(tail[1..]);
    }
  }

  /** A tail cut anywhere out of a valid list is valid once its leading tool
      results are dropped. */
  lemma HeadedValid(ms: seq<Message>, cut: nat)
    requires ToolValid(ms) && cut <= |ms|
    ensures ToolValid(Headed(ms[cut..]))
  {
    var tail := Headed(ms[cut..]);
    HeadedSuffix(ms[cut..]);
    var front := ms[..|ms| - |tail|];
    assert ms == front + tail;
    ValidSplit(front, tail);
  }

  lemma {:induction false} HeadedCapped(tail: seq<Message>)
    ensures Headed(Capped(tail)) == Capped(Headed(tail))
  {
    if tail != [] && tail[0].Tool? {
      assert Capped(tail)[1..] == Capped(tail[1..]);
      HeadedCapped(tail[1..]);
    }
  }

  lemma LeadValid(ms: seq<Message>, note: Text, tail: seq<Message>)
    requires ms != [] && ToolValid(ms) && ToolValid(tail)
    ensures ToolValid(ms[..1] + [Human(note)] + tail)
  {
    var lead := ms[..1] + [Human(note)];
    assert Open([]) == {};
    assert ms[..0] == [];
    assert lead[..0] == [];
    assert ToolValid(lead);
    ValidConcat(lead, tail);
  }

  lemma TailValid(ms: seq<Message>, cut: nat)
    requires ToolValid(ms) && cut <= |ms|
    ensures ToolValid(Headed(Capped(ms[cut..])))
  {
    HeadedValid(ms, cut);
    HeadedCapped(ms[cut..]);
    CappedValid(Headed(ms[cut..]));
  }

  lemma SplicedValid(ms: seq<Message>, keep: nat, note: Text)
    requires ToolValid(ms) && |ms| > 2 * keep + 2
    ensures ToolValid(Spliced(ms, keep, note))
  {
    TailValid(ms, |ms| - 2 * keep);
    LeadValid(ms, note, Headed(Capped(ms[|ms| - 2 * keep..])));
  }

  /** Condensing keeps every remaining tool result attached to its call. */
  lemma CondensedValid(ms: seq<Message>, keep: nat, toolName: Text -> Text)
    requires ToolValid(ms)
    ensures ToolValid(Condensed(ms, keep, toolName))
  {
    if |ms| > 2 + 2 * keep {
      SplicedValid(ms, keep, DigestText(ms[1..|ms| - 2 * keep], toolName));
    }
  }

  // ------------------------------------------------------------ picked lines

  function Cost(lines: seq<Text>): nat {
    if lines == [] then 0 else |lines[0]| + 1 + Cost(lines[1..])
  }

  lemma {:induction false} PickSublist(lines: seq<Text>)
    ensures Sublist(Pick(lines).kept, lines)
  {
    if lines != [] {
      PickSublist(lines[1..]);
      SublistFront(Pick(lines[1..]).kept, lines[0], lines[1..]);
      assert [lines[0]] + lines[1..] == lines;
    }
  }

  lemma CostFront(line: Text, lines: seq<Text>)
    ensures Cost([line] + lines) == |line| + 1 + Cost(lines)
  {
    assert ([line] + lines)[1..] == lines;
  }

  lemma {:induction false} PickCosts(lines: seq<Text>)
    ensures var p := Pick(lines);
            && |p.kept| + p.dropped == |lines|
            && p.used == Cost(p.kept)
            && (lines != [] ==>
                 && p.kept != [] && p.kept[|p.kept| - 1] == lines[|lines| - 1]
                 && var newest := |lines[|lines| - 1]| + 1;
                    p.used <= if newest > 8000 then newest else 8000)
  {
    if lines != [] {
      PickCosts(lines[1..]);
      CostFront(lines[0], Pick(lines[1..]).kept);
    }
  }

  /** The kept lines are some of the lines in their order, with the newest among
      them; none is unaccounted for; and the block costs at most the budget, or
      just the newest line when that alone exceeds it. */
  lemma PickSound(lines: seq<Text>)
    ensures var p := Pick(lines);
            && Sublist(p.kept, lines)
            && |p.kept| + p.dropped == |lines|
            && p.used == Cost(p.kept)
            && (lines != [] ==>
                 && p.kept != [] && p.kept[|p.kept| - 1] == lines[|lines| - 1]
                 && var newest := |lines[|lines| - 1]| + 1;
                    p.used <= if newest > 8000 then newest else 8000)
  {
    PickSublist(lines);
    PickCosts(lines);
  }

  // ---------------------------------------------- "n oldest dropped", or not

  /** How many of the newest lines fit the budget together (at least one). */
  function Streak(lines: seq<Text>): (n: nat)
    ensures n <= |lines|
  {
    if lines == [] then 0
    else
      var n := Streak(lines[1..]);
      if n == |lines| - 1 && (n == 0 || Cost(lines) <= 8000) then n + 1 else n
  }

  function Newest(lines: seq<Text>): seq<Text> {
    lines[|lines| - Streak(lines)..]
  }

  /** No line older than the newest ones that fit could be squeezed in. */
  predicate NoSqueeze(lines: seq<Text>) {
    forall i | 0 <= i < |lines| - Streak(lines) :: Cost(Newest(lines)) + |lines[i]| + 1 > 8000
  }

  lemma NewestTail(lines: seq<Text>)
    requires lines != []
    ensures Streak(lines) == |lines| ==> Newest(lines) == lines
    ensures Streak(lines) < |lines| ==> Streak(lines) == Streak(lines[1..]) && Newest(lines) == Newest(lines[1..])
  {
    assert lines[0..] == lines;
    if Streak(lines) < |lines| {
      EndOfRest(lines, Streak(lines));
    }
  }

  lemma EndOfRest(lines: seq<Text>, n: nat)
    requires n < |lines|
    ensures lines[|lines| - n..] == lines[1..][|lines| - 1 - n..]
  {}

  lemma {:induction false} NoSqueezePick(lines: seq<Text>)
    requires NoSqueeze(lines)
    ensures Pick(lines) == Picked(Newest(lines), Cost(Newest(lines)), |lines| - Streak(lines))
  {
    if lines != [] {
      NewestTail(lines);
      var rest := lines[1..];
      if Streak(lines) == |lines| {
        assert Newest(rest) == rest by { assert rest[0..] == rest; }
        NoSqueezePick(rest);
      } else {
        forall i | 0 <= i < |rest| - Streak(rest)
          ensures Cost(Newest(rest)) + |rest[i]| + 1 > 8000
        {
          assert rest[i] == lines[i + 1];
        }
        NoSqueezePick(rest);
      }
    }
  }

  lemma {:induction false} SqueezeKeepsMore(lines: seq<Text>)
    requires !NoSqueeze(lines)
    ensures |Pick(lines).kept| > Streak(lines)
  {
    NewestTail(lines);
    var rest := lines[1..];
    if NoSqueeze(rest) {
      NoSqueezePick(rest);
      assert forall i | 0 < i < |lines| :: rest[i - 1] == lines[i];
    } else {
      SqueezeKeepsMore(rest);
    }
  }

  /** The cost of the newest k lines. */
  function NewestCost(lines: seq<Text>, k: nat): nat
    requires k <= |lines|
  {
    Cost(lines[|lines| - k..])
  }

  lemma NewestCostTail(lines: seq<Text>, k: nat)
    requires k < |lines|
    ensures NewestCost(lines, k) == NewestCost(lines[1..], k)
  {
    assert lines[|lines| - k..] == lines[1..][|lines| - 1 - k..];
  }

  lemma NewestCostAll(lines: seq<Text>)
    ensures NewestCost(lines, |lines|) == Cost(lines)
  {
    assert lines[|lines| - |lines|..] == lines;
  }

  lemma {:induction false} StreakMaximal(lines: seq<Text>, k: nat)
    requires Streak(lines) < k <= |lines|
    ensures Streak(lines) >= 1
    ensures NewestCost(lines, k) > 8000
  {
    var rest := lines[1..];
    if k < |lines| {
      StreakMaximal(rest, k);
      NewestCostTail(lines, k);
    } else {
      NewestCostAll(lines);
      if Streak(rest) < |rest| {
        StreakMaximal(rest, |rest|);
        NewestCostAll(rest);
      }
    }
  }

  /** The newest k lines, or all. */
  function LatestLines(lines: seq<Text>, k: nat): seq<Text> {
    if k <= |lines| then lines[|lines| - k..] else lines
  }

  /** The header's claim that the dropped lines are the oldest holds exactly when
      no older line is short enough to be squeezed in behind the newest ones. */
  lemma OldestDropped(lines: seq<Text>)
    ensures Pick(lines).kept == LatestLines(lines, |Pick(lines).kept|) <==> NoSqueeze(lines)
  {
    PickCosts(lines);
    if NoSqueeze(lines) {
      NoSqueezePick(lines);
    } else {
      SqueezeKeepsMore(lines);
      Squeezed(lines, Pick(lines).kept);
    }
  }

  /** More lines than the newest that fit, and not too many: not the newest ones. */
  lemma Squeezed(lines: seq<Text>, kept: seq<Text>)
    requires Streak(lines) < |kept| <= |lines|
    requires Cost(kept) <= 8000 || Cost(kept) <= |lines[|lines| - 1]| + 1
    ensures kept != LatestLines(lines, |kept|)
  {
    StreakMaximal(lines, |kept|);
    if kept == LatestLines(lines, |kept|) {
      CostAtLeast(kept);
    }
  }

  lemma {:induction false} CostAtLeast(lines: seq<Text>)
    requires lines != []
    ensures Cost(lines) >= |lines| - 1 + |lines[|lines| - 1]| + 1
  {
    if |lines| > 1 {
      CostAtLeast(lines[1..]);
    }
  }

  /** Three lines of 10, 5000 and 4000 characters, oldest first: the middle one
      is dropped, although the header reports it as the oldest. */
  lemma OldestKept(a: Text, b: Text, c: Text)
    requires |a| == 10 && |b| == 5000 && |c| == 4000
    ensures Pick([a, b, c]) == Picked([a, c], 4012, 1)
    ensures !NoSqueeze([a, b, c])
  {
    assert [a, b, c][1..] == [b, c] && [b, c][1..] == [c] && [c][1..] == [];
    assert Pick([]) == Picked([], 0, 0);
    assert Pick([c]) == Picked([c], 4001, 0);
    assert Pick([b, c]) == Picked([c], 4001, 1);
    assert Pick([a, b, c]) == Picked([a, c], 4012, 1);
    OldestDropped([a, b, c]);
    assert [a, c][0] == a && [b, c][0] == b;
  }

  // ------------------------------------------------------------------ ladder

  function Power(b: nat, e: nat): nat {
    if e == 0 then 1 else b * Power(b, e - 1)
  }

  lemma {:induction false} RungsSound(k: nat)
    ensures forall i | 0 <= i < |Rungs(k)| :: 3 <= Rungs(k)[i] <= k
    ensures forall i | 0 < i < |Rungs(k)| :: Rungs(k)[i] < Rungs(k)[i - 1]
  {
    if k >= 3 {
      RungsSound(Next(k));
    }
  }

  lemma {:induction false} RungsStep(k: nat)
    ensures Rungs(k) != [] <==> k >= 3
    ensures k >= 3 ==> Rungs(k)[0] == k && Rungs(k)[|Rungs(k)| - 1] * 3 / 4 < 3
    ensures forall i | 0 < i < |Rungs(k)| :: Rungs(k)[i] == Rungs(k)[i - 1] * 3 / 4
  {
    if k >= 3 {
      RungsStep(Next(k));
    }
  }

  /** The ladder begins with all pairs, keeps three quarters of them at each step while
      three are left, and always ends with two pairs, then one. */
  lemma LadderDescends(pairs: nat)
    ensures var l := Ladder(pairs);
            && |l| >= 2 && l[|l| - 2] == 2 && l[|l| - 1] == 1
            && (forall i | 0 <= i < |l| - 2 :: 3 <= l[i] <= pairs)
            && (forall i | 0 < i < |l| :: l[i] < l[i - 1])
            && (pairs >= 3 ==> l[0] == pairs && l[|l| - 3] * 3 / 4 < 3)
            && (forall i | 0 < i < |l| - 2 :: l[i] == l[i - 1] * 3 / 4)
  {
    RungsSound(pairs);
    RungsStep(pairs);
  }

  lemma Widen(a: nat, b: nat, c: nat, d: nat, x: nat, y: nat)
    requires a * c <= b * d && 4 * b <= 3 * x && y == 4 * c
    ensures a * y <= x * (3 * d)
  {
    calc {
      a * y;
      4 * (a * c);
    <=
      4 * (b * d);
      (4 * b) * d;
    <=  { assert 0 <= d; MulMonotone(4 * b, 3 * x, d); }
      (3 * x) * d;
      x * (3 * d);
    }
  }

  lemma MulMonotone(a: nat, b: nat, c: nat)
    requires a <= b
    ensures a * c <= b * c
  {}

  /** The ladder is logarithmic: each level keeps at most three quarters of the
      one above, so L levels of three or more pairs need (4/3)^(L-1) <= pairs / 3. */
  lemma {:induction false} LadderShort(pairs: nat)
    requires pairs >= 3
    ensures 3 * Power(4, |Rungs(pairs)| - 1) <= pairs * Power(3, |Rungs(pairs)| - 1)
  {
    var next := Next(pairs);
    if next >= 3 {
      LadderShort(next);
      var n := |Rungs(next)|;
      Widen(3, next, Power(4, n - 1), Power(3, n - 1), pairs, Power(4, n));
    }
  }

  /** The first rung keeps every pair, so it never changes the list. */
  lemma FirstRungIdle(ms: seq<Message>, toolName: Text -> Text)
    requires Pairs(ms) >= 3
    ensures Ladder(Pairs(ms))[0] == Pairs(ms)
    ensures Condensed(ms, Pairs(ms), toolName) == ms
  {}

  /** What the ladder returns fits the window and keeps tool results attached. */
  lemma FirstFitValid(context: int, ms: seq<Message>, levels: seq<nat>, toolName: Text -> Text,
                      at: nat, r: Option<seq<Message>>)
    requires FirstFit(context, ms, levels, toolName, at, r)
    ensures r.Some? ==> Fits(context, r.value) && (ToolValid(ms) ==> ToolValid(r.value))
  {
    if r.Some? && ToolValid(ms) {
      CondensedValid(ms, levels[at], toolName);
    }
  }

  lemma NoneWorksLast(context: int, ms: seq<Message>, levels: seq<nat>, toolName: Text -> Text, n: nat)
    requires n < |levels| && NoneWorks(context, ms, levels, toolName, n + 1)
    ensures NoneWorks(context, ms, levels, toolName, n) && !Works(context, ms, levels[n], toolName)
  {}

  ghost predicate NoneOf(context: int, ms: seq<Message>, levels: seq<nat>, toolName: Text -> Text) {
    forall k | k in levels :: !Works(context, ms, k, toolName)
  }

  lemma NoneOfPush(context: int, ms: seq<Message>, levels: seq<nat>, toolName: Text -> Text, k: nat)
    requires NoneOf(context, ms, levels, toolName) && !Works(context, ms, k, toolName)
    ensures NoneOf(context, ms, levels + [k], toolName)
  {}

  lemma {:induction false} NoneWorksAll(context: int, ms: seq<Message>, levels: seq<nat>, toolName: Text -> Text,
                                        n: nat)
    requires n <= |levels| && NoneWorks(context, ms, levels, toolName, n)
    ensures NoneOf(context, ms, levels[..n], toolName)
  {
    if n > 0 {
      NoneWorksLast(context, ms, levels, toolName, n - 1);
      NoneWorksAll(context, ms, levels, toolName, n - 1);
      var init, k := levels[..n - 1], levels[n - 1];
      NoneOfPush(context, ms, init, toolName, k);
      assert init + [k] == levels[..n];
    }
  }

  /** The levels that are larger than k. */
  function Above(levels: seq<nat>, k: nat): seq<nat> {
    if levels == [] then []
    else (if levels[0] > k then [levels[0]] else []) + Above(levels[1..], k)
  }

  /** Level k of these is the largest that makes the list fit the window. */
  ghost predicate Largest(context: int, ms: seq<Message>, levels: seq<nat>, toolName: Text -> Text, k: nat) {
    && k in levels && Works(context, ms, k, toolName)
    && NoneOf(context, ms, Above(levels, k), toolName)
  }

  /** The ladder is climbed as far as needed and no further: it keeps as many pairs as fit,
      and gives up only when no level fits. */
  lemma ClimbedExactly(context: int, ms: seq<Message>, toolName: Text -> Text, at: nat, r: Option<seq<Message>>)
    requires FirstFit(context, ms, Ladder(Pairs(ms)), toolName, at, r)
    ensures match r
            case None => NoneOf(context, ms, Ladder(Pairs(ms)), toolName)
            case Some(out) =>
              exists k :: Largest(context, ms, Ladder(Pairs(ms)), toolName, k) && out == Condensed(ms, k, toolName)
  {
    var levels := Ladder(Pairs(ms));
    NoneWorksAll(context, ms, levels, toolName, at);
    if at < |levels| {
      LadderDescends(Pairs(ms));
      AboveFalling(levels, at);
      assert Largest(context, ms, levels, toolName, levels[at]);
    } else {
      assert levels[..at] == levels;
    }
  }

  predicate Falling(levels: seq<nat>) {
    forall i | 0 < i < |levels| :: levels[i] < levels[i - 1]
  }

  lemma {:induction false} FirstLargest(levels: seq<nat>)
    requires levels != [] && Falling(levels)
    ensures forall i | 0 < i < |levels| :: levels[i] < levels[0]
  {
    var rest := levels[1..];
    if rest != [] {
      FirstLargest(rest);
      assert forall i | 1 < i < |levels| :: levels[i] == rest[i - 1];
    }
  }

  lemma {:induction false} NoneAbove(levels: seq<nat>, k: nat)
    requires forall l | l in levels :: l <= k
    ensures Above(levels, k) == []
  {
    if levels != [] {
      assert levels[0] in levels && forall l | l in levels[1..] :: l in levels;
      NoneAbove(levels[1..], k);
    }
  }

  lemma {:induction false} AboveFalling(levels: seq<nat>, at: nat)
    requires at < |levels| && Falling(levels)
    ensures Above(levels, levels[at]) == levels[..at]
  {
    var rest := levels[1..];
    FirstLargest(levels);
    if at == 0 {
      NoneAbove(rest, levels[0]);
    } else {
      AboveFalling(rest, at - 1);
      assert levels[..at] == [levels[0]] + rest[..at - 1];
    }
  }
}
