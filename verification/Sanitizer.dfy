/** The message repair that runs before every model call (pawlia/agents/base.py).

    Four passes over the list: replace surrogates, drop orphaned tool results,
    condense the results of older tool batches, merge neighbours of one role. */
module Sanitizer {
  import opened Texts
  import opened Messages

  const COMPRESS_THRESHOLD := 200
  const KEEP_BATCHES := 2
  const SUMMARY_LIMIT := 120

  // ---------------------------------------------------------------- pass 1

  function CleanText(t: Text): (r: Text)
    ensures |r| == |t|
    ensures forall c :: c in r ==> !IsSurrogate(c)
    ensures (forall c :: c in t ==> !IsSurrogate(c)) ==> r == t
  {
    seq(|t|, i requires 0 <= i < |t| => if IsSurrogate(t[i]) then REPLACEMENT else t[i])
  }

  function CleanMessage(m: Message): Message {
    m.(content := CleanText(m.content))
  }

  function Cleaned(ms: seq<Message>): (r: seq<Message>)
    ensures |r| == |ms|
  {
    seq(|ms|, i requires 0 <= i < |ms| => CleanMessage(ms[i]))
  }

  method CleanAll(ms: seq<Message>) returns (out: seq<Message>)
    ensures out == Cleaned(ms)
  {
    out := [];
    for i := 0 to |ms|
      invariant |out| == i
      invariant forall j | 0 <= j < i :: out[j] == CleanMessage(ms[j])
    {
      var msg := ms[i];
      if exists c :: c in msg.content && IsSurrogate(c) {
        var cleaned := CleanText(msg.content);
        match msg {
          case Human(_) => msg := Human(cleaned);
          case AI(_, calls) => msg := AI(cleaned, calls);
          case Tool(_, id) => msg := Tool(cleaned, id);
          case System(_) => msg := System(cleaned);
        }
      }
      out := out + [msg];
    }
  }

  // ---------------------------------------------------------------- pass 2

  /** The list without the tool results that answer no open call. */
  function Repaired(ms: seq<Message>): seq<Message> {
    if ms == [] then []
    else
      var init, m := ms[..|ms| - 1], ms[|ms| - 1];
      if m.Tool? && m.callId !in Open(init) then Repaired(init) else Repaired(init) + [m]
  }

  method DropOrphans(ms: seq<Message>) returns (out: seq<Message>)
    ensures out == Repaired(ms)
  {
    var known: set<string> := {};
    out := [];
    for i := 0 to |ms|
      invariant known == Open(ms[..i])
      invariant out == Repaired(ms[..i])
    {
      var msg := ms[i];
      assert ms[..i + 1][..i] == ms[..i];
      match msg {
        case AI(_, calls) =>
          known := {};
          for j := 0 to |calls|
            invariant known == Ids(calls[..j])
          {
            assert calls[..j + 1] == calls[..j] + [calls[j]];
            if calls[j].id != "" {
              known := known + {calls[j].id};
            }
          }
          assert calls[..|calls|] == calls;
          out := out + [msg];
        case Tool(_, id) =>
          if id in known {
            out := out + [msg];
          }
        case _ =>
          known := {};
          out := out + [msg];
      }
    }
    assert ms[..|ms|] == ms;
  }

  // ---------------------------------------------------------------- pass 3

  /** The number of maximal runs of tool results. */
  function Batches(ms: seq<Message>): (n: nat)
    ensures n <= |ms|
  {
    if ms == [] then 0
    else
      var init, m := ms[..|ms| - 1], ms[|ms| - 1];
      if m.Tool? && (init == [] || !init[|init| - 1].Tool?) then Batches(init) + 1 else Batches(init)
  }

  /** Message i is a tool result that is not in one of the last two batches. */
  predicate Old(ms: seq<Message>, i: nat)
    requires i < |ms|
  {
    ms[i].Tool? && Batches(ms[..i + 1]) + KEEP_BATCHES <= Batches(ms)
  }

  function Headline(content: Text): (r: Text)
    ensures |r| <= SUMMARY_LIMIT
    ensures NL !in r
  {
    var first := FirstLine(content);
    if |first| > SUMMARY_LIMIT
    then TrimRight(first[..SUMMARY_LIMIT - 3]) + Lit("...")
    else first
  }

  function SummaryHead(lines: nat, chars: nat): (r: Text)
    ensures |r| == 41 + |Decimal(lines)| + |Decimal(chars)|
  {
    Lit("[Tool result compressed \U{2014} ") + Decimal(lines) + Lit(" lines, ") + Decimal(chars) + Lit(" chars]")
  }

  function Shrunk(content: Text): Text {
    if |content| <= COMPRESS_THRESHOLD then content
    else SummaryHead(CountNewlines(content) + 1, |content|) + [NL] + Headline(content)
  }

  function ShrunkMessage(m: Message): Message {
    if m.Tool? then m.(content := Shrunk(m.content)) else m
  }

  function Compressed(ms: seq<Message>): (r: seq<Message>)
    ensures |r| == |ms|
  {
    seq(|ms|, i requires 0 <= i < |ms| => if Old(ms, i) then ShrunkMessage(ms[i]) else ms[i])
  }

  /** The batch number, from 1, that each position has reached. */
  ghost function Ranks(ms: seq<Message>): (r: seq<nat>)
    ensures |r| == |ms|
  {
    seq(|ms|, i requires 0 <= i < |ms| => Batches(ms[..i + 1]))
  }

  ghost predicate RankSteps(ms: seq<Message>, rank: seq<nat>) {
    && |rank| == |ms|
    && forall i | 0 <= i < |ms| ::
         rank[i] == (if i == 0 then 0 else rank[i - 1])
                    + (if ms[i].Tool? && (i == 0 || !ms[i - 1].Tool?) then 1 else 0)
  }

  lemma RankStep(ms: seq<Message>, i: nat)
    requires i < |ms|
    ensures Batches(ms[..i + 1]) == Batches(ms[..i]) + (if ms[i].Tool? && (i == 0 || !ms[i - 1].Tool?) then 1 else 0)
  {
    assert ms[..i + 1][..i] == ms[..i];
  }

  lemma RankAt(ms: seq<Message>, i: nat)
    requires i < |ms|
    ensures Ranks(ms)[i] == (if i == 0 then 0 else Ranks(ms)[i - 1])
                            + (if ms[i].Tool? && (i == 0 || !ms[i - 1].Tool?) then 1 else 0)
  {
    RankStep(ms, i);
    if i == 0 {
      assert ms[..0] == [];
    }
  }

  lemma RanksStep(ms: seq<Message>)
    ensures RankSteps(ms, Ranks(ms))
    ensures Batches(ms) == if ms == [] then 0 else Ranks(ms)[|ms| - 1]
  {
    forall i | 0 <= i < |ms|
      ensures Ranks(ms)[i] == (if i == 0 then 0 else Ranks(ms)[i - 1])
                              + (if ms[i].Tool? && (i == 0 || !ms[i - 1].Tool?) then 1 else 0)
    {
      RankAt(ms, i);
    }
    assert ms[..|ms|] == ms;
  }

  /** `group` holds exactly the tool results of batch b among the first n messages. */
  ghost predicate IsBatch(ms: seq<Message>, rank: seq<nat>, n: nat, group: seq<nat>, b: nat)
    requires n <= |ms| == |rank|
  {
    && (forall i | i in group :: i < n && ms[i].Tool? && rank[i] == b)
    && (forall i: nat | i < n && ms[i].Tool? && rank[i] == b :: i in group)
  }

  /** The indices of the tool results, batch by batch. */
  method CollectBatches(ms: seq<Message>, ghost rank: seq<nat>) returns (batches: seq<seq<nat>>)
    requires RankSteps(ms, rank)
    ensures |batches| == if ms == [] then 0 else rank[|ms| - 1]
    ensures forall b | 0 <= b < |batches| :: IsBatch(ms, rank, |ms|, batches[b], b + 1)
    ensures forall i | 0 <= i < |ms| && ms[i].Tool? :: 1 <= rank[i] <= |batches|
  {
    batches := [];
    var current: seq<nat> := [];
    for i := 0 to |ms|
      invariant current == [] <==> i == 0 || !ms[i - 1].Tool?
      invariant |batches| + (if current == [] then 0 else 1) == if i == 0 then 0 else rank[i - 1]
      invariant forall b | 0 <= b < |batches| :: IsBatch(ms, rank, i, batches[b], b + 1)
      invariant IsBatch(ms, rank, i, current, |batches| + 1)
      invariant forall j | 0 <= j < i && ms[j].Tool? :: 1 <= rank[j] <= rank[i - 1]
    {
      if ms[i].Tool? {
        current := current + [i];
      } else if current != [] {
        batches := batches + [current];
        current := [];
      }
    }
    if current != [] {
      batches := batches + [current];
    }
  }

  /** `stale` holds exactly the tool results of the first b batches. */
  ghost predicate UpToBatch(ms: seq<Message>, rank: seq<nat>, stale: set<nat>, b: nat)
    requires |ms| == |rank|
  {
    forall i: nat :: i in stale <==> i < |ms| && ms[i].Tool? && rank[i] <= b
  }

  lemma NextBatch(ms: seq<Message>, rank: seq<nat>, stale: set<nat>, group: seq<nat>, b: nat)
    requires |ms| == |rank| && UpToBatch(ms, rank, stale, b) && IsBatch(ms, rank, |ms|, group, b + 1)
    ensures UpToBatch(ms, rank, stale + (set i | i in group), b + 1)
  {}

  lemma OldAt(ms: seq<Message>, i: nat)
    requires i < |ms|
    ensures Old(ms, i) <==> ms[i].Tool? && Ranks(ms)[i] + KEEP_BATCHES <= Batches(ms)
  {}

  lemma OldUpTo(ms: seq<Message>, rank: seq<nat>, batches: nat, stale: set<nat>, b: nat)
    requires rank == Ranks(ms) && batches == Batches(ms) && UpToBatch(ms, rank, stale, b)
    requires if batches > KEEP_BATCHES then b == batches - KEEP_BATCHES else b == 0
    requires forall i | 0 <= i < |ms| && ms[i].Tool? :: 1 <= rank[i]
    ensures forall i: nat :: i in stale <==> i < |ms| && Old(ms, i)
  {
    forall i: nat ensures i in stale <==> i < |ms| && Old(ms, i) {
      if i < |ms| {
        OldAt(ms, i);
      }
    }
  }

  /** Gathers the indices of all batches but the last two. */
  method StaleIndices(ms: seq<Message>) returns (stale: set<nat>)
    ensures forall i: nat :: i in stale <==> i < |ms| && Old(ms, i)
  {
    ghost var rank := Ranks(ms);
    RanksStep(ms);
    var batches := CollectBatches(ms, rank);
    stale := {};
    if |batches| <= KEEP_BATCHES {
      OldUpTo(ms, rank, |batches|, stale, 0);
      return;
    }
    for b := 0 to |batches| - KEEP_BATCHES
      invariant UpToBatch(ms, rank, stale, b)
    {
      NextBatch(ms, rank, stale, batches[b], b);
      stale := stale + (set i | i in batches[b]);
    }
    OldUpTo(ms, rank, |batches|, stale, |batches| - KEEP_BATCHES);
  }

  method CompressToolResults(ms: seq<Message>) returns (out: seq<Message>)
    ensures out == Compressed(ms)
  {
    var stale := StaleIndices(ms);
    out := ms;
    var todo := stale;
    while todo != {}
      invariant |out| == |ms| && todo <= stale
      invariant forall i: nat | i < |ms| :: out[i] == if i in stale - todo then ShrunkMessage(ms[i]) else ms[i]
      decreases |todo|
    {
      var i: nat :| i in todo;
      todo := todo - {i};
      var content := out[i].content;
      if |content| > COMPRESS_THRESHOLD {
        out := out[i := Tool(Shrunk(content), out[i].callId)];
      }
    }
  }

  // ---------------------------------------------------------------- pass 4

  predicate Twins(a: Message, b: Message) {
    (a.AI? && b.AI?) || (a.Human? && b.Human?)
  }

  function Fuse(a: Message, b: Message): (m: Message)
    requires Twins(a, b)
  {
    var combined := Trim(a.content + [NL, NL] + b.content);
    if a.AI? then AI(combined, a.calls + b.calls) else Human(combined)
  }

  function Appended(r: seq<Message>, m: Message): seq<Message> {
    if r != [] && Twins(r[|r| - 1], m)
    then r[..|r| - 1] + [Fuse(r[|r| - 1], m)]
    else r + [m]
  }

  function Merged(ms: seq<Message>): seq<Message> {
    if ms == [] then [] else Appended(Merged(ms[..|ms| - 1]), ms[|ms| - 1])
  }

  lemma MergedNext(ms: seq<Message>, i: nat)
    requires i < |ms|
    ensures Merged(ms[..i + 1]) == Appended(Merged(ms[..i]), ms[i])
  {
    assert ms[..i + 1][..i] == ms[..i];
  }

  lemma AppendedInPlace(out: seq<Message>, msg: Message)
    ensures Appended(out, msg)
            == if out != [] && Twins(out[|out| - 1], msg) then out[|out| - 1 := Fuse(out[|out| - 1], msg)]
               else out + [msg]
  {}

  method MergeNeighbours(ms: seq<Message>) returns (out: seq<Message>)
    ensures out == Merged(ms)
  {
    out := [];
    for i := 0 to |ms|
      invariant out == Merged(ms[..i])
    {
      var msg := ms[i];
      MergedNext(ms, i);
      AppendedInPlace(out, msg);
      if out != [] && Twins(out[|out| - 1], msg) {
        var prev := out[|out| - 1];
        var combined := Trim(prev.content + [NL, NL] + msg.content);
        out := out[|out| - 1 := if prev.AI? then AI(combined, prev.calls + msg.calls) else Human(combined)];
      } else {
        out := out + [msg];
      }
    }
    assert ms[..|ms|] == ms;
  }

  // ------------------------------------------------------------ the sanitizer

  function Sanitized(ms: seq<Message>): seq<Message> {
    Merged(Compressed(Repaired(Cleaned(ms))))
  }

  method Sanitize(ms: seq<Message>) returns (out: seq<Message>)
    ensures out == Sanitized(ms)
  {
    out := CleanAll(ms);
    out := DropOrphans(out);
    out := CompressToolResults(out);
    out := MergeNeighbours(out);
  }
}
