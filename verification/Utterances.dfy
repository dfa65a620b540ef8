/** Ranges of audio frames, and the chunks cut out of a call. A frame is known by
    its number, from 1. */
module Utterances {

  /** The frames a to b, in order. */
  function Range(a: nat, b: nat): seq<nat>
    decreases b
  {
    if b < a then [] else if b == 0 then [0] else Range(a, b - 1) + [b]
  }

  lemma {:induction false} RangeLength(a: nat, b: nat)
    ensures |Range(a, b)| == if b < a then 0 else b - a + 1
    ensures forall i | 0 <= i < |Range(a, b)| :: Range(a, b)[i] == a + i
    decreases b
  {
    if b >= a && b > 0 {
      RangeLength(a, b - 1);
    }
  }

  lemma RangePush(a: nat, b: nat)
    requires a <= b + 1
    ensures Range(a, b + 1) == Range(a, b) + [b + 1]
  {}

  lemma RangeEmpty(a: nat)
    ensures Range(a + 1, a) == []
  {}

  lemma RangePop(a: nat, b: nat)
    requires a <= b
    ensures Range(a, b)[1..] == Range(a + 1, b)
  {
    RangeLength(a, b);
    RangeLength(a + 1, b);
  }

  /** A chunk that was started at frame `start`, with `roll` frames of pre-roll
      that end with the start frame itself, and last heard frame `end`. */
  datatype Chunk = Chunk(start: nat, roll: nat, end: nat, bargeIn: bool)

  /** The frames of a chunk: the start frame comes twice when there is pre-roll. */
  function Content(start: nat, roll: nat, end: nat): seq<nat> {
    Range(if roll <= start then start - roll + 1 else 1, start) + Range(start, end)
  }

  /** The first frame of a chunk. */
  function First(c: Chunk): int {
    if c.roll == 0 then c.start else c.start - c.roll + 1
  }

  /** The chunks follow one another without sharing a frame, all before `limit`. */
  predicate Disjoint(chunks: seq<Chunk>, limit: nat) {
    if chunks == [] then true
    else
      var c := chunks[|chunks| - 1];
      && c.roll <= c.start <= c.end < limit
      && First(c) >= 1
      && Disjoint(chunks[..|chunks| - 1], First(c))
  }

  lemma {:induction false} DisjointGrow(chunks: seq<Chunk>, a: nat, b: nat)
    requires Disjoint(chunks, a) && a <= b
    ensures Disjoint(chunks, b)
  {}

  lemma DisjointPush(chunks: seq<Chunk>, c: Chunk, limit: nat)
    requires c.roll <= c.start <= c.end < limit && First(c) >= 1
    requires Disjoint(chunks, First(c))
    ensures Disjoint(chunks + [c], limit)
  {
    assert (chunks + [c])[..|chunks|] == chunks;
  }

  /** Any two chunks: the earlier one ends before the later one begins. */
  lemma {:induction false} DisjointPairs(chunks: seq<Chunk>, limit: nat, i: nat, j: nat)
    requires Disjoint(chunks, limit) && i < j < |chunks|
    ensures chunks[i].end < First(chunks[j])
  {
    var init := chunks[..|chunks| - 1];
    var c := chunks[|chunks| - 1];
    if j < |chunks| - 1 {
      DisjointPairs(init, First(c), i, j);
      assert init[i] == chunks[i] && init[j] == chunks[j];
    } else {
      AllBefore(init, First(c), i);
    }
  }

  lemma {:induction false} AllBefore(chunks: seq<Chunk>, limit: nat, i: nat)
    requires Disjoint(chunks, limit) && i < |chunks|
    ensures chunks[i].end < limit && 1 <= First(chunks[i]) <= chunks[i].start <= chunks[i].end
  {
    if i < |chunks| - 1 {
      AllBefore(chunks[..|chunks| - 1], First(chunks[|chunks| - 1]), i);
    }
  }

  /** Frame t is in one of the chunks, from its start on. */
  predicate Caught(chunks: seq<Chunk>, t: nat) {
    chunks != []
    && ((chunks[|chunks| - 1].start <= t <= chunks[|chunks| - 1].end) || Caught(chunks[..|chunks| - 1], t))
  }

  lemma CaughtPush(chunks: seq<Chunk>, c: Chunk, t: nat)
    ensures Caught(chunks + [c], t) <==> Caught(chunks, t) || c.start <= t <= c.end
  {
    assert (chunks + [c])[..|chunks|] == chunks;
  }

  // -------------------------------------------------------------------- pauses

  /** The frames since the pause counter was last cleared, true for speech. */
  function Pauses(tail: seq<bool>): nat {
    if tail == [] then 0 else Pauses(tail[..|tail| - 1]) + (if tail[|tail| - 1] then 0 else 1)
  }

  /** The consecutive speech frames at the end. */
  function Returning(tail: seq<bool>): (n: nat)
    ensures n <= |tail|
  {
    if tail == [] || !tail[|tail| - 1] then 0 else Returning(tail[..|tail| - 1]) + 1
  }

  lemma TailPush(tail: seq<bool>, speech: bool)
    ensures Pauses(tail + [speech]) == Pauses(tail) + (if speech then 0 else 1)
    ensures Returning(tail + [speech]) == if speech then Returning(tail) + 1 else 0
  {
    assert (tail + [speech])[..|tail|] == tail;
  }
}
