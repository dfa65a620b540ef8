/** Spoken sentences as 20 ms frames, and what a listener hears
    (pawlia/interfaces/call_core.py). Samples are 16-bit values. */
module TtsFrames {
  import opened Seqs

  const FRAME: nat := 960

  /** A queued sentence; ids count the sentences ever queued, from 1. */
  datatype Sentence = Sentence(id: nat, pcm: seq<int>)

  /** A queued piece of a sentence. */
  datatype Item = Item(samples: seq<int>, sentence: nat, isLast: bool)

  /** One frame of output. */
  datatype Event =
    | Speech(sentence: nat, index: nat, samples: seq<int>)
    | Hold(samples: seq<int>)
    | Silence(samples: seq<int>)

  function Count(pcm: seq<int>): nat {
    (|pcm| + FRAME - 1) / FRAME
  }

  /** Piece k of the samples: 960 of them, or what is left. */
  function Piece(pcm: seq<int>, k: nat): seq<int> {
    if FRAME * k >= |pcm| then []
    else pcm[FRAME * k..if FRAME * (k + 1) < |pcm| then FRAME * (k + 1) else |pcm|]
  }

  function Zeros(n: nat): (z: seq<int>)
    ensures |z| == n
  {
    seq(n, _ => 0)
  }

  function Padded(samples: seq<int>): (r: seq<int>)
    ensures |r| == FRAME
  {
    if |samples| < FRAME then samples + Zeros(FRAME - |samples|) else samples[..FRAME]
  }

  /** The queue items of a sentence from piece k on. */
  function Items(s: Sentence, k: nat): seq<Item>
    decreases Count(s.pcm) - k
  {
    if k >= Count(s.pcm) then []
    else [Item(Piece(s.pcm, k), s.id, k == Count(s.pcm) - 1)] + Items(s, k + 1)
  }

  /** The first n frames of a sentence. */
  function Frames(s: Sentence, n: nat): seq<Event> {
    if n == 0 then [] else Frames(s, n - 1) + [Speech(s.id, n - 1, Padded(Piece(s.pcm, n - 1)))]
  }

  /** The samples of the first n frames of a sentence, one after the other. */
  function Sound(pcm: seq<int>, n: nat): seq<int> {
    if n == 0 then [] else Sound(pcm, n - 1) + Padded(Piece(pcm, n - 1))
  }

  lemma PieceLength(pcm: seq<int>, k: nat)
    requires k < Count(pcm)
    ensures 0 < |Piece(pcm, k)| <= FRAME
    ensures k < Count(pcm) - 1 ==> |Piece(pcm, k)| == FRAME && Padded(Piece(pcm, k)) == Piece(pcm, k)
  {}

  lemma {:induction false} SoundFull(pcm: seq<int>, n: nat)
    requires n < Count(pcm)
    ensures FRAME * n <= |pcm| && Sound(pcm, n) == pcm[..FRAME * n]
  {
    if n > 0 {
      PieceLength(pcm, n - 1);
      SoundFull(pcm, n - 1);
      assert Piece(pcm, n - 1) == pcm[FRAME * (n - 1)..FRAME * n];
    }
  }

  lemma LastPiece(pcm: seq<int>, n: nat)
    requires pcm != [] && n == Count(pcm) - 1
    ensures FRAME * n < |pcm| <= FRAME * (n + 1)
    ensures pcm[..FRAME * n] + Padded(Piece(pcm, n)) == pcm + Zeros(FRAME * (n + 1) - |pcm|)
  {
    var rest := pcm[FRAME * n..];
    assert Piece(pcm, n) == rest;
    assert rest + Zeros(0) == rest;
    assert Padded(rest) == rest + Zeros(FRAME - |rest|);
    assert pcm == pcm[..FRAME * n] + rest;
  }

  /** Only the last frame of a sentence is padded. */
  lemma OnlyLastPadded(pcm: seq<int>)
    ensures forall k | 0 <= k < Count(pcm) - 1 :: Padded(Piece(pcm, k)) == Piece(pcm, k)
  {
    forall k | 0 <= k < Count(pcm) - 1
      ensures Padded(Piece(pcm, k)) == Piece(pcm, k)
    {
      PieceLength(pcm, k);
    }
  }

  /** The frames of a sentence sound like the sentence, followed by fewer than
      960 zeros. */
  lemma SentenceWhole(pcm: seq<int>)
    requires pcm != []
    ensures 0 <= FRAME * Count(pcm) - |pcm| < FRAME
    ensures Sound(pcm, Count(pcm)) == pcm + Zeros(FRAME * Count(pcm) - |pcm|)
  {
    var n := Count(pcm) - 1;
    LastPiece(pcm, n);
    SoundFull(pcm, n);
    SoundPush(pcm, n);
  }

  lemma SoundPush(pcm: seq<int>, n: nat)
    ensures Sound(pcm, n + 1) == Sound(pcm, n) + Padded(Piece(pcm, n))
  {}

  // ------------------------------------------------------------ what is heard

  /** A stretch of output: a sentence from start to end, the first frames of one
      that was interrupted, or a frame of hold music or silence. */
  datatype Block = Whole(sentence: Sentence) | Cut(sentence: Sentence, frames: nat) | Idle(event: Event)

  function Heard(b: Block): seq<Event> {
    match b
    case Whole(s) => Frames(s, Count(s.pcm))
    case Cut(s, n) => Frames(s, n)
    case Idle(e) => [e]
  }

  function Rendered(blocks: seq<Block>): seq<Event> {
    if blocks == [] then [] else Rendered(blocks[..|blocks| - 1]) + Heard(blocks[|blocks| - 1])
  }

  /** The sentences of the stretches, in order. */
  function Spoken(blocks: seq<Block>): seq<Sentence> {
    if blocks == [] then []
    else
      var before, b := Spoken(blocks[..|blocks| - 1]), blocks[|blocks| - 1];
      if b.Idle? then before else before + [b.sentence]
  }

  lemma RenderedPush(blocks: seq<Block>, b: Block)
    ensures Rendered(blocks + [b]) == Rendered(blocks) + Heard(b)
    ensures Spoken(blocks + [b]) == Spoken(blocks) + (if b.Idle? then [] else [b.sentence])
  {
    assert (blocks + [b])[..|blocks|] == blocks;
  }

  // ---------------------------------------------------------- waiting sentences

  /** The queue items of the waiting sentences. */
  function Queued(pending: seq<Sentence>): seq<Item> {
    if pending == [] then [] else Items(pending[0], 0) + Queued(pending[1..])
  }

  lemma {:induction false} QueuedPush(pending: seq<Sentence>, s: Sentence)
    ensures Queued(pending + [s]) == Queued(pending) + Items(s, 0)
  {
    if pending == [] {
      assert pending + [s] == [s];
      assert [s][1..] == [];
    } else {
      assert (pending + [s])[1..] == pending[1..] + [s];
      QueuedPush(pending[1..], s);
    }
  }

  lemma {:induction false} ItemsSentence(s: Sentence, k: nat)
    ensures forall i | 0 <= i < |Items(s, k)| :: Items(s, k)[i].sentence == s.id
    decreases Count(s.pcm) - k
  {
    if k < Count(s.pcm) {
      ItemsSentence(s, k + 1);
    }
  }

  lemma {:induction false} QueuedSentences(pending: seq<Sentence>, id: nat)
    requires forall i | 0 <= i < |pending| :: pending[i].id != id
    ensures forall i | 0 <= i < |Queued(pending)| :: Queued(pending)[i].sentence != id
  {
    if pending != [] {
      ItemsSentence(pending[0], 0);
      QueuedSentences(pending[1..], id);
    }
  }

  // -------------------------------------------------------------------- order

  lemma SublistPush(a: seq<Sentence>, b: seq<Sentence>, s: Sentence)
    requires Sublist(a, b)
    ensures Sublist(a + [s], b + [s])
  {
    assert (a + [s])[..|a|] == a && (b + [s])[..|b|] == b;
  }

  /** Sentences are numbered in the order in which they were queued. */
  predicate Numbered(b: seq<Sentence>) {
    b == [] || (b[|b| - 1].id == |b| && Numbered(b[..|b| - 1]))
  }

  /** No waiting sentence is empty. */
  predicate Audible(pending: seq<Sentence>) {
    pending == [] || (|pending[0].pcm| > 0 && Audible(pending[1..]))
  }

  lemma {:induction false} AudiblePush(pending: seq<Sentence>, s: Sentence)
    requires Audible(pending) && |s.pcm| > 0
    ensures Audible(pending + [s])
  {
    if pending == [] {
      assert pending + [s] == [s] && [s][1..] == [];
    } else {
      assert (pending + [s])[1..] == pending[1..] + [s];
      AudiblePush(pending[1..], s);
    }
  }

  /** In a sublist of a numbered list, later sentences have higher ids. */
  lemma {:induction false} SublistOrdered(a: seq<Sentence>, b: seq<Sentence>, i: nat)
    requires Numbered(b) && Sublist(a, b) && i < |a|
    ensures a[i].id <= |b|
    ensures i < |a| - 1 ==> a[i].id < a[|a| - 1].id
  {
    var ai, bi := a[..|a| - 1], b[..|b| - 1];
    if a[|a| - 1] == b[|b| - 1] && Sublist(ai, bi) {
      if i < |a| - 1 {
        SublistOrdered(ai, bi, i);
      }
    } else {
      SublistOrdered(a, bi, i);
    }
  }
}
