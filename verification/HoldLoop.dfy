/** Looping hold music (pawlia/interfaces/call_core.py). */
module HoldLoop {
  import opened TtsFrames

  /** Where a loop of n samples stands after t samples. */
  function Phase(t: nat, n: nat): (p: nat)
    requires n > 0
    ensures p < n
  {
    if t < n then t else Phase(t - n, n)
  }

  /** A position up to one round ahead, wrapped around. */
  function Wrapped(p: nat, n: nat): nat
    requires p < 2 * n
  {
    if p < n then p else p - n
  }

  lemma {:induction false} PhaseAdd(t: nat, j: nat, n: nat)
    requires n > 0 && j <= n
    ensures Phase(t + j, n) == Wrapped(Phase(t, n) + j, n)
  {
    if t >= n {
      PhaseAdd(t - n, j, n);
    }
  }

  lemma ModOnce(p: nat, n: nat)
    requires n > 0 && p < 2 * n
    ensures p % n == Wrapped(p, n)
  {
    if p >= n {
      assert p / n == 1;
    }
  }

  /** The frame of a loop from `pos` on, which may wrap around once; a loop too
      short for that yields a short frame. */
  function HoldFrame(hold: seq<int>, pos: nat): (r: seq<int>)
    requires pos < |hold|
    ensures |r| == if 2 * |hold| - pos >= FRAME then FRAME else 2 * |hold| - pos
  {
    if pos + FRAME <= |hold| then hold[pos..pos + FRAME]
    else
      var tail := hold[pos..];
      var need := FRAME - |tail|;
      tail + hold[..if need <= |hold| then need else |hold|]
  }

  lemma HoldFrameAt(hold: seq<int>, pos: nat, j: nat)
    requires pos < |hold| && j < |HoldFrame(hold, pos)|
    ensures HoldFrame(hold, pos)[j] == hold[Wrapped(pos + j, |hold|)]
  {}

  /** The samples put out since the loop was started, or as much of them as were
      hold music, repeat the loop without a gap. */
  ghost predicate Gapless(hold: seq<int>, pos: nat, stream: seq<int>) {
    && (|hold| > 0 ==> pos < |hold|)
    && (|hold| >= FRAME ==>
          && pos == Phase(|stream|, |hold|)
          && forall j | 0 <= j < |stream| :: stream[j] == hold[Phase(j, |hold|)])
  }

  /** Another frame keeps the loop gapless. */
  lemma GaplessContinues(hold: seq<int>, pos: nat, stream: seq<int>)
    requires Gapless(hold, pos, stream) && |hold| > 0
    ensures Gapless(hold, (pos + FRAME) % |hold|, stream + HoldFrame(hold, pos))
  {
    if |hold| >= FRAME {
      var more := HoldFrame(hold, pos);
      ModOnce(pos + FRAME, |hold|);
      PhaseAdd(|stream|, FRAME, |hold|);
      forall j | |stream| <= j < |stream + more|
        ensures (stream + more)[j] == hold[Phase(j, |hold|)]
      {
        PhaseAdd(|stream|, j - |stream|, |hold|);
        HoldFrameAt(hold, pos, j - |stream|);
      }
    }
  }
}
