/** Pause tolerance, resume requirement and length cap of an utterance
    (pawlia/audio/vad.py, pawlia/interfaces/call_core.py). Seconds are reals; a
    second has 50 frames. */
module Vad {

  const FPS := 50
  const MIN_TOLERANCE := 1.2
  const MAX_RESUME := 20

  datatype Config = Config(
    silence: real,
    silenceMax: real,
    growth: real,
    loudSilence: real,
    loudCap: real,
    preSpeech: real,
    minResume: nat,
    resumeAtMax: nat)

  function Max(a: real, b: real): real {
    if a >= b then a else b
  }

  function Min(a: real, b: real): real {
    if a <= b then a else b
  }

  function MaxInt(a: int, b: int): int {
    if a >= b then a else b
  }

  /** `int(x)` for a number of seconds times 50, and for other positive reals. */
  function Whole(x: real): nat {
    if x < 0.0 then 0 else x.Floor
  }

  function Base(c: Config): real {
    Max(MIN_TOLERANCE, c.silence)
  }

  function Ceiling(c: Config): real {
    Max(Base(c), c.silenceMax)
  }

  /** What the tolerance gains over `spoken` seconds. */
  function Grown(c: Config, spoken: real): real {
    Max(0.0, spoken) * c.growth
  }

  /** The pause tolerated after `spoken` seconds of an utterance. */
  function Tolerance(c: Config, spoken: real, loud: bool): real {
    if loud then Max(MIN_TOLERANCE, c.loudSilence)
    else if c.growth <= 0.0 then Base(c)
    else Min(Ceiling(c), Base(c) + Grown(c, spoken))
  }

  function ToleranceFrames(c: Config, spoken: real, loud: bool): nat {
    Whole(Tolerance(c, spoken, loud) * FPS as real)
  }

  /** Round to the nearest integer, ties to even. */
  function Round(x: real): int {
    var f := x.Floor;
    var d := x - f as real;
    if d < 0.5 || (d == 0.5 && f % 2 == 0) then f else f + 1
  }

  function Ratio(n: real, d: real): real
    requires d > 0.0
  {
    n / d
  }

  function Scaled(share: real, span: nat): real {
    share * span as real
  }

  /** The share of the way from the base tolerance to its ceiling. */
  function Share(c: Config, tolerance: real): real
    requires Ceiling(c) > Base(c)
  {
    Ratio(Max(Base(c), Min(Ceiling(c), tolerance)) - Base(c), Ceiling(c) - Base(c))
  }

  function Span(c: Config): nat {
    if c.resumeAtMax > c.minResume then c.resumeAtMax - c.minResume else 0
  }

  /** The consecutive speech frames that cancel a pause of this tolerance. */
  function ResumeFrames(c: Config, tolerance: real): int {
    if Ceiling(c) <= Base(c) then c.minResume
    else c.minResume + Round(Scaled(Share(c, tolerance), Span(c)))
  }

  function Noisy(minimum: nat, noise: real): real {
    minimum as real * noise
  }

  /** The strictest of the requirements, within a limit. */
  function Strictest(minimum: nat, noisy: real, resume: int): int {
    var wanted := MaxInt(minimum, MaxInt(Whole(noisy), resume));
    if wanted < MAX_RESUME then wanted else MAX_RESUME
  }

  /** The requirement used by the pipeline, which also grows with the noise. */
  function ResumeNeeded(c: Config, tolerance: real, noise: real): int {
    Strictest(c.minResume, Noisy(c.minResume, noise), ResumeFrames(c, tolerance))
  }

  /** The longest an utterance may get, in frames; 0 means no limit. */
  function CapSeconds(c: Config, base: real, loud: bool): real {
    if base <= 0.0 then 0.0
    else if loud && c.loudCap > 0.0 then c.loudCap
    else base
  }

  function CapFrames(c: Config, base: real, loud: bool): nat {
    Whole(CapSeconds(c, base, loud) * FPS as real)
  }

  // -------------------------------------------------------------------- laws

  lemma WholeMonotone(x: real, y: real)
    requires x <= y
    ensures Whole(x) <= Whole(y)
  {}

  /** The quiet tolerance lies between its base and its ceiling; the loud one is
      fixed; none is ever below 1.2 seconds (60 frames). */
  lemma ToleranceRange(c: Config, spoken: real, loud: bool)
    ensures Tolerance(c, spoken, loud) >= MIN_TOLERANCE
    ensures loud ==> Tolerance(c, spoken, loud) == Max(MIN_TOLERANCE, c.loudSilence)
    ensures !loud ==> Base(c) <= Tolerance(c, spoken, loud) <= Ceiling(c)
    ensures ToleranceFrames(c, spoken, loud) >= 60
  {
    if !loud && c.growth > 0.0 {
      GrownMonotone(c, spoken, spoken);
    }
    WholeMonotone(MIN_TOLERANCE * FPS as real, Tolerance(c, spoken, loud) * FPS as real);
    assert MIN_TOLERANCE * FPS as real == 60.0;
  }

  lemma GrownMonotone(c: Config, a: real, b: real)
    requires a <= b && c.growth > 0.0
    ensures 0.0 <= Grown(c, a) <= Grown(c, b)
  {}

  /** The longer the caller has been speaking, the longer a pause is tolerated. */
  lemma ToleranceMonotone(c: Config, a: real, b: real, loud: bool)
    requires a <= b
    ensures Tolerance(c, a, loud) <= Tolerance(c, b, loud)
    ensures ToleranceFrames(c, a, loud) <= ToleranceFrames(c, b, loud)
  {
    if !loud && c.growth > 0.0 {
      GrownMonotone(c, a, b);
    }
    WholeMonotone(Tolerance(c, a, loud) * FPS as real, Tolerance(c, b, loud) * FPS as real);
  }

  lemma RoundMonotone(x: real, y: real)
    requires x <= y
    ensures Round(x) <= Round(y)
  {}

  lemma RoundInside(x: real, n: nat)
    requires 0.0 <= x <= n as real
    ensures 0 <= Round(x) <= n
  {}

  lemma RatioTimes(n: real, d: real)
    requires d > 0.0
    ensures Ratio(n, d) * d == n
  {}

  lemma Below(a: real, b: real, d: real)
    requires d > 0.0 && a * d <= b * d
    ensures a <= b
  {}

  lemma RatioMonotone(n: real, m: real, d: real)
    requires n <= m && d > 0.0
    ensures Ratio(n, d) <= Ratio(m, d)
  {
    RatioTimes(n, d);
    RatioTimes(m, d);
    Below(Ratio(n, d), Ratio(m, d), d);
  }

  lemma RatioEnds(d: real)
    requires d > 0.0
    ensures Ratio(0.0, d) == 0.0 && Ratio(d, d) == 1.0
  {}

  lemma ShareRange(c: Config, tolerance: real)
    requires Ceiling(c) > Base(c)
    ensures 0.0 <= Share(c, tolerance) <= 1.0
  {
    var d := Ceiling(c) - Base(c);
    var n := Max(Base(c), Min(Ceiling(c), tolerance)) - Base(c);
    RatioEnds(d);
    RatioMonotone(0.0, n, d);
    RatioMonotone(n, d, d);
  }

  lemma ScaledMonotone(a: real, b: real, span: nat)
    requires a <= b
    ensures Scaled(a, span) <= Scaled(b, span)
  {
    assert (b - a) * span as real >= 0.0;
  }

  lemma ScaledEnds(span: nat)
    ensures Scaled(0.0, span) == 0.0 && Scaled(1.0, span) == span as real
  {}

  /** A longer tolerance never asks for a shorter return of speech. */
  lemma ResumeMonotone(c: Config, a: real, b: real)
    requires a <= b
    ensures ResumeFrames(c, a) <= ResumeFrames(c, b)
  {
    if Ceiling(c) > Base(c) {
      RatioMonotone(Max(Base(c), Min(Ceiling(c), a)) - Base(c), Max(Base(c), Min(Ceiling(c), b)) - Base(c),
                    Ceiling(c) - Base(c));
      ScaledMonotone(Share(c, a), Share(c, b), Span(c));
      RoundMonotone(Scaled(Share(c, a), Span(c)), Scaled(Share(c, b), Span(c)));
    }
  }

  /** The requirement runs from the minimum up to the maximum, never outside. */
  lemma ResumeRange(c: Config, tolerance: real)
    ensures c.minResume <= ResumeFrames(c, tolerance) <= c.minResume + Span(c)
  {
    if Ceiling(c) > Base(c) {
      ShareRange(c, tolerance);
      ScaledEnds(Span(c));
      ScaledMonotone(0.0, Share(c, tolerance), Span(c));
      ScaledMonotone(Share(c, tolerance), 1.0, Span(c));
      RoundInside(Scaled(Share(c, tolerance), Span(c)), Span(c));
    }
  }

  /** Both ends of the range are reached. */
  lemma ResumeEnds(c: Config)
    requires Ceiling(c) > Base(c)
    ensures ResumeFrames(c, Base(c)) == c.minResume
    ensures ResumeFrames(c, Ceiling(c)) == c.minResume + Span(c)
  {
    RatioEnds(Ceiling(c) - Base(c));
    ScaledEnds(Span(c));
    RoundInside(0.0, 0);
    RoundWhole(Span(c));
  }

  lemma RoundWhole(n: nat)
    ensures Round(n as real) == n
  {}

  /** A positive cap limits nothing exactly when it is shorter than one frame. */
  lemma CapDisabled(c: Config, base: real, loud: bool)
    ensures CapFrames(c, base, loud) == 0 <==> CapSeconds(c, base, loud) * FPS as real < 1.0
  {}
}
