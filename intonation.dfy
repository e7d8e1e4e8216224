/** Intonation scoring from pitch statistics. The pitch tracker that measures
    a recording is an input: its statistics, or its voiced and unvoiced pitch
    samples, arrive as values, and `None` stands for a measurement that raised. */
module Intonation {
  import opened Wrappers
  import opened Numeric

  /** Reference pitch range and standard deviation of a native speaker, in Hz. */
  const NativeRange := 70.0
  const NativeStd := 30.0

  /** Ideal bands, in percent of the native reference. */
  const RangeIdealMin := 80.0
  const RangeIdealMax := 120.0
  const StdIdealMin := 70.0
  const StdIdealMax := 130.0

  /** Bounds of the fallback normalisation, in Hz. */
  const FallbackMinPitch := 80.0
  const FallbackMaxPitch := 300.0

  function Max(a: real, b: real): real {
    if a >= b then a else b
  }

  function Min(a: real, b: real): real {
    if a <= b then a else b
  }

  /** A percentage of the native reference turned into a score: full marks in
      the ideal band, a linear penalty below it and a gentle penalty, at most
      50 points, above it. */
  function ScoreFromPercent(percent: real, idealMin: real, idealMax: real): (r: real)
    requires 0.0 < idealMin <= idealMax
    ensures 0.0 <= r <= 100.0
    ensures r == 100.0 <==> idealMin <= percent <= idealMax
    ensures percent < idealMin ==> r < 100.0 && r == Max(0.0, 100.0 * (percent / idealMin))
    ensures percent > idealMax ==> 50.0 <= r < 100.0 && r == 100.0 - Min(50.0, (percent - idealMax) / 2.0)
  {
    if idealMin <= percent <= idealMax then 100.0
    else if percent < idealMin then
      assert percent / idealMin < 1.0;
      Max(0.0, 100.0 * (percent / idealMin))
    else
      var over := percent - idealMax;
      var penalty := Min(50.0, over / 2.0);
      Max(0.0, 100.0 - penalty)
  }

  /** Below the band, a larger percentage never scores lower. */
  lemma ScoreBelowMonotone(p: real, q: real, idealMin: real, idealMax: real)
    requires 0.0 < idealMin <= idealMax && p <= q < idealMin
    ensures ScoreFromPercent(p, idealMin, idealMax) <= ScoreFromPercent(q, idealMin, idealMax)
  {
    assert p / idealMin <= q / idealMin;
  }

  /** Above the band, a larger percentage never scores higher. */
  lemma ScoreAboveAntitone(p: real, q: real, idealMin: real, idealMax: real)
    requires 0.0 < idealMin <= idealMax && idealMax < p <= q
    ensures ScoreFromPercent(q, idealMin, idealMax) <= ScoreFromPercent(p, idealMin, idealMax)
  {
  }

  /** The penalty above the band stops growing 100 points past it. */
  lemma ScoreAboveFloor(p: real, idealMin: real, idealMax: real)
    requires 0.0 < idealMin <= idealMax && p >= idealMax + 100.0
    ensures ScoreFromPercent(p, idealMin, idealMax) == 50.0
  {
  }

  /** What the pitch tracker reports about a recording: mean, minimum,
      maximum and standard deviation of the fundamental frequency. */
  datatype PitchStats = PitchStats(meanHz: real, minHz: real, maxHz: real, stdHz: real)

  /** The range and deviation scores blended 0.7/0.3, before rounding. */
  function Weighted(rangeScore: real, stdScore: real): (r: real)
    ensures 0.0 <= rangeScore <= 100.0 && 0.0 <= stdScore <= 100.0 ==> 0.0 <= r <= 100.0
    ensures 0.0 <= rangeScore <= 100.0 && 0.0 <= stdScore <= 100.0 ==>
      (r == 100.0 <==> rangeScore == 100.0 && stdScore == 100.0)
  {
    rangeScore * 0.7 + stdScore * 0.3
  }

  /** The range score carries 70 points of the blend and the deviation score 30. */
  lemma WeightedShares()
    ensures Weighted(100.0, 0.0) == 70.0
    ensures Weighted(0.0, 100.0) == 30.0
  {
  }

  /** Raising either band score never lowers the blend. */
  lemma WeightedMonotone(a: real, b: real, a': real, b': real)
    requires a <= a' && b <= b'
    ensures Weighted(a, b) <= Weighted(a', b')
  {
  }

  /** The score from pitch statistics: range and deviation as percentages of
      the native reference, each scored against its band, blended and rounded
      to one decimal. The mean frequency plays no part. */
  function PrimaryScore(stats: PitchStats): (r: real)
    ensures 0.0 <= r <= 100.0
    ensures var rangePercent := (stats.maxHz - stats.minHz) / NativeRange * 100.0;
      var stdPercent := stats.stdHz / NativeStd * 100.0;
      RangeIdealMin <= rangePercent <= RangeIdealMax && StdIdealMin <= stdPercent <= StdIdealMax ==> r == 100.0
    ensures var rangePercent := (stats.maxHz - stats.minHz) / NativeRange * 100.0;
      var stdPercent := stats.stdHz / NativeStd * 100.0;
      var w := 0.7 * ScoreFromPercent(rangePercent, RangeIdealMin, RangeIdealMax)
        + 0.3 * ScoreFromPercent(stdPercent, StdIdealMin, StdIdealMax);
      w - 0.05 < r <= w + 0.05
  {
    var rangePercent := (stats.maxHz - stats.minHz) / NativeRange * 100.0;
    var stdPercent := stats.stdHz / NativeStd * 100.0;
    var rangeScore := ScoreFromPercent(rangePercent, RangeIdealMin, RangeIdealMax);
    var stdScore := ScoreFromPercent(stdPercent, StdIdealMin, StdIdealMax);
    var w := Weighted(rangeScore, stdScore);
    Round1Bounds(w);
    Round1Exact(1000);
    Round1(w)
  }

  /** The pitch samples that are voiced (non-zero), in order. */
  function NonZero(samples: seq<real>): (r: seq<real>)
    ensures |r| <= |samples|
    ensures forall k :: 0 <= k < |r| ==> r[k] != 0.0 && r[k] in samples
    ensures forall k :: 0 <= k < |samples| && samples[k] != 0.0 ==> samples[k] in r
    decreases |samples|
  {
    if samples == [] then []
    else
      var x := samples[|samples| - 1];
      var front := samples[..|samples| - 1];
      assert forall k :: 0 <= k < |front| ==> front[k] == samples[k];
      NonZero(front) + (if x != 0.0 then [x] else [])
  }

  /** A single sample is kept exactly when it is voiced. */
  lemma NonZeroSingle(x: real)
    ensures NonZero([x]) == if x != 0.0 then [x] else []
  {
    assert [x][..0] == [];
  }

  /** Filtering distributes over concatenation, so every voiced sample is
      kept, in its order. */
  lemma {:induction false} NonZeroAppend(a: seq<real>, b: seq<real>)
    ensures NonZero(a + b) == NonZero(a) + NonZero(b)
    decreases |b|
  {
    if b == [] {
      assert a + b == a;
    } else {
      var front := b[..|b| - 1];
      var x := b[|b| - 1];
      assert (a + b)[..|a + b| - 1] == a + front;
      NonZeroAppend(a, front);
    }
  }

  /** Samples without an unvoiced frame are kept whole. */
  lemma {:induction false} NonZeroOfVoiced(samples: seq<real>)
    requires forall k :: 0 <= k < |samples| ==> samples[k] != 0.0
    ensures NonZero(samples) == samples
    decreases |samples|
  {
    if samples != [] {
      NonZeroOfVoiced(samples[..|samples| - 1]);
    }
  }

  /** The mean voiced pitch, or 0 when no frame is voiced. */
  function OverallPitch(samples: seq<real>): (r: real)
    ensures NonZero(samples) == [] ==> r == 0.0
  {
    var voiced := NonZero(samples);
    if voiced == [] then 0.0 else Mean(voiced)
  }

  function Clamp01(x: real): (r: real)
    ensures 0.0 <= r <= 1.0
    ensures 0.0 <= x <= 1.0 ==> r == x
  {
    Max(0.0, Min(1.0, x))
  }

  /** The fallback score: the mean voiced pitch placed linearly between 80 and
      300 Hz, clamped and rounded to one decimal; no voiced pitch scores 0. */
  function FallbackScore(samples: seq<real>): (r: real)
    ensures 0.0 <= r <= 100.0
    ensures OverallPitch(samples) <= FallbackMinPitch ==> r == 0.0
    ensures OverallPitch(samples) >= FallbackMaxPitch ==> r == 100.0
    ensures FallbackMinPitch < OverallPitch(samples) < FallbackMaxPitch ==>
      var linear := (OverallPitch(samples) - FallbackMinPitch) / (FallbackMaxPitch - FallbackMinPitch) * 100.0;
      linear - 0.05 < r <= linear + 0.05
  {
    var overall := OverallPitch(samples);
    if overall <= 0.0 then 0.0
    else
      var ratio := Clamp01((overall - FallbackMinPitch) / (FallbackMaxPitch - FallbackMinPitch));
      Round1Bounds(ratio * 100.0);
      Round1Exact(0);
      Round1Exact(1000);
      Round1(ratio * 100.0)
  }

  /** A higher mean voiced pitch never gives a lower fallback score. */
  lemma FallbackMonotone(a: seq<real>, b: seq<real>)
    requires OverallPitch(a) <= OverallPitch(b)
    ensures FallbackScore(a) <= FallbackScore(b)
  {
    var pa := OverallPitch(a);
    var pb := OverallPitch(b);
    if pa > 0.0 {
      var span := FallbackMaxPitch - FallbackMinPitch;
      var xa := (pa - FallbackMinPitch) / span;
      var xb := (pb - FallbackMinPitch) / span;
      assert xa <= xb;
      assert Clamp01(xa) <= Clamp01(xb);
      Round1Monotone(Clamp01(xa) * 100.0, Clamp01(xb) * 100.0);
    }
  }

  /** The intonation score of a turn: from the statistics when the tracker
      produced them, else from the voiced samples, else 0. */
  function CalculateIntonation(stats: Option<PitchStats>, samples: Option<seq<real>>): (r: real)
    ensures 0.0 <= r <= 100.0
    ensures stats.Some? ==> r == PrimaryScore(stats.value)
    ensures stats.None? && samples.Some? ==> r == FallbackScore(samples.value)
    ensures stats.None? && samples.None? ==> r == 0.0
  {
    match stats
    case Some(s) => PrimaryScore(s)
    case None =>
      match samples
      case Some(xs) => FallbackScore(xs)
      case None => 0.0
  }

  /** One line of the per-word pitch list; `formatHz` stands for the way an
      f-string renders the pitch float. */
  function PitchLine(word: string, i: nat, voiced: seq<real>, formatHz: real -> string): string {
    if i < |voiced| then word + ": " + formatHz(voiced[i]) + " Hz" else word + ": 0 Hz"
  }

  /** The per-word pitch list: the i-th word is paired with the i-th voiced
      sample, words past the last voiced sample with 0 Hz; and the overall
      mean voiced pitch. */
  method PitchPerWord(words: seq<string>, samples: seq<real>, formatHz: real -> string)
    returns (perWordPitch: seq<string>, overall: real)
    ensures |perWordPitch| == |words|
    ensures forall i :: 0 <= i < |words| ==> perWordPitch[i] == PitchLine(words[i], i, NonZero(samples), formatHz)
    ensures overall == OverallPitch(samples)
  {
    var voiced := NonZero(samples);
    perWordPitch := [];
    var i := 0;
    while i < |words|
      invariant 0 <= i <= |words| && |perWordPitch| == i
      invariant forall k :: 0 <= k < i ==> perWordPitch[k] == PitchLine(words[k], k, voiced, formatHz)
    {
      if i < |voiced| {
        perWordPitch := perWordPitch + [words[i] + ": " + formatHz(voiced[i]) + " Hz"];
      } else {
        perWordPitch := perWordPitch + [words[i] + ": 0 Hz"];
      }
      i := i + 1;
    }
    overall := if voiced != [] then Mean(voiced) else 0.0;
  }

  /** When every voiced sample lies in [lo, hi] with lo > 0, the overall pitch
      lies there too, unless nothing is voiced. */
  lemma OverallPitchBounds(samples: seq<real>, lo: real, hi: real)
    requires forall k :: 0 <= k < |samples| ==> samples[k] == 0.0 || lo <= samples[k] <= hi
    ensures NonZero(samples) != [] ==> lo <= OverallPitch(samples) <= hi
  {
    var voiced := NonZero(samples);
    if voiced != [] {
      assert AllIn(voiced, lo, hi) by {
        forall k | 0 <= k < |voiced| ensures lo <= voiced[k] <= hi {
          assert voiced[k] in samples;
        }
      }
      MeanBounds(voiced, lo, hi);
    }
  }
}
