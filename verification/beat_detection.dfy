/** The beat detector of LightBoard/AudioAnalyzer.swift: a FIFO window of
    the last 43 low-frequency energies, an adaptive threshold
    `mean + sensitivity * sqrt(variance) * 2` over that window, and a 150 ms
    refractory gate between beats.

    Energies and times are reals (seconds); `Date()` becomes a `now`
    parameter and `Date.distantPast` becomes "no beat yet" (`None`). */
module BeatDetection {
  import opened Basics

  /** About one second of audio at 44.1 kHz with 1024-sample buffers. */
  const HistorySize: nat := 43
  /** 150 ms between beats, so at most 400 beats per minute. */
  const MinimumBeatInterval: real := 0.15
  /** Samples per analysed buffer. */
  const BufferSize: nat := 1024
  /** FFT bins averaged into the bass energy (about 0 to 258 Hz). */
  const LowFreqBins: nat := 6

  /** `reduce(0, +)`, adding from the first element to the last. */
  function Sum(s: seq<real>): real
  {
    if s == [] then 0.0 else Sum(s[..|s| - 1]) + s[|s| - 1]
  }

  /** The average of a non-empty window: the value that, counted once per
      element, adds up to the window's sum. */
  function Mean(s: seq<real>): (m: real)
    requires |s| > 0
    ensures m * |s| as real == Sum(s)
  {
    Sum(s) / |s| as real
  }

  /** The sum of squared deviations of `s` from `m`. */
  function SquaredDeviations(s: seq<real>, m: real): (r: real)
    ensures r >= 0.0
  {
    if s == [] then 0.0
    else
      var d := s[|s| - 1] - m;
      SquareNonNegative(d);
      SquaredDeviations(s[..|s| - 1], m) + d * d
  }

  /** The population variance of a non-empty window. */
  function Variance(s: seq<real>): (v: real)
    requires |s| > 0
    ensures v >= 0.0
  {
    var n := |s| as real;
    ProductSigns(SquaredDeviations(s, Mean(s)) / n, n);
    SquaredDeviations(s, Mean(s)) / n
  }

  lemma {:induction false} SumBounds(s: seq<real>, lo: real, hi: real)
    requires forall i :: 0 <= i < |s| ==> lo <= s[i] <= hi
    ensures |s| as real * lo <= Sum(s) <= |s| as real * hi
  {
    if s != [] {
      SumBounds(s[..|s| - 1], lo, hi);
    }
  }

  lemma {:induction false} SumNonNegative(s: seq<real>)
    requires forall i :: 0 <= i < |s| ==> s[i] >= 0.0
    ensures Sum(s) >= 0.0
  {
    if s != [] {
      SumNonNegative(s[..|s| - 1]);
    }
  }

  /** The mean of a window lies within any bounds on its elements. */
  lemma MeanWithin(s: seq<real>, lo: real, hi: real)
    requires |s| > 0
    requires forall i :: 0 <= i < |s| ==> lo <= s[i] <= hi
    ensures lo <= Mean(s) <= hi
  {
    var n := |s| as real;
    SumBounds(s, lo, hi);
    assert Sum(s) == Mean(s) * n;
    assert (Mean(s) - lo) * n == Sum(s) - n * lo;
    assert (hi - Mean(s)) * n == n * hi - Sum(s);
    ProductSigns(Mean(s) - lo, n);
    ProductSigns(hi - Mean(s), n);
  }

  lemma {:induction false} SquaredDeviationsOfConstant(s: seq<real>, c: real, m: real)
    requires forall i :: 0 <= i < |s| ==> s[i] == c
    ensures SquaredDeviations(s, m) == |s| as real * (c - m) * (c - m)
  {
    if s != [] {
      SquaredDeviationsOfConstant(s[..|s| - 1], c, m);
    }
  }

  /** A window of one repeated energy has that energy as mean and no
      variance. */
  lemma ConstantWindow(s: seq<real>, c: real)
    requires |s| > 0
    requires forall i :: 0 <= i < |s| ==> s[i] == c
    ensures Mean(s) == c && Variance(s) == 0.0
  {
    MeanWithin(s, c, c);
    SquaredDeviationsOfConstant(s, c, c);
  }

  /** The beat test `energy > mean + sensitivity * sqrt(variance) * 2`, with
      the square root taken out: the right-hand side is at least the mean, so
      the test holds exactly when `energy - mean` is positive and its square
      exceeds `4 * sensitivity^2 * variance` (see `ThresholdWithoutSqrt`). */
  predicate ExceedsThreshold(energy: real, mean: real, variance: real, sensitivity: real)
  {
    energy - mean > 0.0 && (energy - mean) * (energy - mean) > 4.0 * sensitivity * sensitivity * variance
  }

  /** For any standard deviation (a non-negative square root of the
      variance) the square-root form of the threshold and `ExceedsThreshold`
      agree. */
  lemma ThresholdWithoutSqrt(energy: real, mean: real, variance: real, sensitivity: real, stdDev: real)
    requires sensitivity >= 0.0
    requires stdDev >= 0.0 && stdDev * stdDev == variance
    ensures energy > mean + sensitivity * stdDev * 2.0
            <==> ExceedsThreshold(energy, mean, variance, sensitivity)
  {
    var d := energy - mean;
    var k := sensitivity * stdDev * 2.0;
    assert k >= 0.0 by {
      if sensitivity > 0.0 && stdDev > 0.0 {
        ProductSigns(sensitivity, stdDev);
      }
    }
    assert k * k == 4.0 * sensitivity * sensitivity * variance;
    if d > k {
      SquareMonotonic(k, d);
    } else if 0.0 <= d < k {
      SquareMonotonic(d, k);
    }
  }

  /** The threshold is never below the window mean: a beat needs the energy
      strictly above the mean, and with sensitivity 0 or a flat window that
      is also enough. */
  lemma ThresholdAtLeastMean(energy: real, mean: real, variance: real, sensitivity: real)
    requires sensitivity >= 0.0 && variance >= 0.0
    ensures ExceedsThreshold(energy, mean, variance, sensitivity) ==> energy > mean
    ensures sensitivity == 0.0 || variance == 0.0 ==>
              (ExceedsThreshold(energy, mean, variance, sensitivity) <==> energy > mean)
  {
    if (sensitivity == 0.0 || variance == 0.0) && energy > mean {
      assert 4.0 * sensitivity * sensitivity * variance == 0.0;
      SquareAbove(energy - mean, 4.0 * sensitivity * sensitivity * variance);
    }
  }

  /** Silence never exceeds the threshold of a window of non-negative
      energies: its mean is non-negative, so energy 0 is not above it. */
  lemma SilenceNeverExceeds(window: seq<real>, sensitivity: real)
    requires |window| > 0
    requires forall i :: 0 <= i < |window| ==> window[i] >= 0.0
    ensures !ExceedsThreshold(0.0, Mean(window), Variance(window), sensitivity)
  {
    SumNonNegative(window);
    ProductSigns(Mean(window), |window| as real);
  }

  /** `energyHistory.append(e)` followed by `removeFirst()` when over
      capacity: the window keeps the newest `HistorySize` energies in
      arrival order. */
  function Window(history: seq<real>, energy: real): (r: seq<real>)
    requires |history| <= HistorySize
    ensures |r| == if |history| < HistorySize then |history| + 1 else HistorySize
    ensures r[|r| - 1] == energy
    ensures |history| < HistorySize ==> r == history + [energy]
    ensures |history| == HistorySize ==> r == history[1..] + [energy]
  {
    var appended := history + [energy];
    if |appended| > HistorySize then appended[1..] else appended
  }

  /** The newest `HistorySize` energies of a stream, oldest first. */
  function Newest(stream: seq<real>): (r: seq<real>)
    ensures |r| == if |stream| < HistorySize then |stream| else HistorySize
  {
    if |stream| <= HistorySize then stream else stream[|stream| - HistorySize..]
  }

  /** One window update turns the newest `HistorySize` energies of a stream
      into the newest `HistorySize` of that stream extended by the new
      energy. */
  lemma WindowKeepsNewest(stream: seq<real>, energy: real)
    ensures Window(Newest(stream), energy) == Newest(stream + [energy])
  {
    if |stream| >= HistorySize {
      assert (stream + [energy])[|stream| + 1 - HistorySize..]
          == stream[|stream| - HistorySize..][1..] + [energy];
    }
  }

  /** `now.timeIntervalSince(lastBeatTime) > minimumBeatInterval`; the
      initial `Date.distantPast` always passes. */
  predicate RefractoryElapsed(lastBeat: Option<real>, now: real)
  {
    lastBeat.None? || now - lastBeat.value > MinimumBeatInterval
  }

  /** Whether `detectBeat` fires, given the window that already holds the
      new energy. */
  predicate BeatFires(window: seq<real>, energy: real, sensitivity: real, lastBeat: Option<real>, now: real)
  {
    && |window| >= HistorySize
    && ExceedsThreshold(energy, Mean(window), Variance(window), sensitivity)
    && RefractoryElapsed(lastBeat, now)
  }

  /** `BeatFires` is the source's condition: a full window, the energy above
      `mean + sensitivity * stddev * 2`, and more than 150 ms since the last
      beat. */
  lemma BeatFiresExactly(window: seq<real>, energy: real, sensitivity: real,
                         lastBeat: Option<real>, now: real, stdDev: real)
    requires |window| > 0 && sensitivity >= 0.0
    requires stdDev >= 0.0 && stdDev * stdDev == Variance(window)
    ensures BeatFires(window, energy, sensitivity, lastBeat, now)
            <==> && |window| >= HistorySize
                 && energy > Mean(window) + sensitivity * stdDev * 2.0
                 && RefractoryElapsed(lastBeat, now)
  {
    ThresholdWithoutSqrt(energy, Mean(window), Variance(window), sensitivity, stdDev);
  }

  /** A spike above a flat window fires at any sensitivity in [0, 1]: after
      42 equal energies `c`, any energy `e > c` exceeds the threshold. */
  lemma {:induction false} SpikeAfterFlatWindowExceeds(flat: seq<real>, c: real, e: real, sensitivity: real)
    requires |flat| == HistorySize - 1
    requires forall i :: 0 <= i < |flat| ==> flat[i] == c
    requires e > c && 0.0 <= sensitivity <= 1.0
    ensures ExceedsThreshold(e, Mean(flat + [e]), Variance(flat + [e]), sensitivity)
  {
    var w := flat + [e];
    var delta := e - c;
    assert w[..|w| - 1] == flat;
    SumBounds(flat, c, c);
    assert Sum(w) == 42.0 * c + e;
    var m := Mean(w);
    assert m == c + delta / 43.0;
    SquaredDeviationsOfConstant(flat, c, m);
    assert SquaredDeviations(w, m) == 42.0 * (c - m) * (c - m) + (e - m) * (e - m);
    assert c - m == -delta / 43.0;
    assert e - m == 42.0 * delta / 43.0;
    var dd := delta * delta;
    assert SquaredDeviations(w, m) == 42.0 * dd / 43.0;
    assert Variance(w) == 42.0 * dd / (43.0 * 43.0);
    assert (e - m) * (e - m) == 42.0 * 42.0 * dd / (43.0 * 43.0);
    assert sensitivity * sensitivity <= 1.0 by {
      if sensitivity > 0.0 {
        ProductSigns(1.0 - sensitivity, sensitivity);
      }
    }
    var q := 4.0 * sensitivity * sensitivity;
    assert q <= 4.0;
    SquareAbove(delta, 0.0);
    SpikeDominates(dd, q, (e - m) * (e - m), q * Variance(w));
    assert q * Variance(w) == 4.0 * sensitivity * sensitivity * Variance(w);
    assert ExceedsThreshold(e, m, Variance(w), sensitivity);
  }

  /** The arithmetic core of `SpikeAfterFlatWindowExceeds`, over the
      squared spike height `dd`. */
  lemma SpikeDominates(dd: real, q: real, deviation: real, bound: real)
    requires dd > 0.0 && q <= 4.0
    requires deviation == 42.0 * 42.0 * dd / (43.0 * 43.0)
    requires bound == q * (42.0 * dd / (43.0 * 43.0))
    ensures deviation > bound
  {
    ProductSigns(42.0 - q, dd);
    assert deviation - bound == (42.0 - q) * dd * 42.0 / (43.0 * 43.0);
  }

  /** Consecutive beat times are more than 150 ms apart. */
  ghost predicate BeatsSpaced(times: seq<real>)
  {
    forall i :: 0 < i < |times| ==> times[i] - times[i - 1] > MinimumBeatInterval
  }

  /** A beat more than 150 ms after the latest one keeps the beats spaced. */
  lemma BeatsSpacedExtend(times: seq<real>, t: real)
    requires BeatsSpaced(times)
    requires times != [] ==> t - times[|times| - 1] > MinimumBeatInterval
    ensures BeatsSpaced(times + [t])
  {
  }

  /** Hence any two beats, not only consecutive ones, are. */
  lemma {:induction false} BeatsSpacedPairwise(times: seq<real>, i: nat, j: nat)
    requires BeatsSpaced(times) && i < j < |times|
    ensures times[j] - times[i] > MinimumBeatInterval
    decreases j - i
  {
    if j > i + 1 {
      BeatsSpacedPairwise(times, i, j - 1);
      assert times[j] - times[j - 1] > MinimumBeatInterval;
    }
  }

  /** `calculateLowFrequencyEnergy`: 0 for a buffer shorter than 1024
      samples; otherwise the average magnitude of the 6 lowest FFT bins,
      whose magnitudes are given. */
  function LowFrequencyEnergy(samples: seq<real>, bassMagnitudes: seq<real>): (energy: real)
    requires |bassMagnitudes| == LowFreqBins
    ensures |samples| < BufferSize ==> energy == 0.0
    ensures |samples| >= BufferSize ==> energy * LowFreqBins as real == Sum(bassMagnitudes)
  {
    if |samples| < BufferSize then 0.0 else Sum(bassMagnitudes) / LowFreqBins as real
  }

  /** The magnitudes are square roots, so the bass energy is never
      negative. */
  lemma LowFrequencyEnergyNonNegative(samples: seq<real>, bassMagnitudes: seq<real>)
    requires |bassMagnitudes| == LowFreqBins
    requires forall i :: 0 <= i < |bassMagnitudes| ==> bassMagnitudes[i] >= 0.0
    ensures LowFrequencyEnergy(samples, bassMagnitudes) >= 0.0
  {
    SumNonNegative(bassMagnitudes);
  }

  class AudioAnalyzer {
    var isAnalyzing: bool
    /** The transient "beat" indicator. */
    var beatDetected: bool
    var sensitivity: real
    var energyHistory: seq<real>
    /** `None` stands for `Date.distantPast`. */
    var lastBeatTime: Option<real>
    /** The times at which beats fired, oldest first. */
    ghost var beatTimes: seq<real>
    /** Every energy detected since the history was last cleared, oldest
        first. */
    ghost var arrivals: seq<real>

    ghost predicate Valid()
      reads this
    {
      && energyHistory == Newest(arrivals)
      && (forall i :: 0 <= i < |energyHistory| ==> energyHistory[i] >= 0.0)
      && 0.0 <= sensitivity <= 1.0
      && (lastBeatTime.None? <==> beatTimes == [])
      && (lastBeatTime.Some? ==> beatTimes[|beatTimes| - 1] == lastBeatTime.value)
      && BeatsSpaced(beatTimes)
    }

    constructor ()
      ensures Valid()
      ensures !isAnalyzing && !beatDetected && sensitivity == 0.5
      ensures energyHistory == [] && lastBeatTime.None? && beatTimes == [] && arrivals == []
    {
      isAnalyzing := false;
      beatDetected := false;
      sensitivity := 0.5;
      energyHistory := [];
      lastBeatTime := None;
      beatTimes := [];
      arrivals := [];
    }

    /** `start()`: a no-op while analyzing; otherwise analysis begins when
        microphone access is granted and the audio engine starts. */
    method Start(permissionGranted: bool, engineStarted: bool)
      requires Valid()
      modifies this
      ensures Valid()
      ensures old(isAnalyzing) ==> unchanged(this)
      ensures !old(isAnalyzing) ==> isAnalyzing == (permissionGranted && engineStarted)
      ensures energyHistory == old(energyHistory) && sensitivity == old(sensitivity)
      ensures lastBeatTime == old(lastBeatTime) && beatDetected == old(beatDetected)
      ensures beatTimes == old(beatTimes) && arrivals == old(arrivals)
    {
      if isAnalyzing {
        return;
      }
      if permissionGranted && engineStarted {
        isAnalyzing := true;
      }
    }

    /** `stop()`: a no-op unless analyzing; otherwise clears the indicator
        and empties the energy history. */
    method Stop()
      requires Valid()
      modifies this
      ensures Valid()
      ensures !old(isAnalyzing) ==> unchanged(this)
      ensures old(isAnalyzing) ==> !isAnalyzing && !beatDetected && energyHistory == [] && arrivals == []
      ensures sensitivity == old(sensitivity) && lastBeatTime == old(lastBeatTime)
      ensures beatTimes == old(beatTimes)
    {
      if !isAnalyzing {
        return;
      }
      isAnalyzing := false;
      beatDetected := false;
      energyHistory := [];
      arrivals := [];
    }

    /** `toggle()`: stop when analyzing, start otherwise. */
    method Toggle(permissionGranted: bool, engineStarted: bool)
      requires Valid()
      modifies this
      ensures Valid()
      ensures isAnalyzing == (!old(isAnalyzing) && permissionGranted && engineStarted)
      ensures old(isAnalyzing) ==> energyHistory == [] && !beatDetected
      ensures !old(isAnalyzing) ==> energyHistory == old(energyHistory) && beatDetected == old(beatDetected)
      ensures !old(isAnalyzing) ==> arrivals == old(arrivals)
      ensures sensitivity == old(sensitivity) && lastBeatTime == old(lastBeatTime)
      ensures beatTimes == old(beatTimes)
    {
      if isAnalyzing {
        Stop();
      } else {
        Start(permissionGranted, engineStarted);
      }
    }

    /** `setSensitivity(_:)`: clamps to [0, 1]. */
    method SetSensitivity(newSensitivity: real)
      requires Valid()
      modifies this
      ensures Valid()
      ensures sensitivity == ClampReal(newSensitivity, 0.0, 1.0)
      ensures isAnalyzing == old(isAnalyzing) && beatDetected == old(beatDetected)
      ensures energyHistory == old(energyHistory) && lastBeatTime == old(lastBeatTime)
      ensures beatTimes == old(beatTimes) && arrivals == old(arrivals)
    {
      sensitivity := ClampReal(newSensitivity, 0.0, 1.0);
    }

    /** The first half of `detectBeat`: append the energy to the history
        and drop the oldest one once there are more than 43. */
    method RecordEnergy(energy: real)
      requires Valid()
      requires energy >= 0.0
      modifies this
      ensures Valid()
      ensures energyHistory == Window(old(energyHistory), energy)
      ensures arrivals == old(arrivals) + [energy]
      ensures isAnalyzing == old(isAnalyzing) && beatDetected == old(beatDetected)
      ensures sensitivity == old(sensitivity) && lastBeatTime == old(lastBeatTime)
      ensures beatTimes == old(beatTimes)
    {
      WindowKeepsNewest(arrivals, energy);
      arrivals := arrivals + [energy];
      energyHistory := energyHistory + [energy];
      if |energyHistory| > HistorySize {
        energyHistory := energyHistory[1..];
      }
    }

    /** `detectBeat(energy:)` at time `now`. `fired` stands for the beat
        callback being invoked. Its only caller passes a bass energy, which
        is never negative. */
    method DetectBeat(energy: real, now: real) returns (fired: bool)
      requires Valid()
      requires energy >= 0.0
      modifies this
      ensures Valid()
      ensures energyHistory == Window(old(energyHistory), energy)
      ensures fired == BeatFires(energyHistory, energy, sensitivity, old(lastBeatTime), now)
      ensures |energyHistory| < HistorySize ==> !fired
      ensures lastBeatTime == if fired then Some(now) else old(lastBeatTime)
      ensures beatTimes == if fired then old(beatTimes) + [now] else old(beatTimes)
      ensures beatDetected == (fired || old(beatDetected))
      ensures arrivals == old(arrivals) + [energy]
      ensures isAnalyzing == old(isAnalyzing) && sensitivity == old(sensitivity)
    {
      RecordEnergy(energy);
      if |energyHistory| < HistorySize {
        fired := false;
        return;
      }
      var averageEnergy := Mean(energyHistory);
      var variance := Variance(energyHistory);
      fired := ExceedsThreshold(energy, averageEnergy, variance, sensitivity)
               && RefractoryElapsed(lastBeatTime, now);
      if fired {
        BeatsSpacedExtend(beatTimes, now);
        lastBeatTime := Some(now);
        beatDetected := true;
        beatTimes := beatTimes + [now];
      }
    }

    /** `processAudioBuffer(_:)` given the buffer's samples, the magnitudes
        of its 6 lowest FFT bins (square roots, so never negative) and the
        time: the bass energy goes to `DetectBeat`. Every energy is then
        non-negative, so a short buffer's energy 0 never exceeds the
        threshold. */
    method ProcessAudioBuffer(samples: seq<real>, bassMagnitudes: seq<real>, now: real)
      returns (fired: bool)
      requires Valid()
      requires |bassMagnitudes| == LowFreqBins
      requires forall i :: 0 <= i < |bassMagnitudes| ==> bassMagnitudes[i] >= 0.0
      modifies this
      ensures Valid()
      ensures energyHistory == Window(old(energyHistory), LowFrequencyEnergy(samples, bassMagnitudes))
      ensures |samples| < BufferSize ==> energyHistory[|energyHistory| - 1] == 0.0 && !fired
      ensures fired == BeatFires(energyHistory, LowFrequencyEnergy(samples, bassMagnitudes),
                                 sensitivity, old(lastBeatTime), now)
      ensures lastBeatTime == if fired then Some(now) else old(lastBeatTime)
      ensures beatTimes == if fired then old(beatTimes) + [now] else old(beatTimes)
      ensures beatDetected == (fired || old(beatDetected))
      ensures arrivals == old(arrivals) + [LowFrequencyEnergy(samples, bassMagnitudes)]
      ensures isAnalyzing == old(isAnalyzing) && sensitivity == old(sensitivity)
    {
      var energy := LowFrequencyEnergy(samples, bassMagnitudes);
      LowFrequencyEnergyNonNegative(samples, bassMagnitudes);
      fired := DetectBeat(energy, now);
      if |samples| < BufferSize && |energyHistory| >= HistorySize {
        SilenceNeverExceeds(energyHistory, sensitivity);
      }
    }
  }
}
