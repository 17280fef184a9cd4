/** The spectral utilities of lib/audio_utils.js: log-spaced binning, bin
    ranges, dominant and average frequency, bass energy, note naming, frame
    size and amplitude multiplier, and the device lookups.

    `Math.log10`, `Math.log2` and `Math.pow(10, _)` are passed in as the
    function-typed parameters `log10`, `log2` and `pow10`; everything computed
    from their results is exact real arithmetic. */
module AudioUtils {
  import opened Common

  // ---------------------------------------------------------------------
  // Devices and the first-match lookups
  // ---------------------------------------------------------------------

  /** One entry of the device list reported by the capture library. */
  datatype Device = Device(id: int, name: string, defaultSampleRate: real, maxInputChannels: int)

  /** Index of the first device named `name` (what `Array.prototype.find` visits first). */
  function FirstNamed(devices: seq<Device>, name: string): (r: Option<nat>)
    ensures r.None? ==> forall j :: 0 <= j < |devices| ==> devices[j].name != name
    ensures r.Some? ==> r.value < |devices| && devices[r.value].name == name
    ensures r.Some? ==> forall j :: 0 <= j < r.value ==> devices[j].name != name
  {
    if devices == [] then None
    else if devices[0].name == name then Some(0)
    else match FirstNamed(devices[1..], name)
      case None => None
      case Some(k) => Some(k + 1)
  }

  /** `findIdByName(name, array)`: the id of the first device with that name, or null. */
  function FindIdByName(name: string, devices: seq<Device>): (r: Option<int>)
    ensures r.None? <==> forall j :: 0 <= j < |devices| ==> devices[j].name != name
    ensures r.Some? ==> exists k :: 0 <= k < |devices| && devices[k].name == name && devices[k].id == r.value
                          && forall j :: 0 <= j < k ==> devices[j].name != name
  {
    match FirstNamed(devices, name)
    case None => None
    case Some(k) => Some(devices[k].id)
  }

  /** `checkDeviceByName(devices, name)`: whether the first device of that name has at least two input channels. */
  function CheckDeviceByName(devices: seq<Device>, name: string): (r: bool)
    ensures r <==> exists k :: 0 <= k < |devices| && devices[k].name == name && devices[k].maxInputChannels >= 2
                      && forall j :: 0 <= j < k ==> devices[j].name != name
  {
    match FirstNamed(devices, name)
    case None => false
    case Some(k) => devices[k].maxInputChannels >= 2
  }

  /** `getDefaultSampleRate(devices, id)`: a search loop returning the default
      sample rate of the first device with that id, or null. */
  method GetDefaultSampleRate(devices: seq<Device>, id: int) returns (r: Option<real>)
    ensures r.None? <==> forall j :: 0 <= j < |devices| ==> devices[j].id != id
    ensures r.Some? ==> exists k :: 0 <= k < |devices| && devices[k].id == id && r.value == devices[k].defaultSampleRate
                          && forall j :: 0 <= j < k ==> devices[j].id != id
  {
    var i := 0;
    while i < |devices|
      invariant 0 <= i <= |devices|
      invariant forall j :: 0 <= j < i ==> devices[j].id != id
    {
      if devices[i].id == id {
        return Some(devices[i].defaultSampleRate);
      }
      i := i + 1;
    }
    return None;
  }

  // ---------------------------------------------------------------------
  // Frame size and amplitude multiplier
  // ---------------------------------------------------------------------

  /** n is 1, 2, 4, 8, ... */
  predicate IsPowerOfTwo(n: int)
    decreases if n > 0 then n else 0
  {
    n == 1 || (n > 1 && n % 2 == 0 && IsPowerOfTwo(n / 2))
  }

  /** The smallest power of two that is at least x, searched upwards from p. */
  function CeilPowerOfTwo(x: real, p: nat): (r: nat)
    requires IsPowerOfTwo(p)
    requires p == 1 || ((p / 2) as real) < x
    ensures IsPowerOfTwo(r) && x <= r as real
    ensures r == 1 || ((r / 2) as real) < x
    ensures p <= r
    decreases if (p as real) < x then x.Floor + 1 - p else 0
  {
    if x <= p as real then p else CeilPowerOfTwo(x, 2 * p)
  }

  /** Two distinct powers of two are at least a factor two apart. */
  lemma {:induction false} PowersOfTwoApart(p: int, q: int)
    requires IsPowerOfTwo(p) && IsPowerOfTwo(q) && p < q
    ensures 2 * p <= q
    decreases q
  {
    if p > 1 {
      PowersOfTwoApart(p / 2, q / 2);
    }
  }

  /** `calculateFrameSize(sampleRate, fps)` with exact arithmetic: 1024 below
      1024 samples per frame, otherwise the next power of two. */
  function CalculateFrameSize(sampleRate: real, fps: real): (r: nat)
    requires fps > 0.0
    ensures IsPowerOfTwo(r) && 1024 <= r
    ensures sampleRate / fps < 1024.0 ==> r == 1024
    ensures 1024.0 <= sampleRate / fps ==> sampleRate / fps <= r as real && ((r / 2) as real) < sampleRate / fps
  {
    var frameSize := sampleRate / fps;
    if frameSize < 1024.0 then 1024 else CeilPowerOfTwo(frameSize, 1)
  }

  /** No smaller power of two holds a frame of sampleRate / fps samples. */
  lemma FrameSizeIsSmallestPowerOfTwo(sampleRate: real, fps: real, p: int)
    requires fps > 0.0 && 1024.0 <= sampleRate / fps
    requires IsPowerOfTwo(p) && sampleRate / fps <= p as real
    ensures CalculateFrameSize(sampleRate, fps) <= p
  {
    var r := CalculateFrameSize(sampleRate, fps);
    if p < r {
      PowersOfTwoApart(p, r);
    }
  }

  /** `calculateMultiplier(frameSize, analyzerBins, ajustment)`. */
  function CalculateMultiplier(frameSize: real, analyzerBins: int, ajustment: real, log2: real -> real): (r: real)
    requires frameSize != 0.0
    ensures analyzerBins == 0 ==> r == 0.0
  {
    var multiplier1 := 1024.0 / frameSize;
    var multiplier2 := if analyzerBins == 0 then 0.0 else log2(analyzerBins as real);
    multiplier1 * multiplier2 * ajustment
  }

  /** Doubling the frame size halves the multiplier. */
  lemma MultiplierHalvesWithFrameSize(frameSize: real, analyzerBins: int, ajustment: real, log2: real -> real)
    requires frameSize != 0.0
    ensures CalculateMultiplier(2.0 * frameSize, analyzerBins, ajustment, log2)
            == CalculateMultiplier(frameSize, analyzerBins, ajustment, log2) / 2.0
  {
  }

  /** Each doubling of the bin count adds (1024 / frameSize) * ajustment, as
      the comment at the source's definition states. */
  lemma MultiplierStepPerBinDoubling(frameSize: real, analyzerBins: int, ajustment: real, log2: real -> real)
    requires frameSize != 0.0 && analyzerBins != 0
    requires log2(2.0 * analyzerBins as real) == log2(analyzerBins as real) + 1.0
    ensures CalculateMultiplier(frameSize, 2 * analyzerBins, ajustment, log2)
            == CalculateMultiplier(frameSize, analyzerBins, ajustment, log2) + 1024.0 / frameSize * ajustment
  {
    assert (2 * analyzerBins) as real == 2.0 * analyzerBins as real;
  }

  // ---------------------------------------------------------------------
  // Bin ranges
  // ---------------------------------------------------------------------

  /** Lower edge of bin i: 10^(i * binSize + log10(minFreq)). */
  function RangeEdge(i: nat, numBins: nat, minFreq: real, maxFreq: real, log10: real -> real, pow10: real -> real): real
    requires numBins > 0
  {
    var minLog := log10(minFreq);
    var binSize := (log10(maxFreq) - minLog) / numBins as real;
    pow10(i as real * binSize + minLog)
  }

  /** `BinsfrequencyRanges(numBins, minFreq, maxFreq)`: one [low, high] pair per bin. */
  function BinsFrequencyRanges(numBins: nat, minFreq: real, maxFreq: real, log10: real -> real, pow10: real -> real): (r: seq<(real, real)>)
    ensures |r| == numBins
    ensures forall i :: 0 <= i < numBins - 1 ==> r[i].1 == r[i + 1].0
    ensures numBins > 0 ==> r[0].0 == pow10(log10(minFreq)) && r[numBins - 1].1 == pow10(log10(maxFreq))
  {
    if numBins == 0 then []
    else
      var r := seq(numBins, i requires 0 <= i < numBins =>
                     (RangeEdge(i, numBins, minFreq, maxFreq, log10, pow10),
                      RangeEdge(i + 1, numBins, minFreq, maxFreq, log10, pow10)));
      LastEdgeIsMax(numBins, minFreq, maxFreq, log10, pow10);
      r
  }

  lemma LastEdgeIsMax(numBins: nat, minFreq: real, maxFreq: real, log10: real -> real, pow10: real -> real)
    requires numBins > 0
    ensures RangeEdge(numBins, numBins, minFreq, maxFreq, log10, pow10) == pow10(log10(maxFreq))
    ensures RangeEdge(0, numBins, minFreq, maxFreq, log10, pow10) == pow10(log10(minFreq))
  {
    var minLog := log10(minFreq);
    var d := log10(maxFreq) - minLog;
    var n := numBins as real;
    assert n * (d / n) == d;
  }

  /** With exact logarithms the ranges start at minFreq and end at maxFreq. */
  lemma RangesCoverBounds(numBins: nat, minFreq: real, maxFreq: real, log10: real -> real, pow10: real -> real)
    requires numBins > 0
    requires pow10(log10(minFreq)) == minFreq && pow10(log10(maxFreq)) == maxFreq
    ensures BinsFrequencyRanges(numBins, minFreq, maxFreq, log10, pow10)[0].0 == minFreq
    ensures BinsFrequencyRanges(numBins, minFreq, maxFreq, log10, pow10)[numBins - 1].1 == maxFreq
  {
  }

  /** With an increasing log10 and pow10 and minFreq < maxFreq, each range is non-empty and they are ordered. */
  lemma RangesIncreasing(numBins: nat, minFreq: real, maxFreq: real, log10: real -> real, pow10: real -> real, i: nat, j: nat)
    requires numBins > 0 && i < j < numBins
    requires log10(minFreq) < log10(maxFreq)
    requires forall x, y :: x < y ==> pow10(x) < pow10(y)
    ensures var r := BinsFrequencyRanges(numBins, minFreq, maxFreq, log10, pow10);
            r[i].0 < r[i].1 <= r[j].0 < r[j].1
  {
    RangeElement(numBins, minFreq, maxFreq, log10, pow10, i);
    RangeElement(numBins, minFreq, maxFreq, log10, pow10, j);
    EdgeIncreases(numBins, minFreq, maxFreq, log10, pow10, i, i + 1);
    EdgeIncreases(numBins, minFreq, maxFreq, log10, pow10, j, j + 1);
    if i + 1 < j {
      EdgeIncreases(numBins, minFreq, maxFreq, log10, pow10, i + 1, j);
    }
  }

  lemma RangeElement(numBins: nat, minFreq: real, maxFreq: real, log10: real -> real, pow10: real -> real, i: nat)
    requires i < numBins
    ensures BinsFrequencyRanges(numBins, minFreq, maxFreq, log10, pow10)[i]
            == (RangeEdge(i, numBins, minFreq, maxFreq, log10, pow10), RangeEdge(i + 1, numBins, minFreq, maxFreq, log10, pow10))
  {
  }

  lemma EdgeIncreases(numBins: nat, minFreq: real, maxFreq: real, log10: real -> real, pow10: real -> real, a: nat, b: nat)
    requires numBins > 0 && a < b
    requires log10(minFreq) < log10(maxFreq)
    requires forall x, y :: x < y ==> pow10(x) < pow10(y)
    ensures RangeEdge(a, numBins, minFreq, maxFreq, log10, pow10) < RangeEdge(b, numBins, minFreq, maxFreq, log10, pow10)
  {
    var minLog := log10(minFreq);
    var binSize := (log10(maxFreq) - minLog) / numBins as real;
    DivPositive(log10(maxFreq) - minLog, numBins as real);
    MulIncreases(a as real, b as real, binSize);
    var x := a as real * binSize + minLog;
    var y := b as real * binSize + minLog;
    assert pow10(x) < pow10(y);
  }

  lemma MulIncreases(a: real, b: real, c: real)
    requires a < b && c > 0.0
    ensures a * c < b * c
  {
  }

  lemma DivPositive(x: real, y: real)
    requires x > 0.0 && y > 0.0
    ensures x / y > 0.0
  {
  }

  // ---------------------------------------------------------------------
  // Log-spaced bin aggregation
  // ---------------------------------------------------------------------

  type Positive = n: int | n >= 1 witness 1

  /** The bin layout of `Binsamplitudes`: bin count, frequency bounds and aggregation factor. */
  datatype BinLayout = BinLayout(numBins: nat, minFreq: real, maxFreq: real, aggregationFactor: Positive)

  /** `Math.ceil(numBins / aggregationFactor)`. */
  function AdjustedNumBins(layout: BinLayout): (n: nat)
    ensures layout.numBins <= n * layout.aggregationFactor
    ensures n == 0 || (n - 1) * layout.aggregationFactor < layout.numBins
  {
    CeilDivision(layout.numBins, layout.aggregationFactor);
    (layout.numBins + layout.aggregationFactor - 1) / layout.aggregationFactor
  }

  /** (x + f - 1) / f is the least n with x <= n * f. */
  lemma CeilDivision(x: nat, f: int)
    requires f >= 1
    ensures var n := (x + f - 1) / f; x <= n * f && (n == 0 || (n - 1) * f < x)
  {
    var q, r := (x + f - 1) / f, (x + f - 1) % f;
    assert x + f - 1 == q * f + r && 0 <= r < f;
    assert (q - 1) * f == q * f - f;
  }

  /** `Math.floor((log10(f) - minLog) / binSize)`, or None where the source
      computes a non-finite value (no bins, or a zero bin size), which no
      bounds test lets through. */
  function RawBinIndex(f: real, layout: BinLayout, log10: real -> real): Option<int>
  {
    if layout.numBins == 0 then None
    else
      var minLog := log10(layout.minFreq);
      var binSize := (log10(layout.maxFreq) - minLog) / layout.numBins as real;
      if binSize == 0.0 then None else Some(((log10(f) - minLog) / binSize).Floor)
  }

  /** The output bin a point of frequency f is added to, or None when it is skipped. */
  function BinTarget(f: real, layout: BinLayout, log10: real -> real): (r: Option<nat>)
    ensures r.Some? ==> r.value < AdjustedNumBins(layout) && layout.minFreq <= f <= layout.maxFreq
  {
    if f < layout.minFreq || f > layout.maxFreq then None
    else match RawBinIndex(f, layout, log10)
      case None => None
      case Some(binIndex) =>
        var adjusted := binIndex / layout.aggregationFactor;
        if 0 <= adjusted < AdjustedNumBins(layout) then Some(adjusted) else None
  }

  /** Sum of the amplitudes of the points that land in output bin b. */
  function BinTotal(frequencies: seq<real>, amplitudes: seq<real>, b: nat, layout: BinLayout, log10: real -> real): real
    requires |frequencies| == |amplitudes|
  {
    if frequencies == [] then 0.0
    else
      var n := |frequencies| - 1;
      BinTotal(frequencies[..n], amplitudes[..n], b, layout, log10)
        + (if BinTarget(frequencies[n], layout, log10) == Some(b) then amplitudes[n] else 0.0)
  }

  /** Sum of the amplitudes of all points that land in some bin. */
  function KeptTotal(frequencies: seq<real>, amplitudes: seq<real>, layout: BinLayout, log10: real -> real): real
    requires |frequencies| == |amplitudes|
  {
    if frequencies == [] then 0.0
    else
      var n := |frequencies| - 1;
      KeptTotal(frequencies[..n], amplitudes[..n], layout, log10)
        + (if BinTarget(frequencies[n], layout, log10).Some? then amplitudes[n] else 0.0)
  }

  /** The per-bin amplitude sequence `Binsamplitudes` returns. */
  function BinsSpec(frequencies: seq<real>, amplitudes: seq<real>, layout: BinLayout, log10: real -> real): (r: seq<real>)
    requires |frequencies| == |amplitudes|
    ensures |r| == AdjustedNumBins(layout)
  {
    seq(AdjustedNumBins(layout), b requires 0 <= b => BinTotal(frequencies, amplitudes, b, layout, log10))
  }

  /** `Binsamplitudes`: accumulates every kept amplitude into its bin of a zero-filled array. */
  method BinsAmplitudes(frequencies: seq<real>, amplitudes: seq<real>, layout: BinLayout, log10: real -> real)
    returns (r: seq<real>)
    requires |frequencies| == |amplitudes|
    ensures r == BinsSpec(frequencies, amplitudes, layout, log10)
  {
    var adjustedNumBins := AdjustedNumBins(layout);
    var binAmplitudes := new real[adjustedNumBins](_ => 0.0);
    var i := 0;
    while i < |frequencies|
      invariant 0 <= i <= |frequencies|
      invariant forall b :: 0 <= b < adjustedNumBins ==>
                  binAmplitudes[b] == BinTotal(frequencies[..i], amplitudes[..i], b, layout, log10)
    {
      ghost var before := binAmplitudes[..];
      var f := frequencies[i];
      ghost var target := BinTarget(f, layout, log10);
      if f >= layout.minFreq && f <= layout.maxFreq {
        var binIndex := RawBinIndex(f, layout, log10);
        if binIndex.Some? {
          var adjustedBinIndex := binIndex.value / layout.aggregationFactor;
          if 0 <= adjustedBinIndex < adjustedNumBins {
            assert target == Some(adjustedBinIndex);
            binAmplitudes[adjustedBinIndex] := binAmplitudes[adjustedBinIndex] + amplitudes[i];
          }
        }
      }
      assert binAmplitudes[..] == AddToBin(before, target, amplitudes[i]);
      AddToBinStep(before, frequencies, amplitudes, i, layout, log10);
      i := i + 1;
    }
    assert frequencies[..i] == frequencies && amplitudes[..i] == amplitudes;
    r := binAmplitudes[..];
    BinsSpecPointwise(r, frequencies, amplitudes, layout, log10);
  }

  /** The bins after adding amplitude a to the bin a point lands in, if any. */
  function AddToBin(bins: seq<real>, target: Option<nat>, a: real): (r: seq<real>)
    ensures |r| == |bins|
  {
    if target.Some? && target.value < |bins| then bins[target.value := bins[target.value] + a] else bins
  }

  /** Adding point i to its bin turns the totals of the first i points into
      those of the first i + 1. */
  lemma AddToBinStep(before: seq<real>, frequencies: seq<real>, amplitudes: seq<real>, i: nat, layout: BinLayout, log10: real -> real)
    requires |frequencies| == |amplitudes| && i < |frequencies| && |before| == AdjustedNumBins(layout)
    requires forall b :: 0 <= b < |before| ==> before[b] == BinTotal(frequencies[..i], amplitudes[..i], b, layout, log10)
    ensures var after := AddToBin(before, BinTarget(frequencies[i], layout, log10), amplitudes[i]);
            forall b :: 0 <= b < |after| ==> after[b] == BinTotal(frequencies[..i + 1], amplitudes[..i + 1], b, layout, log10)
  {
    forall b | 0 <= b < |before|
      ensures AddToBin(before, BinTarget(frequencies[i], layout, log10), amplitudes[i])[b]
              == BinTotal(frequencies[..i + 1], amplitudes[..i + 1], b, layout, log10)
    {
      BinTotalStep(frequencies, amplitudes, i, b, layout, log10);
    }
  }

  lemma BinTotalStep(frequencies: seq<real>, amplitudes: seq<real>, i: nat, b: nat, layout: BinLayout, log10: real -> real)
    requires |frequencies| == |amplitudes| && i < |frequencies|
    ensures BinTotal(frequencies[..i + 1], amplitudes[..i + 1], b, layout, log10)
            == BinTotal(frequencies[..i], amplitudes[..i], b, layout, log10)
               + (if BinTarget(frequencies[i], layout, log10) == Some(b) then amplitudes[i] else 0.0)
  {
    assert frequencies[..i + 1][..i] == frequencies[..i];
    assert amplitudes[..i + 1][..i] == amplitudes[..i];
  }

  lemma BinsSpecPointwise(r: seq<real>, frequencies: seq<real>, amplitudes: seq<real>, layout: BinLayout, log10: real -> real)
    requires |frequencies| == |amplitudes| && |r| == AdjustedNumBins(layout)
    requires forall b :: 0 <= b < |r| ==> r[b] == BinTotal(frequencies, amplitudes, b, layout, log10)
    ensures r == BinsSpec(frequencies, amplitudes, layout, log10)
  {
  }

  predicate NonNegative(s: seq<real>)
  {
    forall i :: 0 <= i < |s| ==> s[i] >= 0.0
  }

  /** With non-negative amplitudes every bin is non-negative. */
  lemma {:induction false} BinsNonNegative(frequencies: seq<real>, amplitudes: seq<real>, b: nat, layout: BinLayout, log10: real -> real)
    requires |frequencies| == |amplitudes| && NonNegative(amplitudes)
    ensures BinTotal(frequencies, amplitudes, b, layout, log10) >= 0.0
  {
    if frequencies != [] {
      var n := |frequencies| - 1;
      BinsNonNegative(frequencies[..n], amplitudes[..n], b, layout, log10);
    }
  }

  /** The bins together hold exactly the amplitudes of the kept points: a kept
      point adds to its own bin and to no other. */
  lemma {:induction false} BinsConserveAmplitude(frequencies: seq<real>, amplitudes: seq<real>, layout: BinLayout, log10: real -> real)
    requires |frequencies| == |amplitudes|
    ensures Sum(BinsSpec(frequencies, amplitudes, layout, log10)) == KeptTotal(frequencies, amplitudes, layout, log10)
  {
    var k := AdjustedNumBins(layout);
    if frequencies == [] {
      assert BinsSpec(frequencies, amplitudes, layout, log10) == seq(k, _ => 0.0);
      SumZeros(k);
    } else {
      var n := |frequencies| - 1;
      var fs, as_ := frequencies[..n], amplitudes[..n];
      BinsConserveAmplitude(fs, as_, layout, log10);
      var before := BinsSpec(fs, as_, layout, log10);
      var after := BinsSpec(frequencies, amplitudes, layout, log10);
      match BinTarget(frequencies[n], layout, log10)
      case None =>
        assert after == before;
      case Some(t) =>
        assert after == before[t := before[t] + amplitudes[n]];
        SumUpdate(before, t, amplitudes[n]);
    }
  }

  /** With an increasing log10 and minFreq < maxFreq, every point in
      [minFreq, maxFreq) lands in a bin: only the top edge can fall out. */
  lemma InteriorPointIsBinned(f: real, layout: BinLayout, log10: real -> real)
    requires layout.numBins > 0
    requires forall x, y :: x < y ==> log10(x) < log10(y)
    requires layout.minFreq <= f < layout.maxFreq
    ensures BinTarget(f, layout, log10).Some?
  {
    var minLog := log10(layout.minFreq);
    var d := log10(layout.maxFreq) - minLog;
    var x := log10(f) - minLog;
    assert d > 0.0;
    assert 0.0 <= x < d by {
      if layout.minFreq < f {
        assert log10(layout.minFreq) < log10(f);
      }
      assert log10(f) < log10(layout.maxFreq);
    }
    var binSize := d / layout.numBins as real;
    ScaledIndexInRange(x, d, layout.numBins as real);
    var binIndex := (x / binSize).Floor;
    assert RawBinIndex(f, layout, log10) == Some(binIndex);
    AggregatedIndexInRange(binIndex, layout);
  }

  lemma ScaledIndexInRange(x: real, d: real, n: real)
    requires 0.0 <= x < d && n > 0.0
    ensures d / n != 0.0
    ensures 0.0 <= x / (d / n) < n
  {
    var b := d / n;
    DivPositive(d, n);
    assert b * n == d;
    DivBelow(x, b, n);
    DivNonNegative(x, b);
  }

  lemma AggregatedIndexInRange(binIndex: int, layout: BinLayout)
    requires 0 <= binIndex < layout.numBins
    ensures 0 <= binIndex / layout.aggregationFactor < AdjustedNumBins(layout)
  {
    var fct := layout.aggregationFactor;
    var k := AdjustedNumBins(layout);
    var adjusted := binIndex / fct;
    assert adjusted * fct <= binIndex;
    assert adjusted * fct < k * fct;
    LessByFactor(adjusted, k, fct);
  }

  lemma LessByFactor(a: int, b: int, c: int)
    requires c > 0 && a * c < b * c
    ensures a < b
  {
    assert (b - a) * c > 0;
  }

  lemma DivBelow(x: real, b: real, n: real)
    requires b > 0.0 && x < n * b
    ensures x / b < n
  {
  }

  lemma DivNonNegative(x: real, b: real)
    requires b > 0.0 && x >= 0.0
    ensures x / b >= 0.0
  {
  }

  // ---------------------------------------------------------------------
  // Dominant and average frequency
  // ---------------------------------------------------------------------

  /** `{ frequency, amplitude }`. */
  datatype Peak = Peak(frequency: real, amplitude: real)

  /** `{ averageFrequency, dominantFrequency }`. */
  datatype FrequencySummary = FrequencySummary(averageFrequency: real, dominantFrequency: Peak)

  /** Index of the dominant point among the first n, or -1 while no amplitude exceeded 0. */
  function DominantIndex(amplitudes: seq<real>, n: nat): (k: int)
    requires n <= |amplitudes|
    ensures -1 <= k < n
  {
    if n == 0 then -1
    else
      var k := DominantIndex(amplitudes, n - 1);
      var current := if k < 0 then 0.0 else amplitudes[k];
      if amplitudes[n - 1] > current then n - 1 else k
  }

  /** The dominant peak: the point with the first strictly largest amplitude, or {0, 0}. */
  function DominantPeak(frequencies: seq<real>, amplitudes: seq<real>): Peak
    requires |frequencies| == |amplitudes|
  {
    var k := DominantIndex(amplitudes, |amplitudes|);
    if k < 0 then Peak(0.0, 0.0) else Peak(frequencies[k], amplitudes[k])
  }

  /** The dominant index is the first index of the largest amplitude when some
      amplitude is positive, and -1 exactly when none is. */
  lemma {:induction false} DominantIndexIsFirstMaximum(amplitudes: seq<real>, n: nat)
    requires n <= |amplitudes|
    ensures DominantIndex(amplitudes, n) == -1 <==> forall j :: 0 <= j < n ==> amplitudes[j] <= 0.0
    ensures var k := DominantIndex(amplitudes, n);
            k >= 0 ==> amplitudes[k] > 0.0
                       && (forall j :: 0 <= j < n ==> amplitudes[j] <= amplitudes[k])
                       && (forall j :: 0 <= j < k ==> amplitudes[j] < amplitudes[k])
  {
    if n > 0 {
      DominantIndexIsFirstMaximum(amplitudes, n - 1);
    }
  }

  /** The dominant peak's amplitude is at least every amplitude and at least 0;
      it is a point of the input unless no amplitude is positive. */
  lemma DominantPeakIsMaximal(frequencies: seq<real>, amplitudes: seq<real>)
    requires |frequencies| == |amplitudes|
    ensures forall j :: 0 <= j < |amplitudes| ==> amplitudes[j] <= DominantPeak(frequencies, amplitudes).amplitude
    ensures DominantPeak(frequencies, amplitudes).amplitude >= 0.0
    ensures (forall j :: 0 <= j < |amplitudes| ==> amplitudes[j] <= 0.0) ==> DominantPeak(frequencies, amplitudes) == Peak(0.0, 0.0)
    ensures (exists j :: 0 <= j < |amplitudes| && amplitudes[j] > 0.0) ==>
              exists k :: 0 <= k < |amplitudes| && DominantPeak(frequencies, amplitudes) == Peak(frequencies[k], amplitudes[k])
                          && forall j :: 0 <= j < k ==> amplitudes[j] < amplitudes[k]
  {
    DominantIndexIsFirstMaximum(amplitudes, |amplitudes|);
  }

  /** Sum of frequency * amplitude over the points louder than the threshold. */
  function WeightedFrequency(frequencies: seq<real>, amplitudes: seq<real>, threshold: real): real
    requires |frequencies| == |amplitudes|
  {
    if frequencies == [] then 0.0
    else
      var n := |frequencies| - 1;
      WeightedFrequency(frequencies[..n], amplitudes[..n], threshold)
        + (if amplitudes[n] <= threshold then 0.0 else frequencies[n] * amplitudes[n])
  }

  /** Sum of the amplitudes louder than the threshold. */
  function LoudAmplitude(amplitudes: seq<real>, threshold: real): (r: real)
    ensures NonNegative(amplitudes) ==> r >= 0.0
  {
    if amplitudes == [] then 0.0
    else
      var n := |amplitudes| - 1;
      LoudAmplitude(amplitudes[..n], threshold) + (if amplitudes[n] <= threshold then 0.0 else amplitudes[n])
  }

  /** The average frequency: the weighted sum over 1 + the loud amplitude. */
  function AverageFrequency(frequencies: seq<real>, amplitudes: seq<real>, threshold: real): real
    requires |frequencies| == |amplitudes| && NonNegative(amplitudes)
  {
    WeightedFrequency(frequencies, amplitudes, threshold) / (1.0 + LoudAmplitude(amplitudes, threshold))
  }

  /** `getAverageAndDominantFrequency(frequencies, amplitudes, amplitudeThreshold)`. */
  method GetAverageAndDominantFrequency(frequencies: seq<real>, amplitudes: seq<real>, amplitudeThreshold: real)
    returns (r: FrequencySummary)
    requires |frequencies| == |amplitudes| && NonNegative(amplitudes)
    ensures r.averageFrequency == WeightedFrequency(frequencies, amplitudes, amplitudeThreshold)
                                  / (1.0 + LoudAmplitude(amplitudes, amplitudeThreshold))
    ensures r.dominantFrequency == DominantPeak(frequencies, amplitudes)
  {
    var totalFrequency := 0.0;
    var totalAmplitude := 1.0;
    var dominantFrequency := Peak(0.0, 0.0);
    var i := 0;
    while i < |frequencies|
      invariant 0 <= i <= |frequencies|
      invariant totalFrequency == WeightedFrequency(frequencies[..i], amplitudes[..i], amplitudeThreshold)
      invariant totalAmplitude == 1.0 + LoudAmplitude(amplitudes[..i], amplitudeThreshold)
      invariant totalAmplitude >= 1.0
      invariant dominantFrequency == DominantPeak(frequencies[..i], amplitudes[..i])
    {
      SummaryStep(frequencies, amplitudes, amplitudeThreshold, i);
      if amplitudes[i] > dominantFrequency.amplitude {
        dominantFrequency := Peak(frequencies[i], amplitudes[i]);
      }
      if amplitudes[i] <= amplitudeThreshold {
        i := i + 1;
        continue;
      }
      totalFrequency := totalFrequency + frequencies[i] * amplitudes[i];
      totalAmplitude := totalAmplitude + amplitudes[i];
      i := i + 1;
    }
    assert frequencies[..i] == frequencies && amplitudes[..i] == amplitudes;
    var averageFrequency := totalFrequency / totalAmplitude;
    r := FrequencySummary(averageFrequency, dominantFrequency);
  }

  /** How one more point changes the partial sums and the dominant peak. */
  lemma SummaryStep(frequencies: seq<real>, amplitudes: seq<real>, threshold: real, i: nat)
    requires |frequencies| == |amplitudes| && i < |frequencies|
    ensures WeightedFrequency(frequencies[..i + 1], amplitudes[..i + 1], threshold)
            == WeightedFrequency(frequencies[..i], amplitudes[..i], threshold)
               + (if amplitudes[i] <= threshold then 0.0 else frequencies[i] * amplitudes[i])
    ensures LoudAmplitude(amplitudes[..i + 1], threshold)
            == LoudAmplitude(amplitudes[..i], threshold) + (if amplitudes[i] <= threshold then 0.0 else amplitudes[i])
    ensures var p := DominantPeak(frequencies[..i], amplitudes[..i]);
            DominantPeak(frequencies[..i + 1], amplitudes[..i + 1])
            == if amplitudes[i] > p.amplitude then Peak(frequencies[i], amplitudes[i]) else p
  {
    assert frequencies[..i + 1][..i] == frequencies[..i];
    assert amplitudes[..i + 1][..i] == amplitudes[..i];
    DominantIndexSame(amplitudes[..i + 1], amplitudes[..i], i);
  }

  /** The dominant index of the first n points depends on those points only. */
  lemma {:induction false} DominantIndexSame(a: seq<real>, b: seq<real>, n: nat)
    requires n <= |a| && n <= |b| && a[..n] == b[..n]
    ensures DominantIndex(a, n) == DominantIndex(b, n)
  {
    if n > 0 {
      assert a[..n - 1] == b[..n - 1];
      DominantIndexSame(a, b, n - 1);
      assert a[n - 1] == a[..n][n - 1];
    }
  }

  /** A point at or below the threshold changes neither sum, wherever it sits. */
  lemma {:induction false} QuietPointIgnored(f1: seq<real>, a1: seq<real>, f: real, a: real, f2: seq<real>, a2: seq<real>, threshold: real)
    requires |f1| == |a1| && |f2| == |a2| && a <= threshold
    ensures WeightedFrequency(f1 + [f] + f2, a1 + [a] + a2, threshold) == WeightedFrequency(f1 + f2, a1 + a2, threshold)
    ensures LoudAmplitude(a1 + [a] + a2, threshold) == LoudAmplitude(a1 + a2, threshold)
  {
    QuietPointIgnoredWeighted(f1, a1, f, a, f2, a2, threshold);
    QuietPointIgnoredLoud(a1, a, a2, threshold);
  }

  lemma {:induction false} QuietPointIgnoredWeighted(f1: seq<real>, a1: seq<real>, f: real, a: real, f2: seq<real>, a2: seq<real>, threshold: real)
    requires |f1| == |a1| && |f2| == |a2| && a <= threshold
    ensures WeightedFrequency(f1 + [f] + f2, a1 + [a] + a2, threshold) == WeightedFrequency(f1 + f2, a1 + a2, threshold)
  {
    if f2 == [] {
      EmptyRight(f1 + [f]);
      EmptyRight(a1 + [a]);
      EmptyRight(f1);
      EmptyRight(a1);
      WeightedSnoc(f1, a1, f, a, threshold);
    } else {
      var n := |f2| - 1;
      QuietPointIgnoredWeighted(f1, a1, f, a, f2[..n], a2[..n], threshold);
      SplitLast(f1 + [f], f2);
      SplitLast(a1 + [a], a2);
      SplitLast(f1, f2);
      SplitLast(a1, a2);
      WeightedSnoc(f1 + [f] + f2[..n], a1 + [a] + a2[..n], f2[n], a2[n], threshold);
      WeightedSnoc(f1 + f2[..n], a1 + a2[..n], f2[n], a2[n], threshold);
    }
  }

  /** The weighted sum after appending one point. */
  lemma WeightedSnoc(frequencies: seq<real>, amplitudes: seq<real>, f: real, a: real, threshold: real)
    requires |frequencies| == |amplitudes|
    ensures WeightedFrequency(frequencies + [f], amplitudes + [a], threshold)
            == WeightedFrequency(frequencies, amplitudes, threshold) + (if a <= threshold then 0.0 else f * a)
  {
    assert (frequencies + [f])[..|frequencies|] == frequencies && (amplitudes + [a])[..|amplitudes|] == amplitudes;
  }

  /** x + y, for a non-empty y, is x + (y without its last element) followed by that element. */
  lemma SplitLast(x: seq<real>, y: seq<real>)
    requires y != []
    ensures x + y == (x + y[..|y| - 1]) + [y[|y| - 1]]
  {
  }

  lemma EmptyRight(x: seq<real>)
    ensures x + [] == x
  {
  }

  lemma {:induction false} QuietPointIgnoredLoud(a1: seq<real>, a: real, a2: seq<real>, threshold: real)
    requires a <= threshold
    ensures LoudAmplitude(a1 + [a] + a2, threshold) == LoudAmplitude(a1 + a2, threshold)
  {
    if a2 == [] {
      EmptyRight(a1 + [a]);
      EmptyRight(a1);
      LoudSnoc(a1, a, threshold);
    } else {
      var n := |a2| - 1;
      QuietPointIgnoredLoud(a1, a, a2[..n], threshold);
      SplitLast(a1 + [a], a2);
      SplitLast(a1, a2);
      LoudSnoc(a1 + [a] + a2[..n], a2[n], threshold);
      LoudSnoc(a1 + a2[..n], a2[n], threshold);
    }
  }

  /** The loud amplitude after appending one point. */
  lemma LoudSnoc(amplitudes: seq<real>, a: real, threshold: real)
    ensures LoudAmplitude(amplitudes + [a], threshold)
            == LoudAmplitude(amplitudes, threshold) + (if a <= threshold then 0.0 else a)
  {
    assert (amplitudes + [a])[..|amplitudes|] == amplitudes;
  }

  /** When no point is louder than the threshold the average is 0. */
  lemma {:induction false} QuietFrameAverageIsZero(frequencies: seq<real>, amplitudes: seq<real>, threshold: real)
    requires |frequencies| == |amplitudes| && NonNegative(amplitudes)
    requires forall j :: 0 <= j < |amplitudes| ==> amplitudes[j] <= threshold
    ensures WeightedFrequency(frequencies, amplitudes, threshold) == 0.0
    ensures LoudAmplitude(amplitudes, threshold) == 0.0
    ensures AverageFrequency(frequencies, amplitudes, threshold) == 0.0
  {
    if frequencies != [] {
      var n := |frequencies| - 1;
      QuietFrameAverageIsZero(frequencies[..n], amplitudes[..n], threshold);
    }
  }

  /** The weighted sum is bounded by top * loud amplitude when all frequencies lie in [0, top]. */
  lemma WeightedFrequencyBounded(frequencies: seq<real>, amplitudes: seq<real>, threshold: real, top: real)
    requires |frequencies| == |amplitudes| && NonNegative(amplitudes)
    requires forall j :: 0 <= j < |frequencies| ==> 0.0 <= frequencies[j] <= top
    ensures 0.0 <= WeightedFrequency(frequencies, amplitudes, threshold)
    ensures WeightedFrequency(frequencies, amplitudes, threshold) <= top * LoudAmplitude(amplitudes, threshold)
  {
    WeightedPrefixBounded(frequencies, amplitudes, threshold, top, |frequencies|);
    assert frequencies[..|frequencies|] == frequencies && amplitudes[..|amplitudes|] == amplitudes;
    LoudScaledIsProduct(amplitudes, threshold, top);
  }

  /** The loud amplitude with every loud point scaled by top, summed point by point. */
  function LoudScaled(amplitudes: seq<real>, threshold: real, top: real): real
  {
    if amplitudes == [] then 0.0
    else
      var n := |amplitudes| - 1;
      LoudScaled(amplitudes[..n], threshold, top) + (if amplitudes[n] <= threshold then 0.0 else top * amplitudes[n])
  }

  lemma {:induction false} LoudScaledIsProduct(amplitudes: seq<real>, threshold: real, top: real)
    ensures LoudScaled(amplitudes, threshold, top) == top * LoudAmplitude(amplitudes, threshold)
  {
    if amplitudes != [] {
      var n := |amplitudes| - 1;
      LoudScaledIsProduct(amplitudes[..n], threshold, top);
      Distribute(top, LoudAmplitude(amplitudes[..n], threshold), if amplitudes[n] <= threshold then 0.0 else amplitudes[n]);
    }
  }

  lemma Distribute(top: real, l: real, x: real)
    ensures top * (l + x) == top * l + top * x
  {
  }

  /** The bound on every prefix, by induction on its length. */
  lemma {:induction false} WeightedPrefixBounded(frequencies: seq<real>, amplitudes: seq<real>, threshold: real, top: real, i: nat)
    requires |frequencies| == |amplitudes| && NonNegative(amplitudes) && i <= |frequencies|
    requires forall j :: 0 <= j < |frequencies| ==> 0.0 <= frequencies[j] <= top
    ensures 0.0 <= WeightedFrequency(frequencies[..i], amplitudes[..i], threshold) <= LoudScaled(amplitudes[..i], threshold, top)
  {
    if i == 0 {
      assert frequencies[..0] == [] && amplitudes[..0] == [];
    } else {
      var k := i - 1;
      WeightedPrefixBounded(frequencies, amplitudes, threshold, top, k);
      WeightedPrefixStep(frequencies, amplitudes, threshold, k);
      LoudScaledPrefixStep(amplitudes, threshold, top, k);
      ProductBounded(frequencies[k], top, amplitudes[k]);
      LinearStep(WeightedFrequency(frequencies[..k], amplitudes[..k], threshold), LoudScaled(amplitudes[..k], threshold, top),
                 frequencies[k] * amplitudes[k], top * amplitudes[k], amplitudes[k] <= threshold);
    }
  }

  lemma WeightedPrefixStep(frequencies: seq<real>, amplitudes: seq<real>, threshold: real, k: nat)
    requires |frequencies| == |amplitudes| && k < |frequencies|
    ensures WeightedFrequency(frequencies[..k + 1], amplitudes[..k + 1], threshold)
            == WeightedFrequency(frequencies[..k], amplitudes[..k], threshold)
               + (if amplitudes[k] <= threshold then 0.0 else frequencies[k] * amplitudes[k])
  {
    assert frequencies[..k + 1][..k] == frequencies[..k] && amplitudes[..k + 1][..k] == amplitudes[..k];
  }

  lemma LoudScaledPrefixStep(amplitudes: seq<real>, threshold: real, top: real, k: nat)
    requires k < |amplitudes|
    ensures LoudScaled(amplitudes[..k + 1], threshold, top)
            == LoudScaled(amplitudes[..k], threshold, top) + (if amplitudes[k] <= threshold then 0.0 else top * amplitudes[k])
  {
    assert amplitudes[..k + 1][..k] == amplitudes[..k];
  }

  lemma LinearStep(w: real, l: real, x: real, y: real, skip: bool)
    requires 0.0 <= w <= l && 0.0 <= x <= y
    ensures 0.0 <= w + (if skip then 0.0 else x) <= l + (if skip then 0.0 else y)
  {
  }

  lemma ProductBounded(f: real, top: real, a: real)
    requires 0.0 <= f <= top && a >= 0.0
    ensures 0.0 <= f * a <= top * a
  {
  }

  /** With frequencies in [0, top] the damped average lies in [0, top). */
  lemma AverageWithinBand(frequencies: seq<real>, amplitudes: seq<real>, threshold: real, top: real)
    requires |frequencies| == |amplitudes| && NonNegative(amplitudes) && top > 0.0
    requires forall j :: 0 <= j < |frequencies| ==> 0.0 <= frequencies[j] <= top
    ensures 0.0 <= AverageFrequency(frequencies, amplitudes, threshold) < top
  {
    WeightedFrequencyBounded(frequencies, amplitudes, threshold, top);
    DampedRatioBounded(WeightedFrequency(frequencies, amplitudes, threshold), LoudAmplitude(amplitudes, threshold), top);
  }

  lemma DampedRatioBounded(w: real, l: real, top: real)
    requires 0.0 <= w <= top * l && l >= 0.0 && top > 0.0
    ensures 0.0 <= w / (1.0 + l) < top
  {
    assert top * l < top * (1.0 + l);
    DivBelow(w, 1.0 + l, top);
    DivNonNegative(w, 1.0 + l);
  }

  // ---------------------------------------------------------------------
  // Bass amplitude
  // ---------------------------------------------------------------------

  /** Sum of the amplitudes whose frequency lies in [low, high]. */
  function BassSum(frequencies: seq<real>, amplitudes: seq<real>, low: int, high: int): real
    requires |frequencies| == |amplitudes|
  {
    if frequencies == [] then 0.0
    else
      var n := |frequencies| - 1;
      BassSum(frequencies[..n], amplitudes[..n], low, high)
        + (if low as real <= frequencies[n] <= high as real then amplitudes[n] else 0.0)
  }

  /** `getBassAmplitude(frequencies, amplitudes, bassFrequencyRange)`; the two
      bounds are the integers `parseInt` yields for the configured range. */
  method GetBassAmplitude(frequencies: seq<real>, amplitudes: seq<real>, bassFrequencyRange: (int, int))
    returns (bassAmplitude: real)
    requires |frequencies| == |amplitudes|
    ensures bassAmplitude == 2.5 * BassSum(frequencies, amplitudes, bassFrequencyRange.0, bassFrequencyRange.1)
  {
    bassAmplitude := 0.0;
    var i := 0;
    while i < |frequencies|
      invariant 0 <= i <= |frequencies|
      invariant bassAmplitude == 2.5 * BassSum(frequencies[..i], amplitudes[..i], bassFrequencyRange.0, bassFrequencyRange.1)
    {
      assert frequencies[..i + 1][..i] == frequencies[..i];
      assert amplitudes[..i + 1][..i] == amplitudes[..i];
      if frequencies[i] >= bassFrequencyRange.0 as real && frequencies[i] <= bassFrequencyRange.1 as real {
        bassAmplitude := bassAmplitude + amplitudes[i] * 2.5;
      }
      i := i + 1;
    }
    assert frequencies[..i] == frequencies && amplitudes[..i] == amplitudes;
  }

  /** Widening the bass range never lowers the bass sum of non-negative amplitudes. */
  lemma {:induction false} BassSumMonotone(frequencies: seq<real>, amplitudes: seq<real>, low: int, high: int, low': int, high': int)
    requires |frequencies| == |amplitudes| && NonNegative(amplitudes)
    requires low' <= low && high <= high'
    ensures 0.0 <= BassSum(frequencies, amplitudes, low, high) <= BassSum(frequencies, amplitudes, low', high')
  {
    if frequencies != [] {
      var n := |frequencies| - 1;
      BassSumMonotone(frequencies[..n], amplitudes[..n], low, high, low', high');
    }
  }

  /** Points outside the range contribute nothing; with no point inside the sum is 0. */
  lemma {:induction false} BassSumOutsideRange(frequencies: seq<real>, amplitudes: seq<real>, low: int, high: int)
    requires |frequencies| == |amplitudes|
    requires forall j :: 0 <= j < |frequencies| ==> frequencies[j] < low as real || frequencies[j] > high as real
    ensures BassSum(frequencies, amplitudes, low, high) == 0.0
  {
    if frequencies != [] {
      var n := |frequencies| - 1;
      BassSumOutsideRange(frequencies[..n], amplitudes[..n], low, high);
    }
  }

  // ---------------------------------------------------------------------
  // Note naming
  // ---------------------------------------------------------------------

  const NoteNames: seq<string> := ["C", "C#", "D", "D#", "E", "F", "F#", "G", "G#", "A", "A#", "B"]

  /** `Math.floor(12 * Math.log2(frequency / 440) + 0.5)`: semitones from A4. */
  function SemitonesFromA4(frequency: real, log2: real -> real): (r: int)
    ensures r as real - 0.5 <= 12.0 * log2(frequency / 440.0) < r as real + 0.5
  {
    (12.0 * log2(frequency / 440.0) + 0.5).Floor
  }

  /** Note index and octave as the source computes them: a truncating `%`,
      `Math.floor` for the octave, a decrement when the index was negative and
      then an increment of any octave below 4. */
  function NoteAsWritten(semitonesFromA4: int): (r: (nat, int))
    ensures r.0 < 12
  {
    var noteIndex := JsRem(semitonesFromA4 + 9, 12);
    var octave := 4 + (semitonesFromA4 + 9) / 12;
    var (index, octave') := if noteIndex < 0 then (noteIndex + 12, octave - 1) else (noteIndex, octave);
    var octave'' := if octave' < 4 then octave' + 1 else octave';
    (index, octave'')
  }

  /** `findClosestNote(frequency)` exactly as written. */
  function FindClosestNoteAsWritten(frequency: real, log2: real -> real): (r: string)
    ensures frequency == 0.0 ==> r == "A0"
    ensures frequency != 0.0 ==>
              var s := SemitonesFromA4(frequency, log2);
              exists i: nat, o: int :: i < 12 && r == NoteNames[i] + IntToString(o)
                && 12 * (o - 4) + i == s + 9 + (if s + 9 < 0 && (s + 9) % 12 == 0 then 12 else 0)
  {
    if frequency == 0.0 then "A0"
    else
      var s := SemitonesFromA4(frequency, log2);
      NoteAsWrittenOffset(s);
      var (index, octave) := NoteAsWritten(s);
      NoteNames[index] + IntToString(octave)
  }

  /** The written code's note is the scientific one, moved up an octave on a C below C4. */
  lemma NoteAsWrittenOffset(s: int)
    ensures 12 * (NoteAsWritten(s).1 - 4) + NoteAsWritten(s).0 == s + 9 + (if s + 9 < 0 && (s + 9) % 12 == 0 then 12 else 0)
  {
    if s + 9 < 0 && (s + 9) % 12 == 0 {
      NoteAsWrittenOctaveTooHighForLowC(s);
    } else {
      NoteAsWrittenAgrees(s);
    }
  }

  /** Scientific pitch: the note index and octave of a semitone offset from A4 = index 9 of octave 4. */
  function Note(semitonesFromA4: int): (r: (nat, int))
    ensures r.0 < 12
    ensures 12 * (r.1 - 4) + r.0 == semitonesFromA4 + 9
  {
    ((semitonesFromA4 + 9) % 12, 4 + (semitonesFromA4 + 9) / 12)
  }

  /** `findClosestNote` with the octave of C notes below C4 corrected (see Findings). */
  function FindClosestNote(frequency: real, log2: real -> real): (r: string)
    ensures frequency == 0.0 ==> r == "A0"
    ensures frequency != 0.0 ==>
              exists i: nat, o: int :: i < 12 && r == NoteNames[i] + IntToString(o)
                && 12 * (o - 4) + i == SemitonesFromA4(frequency, log2) + 9
  {
    if frequency == 0.0 then "A0"
    else
      var (index, octave) := Note(SemitonesFromA4(frequency, log2));
      NoteNames[index] + IntToString(octave)
  }

  /** A note name determines its semitone offset: distinct offsets give distinct (note, octave) pairs. */
  lemma NoteIsInjective(s: int, t: int)
    requires Note(s) == Note(t)
    ensures s == t
  {
  }

  /** 440 Hz is "A4" when log2(1) = 0; frequency 0 is the sentinel "A0". */
  lemma ClosestNoteAnchors(log2: real -> real)
    requires log2(1.0) == 0.0
    ensures FindClosestNote(440.0, log2) == "A4"
    ensures FindClosestNoteAsWritten(440.0, log2) == "A4"
    ensures FindClosestNote(0.0, log2) == "A0"
  {
    assert SemitonesFromA4(440.0, log2) == 0;
    assert IntToString(4) == "4";
  }

  /** The written code agrees with scientific pitch except on C below C4. */
  lemma NoteAsWrittenAgrees(s: int)
    requires s + 9 >= 0 || (s + 9) % 12 != 0
    ensures NoteAsWritten(s) == Note(s)
  {
    if s + 9 < 0 {
      var q := (-(s + 9)) / 12;
      var m := (-(s + 9)) % 12;
      assert -(s + 9) == 12 * q + m && 0 < m < 12;
      assert (s + 9) % 12 == 12 - m;
      assert (s + 9) / 12 == -q - 1;
    }
  }

  /** On a C below C4 (s + 9 a negative multiple of 12) the written code names
      the octave above: 12 * (octave - 4) + index overshoots s + 9 by 12. */
  lemma NoteAsWrittenOctaveTooHighForLowC(s: int)
    requires s + 9 < 0 && (s + 9) % 12 == 0
    ensures NoteAsWritten(s).0 == Note(s).0 == 0
    ensures NoteAsWritten(s).1 == Note(s).1 + 1
  {
    assert JsRem(s + 9, 12) == 0;
  }

  /** The note `findClosestNote` emits is the scientific-pitch one exactly
      when the frequency is the 0 sentinel or not a C below C4. */
  lemma ClosestNoteAsWrittenAgrees(frequency: real, log2: real -> real)
    ensures var s := SemitonesFromA4(frequency, log2);
            FindClosestNoteAsWritten(frequency, log2) == FindClosestNote(frequency, log2)
            <==> frequency == 0.0 || s + 9 >= 0 || (s + 9) % 12 != 0
  {
    var s := SemitonesFromA4(frequency, log2);
    if frequency != 0.0 {
      if s + 9 >= 0 || (s + 9) % 12 != 0 {
        NoteAsWrittenAgrees(s);
      } else {
        NoteAsWrittenOctaveTooHighForLowC(s);
        LowCNamesDiffer(Note(s).1);
      }
    }
  }

  /** C of octave o + 1 and C of octave o are written differently. */
  lemma LowCNamesDiffer(o: int)
    ensures NoteNames[0] + IntToString(o + 1) != NoteNames[0] + IntToString(o)
  {
    var w, c := NoteNames[0] + IntToString(o + 1), NoteNames[0] + IntToString(o);
    if w == c {
      assert w[1..] == IntToString(o + 1) && c[1..] == IntToString(o);
      IntToStringInjective(o + 1, o);
    }
  }

  /** A concrete case: 21 semitones below A4 is C3, which the written code calls "C4". */
  lemma LowCExample()
    ensures NoteNames[NoteAsWritten(-21).0] + IntToString(NoteAsWritten(-21).1) == "C4"
    ensures NoteNames[Note(-21).0] + IntToString(Note(-21).1) == "C3"
  {
    assert JsRem(-12, 12) == 0;
    assert NoteAsWritten(-21) == (0, 4);
    assert Note(-21) == (0, 3);
    assert IntToString(4) == "4";
    assert IntToString(3) == "3";
  }
}
