/** The audio server of audioServer.js: 16-bit PCM decoding, the
    `maxFrequency` filter over the FFT output, feature-frame assembly, the
    single capture reconfigured by `subscribe`, and the registry of
    per-connection `streaming` listeners gated by the global `isWSConnected`.

    The FFT (`fft` followed by `fftFreq`/`fftMag`), `calculateDB` and the
    logarithms are function-typed parameters; naudiodon's answer to a new
    capture request is the boolean `deviceOpens`. */
module AudioServer {
  import opened Common
  import opened AudioUtils
  import opened Protocol

  // ---------------------------------------------------------------------
  // Signed 16-bit little-endian samples
  // ---------------------------------------------------------------------

  predicate IsInt16(v: int)
  {
    -32768 <= v < 32768
  }

  /** `buffer.readInt16LE(i)` on the bytes at i and i + 1 (two's complement). */
  function ReadInt16LE(lo: Byte, hi: Byte): (v: int)
    ensures IsInt16(v)
    ensures v < 0 <==> hi >= 128
  {
    var u := lo + 256 * hi;
    if u >= 32768 then u - 65536 else u
  }

  /** `buffer.writeInt16LE(v, i)`: the low byte, then the high byte. */
  function WriteInt16LE(v: int): (Byte, Byte)
    requires IsInt16(v)
  {
    var u := if v < 0 then v + 65536 else v;
    (u % 256, u / 256)
  }

  lemma ReadAfterWrite(v: int)
    requires IsInt16(v)
    ensures ReadInt16LE(WriteInt16LE(v).0, WriteInt16LE(v).1) == v
  {
  }

  lemma WriteAfterRead(lo: Byte, hi: Byte)
    ensures WriteInt16LE(ReadInt16LE(lo, hi)) == (lo, hi)
  {
  }

  /** The samples of an even-length buffer, read two bytes at a time. */
  function Samples(bytes: seq<Byte>): (w: seq<int>)
    requires |bytes| % 2 == 0
    ensures |w| == |bytes| / 2
    ensures forall k :: 0 <= k < |w| ==> w[k] == ReadInt16LE(bytes[2 * k], bytes[2 * k + 1])
  {
    if bytes == [] then [] else [ReadInt16LE(bytes[0], bytes[1])] + Samples(bytes[2..])
  }

  /** The bytes `writeInt16LE` lays down for a sequence of samples. */
  function EncodeSamples(w: seq<int>): (bytes: seq<Byte>)
    requires forall k :: 0 <= k < |w| ==> IsInt16(w[k])
    ensures |bytes| == 2 * |w|
  {
    if w == [] then [] else [WriteInt16LE(w[0]).0, WriteInt16LE(w[0]).1] + EncodeSamples(w[1..])
  }

  lemma {:induction false} DecodeEncode(w: seq<int>)
    requires forall k :: 0 <= k < |w| ==> IsInt16(w[k])
    ensures Samples(EncodeSamples(w)) == w
  {
    if w != [] {
      DecodeEncode(w[1..]);
      var b := EncodeSamples(w);
      ReadAfterWrite(w[0]);
      assert b[2..] == EncodeSamples(w[1..]);
    }
  }

  lemma {:induction false} EncodeDecode(bytes: seq<Byte>)
    requires |bytes| % 2 == 0
    ensures EncodeSamples(Samples(bytes)) == bytes
  {
    if bytes != [] {
      EncodeDecode(bytes[2..]);
      var w := Samples(bytes);
      WriteAfterRead(bytes[0], bytes[1]);
      assert w[1..] == Samples(bytes[2..]);
      assert bytes == [bytes[0], bytes[1]] + bytes[2..];
    }
  }

  /** `filterAudio(buffer)`: a fresh buffer of the same length, filled by
      reading every sample and writing it back at the same offset. On an odd
      length the last `readInt16LE` reads past the end and throws (None). */
  method FilterAudio(buffer: array<Byte>) returns (r: Option<array<Byte>>)
    ensures r.None? <==> buffer.Length % 2 == 1
    ensures r.Some? ==> fresh(r.value) && r.value[..] == buffer[..]
  {
    var filteredBuffer := new Byte[buffer.Length](_ => 0);
    var i := 0;
    while i < buffer.Length
      invariant 0 <= i <= buffer.Length && i % 2 == 0
      invariant forall k :: 0 <= k < i ==> filteredBuffer[k] == buffer[k]
    {
      if i + 2 > buffer.Length {
        return None;
      }
      var sample := ReadInt16LE(buffer[i], buffer[i + 1]);
      WriteAfterRead(buffer[i], buffer[i + 1]);
      var (lo, hi) := WriteInt16LE(sample);
      filteredBuffer[i] := lo;
      filteredBuffer[i + 1] := hi;
      i := i + 2;
    }
    return Some(filteredBuffer);
  }

  /** `readInt16LE(i) / 32767` for every sample. */
  function Normalised(w: seq<int>): (data: seq<real>)
    ensures |data| == |w|
  {
    seq(|w|, k requires 0 <= k < |w| => w[k] as real / 32767.0)
  }

  /** A decoded value lies in [-32768/32767, 1]; only the sample -32768
      (bytes 0x00 0x80) falls below -1. */
  lemma DecodedRange(bytes: seq<Byte>, k: nat)
    requires |bytes| % 2 == 0 && k < |bytes| / 2
    ensures -32768.0 / 32767.0 <= Normalised(Samples(bytes))[k] <= 1.0
    ensures Normalised(Samples(bytes))[k] < -1.0 <==> bytes[2 * k] == 0 && bytes[2 * k + 1] == 128
  {
    var v := Samples(bytes)[k];
    assert v == ReadInt16LE(bytes[2 * k], bytes[2 * k + 1]);
    assert Normalised(Samples(bytes))[k] == v as real / 32767.0;
  }

  /** The two decoding loops of `audioToWS_Stream`: the normalised `data`
      and the raw `waveform`, over a buffer `filterAudio` returned. */
  method DecodeSamples(buffer: seq<Byte>) returns (data: seq<real>, waveform: seq<int>)
    requires |buffer| % 2 == 0
    ensures waveform == Samples(buffer)
    ensures data == Normalised(waveform)
  {
    data := [];
    var i := 0;
    while i < |buffer|
      invariant 0 <= i <= |buffer| && i % 2 == 0
      invariant |data| == i / 2
      invariant forall k :: 0 <= k < i / 2 ==> data[k] == ReadInt16LE(buffer[2 * k], buffer[2 * k + 1]) as real / 32767.0
    {
      data := data + [ReadInt16LE(buffer[i], buffer[i + 1]) as real / 32767.0];
      i := i + 2;
    }
    waveform := [];
    i := 0;
    while i < |buffer|
      invariant 0 <= i <= |buffer| && i % 2 == 0
      invariant |waveform| == i / 2
      invariant forall k :: 0 <= k < i / 2 ==> waveform[k] == ReadInt16LE(buffer[2 * k], buffer[2 * k + 1])
    {
      var sample := ReadInt16LE(buffer[i], buffer[i + 1]);
      waveform := waveform + [sample];
      i := i + 2;
    }
  }

  // ---------------------------------------------------------------------
  // The maxFrequency filter
  // ---------------------------------------------------------------------

  /** What the FFT stage yields: `fftFreq(phasors, sampleRate)` and `fftMag(phasors)`. */
  datatype Spectrum = Spectrum(frequencies: seq<real>, magnitudes: seq<real>)

  /** fft-js returns one magnitude per frequency, and magnitudes are never negative. */
  predicate ValidSpectrum(s: Spectrum)
  {
    |s.frequencies| == |s.magnitudes| && NonNegative(s.magnitudes)
  }

  ghost predicate ValidFft(fft: (seq<real>, real) -> Spectrum)
  {
    forall data, sampleRate :: ValidSpectrum(fft(data, sampleRate))
  }

  predicate Nondecreasing(s: seq<real>)
  {
    forall i, j :: 0 <= i < j < |s| ==> s[i] <= s[j]
  }

  /** `frequencies.filter(freq => freq <= maxFrequency)`. */
  function FilterFrequencies(frequencies: seq<real>, maxFrequency: real): (r: seq<real>)
    ensures |r| <= |frequencies|
    ensures forall k :: 0 <= k < |r| ==> r[k] <= maxFrequency
  {
    if frequencies == [] then []
    else
      var n := |frequencies| - 1;
      FilterFrequencies(frequencies[..n], maxFrequency) + (if frequencies[n] <= maxFrequency then [frequencies[n]] else [])
  }

  /** `magnitudes.filter((amp, index) => frequencies[index] <= maxFrequency)`
      where `frequencies` is the already filtered array: beyond its end the
      comparison is with `undefined` and fails. */
  function FilterAmplitudes(magnitudes: seq<real>, frequencies: seq<real>, maxFrequency: real): (r: seq<real>)
    ensures |r| <= |magnitudes|
  {
    if magnitudes == [] then []
    else
      var n := |magnitudes| - 1;
      FilterAmplitudes(magnitudes[..n], frequencies, maxFrequency)
        + (if n < |frequencies| && frequencies[n] <= maxFrequency then [magnitudes[n]] else [])
  }

  /** The filter keeps exactly the frequencies at or below the bound. */
  lemma {:induction false} FilterFrequenciesMembers(frequencies: seq<real>, maxFrequency: real, x: real)
    ensures x in FilterFrequencies(frequencies, maxFrequency) <==> x in frequencies && x <= maxFrequency
  {
    if frequencies != [] {
      var n := |frequencies| - 1;
      FilterFrequenciesMembers(frequencies[..n], maxFrequency, x);
      assert frequencies == frequencies[..n] + [frequencies[n]];
    }
  }

  /** Because every filtered frequency passes the test, the amplitude filter
      keeps a prefix of the magnitudes: as many as there are filtered frequencies. */
  lemma {:induction false} AmplitudesArePrefix(magnitudes: seq<real>, frequencies: seq<real>, maxFrequency: real)
    requires forall k :: 0 <= k < |frequencies| ==> frequencies[k] <= maxFrequency
    ensures FilterAmplitudes(magnitudes, frequencies, maxFrequency)
            == magnitudes[..if |magnitudes| <= |frequencies| then |magnitudes| else |frequencies|]
  {
    if magnitudes != [] {
      var n := |magnitudes| - 1;
      AmplitudesArePrefix(magnitudes[..n], frequencies, maxFrequency);
      if n < |frequencies| {
        assert magnitudes[..n] + [magnitudes[n]] == magnitudes[..n + 1];
      }
    }
  }

  /** A filter that keeps every element changes nothing. */
  lemma {:induction false} FilterKeepsAllBelow(frequencies: seq<real>, maxFrequency: real)
    requires forall k :: 0 <= k < |frequencies| ==> frequencies[k] <= maxFrequency
    ensures FilterFrequencies(frequencies, maxFrequency) == frequencies
  {
    if frequencies != [] {
      var n := |frequencies| - 1;
      FilterKeepsAllBelow(frequencies[..n], maxFrequency);
      assert frequencies[..n] + [frequencies[n]] == frequencies;
    }
  }

  /** On nondecreasing frequencies (as `fftFreq` yields them) the filter cuts
      off a suffix: what it keeps is a prefix, and everything after it is
      above the bound. */
  lemma {:induction false} SortedFilterIsPrefix(frequencies: seq<real>, maxFrequency: real)
    requires Nondecreasing(frequencies)
    ensures var r := FilterFrequencies(frequencies, maxFrequency);
            r == frequencies[..|r|] && forall k :: |r| <= k < |frequencies| ==> frequencies[k] > maxFrequency
  {
    if frequencies != [] {
      var n := |frequencies| - 1;
      var x := frequencies[n];
      if x <= maxFrequency {
        assert Nondecreasing(frequencies[..n]);
        FilterKeepsAllBelow(frequencies, maxFrequency);
      } else {
        SortedFilterIsPrefix(frequencies[..n], maxFrequency);
        var r := FilterFrequencies(frequencies[..n], maxFrequency);
        assert FilterFrequencies(frequencies, maxFrequency) == r;
        assert frequencies[..n][..|r|] == frequencies[..|r|];
      }
    }
  }

  /** The two filtered arrays of a spectrum fft-js produces have the same
      length, and the kept magnitudes are non-negative. */
  lemma FilteredSpectrumMatches(s: Spectrum, maxFrequency: real)
    requires ValidSpectrum(s)
    ensures var ff := FilterFrequencies(s.frequencies, maxFrequency);
            var fa := FilterAmplitudes(s.magnitudes, ff, maxFrequency);
            |fa| == |ff| && NonNegative(fa)
  {
    var ff := FilterFrequencies(s.frequencies, maxFrequency);
    AmplitudesArePrefix(s.magnitudes, ff, maxFrequency);
  }

  /** With nondecreasing FFT frequencies the filtered arrays stay index-aligned:
      the k-th kept amplitude is the magnitude of the k-th kept frequency. */
  lemma FilteredSpectrumAligned(s: Spectrum, maxFrequency: real)
    requires ValidSpectrum(s) && Nondecreasing(s.frequencies)
    ensures var ff := FilterFrequencies(s.frequencies, maxFrequency);
            var fa := FilterAmplitudes(s.magnitudes, ff, maxFrequency);
            |fa| == |ff| && forall k :: 0 <= k < |ff| ==> ff[k] == s.frequencies[k] && fa[k] == s.magnitudes[k]
  {
    var ff := FilterFrequencies(s.frequencies, maxFrequency);
    SortedFilterIsPrefix(s.frequencies, maxFrequency);
    AmplitudesArePrefix(s.magnitudes, ff, maxFrequency);
  }

  /** Out of order, the pairing is lost: the magnitude kept is the one at the
      index of the filtered array, not the one of the frequency kept. */
  lemma UnsortedFrequenciesMisalign()
    ensures FilterFrequencies([300.0, 100.0], 200.0) == [100.0]
    ensures FilterAmplitudes([1.0, 2.0], [100.0], 200.0) == [1.0]
  {
    assert [300.0, 100.0][..1] == [300.0];
    assert [1.0, 2.0][..1] == [1.0];
    assert FilterFrequencies([300.0], 200.0) == [];
    assert FilterAmplitudes([1.0], [100.0], 200.0) == [1.0];
  }

  // ---------------------------------------------------------------------
  // Feature-frame assembly
  // ---------------------------------------------------------------------

  /** The fields of the audio configuration the frame computation reads. */
  datatype AudioConfig = AudioConfig(
    maxFrequency: real,
    minFrequency: real,
    amplitudeThreshold: real,
    bassFrequencyRange: (int, int),
    analyzerBins: nat,
    multiplyerAjustment: real)

  /** `analyzer.amplitudes(frequencies, amplitudes, analyzerBins, minFrequency, maxFrequency)`
      with the default aggregation factor 1. */
  function AnalyzerLayout(config: AudioConfig): BinLayout
  {
    BinLayout(config.analyzerBins, config.minFrequency, config.maxFrequency, 1)
  }

  /** The filtered frequencies and amplitudes of the decoded samples. */
  function FilteredSpectrum(samples: seq<real>, fft: (seq<real>, real) -> Spectrum, sampleRate: real, config: AudioConfig)
    : (seq<real>, seq<real>)
  {
    var s := fft(samples, sampleRate);
    var frequencies := FilterFrequencies(s.frequencies, config.maxFrequency);
    (frequencies, FilterAmplitudes(s.magnitudes, frequencies, config.maxFrequency))
  }

  /** The frame `audioToWS_Stream` emits for a chunk, or None when the chunk
      has an odd length and `filterAudio` throws. */
  function FrameOf(bytes: seq<Byte>, fft: (seq<real>, real) -> Spectrum, calculateDB: seq<real> -> real,
                   sampleRate: real, multiplier: real, config: AudioConfig, log10: real -> real, log2: real -> real)
    : (r: Option<FeatureFrame>)
    requires ValidFft(fft)
    ensures r.Some? <==> |bytes| % 2 == 0
  {
    if |bytes| % 2 == 1 then None
    else Some(Features(Samples(bytes), fft, calculateDB, sampleRate, multiplier, config, log10, log2))
  }

  /** The eight fields computed from the decoded samples of a chunk. */
  function Features(waveform: seq<int>, fft: (seq<real>, real) -> Spectrum, calculateDB: seq<real> -> real,
                    sampleRate: real, multiplier: real, config: AudioConfig, log10: real -> real, log2: real -> real)
    : (r: FeatureFrame)
    requires ValidFft(fft)
    ensures r.waveform == waveform && r.AmplituteMultiplayer == multiplier
    ensures |r.analyzer| == config.analyzerBins
    ensures r.rms_db == calculateDB(Normalised(waveform))
  {
    var data := Normalised(waveform);
    var s := fft(data, sampleRate);
    var frequencies := FilterFrequencies(s.frequencies, config.maxFrequency);
    var amplitudes := FilterAmplitudes(s.magnitudes, frequencies, config.maxFrequency);
    FilteredSpectrumMatches(s, config.maxFrequency);
    SpectrumFeatures(data, waveform, frequencies, amplitudes, calculateDB, multiplier, config, log10, log2)
  }

  /** The fields of a frame from the kept part of its spectrum. */
  function SpectrumFeatures(data: seq<real>, waveform: seq<int>, frequencies: seq<real>, amplitudes: seq<real>,
                            calculateDB: seq<real> -> real, multiplier: real, config: AudioConfig,
                            log10: real -> real, log2: real -> real)
    : (r: FeatureFrame)
    requires |frequencies| == |amplitudes| && NonNegative(amplitudes)
    ensures r.waveform == waveform && r.AmplituteMultiplayer == multiplier && r.rms_db == calculateDB(data)
    ensures |r.analyzer| == config.analyzerBins
    ensures forall j :: 0 <= j < |amplitudes| ==> amplitudes[j] <= r.dominantFrequency.amplitude
    ensures r.closestNote == FindClosestNoteAsWritten(r.dominantFrequency.frequency, log2)
  {
    DominantPeakIsMaximal(frequencies, amplitudes);
    var dominant := DominantPeak(frequencies, amplitudes);
    FeatureFrame(
      AverageFrequency(frequencies, amplitudes, config.amplitudeThreshold),
      dominant,
      2.5 * BassSum(frequencies, amplitudes, config.bassFrequencyRange.0, config.bassFrequencyRange.1),
      calculateDB(data),
      FindClosestNoteAsWritten(dominant.frequency, log2),
      BinsSpec(frequencies, amplitudes, AnalyzerLayout(config), log10),
      multiplier,
      waveform)
  }

  /** `audioToWS_Stream(buffer)` up to the emit: filter and decode the chunk,
      then compute its features. */
  method AudioToWsFrame(buffer: array<Byte>, fft: (seq<real>, real) -> Spectrum, calculateDB: seq<real> -> real,
                        sampleRate: real, multiplier: real, config: AudioConfig, log10: real -> real, log2: real -> real)
    returns (r: Option<FeatureFrame>)
    requires ValidFft(fft)
    ensures r == FrameOf(buffer[..], fft, calculateDB, sampleRate, multiplier, config, log10, log2)
  {
    var filtered := FilterAudio(buffer);
    if filtered.None? {
      return None;
    }
    var data, waveform := DecodeSamples(filtered.value[..]);
    var frame := ComputeFeatures(data, waveform, fft, calculateDB, sampleRate, multiplier, config, log10, log2);
    r := Some(frame);
  }

  /** Transform the samples, drop the spectrum above `maxFrequency` and
      compute the eight fields of the frame. */
  method ComputeFeatures(data: seq<real>, waveform: seq<int>, fft: (seq<real>, real) -> Spectrum, calculateDB: seq<real> -> real,
                         sampleRate: real, multiplier: real, config: AudioConfig, log10: real -> real, log2: real -> real)
    returns (frame: FeatureFrame)
    requires ValidFft(fft) && data == Normalised(waveform)
    ensures frame == Features(waveform, fft, calculateDB, sampleRate, multiplier, config, log10, log2)
  {
    var phasors := fft(data, sampleRate);
    var frequencies := FilterFrequencies(phasors.frequencies, config.maxFrequency);
    var amplitudes := FilterAmplitudes(phasors.magnitudes, frequencies, config.maxFrequency);
    FilteredSpectrumMatches(phasors, config.maxFrequency);
    frame := AnalyseSpectrum(data, waveform, frequencies, amplitudes, calculateDB, multiplier, config, log10, log2);
  }

  /** The analysis of the kept spectrum: summary, bass, loudness, note and analyzer bins. */
  method AnalyseSpectrum(data: seq<real>, waveform: seq<int>, frequencies: seq<real>, amplitudes: seq<real>,
                         calculateDB: seq<real> -> real, multiplier: real, config: AudioConfig,
                         log10: real -> real, log2: real -> real)
    returns (frame: FeatureFrame)
    requires |frequencies| == |amplitudes| && NonNegative(amplitudes)
    ensures frame == SpectrumFeatures(data, waveform, frequencies, amplitudes, calculateDB, multiplier, config, log10, log2)
  {
    var summary := GetAverageAndDominantFrequency(frequencies, amplitudes, config.amplitudeThreshold);
    var bassAmplitude := GetBassAmplitude(frequencies, amplitudes, config.bassFrequencyRange);
    var closestNote := FindClosestNoteAsWritten(summary.dominantFrequency.frequency, log2);
    var analyzer := BinsAmplitudes(frequencies, amplitudes, AnalyzerLayout(config), log10);
    frame := FeatureFrame(summary.averageFrequency, summary.dominantFrequency, bassAmplitude,
                          calculateDB(data), closestNote, analyzer, multiplier, waveform);
  }

  /** A frame carries the raw samples of its chunk and one analyzer entry per
      configured bin; the entries are non-negative and add up to the kept amplitudes. */
  lemma FrameWaveformAndAnalyzer(bytes: seq<Byte>, fft: (seq<real>, real) -> Spectrum, calculateDB: seq<real> -> real,
                                 sampleRate: real, multiplier: real, config: AudioConfig, log10: real -> real, log2: real -> real)
    requires ValidFft(fft) && |bytes| % 2 == 0
    ensures var f := FrameOf(bytes, fft, calculateDB, sampleRate, multiplier, config, log10, log2).value;
            var (frequencies, amplitudes) := FilteredSpectrum(Normalised(Samples(bytes)), fft, sampleRate, config);
            && |f.waveform| == |bytes| / 2
            && (forall k :: 0 <= k < |f.waveform| ==> f.waveform[k] == ReadInt16LE(bytes[2 * k], bytes[2 * k + 1]))
            && |f.analyzer| == config.analyzerBins
            && NonNegative(f.analyzer)
            && |amplitudes| == |frequencies|
            && Sum(f.analyzer) == KeptTotal(frequencies, amplitudes, AnalyzerLayout(config), log10)
            && f.AmplituteMultiplayer == multiplier
  {
    var data := Normalised(Samples(bytes));
    var (frequencies, amplitudes) := FilteredSpectrum(data, fft, sampleRate, config);
    FilteredSpectrumMatches(fft(data, sampleRate), config.maxFrequency);
    var layout := AnalyzerLayout(config);
    var bins := BinsSpec(frequencies, amplitudes, layout, log10);
    forall b | 0 <= b < |bins|
      ensures bins[b] >= 0.0
    {
      BinsNonNegative(frequencies, amplitudes, b, layout, log10);
    }
    BinsConserveAmplitude(frequencies, amplitudes, layout, log10);
  }

  /** The frame's dominant frequency is the loudest kept point (or {0, 0}),
      and its note is the note of that frequency. */
  lemma FrameDominantAndNote(bytes: seq<Byte>, fft: (seq<real>, real) -> Spectrum, calculateDB: seq<real> -> real,
                             sampleRate: real, multiplier: real, config: AudioConfig, log10: real -> real, log2: real -> real)
    requires ValidFft(fft) && |bytes| % 2 == 0
    ensures var f := FrameOf(bytes, fft, calculateDB, sampleRate, multiplier, config, log10, log2).value;
            var (frequencies, amplitudes) := FilteredSpectrum(Normalised(Samples(bytes)), fft, sampleRate, config);
            && |amplitudes| == |frequencies|
            && (forall j :: 0 <= j < |amplitudes| ==> amplitudes[j] <= f.dominantFrequency.amplitude)
            && ((forall j :: 0 <= j < |amplitudes| ==> amplitudes[j] <= 0.0) ==> f.dominantFrequency == Peak(0.0, 0.0))
            && f.closestNote == FindClosestNoteAsWritten(f.dominantFrequency.frequency, log2)
  {
    var (frequencies, amplitudes) := FilteredSpectrum(Normalised(Samples(bytes)), fft, sampleRate, config);
    FeaturesDominantAndNote(Samples(bytes), fft, calculateDB, sampleRate, multiplier, config, log10, log2);
    DominantPeakIsMaximal(frequencies, amplitudes);
  }

  lemma FeaturesDominantAndNote(waveform: seq<int>, fft: (seq<real>, real) -> Spectrum, calculateDB: seq<real> -> real,
                                sampleRate: real, multiplier: real, config: AudioConfig, log10: real -> real, log2: real -> real)
    requires ValidFft(fft)
    ensures var f := Features(waveform, fft, calculateDB, sampleRate, multiplier, config, log10, log2);
            var (frequencies, amplitudes) := FilteredSpectrum(Normalised(waveform), fft, sampleRate, config);
            && |amplitudes| == |frequencies|
            && f.dominantFrequency == DominantPeak(frequencies, amplitudes)
            && f.closestNote == FindClosestNoteAsWritten(f.dominantFrequency.frequency, log2)
  {
    var data := Normalised(waveform);
    FilteredSpectrumMatches(fft(data, sampleRate), config.maxFrequency);
  }

  /** With non-negative FFT frequencies and a positive `maxFrequency`, the
      damped average frequency of a frame lies in [0, maxFrequency). */
  lemma FrameAverageWithinBand(bytes: seq<Byte>, fft: (seq<real>, real) -> Spectrum, calculateDB: seq<real> -> real,
                               sampleRate: real, multiplier: real, config: AudioConfig, log10: real -> real, log2: real -> real)
    requires ValidFft(fft) && |bytes| % 2 == 0 && config.maxFrequency > 0.0
    requires forall data, k :: 0 <= k < |fft(data, sampleRate).frequencies| ==> fft(data, sampleRate).frequencies[k] >= 0.0
    ensures var f := FrameOf(bytes, fft, calculateDB, sampleRate, multiplier, config, log10, log2).value;
            0.0 <= f.averageFrequency < config.maxFrequency
  {
    var data := Normalised(Samples(bytes));
    var s := fft(data, sampleRate);
    var (frequencies, amplitudes) := FilteredSpectrum(data, fft, sampleRate, config);
    FilteredSpectrumMatches(s, config.maxFrequency);
    forall j | 0 <= j < |frequencies|
      ensures 0.0 <= frequencies[j] <= config.maxFrequency
    {
      FilterFrequenciesMembers(s.frequencies, config.maxFrequency, frequencies[j]);
    }
    AverageWithinBand(frequencies, amplitudes, config.amplitudeThreshold, config.maxFrequency);
  }

  // ---------------------------------------------------------------------
  // Captures and listeners
  // ---------------------------------------------------------------------

  /** One naudiodon input created by `configur_portAudio`. */
  datatype Capture = Capture(sampleRate: real, frameSize: real, audioDeviceID: int, started: bool, quit: bool)

  /** Every capture but at most the last has been quit, and the last one is
      live exactly while `isConnected`. */
  predicate CapturesConsistent(captures: seq<Capture>, isConnected: bool)
  {
    && (isConnected ==> |captures| > 0)
    && forall k :: 0 <= k < |captures| ==> (!captures[k].quit <==> isConnected && k == |captures| - 1)
  }

  /** Number of captures not quit. */
  function LiveCount(captures: seq<Capture>): nat
  {
    if captures == [] then 0
    else LiveCount(captures[..|captures| - 1]) + (if captures[|captures| - 1].quit then 0 else 1)
  }

  /** At most one capture is active at a time: one while connected, none otherwise. */
  lemma OneLiveCapture(captures: seq<Capture>, isConnected: bool)
    requires CapturesConsistent(captures, isConnected)
    ensures LiveCount(captures) == if isConnected then 1 else 0
  {
    if captures != [] {
      AllQuit(captures[..|captures| - 1]);
    }
  }

  lemma {:induction false} AllQuit(captures: seq<Capture>)
    requires forall k :: 0 <= k < |captures| ==> captures[k].quit
    ensures LiveCount(captures) == 0
  {
    if captures != [] {
      AllQuit(captures[..|captures| - 1]);
    }
  }

  /** `inAudio.quit()` on the current capture. */
  function QuitLast(captures: seq<Capture>): seq<Capture>
    requires |captures| > 0
  {
    captures[|captures| - 1 := captures[|captures| - 1].(quit := true)]
  }

  /** Quitting the live capture and then opening one, or none, keeps the captures consistent. */
  lemma ReconfigureKeepsConsistent(captures: seq<Capture>, isConnected: bool, c: Capture, deviceOpens: bool)
    requires CapturesConsistent(captures, isConnected) && !c.quit
    ensures var quitted := if isConnected then QuitLast(captures) else captures;
            CapturesConsistent(quitted + (if deviceOpens then [c] else []), deviceOpens)
  {
    var quitted := if isConnected then QuitLast(captures) else captures;
    assert forall k :: 0 <= k < |quitted| ==> quitted[k].quit;
  }

  /** The captures after `configur_portAudio`: the live one, if any, quit, and
      the new one appended when the device opens. */
  function SubscribedCaptures(captures: seq<Capture>, isConnected: bool, c: Capture, deviceOpens: bool): (r: seq<Capture>)
    requires isConnected ==> captures != []
    ensures |r| == |captures| + (if deviceOpens then 1 else 0)
    ensures forall k :: 0 <= k < |captures| ==> r[k] == (if isConnected && k == |captures| - 1 then captures[k].(quit := true) else captures[k])
    ensures deviceOpens ==> r[|r| - 1] == c
  {
    (if isConnected then QuitLast(captures) else captures) + (if deviceOpens then [c] else [])
  }

  /** `streamingEvent.removeListener('streaming', listener)`: drops the
      session's listener, and is a no-op when it is not registered. */
  function Without(listeners: seq<nat>, session: nat): (r: seq<nat>)
    ensures forall x :: x in r <==> x in listeners && x != session
    ensures session !in listeners ==> r == listeners
    ensures |r| <= |listeners|
  {
    if listeners == [] then []
    else if listeners[0] == session then Without(listeners[1..], session)
    else [listeners[0]] + Without(listeners[1..], session)
  }

  predicate Distinct(s: seq<nat>)
  {
    forall i, j :: 0 <= i < j < |s| ==> s[i] != s[j]
  }

  /** Removal keeps the registry free of duplicates and removes one listener. */
  lemma {:induction false} WithoutKeepsDistinct(listeners: seq<nat>, session: nat)
    requires Distinct(listeners)
    ensures Distinct(Without(listeners, session))
    ensures session in listeners ==> |Without(listeners, session)| == |listeners| - 1
  {
    if listeners != [] {
      assert Distinct(listeners[1..]);
      WithoutKeepsDistinct(listeners[1..], session);
      if listeners[0] != session {
        assert listeners[0] !in listeners[1..];
        assert listeners[0] !in Without(listeners[1..], session);
      } else {
        assert session !in listeners[1..];
      }
    }
  }

  /** A second removal, on both `close` and `error`, changes nothing. */
  lemma WithoutIdempotent(listeners: seq<nat>, session: nat)
    ensures Without(Without(listeners, session), session) == Without(listeners, session)
  {
  }

  /** One `ws.send` per registered listener, in registration order. */
  function Deliveries(listeners: seq<nat>, frame: FeatureFrame): (r: seq<(nat, FeatureFrame)>)
    ensures |r| == |listeners|
    ensures forall k :: 0 <= k < |r| ==> r[k] == (listeners[k], frame)
  {
    if listeners == [] then [] else [(listeners[0], frame)] + Deliveries(listeners[1..], frame)
  }

  /** The module-level state of audioServer.js. */
  class AudioServer {
    const config: AudioConfig
    const log10: real -> real
    const pow10: real -> real
    const log2: real -> real
    const fft: (seq<real>, real) -> Spectrum
    const calculateDB: seq<real> -> real

    /** All captures created so far; the last is `inAudio`. */
    var captures: seq<Capture>
    var isConnected: bool
    var isWSConnected: bool
    var analyzerBinsArray: seq<(real, real)>
    var sampleRate: real
    var frameSize: real
    var amplitudeMultiplier: real
    /** The sessions whose `streamingListener` is registered, in order. */
    var listeners: seq<nat>
    var nextSession: nat
    /** Every frame emitted on `streaming`. */
    var emitted: seq<FeatureFrame>
    /** Every `ws.send` made by a listener: the session and the frame. */
    var sent: seq<(nat, FeatureFrame)>

    ghost predicate Valid()
      reads this
    {
      && ValidFft(fft)
      && CapturesConsistent(captures, isConnected)
      && Distinct(listeners)
      && forall s :: s in listeners ==> s < nextSession
    }

    constructor(config: AudioConfig, log10: real -> real, pow10: real -> real, log2: real -> real,
                fft: (seq<real>, real) -> Spectrum, calculateDB: seq<real> -> real)
      requires ValidFft(fft)
      ensures Valid()
      ensures this.config == config && this.log10 == log10 && this.pow10 == pow10 && this.log2 == log2
      ensures this.fft == fft && this.calculateDB == calculateDB
      ensures captures == [] && !isConnected && !isWSConnected && analyzerBinsArray == []
      ensures sampleRate == 0.0 && frameSize == 0.0 && amplitudeMultiplier == 1.0
      ensures listeners == [] && emitted == [] && sent == []
    {
      this.config := config;
      this.log10 := log10;
      this.pow10 := pow10;
      this.log2 := log2;
      this.fft := fft;
      this.calculateDB := calculateDB;
      captures := [];
      isConnected := false;
      isWSConnected := false;
      analyzerBinsArray := [];
      sampleRate := 0.0;
      frameSize := 0.0;
      amplitudeMultiplier := 1.0;
      listeners := [];
      nextSession := 0;
      emitted := [];
      sent := [];
    }

    /** `configur_portAudio(sampleRate, frameSize, audioDeviceID)`: quit the
        current capture if connected, store the parameters, the multiplier and
        the bin ranges, then open a new capture. `deviceOpens` is false when
        `portAudio.AudioIO` throws; the error is logged and no capture is live. */
    method ConfigurePortAudio(sampleRate: real, frameSize: real, audioDeviceID: int, deviceOpens: bool)
      requires Valid() && frameSize != 0.0
      modifies this
      ensures Valid()
      ensures captures == SubscribedCaptures(old(captures), old(isConnected), Capture(sampleRate, frameSize, audioDeviceID, false, false), deviceOpens)
      ensures isConnected == deviceOpens
      ensures this.sampleRate == sampleRate && this.frameSize == frameSize
      ensures amplitudeMultiplier == CalculateMultiplier(frameSize, config.analyzerBins, config.multiplyerAjustment, log2)
      ensures analyzerBinsArray == BinsFrequencyRanges(config.analyzerBins, config.minFrequency, config.maxFrequency, log10, pow10)
      ensures isWSConnected == old(isWSConnected) && listeners == old(listeners) && nextSession == old(nextSession)
      ensures emitted == old(emitted) && sent == old(sent)
    {
      ReconfigureKeepsConsistent(captures, isConnected, Capture(sampleRate, frameSize, audioDeviceID, false, false), deviceOpens);
      // quit the open capture, if any
      captures := if isConnected then QuitLast(captures) else captures;
      this.sampleRate := sampleRate;
      this.frameSize := frameSize;
      amplitudeMultiplier := CalculateMultiplier(frameSize, config.analyzerBins, config.multiplyerAjustment, log2);
      analyzerBinsArray := BinsFrequencyRanges(config.analyzerBins, config.minFrequency, config.maxFrequency, log10, pow10);
      // open and start the new one, when the device opens
      captures := captures + (if deviceOpens then [Capture(sampleRate, frameSize, audioDeviceID, false, false)] else []);
      isConnected := deviceOpens;
    }

    /** A new websocket connection: its `streamingListener` is registered. */
    method Connect() returns (session: nat)
      requires Valid()
      modifies this
      ensures Valid()
      ensures session == old(nextSession) && session !in old(listeners)
      ensures listeners == old(listeners) + [session] && nextSession == old(nextSession) + 1
      ensures captures == old(captures) && isConnected == old(isConnected) && isWSConnected == old(isWSConnected)
      ensures analyzerBinsArray == old(analyzerBinsArray) && sampleRate == old(sampleRate) && frameSize == old(frameSize)
      ensures amplitudeMultiplier == old(amplitudeMultiplier) && emitted == old(emitted) && sent == old(sent)
    {
      session := nextSession;
      assert session !in listeners;
      listeners := listeners + [session];
      nextSession := nextSession + 1;
    }

    /** A message on any connection. A `subscribe` sets the global
        `isWSConnected`, reconfigures the capture and starts `inAudio`; when
        no capture was ever created `inAudio` is undefined and the start
        throws a TypeError (`failed`). Every other type is ignored. */
    method OnMessage(msg: ClientMessage, deviceOpens: bool) returns (failed: bool)
      requires Valid()
      requires msg.Subscribe? ==> msg.frameSize != 0.0
      modifies this
      ensures Valid()
      ensures msg.GetDevices? ==>
                captures == old(captures) && isConnected == old(isConnected) && isWSConnected == old(isWSConnected)
                && sampleRate == old(sampleRate) && frameSize == old(frameSize) && !failed
                && amplitudeMultiplier == old(amplitudeMultiplier) && analyzerBinsArray == old(analyzerBinsArray)
      ensures msg.Subscribe? ==> isWSConnected && isConnected == deviceOpens
      ensures msg.Subscribe? ==> sampleRate == msg.sampleRate && frameSize == msg.frameSize
      ensures msg.Subscribe? ==>
                amplitudeMultiplier == CalculateMultiplier(msg.frameSize, config.analyzerBins, config.multiplyerAjustment, log2)
                && analyzerBinsArray == BinsFrequencyRanges(config.analyzerBins, config.minFrequency, config.maxFrequency, log10, pow10)
      ensures msg.Subscribe? ==>
                (var created := Capture(msg.sampleRate, msg.frameSize, msg.audioDeviceID, false, false);
                 var configured := SubscribedCaptures(old(captures), old(isConnected), created, deviceOpens);
                 (failed <==> configured == [])
                 && captures == (if configured == [] then [] else configured[|configured| - 1 := configured[|configured| - 1].(started := true)]))
      ensures msg.Subscribe? && deviceOpens ==>
                captures[|captures| - 1] == Capture(msg.sampleRate, msg.frameSize, msg.audioDeviceID, true, false)
      ensures listeners == old(listeners) && nextSession == old(nextSession) && emitted == old(emitted) && sent == old(sent)
    {
      failed := false;
      if msg.Subscribe? {
        isWSConnected := true;
        ConfigurePortAudio(msg.sampleRate, msg.frameSize, msg.audioDeviceID, deviceOpens);
        if captures == [] {
          failed := true;
        } else {
          var last := |captures| - 1;
          captures := captures[last := captures[last].(started := true)];
        }
      }
    }

    /** `close` on a connection: remove its listener and clear the global flag,
        which silences every other connection too. */
    method OnClose(session: nat)
      requires Valid()
      modifies this
      ensures Valid()
      ensures listeners == Without(old(listeners), session) && !isWSConnected
      ensures captures == old(captures) && isConnected == old(isConnected) && nextSession == old(nextSession)
      ensures analyzerBinsArray == old(analyzerBinsArray) && sampleRate == old(sampleRate) && frameSize == old(frameSize)
      ensures amplitudeMultiplier == old(amplitudeMultiplier) && emitted == old(emitted) && sent == old(sent)
    {
      WithoutKeepsDistinct(listeners, session);
      listeners := Without(listeners, session);
      isWSConnected := false;
    }

    /** `error` on a connection: the same removal and flag update as `close`. */
    method OnError(session: nat)
      requires Valid()
      modifies this
      ensures Valid()
      ensures listeners == Without(old(listeners), session) && !isWSConnected
      ensures captures == old(captures) && isConnected == old(isConnected) && nextSession == old(nextSession)
      ensures analyzerBinsArray == old(analyzerBinsArray) && sampleRate == old(sampleRate) && frameSize == old(frameSize)
      ensures amplitudeMultiplier == old(amplitudeMultiplier) && emitted == old(emitted) && sent == old(sent)
    {
      OnClose(session);
    }

    /** A `data` event of the capture: one frame is always emitted (the
        `|| true` in the guard), and every registered listener sends it only
        while `isWSConnected`. An odd-length chunk makes `filterAudio` throw
        and nothing is emitted. */
    method OnData(buffer: array<Byte>) returns (frame: Option<FeatureFrame>)
      requires Valid()
      modifies this
      ensures Valid()
      ensures frame == FrameOf(buffer[..], fft, calculateDB, sampleRate, amplitudeMultiplier, config, log10, log2)
      ensures emitted == old(emitted) + (if frame.Some? then [frame.value] else [])
      ensures sent == old(sent) + (if frame.Some? && isWSConnected then Deliveries(listeners, frame.value) else [])
      ensures captures == old(captures) && isConnected == old(isConnected) && isWSConnected == old(isWSConnected)
      ensures listeners == old(listeners) && nextSession == old(nextSession)
      ensures analyzerBinsArray == old(analyzerBinsArray) && sampleRate == old(sampleRate) && frameSize == old(frameSize)
      ensures amplitudeMultiplier == old(amplitudeMultiplier)
    {
      frame := AudioToWsFrame(buffer, fft, calculateDB, sampleRate, amplitudeMultiplier, config, log10, log2);
      emitted := emitted + (if frame.Some? then [frame.value] else []);
      sent := sent + (if frame.Some? && isWSConnected then Deliveries(listeners, frame.value) else []);
    }
  }

  /** Two connections subscribe; one closes. The other stays registered but
      receives nothing until some connection subscribes again, while frames
      keep being emitted. */
  method OneCloseSilencesAll(config: AudioConfig, log10: real -> real, pow10: real -> real, log2: real -> real,
                             fft: (seq<real>, real) -> Spectrum, calculateDB: seq<real> -> real, chunk: array<Byte>)
    returns (server: AudioServer, a: nat, b: nat)
    requires ValidFft(fft) && chunk.Length % 2 == 0
    ensures fresh(server) && server.Valid()
    ensures a != b && server.listeners == [b]
    ensures |server.emitted| == 1 && server.sent == []
  {
    server := new AudioServer(config, log10, pow10, log2, fft, calculateDB);
    a := server.Connect();
    b := server.Connect();
    var failed := server.OnMessage(Subscribe(48000.0, 2048.0, 1), true);
    server.OnClose(a);
    assert server.listeners == [b];
    var frame := server.OnData(chunk);
  }
}
