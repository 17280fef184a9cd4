# StreamDeck audio visualiser — a Dafny model

StreamDeck-Visulizer captures audio from a sound device, turns every chunk of
16-bit PCM into a *feature frame* (dominant and average frequency, bass
energy, loudness, the nearest musical note, logarithmic analyser bins and the
raw waveform), and streams the frames over a websocket to a client. The
client draws a spectrum or a waveform on a canvas and pushes the pixels to the
LCD of an Elgato StreamDeck. This project models the core of that system and
proves properties about it:

- `AudioUtils.dfy`: the analysis helpers of `lib/audio_utils.js`. These cover
  device lookups, frame size, amplitude multiplier, logarithmic bin ranges,
  binning, dominant and average frequency, bass amplitude and the closest
  note.
- `Protocol.dfy`: the feature frame and the websocket messages, as values.
- `AudioServer.dfy`: `audioServer.js`. It covers PCM decoding, the spectrum
  filter, frame assembly, (re)configuration of the capture and the
  per-connection handlers. The server is a class over its globals.
- `AudioAdapter.dfy`: `lib/audio_adapter.js`. It covers the connection and
  reconnect handlers, message dispatch, the visualiser switch, the peak-hold
  update of the spectrum view and the device menu arithmetic.
- `Gfx.dfy`: `lib/gfx.js`. It covers the in-place BGRA→RGBA swap, buffer
  comparison, the "skip unchanged frame" cache and the animation flags.
- `Logger.dfy`: `lib/logger/index.js`. It covers level names and gating, tags
  and colours, `{{key}}` templates and the default line format.
- `Common.dfy`: an `Option` type, bytes, left-to-right sums, JavaScript's
  truncating `%` and integer-to-decimal rendering.

Conventions:

- **Transcendental functions.** `Math.log10`, `Math.log2` and `Math.pow(10, ·)`
  are function-typed parameters (`log10`, `log2`, `pow10`). A lemma that needs
  one of their properties, such as monotonicity or `log2(1) = 0`, states it
  as a precondition.
- **External code.** The FFT library (`fft` with `fftFreq`/`fftMag`) and
  `calculateDB` are parameters of the server too. The FFT returns a
  `Spectrum` of frequencies and magnitudes; `ValidFft` asks that it returns
  equally long arrays with non-negative magnitudes.
- **Numbers.** Everything else is exact arithmetic on `real` and `int`.
  JavaScript's `%` is written out as `JsRem`. `Math.floor` of a quotient by a
  positive divisor is Dafny's `/`.
- **Events.** Websocket events, timers and the StreamDeck encoder become
  method calls on the classes that own the state.
- **Effects.** What the code sends, emits, draws or writes is recorded in
  sequence fields (`outbox`, `emitted`, `sent`, `draws`, `lcdWrites`), so
  contracts can describe it.

Where the code and its design notes differ, the model follows the code:

- The decoded samples lie in [-32768/32767, 1], not [-1, 1]: `readInt16LE(i) / 32767`.
- The waveform in the frame holds the raw integer samples.
- A frame is produced for every chunk, whether or not a client listens (the
  guard at audioServer.js:86).
- The server ignores `getDevices`.
- `isWSConnected` is one flag shared by all connections, so the close of any
  one connection stops delivery to all of them (`OneCloseSilencesAll`).
- The client schedules a reconnect on every close, not only while connected.
- The frame carries the note `findClosestNote` computes as written, one
  octave too high for a C below C4 (see Findings). The corrected note is
  defined beside it, and `ClosestNoteAsWrittenAgrees` states exactly where the
  two differ.

## Model

| member | source | states |
|---|---|---|
| AudioUtils.FindIdByName | lib/audio_utils.js:23-26 | None exactly when no device has the name; otherwise the id of the first device with that name |
| AudioUtils.CheckDeviceByName | lib/audio_utils.js:239-242 | true iff the first device with the name has at least two input channels; false when there is none |
| AudioUtils.GetDefaultSampleRate | lib/audio_utils.js:8-15 | the loop returns None (`null`) exactly when no device has the id, otherwise the default sample rate of the first device with it |
| AudioUtils.CalculateFrameSize | lib/audio_utils.js:35-47 | a power of two of at least 1024; 1024 below 1024 samples per frame, otherwise a power of two p with p/2 < sampleRate/fps <= p |
| AudioUtils.FrameSizeIsSmallestPowerOfTwo | lib/audio_utils.js:39-44 | no power of two that holds sampleRate/fps samples is smaller than the frame size |
| AudioUtils.CeilPowerOfTwo | lib/audio_utils.js:43 | rounding up to a power of two gives one that is at least x with half of it below x |
| AudioUtils.CalculateMultiplier | lib/audio_utils.js:220-231 | zero bins give multiplier 0 |
| AudioUtils.MultiplierHalvesWithFrameSize | lib/audio_utils.js:222-230 | doubling the frame size halves the multiplier |
| AudioUtils.MultiplierStepPerBinDoubling | lib/audio_utils.js:225-230 | doubling the bin count adds 1024/frameSize · ajustment to the multiplier |
| AudioUtils.BinsFrequencyRanges | lib/audio_utils.js:57-70 | numBins ranges, each starting where the previous one ends, from 10^log10(minFreq) to 10^log10(maxFreq) |
| AudioUtils.LastEdgeIsMax | lib/audio_utils.js:64-65 | the outer edges are 10^log10(minFreq) and 10^log10(maxFreq) |
| AudioUtils.RangesCoverBounds | lib/audio_utils.js:57-70 | with exact powers the ranges start at minFreq and end at maxFreq |
| AudioUtils.RangesIncreasing | lib/audio_utils.js:62-67 | for minFreq < maxFreq every range is non-empty and ranges are ordered |
| AudioUtils.AdjustedNumBins | lib/audio_utils.js:90 | ceil(numBins / aggregationFactor): the least n with numBins <= n · factor |
| AudioUtils.BinTarget | lib/audio_utils.js:94-99 | a frequency that is binned lies within [minFreq, maxFreq] and goes to a bin that exists |
| AudioUtils.BinsSpec | lib/audio_utils.js:90-104 | one bin per adjusted bin |
| AudioUtils.BinsAmplitudes | lib/audio_utils.js:83-105 | the loop gives every bin the sum of the amplitudes of the frequencies that fall into it |
| AudioUtils.BinsNonNegative | lib/audio_utils.js:100 | non-negative amplitudes give non-negative bins |
| AudioUtils.BinsConserveAmplitude | lib/audio_utils.js:93-102 | the bins add up to the total amplitude of the points that are binned, so no amplitude is lost or counted twice |
| AudioUtils.InteriorPointIsBinned | lib/audio_utils.js:94-99 | with increasing log10 every frequency in [minFreq, maxFreq) lands in a bin |
| AudioUtils.AggregatedIndexInRange | lib/audio_utils.js:98-99 | aggregating a valid bin index gives a valid adjusted index |
| AudioUtils.DominantIndex | lib/audio_utils.js:120-125 | the dominant index is -1 or lies in the scanned prefix |
| AudioUtils.DominantIndexIsFirstMaximum | lib/audio_utils.js:118-125 | none exactly when no amplitude is positive; otherwise the first position of a maximal amplitude |
| AudioUtils.DominantPeakIsMaximal | lib/audio_utils.js:118-125 | the dominant amplitude bounds every amplitude; {0, 0} when none is positive; otherwise a real point, not beaten earlier |
| AudioUtils.LoudAmplitude | lib/audio_utils.js:128-133 | the summed loud amplitude is non-negative |
| AudioUtils.GetAverageAndDominantFrequency | lib/audio_utils.js:115-139 | the loop's average is Σ f·a / (1 + Σ a) over points above the threshold, and its dominant is the first maximum |
| AudioUtils.QuietPointIgnored | lib/audio_utils.js:128-130 | a point at or below the threshold changes neither weighted sum |
| AudioUtils.QuietFrameAverageIsZero | lib/audio_utils.js:116-136 | a frame without loud points has average 0, as the initial total amplitude of 1 guarantees |
| AudioUtils.WeightedFrequencyBounded | lib/audio_utils.js:132-133 | the weighted sum lies between 0 and top · the loud amplitude |
| AudioUtils.AverageWithinBand | lib/audio_utils.js:136 | with frequencies in [0, top] the average lies in [0, top) |
| AudioUtils.GetBassAmplitude | lib/audio_utils.js:182-192 | the loop returns 2.5 · the amplitude summed over [low, high] |
| AudioUtils.BassSumMonotone | lib/audio_utils.js:186-187 | a wider bass range never gives less bass |
| AudioUtils.BassSumOutsideRange | lib/audio_utils.js:186 | no frequency in range gives bass 0 |
| AudioUtils.NoteAsWritten | lib/audio_utils.js:157-168 | note index and octave as the code computes them, the index within 0..11 |
| AudioUtils.Note | lib/audio_utils.js:157-162 | the index and octave with 12 · (octave − 4) + index = semitones + 9 |
| AudioUtils.NoteIsInjective | lib/audio_utils.js:157-170 | different semitone distances get different notes |
| AudioUtils.SemitonesFromA4 | lib/audio_utils.js:153 | the nearest whole number of semitones to 12 · log2(f / 440), halves rounding up |
| AudioUtils.FindClosestNoteAsWritten | lib/audio_utils.js:147-173 | "A0" for 0; otherwise a note name and octave that are the scientific ones, moved up an octave when semitones + 9 is a negative multiple of 12 |
| AudioUtils.NoteAsWrittenOffset | lib/audio_utils.js:157-168 | the code's index and octave are 12 semitones above the true position exactly on a C below C4 |
| AudioUtils.FindClosestNote | lib/audio_utils.js:147-173 | "A0" for 0; otherwise the note name and octave whose position 12 · (octave − 4) + index is semitones + 9 |
| AudioUtils.ClosestNoteAsWrittenAgrees | lib/audio_utils.js:147-173 | the written and the corrected note are equal iff the frequency is 0 or not a C below C4 |
| AudioUtils.ClosestNoteAnchors | lib/audio_utils.js:147-173 | 440 Hz is "A4" and 0 Hz is "A0" |
| AudioUtils.NoteAsWrittenAgrees | lib/audio_utils.js:157-168 | the code's octave is correct unless semitones + 9 is a negative multiple of 12 |
| AudioUtils.NoteAsWrittenOctaveTooHighForLowC | lib/audio_utils.js:157-168 | for those the code names the right note, C, one octave too high |
| AudioUtils.LowCExample | lib/audio_utils.js:154-170 | 21 semitones below A4 (C3) the code answers "C4" |
| AudioServer.ReadInt16LE | audioServer.js:42 | a little-endian two's-complement value in the 16-bit range, negative iff the high byte has its top bit set |
| AudioServer.ReadAfterWrite | audioServer.js:42-43 | reading back a written sample gives the sample |
| AudioServer.WriteAfterRead | audioServer.js:42-43 | writing a read sample gives the same two bytes |
| AudioServer.Samples | audioServer.js:61-64 | one sample per two bytes, each read from its byte pair |
| AudioServer.EncodeSamples | audioServer.js:43 | two bytes per sample |
| AudioServer.DecodeEncode | audioServer.js:39-45 | decoding encoded samples gives the samples |
| AudioServer.EncodeDecode | audioServer.js:37-46 | encoding decoded bytes gives the bytes |
| AudioServer.FilterAudio | audioServer.js:37-46 | an odd length throws (None); otherwise a fresh buffer with the same bytes |
| AudioServer.Normalised | audioServer.js:55-58 | one value per sample |
| AudioServer.DecodedRange | audioServer.js:57 | every value lies in [-32768/32767, 1] and below -1 exactly for the sample -32768 |
| AudioServer.DecodeSamples | audioServer.js:52-64 | the two loops give the samples divided by 32767 and the samples themselves |
| AudioServer.FilterFrequencies | audioServer.js:76 | kept frequencies are at most maxFrequency |
| AudioServer.FilterFrequenciesMembers | audioServer.js:76 | a value is kept iff it occurs and is at most maxFrequency |
| AudioServer.FilterKeepsAllBelow | audioServer.js:76 | nothing is dropped when every frequency is at most maxFrequency |
| AudioServer.SortedFilterIsPrefix | audioServer.js:76 | on sorted frequencies the filter keeps a prefix and drops only values above the limit |
| AudioServer.FilterAmplitudes | audioServer.js:77 | never more magnitudes than given |
| AudioServer.AmplitudesArePrefix | audioServer.js:77 | the magnitude filter, indexed into the already filtered frequencies, keeps a prefix |
| AudioServer.FilteredSpectrumMatches | audioServer.js:76-77 | the filtered arrays have equal length and non-negative magnitudes |
| AudioServer.FilteredSpectrumAligned | audioServer.js:76-77 | on sorted frequencies each kept magnitude belongs to its frequency |
| AudioServer.UnsortedFrequenciesMisalign | audioServer.js:76-77 | on unsorted frequencies a magnitude can be paired with the wrong frequency |
| AudioServer.FrameOf | audioServer.js:52-98 | a frame exactly for even-length chunks |
| AudioServer.AudioToWsFrame | audioServer.js:52-98 | filtering, decoding and analysing a chunk give exactly the frame of its bytes, or none for an odd length |
| AudioServer.Features | audioServer.js:74-95 | a frame keeps the raw samples and the multiplier, has one analyzer entry per configured bin and the loudness of the normalised samples |
| AudioServer.SpectrumFeatures | audioServer.js:79-95 | the frame's dominant amplitude bounds every kept amplitude and its note is the written `findClosestNote` of the dominant frequency |
| AudioServer.ComputeFeatures | audioServer.js:74-83 | transforming the samples and filtering the spectrum gives the features of the chunk, note as `findClosestNote` writes it |
| AudioServer.AnalyseSpectrum | audioServer.js:79-95 | the summary, bass, loudness, as-written note and analyzer computed from the kept spectrum are the frame's fields |
| AudioServer.FrameWaveformAndAnalyzer | audioServer.js:60-95 | the waveform holds the decoded samples, the analyser one non-negative bin per configured bin summing to the binned amplitude, and the multiplier is the stored one |
| AudioServer.FrameDominantAndNote | audioServer.js:79-81 | the dominant amplitude bounds every kept amplitude, is {0, 0} on silence, and the note is the one `findClosestNote` gives for the dominant frequency |
| AudioServer.FrameAverageWithinBand | audioServer.js:76-79 | the average frequency lies in [0, maxFrequency) |
| AudioServer.OneLiveCapture | audioServer.js:102-129 | at most one capture is live, exactly when isConnected |
| AudioServer.AllQuit | audioServer.js:103 | captures that all quit leave none live |
| AudioServer.ReconfigureKeepsConsistent | audioServer.js:100-135 | quitting the live capture and opening a new one keeps at most one live |
| AudioServer.SubscribedCaptures | audioServer.js:101-128 | the live capture, if any, is quit, every other entry is kept, and the new capture is appended when the device opens |
| AudioServer.Without | audioServer.js:153-159 | removing a listener keeps every other and nothing else; removing an absent one changes nothing |
| AudioServer.WithoutKeepsDistinct | audioServer.js:153-169 | removal keeps listeners distinct and removes exactly one registered listener |
| AudioServer.WithoutIdempotent | audioServer.js:153-159 | removing twice is removing once |
| AudioServer.Deliveries | audioServer.js:165-167 | one message per registered listener, in order, each carrying the frame |
| AudioServer.AudioServer.constructor | audioServer.js:26-34 | the globals start empty, disconnected and with multiplier 1 |
| AudioServer.AudioServer.ConfigurePortAudio | audioServer.js:100-135 | the old capture quits, the settings, multiplier and bin ranges are stored, and a new capture is live iff the device opens |
| AudioServer.AudioServer.Connect | audioServer.js:139-169 | a new connection registers one fresh listener |
| AudioServer.AudioServer.OnMessage | audioServer.js:142-150 | subscribe sets isWSConnected, stores the settings, multiplier and bin ranges, quits the live capture, appends the new one and marks the last capture started, failing (`inAudio` undefined) iff there is none; getDevices changes nothing |
| AudioServer.AudioServer.OnClose | audioServer.js:152-156 | the listener is removed and isWSConnected cleared |
| AudioServer.AudioServer.OnError | audioServer.js:158-162 | the same as a close |
| AudioServer.AudioServer.OnData | audioServer.js:52-167 | every even chunk emits its frame; it is sent to every listener only while isWSConnected |
| AudioServer.OneCloseSilencesAll | audioServer.js:146-166 | after one of two clients closes, a frame is emitted but sent to nobody |
| Gfx.SwapRedBlue | lib/gfx.js:22-29 | the swapped buffer has the same length |
| Gfx.SwapExchangesRedAndBlue | lib/gfx.js:23-27 | bytes 4k and 4k+2 trade places; bytes 4k+1 and 4k+3 stay |
| Gfx.SwapIsInvolution | lib/gfx.js:22-29 | swapping twice restores every buffer whose length is 0 or 3 mod 4 |
| Gfx.SwapZeroesIncompleteTail | lib/gfx.js:24-26 | a last pixel of one or two bytes gets its first byte zeroed, twice over |
| Gfx.ConvertBGRAtoRGBA | lib/gfx.js:22-29 | the loop swaps in place and returns the same buffer |
| Gfx.AreBuffersEqual | lib/gfx.js:31-41 | true iff the buffers have the same length and the same bytes |
| Gfx.ChangedFrameKeepsWritesDeduplicated | lib/gfx.js:46-50 | a write of a changed frame keeps the writes free of repeats and makes it the last written |
| Gfx.CanvasManager.constructor | lib/gfx.js:10-13 | empty lastBuffer, no writes, flags false |
| Gfx.CanvasManager.UpdateStreamDeck | lib/gfx.js:43-55 | the pixels are converted in place; an unchanged frame writes nothing, a changed one becomes lastBuffer and is written once |
| Gfx.CanvasManager.RequestAnimationFrame | lib/gfx.js:67-99 | animating with the new callback; a loop starts only when none was requested |
| Gfx.CanvasManager.StopAnimation | lib/gfx.js:103-105 | isAnimating becomes false and nothing else changes |
| Gfx.UnchangedCanvasWrittenOnce | lib/gfx.js:43-55 | two updates of the same canvas write the LCD once |
| Logger.IndexOf | lib/logger/index.js:149 | -1 iff absent; otherwise the first position |
| Logger.LevelNumber | lib/logger/index.js:149 | 0 iff the lower-cased name is not a level; otherwise its position plus one |
| Logger.LevelNames | lib/logger/index.js:149 | error, warning, info, debug, system are 1 to 5 |
| Logger.LogColorShort | lib/logger/index.js:71-91 | the plain tag `[E]`…`[S]` without colour, a 12-character coloured tag with the level letter with colour, and the reset code for an unknown level |
| Logger.LogColor | lib/logger/index.js:98-118 | an escape `ESC[3xm` for the five levels with colour, the empty string otherwise |
| Logger.EffectiveLogLevel | lib/logger/index.js:3 | never 0; unset, NaN and 0 give 3, any other number is kept |
| Logger.ShortFormIsColouredTag | lib/logger/index.js:71-118 | levels 1..5 show [E] [W] [I] [D] [S]; coloured, the short form is the level colour, the tag and the reset code |
| Logger.UnknownLevelTag | lib/logger/index.js:88-116 | other levels give the reset code and no colour |
| Logger.WordRun | lib/logger/index.js:59 | the longest run of word characters at the front |
| Logger.Placeholder | lib/logger/index.js:59 | a match is at least four characters and inside the text |
| Logger.Render | lib/logger/index.js:57-63 | on an object the replacement never throws |
| Logger.Template | lib/logger/index.js:55-64 | a non-string template or non-object data throws; a string and an object never do |
| Logger.RenderLiteral | lib/logger/index.js:57-63 | text without `{{` is copied unchanged, provided a trailing `{` starts no match with what follows |
| Logger.RenderHole | lib/logger/index.js:59-62 | `{{key}}` is replaced by the own value of the key, or "NULL" |
| Logger.TemplateSubstitutes | lib/logger/index.js:55-64 | for a template of placeholders and literals without `{{`, no two literals adjacent (single braces allowed anywhere), placeholders become their values or "NULL" and the text between them is unchanged |
| Logger.NullDataThrowsOnPlaceholder | lib/logger/index.js:56-61 | for the same templates, `null` data throws iff there is a placeholder |
| Logger.TemplateWithoutPlaceholderIsIdentity | lib/logger/index.js:55-64 | a template without `{{` is returned unchanged |
| Logger.BracedPlaceholderRenders | lib/logger/index.js:59 | in `{{{text}}}` the outer braces are copied around the value of text |
| Logger.DefaultTemplateRenders | lib/logger/index.js:141 | the default template renders as `[app] [timestamp] tag text` over the values |
| Logger.DefaultFormatIsTemplate | lib/logger/index.js:126-142 | without LOG_TEMPLATE the line is the one the template `[{{application}}] [{{timestamp}}] {{logcolorshort}} {{text}}` gives |
| Logger.LogFormat | lib/logger/index.js:126-142 | without LOG_TEMPLATE the default line; a template without `{{` is printed as it is |
| Logger.Logger | lib/logger/index.js:148-170 | a line is emitted iff the level is system or a known level at most the log level, and it carries that level number and the formatted text |
| Logger.SystemAlwaysUnknownNever | lib/logger/index.js:149-169 | system is emitted at every log level; an unknown level never |
| Logger.GateIsMonotone | lib/logger/index.js:151-165 | levels 1-4 pass iff their number is at most the log level; a more severe level or a higher log level still passes |
| Logger.DefaultLevelIsInfo | lib/logger/index.js:151-169 | with LOG_LEVEL unset every level but debug is emitted |
| Logger.LevelNameCaseInsensitive | lib/logger/index.js:149 | the level name's letter case does not matter |
| AudioAdapter.TruncateNameShape | lib/audio_adapter.js:234 | names up to 42 characters are kept; longer ones keep their first 42 and get "..." (45 in all); truncating again changes nothing |
| AudioAdapter.TruncateName | lib/audio_adapter.js:234 | a name over 42 characters becomes its first 42 and "...", 45 in all; a shorter one is kept |
| AudioAdapter.DisplayNames | lib/audio_adapter.js:234 | one shown name per device, in order |
| AudioAdapter.PositiveModulo | lib/audio_adapter.js:263-265 | `((n % m) + m) % m` with JavaScript's `%` is the Euclidean remainder |
| AudioAdapter.JsRemCongruent | lib/audio_adapter.js:264 | JavaScript's remainder moved up by m and reduced again is the Euclidean remainder |
| AudioAdapter.StartIndex | lib/audio_adapter.js:243-244 | defined iff there are names; then in [0, n) and equal to the positive modulo of floor(offset) |
| AudioAdapter.MenuRows | lib/audio_adapter.js:246-253 | three rows when there are names |
| AudioAdapter.SelectedIndex | lib/audio_adapter.js:282-283 | the selected index lies in [0, n) |
| AudioAdapter.MiddleRowIsSelection | lib/audio_adapter.js:246-283 | the device a press selects is the middle row, at full opacity |
| AudioAdapter.OuterRowsAreNeighbours | lib/audio_adapter.js:246-252 | the rows above and below show the neighbours of the selection at half opacity |
| AudioAdapter.RotateRightSelectsNext | lib/audio_adapter.js:258-283 | a right turn by one moves the selection to the next name, cyclically |
| AudioAdapter.DeviceMenu.constructor | lib/audio_adapter.js:234-310 | offset 0, listeners registered, the initial draw |
| AudioAdapter.DeviceMenu.Rotate | lib/audio_adapter.js:258-261 | the offset moves by direction · amount and the menu is redrawn |
| AudioAdapter.DeviceMenu.OnRotateLeft | lib/audio_adapter.js:267-269 | only encoder 0 moves the offset, by −amount |
| AudioAdapter.DeviceMenu.OnRotateRight | lib/audio_adapter.js:271-273 | only encoder 0 moves the offset, by +amount |
| AudioAdapter.PositiveBars | lib/audio_adapter.js:93 | a value is kept iff it occurs and is positive |
| AudioAdapter.PositiveBarsAppend | lib/audio_adapter.js:93 | the filter keeps order and multiplicity: the bars of a concatenation are the bars of each part in turn |
| AudioAdapter.PositiveBarsExtremes | lib/audio_adapter.js:93 | all-positive bars are kept as they are; bars with none positive give none |
| AudioAdapter.BarHeights | lib/audio_adapter.js:104 | one height per positive bar |
| AudioAdapter.PeakHoldIsDecayedMaximum | lib/audio_adapter.js:117-129 | each drawn peak is 0.98 · max(old peak, bar), or 0.98 · bar when new; undrawn peaks stay |
| AudioAdapter.PeakHoldBounds | lib/audio_adapter.js:117-129 | a drawn peak is at least 0.98 · its bar; a peak its bar did not exceed shrinks by 2% |
| AudioAdapter.PeakHold | lib/audio_adapter.js:117-129 | one peak per drawn bar or old peak, each drawn peak at least 0.98 · its bar and its old peak, undrawn peaks unchanged |
| AudioAdapter.HoldPeaks | lib/audio_adapter.js:102-130 | the loop computes the peak-hold of the bar heights |
| AudioAdapter.AudioAdapter.constructor | lib/audio_adapter.js:5-31 | nothing selected, visualiser off in mode 1, one websocket connecting |
| AudioAdapter.AudioAdapter.OnOpen | lib/audio_adapter.js:36-41 | connected; getDevices is sent, then the stored subscription, unchanged |
| AudioAdapter.AudioAdapter.Reconnect | lib/audio_adapter.js:62-69 | one timer is scheduled iff disconnected |
| AudioAdapter.AudioAdapter.OnClose | lib/audio_adapter.js:43-47 | disconnected, and exactly one reconnect is scheduled |
| AudioAdapter.AudioAdapter.OnError | lib/audio_adapter.js:49-53 | the error closes the socket and takes the close path |
| AudioAdapter.AudioAdapter.ReconnectTimerFired | lib/audio_adapter.js:65-67 | the timer opens a new websocket |
| AudioAdapter.AudioAdapter.DrawSpectrum | lib/audio_adapter.js:90-133 | the peaks become the peak-hold of the bar heights and one spectrum update is drawn |
| AudioAdapter.AudioAdapter.Visualize | lib/audio_adapter.js:171-192 | nothing unless shouldDraw; mode 0 draws the spectrum, mode 1 the waveform, other modes nothing |
| AudioAdapter.AudioAdapter.OnMessage | lib/audio_adapter.js:55-59 | streaming frames are visualised, devices replace the device list, other types change nothing |
| AudioAdapter.AudioAdapter.SetVisualizerMode | lib/audio_adapter.js:19 | an assignment to the public `visualizerMode`: the mode is set and nothing else changes |
| AudioAdapter.AudioAdapter.StartVisualizer | lib/audio_adapter.js:200-207 | shouldDraw and the canvas are set |
| AudioAdapter.AudioAdapter.StopVisualizer | lib/audio_adapter.js:212-219 | shouldDraw is false and ctx, canvas and canvasManager are cleared |
| AudioAdapter.AudioAdapter.ApplySelection | lib/audio_adapter.js:294-300 | the settings and the subscription built from them are stored; it is sent on an open socket |
| AudioAdapter.AudioAdapter.OnEncoderPress | lib/audio_adapter.js:275-304 | encoder 0 removes the listeners and fails iff the menu is empty, no device list is known or the index is past the current list; otherwise it stores and sends the subscription of the middle-row device |
| AudioAdapter.ResolveDevice | lib/audio_adapter.js:284-289 | for a listed name the id, default sample rate and frame size all exist; the frame size is at least 1024 |
| AudioAdapter.SelectionSurvivesReconnect | lib/audio_adapter.js:36-68 | after a drop and a reconnect the subscription goes out again unchanged, right after getDevices |
| Common.JsRem | lib/audio_utils.js:158 | JavaScript's remainder has the sign of the dividend and a magnitude below m |
| Common.IntToString | lib/audio_utils.js:168 | a non-empty decimal text, with a minus sign iff negative |
| Common.IntToStringInjective | lib/audio_utils.js:168 | different octaves are written differently |

## Left out

- Audio capture and the websocket transport: naudiodon's `AudioIO`, hyper-express, `ws` and JSON text. A message is its parsed value, and a capture device either opens or it does not (`deviceOpens`).
- The idle timeout of the server's websocket (audioServer.js:140) is not modelled. A timeout arrives as a close.
- The FFT and `calculateDB` (lib/audio_utils.js:199-210) are parameters. Their numerics, including `db || -1000`, are not modelled.
- Floating point: NaN, Infinity and rounding are not modelled. All arithmetic is exact. The integer 0 stands for `-0`, and it compares as `-0` does at every comparison the code makes: `-0 < 0` is false, which is what `NoteAsWritten` (lib/audio_utils.js:159) and `StartIndex` (lib/audio_adapter.js:244) rely on.
- AudioUtils.CalculateMultiplier: requires a non-zero frame size; JavaScript would give Infinity or NaN.
- AudioServer.AudioServer.ConfigurePortAudio: requires a non-zero frame size for the same reason.
- AudioServer.AudioServer.OnData: an odd-length chunk makes `readInt16LE` throw a RangeError (audioServer.js:42, reached from line 53) out of the `data` listener, and from there out of the stream's emit. The model records no frame for such a chunk; what the throw does to the capture stream and the process is not modelled.
- AudioServer.AudioServer.OnMessage: requires a non-zero frame size for the same reason. The TypeErrors of a malformed subscribe message are not modelled beyond `failed`.
- `Math.log10`, `Math.log2` and `Math.pow` are parameters. The lemmas that need their laws take those laws as preconditions.
- Canvas drawing, gradients and the waveform geometry (lib/audio_adapter.js:82-88, 96-114, 121-126, 135-169, 237-242) are not modelled. A draw is recorded as a `Drawing` value.
- The StreamDeck write (`fillLcdRegion`) is recorded in `lcdWrites`.
- The `animate` loop of lib/gfx.js:79-97 and its fps event are not modelled, nor is `fillLCDScreen`. While animating, each iteration of that loop clears `animationFrameRequested` (lib/gfx.js:91-93), so a later `requestAnimationFrame` starts a second loop. In the model the flag stays set once requested, so `RequestAnimationFrame` counts a loop only for the first request after construction; it does not say that only one loop ever runs.
- The selectDevice polling wait (lib/audio_adapter.js:232) is left out, with the streamDeck listener plumbing. The menu is built from the device list as it stands when the menu opens.
- The draw of an empty device menu (`undefined` names) is not modelled: `MenuRows` gives no rows.
- AudioAdapter.AudioAdapter.OnEncoderPress: follows the `ws` library for a send on a socket that is not open: it throws while connecting and drops the message once closed.
- Logger output: the choice of sinks (lib/logger/index.js:13-36), `console`, `process.send` and the timestamp and host name (lib/logger/index.js:42-47). The timestamp and host name are fields of `LogEnv`.
- The logger returns the line and its level number rather than calling a sink. With no sink configured the code would call `null`; that is not modelled.
- AudioAdapter.TruncateName: lengths and the cut count Unicode characters. JavaScript's `length` and `substring` (lib/audio_adapter.js:234) count UTF-16 code units. A name with characters outside the Basic Multilingual Plane, such as emoji, is cut later than the source cuts it, and never inside a surrogate pair; a lone surrogate is not a Dafny character.
- Logger.TemplateSubstitutes: a literal holding `{{` that never closes into a placeholder (such as `{{ x }}`) is not covered, nor by NullDataThrowsOnPlaceholder. `Render` itself copies such text as the code does.
- `toLowerCase` is modelled on ASCII letters only. Values placed in a template are strings, and a number is shown as decimal digits.
- The `log.*` wrappers and the start-up line (lib/logger/index.js:176-214) are not modelled. They only call `logger` with a fixed level name.
- lib/audio_adapter.js:77-80 (`#findIdByName`) is the same function as lib/audio_utils.js:23-26 and is modelled once, as `AudioUtils.FindIdByName`.

## Findings

| source | as written | input that shows it | evidently intended | confidence | as-written member | corrected member |
|---|---|---|---|---|---|---|
| lib/audio_utils.js:157-168 | below A4 the `octave--` for a negative remainder counts the floor twice and the later `octave < 4` increment undoes that; when semitones + 9 is a negative multiple of 12 the remainder is -0, nothing is decremented and the increment lifts the octave one too high | a frequency 21 semitones below A4 (about 130.81 Hz, C3) is named "C4" | the note 21 semitones below A4 is C3 | not executed | AudioUtils.NoteAsWritten, AudioUtils.LowCExample, AudioUtils.ClosestNoteAsWrittenAgrees | AudioUtils.Note, AudioUtils.NoteIsInjective |
