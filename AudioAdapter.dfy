/** The client side of lib/audio_adapter.js: the websocket connection to the
    audio server with its reconnect timer, the dispatch of incoming messages,
    the visualiser switch, the peak-hold update of the spectrum view, and the
    device menu driven by the StreamDeck rotary encoder.

    The websocket is a state (`Connecting`, `Open`, `Closed`) plus the list of
    messages it carried; its events become methods. The reconnect timer is a
    count of pending timers that `ReconnectTimerFired` consumes. Canvas
    drawing is recorded as `Drawing` values, one per StreamDeck update. */
module AudioAdapter {
  import opened Common
  import opened AudioUtils
  import opened Protocol

  // ---------------------------------------------------------------------
  // Device menu arithmetic
  // ---------------------------------------------------------------------

  /** Names longer than 42 characters are cut to 42 and get `...`. */
  function TruncateName(name: string): (r: string)
    ensures |r| == (if |name| > 42 then 45 else |name|)
    ensures |name| > 42 ==> r[..42] == name[..42] && r[42..] == "..."
    ensures |name| <= 42 ==> r == name
  {
    if |name| > 42 then name[..42] + "..." else name
  }

  /** A shown name keeps the first 42 characters (or all of a short name), is
      at most 45 long, and cutting again changes nothing. */
  lemma TruncateNameShape(name: string)
    ensures |name| <= 42 ==> TruncateName(name) == name
    ensures |name| > 42 ==> |TruncateName(name)| == 45 && TruncateName(name)[..42] == name[..42]
                            && TruncateName(name)[42..] == "..."
    ensures TruncateName(TruncateName(name)) == TruncateName(name)
  {
    if |name| > 42 {
      var t := TruncateName(name);
      assert t[..42] == name[..42];
    }
  }

  /** `out_devices_name`: the shown name of every device, in order. */
  function DisplayNames(devices: seq<Device>): (names: seq<string>)
    ensures |names| == |devices|
    ensures forall i :: 0 <= i < |devices| ==> names[i] == TruncateName(devices[i].name)
  {
    seq(|devices|, i requires 0 <= i < |devices| => TruncateName(devices[i].name))
  }

  /** `getPositiveModulo(n, m)`: `((n % m) + m) % m` with JavaScript's `%`. */
  function PositiveModulo(n: int, m: int): (r: int)
    requires m > 0
    ensures r == n % m
  {
    var x := JsRem(n, m) + m;
    JsRemCongruent(n, m);
    JsRem(x, m)
  }

  /** A JavaScript remainder differs from the Euclidean one by 0 or m. */
  lemma JsRemCongruent(a: int, m: int)
    requires m > 0
    ensures JsRem(JsRem(a, m) + m, m) == a % m
  {
    var s := JsRem(a, m);
    AdjustedRemainder(a, m);
    if s < 0 {
      ModUnique(s + m, m, 0, s + m);
    } else {
      ModUnique(s + m, m, 1, s);
    }
  }

  /** Moving a negative JavaScript remainder up by m gives the Euclidean one. */
  lemma AdjustedRemainder(a: int, m: int)
    requires m > 0
    ensures (if JsRem(a, m) < 0 then JsRem(a, m) + m else JsRem(a, m)) == a % m
  {
    if a < 0 {
      NegativeRemainder(a, m);
    }
  }

  lemma NegativeRemainder(a: int, m: int)
    requires m > 0 && a < 0
    ensures a % m == if (-a) % m == 0 then 0 else m - (-a) % m
  {
    var q, r := (-a) / m, (-a) % m;
    assert -a == q * m + r;
    if r == 0 {
      assert a == (-q) * m;
      ModOfMultiple(-q, m);
    } else {
      assert a == (-q - 1) * m + (m - r);
      ModUnique(a, m, -q - 1, m - r);
    }
  }

  lemma MulAtLeast(d: int, m: int)
    requires d >= 1 && m > 0
    ensures d * m >= m
  {
    assert d * m == (d - 1) * m + m;
    assert (d - 1) * m >= 0;
  }

  /** Euclidean division leaves one remainder: a = q * m + r with 0 <= r < m fixes r. */
  lemma ModUnique(a: int, m: int, q: int, r: int)
    requires m > 0 && a == q * m + r && 0 <= r < m
    ensures a % m == r
  {
    var q' := a / m;
    var r' := a % m;
    assert q' * m + r' == q * m + r;
    if q' > q {
      assert (q' - q) * m == q' * m - q * m;
      MulAtLeast(q' - q, m);
    } else if q' < q {
      assert (q - q') * m == q * m - q' * m;
      MulAtLeast(q - q', m);
    }
  }

  lemma ModOfMultiple(q: int, m: int)
    requires m > 0
    ensures (q * m) % m == 0
  {
    ModUnique(q * m, m, q, 0);
  }

  /** `startIndex` of `drawNames`: `Math.floor(offset) % n`, moved up by n
      when negative. With no names it is NaN, here None. */
  function StartIndex(offset: real, n: nat): (r: Option<int>)
    ensures r.Some? <==> n > 0
    ensures r.Some? ==> 0 <= r.value < n && r.value == PositiveModulo(offset.Floor, n)
  {
    if n == 0 then None
    else
      var start := JsRem(offset.Floor, n);
      AdjustedRemainder(offset.Floor, n);
      Some(if start < 0 then start + n else start)
  }

  /** One line of the menu: the name, its `globalAlpha`, and its height above
      (negative) or below the middle of the canvas in pixels. */
  datatype Row = Row(name: string, alpha: real, dy: int)

  /** The three rows `drawNames` writes, starting at `startIndex`. */
  function MenuRows(names: seq<string>, offset: real): (rows: seq<Row>)
    ensures |rows| == (if names == [] then 0 else 3)
  {
    match StartIndex(offset, |names|)
    case None => []
    case Some(start) =>
      seq(3, i requires 0 <= i < 3 =>
        Row(names[(start + i) % |names|], if i == 0 || i == 2 then 0.5 else 1.0, (i - 1) * 30))
  }

  /** The index `onEncoderPress` selects: `(getPositiveModulo(floor(offset), n) + 1) % n`. */
  function SelectedIndex(offset: real, n: nat): (k: nat)
    requires n > 0
    ensures k < n
  {
    (PositiveModulo(offset.Floor, n) + 1) % n
  }

  /** The device a press selects is the one drawn in the middle row at full opacity. */
  lemma MiddleRowIsSelection(names: seq<string>, offset: real)
    requires names != []
    ensures MenuRows(names, offset)[1] == Row(names[SelectedIndex(offset, |names|)], 1.0, 0)
  {
  }

  /** Row i shows the name i places after `startIndex`. */
  lemma MenuRowAt(names: seq<string>, offset: real, i: nat)
    requires names != [] && i < 3
    ensures MenuRows(names, offset)[i]
            == Row(names[(PositiveModulo(offset.Floor, |names|) + i) % |names|], if i == 1 then 1.0 else 0.5, (i - 1) * 30)
  {
  }

  lemma NeighbourIndices(s: int, n: int, k: int)
    requires 0 <= s < n && k == (s + 1) % n
    ensures (k + n - 1) % n == (s + 0) % n
    ensures (k + 1) % n == (s + 2) % n
  {
    ModUnique(s + 0, n, 0, s);
    if s + 1 < n {
      ModUnique(s + 1, n, 0, s + 1);
      ModUnique(s + n, n, 1, s);
    } else {
      ModUnique(s + 1, n, 1, 0);
      ModUnique(n - 1, n, 0, s);
      ModStep(s, n);
    }
  }

  /** The outer rows show the neighbours of the selection, dimmed. */
  lemma OuterRowsAreNeighbours(names: seq<string>, offset: real)
    requires names != []
    ensures var n := |names|; var k := SelectedIndex(offset, n);
            MenuRows(names, offset)[0] == Row(names[(k + n - 1) % n], 0.5, -30)
            && MenuRows(names, offset)[2] == Row(names[(k + 1) % n], 0.5, 30)
  {
    var n := |names|;
    var s := PositiveModulo(offset.Floor, n);
    MenuRowAt(names, offset, 0);
    MenuRowAt(names, offset, 2);
    NeighbourIndices(s, n, SelectedIndex(offset, n));
  }

  /** Turning the encoder right by one step moves the selection to the next name. */
  lemma RotateRightSelectsNext(offset: real, n: nat)
    requires n > 0
    ensures SelectedIndex(offset + 1.0, n) == (SelectedIndex(offset, n) + 1) % n
  {
    var a := offset.Floor;
    assert (offset + 1.0).Floor == a + 1;
    var s := a % n;
    ModUnique(a, n, a / n, s);
    if s + 1 < n {
      ModUnique(a + 1, n, a / n, s + 1);
    } else {
      ModUnique(a + 1, n, a / n + 1, 0);
      ModUnique(s + 1, n, 1, 0);
    }
    ModStep(PositiveModulo(a + 1, n), n);
    ModStep(PositiveModulo(a, n), n);
  }

  lemma ModStep(s: int, n: int)
    requires n > 0 && 0 <= s < n
    ensures ((s + 1) % n + 1) % n == (s + 2) % n
  {
    ModUnique(s + 0, n, 0, s);
    if s + 1 < n {
      ModUnique(s + 1, n, 0, s + 1);
    } else {
      ModUnique(s + 1, n, 1, 0);
      if n == 1 {
        ModUnique(s + 2, n, 2, 0);
        ModUnique(1, n, 1, 0);
      } else {
        ModUnique(s + 2, n, 1, 1);
        ModUnique(1, n, 0, 1);
      }
    }
  }

  /** The state of the menu `selectDevice` shows on the StreamDeck. */
  class DeviceMenu {
    /** `out_devices_name`, fixed when the menu opens. */
    const names: seq<string>
    /** The rotary encoder offset. */
    var offset: real
    /** The `rotateLeft` / `rotateRight` / `encoderDown` listeners are registered. */
    var listening: bool
    /** The rows of every `drawNames` call, in order. */
    var drawn: seq<seq<Row>>
    /** The promise of `selectDevice` resolved. */
    var resolved: bool

    /** Opening the menu on the device list: offset 0 and the initial draw. */
    constructor(devices: seq<Device>)
      ensures names == DisplayNames(devices) && offset == 0.0
      ensures listening && !resolved
      ensures drawn == [MenuRows(DisplayNames(devices), 0.0)]
    {
      names := DisplayNames(devices);
      offset := 0.0;
      listening := true;
      resolved := false;
      drawn := [MenuRows(DisplayNames(devices), 0.0)];
    }

    /** `rotate(amount, direction)`: move the offset and redraw. */
    method Rotate(amount: real, direction: real)
      modifies this
      ensures offset == old(offset) + direction * amount
      ensures drawn == old(drawn) + [MenuRows(names, offset)]
      ensures listening == old(listening) && resolved == old(resolved)
    {
      offset := offset + direction * amount;
      drawn := drawn + [MenuRows(names, offset)];
    }

    /** `onRotateLeft(index, amount)`: only encoder 0 turns the menu. */
    method OnRotateLeft(index: int, amount: real)
      requires listening
      modifies this
      ensures index == 0 ==> offset == old(offset) - amount && drawn == old(drawn) + [MenuRows(names, offset)]
      ensures index != 0 ==> offset == old(offset) && drawn == old(drawn)
      ensures listening == old(listening) && resolved == old(resolved)
    {
      if index == 0 {
        Rotate(amount, -1.0);
      }
    }

    /** `onRotateRight(index, amount)`. */
    method OnRotateRight(index: int, amount: real)
      requires listening
      modifies this
      ensures index == 0 ==> offset == old(offset) + amount && drawn == old(drawn) + [MenuRows(names, offset)]
      ensures index != 0 ==> offset == old(offset) && drawn == old(drawn)
      ensures listening == old(listening) && resolved == old(resolved)
    {
      if index == 0 {
        Rotate(amount, 1.0);
      }
    }
  }

  // ---------------------------------------------------------------------
  // Spectrum view
  // ---------------------------------------------------------------------

  /** `analyzer.filter(amp => amp > 0)`. */
  function PositiveBars(analyzer: seq<real>): (bars: seq<real>)
    ensures |bars| <= |analyzer|
    ensures forall x :: x in bars <==> x in analyzer && x > 0.0
  {
    if analyzer == [] then []
    else if analyzer[0] > 0.0 then [analyzer[0]] + PositiveBars(analyzer[1..])
    else PositiveBars(analyzer[1..])
  }

  /** The filter works element by element and keeps the order: the bars of a
      concatenation are the bars of its parts, one after the other. */
  lemma {:induction false} PositiveBarsAppend(a: seq<real>, b: seq<real>)
    ensures PositiveBars(a + b) == PositiveBars(a) + PositiveBars(b)
  {
    if a == [] {
      assert a + b == b;
    } else {
      assert (a + b)[0] == a[0] && (a + b)[1..] == a[1..] + b;
      PositiveBarsAppend(a[1..], b);
    }
  }

  /** The filter keeps the bars in order: all of them when all are positive, none when none is. */
  lemma {:induction false} PositiveBarsExtremes(analyzer: seq<real>)
    ensures (forall i :: 0 <= i < |analyzer| ==> analyzer[i] > 0.0) ==> PositiveBars(analyzer) == analyzer
    ensures (forall i :: 0 <= i < |analyzer| ==> analyzer[i] <= 0.0) ==> PositiveBars(analyzer) == []
  {
    if analyzer != [] {
      PositiveBarsExtremes(analyzer[1..]);
      assert [analyzer[0]] + analyzer[1..] == analyzer;
    }
  }

  /** The heights of the drawn bars: amplitude times `AmplituteMultiplayer`. */
  function BarHeights(frame: FeatureFrame): (heights: seq<real>)
    ensures |heights| == |PositiveBars(frame.analyzer)|
  {
    var bars := PositiveBars(frame.analyzer);
    seq(|bars|, i requires 0 <= i < |bars| => bars[i] * frame.AmplituteMultiplayer)
  }

  function MaxNat(a: nat, b: nat): nat
  {
    if a < b then b else a
  }

  /** `peaks` after drawing `bars`: each drawn index holds 0.98 of the larger
      of its old peak and its bar (of the bar alone when it had no peak);
      peaks past the drawn bars stay. */
  function PeakHold(peaks: seq<real>, bars: seq<real>): (r: seq<real>)
    ensures |r| == MaxNat(|peaks|, |bars|)
    ensures forall i :: 0 <= i < |bars| ==> r[i] >= 0.98 * bars[i]
    ensures forall i :: 0 <= i < |bars| && i < |peaks| ==> r[i] >= 0.98 * peaks[i]
    ensures forall i :: |bars| <= i < |r| ==> r[i] == peaks[i]
  {
    seq(MaxNat(|peaks|, |bars|), i requires 0 <= i < MaxNat(|peaks|, |bars|) =>
      if i < |bars| then
        (if i >= |peaks| || bars[i] > peaks[i] then bars[i] else peaks[i]) * 0.98
      else peaks[i])
  }

  /** The peak-hold rule stated index by index. */
  lemma PeakHoldIsDecayedMaximum(peaks: seq<real>, bars: seq<real>, i: nat)
    requires i < MaxNat(|peaks|, |bars|)
    ensures |PeakHold(peaks, bars)| == MaxNat(|peaks|, |bars|)
    ensures i < |bars| && i < |peaks| ==>
              PeakHold(peaks, bars)[i] == 0.98 * (if peaks[i] < bars[i] then bars[i] else peaks[i])
    ensures |peaks| <= i < |bars| ==> PeakHold(peaks, bars)[i] == 0.98 * bars[i]
    ensures |bars| <= i ==> PeakHold(peaks, bars)[i] == peaks[i]
  {
  }

  /** A drawn peak never falls below 0.98 of its bar, and a peak the bar did
      not exceed shrinks by 2%. */
  lemma PeakHoldBounds(peaks: seq<real>, bars: seq<real>, i: nat)
    requires i < |bars|
    ensures PeakHold(peaks, bars)[i] >= 0.98 * bars[i]
    ensures i < |peaks| && bars[i] <= peaks[i] ==> PeakHold(peaks, bars)[i] == 0.98 * peaks[i]
    ensures i < |peaks| && 0.0 < bars[i] <= peaks[i] ==> PeakHold(peaks, bars)[i] < peaks[i]
  {
  }

  /** After one more bar the peaks are those of the longer prefix. */
  lemma PeakHoldStep(before: seq<real>, bars: seq<real>, i: nat, peaks: seq<real>, next: seq<real>)
    requires i < |bars| && peaks == PeakHold(before, bars[..i])
    requires next == (if i >= |peaks| then peaks + [bars[i] * 0.98]
                      else peaks[i := (if bars[i] > peaks[i] then bars[i] else peaks[i]) * 0.98])
    ensures next == PeakHold(before, bars[..i + 1])
  {
    var target := PeakHold(before, bars[..i + 1]);
    assert |next| == |target|;
    forall j | 0 <= j < |next|
      ensures next[j] == target[j]
    {
      if j < i {
        assert bars[..i + 1][j] == bars[..i][j];
      } else if j == i {
        assert bars[..i + 1][j] == bars[i];
      }
    }
  }

  /** The update loop of `#drawSpectrum` over the bar heights. */
  method HoldPeaks(peaks: seq<real>, bars: seq<real>) returns (held: seq<real>)
    ensures held == PeakHold(peaks, bars)
  {
    held := peaks;
    var i := 0;
    assert bars[..0] == [];
    assert PeakHold(peaks, []) == peaks;
    while i < |bars|
      invariant 0 <= i <= |bars|
      invariant held == PeakHold(peaks, bars[..i])
    {
      ghost var current := held;
      if i >= |held| {
        held := held + [bars[i] * 0.98];
      } else {
        held := held[i := (if bars[i] > held[i] then bars[i] else held[i]) * 0.98];
      }
      PeakHoldStep(peaks, bars, i, current, held);
      i := i + 1;
    }
    assert bars[..i] == bars;
  }

  /** What one StreamDeck update shows. */
  datatype Drawing = SpectrumDrawn(heights: seq<real>) | WaveformDrawn(waveform: seq<int>)

  datatype SocketState = Connecting | Open | Closed

  /** What an encoder press did. */
  datatype PressOutcome =
    | Ignored                            // not encoder 0
    | Failed                             // a TypeError in the handler
    | Selected(subscription: ClientMessage)

  class AudioAdapter {
    var isConnected: bool
    /** The state of the current websocket. */
    var socket: SocketState
    /** How many times `#connect` opened a websocket. */
    var connects: nat
    /** Reconnect timers scheduled and not yet fired. */
    var pendingReconnects: nat
    /** Every message sent to the server, over all connections, in order. */
    var outbox: seq<ClientMessage>
    var subscribeToAudioStream: Option<ClientMessage>
    var sampleRate: real
    var frameSize: real
    var audioDeviceID: int
    var shouldDraw: bool
    var visualizerMode: int
    /** `ctx`, `canvas` and `canvasManager` are set. */
    var canvasAttached: bool
    var audioDevices: Option<seq<Device>>
    var peaks: seq<real>
    /** Every StreamDeck update made by the visualiser, in order. */
    var draws: seq<Drawing>

    /** The flags agree with each other and the stored subscription is the
        one built from the stored device settings. */
    ghost predicate Valid()
      reads this
    {
      && (shouldDraw <==> canvasAttached)
      && (isConnected <==> socket == Open)
      && (subscribeToAudioStream.Some? ==>
            subscribeToAudioStream.value == Subscribe(sampleRate, frameSize, audioDeviceID))
    }

    /** The constructor: nothing selected, visualiser off in waveform mode, and `#connect`. */
    constructor()
      ensures Valid()
      ensures !isConnected && socket == Connecting && connects == 1 && pendingReconnects == 0
      ensures outbox == [] && subscribeToAudioStream.None?
      ensures sampleRate == 0.0 && frameSize == 0.0 && audioDeviceID == 0
      ensures !shouldDraw && visualizerMode == 1 && !canvasAttached
      ensures audioDevices.None? && peaks == [] && draws == []
    {
      isConnected := false;
      socket := Connecting;
      connects := 1;
      pendingReconnects := 0;
      outbox := [];
      subscribeToAudioStream := None;
      sampleRate := 0.0;
      frameSize := 0.0;
      audioDeviceID := 0;
      shouldDraw := false;
      visualizerMode := 1;
      canvasAttached := false;
      audioDevices := None;
      peaks := [];
      draws := [];
    }

    /** `open`: connected; ask for the devices, then re-send a stored subscription verbatim. */
    method OnOpen()
      requires Valid()
      modifies this
      ensures Valid()
      ensures isConnected && socket == Open
      ensures outbox == old(outbox) + [GetDevices]
                        + (if old(subscribeToAudioStream).Some? then [old(subscribeToAudioStream).value] else [])
      ensures subscribeToAudioStream == old(subscribeToAudioStream)
      ensures connects == old(connects) && pendingReconnects == old(pendingReconnects)
      ensures sampleRate == old(sampleRate) && frameSize == old(frameSize) && audioDeviceID == old(audioDeviceID)
      ensures shouldDraw == old(shouldDraw) && visualizerMode == old(visualizerMode) && canvasAttached == old(canvasAttached)
      ensures audioDevices == old(audioDevices) && peaks == old(peaks) && draws == old(draws)
    {
      isConnected := true;
      socket := Open;
      outbox := outbox + [GetDevices];
      if subscribeToAudioStream.Some? {
        outbox := outbox + [subscribeToAudioStream.value];
      }
    }

    /** `#reconnect`: schedule one `#connect` if still disconnected. */
    method Reconnect()
      modifies this
      ensures pendingReconnects == old(pendingReconnects) + (if old(isConnected) then 0 else 1)
      ensures isConnected == old(isConnected) && socket == old(socket) && connects == old(connects)
      ensures outbox == old(outbox) && subscribeToAudioStream == old(subscribeToAudioStream)
      ensures sampleRate == old(sampleRate) && frameSize == old(frameSize) && audioDeviceID == old(audioDeviceID)
      ensures shouldDraw == old(shouldDraw) && visualizerMode == old(visualizerMode) && canvasAttached == old(canvasAttached)
      ensures audioDevices == old(audioDevices) && peaks == old(peaks) && draws == old(draws)
    {
      if !isConnected {
        pendingReconnects := pendingReconnects + 1;
      }
    }

    /** `close`: disconnected, and exactly one reconnect timer is scheduled. */
    method OnClose()
      requires Valid()
      modifies this
      ensures Valid()
      ensures !isConnected && socket == Closed
      ensures pendingReconnects == old(pendingReconnects) + 1
      ensures connects == old(connects) && outbox == old(outbox) && subscribeToAudioStream == old(subscribeToAudioStream)
      ensures sampleRate == old(sampleRate) && frameSize == old(frameSize) && audioDeviceID == old(audioDeviceID)
      ensures shouldDraw == old(shouldDraw) && visualizerMode == old(visualizerMode) && canvasAttached == old(canvasAttached)
      ensures audioDevices == old(audioDevices) && peaks == old(peaks) && draws == old(draws)
    {
      isConnected := false;
      socket := Closed;
      Reconnect();
    }

    /** `error`: the socket is closed, which takes the close path. */
    method OnError()
      requires Valid()
      modifies this
      ensures Valid()
      ensures !isConnected && socket == Closed
      ensures pendingReconnects == old(pendingReconnects) + 1
      ensures connects == old(connects) && outbox == old(outbox) && subscribeToAudioStream == old(subscribeToAudioStream)
      ensures sampleRate == old(sampleRate) && frameSize == old(frameSize) && audioDeviceID == old(audioDeviceID)
      ensures shouldDraw == old(shouldDraw) && visualizerMode == old(visualizerMode) && canvasAttached == old(canvasAttached)
      ensures audioDevices == old(audioDevices) && peaks == old(peaks) && draws == old(draws)
    {
      OnClose();
    }

    /** The reconnect timer fires after `reconnectInterval` (1000 ms): `#connect` opens a new websocket. */
    method ReconnectTimerFired()
      requires Valid() && pendingReconnects > 0 && !isConnected
      modifies this
      ensures Valid()
      ensures socket == Connecting && connects == old(connects) + 1 && pendingReconnects == old(pendingReconnects) - 1
      ensures isConnected == old(isConnected) && outbox == old(outbox) && subscribeToAudioStream == old(subscribeToAudioStream)
      ensures sampleRate == old(sampleRate) && frameSize == old(frameSize) && audioDeviceID == old(audioDeviceID)
      ensures shouldDraw == old(shouldDraw) && visualizerMode == old(visualizerMode) && canvasAttached == old(canvasAttached)
      ensures audioDevices == old(audioDevices) && peaks == old(peaks) && draws == old(draws)
    {
      pendingReconnects := pendingReconnects - 1;
      socket := Connecting;
      connects := connects + 1;
    }

    /** `#drawSpectrum(data)`: draw the positive bars, update the peaks, update the StreamDeck. */
    method DrawSpectrum(frame: FeatureFrame)
      modifies this
      ensures peaks == PeakHold(old(peaks), BarHeights(frame))
      ensures draws == old(draws) + [SpectrumDrawn(BarHeights(frame))]
      ensures isConnected == old(isConnected) && socket == old(socket) && connects == old(connects)
      ensures pendingReconnects == old(pendingReconnects)
      ensures outbox == old(outbox) && subscribeToAudioStream == old(subscribeToAudioStream)
      ensures sampleRate == old(sampleRate) && frameSize == old(frameSize) && audioDeviceID == old(audioDeviceID)
      ensures shouldDraw == old(shouldDraw) && visualizerMode == old(visualizerMode) && canvasAttached == old(canvasAttached)
      ensures audioDevices == old(audioDevices)
    {
      var bars := BarHeights(frame);
      peaks := HoldPeaks(peaks, bars);
      draws := draws + [SpectrumDrawn(bars)];
    }

    /** `#visualize(data)`: nothing unless drawing is on; mode 0 draws the
        spectrum, mode 1 the waveform, any other mode nothing. */
    method Visualize(frame: FeatureFrame)
      modifies this
      ensures !old(shouldDraw) || (old(visualizerMode) != 0 && old(visualizerMode) != 1) ==>
                peaks == old(peaks) && draws == old(draws)
      ensures old(shouldDraw) && old(visualizerMode) == 0 ==>
                peaks == PeakHold(old(peaks), BarHeights(frame)) && draws == old(draws) + [SpectrumDrawn(BarHeights(frame))]
      ensures old(shouldDraw) && old(visualizerMode) == 1 ==>
                peaks == old(peaks) && draws == old(draws) + [WaveformDrawn(frame.waveform)]
      ensures isConnected == old(isConnected) && socket == old(socket) && connects == old(connects)
      ensures pendingReconnects == old(pendingReconnects)
      ensures outbox == old(outbox) && subscribeToAudioStream == old(subscribeToAudioStream)
      ensures sampleRate == old(sampleRate) && frameSize == old(frameSize) && audioDeviceID == old(audioDeviceID)
      ensures shouldDraw == old(shouldDraw) && visualizerMode == old(visualizerMode) && canvasAttached == old(canvasAttached)
      ensures audioDevices == old(audioDevices)
    {
      if !shouldDraw {
        return;
      }
      if visualizerMode == 0 {
        DrawSpectrum(frame);
      } else if visualizerMode == 1 {
        draws := draws + [WaveformDrawn(frame.waveform)];
      }
    }

    /** `message`: `streaming` frames are visualised, `devices` replace the
        device list, anything else is ignored. */
    method OnMessage(msg: ServerMessage)
      requires Valid()
      modifies this
      ensures Valid()
      ensures msg.Devices? ==> audioDevices == Some(msg.devices) && peaks == old(peaks) && draws == old(draws)
      ensures msg.OtherMessage? ==> audioDevices == old(audioDevices) && peaks == old(peaks) && draws == old(draws)
      ensures msg.Streaming? ==> audioDevices == old(audioDevices)
      ensures msg.Streaming? && old(shouldDraw) && old(visualizerMode) == 0 ==>
                peaks == PeakHold(old(peaks), BarHeights(msg.frame))
                && draws == old(draws) + [SpectrumDrawn(BarHeights(msg.frame))]
      ensures msg.Streaming? && old(shouldDraw) && old(visualizerMode) == 1 ==>
                peaks == old(peaks) && draws == old(draws) + [WaveformDrawn(msg.frame.waveform)]
      ensures msg.Streaming? && (!old(shouldDraw) || (old(visualizerMode) != 0 && old(visualizerMode) != 1)) ==>
                peaks == old(peaks) && draws == old(draws)
      ensures isConnected == old(isConnected) && socket == old(socket) && connects == old(connects)
      ensures pendingReconnects == old(pendingReconnects)
      ensures outbox == old(outbox) && subscribeToAudioStream == old(subscribeToAudioStream)
      ensures sampleRate == old(sampleRate) && frameSize == old(frameSize) && audioDeviceID == old(audioDeviceID)
      ensures shouldDraw == old(shouldDraw) && visualizerMode == old(visualizerMode) && canvasAttached == old(canvasAttached)
    {
      match msg
      case Streaming(frame) => Visualize(frame);
      case Devices(devices) => audioDevices := Some(devices);
      case OtherMessage(_) =>
    }

    /** Assigning the public `visualizerMode` property. */
    method SetVisualizerMode(mode: int)
      requires Valid()
      modifies this
      ensures Valid() && visualizerMode == mode
      ensures isConnected == old(isConnected) && socket == old(socket) && connects == old(connects)
      ensures pendingReconnects == old(pendingReconnects)
      ensures outbox == old(outbox) && subscribeToAudioStream == old(subscribeToAudioStream)
      ensures sampleRate == old(sampleRate) && frameSize == old(frameSize) && audioDeviceID == old(audioDeviceID)
      ensures shouldDraw == old(shouldDraw) && canvasAttached == old(canvasAttached)
      ensures audioDevices == old(audioDevices) && peaks == old(peaks) && draws == old(draws)
    {
      visualizerMode := mode;
    }

    /** `startVisualizer(ctx, canvas, canvasManager)`. */
    method StartVisualizer()
      requires Valid()
      modifies this
      ensures Valid() && shouldDraw && canvasAttached
      ensures isConnected == old(isConnected) && socket == old(socket) && connects == old(connects)
      ensures pendingReconnects == old(pendingReconnects)
      ensures outbox == old(outbox) && subscribeToAudioStream == old(subscribeToAudioStream)
      ensures sampleRate == old(sampleRate) && frameSize == old(frameSize) && audioDeviceID == old(audioDeviceID)
      ensures visualizerMode == old(visualizerMode)
      ensures audioDevices == old(audioDevices) && peaks == old(peaks) && draws == old(draws)
    {
      shouldDraw := true;
      canvasAttached := true;
    }

    /** `stopVisualizer()`: drawing off, ctx, canvas and canvasManager cleared. */
    method StopVisualizer()
      requires Valid()
      modifies this
      ensures Valid() && !shouldDraw && !canvasAttached
      ensures isConnected == old(isConnected) && socket == old(socket) && connects == old(connects)
      ensures pendingReconnects == old(pendingReconnects)
      ensures outbox == old(outbox) && subscribeToAudioStream == old(subscribeToAudioStream)
      ensures sampleRate == old(sampleRate) && frameSize == old(frameSize) && audioDeviceID == old(audioDeviceID)
      ensures visualizerMode == old(visualizerMode)
      ensures audioDevices == old(audioDevices) && peaks == old(peaks) && draws == old(draws)
    {
      shouldDraw := false;
      canvasAttached := false;
    }

    /** The end of `onEncoderPress`: store the device settings, build the
        subscription from them, store it and send it on an open socket. */
    method ApplySelection(id: int, rate: real, size: real) returns (subscription: ClientMessage)
      requires Valid()
      modifies this
      ensures Valid()
      ensures sampleRate == rate && frameSize == size && audioDeviceID == id
      ensures subscription == Subscribe(rate, size, id) && subscribeToAudioStream == Some(subscription)
      ensures outbox == old(outbox) + (if socket == Open then [subscription] else [])
      ensures isConnected == old(isConnected) && socket == old(socket) && connects == old(connects)
      ensures pendingReconnects == old(pendingReconnects)
      ensures shouldDraw == old(shouldDraw) && visualizerMode == old(visualizerMode) && canvasAttached == old(canvasAttached)
      ensures audioDevices == old(audioDevices) && peaks == old(peaks) && draws == old(draws)
    {
      sampleRate := rate;
      frameSize := size;
      audioDeviceID := id;
      subscription := Subscribe(sampleRate, frameSize, audioDeviceID);
      subscribeToAudioStream := Some(subscription);
      if socket == Open {
        outbox := outbox + [subscription];
      }
    }

    /** `onEncoderPress(index)` of `selectDevice`. On encoder 0 the listeners
        are removed; the device under the middle row is looked up in the
        current device list, its default sample rate and the frame size for
        30 frames per second are stored, and the subscription built from
        them is stored and sent. A send on a connecting socket throws (the
        menu's promise then stays pending); on a closed one it is dropped. */
    method OnEncoderPress(menu: DeviceMenu, index: int) returns (outcome: PressOutcome)
      requires Valid() && menu.listening
      modifies this, menu
      ensures Valid()
      ensures index != 0 ==> outcome == Ignored
      ensures index == 0 ==> !menu.listening && !outcome.Ignored?
      ensures index == 0 && outcome.Failed? <==> index == 0 && !Selectable(menu.names, menu.offset, old(audioDevices))
      ensures outcome.Selected? ==>
                && Selectable(menu.names, menu.offset, old(audioDevices))
                && Resolves(old(audioDevices).value, SelectedDevice(menu.names, menu.offset, old(audioDevices)).name,
                            audioDeviceID, sampleRate, frameSize)
                && outcome.subscription == Subscribe(sampleRate, frameSize, audioDeviceID)
                && subscribeToAudioStream == Some(outcome.subscription)
                && outbox == old(outbox) + (if socket == Open then [outcome.subscription] else [])
                && menu.resolved == (old(menu.resolved) || socket != Connecting)
      ensures !outcome.Selected? ==>
                outbox == old(outbox) && subscribeToAudioStream == old(subscribeToAudioStream)
                && sampleRate == old(sampleRate) && frameSize == old(frameSize) && audioDeviceID == old(audioDeviceID)
                && menu.resolved == old(menu.resolved)
      ensures isConnected == old(isConnected) && socket == old(socket) && connects == old(connects)
      ensures pendingReconnects == old(pendingReconnects)
      ensures shouldDraw == old(shouldDraw) && visualizerMode == old(visualizerMode) && canvasAttached == old(canvasAttached)
      ensures audioDevices == old(audioDevices) && peaks == old(peaks) && draws == old(draws)
      ensures menu.offset == old(menu.offset) && menu.drawn == old(menu.drawn)
    {
      if index != 0 {
        return Ignored;
      }
      menu.listening := false;
      if !Selectable(menu.names, menu.offset, audioDevices) {
        return Failed;
      }
      var devices := audioDevices.value;
      var device := SelectedDevice(menu.names, menu.offset, audioDevices);
      var id, rate, size := ResolveDevice(devices, device.name);
      var subscription := ApplySelection(id, rate, size);
      if socket != Connecting {
        menu.resolved := true;
      }
      return Selected(subscription);
    }
  }

  /** A press can pick a device: there are names, a device list, and the
      selected index lies inside the current list (`audioDevices` may have
      been replaced since the menu opened). */
  predicate Selectable(names: seq<string>, offset: real, audioDevices: Option<seq<Device>>)
  {
    names != [] && audioDevices.Some? && SelectedIndex(offset, |names|) < |audioDevices.value|
  }

  /** `this.audioDevices[resolvedIndex]`. */
  function SelectedDevice(names: seq<string>, offset: real, audioDevices: Option<seq<Device>>): Device
    requires Selectable(names, offset, audioDevices)
  {
    audioDevices.value[SelectedIndex(offset, |names|)]
  }

  /** The settings a selection stores: the id of the first device with the
      name, the default sample rate of the first device with that id, and the
      frame size for 30 frames per second at that rate. */
  predicate Resolves(devices: seq<Device>, name: string, id: int, rate: real, size: real)
  {
    && FindIdByName(name, devices) == Some(id)
    && (exists j :: 0 <= j < |devices| && devices[j].id == id && devices[j].defaultSampleRate == rate
                    && forall i :: 0 <= i < j ==> devices[i].id != id)
    && size == CalculateFrameSize(rate, 30.0) as real
  }

  /** `#findIdByName`, `getDefaultSampleRate` and `calculateFrameSize(sampleRate, 30)`
      for a name that is in the list: none of the lookups fails. */
  method ResolveDevice(devices: seq<Device>, name: string) returns (id: int, rate: real, size: real)
    requires exists k :: 0 <= k < |devices| && devices[k].name == name
    ensures Resolves(devices, name, id, rate, size)
    ensures 1024.0 <= size
  {
    var found := FindIdByName(name, devices);
    id := found.value;
    var defaultRate := GetDefaultSampleRate(devices, id);
    rate := defaultRate.value;
    size := CalculateFrameSize(rate, 30.0) as real;
  }

  /** A subscription made at selection is sent again, unchanged, after the
      connection drops and comes back. */
  method SelectionSurvivesReconnect(devices: seq<Device>) returns (adapter: AudioAdapter, subscription: ClientMessage)
    requires devices != []
    ensures fresh(adapter) && adapter.Valid()
    ensures adapter.isConnected && adapter.connects == 2
    ensures subscription.Subscribe?
    ensures adapter.outbox == [GetDevices, subscription, GetDevices, subscription]
  {
    adapter, subscription := SelectOnFirstConnection(devices);
    adapter.OnClose();
    adapter.ReconnectTimerFired();
    adapter.OnOpen();
  }

  /** Connect, receive the device list and press on the first menu entry. */
  method SelectOnFirstConnection(devices: seq<Device>) returns (adapter: AudioAdapter, subscription: ClientMessage)
    requires devices != []
    ensures fresh(adapter) && adapter.Valid()
    ensures adapter.isConnected && adapter.socket == Open && adapter.connects == 1 && adapter.pendingReconnects == 0
    ensures subscription.Subscribe? && adapter.subscribeToAudioStream == Some(subscription)
    ensures adapter.outbox == [GetDevices, subscription]
  {
    adapter := new AudioAdapter();
    adapter.OnOpen();
    adapter.OnMessage(Devices(devices));
    var menu := new DeviceMenu(devices);
    var outcome := adapter.OnEncoderPress(menu, 0);
    assert SelectedIndex(0.0, |devices|) < |devices|;
    subscription := outcome.subscription;
  }
}
