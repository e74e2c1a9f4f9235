/**
 * The camera QR scanner (component `qrCameraScanner`).
 *
 * While its owner keeps `active` set, the component loads the QR decoding
 * library, acquires one camera stream, waits for the video element to report
 * its metadata and then samples one frame per animation frame, emitting a
 * `scan` event for a decoded payload at most once per 1500 ms.
 *
 * The browser is not modelled: the outcome of `getUserMedia`, the presence
 * of the video element, the readiness of a frame, the decoder's answer, the
 * handle `requestAnimationFrame` returns and `Date.now()` are parameters of
 * the operations. Acquisition is one atomic step.
 *
 * The pure part (`ScannerState` and the step functions) states what each
 * operation does to the component's fields; the class `Scanner` holds those
 * fields and updates them in place, each method proved to follow its step.
 */
module QrCameraScanner {
  import opened Common

  /** Minimum time between two emitted scans, in milliseconds. */
  const DebounceMs: int := 1500

  const PermissionDeniedMessage: string :=
    "Camera permission denied." + " Please allow camera access and try again."
  const NoCameraMessage: string := "No camera found on this device."
  const UnsupportedMessage: string := "Camera is not supported in this browser."
  const StartFailedPrefix: string := "Failed to start camera: "
  const LibraryFailedMessage: string := "Failed to load QR scanner library."

  /** A camera media stream; `id` tells acquisitions apart. */
  datatype Stream = Stream(id: nat)

  /** `requestAnimationFrame` returns a non-zero handle. */
  type FrameHandle = h: int | h > 0 witness 1

  /** How a request for the camera ends. */
  datatype Acquisition =
    | Unsupported                          // no `navigator.mediaDevices.getUserMedia`
    | Granted(stream: Stream)              // `getUserMedia` resolved
    | Failed(name: string, message: string) // `getUserMedia` rejected with this error

  /** The user-facing text for a rejected camera request, chosen by the
      error's `name`. */
  function AcquisitionErrorMessage(name: string, message: string): (m: string)
    ensures m != ""
    ensures m == PermissionDeniedMessage <==> name == "NotAllowedError"
    ensures m == NoCameraMessage <==> name == "NotFoundError"
    ensures name != "NotAllowedError" && name != "NotFoundError" ==> m == StartFailedPrefix + message
    ensures m != UnsupportedMessage && m != LibraryFailedMessage
  {
    if name == "NotAllowedError" then PermissionDeniedMessage
    else if name == "NotFoundError" then NoCameraMessage
    else
      var m := StartFailedPrefix + message;
      assert m[0] == 'F' && m[10] == 's';
      assert PermissionDeniedMessage[0] == 'C';
      assert NoCameraMessage[0] == 'N';
      assert UnsupportedMessage[0] == 'C';
      assert LibraryFailedMessage[10] == 'l';
      m
  }

  // ---------------------------------------------------------------------
  // Debounce

  datatype DebounceResult = DebounceResult(emitted: Option<string>, lastScanTime: int)

  /** What one decoded frame does to the debounce: a non-empty payload decoded
      more than `DebounceMs` after the last emitted scan is emitted and its
      time recorded; anything else is dropped. */
  function Debounce(lastScanTime: int, now: int, decoded: Option<string>): (r: DebounceResult)
    ensures r.emitted.Some? <==> decoded.Some? && decoded.value != "" && now - lastScanTime > DebounceMs
    ensures r.emitted.Some? ==> r.emitted == decoded && r.lastScanTime == now
    ensures r.emitted.None? ==> r.lastScanTime == lastScanTime
  {
    match decoded
    case Some(data) =>
      if data != "" && now - lastScanTime > DebounceMs then DebounceResult(Some(data), now)
      else DebounceResult(None, lastScanTime)
    case None => DebounceResult(None, lastScanTime)
  }

  // ---------------------------------------------------------------------
  // The component's fields as one value

  datatype ScannerState = ScannerState(
    active: bool,
    errorMessage: string,
    isScanning: bool,
    isInitializing: bool,
    stream: Option<Stream>,
    animationFrameId: Option<FrameHandle>,
    jsQRLoaded: bool,
    lastScanTime: int,
    cameraStarted: bool,
    awaitingMetadata: bool,   // the video element plays the stream and has not reported its metadata yet
    tickPending: bool)        // a `_scanFrame` callback is requested and has neither run nor been cancelled

  /** The field initialisers of a new component. */
  const Initial: ScannerState :=
    ScannerState(false, "", false, false, None, None, false, 0, false, false, false)

  /** The `isCameraActive` getter. */
  predicate IsCameraActive(s: ScannerState) {
    s.cameraStarted && s.errorMessage == ""
  }

  /** The `showSpinner` getter as written; see `SpinnerNeverShown`. */
  predicate ShowSpinnerAsWritten(s: ScannerState) {
    s.isInitializing && !s.cameraStarted
  }

  /** The spinner as evidently intended: shown while the camera initialises. */
  predicate ShowSpinner(s: ScannerState) {
    s.isInitializing
  }

  /** What holds of the fields in every state the component reaches. */
  predicate Inv(s: ScannerState) {
    && (s.isInitializing ==> s.cameraStarted)
    && (s.cameraStarted ==> s.errorMessage == "" && s.jsQRLoaded)
    && (s.stream.Some? ==> s.cameraStarted)
  }

  // ---------------------------------------------------------------------
  // Steps

  /** `_startCamera`: a no-op while a stream is held; otherwise clears the
      error, raises both flags and asks for the camera. */
  function StartStep(s: ScannerState, acq: Acquisition, videoPresent: bool): (t: ScannerState)
    ensures s.stream.Some? ==> t == s
    ensures s.stream.None? && acq.Unsupported? ==>
      t == s.(errorMessage := UnsupportedMessage, isInitializing := false, cameraStarted := false)
    ensures s.stream.None? && acq.Failed? ==>
      t == s.(errorMessage := AcquisitionErrorMessage(acq.name, acq.message),
              isInitializing := false, cameraStarted := false)
    ensures s.stream.None? && acq.Granted? ==>
      t == s.(errorMessage := "", isInitializing := true, cameraStarted := true,
              stream := Some(acq.stream), awaitingMetadata := videoPresent)
  {
    if s.stream.Some? then s
    else
      var s1 := s.(errorMessage := "", isInitializing := true, cameraStarted := true);
      match acq
      case Unsupported =>
        s1.(isInitializing := false, cameraStarted := false, errorMessage := UnsupportedMessage)
      case Granted(st) =>
        s1.(stream := Some(st), awaitingMetadata := videoPresent)
      case Failed(name, message) =>
        s1.(isInitializing := false, cameraStarted := false,
            errorMessage := AcquisitionErrorMessage(name, message))
  }

  /** The video element's `onloadedmetadata` handler: scanning begins and the
      first tick is requested (its handle is not kept). */
  function LoadedMetadataStep(s: ScannerState): (t: ScannerState)
    requires s.awaitingMetadata
    ensures t.isScanning && !t.isInitializing && !t.awaitingMetadata && t.tickPending
    ensures t.(isScanning := s.isScanning, isInitializing := s.isInitializing,
               awaitingMetadata := true, tickPending := s.tickPending) == s
  {
    s.(isInitializing := false, isScanning := true, awaitingMetadata := false, tickPending := true)
  }

  datatype TickResult = TickResult(state: ScannerState, scheduled: bool, emitted: Option<string>)

  /** `_scanFrame`: one animation-frame tick. `frameReady` says that both
      refs exist and the video has enough data; `decoded` is the decoder's
      answer for the frame (`None` for no code); `handle` is what
      `requestAnimationFrame` returns when the next tick is requested. */
  function ScanStep(s: ScannerState, now: int, frameReady: bool, decoded: Option<string>,
                    handle: FrameHandle): (r: TickResult)
    ensures r.scheduled <==> s.active && s.stream.Some?
    ensures r.scheduled ==> r.state.animationFrameId == Some(handle)
    ensures r.state.tickPending == r.scheduled
    ensures !r.scheduled ==> r.state == s.(tickPending := false) && r.emitted.None?
    ensures r.emitted.Some? <==>
      r.scheduled && frameReady && decoded.Some? && decoded.value != ""
      && now - s.lastScanTime > DebounceMs
    ensures r.emitted.Some? ==> r.emitted == decoded && r.state.lastScanTime == now
    ensures r.emitted.None? ==> r.state.lastScanTime == s.lastScanTime
    ensures r.state.(animationFrameId := s.animationFrameId, lastScanTime := s.lastScanTime,
                     tickPending := s.tickPending) == s
  {
    if !s.active || s.stream.None? then TickResult(s.(tickPending := false), false, None)
    else if !frameReady then
      TickResult(s.(animationFrameId := Some(handle), tickPending := true), true, None)
    else
      var d := Debounce(s.lastScanTime, now, decoded);
      TickResult(s.(lastScanTime := d.lastScanTime, animationFrameId := Some(handle), tickPending := true),
                 true, d.emitted)
  }

  /** `_stopCamera`: cancels the stored tick, releases the stream and lowers
      every flag. The first tick, requested from `onloadedmetadata`, has no
      stored handle: while it is the pending one it stays pending. */
  function StopStep(s: ScannerState): (t: ScannerState)
    ensures t.animationFrameId.None? && t.stream.None?
    ensures !t.isScanning && !t.isInitializing && !t.cameraStarted
    ensures t.tickPending <==> s.tickPending && s.animationFrameId.None?
    ensures t.errorMessage == s.errorMessage && t.lastScanTime == s.lastScanTime
    ensures t.active == s.active && t.jsQRLoaded == s.jsQRLoaded
    ensures t.awaitingMetadata == s.awaitingMetadata
  {
    s.(animationFrameId := None, stream := None, tickPending := s.tickPending && s.animationFrameId.None?,
       isScanning := false, isInitializing := false, cameraStarted := false)
  }

  /** `renderedCallback`: while active, loads the library once (`loadOk` is
      the outcome of `loadScript`) and then starts the camera; once loaded,
      starts the camera whenever no stream is held. */
  function RenderStep(s: ScannerState, loadOk: bool, acq: Acquisition, videoPresent: bool): (t: ScannerState)
    ensures !s.active ==> t == s
    ensures s.active && !s.jsQRLoaded && !loadOk ==> t == s.(errorMessage := LibraryFailedMessage)
    ensures s.active && !s.jsQRLoaded && loadOk ==> t == StartStep(s.(jsQRLoaded := true), acq, videoPresent)
    ensures s.active && s.jsQRLoaded ==> t == StartStep(s, acq, videoPresent)
  {
    if s.active && !s.jsQRLoaded then
      if loadOk then StartStep(s.(jsQRLoaded := true), acq, videoPresent)
      else s.(errorMessage := LibraryFailedMessage)
    else if s.active && s.jsQRLoaded && s.stream.None? then StartStep(s, acq, videoPresent)
    else s
  }

  // ---------------------------------------------------------------------
  // Properties of single steps

  /** The initial state and every step keep `Inv`. */
  lemma InvPreserved(s: ScannerState, acq: Acquisition, videoPresent: bool, loadOk: bool,
                     now: int, frameReady: bool, decoded: Option<string>, handle: FrameHandle)
    requires Inv(s)
    ensures Inv(Initial)
    ensures Inv(StartStep(s, acq, videoPresent)) || !s.jsQRLoaded
    ensures Inv(RenderStep(s, loadOk, acq, videoPresent))
    ensures s.awaitingMetadata ==> Inv(LoadedMetadataStep(s))
    ensures Inv(ScanStep(s, now, frameReady, decoded, handle).state)
    ensures Inv(StopStep(s))
  {
  }

  /** Where `Inv` holds, the camera counts as active exactly when it has been
      started: an error message never stands beside a started camera. */
  lemma CameraActiveIffStarted(s: ScannerState)
    requires Inv(s)
    ensures IsCameraActive(s) <==> s.cameraStarted
    ensures s.stream.Some? ==> IsCameraActive(s)
  {
  }

  /** Finding: the `showSpinner` getter as written is false in every state
      the component reaches, because `_startCamera` raises `_cameraStarted`
      together with `isInitializing`. */
  lemma SpinnerNeverShown(s: ScannerState)
    requires Inv(s)
    ensures !ShowSpinnerAsWritten(s)
  {
  }

  /** A granted camera request shows the corrected spinner until the video
      reports its metadata, while the as-written one stays hidden. */
  lemma SpinnerWhileAcquiring(s: ScannerState, st: Stream, videoPresent: bool)
    requires Inv(s) && s.jsQRLoaded && s.stream.None?
    ensures ShowSpinner(StartStep(s, Granted(st), videoPresent))
    ensures !ShowSpinnerAsWritten(StartStep(s, Granted(st), videoPresent))
    ensures videoPresent ==> !ShowSpinner(LoadedMetadataStep(StartStep(s, Granted(st), videoPresent)))
  {
  }

  /** A camera request from a state without a stream ends with the camera
      active exactly when it was granted, and with an error message exactly
      when it was not. */
  lemma StartOutcome(s: ScannerState, acq: Acquisition, videoPresent: bool)
    requires s.stream.None?
    ensures IsCameraActive(StartStep(s, acq, videoPresent)) <==> acq.Granted?
    ensures StartStep(s, acq, videoPresent).errorMessage == "" <==> acq.Granted?
    ensures !acq.Granted? ==> StartStep(s, acq, videoPresent).stream.None?
  {
  }

  /** Stopping twice is stopping once. */
  lemma StopIdempotent(s: ScannerState)
    ensures StopStep(StopStep(s)) == StopStep(s)
  {
  }

  // ---------------------------------------------------------------------
  // Runs of events

  /** Everything that can happen to the component. */
  datatype Event =
    | SetActive(value: bool)                                  // the owner sets `active`
    | Rendered(loadOk: bool, acq: Acquisition, videoPresent: bool)
    | MetadataLoaded                                          // the video fires `loadedmetadata`
    | Tick(now: int, frameReady: bool, decoded: Option<string>, handle: FrameHandle)
    | Disconnected                                            // `disconnectedCallback`

  /** A scan event: when it was emitted and the payload it carried. */
  datatype Scan = Scan(time: int, payload: string)

  datatype Run = Run(state: ScannerState, scans: seq<Scan>)

  /** One event. `loadedmetadata` only fires while the video is waiting for
      it, and a tick only runs while a callback is pending. */
  function Apply(s: ScannerState, e: Event): Run {
    match e
    case SetActive(value) => Run(s.(active := value), [])
    case Rendered(loadOk, acq, videoPresent) => Run(RenderStep(s, loadOk, acq, videoPresent), [])
    case MetadataLoaded => Run(if s.awaitingMetadata then LoadedMetadataStep(s) else s, [])
    case Tick(now, frameReady, decoded, handle) =>
      if s.tickPending then
        var r := ScanStep(s, now, frameReady, decoded, handle);
        Run(r.state, if r.emitted.Some? then [Scan(now, r.emitted.value)] else [])
      else Run(s, [])
    case Disconnected => Run(StopStep(s), [])
  }

  /** The final state and the scans emitted by a sequence of events. */
  function Execute(s: ScannerState, events: seq<Event>): Run
    decreases |events|
  {
    if events == [] then Run(s, [])
    else
      var first := Apply(s, events[0]);
      var rest := Execute(first.state, events[1..]);
      Run(rest.state, first.scans + rest.scans)
  }

  /** Only an emitted scan moves the recorded scan time, and it moves it to
      the scan's time. */
  lemma ApplyScanTime(s: ScannerState, e: Event)
    ensures |Apply(s, e).scans| <= 1
    ensures Apply(s, e).scans == [] ==> Apply(s, e).state.lastScanTime == s.lastScanTime
    ensures Apply(s, e).scans != [] ==>
      Apply(s, e).state.lastScanTime == Apply(s, e).scans[0].time
      && Apply(s, e).scans[0].time - s.lastScanTime > DebounceMs
      && Apply(s, e).scans[0].payload != ""
  {
  }

  /** Every scan is more than `DebounceMs` after time `t`. */
  predicate AllAfter(scans: seq<Scan>, t: int) {
    forall i :: 0 <= i < |scans| ==> scans[i].time - t > DebounceMs
  }

  /** Any two scans are more than `DebounceMs` apart. */
  predicate Spaced(scans: seq<Scan>) {
    forall i, j :: 0 <= i < j < |scans| ==> scans[j].time - scans[i].time > DebounceMs
  }

  /** No scan is later than time `t`. */
  predicate AllUpTo(scans: seq<Scan>, t: int) {
    forall i :: 0 <= i < |scans| ==> scans[i].time <= t
  }

  lemma PrependScan(x: Scan, rest: seq<Scan>, t: int, last: int)
    requires x.time - t > DebounceMs && x.time <= last
    requires AllAfter(rest, x.time) && Spaced(rest) && AllUpTo(rest, last)
    ensures AllAfter([x] + rest, t) && Spaced([x] + rest) && AllUpTo([x] + rest, last)
  {
    var all := [x] + rest;
    forall i, j | 0 <= i < j < |all|
      ensures all[j].time - all[i].time > DebounceMs
    {
      assert all[j] == rest[j - 1];
      if i > 0 {
        assert all[i] == rest[i - 1];
      }
    }
    forall i | 0 < i < |all|
      ensures all[i].time - t > DebounceMs && all[i].time <= last
    {
      assert all[i] == rest[i - 1];
    }
  }

  /** The debounce: whatever events happen in between, including stopping
      and restarting the camera, every emitted scan comes more than
      `DebounceMs` after the previously recorded one, and any two emitted
      scans are more than `DebounceMs` apart, whatever their payloads. */
  lemma {:induction false} ScansSpacedApart(s: ScannerState, events: seq<Event>)
    ensures AllAfter(Execute(s, events).scans, s.lastScanTime)
    ensures Spaced(Execute(s, events).scans)
    ensures AllUpTo(Execute(s, events).scans, Execute(s, events).state.lastScanTime)
    ensures Execute(s, events).scans == [] ==>
      Execute(s, events).state.lastScanTime == s.lastScanTime
    decreases |events|
  {
    if events != [] {
      var first := Apply(s, events[0]);
      var rest := Execute(first.state, events[1..]);
      assert Execute(s, events) == Run(rest.state, first.scans + rest.scans);
      ApplyScanTime(s, events[0]);
      ScansSpacedApart(first.state, events[1..]);
      if first.scans != [] {
        assert first.scans == [first.scans[0]];
        if rest.scans != [] {
          assert rest.scans[0].time - first.state.lastScanTime > DebounceMs;
          assert rest.scans[0].time <= rest.state.lastScanTime;
        }
        PrependScan(first.scans[0], rest.scans, s.lastScanTime, rest.state.lastScanTime);
      } else {
        assert first.scans + rest.scans == rest.scans;
      }
    }
  }

  /** Every step keeps `Inv`, so every state reached from a good one is good. */
  lemma {:induction false} ExecutePreservesInv(s: ScannerState, events: seq<Event>)
    requires Inv(s)
    ensures Inv(Execute(s, events).state)
    decreases |events|
  {
    if events != [] {
      var e := events[0];
      match e {
        case Rendered(loadOk, acq, videoPresent) =>
          InvPreserved(s, acq, videoPresent, loadOk, 0, false, None, 1);
        case Tick(now, frameReady, decoded, handle) =>
          InvPreserved(s, Unsupported, false, false, now, frameReady, decoded, handle);
        case _ =>
          InvPreserved(s, Unsupported, false, false, 0, false, None, 1);
      }
      ExecutePreservesInv(Apply(s, e).state, events[1..]);
    }
  }

  /** A held stream stays the same stream until the component is
      disconnected: re-rendering never acquires a second one. */
  lemma {:induction false} StreamKeptUntilDisconnected(s: ScannerState, events: seq<Event>)
    requires s.stream.Some?
    requires forall k :: 0 <= k < |events| ==> !events[k].Disconnected?
    ensures Execute(s, events).state.stream == s.stream
    decreases |events|
  {
    if events != [] {
      StreamKeptUntilDisconnected(Apply(s, events[0]).state, events[1..]);
    }
  }

  /** Once the scan loop has ended with the stream still held (a tick found
      `active` cleared and returned without requesting another), no event
      short of disconnecting restarts it: re-rendering keeps the stream, so
      the video never reports metadata again, and no scan is emitted. */
  lemma {:induction false} LoopStaysEnded(s: ScannerState, events: seq<Event>)
    requires s.stream.Some? && !s.tickPending && !s.awaitingMetadata
    requires forall k :: 0 <= k < |events| ==> !events[k].Disconnected?
    ensures Execute(s, events).scans == []
    ensures !Execute(s, events).state.tickPending && !Execute(s, events).state.awaitingMetadata
    ensures Execute(s, events).state.stream == s.stream
    decreases |events|
  {
    if events != [] {
      var first := Apply(s, events[0]);
      assert first.scans == [] && first.state.stream == s.stream;
      LoopStaysEnded(first.state, events[1..]);
    }
  }

  /** Scanning state with a held stream, the library loaded and a tick
      pending. */
  function ScanningState(lastScanTime: int): ScannerState {
    ScannerState(true, "", true, false, Some(Stream(1)), Some(1), true, lastScanTime, true, false, true)
  }

  /** The same code decoded on two consecutive ticks, then nothing: one scan. */
  lemma SameCodeScannedOnce(t: int)
    requires t > DebounceMs
    ensures Execute(ScanningState(0), [
              Tick(t, true, Some("EV001-ALICE-001"), 2),
              Tick(t + 1, true, Some("EV001-ALICE-001"), 3),
              Tick(t + 2, true, None, 4)]).scans
            == [Scan(t, "EV001-ALICE-001")]
  {
    var code := Some("EV001-ALICE-001");
    var s0 := ScanningState(0);
    var s1 := s0.(lastScanTime := t, animationFrameId := Some(2));
    var s2 := s1.(animationFrameId := Some(3));
    var s3 := s2.(animationFrameId := Some(4));
    assert Execute(s2, [Tick(t + 2, true, None, 4)]) == Run(s3, []);
    assert Execute(s1, [Tick(t + 1, true, code, 3), Tick(t + 2, true, None, 4)]) == Run(s3, []);
  }

  /** A second code inside the window is dropped; after the window it is
      emitted. */
  lemma SecondCodeWaitsForWindow(t: int)
    requires t > DebounceMs
    ensures Execute(ScanningState(0), [
              Tick(t, true, Some("A"), 2),
              Tick(t + 1000, true, Some("B"), 3),
              Tick(t + 1600, true, Some("B"), 4)]).scans
            == [Scan(t, "A"), Scan(t + 1600, "B")]
  {
    var s0 := ScanningState(0);
    var s1 := s0.(lastScanTime := t, animationFrameId := Some(2));
    var s2 := s1.(animationFrameId := Some(3));
    var s3 := s2.(lastScanTime := t + 1600, animationFrameId := Some(4));
    assert Execute(s2, [Tick(t + 1600, true, Some("B"), 4)]) == Run(s3, [Scan(t + 1600, "B")]);
    assert Execute(s1, [Tick(t + 1000, true, Some("B"), 3), Tick(t + 1600, true, Some("B"), 4)])
        == Run(s3, [Scan(t + 1600, "B")]);
  }

  /** The first tick has no stored handle, so disconnecting cannot cancel
      it. If the component is connected again and a new stream is granted
      before that tick runs, the tick scans the new stream while it is still
      initialising, before the video has reported its metadata. */
  lemma LeftoverTickScansNewStream(t: int)
    requires t > DebounceMs
    ensures var r := Execute(ScannerState(true, "", false, true, Some(Stream(1)), None, true, 0, true, true, false), [
              MetadataLoaded,
              Disconnected,
              Rendered(true, Granted(Stream(2)), true),
              Tick(t, true, Some("X"), 7)]);
      && r.scans == [Scan(t, "X")]
      && r.state.stream == Some(Stream(2)) && r.state.awaitingMetadata
      && r.state.isInitializing && !r.state.isScanning
  {
    var s0 := ScannerState(true, "", false, true, Some(Stream(1)), None, true, 0, true, true, false);
    var s1 := s0.(isInitializing := false, isScanning := true, awaitingMetadata := false, tickPending := true);
    var s2 := s1.(stream := None, isScanning := false, cameraStarted := false);
    var s3 := s2.(stream := Some(Stream(2)), isInitializing := true, cameraStarted := true, awaitingMetadata := true);
    var s4 := s3.(lastScanTime := t, animationFrameId := Some(7));
    var tick := [Tick(t, true, Some("X"), 7)];
    assert Execute(s3, tick) == Run(s4, [Scan(t, "X")]);
    assert Execute(s2, [Rendered(true, Granted(Stream(2)), true)] + tick) == Run(s4, [Scan(t, "X")]);
    assert Execute(s1, [Disconnected, Rendered(true, Granted(Stream(2)), true)] + tick) == Run(s4, [Scan(t, "X")]);
    var events := [MetadataLoaded, Disconnected, Rendered(true, Granted(Stream(2)), true), Tick(t, true, Some("X"), 7)];
    assert events[1..] == [Disconnected, Rendered(true, Granted(Stream(2)), true)] + tick;
    assert Apply(s0, events[0]) == Run(s1, []);
    assert Execute(s0, events) == Run(s4, [Scan(t, "X")]);
  }

  /** Clearing `active` while scanning ends the loop at the next tick;
      setting it again and re-rendering leaves the camera on, holding the
      same stream, yet no later tick runs and no code is scanned. */
  lemma ReactivationDoesNotResumeScanning(t: int)
    ensures var r := Execute(ScanningState(0), [
              SetActive(false),
              Tick(t, true, Some("A"), 2),
              SetActive(true),
              Rendered(true, Granted(Stream(2)), true),
              Tick(t + 2000, true, Some("A"), 3)]);
      && r.scans == []
      && r.state.active && IsCameraActive(r.state) && r.state.stream == Some(Stream(1))
  {
    var s0 := ScanningState(0);
    var s2 := s0.(active := false, tickPending := false);
    var s3 := s2.(active := true);
    var rest := [SetActive(true), Rendered(true, Granted(Stream(2)), true), Tick(t + 2000, true, Some("A"), 3)];
    assert Execute(s3, rest[2..]) == Run(s3, []);
    assert Execute(s3, rest[1..]) == Run(s3, []);
    assert Execute(s2, rest) == Run(s3, []);
    assert Execute(s0.(active := false), [Tick(t, true, Some("A"), 2)] + rest) == Run(s3, []);
    assert [SetActive(false), Tick(t, true, Some("A"), 2)] + rest == [
              SetActive(false),
              Tick(t, true, Some("A"), 2),
              SetActive(true),
              Rendered(true, Granted(Stream(2)), true),
              Tick(t + 2000, true, Some("A"), 3)];
  }

  // ---------------------------------------------------------------------
  // The component

  class Scanner {
    var active: bool
    var errorMessage: string
    var isScanning: bool
    var isInitializing: bool
    var stream: Option<Stream>
    var animationFrameId: Option<FrameHandle>
    var jsQRLoaded: bool
    var lastScanTime: int
    var cameraStarted: bool
    var awaitingMetadata: bool
    /** Whether the browser holds a requested `_scanFrame` callback. */
    var tickPending: bool

    /** The scan events emitted so far. */
    ghost var scans: seq<Scan>
    /** Number of streams acquired and released so far. */
    ghost var acquired: nat
    ghost var released: nat

    function State(): ScannerState
      reads this
    {
      ScannerState(active, errorMessage, isScanning, isInitializing, stream,
                   animationFrameId, jsQRLoaded, lastScanTime, cameraStarted, awaitingMetadata,
                   tickPending)
    }

    /** `Inv`, the debounce over the scans emitted so far, and: every stream
        acquired but the one held has been released. */
    ghost predicate Valid()
      reads this
    {
      && Inv(State())
      && Spaced(scans)
      && AllUpTo(scans, lastScanTime)
      && acquired == released + (if stream.Some? then 1 else 0)
    }

    constructor ()
      ensures Valid() && State() == Initial
      ensures scans == [] && acquired == 0 && released == 0
    {
      active := false;
      errorMessage := "";
      isScanning := false;
      isInitializing := false;
      stream := None;
      animationFrameId := None;
      jsQRLoaded := false;
      lastScanTime := 0;
      cameraStarted := false;
      awaitingMetadata := false;
      tickPending := false;
      scans := [];
      acquired := 0;
      released := 0;
    }

    /** The owner sets the `active` property. */
    method SetActive(value: bool)
      requires Valid()
      modifies this
      ensures Valid() && State() == old(State()).(active := value)
      ensures scans == old(scans) && acquired == old(acquired) && released == old(released)
    {
      active := value;
    }

    method StartCamera(acq: Acquisition, videoPresent: bool)
      requires Valid() && jsQRLoaded
      modifies this
      ensures Valid() && State() == StartStep(old(State()), acq, videoPresent)
      ensures acquired == old(acquired) + (if old(stream).None? && acq.Granted? then 1 else 0)
      ensures scans == old(scans) && released == old(released)
    {
      if stream.Some? {
        return;
      }
      errorMessage := "";
      isInitializing := true;
      cameraStarted := true;
      match acq {
        case Unsupported =>
          isInitializing := false;
          cameraStarted := false;
          errorMessage := UnsupportedMessage;
        case Granted(st) =>
          stream := Some(st);
          acquired := acquired + 1;
          awaitingMetadata := videoPresent;
        case Failed(name, message) =>
          isInitializing := false;
          cameraStarted := false;
          errorMessage := AcquisitionErrorMessage(name, message);
      }
    }

    method RenderedCallback(loadOk: bool, acq: Acquisition, videoPresent: bool)
      requires Valid()
      modifies this
      ensures Valid() && State() == RenderStep(old(State()), loadOk, acq, videoPresent)
      ensures scans == old(scans) && released == old(released)
    {
      if active && !jsQRLoaded {
        if loadOk {
          jsQRLoaded := true;
          StartCamera(acq, videoPresent);
        } else {
          errorMessage := LibraryFailedMessage;
        }
      } else if active && jsQRLoaded && stream.None? {
        StartCamera(acq, videoPresent);
      }
    }

    /** The video element reports its metadata. */
    method OnLoadedMetadata()
      requires Valid() && awaitingMetadata
      modifies this
      ensures Valid() && State() == LoadedMetadataStep(old(State()))
      ensures scans == old(scans) && acquired == old(acquired) && released == old(released)
    {
      isInitializing := false;
      isScanning := true;
      awaitingMetadata := false;
      tickPending := true;
    }

    method ScanFrame(now: int, frameReady: bool, decoded: Option<string>, handle: FrameHandle)
      returns (scheduled: bool, emitted: Option<string>)
      requires Valid()
      modifies this
      ensures Valid()
      ensures TickResult(State(), scheduled, emitted) == ScanStep(old(State()), now, frameReady, decoded, handle)
      ensures scans == old(scans) + (if emitted.Some? then [Scan(now, emitted.value)] else [])
      ensures acquired == old(acquired) && released == old(released)
    {
      if !active || stream.None? {
        tickPending := false;
        return false, None;
      }
      tickPending := true;
      if !frameReady {
        animationFrameId := Some(handle);
        return true, None;
      }
      emitted := None;
      match decoded {
        case Some(data) =>
          if data != "" && now - lastScanTime > DebounceMs {
            lastScanTime := now;
            scans := scans + [Scan(now, data)];
            emitted := Some(data);
          }
        case None =>
      }
      animationFrameId := Some(handle);
      scheduled := true;
    }

    /** Returns the frame handle it cancelled and the stream it released. */
    method StopCamera() returns (cancelled: Option<FrameHandle>, releasedStream: Option<Stream>)
      requires Valid()
      modifies this
      ensures Valid() && State() == StopStep(old(State()))
      ensures cancelled == old(animationFrameId) && releasedStream == old(stream)
      ensures released == old(released) + (if old(stream).Some? then 1 else 0)
      ensures scans == old(scans) && acquired == old(acquired)
      ensures old(State()) == StopStep(old(State())) ==> unchanged(this)
    {
      cancelled, releasedStream := None, None;
      if animationFrameId.Some? {
        cancelled := animationFrameId;
        animationFrameId := None;
        tickPending := false;
      }
      if stream.Some? {
        releasedStream := stream;
        stream := None;
        released := released + 1;
      }
      isScanning := false;
      isInitializing := false;
      cameraStarted := false;
    }

    method DisconnectedCallback()
      requires Valid()
      modifies this
      ensures Valid() && State() == StopStep(old(State()))
      ensures released == old(released) + (if old(stream).Some? then 1 else 0)
      ensures scans == old(scans) && acquired == old(acquired)
    {
      var _, _ := StopCamera();
    }
  }
}
