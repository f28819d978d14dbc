/**
 * GuiApp: HandMouseGUI of src/gui_app.py, the CustomTkinter front end. Its processing
 * thread runs the same per-frame pipeline as main.py (hand bookkeeping, the two-hand
 * global pause, the right hand, the left hand) behind the window's own pause button,
 * names the active gesture for the window, latches a volume direction instead of
 * rate-limiting steps, and writes the settings form into the Config attributes.
 * The frame's MediaPipe result, its size and the wall-clock time are parameters.
 */
module GuiApp {
  import opened Numeric
  import opened Config
  import opened GestureRecognizer
  import opened MouseController
  import opened VolumeController
  import opened HandDetector
  import opened SessionLogic
  import opened HandSteps

  /** The status-line text the GUI shows for a right hand paused by its own fist. */
  const GUI_PAUSED_TEXT: string := "MOUSE DURAKLADI"

  /**
   * What the settings tab holds when `apply_settings` runs. The camera and microphone
   * come from drop-downs of "N: name" entries; floats are carried as their printed text.
   */
  datatype SettingsForm = SettingsForm(
    camera: string, fps: int, deadzone: string, maxHands: int,
    mouseSpeed: string, emaMin: string, emaMax: string, emaFunction: string,
    showFps: bool, showLandmarks: bool, showGesture: bool, flipCamera: bool,
    volumeStep: int, speechLanguage: string, microphone: string)

  /** The four crop edges, which the one dead-zone slider sets together. */
  const CROP_KEYS: set<string> := {"CAMERA_CROP_LEFT", "CAMERA_CROP_RIGHT", "CAMERA_CROP_TOP", "CAMERA_CROP_BOTTOM"}

  /** Every Config attribute `apply_settings` assigns. */
  const APPLIED_KEYS: set<string> := CROP_KEYS + {
    "CAMERA_INDEX", "CAMERA_FPS", "MAX_HANDS", "MOUSE_SPEED", "EMA_MIN", "EMA_MAX", "EMA_FUNCTION",
    "SHOW_FPS", "SHOW_LANDMARKS", "SHOW_GESTURE_TEXT", "FLIP_CAMERA", "VOLUME_STEP",
    "SPEECH_LANGUAGE", "SPEECH_MICROPHONE_INDEX"}

  /** `int(entry.split(":")[0].strip())`, None where Python raises. */
  function ParseIndexField(entry: string): Option<int>
  {
    ParseInt(Strip(BeforeFirst(entry, ':')))
  }

  /** A drop-down entry built as "N: name" parses back to N, whatever the name says. */
  lemma ParseIndexFieldRoundTrip(n: int, name: string)
    ensures ParseIndexField(IntToDecimal(n) + ": " + name) == Some(n)
  {
    var digits := IntToDecimal(n);
    var entry := digits + ": " + name;
    IntToDecimalAlphabet(n);
    assert ':' !in digits;
    assert entry[|digits|] == ':';
    var i := IndexOf(entry, ':');
    assert entry[..|digits|] == digits;
    assert i == Some(|digits|);
    assert BeforeFirst(entry, ':') == digits;
    NoSpaceStripsToItself(digits);
    IntToDecimalRoundTrip(n);
  }

  /** Stripping a string that holds no whitespace changes nothing. */
  lemma NoSpaceStripsToItself(s: string)
    requires forall i :: 0 <= i < |s| ==> IsDigit(s[i]) || s[i] == '-'
    ensures Strip(s) == s
  {
    assert LStrip(s) == s;
    assert RStrip(s) == s;
  }

  /** An entry whose part before the colon is not a number does not parse. */
  lemma ParseIndexFieldRejects(entry: string)
    requires forall i :: 0 <= i < |entry| ==> !IsDigit(entry[i])
    ensures ParseIndexField(entry).None?
  {
    var head := Strip(BeforeFirst(entry, ':'));
    assert StartsWith(entry, BeforeFirst(entry, ':'));
    assert forall i :: 0 <= i < |head| ==> !IsDigit(head[i]) by {
      var b := BeforeFirst(entry, ':');
      var l := LStrip(b);
      assert forall i :: 0 <= i < |b| ==> b[i] == entry[i];
      assert forall i :: 0 <= i < |l| ==> l[i] == b[|b| - |l| + i];
      assert forall i :: 0 <= i < |head| ==> head[i] == l[i];
    }
    if |head| > 0 && (head[0] == '-' || head[0] == '+') {
      assert |head[1..]| > 0 ==> !IsDigit(head[1..][0]);
    } else if |head| > 0 {
      assert !IsDigit(head[0]);
    }
  }

  /**
   * The attributes `apply_settings` assigns: the camera and microphone indices parsed
   * from their drop-down entries (camera 0 and no microphone when an entry does not
   * parse), the one dead zone on all four crop edges, the other fields as they are.
   */
  function FormAttributes(form: SettingsForm): map<string, Value>
  {
    map k | k in APPLIED_KEYS :: FormValue(form, k)
  }

  /** The value the form gives to one applied attribute. */
  function FormValue(form: SettingsForm, key: string): Value
  {
    if key in CROP_KEYS then FloatVal(form.deadzone)
    else if key == "CAMERA_INDEX" then
      var camera := ParseIndexField(form.camera);
      IntVal(if camera.Some? then camera.value else 0)
    else if key == "SPEECH_MICROPHONE_INDEX" then
      var microphone := ParseIndexField(form.microphone);
      if microphone.Some? then IntVal(microphone.value) else NoneVal
    else if key == "CAMERA_FPS" then IntVal(form.fps)
    else if key == "MAX_HANDS" then IntVal(form.maxHands)
    else if key == "MOUSE_SPEED" then FloatVal(form.mouseSpeed)
    else if key == "EMA_MIN" then FloatVal(form.emaMin)
    else if key == "EMA_MAX" then FloatVal(form.emaMax)
    else if key == "EMA_FUNCTION" then StrVal(form.emaFunction)
    else if key == "SHOW_FPS" then BoolVal(form.showFps)
    else if key == "SHOW_LANDMARKS" then BoolVal(form.showLandmarks)
    else if key == "SHOW_GESTURE_TEXT" then BoolVal(form.showGesture)
    else if key == "FLIP_CAMERA" then BoolVal(form.flipCamera)
    else if key == "VOLUME_STEP" then IntVal(form.volumeStep)
    else StrVal(form.speechLanguage)
  }

  /**
   * What applying the form does to the Config attributes: it sets exactly the applied
   * attributes, leaves every other one as it was and puts the one dead zone on all four
   * crop edges.
   */
  lemma ApplyFormSpec(attrs: map<string, Value>, form: SettingsForm)
    ensures (attrs + FormAttributes(form)).Keys == attrs.Keys + APPLIED_KEYS
    ensures forall k :: k in attrs && k !in APPLIED_KEYS ==> (attrs + FormAttributes(form))[k] == attrs[k]
    ensures forall k :: k in CROP_KEYS ==> (attrs + FormAttributes(form))[k] == FloatVal(form.deadzone)
  {
  }

  /** The camera index falls back to 0, and the microphone to none, on an entry that does not parse. */
  lemma ApplyIndexFallbacks(attrs: map<string, Value>, form: SettingsForm)
    ensures (attrs + FormAttributes(form))["CAMERA_INDEX"] ==
      IntVal(var n := ParseIndexField(form.camera); if n.Some? then n.value else 0)
    ensures (attrs + FormAttributes(form))["SPEECH_MICROPHONE_INDEX"] ==
      (var n := ParseIndexField(form.microphone); if n.Some? then IntVal(n.value) else NoneVal)
  {
    assert "CAMERA_INDEX" in APPLIED_KEYS && "CAMERA_INDEX" !in CROP_KEYS;
    assert "SPEECH_MICROPHONE_INDEX" in APPLIED_KEYS && "SPEECH_MICROPHONE_INDEX" !in CROP_KEYS;
  }

  /** A camera entry "N: name" from the drop-down selects camera N. */
  lemma ApplyCameraEntry(attrs: map<string, Value>, form: SettingsForm, n: int, name: string)
    requires form.camera == IntToDecimal(n) + ": " + name
    ensures (attrs + FormAttributes(form))["CAMERA_INDEX"] == IntVal(n)
  {
    ParseIndexFieldRoundTrip(n, name);
    ApplyIndexFallbacks(attrs, form);
  }

  class HandMouseGUI {
    const mouse: Mouse
    const volume: Volume
    const recognizer: Recognizer
    const detector: Detector
    const settings: Settings

    /** The window's pause button: the loop skips whole frames while it is on. */
    var isPaused: bool
    var handWasPresent: bool
    var doubleClickPerformed: bool
    var isScrolling: bool
    var fistDetected: bool
    var rightHandPaused: bool
    var globalPaused: bool
    var globalPauseDetected: bool
    var leftHandEnabled: bool
    var leftFistDetected: bool
    var lastLeftGesture: LeftGesture
    var prevVolumeY: Option<int>
    var isVolumeMode: bool
    var lastVolumeTime: real
    var mutePinchDetected: bool
    var mediaPinchDetected: bool

    /** The right hand's flags. */
    function RightLatchesOf(): RightLatches
      reads this`rightHandPaused, this`fistDetected, this`isScrolling, this`doubleClickPerformed
    {
      RightLatches(rightHandPaused, fistDetected, isScrolling, doubleClickPerformed)
    }

    /** `RightLatchesOf` field by field, for proofs that hide function bodies. */
    lemma LatchesAre()
      ensures RightLatchesOf() == RightLatches(rightHandPaused, fistDetected, isScrolling, doubleClickPerformed)
    {
    }

    /** The left hand's flags. */
    function LeftLatchesOf(): LeftLatches
      reads this`leftHandEnabled, this`leftFistDetected, this`lastLeftGesture, this`prevVolumeY,
            this`lastVolumeTime, this`mutePinchDetected, this`mediaPinchDetected
    {
      LeftLatches(leftHandEnabled, leftFistDetected, lastLeftGesture, prevVolumeY, lastVolumeTime,
                  mutePinchDetected, mediaPinchDetected)
    }

    /** The volume controller's state. */
    function EndpointOf(): Endpoint
      reads volume`level, volume`muted, volume`lastVolumeChange, volume`mediaPresses
    {
      Endpoint(volume.level, volume.muted, volume.lastVolumeChange, volume.mediaPresses)
    }

    /**
     * The session invariant: never both buttons held; no button held while the right hand
     * is paused, the session is globally paused or right after a double click; the volume
     * mode flag mirrors the drag reference, which exists only while the left hand is
     * enabled and dragging.
     */
    ghost predicate Valid()
      reads this`rightHandPaused, this`doubleClickPerformed, this`globalPaused, mouse`leftPressed, mouse`rightPressed,
            this`leftHandEnabled, this`lastLeftGesture, this`prevVolumeY, this`isVolumeMode, volume`level,
            recognizer`history, detector`landmarksList, detector`handLabels, detector`handDetected
    {
      mouse.Valid() && recognizer.Valid() && detector.Valid() && ButtonsValid() && LeftValid()
    }

    /** The right hand's part of the invariant. */
    ghost predicate ButtonsValid()
      reads this`rightHandPaused, this`doubleClickPerformed, this`globalPaused, mouse`leftPressed, mouse`rightPressed
    {
      !(mouse.leftPressed && mouse.rightPressed) &&
      ((rightHandPaused || doubleClickPerformed || globalPaused) ==> !mouse.leftPressed && !mouse.rightPressed)
    }

    /** The left hand's part: the volume is on its scale, the mode flag mirrors the reference, the reference is sound. */
    ghost predicate LeftValid()
      reads this`leftHandEnabled, this`lastLeftGesture, this`prevVolumeY, this`isVolumeMode, volume`level
    {
      0 <= volume.level <= 100 && (isVolumeMode <==> prevVolumeY.Some?) &&
      (prevVolumeY.Some? ==> leftHandEnabled && VolumeTracking(lastLeftGesture))
    }

    /**
     * The window with its components started: not paused, and the loop's flags as
     * `process_loop` sets them up, around collaborators that start with no button held.
     */
    constructor (mouse: Mouse, volume: Volume, recognizer: Recognizer, detector: Detector, settings: Settings)
      requires mouse.Valid() && !mouse.leftPressed && !mouse.rightPressed
      requires volume.Valid() && recognizer.Valid() && detector.Valid()
      ensures Valid() && !isPaused
      ensures this.mouse == mouse && this.volume == volume && this.recognizer == recognizer
      ensures this.detector == detector && this.settings == settings
      ensures !handWasPresent && !globalPaused && !globalPauseDetected
      ensures RightLatchesOf() == RightLatches(false, false, false, false)
      ensures LeftLatchesOf() == LeftLatches(false, false, NoLeftGesture, None, 0.0, false, false) && !isVolumeMode
    {
      this.mouse := mouse;
      this.volume := volume;
      this.recognizer := recognizer;
      this.detector := detector;
      this.settings := settings;
      isPaused := false;
      handWasPresent := false;
      doubleClickPerformed := false;
      isScrolling := false;
      fistDetected := false;
      rightHandPaused := false;
      globalPaused := false;
      globalPauseDetected := false;
      leftHandEnabled := false;
      leftFistDetected := false;
      lastLeftGesture := NoLeftGesture;
      prevVolumeY := None;
      isVolumeMode := false;
      lastVolumeTime := 0.0;
      mutePinchDetected := false;
      mediaPinchDetected := false;
    }

    /** `toggle_pause`: flip the window's pause; nothing else changes. */
    method TogglePause()
      modifies this`isPaused
      ensures isPaused == !old(isPaused)
    {
      isPaused := !isPaused;
    }

    /**
     * The start of `process_loop`: every frame flag back to its initial value. Buttons
     * held from an earlier run are not released, so none may be held before.
     */
    method BeginLoop()
      requires Valid() && !mouse.leftPressed && !mouse.rightPressed
      modifies this`handWasPresent, this`doubleClickPerformed, this`isScrolling, this`fistDetected,
               this`rightHandPaused, this`globalPaused, this`globalPauseDetected, this`leftHandEnabled,
               this`leftFistDetected, this`lastLeftGesture, this`prevVolumeY, this`isVolumeMode,
               this`lastVolumeTime, this`mutePinchDetected, this`mediaPinchDetected
      ensures Valid()
      ensures !handWasPresent && !globalPaused && !globalPauseDetected
      ensures RightLatchesOf() == RightLatches(false, false, false, false)
      ensures LeftLatchesOf() == LeftLatches(false, false, NoLeftGesture, None, 0.0, false, false) && !isVolumeMode
    {
      handWasPresent, globalPaused, globalPauseDetected := false, false, false;
      ResetRightFlags();
      ResetLeftFlags();
    }

    /** The right hand's part of the start of `process_loop`. */
    method ResetRightFlags()
      modifies this`doubleClickPerformed, this`isScrolling, this`fistDetected, this`rightHandPaused
      ensures RightLatchesOf() == RightLatches(false, false, false, false)
    {
      doubleClickPerformed, isScrolling, fistDetected, rightHandPaused := false, false, false, false;
    }

    /** The left hand's part of the start of `process_loop`. */
    method ResetLeftFlags()
      modifies this`leftHandEnabled, this`leftFistDetected, this`lastLeftGesture, this`prevVolumeY,
               this`isVolumeMode, this`lastVolumeTime, this`mutePinchDetected, this`mediaPinchDetected
      ensures LeftLatchesOf() == LeftLatches(false, false, NoLeftGesture, None, 0.0, false, false) && !isVolumeMode
    {
      leftHandEnabled, leftFistDetected, lastLeftGesture, prevVolumeY := false, false, NoLeftGesture, None;
      isVolumeMode, lastVolumeTime, mutePinchDetected, mediaPinchDetected := false, 0.0, false, false;
    }

    /** `_update_overlay`: the status line of each hand, when the overlay window is shown. */
    function OverlayStatuses(): (Status, Status)
      reads this, detector
    {
      (RightStatus(FirstIndex(detector.handLabels, "Right").Some?, globalPaused, rightHandPaused, GUI_PAUSED_TEXT),
       LeftStatus(FirstIndex(detector.handLabels, "Left").Some?, globalPaused, leftHandEnabled))
    }

    /**
     * One pass of the `process_loop` body on a frame of `height` x `width` pixels in which
     * MediaPipe found `d`. While the window is paused the pass does nothing at all;
     * otherwise it runs the frame and, with the overlay shown, yields its status lines.
     */
    method ProcessLoopStep(now: real, t: Tuning, d: Detection, height: int, width: int, overlayShown: bool)
      returns (statuses: Option<(Status, Status)>)
      requires Valid()
      requires LabelsCover(d) && HandsIndexable(d, 10)
      requires t.speedMin != t.speedMax && mouse.MapDefined(t) && t.scrollSensitivity != 0
      modifies this, mouse, volume, recognizer, detector
      ensures Valid()
      ensures old(isPaused) ==> statuses.None? && unchanged(this, mouse, volume, recognizer, detector)
      ensures !old(isPaused) ==>
        detector.landmarksList == d.hands && detector.handLabels == LabelsFor(d) &&
        handWasPresent == (|d.hands| > 0) &&
        RightLatchesOf() == RightAfterFrame(old(RightLatchesOf()), recognizer.pinchThreshold, d, width, height,
                                            globalPaused) &&
        LeftLatchesOf() == LeftAfterFrame(DirectionLatched, old(LeftLatchesOf()), recognizer.pinchThreshold, d,
                                          width, height, globalPaused, now) &&
        (statuses.Some? <==> overlayShown) && (overlayShown ==> statuses.value == OverlayStatuses())
      ensures globalPaused ==> unchanged(volume)
      ensures old(globalPaused) && globalPaused ==>
                unchanged(mouse`prevScreen, mouse`emaAlpha, mouse`currentSpeed, mouse`ema, mouse`actions,
                          mouse`prevScrollY, mouse`lastScrollTime, mouse`lastClickTime, mouse`leftPressed, mouse`rightPressed)
      ensures old(handWasPresent) && old(globalPaused) && globalPaused ==> unchanged(mouse)
      ensures !old(isPaused) && |d.hands| > 0 ==>
                (mouse.leftPressed, mouse.rightPressed) ==
                if globalPaused then (if old(globalPaused) then (old(mouse.leftPressed), old(mouse.rightPressed)) else (false, false))
                else RightButtonsAfterFrame(old(RightLatchesOf()), recognizer.pinchThreshold, d, width, height, false,
                                            old(mouse.leftPressed), old(mouse.rightPressed))
      ensures !old(isPaused) && |d.hands| > 0 && !globalPaused ==>
                EndpointOf() ==
                EndpointAfterFrame(DirectionLatched, old(LeftLatchesOf()), recognizer.pinchThreshold, d, width, height, false, now,
                                   volume.available, volume.mediaAvailable, volume.volumeCooldown, t.volumeStep, old(EndpointOf()))
    {
      if isPaused {
        return None;
      }
      FrameBody(now, t, d, height, width);
      statuses := if overlayShown then Some(OverlayStatuses()) else None;
    }

    /** The frame part of the `process_loop` body, once the pause check has let it through. */
    method FrameBody(now: real, t: Tuning, d: Detection, height: int, width: int)
      requires Valid()
      requires LabelsCover(d) && HandsIndexable(d, 10)
      requires t.speedMin != t.speedMax && mouse.MapDefined(t) && t.scrollSensitivity != 0
      modifies this, mouse, volume, recognizer, detector
      ensures Valid() && isPaused == old(isPaused)
      ensures detector.landmarksList == d.hands && detector.handLabels == LabelsFor(d)
      ensures detector.imageShape == Some((height, width))
      ensures handWasPresent == (|d.hands| > 0)
      ensures |d.hands| > 0 && !old(handWasPresent) ==>
        mouse.smoothX == [] && mouse.smoothY == [] && recognizer.State() == ResetFilter
      ensures |d.hands| == 0 ==>
        unchanged(mouse, volume, recognizer) && Latch(globalPaused, globalPauseDetected) == old(Latch(globalPaused, globalPauseDetected))
      ensures |d.hands| > 0 ==> (Latch(globalPaused, globalPauseDetected) ==
        GlobalLatchAfter(old(Latch(globalPaused, globalPauseDetected)), GlobalPoseSeen(d, width, height)))
      ensures RightLatchesOf() ==
        RightAfterFrame(old(RightLatchesOf()), recognizer.pinchThreshold, d, width, height, globalPaused)
      ensures LeftLatchesOf() == LeftAfterFrame(DirectionLatched, old(LeftLatchesOf()), recognizer.pinchThreshold, d,
                                                width, height, globalPaused, now)
      ensures globalPaused ==> unchanged(volume)
      ensures old(globalPaused) && globalPaused ==>
                unchanged(mouse`prevScreen, mouse`emaAlpha, mouse`currentSpeed, mouse`ema, mouse`actions,
                          mouse`prevScrollY, mouse`lastScrollTime, mouse`lastClickTime, mouse`leftPressed, mouse`rightPressed)
      ensures old(handWasPresent) && old(globalPaused) && globalPaused ==> unchanged(mouse)
      ensures |d.hands| > 0 ==>
                (mouse.leftPressed, mouse.rightPressed) ==
                if globalPaused then (if old(globalPaused) then (old(mouse.leftPressed), old(mouse.rightPressed)) else (false, false))
                else RightButtonsAfterFrame(old(RightLatchesOf()), recognizer.pinchThreshold, d, width, height, false,
                                            old(mouse.leftPressed), old(mouse.rightPressed))
      ensures |d.hands| > 0 && !globalPaused ==>
                EndpointOf() ==
                EndpointAfterFrame(DirectionLatched, old(LeftLatchesOf()), recognizer.pinchThreshold, d, width, height, false, now,
                                   volume.available, volume.mediaAvailable, volume.volumeCooldown, t.volumeStep, old(EndpointOf()))
    {
      detector.UpdateImageShape(height, width);
      detector.FindHands(d);
      // The rest is used through its contracts alone.
      hide *;
      if detector.IsHandPresent() {
        HandsFrame(now, t, d, width, height);
      } else {
        if handWasPresent {
          handWasPresent := false;
        }
      }
    }

    /**
     * The part of the loop body for a frame with hands: restart the filters when the
     * hands reappear, update the global pause, and outside it run both hands.
     */
    method HandsFrame(now: real, t: Tuning, d: Detection, width: int, height: int)
      requires Valid() && |d.hands| > 0
      requires LabelsCover(d) && HandsIndexable(d, 10)
      requires detector.landmarksList == d.hands && detector.handLabels == LabelsFor(d)
      requires detector.imageShape == Some((height, width))
      requires t.speedMin != t.speedMax && mouse.MapDefined(t) && t.scrollSensitivity != 0
      modifies this`handWasPresent, this`globalPaused, this`globalPauseDetected,
               this`rightHandPaused, this`fistDetected, this`isScrolling, this`doubleClickPerformed,
               this`leftHandEnabled, this`leftFistDetected, this`lastLeftGesture, this`prevVolumeY,
               this`isVolumeMode, this`lastVolumeTime, this`mutePinchDetected, this`mediaPinchDetected,
               mouse, volume, recognizer
      ensures Valid() && handWasPresent
      ensures !old(handWasPresent) ==>
        mouse.smoothX == [] && mouse.smoothY == [] && recognizer.State() == ResetFilter
      ensures Latch(globalPaused, globalPauseDetected) ==
        GlobalLatchAfter(old(Latch(globalPaused, globalPauseDetected)), GlobalPoseSeen(d, width, height))
      ensures RightLatchesOf() == RightAfterFrame(old(RightLatchesOf()), recognizer.pinchThreshold, d, width, height, globalPaused)
      ensures LeftLatchesOf() ==
        LeftAfterFrame(DirectionLatched, old(LeftLatchesOf()), recognizer.pinchThreshold, d, width, height, globalPaused, now)
      ensures globalPaused ==> unchanged(volume)
      ensures old(globalPaused) && globalPaused ==>
                unchanged(mouse`prevScreen, mouse`emaAlpha, mouse`currentSpeed, mouse`ema, mouse`actions,
                          mouse`prevScrollY, mouse`lastScrollTime, mouse`lastClickTime, mouse`leftPressed, mouse`rightPressed)
      ensures old(handWasPresent) && old(globalPaused) && globalPaused ==> unchanged(mouse)
      ensures (mouse.leftPressed, mouse.rightPressed) ==
                if globalPaused then (if old(globalPaused) then (old(mouse.leftPressed), old(mouse.rightPressed)) else (false, false))
                else RightButtonsAfterFrame(old(RightLatchesOf()), recognizer.pinchThreshold, d, width, height, false,
                                            old(mouse.leftPressed), old(mouse.rightPressed))
      ensures !globalPaused ==>
                EndpointOf() ==
                EndpointAfterFrame(DirectionLatched, old(LeftLatchesOf()), recognizer.pinchThreshold, d, width, height, false, now,
                                   volume.available, volume.mediaAvailable, volume.volumeCooldown, t.volumeStep, old(EndpointOf()))
    {
      // Both steps are used through their contracts alone.
      hide *;
      if !handWasPresent {
        RestartFilters();
      }
      PauseThenHands(now, t, d, width, height);
    }

    /** The hands came back: restart the cursor filter and the gesture history. */
    method RestartFilters()
      requires Valid()
      modifies this`handWasPresent, mouse`smoothX, mouse`smoothY,
               recognizer`history, recognizer`currentGesture, recognizer`lastGesture
      ensures Valid() && handWasPresent
      ensures mouse.smoothX == [] && mouse.smoothY == [] && recognizer.State() == ResetFilter
    {
      mouse.ResetSmoothing();
      recognizer.ResetGestureHistory();
      handWasPresent := true;
    }

    /** The global pause check, then both hands unless the session is globally paused. */
    method PauseThenHands(now: real, t: Tuning, d: Detection, width: int, height: int)
      requires Valid() && LabelsCover(d) && HandsIndexable(d, 10)
      requires detector.landmarksList == d.hands && detector.handLabels == LabelsFor(d)
      requires detector.imageShape == Some((height, width))
      requires t.speedMin != t.speedMax && mouse.MapDefined(t) && t.scrollSensitivity != 0
      modifies this`globalPaused, this`globalPauseDetected,
               this`rightHandPaused, this`fistDetected, this`isScrolling, this`doubleClickPerformed,
               mouse`prevScreen, mouse`emaAlpha, mouse`currentSpeed, mouse`ema, mouse`actions,
               mouse`prevScrollY, mouse`lastScrollTime, mouse`lastClickTime, mouse`leftPressed, mouse`rightPressed,
               this`leftHandEnabled, this`leftFistDetected, this`lastLeftGesture, this`prevVolumeY,
               this`isVolumeMode, this`lastVolumeTime, this`mutePinchDetected, this`mediaPinchDetected,
               volume`level, volume`muted, volume`lastVolumeChange, volume`mediaPresses,
               recognizer`currentGestureName
      ensures Valid()
      ensures Latch(globalPaused, globalPauseDetected) ==
        GlobalLatchAfter(old(Latch(globalPaused, globalPauseDetected)), GlobalPoseSeen(d, width, height))
      ensures RightLatchesOf() == RightAfterFrame(old(RightLatchesOf()), recognizer.pinchThreshold, d, width, height, globalPaused)
      ensures LeftLatchesOf() ==
        LeftAfterFrame(DirectionLatched, old(LeftLatchesOf()), recognizer.pinchThreshold, d, width, height, globalPaused, now)
      ensures globalPaused ==> unchanged(volume)
      ensures old(globalPaused) && globalPaused ==> unchanged(mouse)
      ensures (mouse.leftPressed, mouse.rightPressed) ==
                if globalPaused then (if old(globalPaused) then (old(mouse.leftPressed), old(mouse.rightPressed)) else (false, false))
                else RightButtonsAfterFrame(old(RightLatchesOf()), recognizer.pinchThreshold, d, width, height, false,
                                            old(mouse.leftPressed), old(mouse.rightPressed))
      ensures !globalPaused ==>
                EndpointOf() ==
                EndpointAfterFrame(DirectionLatched, old(LeftLatchesOf()), recognizer.pinchThreshold, d, width, height, false, now,
                                   volume.available, volume.mediaAvailable, volume.volumeCooldown, t.volumeStep, old(EndpointOf()))
    {
      // Both steps are used through their contracts alone.
      hide *;
      UpdateGlobalPause(d, width, height);
      ProcessHands(now, t, d, width, height);
    }

    /** The global-pause block of the loop body, run on the detector's fresh lists. */
    method UpdateGlobalPause(d: Detection, width: int, height: int)
      requires Valid() && LabelsCover(d)
      requires detector.landmarksList == d.hands && detector.handLabels == LabelsFor(d)
      requires detector.imageShape == Some((height, width))
      modifies this`globalPaused, this`globalPauseDetected, mouse`leftPressed, mouse`rightPressed, mouse`actions
      ensures Valid()
      ensures RightLatchesOf() == old(RightLatchesOf()) && LeftLatchesOf() == old(LeftLatchesOf())
      ensures Latch(globalPaused, globalPauseDetected) ==
        GlobalLatchAfter(old(Latch(globalPaused, globalPauseDetected)), GlobalPoseSeen(d, width, height))
      ensures globalPaused == old(globalPaused) ==> unchanged(mouse)
      ensures (mouse.leftPressed, mouse.rightPressed) ==
        (if globalPaused && !old(globalPaused) then (false, false) else (old(mouse.leftPressed), old(mouse.rightPressed)))
    {
      var seen := GlobalPoseOfFrame(d, width, height);
      ApplyGlobalPose(seen);
    }

    /**
     * The detector queries of the global-pause block: with exactly two hands, one
     * labelled Left and one Right, whether their index tips touch; otherwise None.
     */
    method GlobalPoseOfFrame(d: Detection, width: int, height: int) returns (seen: Option<bool>)
      requires detector.Valid() && LabelsCover(d)
      requires detector.landmarksList == d.hands && detector.handLabels == LabelsFor(d)
      requires detector.imageShape == Some((height, width))
      ensures seen == GlobalPoseSeen(d, width, height)
    {
      seen := None;
      if detector.GetHandCount() == 2 {
        var leftIdx := detector.GetHandByLabel("Left");
        var rightIdx := detector.GetHandByLabel("Right");
        if leftIdx.Some? && rightIdx.Some? {
          var leftLandmarks := detector.GetAllLandmarks(leftIdx.value);
          var rightLandmarks := detector.GetAllLandmarks(rightIdx.value);
          seen := Some(IsGlobalPauseGesture(leftLandmarks.value, rightLandmarks.value));
        }
      }
    }

    /** The latch part of the global-pause block: toggle on a fresh touch, releasing held buttons when pausing. */
    method ApplyGlobalPose(seen: Option<bool>)
      requires Valid()
      modifies this`globalPaused, this`globalPauseDetected, mouse`leftPressed, mouse`rightPressed, mouse`actions
      ensures Valid()
      ensures RightLatchesOf() == old(RightLatchesOf()) && LeftLatchesOf() == old(LeftLatchesOf())
      ensures Latch(globalPaused, globalPauseDetected) == GlobalLatchAfter(old(Latch(globalPaused, globalPauseDetected)), seen)
      ensures globalPaused == old(globalPaused) ==> unchanged(mouse)
      ensures (mouse.leftPressed, mouse.rightPressed) ==
        (if globalPaused && !old(globalPaused) then (false, false) else (old(mouse.leftPressed), old(mouse.rightPressed)))
    {
      if seen.Some? {
        if seen.value && !globalPauseDetected {
          globalPaused := !globalPaused;
          globalPauseDetected := true;
          if globalPaused {
            ReleaseHeld(mouse);
          }
        } else if !seen.value {
          globalPauseDetected := false;
        }
      }
    }

    /** The hand block of the loop body: outside a global pause, the right hand, then the left. */
    method ProcessHands(now: real, t: Tuning, d: Detection, width: int, height: int)
      requires Valid() && LabelsCover(d) && HandsIndexable(d, 10)
      requires detector.landmarksList == d.hands && detector.handLabels == LabelsFor(d)
      requires detector.imageShape == Some((height, width))
      requires t.speedMin != t.speedMax && mouse.MapDefined(t) && t.scrollSensitivity != 0
      modifies this`rightHandPaused, this`fistDetected, this`isScrolling, this`doubleClickPerformed,
               mouse`prevScreen, mouse`emaAlpha, mouse`currentSpeed, mouse`ema, mouse`actions,
               mouse`prevScrollY, mouse`lastScrollTime, mouse`lastClickTime, mouse`leftPressed, mouse`rightPressed,
               this`leftHandEnabled, this`leftFistDetected, this`lastLeftGesture, this`prevVolumeY,
               this`isVolumeMode, this`lastVolumeTime, this`mutePinchDetected, this`mediaPinchDetected,
               volume`level, volume`muted, volume`lastVolumeChange, volume`mediaPresses,
               recognizer`currentGestureName
      ensures Valid()
      ensures RightLatchesOf() == RightAfterFrame(old(RightLatchesOf()), recognizer.pinchThreshold, d, width, height, globalPaused)
      ensures LeftLatchesOf() ==
        LeftAfterFrame(DirectionLatched, old(LeftLatchesOf()), recognizer.pinchThreshold, d, width, height, globalPaused, now)
      ensures globalPaused ==> unchanged(volume) && unchanged(mouse)
      ensures (mouse.leftPressed, mouse.rightPressed) ==
        RightButtonsAfterFrame(old(RightLatchesOf()), recognizer.pinchThreshold, d, width, height, globalPaused,
                               old(mouse.leftPressed), old(mouse.rightPressed))
      ensures EndpointOf() ==
        EndpointAfterFrame(DirectionLatched, old(LeftLatchesOf()), recognizer.pinchThreshold, d, width, height, globalPaused, now,
                           volume.available, volume.mediaAvailable, volume.volumeCooldown, t.volumeStep, old(EndpointOf()))
    {
      if !globalPaused {
        // Both hands are used through their contract alone.
        hide *;
        BothHands(now, t, d, width, height);
      }
    }

    /** Outside a global pause: the right hand, then the left. */
    method BothHands(now: real, t: Tuning, d: Detection, width: int, height: int)
      requires Valid() && !globalPaused && LabelsCover(d) && HandsIndexable(d, 10)
      requires detector.landmarksList == d.hands && detector.handLabels == LabelsFor(d)
      requires detector.imageShape == Some((height, width))
      requires t.speedMin != t.speedMax && mouse.MapDefined(t) && t.scrollSensitivity != 0
      modifies this`rightHandPaused, this`fistDetected, this`isScrolling, this`doubleClickPerformed,
               mouse`prevScreen, mouse`emaAlpha, mouse`currentSpeed, mouse`ema, mouse`actions,
               mouse`prevScrollY, mouse`lastScrollTime, mouse`lastClickTime, mouse`leftPressed, mouse`rightPressed,
               this`leftHandEnabled, this`leftFistDetected, this`lastLeftGesture, this`prevVolumeY,
               this`isVolumeMode, this`lastVolumeTime, this`mutePinchDetected, this`mediaPinchDetected,
               volume`level, volume`muted, volume`lastVolumeChange, volume`mediaPresses,
               recognizer`currentGestureName
      ensures Valid()
      ensures RightLatchesOf() == RightAfterFrame(old(RightLatchesOf()), recognizer.pinchThreshold, d, width, height, false)
      ensures LeftLatchesOf() ==
        LeftAfterFrame(DirectionLatched, old(LeftLatchesOf()), recognizer.pinchThreshold, d, width, height, false, now)
      ensures (mouse.leftPressed, mouse.rightPressed) ==
        RightButtonsAfterFrame(old(RightLatchesOf()), recognizer.pinchThreshold, d, width, height, false,
                               old(mouse.leftPressed), old(mouse.rightPressed))
      ensures EndpointOf() ==
        EndpointAfterFrame(DirectionLatched, old(LeftLatchesOf()), recognizer.pinchThreshold, d, width, height, false, now,
                           volume.available, volume.mediaAvailable, volume.volumeCooldown, t.volumeStep, old(EndpointOf()))
    {
      // Both hands are used through their contracts alone.
      hide *;
      ghost var left, endpoint := LeftLatchesOf(), EndpointOf();
      RightHandIfPresent(now, t, d, width, height);
      assert LeftLatchesOf() == left && EndpointOf() == endpoint;
      ghost var right, buttons := RightLatchesOf(), (mouse.leftPressed, mouse.rightPressed);
      LeftHandIfPresent(now, t, d, width, height);
      assert RightLatchesOf() == right && (mouse.leftPressed, mouse.rightPressed) == buttons;
    }

    /** Look up the hand labelled "Right" and, when it has landmarks, run `process_right_hand` on it. */
    method RightHandIfPresent(now: real, t: Tuning, d: Detection, width: int, height: int)
      requires Valid() && !globalPaused && LabelsCover(d) && HandsIndexable(d, 10)
      requires detector.landmarksList == d.hands && detector.handLabels == LabelsFor(d)
      requires detector.imageShape == Some((height, width))
      requires t.speedMin != t.speedMax && mouse.MapDefined(t) && t.scrollSensitivity != 0
      modifies this`rightHandPaused, this`fistDetected, this`isScrolling, this`doubleClickPerformed,
               mouse`prevScreen, mouse`emaAlpha, mouse`currentSpeed, mouse`ema, mouse`actions,
               mouse`prevScrollY, mouse`lastScrollTime, mouse`lastClickTime, mouse`leftPressed, mouse`rightPressed,
               recognizer`currentGestureName
      ensures Valid()
      ensures RightLatchesOf() == RightAfterFrame(old(RightLatchesOf()), recognizer.pinchThreshold, d, width, height, false)
      ensures (mouse.leftPressed, mouse.rightPressed) ==
        RightButtonsAfterFrame(old(RightLatchesOf()), recognizer.pinchThreshold, d, width, height, false,
                               old(mouse.leftPressed), old(mouse.rightPressed))
    {
      var rightIdx := detector.GetHandByLabel("Right");
      if rightIdx.Some? {
        var landmarks := detector.GetAllLandmarks(rightIdx.value);
        if |landmarks.value| > 0 {
          ProcessRightHand(now, t, landmarks.value);
        }
      }
    }

    /** Look up the hand labelled "Left" and, when it has landmarks, run `process_left_hand` on it. */
    method LeftHandIfPresent(now: real, t: Tuning, d: Detection, width: int, height: int)
      requires Valid() && LabelsCover(d)
      requires detector.landmarksList == d.hands && detector.handLabels == LabelsFor(d)
      requires detector.imageShape == Some((height, width))
      modifies this`leftHandEnabled, this`leftFistDetected, this`lastLeftGesture, this`prevVolumeY,
               this`isVolumeMode, this`lastVolumeTime, this`mutePinchDetected, this`mediaPinchDetected,
               volume`level, volume`muted, volume`lastVolumeChange, volume`mediaPresses,
               recognizer`currentGestureName
      ensures Valid()
      ensures LeftLatchesOf() ==
        LeftAfterFrame(DirectionLatched, old(LeftLatchesOf()), recognizer.pinchThreshold, d, width, height, false, now)
      ensures EndpointOf() ==
        EndpointAfterFrame(DirectionLatched, old(LeftLatchesOf()), recognizer.pinchThreshold, d, width, height, false, now,
                           volume.available, volume.mediaAvailable, volume.volumeCooldown, t.volumeStep, old(EndpointOf()))
    {
      var leftIdx := detector.GetHandByLabel("Left");
      if leftIdx.Some? {
        var landmarks := detector.GetAllLandmarks(leftIdx.value);
        if |landmarks.value| > 0 {
          ProcessLeftHand(now, t, landmarks.value);
        }
      }
    }

    /** `process_right_hand`: classify the hand once, then run the frame on that pose. */
    method ProcessRightHand(now: real, t: Tuning, lm: seq<Point>)
      requires Valid() && !globalPaused && |lm| >= 10
      requires t.speedMin != t.speedMax && mouse.MapDefined(t) && t.scrollSensitivity != 0
      modifies this`rightHandPaused, this`fistDetected, this`isScrolling, this`doubleClickPerformed,
               mouse`prevScreen, mouse`emaAlpha, mouse`currentSpeed, mouse`ema, mouse`actions,
               mouse`prevScrollY, mouse`lastScrollTime, mouse`lastClickTime, mouse`leftPressed, mouse`rightPressed,
               recognizer`currentGestureName
      ensures Valid()
      ensures var f := RightStep(old(RightLatchesOf()), RightPoseOf(old(recognizer.pinchThreshold), lm));
        RightLatchesOf() == f.next &&
        (mouse.leftPressed, mouse.rightPressed) == RightButtons(f, old(mouse.leftPressed), old(mouse.rightPressed))
      ensures var f := RightStep(old(RightLatchesOf()), RightPoseOf(old(recognizer.pinchThreshold), lm));
        recognizer.currentGestureName == NameAfter(RightGestureName(f.plan), old(recognizer.currentGestureName))
      ensures var f := RightStep(old(RightLatchesOf()), RightPoseOf(old(recognizer.pinchThreshold), lm));
        var m := mouse.MapCoordinates(t, Palm(lm).x, Palm(lm).y);
        var e := Smoothed(mouse.emaAlpha, old(mouse.ema), m.0, m.1);
        var o := ScrollDecision(now, old(mouse.lastScrollTime), mouse.scrollCooldown, old(mouse.prevScrollY),
                                mouse.MapCoordinates(t, lm[8].x, lm[8].y).1, t.scrollThreshold, t.scrollSensitivity);
        mouse.lastScrollTime == (if f.plan == ScrollFrame && o.Scrolled? then now else old(mouse.lastScrollTime)) &&
        mouse.actions == old(mouse.actions) +
          RightEvents(f, old(mouse.leftPressed), old(mouse.rightPressed), MoveTo(TruncReal(e.0), TruncReal(e.1)),
                      WheelEvents(o), now - old(mouse.lastClickTime) >= mouse.clickCooldown)
      ensures var f := RightStep(old(RightLatchesOf()), RightPoseOf(old(recognizer.pinchThreshold), lm));
        f.plan == Frozen ==>
          mouse.prevScreen == old(mouse.prevScreen) && mouse.ema == old(mouse.ema) &&
          mouse.prevScrollY == old(mouse.prevScrollY) && mouse.lastClickTime == old(mouse.lastClickTime)
      ensures var f := RightStep(old(RightLatchesOf()), RightPoseOf(old(recognizer.pinchThreshold), lm));
        f.plan == ScrollFrame ==>
          mouse.prevScreen == old(mouse.prevScreen) && mouse.ema == old(mouse.ema) &&
          mouse.lastClickTime == old(mouse.lastClickTime) &&
          var y := mouse.MapCoordinates(t, lm[8].x, lm[8].y).1;
          var o := ScrollDecision(now, old(mouse.lastScrollTime), mouse.scrollCooldown, old(mouse.prevScrollY),
                                  y, t.scrollThreshold, t.scrollSensitivity);
          mouse.prevScrollY == (if o.Seeded? || o.Scrolled? then Some(y) else old(mouse.prevScrollY))
      ensures var f := RightStep(old(RightLatchesOf()), RightPoseOf(old(recognizer.pinchThreshold), lm));
        f.plan.CursorFrame? ==>
          mouse.prevScreen == Some(mouse.MapCoordinates(t, Palm(lm).x, Palm(lm).y)) &&
          mouse.ema == Some(Smoothed(mouse.emaAlpha, old(mouse.ema), mouse.MapCoordinates(t, Palm(lm).x, Palm(lm).y).0,
                                     mouse.MapCoordinates(t, Palm(lm).x, Palm(lm).y).1)) &&
          mouse.prevScrollY == (if f.plan.leaveScroll then None else old(mouse.prevScrollY)) &&
          mouse.lastClickTime ==
            (if f.plan.doubleFires && now - old(mouse.lastClickTime) >= mouse.clickCooldown then now
             else old(mouse.lastClickTime))
    {
      // The frame is used through its contract alone.
      hide RightPoseOf, RightStep, ActiveStep, RightButtons, RightEvents, Smoothed, ScrollDecision, NameAfter;
      var pose := RightPoseOf(recognizer.pinchThreshold, lm);
      RightHandFrame(now, t, lm, pose);
    }

    /**
     * The body of `process_right_hand` on the classifier's answers `p` for `lm`: the fist
     * toggle, then scroll by the index tip, or leaving scroll mode, the move to the palm
     * and the clicks, each branch naming itself for the window.
     */
    method RightHandFrame(now: real, t: Tuning, lm: seq<Point>, p: RightPose)
      requires mouse.Valid() && ButtonsValid() && LeftValid() && |lm| >= 10 && !globalPaused && !(p.fist && p.scroll)
      requires t.speedMin != t.speedMax && mouse.MapDefined(t) && t.scrollSensitivity != 0
      modifies this`rightHandPaused, this`fistDetected, this`isScrolling, this`doubleClickPerformed,
               mouse`prevScreen, mouse`emaAlpha, mouse`currentSpeed, mouse`ema, mouse`actions,
               mouse`prevScrollY, mouse`lastScrollTime, mouse`lastClickTime, mouse`leftPressed, mouse`rightPressed,
               recognizer`currentGestureName
      ensures ButtonsValid() && LeftValid()
      ensures var f := RightStep(old(RightLatchesOf()), p);
        RightLatchesOf() == f.next &&
        (mouse.leftPressed, mouse.rightPressed) == RightButtons(f, old(mouse.leftPressed), old(mouse.rightPressed))
      ensures var f := RightStep(old(RightLatchesOf()), p);
        recognizer.currentGestureName == NameAfter(RightGestureName(f.plan), old(recognizer.currentGestureName))
      ensures var f := RightStep(old(RightLatchesOf()), p);
        var m := mouse.MapCoordinates(t, Palm(lm).x, Palm(lm).y);
        var e := Smoothed(mouse.emaAlpha, old(mouse.ema), m.0, m.1);
        var o := ScrollDecision(now, old(mouse.lastScrollTime), mouse.scrollCooldown, old(mouse.prevScrollY),
                                mouse.MapCoordinates(t, lm[8].x, lm[8].y).1, t.scrollThreshold, t.scrollSensitivity);
        mouse.lastScrollTime == (if f.plan == ScrollFrame && o.Scrolled? then now else old(mouse.lastScrollTime)) &&
        mouse.actions == old(mouse.actions) +
          RightEvents(f, old(mouse.leftPressed), old(mouse.rightPressed), MoveTo(TruncReal(e.0), TruncReal(e.1)),
                      WheelEvents(o), now - old(mouse.lastClickTime) >= mouse.clickCooldown)
      ensures var f := RightStep(old(RightLatchesOf()), p);
        f.plan == Frozen ==>
          mouse.prevScreen == old(mouse.prevScreen) && mouse.ema == old(mouse.ema) &&
          mouse.prevScrollY == old(mouse.prevScrollY) && mouse.lastClickTime == old(mouse.lastClickTime)
      ensures var f := RightStep(old(RightLatchesOf()), p);
        f.plan == ScrollFrame ==>
          mouse.prevScreen == old(mouse.prevScreen) && mouse.ema == old(mouse.ema) &&
          mouse.lastClickTime == old(mouse.lastClickTime) &&
          var y := mouse.MapCoordinates(t, lm[8].x, lm[8].y).1;
          var o := ScrollDecision(now, old(mouse.lastScrollTime), mouse.scrollCooldown, old(mouse.prevScrollY),
                                  y, t.scrollThreshold, t.scrollSensitivity);
          mouse.prevScrollY == (if o.Seeded? || o.Scrolled? then Some(y) else old(mouse.prevScrollY))
      ensures var f := RightStep(old(RightLatchesOf()), p);
        f.plan.CursorFrame? ==>
          mouse.prevScreen == Some(mouse.MapCoordinates(t, Palm(lm).x, Palm(lm).y)) &&
          mouse.ema == Some(Smoothed(mouse.emaAlpha, old(mouse.ema), mouse.MapCoordinates(t, Palm(lm).x, Palm(lm).y).0,
                                     mouse.MapCoordinates(t, Palm(lm).x, Palm(lm).y).1)) &&
          mouse.prevScrollY == (if f.plan.leaveScroll then None else old(mouse.prevScrollY)) &&
          mouse.lastClickTime ==
            (if f.plan.doubleFires && now - old(mouse.lastClickTime) >= mouse.clickCooldown then now
             else old(mouse.lastClickTime))
    {
      // The steps are used through their contracts alone.
      hide *;
      LatchesAre();
      ghost var f := RightStep(RightLatchesOf(), p);
      RightStepByFist(RightLatchesOf(), p);
      RightFist(p.fist);
      LatchesAre();
      if !rightHandPaused {
        ActiveRightFrame(now, t, lm, p);
      } else {
        ghost var m := mouse.MapCoordinates(t, Palm(lm).x, Palm(lm).y);
        ghost var e := Smoothed(mouse.emaAlpha, old(mouse.ema), m.0, m.1);
        ghost var o := ScrollDecision(now, old(mouse.lastScrollTime), mouse.scrollCooldown, old(mouse.prevScrollY),
                                      mouse.MapCoordinates(t, lm[8].x, lm[8].y).1, t.scrollThreshold, t.scrollSensitivity);
        RightFrameEffects(f, old(mouse.leftPressed), old(mouse.rightPressed), MoveTo(TruncReal(e.0), TruncReal(e.1)),
                          WheelEvents(o), now - old(mouse.lastClickTime) >= mouse.clickCooldown);
      }
      RightNameAfter(f.plan, old(recognizer.currentGestureName));
    }

    /** The part of `process_right_hand` after a fist check that left the mouse running: scroll, or move and click. */
    method ActiveRightFrame(now: real, t: Tuning, lm: seq<Point>, p: RightPose)
      requires mouse.Valid() && ButtonsValid() && LeftValid() && |lm| >= 10 && !rightHandPaused && !globalPaused
      requires t.speedMin != t.speedMax && mouse.MapDefined(t) && t.scrollSensitivity != 0
      modifies this`isScrolling, this`doubleClickPerformed,
               mouse`prevScreen, mouse`emaAlpha, mouse`currentSpeed, mouse`ema, mouse`actions,
               mouse`prevScrollY, mouse`lastScrollTime, mouse`lastClickTime, mouse`leftPressed, mouse`rightPressed,
               recognizer`currentGestureName
      ensures ButtonsValid() && LeftValid()
      ensures var f := ActiveStep(old(RightLatchesOf()), p);
        RightLatchesOf() == f.next &&
        (mouse.leftPressed, mouse.rightPressed) == RightButtons(f, old(mouse.leftPressed), old(mouse.rightPressed)) &&
        recognizer.currentGestureName == NameAfter(RightGestureName(f.plan), old(recognizer.currentGestureName))
      ensures var f := ActiveStep(old(RightLatchesOf()), p);
        var m := mouse.MapCoordinates(t, Palm(lm).x, Palm(lm).y);
        var e := Smoothed(mouse.emaAlpha, old(mouse.ema), m.0, m.1);
        var o := ScrollDecision(now, old(mouse.lastScrollTime), mouse.scrollCooldown, old(mouse.prevScrollY),
                                mouse.MapCoordinates(t, lm[8].x, lm[8].y).1, t.scrollThreshold, t.scrollSensitivity);
        mouse.lastScrollTime == (if f.plan == ScrollFrame && o.Scrolled? then now else old(mouse.lastScrollTime)) &&
        mouse.actions == old(mouse.actions) +
          RightEvents(f, old(mouse.leftPressed), old(mouse.rightPressed), MoveTo(TruncReal(e.0), TruncReal(e.1)),
                      WheelEvents(o), now - old(mouse.lastClickTime) >= mouse.clickCooldown)
      ensures var f := ActiveStep(old(RightLatchesOf()), p);
        f.plan == ScrollFrame ==>
          mouse.prevScreen == old(mouse.prevScreen) && mouse.ema == old(mouse.ema) &&
          mouse.lastClickTime == old(mouse.lastClickTime) &&
          var y := mouse.MapCoordinates(t, lm[8].x, lm[8].y).1;
          var o := ScrollDecision(now, old(mouse.lastScrollTime), mouse.scrollCooldown, old(mouse.prevScrollY),
                                  y, t.scrollThreshold, t.scrollSensitivity);
          mouse.prevScrollY == (if o.Seeded? || o.Scrolled? then Some(y) else old(mouse.prevScrollY))
      ensures var f := ActiveStep(old(RightLatchesOf()), p);
        f.plan.CursorFrame? ==>
          mouse.prevScreen == Some(mouse.MapCoordinates(t, Palm(lm).x, Palm(lm).y)) &&
          mouse.ema == Some(Smoothed(mouse.emaAlpha, old(mouse.ema), mouse.MapCoordinates(t, Palm(lm).x, Palm(lm).y).0,
                                     mouse.MapCoordinates(t, Palm(lm).x, Palm(lm).y).1)) &&
          mouse.prevScrollY == (if f.plan.leaveScroll then None else old(mouse.prevScrollY)) &&
          mouse.lastClickTime ==
            (if f.plan.doubleFires && now - old(mouse.lastClickTime) >= mouse.clickCooldown then now
             else old(mouse.lastClickTime))
    {
      // The steps are used through their contracts alone.
      hide *;
      LatchesAre();
      ghost var f := ActiveStep(RightLatchesOf(), p);
      ActiveStepByScroll(RightLatchesOf(), p);
      ghost var m := mouse.MapCoordinates(t, Palm(lm).x, Palm(lm).y);
      ghost var o := ScrollDecision(now, mouse.lastScrollTime, mouse.scrollCooldown, mouse.prevScrollY,
                                    mouse.MapCoordinates(t, lm[8].x, lm[8].y).1, t.scrollThreshold, t.scrollSensitivity);
      ghost var clicked := now - mouse.lastClickTime >= mouse.clickCooldown;
      ghost var left, right := mouse.leftPressed, mouse.rightPressed;
      if p.scroll {
        ScrollByIndexTip(now, t, lm);
      } else {
        CursorAndClicks(now, t, lm, p);
      }
      LatchesAre();
      ghost var e := Smoothed(mouse.emaAlpha, old(mouse.ema), m.0, m.1);
      RightFrameEffects(f, left, right, MoveTo(TruncReal(e.0), TruncReal(e.1)), WheelEvents(o), clicked);
      RightNameAfter(f.plan, old(recognizer.currentGestureName));
    }

    /** The non-scroll part of `process_right_hand`: leave scroll mode, move to the palm, then the clicks. */
    method CursorAndClicks(now: real, t: Tuning, lm: seq<Point>, p: RightPose)
      requires mouse.Valid() && ButtonsValid() && LeftValid() && |lm| >= 10 && !rightHandPaused && !globalPaused
      requires t.speedMin != t.speedMax && mouse.MapDefined(t)
      modifies this`isScrolling, this`doubleClickPerformed,
               mouse`prevScreen, mouse`emaAlpha, mouse`currentSpeed, mouse`ema, mouse`actions,
               mouse`prevScrollY, mouse`lastClickTime, mouse`leftPressed, mouse`rightPressed,
               recognizer`currentGestureName
      ensures ButtonsValid() && LeftValid() && !isScrolling
      ensures mouse.prevScreen == Some(mouse.MapCoordinates(t, Palm(lm).x, Palm(lm).y))
      ensures mouse.prevScrollY == (if old(isScrolling) then None else old(mouse.prevScrollY))
      ensures var m := mouse.MapCoordinates(t, Palm(lm).x, Palm(lm).y);
        mouse.emaAlpha ==
          Alpha(mouse.emaMin, mouse.emaMax, Curve(mouse.emaFunction, t, mouse.exp, mouse.SpeedFrom(old(mouse.prevScreen), m.0, m.1))) &&
        mouse.ema == Some(Smoothed(mouse.emaAlpha, old(mouse.ema), m.0, m.1))
      ensures var branch := ClickChoice(p.double, p.leftPinch, p.rightPinch);
        var fires := branch == DoubleBranch && !old(doubleClickPerformed);
        doubleClickPerformed == (branch == DoubleBranch) &&
        (mouse.leftPressed, mouse.rightPressed) ==
          (if branch == DoubleBranch && !fires then (old(mouse.leftPressed), old(mouse.rightPressed))
           else ButtonsAfter(branch, old(mouse.leftPressed), old(mouse.rightPressed))) &&
        mouse.lastClickTime ==
          (if fires && now - old(mouse.lastClickTime) >= mouse.clickCooldown then now else old(mouse.lastClickTime)) &&
        mouse.actions == old(mouse.actions) + [MoveTo(TruncReal(mouse.ema.value.0), TruncReal(mouse.ema.value.1))] +
          ClickEvents(branch, fires, now - old(mouse.lastClickTime) >= mouse.clickCooldown,
                      old(mouse.leftPressed), old(mouse.rightPressed)) &&
        recognizer.currentGestureName == ClickName(branch)
    {
      // The steps are used through their contracts alone.
      hide *;
      CursorToPalm(t, lm);
      recognizer.SetGestureName(ClickName(NoClick));
      Clicks(now, p);
    }

    /** The move part of `process_right_hand`: leave scroll mode if it was on, then `move_mouse` to the palm. */
    method CursorToPalm(t: Tuning, lm: seq<Point>)
      requires mouse.Valid() && |lm| >= 10
      requires t.speedMin != t.speedMax && mouse.MapDefined(t)
      modifies this`isScrolling, mouse`prevScreen, mouse`emaAlpha, mouse`currentSpeed, mouse`ema, mouse`actions,
               mouse`prevScrollY
      ensures !isScrolling
      ensures mouse.prevScreen == Some(mouse.MapCoordinates(t, Palm(lm).x, Palm(lm).y))
      ensures mouse.prevScrollY == (if old(isScrolling) then None else old(mouse.prevScrollY))
      ensures var m := mouse.MapCoordinates(t, Palm(lm).x, Palm(lm).y);
        mouse.emaAlpha ==
          Alpha(mouse.emaMin, mouse.emaMax, Curve(mouse.emaFunction, t, mouse.exp, mouse.SpeedFrom(old(mouse.prevScreen), m.0, m.1))) &&
        mouse.ema == Some(Smoothed(mouse.emaAlpha, old(mouse.ema), m.0, m.1))
      ensures mouse.actions == old(mouse.actions) + [MoveTo(TruncReal(mouse.ema.value.0), TruncReal(mouse.ema.value.1))]
    {
      var palm := Palm(lm);
      if isScrolling {
        mouse.ResetScroll();
        isScrolling := false;
      }
      mouse.MoveMouse(t, palm.x, palm.y);
    }

    /** The fist block of `process_right_hand`: toggle the mouse pause on a new fist, releasing the buttons. */
    method RightFist(isFist: bool)
      requires ButtonsValid() && LeftValid() && !globalPaused
      modifies this`rightHandPaused, this`fistDetected, mouse`leftPressed, mouse`rightPressed, mouse`actions
      ensures ButtonsValid() && LeftValid()
      ensures Latch(rightHandPaused, fistDetected) == EdgeStep(old(Latch(rightHandPaused, fistDetected)), isFist)
      ensures (mouse.leftPressed, mouse.rightPressed) ==
        (if rightHandPaused && !old(rightHandPaused) then (false, false) else (old(mouse.leftPressed), old(mouse.rightPressed)))
    ensures mouse.actions == old(mouse.actions) +
      (if rightHandPaused && !old(rightHandPaused) then Releases(old(mouse.leftPressed), old(mouse.rightPressed)) else [])
    {
      if isFist && !fistDetected {
        rightHandPaused := !rightHandPaused;
        fistDetected := true;
        if rightHandPaused {
          ReleaseHeld(mouse);
        }
      } else if !isFist {
        fistDetected := false;
      }
    }

    /** The scroll block of `process_right_hand`: name it, scroll by the index tip, release the buttons. */
    method ScrollByIndexTip(now: real, t: Tuning, lm: seq<Point>)
      requires ButtonsValid() && LeftValid() && |lm| >= 9 && !rightHandPaused && !globalPaused
      requires mouse.MapDefined(t) && t.scrollSensitivity != 0
      modifies this`isScrolling, mouse`prevScrollY, mouse`lastScrollTime, mouse`actions,
               mouse`leftPressed, mouse`rightPressed, recognizer`currentGestureName
      ensures ButtonsValid() && LeftValid()
      ensures isScrolling && !mouse.leftPressed && !mouse.rightPressed
      ensures recognizer.currentGestureName == "Scroll"
      ensures var y := mouse.MapCoordinates(t, lm[8].x, lm[8].y).1;
        var o := ScrollDecision(now, old(mouse.lastScrollTime), mouse.scrollCooldown, old(mouse.prevScrollY),
                                y, t.scrollThreshold, t.scrollSensitivity);
        mouse.prevScrollY == (if o.Seeded? || o.Scrolled? then Some(y) else old(mouse.prevScrollY)) &&
        mouse.lastScrollTime == (if o.Scrolled? then now else old(mouse.lastScrollTime)) &&
        mouse.actions == old(mouse.actions) + WheelEvents(o) + Releases(old(mouse.leftPressed), old(mouse.rightPressed))
    {
      recognizer.SetGestureName("Scroll");
      var indexTip := lm[8];
      var screen := mouse.MapCoordinates(t, indexTip.x, indexTip.y);
      var scrolled := mouse.Scroll(t, now, screen.1);
      isScrolling := true;
      ReleaseHeld(mouse);
    }

    /** The click block of `process_right_hand`: double click, then left, then right pinch, each named. */
    method Clicks(now: real, p: RightPose)
      requires ButtonsValid() && !rightHandPaused && !globalPaused
      modifies this`doubleClickPerformed, mouse`leftPressed, mouse`rightPressed, mouse`actions, mouse`lastClickTime,
               recognizer`currentGestureName
      ensures ButtonsValid()
      ensures var branch := ClickChoice(p.double, p.leftPinch, p.rightPinch);
        var fires := branch == DoubleBranch && !old(doubleClickPerformed);
        doubleClickPerformed == (branch == DoubleBranch) &&
        (mouse.leftPressed, mouse.rightPressed) ==
          (if branch == DoubleBranch && !fires then (old(mouse.leftPressed), old(mouse.rightPressed))
           else ButtonsAfter(branch, old(mouse.leftPressed), old(mouse.rightPressed))) &&
        mouse.lastClickTime ==
          (if fires && now - old(mouse.lastClickTime) >= mouse.clickCooldown then now else old(mouse.lastClickTime)) &&
        mouse.actions == old(mouse.actions) +
          ClickEvents(branch, fires, now - old(mouse.lastClickTime) >= mouse.clickCooldown,
                      old(mouse.leftPressed), old(mouse.rightPressed))
      ensures var branch := ClickChoice(p.double, p.leftPinch, p.rightPinch);
        recognizer.currentGestureName ==
          (if branch == NoClick then old(recognizer.currentGestureName) else ClickName(branch))
    {
      if p.double {
        recognizer.SetGestureName(ClickName(DoubleBranch));
        if !doubleClickPerformed {
          ReleaseHeld(mouse);
          var clicked := mouse.DoubleClick(now);
          doubleClickPerformed := true;
        }
      } else if p.leftPinch {
        recognizer.SetGestureName(ClickName(LeftBranch));
        var pressed := mouse.LeftPress();
        if mouse.rightPressed {
          var released := mouse.RightRelease();
        }
        doubleClickPerformed := false;
      } else if p.rightPinch {
        recognizer.SetGestureName(ClickName(RightBranch));
        var pressed := mouse.RightPress();
        if mouse.leftPressed {
          var released := mouse.LeftRelease();
        }
        doubleClickPerformed := false;
      } else {
        ReleaseHeld(mouse);
        doubleClickPerformed := false;
      }
    }

    /** `process_left_hand`: classify the hand once, then run the frame on that pose. */
    method ProcessLeftHand(now: real, t: Tuning, lm: seq<Point>)
      requires Valid()
      modifies this`leftHandEnabled, this`leftFistDetected, this`lastLeftGesture, this`prevVolumeY,
               this`isVolumeMode, this`lastVolumeTime, this`mutePinchDetected, this`mediaPinchDetected,
               volume`level, volume`muted, volume`lastVolumeChange, volume`mediaPresses,
               recognizer`currentGestureName
      ensures Valid()
      ensures var p := LeftPoseOf(old(recognizer.pinchThreshold), lm);
        var f := LeftStep(DirectionLatched, old(LeftLatchesOf()), p, now);
        LeftLatchesOf() == f.next &&
        EndpointOf() == AfterEffect(f.effect, volume.available, volume.mediaAvailable, volume.volumeCooldown,
                                    t.volumeStep, now, old(EndpointOf())) &&
        recognizer.currentGestureName ==
          NameAfter(LeftGestureName(old(LeftLatchesOf()), p, now), old(recognizer.currentGestureName))
    {
      var pose := LeftPoseOf(recognizer.pinchThreshold, lm);
      LeftHandFrame(now, t, pose);
    }

    /** The body of `process_left_hand` on the classifier's answers: fist toggle, then mute, media and the drag. */
    method LeftHandFrame(now: real, t: Tuning, p: LeftPose)
      requires LeftValid()
      modifies this`leftHandEnabled, this`leftFistDetected, this`lastLeftGesture, this`prevVolumeY,
               this`isVolumeMode, this`lastVolumeTime, this`mutePinchDetected, this`mediaPinchDetected,
               volume`level, volume`muted, volume`lastVolumeChange, volume`mediaPresses,
               recognizer`currentGestureName
      ensures LeftValid()
      ensures var f := LeftStep(DirectionLatched, old(LeftLatchesOf()), p, now);
        LeftLatchesOf() == f.next &&
        EndpointOf() == AfterEffect(f.effect, volume.available, volume.mediaAvailable, volume.volumeCooldown,
                                    t.volumeStep, now, old(EndpointOf()))
      ensures recognizer.currentGestureName ==
        NameAfter(LeftGestureName(old(LeftLatchesOf()), p, now), old(recognizer.currentGestureName))
    {
      LeftFist(p.fist);
      if leftHandEnabled && !p.fist {
        LeftPoses(now, t, p);
      }
    }

    /** The pose blocks of `process_left_hand` on an enabled hand without a fist: mute, media, drag. */
    method LeftPoses(now: real, t: Tuning, p: LeftPose)
      requires LeftValid() && leftHandEnabled
      modifies this`lastLeftGesture, this`prevVolumeY, this`isVolumeMode, this`mutePinchDetected, this`mediaPinchDetected,
               volume`level, volume`muted, volume`lastVolumeChange, volume`mediaPresses,
               recognizer`currentGestureName
      ensures LeftValid()
      ensures var f := PoseStep(DirectionLatched, old(LeftLatchesOf()), p, now);
        LeftLatchesOf() == f.next &&
        EndpointOf() == AfterEffect(f.effect, volume.available, volume.mediaAvailable, volume.volumeCooldown,
                                    t.volumeStep, now, old(EndpointOf()))
      ensures recognizer.currentGestureName ==
        NameAfter(LeftFrameName(old(LeftLatchesOf()), PoseStep(DirectionLatched, old(LeftLatchesOf()), p, now)),
                  old(recognizer.currentGestureName))
    {
      if p.mute && !mutePinchDetected {
        recognizer.SetGestureName("Sessiz/Aç");
        var toggled := volume.ToggleMute();
        mutePinchDetected, lastLeftGesture, isVolumeMode, prevVolumeY, mediaPinchDetected := true, MuteDone, false, None, false;
      } else if !p.mute {
        mutePinchDetected := false;
        if p.media && !mediaPinchDetected {
          recognizer.SetGestureName("Oynat/Duraklat");
          var sent := volume.MediaPlayPause();
          mediaPinchDetected, lastLeftGesture, isVolumeMode, prevVolumeY := true, MediaDone, false, None;
        } else if !p.media {
          mediaPinchDetected := false;
          VolumeDrag(now, t, p.volume, p.indexY);
        }
      }
    }

    /** The fist block of `process_left_hand`: toggle the hand on a new fist; turning off drops the drag. */
    method LeftFist(isFist: bool)
      requires LeftValid()
      modifies this`leftHandEnabled, this`leftFistDetected, this`prevVolumeY, this`isVolumeMode
      ensures LeftValid()
      ensures Latch(leftHandEnabled, leftFistDetected) == EdgeStep(old(Latch(leftHandEnabled, leftFistDetected)), isFist)
      ensures prevVolumeY == (if old(leftHandEnabled) && !leftHandEnabled then None else old(prevVolumeY))
    {
      if isFist && !leftFistDetected {
        leftHandEnabled := !leftHandEnabled;
        leftFistDetected := true;
        if !leftHandEnabled {
          prevVolumeY := None;
          isVolumeMode := false;
        }
      } else if !isFist {
        leftFistDetected := false;
      }
    }

    /**
     * The volume-drag block of `process_left_hand`: a reference, then a direction latched
     * beyond 10 px and a step in that direction on every frame while it is latched.
     */
    method VolumeDrag(now: real, t: Tuning, volumePose: bool, currentY: int)
      requires LeftValid() && leftHandEnabled
      modifies this`lastLeftGesture, this`prevVolumeY, this`isVolumeMode,
               volume`level, volume`lastVolumeChange, recognizer`currentGestureName
      ensures LeftValid()
      ensures var f := Drag(DirectionLatched, old(LeftLatchesOf()), volumePose, currentY, now);
        LeftLatchesOf() == f.next &&
        EndpointOf() == AfterEffect(f.effect, volume.available, volume.mediaAvailable, volume.volumeCooldown,
                                    t.volumeStep, now, old(EndpointOf())) &&
        recognizer.currentGestureName ==
          NameAfter(LeftFrameName(old(LeftLatchesOf()), f), old(recognizer.currentGestureName))
    {
      if volumePose {
        if prevVolumeY.None? {
          prevVolumeY := Some(currentY);
          isVolumeMode := true;
          lastLeftGesture := VolumeMode;
          recognizer.SetGestureName("Ses Kontrolü");
        } else {
          var yDiff := prevVolumeY.value - currentY;
          if yDiff > GUI_VOLUME_OFFSET && lastLeftGesture != VolumeUpContinuous {
            lastLeftGesture := VolumeUpContinuous;
            recognizer.SetGestureName("Ses Artırma");
          } else if yDiff < -GUI_VOLUME_OFFSET && lastLeftGesture != VolumeDownContinuous {
            lastLeftGesture := VolumeDownContinuous;
            recognizer.SetGestureName("Ses Azaltma");
          }
          if lastLeftGesture == VolumeUpContinuous {
            var ok := volume.VolumeUp(now, None, t.volumeStep);
            recognizer.SetGestureName("Ses Artırma");
          } else if lastLeftGesture == VolumeDownContinuous {
            var ok := volume.VolumeDown(now, None, t.volumeStep);
            recognizer.SetGestureName("Ses Azaltma");
          }
        }
      } else {
        var wasStepping := lastLeftGesture == VolumeUpContinuous || lastLeftGesture == VolumeDownContinuous;
        prevVolumeY := None;
        isVolumeMode := false;
        if wasStepping {
          recognizer.SetGestureName("");
        }
        lastLeftGesture := NoLeftGesture;
      }
    }

    /**
     * `apply_settings`: every attribute the form sets, assigned over the current Config
     * attributes; all others keep their values.
     */
    method ApplySettings(form: SettingsForm)
      modifies settings
      ensures settings.attrs == old(settings.attrs) + FormAttributes(form)
    {
      var applied := FormAttributes(form);
      settings.attrs := settings.attrs + applied;
    }
  }
}
