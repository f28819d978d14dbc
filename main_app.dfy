/**
 * MainApp: HandMouseApp of main.py, the OpenCV front end. Each camera frame goes
 * through `process_frame`: hand bookkeeping, the two-hand global pause, then the
 * right hand (cursor, scroll, clicks) and the left hand (mute, media, volume drag).
 * The collaborators are the model's own classes; the frame's MediaPipe result,
 * its size and the wall-clock time are parameters.
 */
module MainApp {
  import opened Numeric
  import opened Config
  import opened GestureRecognizer
  import opened MouseController
  import opened VolumeController
  import opened HandDetector
  import opened SessionLogic
  import opened HandSteps

  /** The status-line text main.py shows for a right hand paused by its own fist. */
  const MAIN_PAUSED_TEXT: string := "DURAKLADI"

  class HandMouseApp {
    const mouse: Mouse
    const volume: Volume
    const recognizer: Recognizer
    const detector: Detector

    var handWasPresent: bool
    var doubleClickPerformed: bool
    var isScrolling: bool
    var isPaused: bool
    var fistDetected: bool
    var globalPaused: bool
    var globalPauseDetected: bool
    var leftHandEnabled: bool
    var leftFistDetected: bool
    var lastLeftGesture: LeftGesture
    var prevVolumeY: Option<int>
    var isVolumeMode: bool
    var lastVolumeTime: real
    var mutePinchDetected: bool
    var mediaPinchDetected: bool

    /** The right hand's flags. */
    function RightLatchesOf(): RightLatches
      reads this`isPaused, this`fistDetected, this`isScrolling, this`doubleClickPerformed
    {
      RightLatches(isPaused, fistDetected, isScrolling, doubleClickPerformed)
    }

    /** `RightLatchesOf` field by field, for proofs that hide function bodies. */
    lemma LatchesAre()
      ensures RightLatchesOf() == RightLatches(isPaused, fistDetected, isScrolling, doubleClickPerformed)
    {
    }

    /** The left hand's flags. */
    function LeftLatchesOf(): LeftLatches
      reads this`leftHandEnabled, this`leftFistDetected, this`lastLeftGesture, this`prevVolumeY,
            this`lastVolumeTime, this`mutePinchDetected, this`mediaPinchDetected
    {
      LeftLatches(leftHandEnabled, leftFistDetected, lastLeftGesture, prevVolumeY, lastVolumeTime,
                  mutePinchDetected, mediaPinchDetected)
    }

    /** The volume controller's state. */
    function EndpointOf(): Endpoint
      reads volume`level, volume`muted, volume`lastVolumeChange, volume`mediaPresses
    {
      Endpoint(volume.level, volume.muted, volume.lastVolumeChange, volume.mediaPresses)
    }

    /**
     * The session invariant: never both buttons held; no button held while paused,
     * globally paused or right after a double click; the volume mode flag mirrors
     * the drag reference, which exists only while the left hand is enabled and dragging.
     */
    ghost predicate Valid()
      reads this`isPaused, this`doubleClickPerformed, this`globalPaused, mouse`leftPressed, mouse`rightPressed,
            this`leftHandEnabled, this`lastLeftGesture, this`prevVolumeY, this`isVolumeMode, volume`level,
            recognizer`history, detector`landmarksList, detector`handLabels, detector`handDetected
    {
      mouse.Valid() && recognizer.Valid() && detector.Valid() && ButtonsValid() && LeftValid()
    }

    /** The right hand's part of the invariant: the buttons are safe, and none is held under a global pause. */
    ghost predicate ButtonsValid()
      reads this`isPaused, this`doubleClickPerformed, this`globalPaused, mouse`leftPressed, mouse`rightPressed
    {
      !(mouse.leftPressed && mouse.rightPressed) &&
      ((isPaused || doubleClickPerformed || globalPaused) ==> !mouse.leftPressed && !mouse.rightPressed)
    }

    /** The left hand's part: the volume is on its scale, the mode flag mirrors the reference, the reference is sound. */
    ghost predicate LeftValid()
      reads this`leftHandEnabled, this`lastLeftGesture, this`prevVolumeY, this`isVolumeMode, volume`level
    {
      0 <= volume.level <= 100 && (isVolumeMode <==> prevVolumeY.Some?) &&
      (prevVolumeY.Some? ==> leftHandEnabled && VolumeTracking(lastLeftGesture))
    }

    /** The state `__init__` sets up, around collaborators that start with no button held. */
    constructor (mouse: Mouse, volume: Volume, recognizer: Recognizer, detector: Detector)
      requires mouse.Valid() && !mouse.leftPressed && !mouse.rightPressed
      requires volume.Valid() && recognizer.Valid() && detector.Valid()
      ensures Valid()
      ensures this.mouse == mouse && this.volume == volume && this.recognizer == recognizer && this.detector == detector
      ensures !handWasPresent && !globalPaused && !globalPauseDetected
      ensures RightLatchesOf() == RightLatches(false, false, false, false)
      ensures LeftLatchesOf() == LeftLatches(false, false, NoLeftGesture, None, 0.0, false, false) && !isVolumeMode
    {
      this.mouse := mouse;
      this.volume := volume;
      this.recognizer := recognizer;
      this.detector := detector;
      handWasPresent := false;
      doubleClickPerformed := false;
      isScrolling := false;
      isPaused := false;
      fistDetected := false;
      globalPaused := false;
      globalPauseDetected := false;
      leftHandEnabled := false;
      leftFistDetected := false;
      lastLeftGesture := NoLeftGesture;
      prevVolumeY := None;
      isVolumeMode := false;
      lastVolumeTime := 0.0;
      mutePinchDetected := false;
      mediaPinchDetected := false;
    }

    /** `_update_overlay`: the status line of each hand. */
    function OverlayStatuses(): (Status, Status)
      reads this, detector
    {
      (RightStatus(FirstIndex(detector.handLabels, "Right").Some?, globalPaused, isPaused, MAIN_PAUSED_TEXT),
       LeftStatus(FirstIndex(detector.handLabels, "Left").Some?, globalPaused, leftHandEnabled))
    }

    /**
     * `process_frame` for one camera frame of `height` x `width` pixels in which MediaPipe
     * found `d`; returns the overlay's two status lines.
     */
    method ProcessFrame(now: real, t: Tuning, d: Detection, height: int, width: int)
      returns (rightStatus: Status, leftStatus: Status)
      requires Valid()
      requires LabelsCover(d) && HandsIndexable(d, 13)
      requires t.speedMin != t.speedMax && mouse.MapDefined(t) && t.scrollSensitivity != 0
      modifies this, mouse, volume, recognizer, detector
      ensures Valid()
      ensures detector.landmarksList == d.hands && detector.handLabels == LabelsFor(d)
      ensures detector.imageShape == Some((height, width))
      ensures handWasPresent == (|d.hands| > 0)
      ensures |d.hands| > 0 && !old(handWasPresent) ==>
        mouse.smoothX == [] && mouse.smoothY == [] && recognizer.State() == ResetFilter
      ensures |d.hands| == 0 ==>
        unchanged(mouse, volume, recognizer) && Latch(globalPaused, globalPauseDetected) == old(Latch(globalPaused, globalPauseDetected))
      ensures |d.hands| > 0 ==> (Latch(globalPaused, globalPauseDetected) ==
        GlobalLatchAfter(old(Latch(globalPaused, globalPauseDetected)), GlobalPoseSeen(d, width, height)))
      ensures RightLatchesOf() == RightAfterFrame(old(RightLatchesOf()), recognizer.pinchThreshold, d, width, height, globalPaused)
      ensures LeftLatchesOf() == LeftAfterFrame(RateLimited, old(LeftLatchesOf()), recognizer.pinchThreshold, d, width, height, globalPaused, now)
      ensures globalPaused ==> unchanged(volume)
      ensures old(globalPaused) && globalPaused ==>
                unchanged(mouse`prevScreen, mouse`emaAlpha, mouse`currentSpeed, mouse`ema, mouse`actions,
                          mouse`prevScrollY, mouse`lastScrollTime, mouse`lastClickTime, mouse`leftPressed, mouse`rightPressed)
      ensures old(handWasPresent) && old(globalPaused) && globalPaused ==> unchanged(mouse)
      ensures |d.hands| > 0 ==>
                (mouse.leftPressed, mouse.rightPressed) ==
                if globalPaused then (if old(globalPaused) then (old(mouse.leftPressed), old(mouse.rightPressed)) else (false, false))
                else RightButtonsAfterFrame(old(RightLatchesOf()), recognizer.pinchThreshold, d, width, height, false,
                                            old(mouse.leftPressed), old(mouse.rightPressed))
      ensures |d.hands| > 0 && !globalPaused ==>
                EndpointOf() ==
                EndpointAfterFrame(RateLimited, old(LeftLatchesOf()), recognizer.pinchThreshold, d, width, height, false, now,
                                   volume.available, volume.mediaAvailable, volume.volumeCooldown, t.volumeStep, old(EndpointOf()))
      ensures (rightStatus, leftStatus) == OverlayStatuses()
    {
      detector.UpdateImageShape(height, width);
      detector.FindHands(d);
      if detector.IsHandPresent() {
        HandsFrame(now, t, d, width, height);
      } else {
        if handWasPresent {
          handWasPresent := false;
        }
      }
      rightStatus, leftStatus := OverlayStatuses().0, OverlayStatuses().1;
    }

    /**
     * The part of `process_frame` for a frame with hands: restart the filters when the
     * hands reappear, update the global pause, and outside it run both hands.
     */
    method HandsFrame(now: real, t: Tuning, d: Detection, width: int, height: int)
      requires Valid() && |d.hands| > 0
      requires LabelsCover(d) && HandsIndexable(d, 13)
      requires detector.landmarksList == d.hands && detector.handLabels == LabelsFor(d)
      requires detector.imageShape == Some((height, width))
      requires t.speedMin != t.speedMax && mouse.MapDefined(t) && t.scrollSensitivity != 0
      modifies this, mouse, volume, recognizer
      ensures Valid() && handWasPresent
      ensures !old(handWasPresent) ==>
        mouse.smoothX == [] && mouse.smoothY == [] && recognizer.State() == ResetFilter
      ensures Latch(globalPaused, globalPauseDetected) ==
        GlobalLatchAfter(old(Latch(globalPaused, globalPauseDetected)), GlobalPoseSeen(d, width, height))
      ensures RightLatchesOf() == RightAfterFrame(old(RightLatchesOf()), recognizer.pinchThreshold, d, width, height, globalPaused)
      ensures LeftLatchesOf() == LeftAfterFrame(RateLimited, old(LeftLatchesOf()), recognizer.pinchThreshold, d, width, height, globalPaused, now)
      ensures globalPaused ==> unchanged(volume)
      ensures old(globalPaused) && globalPaused ==>
                unchanged(mouse`prevScreen, mouse`emaAlpha, mouse`currentSpeed, mouse`ema, mouse`actions,
                          mouse`prevScrollY, mouse`lastScrollTime, mouse`lastClickTime, mouse`leftPressed, mouse`rightPressed)
      ensures old(handWasPresent) && old(globalPaused) && globalPaused ==> unchanged(mouse)
      ensures (mouse.leftPressed, mouse.rightPressed) ==
        if globalPaused then (if old(globalPaused) then (old(mouse.leftPressed), old(mouse.rightPressed)) else (false, false))
        else RightButtonsAfterFrame(old(RightLatchesOf()), recognizer.pinchThreshold, d, width, height, false,
                                    old(mouse.leftPressed), old(mouse.rightPressed))
      ensures !globalPaused ==>
                EndpointOf() ==
                EndpointAfterFrame(RateLimited, old(LeftLatchesOf()), recognizer.pinchThreshold, d, width, height, false, now,
                                   volume.available, volume.mediaAvailable, volume.volumeCooldown, t.volumeStep, old(EndpointOf()))
    {
      // Both steps are used through their contracts alone.
      hide *;
      if !handWasPresent {
        RestartFilters();
      }
      PauseThenHands(now, t, d, width, height);
    }

    /** The hands came back: restart the cursor filter and the gesture history. */
    method RestartFilters()
      requires Valid()
      modifies this`handWasPresent, mouse`smoothX, mouse`smoothY,
               recognizer`history, recognizer`currentGesture, recognizer`lastGesture
      ensures Valid() && handWasPresent
      ensures mouse.smoothX == [] && mouse.smoothY == [] && recognizer.State() == ResetFilter
    {
      mouse.ResetSmoothing();
      recognizer.ResetGestureHistory();
      handWasPresent := true;
    }

    /** The global pause check of `process_frame`, then both hands unless the session is globally paused. */
    method PauseThenHands(now: real, t: Tuning, d: Detection, width: int, height: int)
      requires Valid() && LabelsCover(d) && HandsIndexable(d, 13)
      requires detector.landmarksList == d.hands && detector.handLabels == LabelsFor(d)
      requires detector.imageShape == Some((height, width))
      requires t.speedMin != t.speedMax && mouse.MapDefined(t) && t.scrollSensitivity != 0
      modifies this`globalPaused, this`globalPauseDetected,
               this`isPaused, this`fistDetected, this`isScrolling, this`doubleClickPerformed,
               mouse`prevScreen, mouse`emaAlpha, mouse`currentSpeed, mouse`ema, mouse`actions,
               mouse`prevScrollY, mouse`lastScrollTime, mouse`lastClickTime, mouse`leftPressed, mouse`rightPressed,
               this`leftHandEnabled, this`leftFistDetected, this`lastLeftGesture, this`prevVolumeY,
               this`isVolumeMode, this`lastVolumeTime, this`mutePinchDetected, this`mediaPinchDetected,
               volume`level, volume`muted, volume`lastVolumeChange, volume`mediaPresses
      ensures Valid()
      ensures Latch(globalPaused, globalPauseDetected) ==
        GlobalLatchAfter(old(Latch(globalPaused, globalPauseDetected)), GlobalPoseSeen(d, width, height))
      ensures RightLatchesOf() == RightAfterFrame(old(RightLatchesOf()), recognizer.pinchThreshold, d, width, height, globalPaused)
      ensures LeftLatchesOf() == LeftAfterFrame(RateLimited, old(LeftLatchesOf()), recognizer.pinchThreshold, d, width, height, globalPaused, now)
      ensures globalPaused ==> unchanged(volume)
      ensures old(globalPaused) && globalPaused ==> unchanged(mouse)
      ensures (mouse.leftPressed, mouse.rightPressed) ==
        if globalPaused then (if old(globalPaused) then (old(mouse.leftPressed), old(mouse.rightPressed)) else (false, false))
        else RightButtonsAfterFrame(old(RightLatchesOf()), recognizer.pinchThreshold, d, width, height, false,
                                    old(mouse.leftPressed), old(mouse.rightPressed))
      ensures !globalPaused ==>
                EndpointOf() ==
                EndpointAfterFrame(RateLimited, old(LeftLatchesOf()), recognizer.pinchThreshold, d, width, height, false, now,
                                   volume.available, volume.mediaAvailable, volume.volumeCooldown, t.volumeStep, old(EndpointOf()))
    {
      // Both steps are used through their contracts alone.
      hide *;
      UpdateGlobalPause(d, width, height);
      ProcessHands(now, t, d, width, height);
    }

    /** The global-pause block of `process_frame`, run on the detector's fresh lists. */
    method UpdateGlobalPause(d: Detection, width: int, height: int)
      requires Valid() && LabelsCover(d)
      requires detector.landmarksList == d.hands && detector.handLabels == LabelsFor(d)
      requires detector.imageShape == Some((height, width))
      modifies this`globalPaused, this`globalPauseDetected, mouse`leftPressed, mouse`rightPressed, mouse`actions
      ensures Valid()
      ensures RightLatchesOf() == old(RightLatchesOf()) && LeftLatchesOf() == old(LeftLatchesOf())
      ensures Latch(globalPaused, globalPauseDetected) ==
        GlobalLatchAfter(old(Latch(globalPaused, globalPauseDetected)), GlobalPoseSeen(d, width, height))
      ensures globalPaused == old(globalPaused) ==> unchanged(mouse)
      ensures (mouse.leftPressed, mouse.rightPressed) ==
        (if globalPaused && !old(globalPaused) then (false, false) else (old(mouse.leftPressed), old(mouse.rightPressed)))
    {
      var seen := GlobalPoseOfFrame(d, width, height);
      ApplyGlobalPose(seen);
    }

    /**
     * The detector queries of the global-pause block: with exactly two hands, one
     * labelled Left and one Right, whether their index tips touch; otherwise None.
     */
    method GlobalPoseOfFrame(d: Detection, width: int, height: int) returns (seen: Option<bool>)
      requires detector.Valid() && LabelsCover(d)
      requires detector.landmarksList == d.hands && detector.handLabels == LabelsFor(d)
      requires detector.imageShape == Some((height, width))
      ensures seen == GlobalPoseSeen(d, width, height)
    {
      seen := None;
      if detector.GetHandCount() == 2 {
        var leftIdx := detector.GetHandByLabel("Left");
        var rightIdx := detector.GetHandByLabel("Right");
        if leftIdx.Some? && rightIdx.Some? {
          var leftLandmarks := detector.GetAllLandmarks(leftIdx.value);
          var rightLandmarks := detector.GetAllLandmarks(rightIdx.value);
          seen := Some(IsGlobalPauseGesture(leftLandmarks.value, rightLandmarks.value));
        }
      }
    }

    /** The latch part of the global-pause block: toggle on a fresh touch, releasing held buttons when pausing. */
    method ApplyGlobalPose(seen: Option<bool>)
      requires Valid()
      modifies this`globalPaused, this`globalPauseDetected, mouse`leftPressed, mouse`rightPressed, mouse`actions
      ensures Valid()
      ensures RightLatchesOf() == old(RightLatchesOf()) && LeftLatchesOf() == old(LeftLatchesOf())
      ensures Latch(globalPaused, globalPauseDetected) == GlobalLatchAfter(old(Latch(globalPaused, globalPauseDetected)), seen)
      ensures globalPaused == old(globalPaused) ==> unchanged(mouse)
      ensures (mouse.leftPressed, mouse.rightPressed) ==
        (if globalPaused && !old(globalPaused) then (false, false) else (old(mouse.leftPressed), old(mouse.rightPressed)))
    {
      if seen.Some? {
        if seen.value && !globalPauseDetected {
          globalPaused := !globalPaused;
          globalPauseDetected := true;
          if globalPaused {
            ReleaseHeld(mouse);
          }
        } else if !seen.value {
          globalPauseDetected := false;
        }
      }
    }

    /** The hand block of `process_frame`: outside a global pause, the right hand, then the left. */
    method ProcessHands(now: real, t: Tuning, d: Detection, width: int, height: int)
      requires Valid() && LabelsCover(d) && HandsIndexable(d, 13)
      requires detector.landmarksList == d.hands && detector.handLabels == LabelsFor(d)
      requires detector.imageShape == Some((height, width))
      requires t.speedMin != t.speedMax && mouse.MapDefined(t) && t.scrollSensitivity != 0
      modifies this`isPaused, this`fistDetected, this`isScrolling, this`doubleClickPerformed,
               mouse`prevScreen, mouse`emaAlpha, mouse`currentSpeed, mouse`ema, mouse`actions,
               mouse`prevScrollY, mouse`lastScrollTime, mouse`lastClickTime, mouse`leftPressed, mouse`rightPressed,
               this`leftHandEnabled, this`leftFistDetected, this`lastLeftGesture, this`prevVolumeY,
               this`isVolumeMode, this`lastVolumeTime, this`mutePinchDetected, this`mediaPinchDetected,
               volume`level, volume`muted, volume`lastVolumeChange, volume`mediaPresses
      ensures Valid()
      ensures RightLatchesOf() == RightAfterFrame(old(RightLatchesOf()), recognizer.pinchThreshold, d, width, height, globalPaused)
      ensures LeftLatchesOf() == LeftAfterFrame(RateLimited, old(LeftLatchesOf()), recognizer.pinchThreshold, d, width, height, globalPaused, now)
      ensures globalPaused ==> unchanged(volume) && unchanged(mouse)
      ensures (mouse.leftPressed, mouse.rightPressed) ==
        RightButtonsAfterFrame(old(RightLatchesOf()), recognizer.pinchThreshold, d, width, height, globalPaused,
                               old(mouse.leftPressed), old(mouse.rightPressed))
      ensures EndpointOf() ==
        EndpointAfterFrame(RateLimited, old(LeftLatchesOf()), recognizer.pinchThreshold, d, width, height, globalPaused, now,
                           volume.available, volume.mediaAvailable, volume.volumeCooldown, t.volumeStep, old(EndpointOf()))
    {
      if !globalPaused {
        // Both hands are used through their contract alone.
        hide *;
        BothHands(now, t, d, width, height);
      }
    }

    /** Outside a global pause: the right hand, then the left. */
    method BothHands(now: real, t: Tuning, d: Detection, width: int, height: int)
      requires Valid() && !globalPaused && LabelsCover(d) && HandsIndexable(d, 13)
      requires detector.landmarksList == d.hands && detector.handLabels == LabelsFor(d)
      requires detector.imageShape == Some((height, width))
      requires t.speedMin != t.speedMax && mouse.MapDefined(t) && t.scrollSensitivity != 0
      modifies this`isPaused, this`fistDetected, this`isScrolling, this`doubleClickPerformed,
               mouse`prevScreen, mouse`emaAlpha, mouse`currentSpeed, mouse`ema, mouse`actions,
               mouse`prevScrollY, mouse`lastScrollTime, mouse`lastClickTime, mouse`leftPressed, mouse`rightPressed,
               this`leftHandEnabled, this`leftFistDetected, this`lastLeftGesture, this`prevVolumeY,
               this`isVolumeMode, this`lastVolumeTime, this`mutePinchDetected, this`mediaPinchDetected,
               volume`level, volume`muted, volume`lastVolumeChange, volume`mediaPresses
      ensures Valid()
      ensures RightLatchesOf() == RightAfterFrame(old(RightLatchesOf()), recognizer.pinchThreshold, d, width, height, false)
      ensures LeftLatchesOf() == LeftAfterFrame(RateLimited, old(LeftLatchesOf()), recognizer.pinchThreshold, d, width, height, false, now)
      ensures (mouse.leftPressed, mouse.rightPressed) ==
        RightButtonsAfterFrame(old(RightLatchesOf()), recognizer.pinchThreshold, d, width, height, false,
                               old(mouse.leftPressed), old(mouse.rightPressed))
      ensures EndpointOf() ==
        EndpointAfterFrame(RateLimited, old(LeftLatchesOf()), recognizer.pinchThreshold, d, width, height, false, now,
                           volume.available, volume.mediaAvailable, volume.volumeCooldown, t.volumeStep, old(EndpointOf()))
    {
      // Both hands are used through their contracts alone.
      hide *;
      ghost var left, endpoint := LeftLatchesOf(), EndpointOf();
      RightHandIfPresent(now, t, d, width, height);
      assert LeftLatchesOf() == left && EndpointOf() == endpoint;
      ghost var right, buttons := RightLatchesOf(), (mouse.leftPressed, mouse.rightPressed);
      LeftHandIfPresent(now, t, d, width, height);
      assert RightLatchesOf() == right && (mouse.leftPressed, mouse.rightPressed) == buttons;
    }

    /** Look up the hand labelled "Right" and, when it has landmarks, run `process_right_hand` on it. */
    method RightHandIfPresent(now: real, t: Tuning, d: Detection, width: int, height: int)
      requires Valid() && !globalPaused && LabelsCover(d) && HandsIndexable(d, 13)
      requires detector.landmarksList == d.hands && detector.handLabels == LabelsFor(d)
      requires detector.imageShape == Some((height, width))
      requires t.speedMin != t.speedMax && mouse.MapDefined(t) && t.scrollSensitivity != 0
      modifies this`isPaused, this`fistDetected, this`isScrolling, this`doubleClickPerformed,
               mouse`prevScreen, mouse`emaAlpha, mouse`currentSpeed, mouse`ema, mouse`actions,
               mouse`prevScrollY, mouse`lastScrollTime, mouse`lastClickTime, mouse`leftPressed, mouse`rightPressed
      ensures Valid()
      ensures RightLatchesOf() == RightAfterFrame(old(RightLatchesOf()), recognizer.pinchThreshold, d, width, height, false)
      ensures (mouse.leftPressed, mouse.rightPressed) ==
        RightButtonsAfterFrame(old(RightLatchesOf()), recognizer.pinchThreshold, d, width, height, false,
                               old(mouse.leftPressed), old(mouse.rightPressed))
    {
      var rightIdx := detector.GetHandByLabel("Right");
      if rightIdx.Some? {
        var landmarks := detector.GetAllLandmarks(rightIdx.value);
        if |landmarks.value| > 0 {
          ProcessRightHand(now, t, landmarks.value);
        }
      }
    }

    /** Look up the hand labelled "Left" and, when it has landmarks, run `process_left_hand` on it. */
    method LeftHandIfPresent(now: real, t: Tuning, d: Detection, width: int, height: int)
      requires Valid() && LabelsCover(d)
      requires detector.landmarksList == d.hands && detector.handLabels == LabelsFor(d)
      requires detector.imageShape == Some((height, width))
      modifies this`leftHandEnabled, this`leftFistDetected, this`lastLeftGesture, this`prevVolumeY,
               this`isVolumeMode, this`lastVolumeTime, this`mutePinchDetected, this`mediaPinchDetected,
               volume`level, volume`muted, volume`lastVolumeChange, volume`mediaPresses
      ensures Valid()
      ensures LeftLatchesOf() == LeftAfterFrame(RateLimited, old(LeftLatchesOf()), recognizer.pinchThreshold, d, width, height, false, now)
      ensures EndpointOf() ==
        EndpointAfterFrame(RateLimited, old(LeftLatchesOf()), recognizer.pinchThreshold, d, width, height, false, now,
                           volume.available, volume.mediaAvailable, volume.volumeCooldown, t.volumeStep, old(EndpointOf()))
    {
      var leftIdx := detector.GetHandByLabel("Left");
      if leftIdx.Some? {
        var landmarks := detector.GetAllLandmarks(leftIdx.value);
        if |landmarks.value| > 0 {
          ProcessLeftHand(now, t, landmarks.value);
        }
      }
    }

    /** `process_right_hand`: classify the hand once, then run the frame on that pose. */
    method ProcessRightHand(now: real, t: Tuning, lm: seq<Point>)
      requires Valid() && |lm| >= 13 && !globalPaused
      requires t.speedMin != t.speedMax && mouse.MapDefined(t) && t.scrollSensitivity != 0
      modifies this`isPaused, this`fistDetected, this`isScrolling, this`doubleClickPerformed,
               mouse`prevScreen, mouse`emaAlpha, mouse`currentSpeed, mouse`ema, mouse`actions,
               mouse`prevScrollY, mouse`lastScrollTime, mouse`lastClickTime, mouse`leftPressed, mouse`rightPressed
      ensures Valid()
      ensures var f := RightStep(old(RightLatchesOf()), RightPoseOf(recognizer.pinchThreshold, lm));
        RightLatchesOf() == f.next &&
        (mouse.leftPressed, mouse.rightPressed) == RightButtons(f, old(mouse.leftPressed), old(mouse.rightPressed))
      ensures var f := RightStep(old(RightLatchesOf()), RightPoseOf(recognizer.pinchThreshold, lm));
        var m := mouse.MapCoordinates(t, Palm(lm).x, Palm(lm).y);
        var e := Smoothed(mouse.emaAlpha, old(mouse.ema), m.0, m.1);
        var o := ScrollDecision(now, old(mouse.lastScrollTime), mouse.scrollCooldown, old(mouse.prevScrollY),
                                mouse.MapCoordinates(t, lm[8].x, lm[8].y).1, t.scrollThreshold, t.scrollSensitivity);
        mouse.lastScrollTime == (if f.plan == ScrollFrame && o.Scrolled? then now else old(mouse.lastScrollTime)) &&
        mouse.actions == old(mouse.actions) +
          RightEvents(f, old(mouse.leftPressed), old(mouse.rightPressed), MoveTo(TruncReal(e.0), TruncReal(e.1)),
                      WheelEvents(o), now - old(mouse.lastClickTime) >= mouse.clickCooldown)
      ensures var f := RightStep(old(RightLatchesOf()), RightPoseOf(recognizer.pinchThreshold, lm));
        f.plan == Frozen ==>
          mouse.prevScreen == old(mouse.prevScreen) && mouse.ema == old(mouse.ema) &&
          mouse.prevScrollY == old(mouse.prevScrollY) && mouse.lastClickTime == old(mouse.lastClickTime)
      ensures var f := RightStep(old(RightLatchesOf()), RightPoseOf(recognizer.pinchThreshold, lm));
        f.plan == ScrollFrame ==>
          mouse.prevScreen == old(mouse.prevScreen) && mouse.ema == old(mouse.ema) &&
          mouse.lastClickTime == old(mouse.lastClickTime) &&
          var y := mouse.MapCoordinates(t, lm[8].x, lm[8].y).1;
          var o := ScrollDecision(now, old(mouse.lastScrollTime), mouse.scrollCooldown, old(mouse.prevScrollY),
                                  y, t.scrollThreshold, t.scrollSensitivity);
          mouse.prevScrollY == (if o.Seeded? || o.Scrolled? then Some(y) else old(mouse.prevScrollY))
      ensures var f := RightStep(old(RightLatchesOf()), RightPoseOf(recognizer.pinchThreshold, lm));
        f.plan.CursorFrame? ==>
          mouse.prevScreen == Some(mouse.MapCoordinates(t, Palm(lm).x, Palm(lm).y)) &&
          mouse.ema == Some(Smoothed(mouse.emaAlpha, old(mouse.ema), mouse.MapCoordinates(t, Palm(lm).x, Palm(lm).y).0,
                                     mouse.MapCoordinates(t, Palm(lm).x, Palm(lm).y).1)) &&
          mouse.prevScrollY == (if f.plan.leaveScroll then None else old(mouse.prevScrollY)) &&
          mouse.lastClickTime ==
            (if f.plan.doubleFires && now - old(mouse.lastClickTime) >= mouse.clickCooldown then now
             else old(mouse.lastClickTime))
    {
      // The frame is used through its contract alone.
      hide RightPoseOf, RightStep, ActiveStep, RightButtons, RightEvents, Smoothed, ScrollDecision;
      var pose := RightPoseOf(recognizer.pinchThreshold, lm);
      RightHandFrame(now, t, lm, pose);
    }

    /**
     * The body of `process_right_hand` on the classifier's answers `p` for `lm`: the fist
     * toggle, then scroll by the index tip, or leaving scroll mode, the move to the palm
     * and the clicks.
     */
    method RightHandFrame(now: real, t: Tuning, lm: seq<Point>, p: RightPose)
      requires mouse.Valid() && ButtonsValid() && |lm| >= 13 && !globalPaused && !(p.fist && p.scroll)
      requires t.speedMin != t.speedMax && mouse.MapDefined(t) && t.scrollSensitivity != 0
      modifies this`isPaused, this`fistDetected, this`isScrolling, this`doubleClickPerformed,
               mouse`prevScreen, mouse`emaAlpha, mouse`currentSpeed, mouse`ema, mouse`actions,
               mouse`prevScrollY, mouse`lastScrollTime, mouse`lastClickTime, mouse`leftPressed, mouse`rightPressed
      ensures ButtonsValid()
      ensures var f := RightStep(old(RightLatchesOf()), p);
        RightLatchesOf() == f.next &&
        (mouse.leftPressed, mouse.rightPressed) == RightButtons(f, old(mouse.leftPressed), old(mouse.rightPressed))
      ensures var f := RightStep(old(RightLatchesOf()), p);
        var m := mouse.MapCoordinates(t, Palm(lm).x, Palm(lm).y);
        var e := Smoothed(mouse.emaAlpha, old(mouse.ema), m.0, m.1);
        var o := ScrollDecision(now, old(mouse.lastScrollTime), mouse.scrollCooldown, old(mouse.prevScrollY),
                                mouse.MapCoordinates(t, lm[8].x, lm[8].y).1, t.scrollThreshold, t.scrollSensitivity);
        mouse.lastScrollTime == (if f.plan == ScrollFrame && o.Scrolled? then now else old(mouse.lastScrollTime)) &&
        mouse.actions == old(mouse.actions) +
          RightEvents(f, old(mouse.leftPressed), old(mouse.rightPressed), MoveTo(TruncReal(e.0), TruncReal(e.1)),
                      WheelEvents(o), now - old(mouse.lastClickTime) >= mouse.clickCooldown)
      ensures var f := RightStep(old(RightLatchesOf()), p);
        f.plan == Frozen ==>
          mouse.prevScreen == old(mouse.prevScreen) && mouse.ema == old(mouse.ema) &&
          mouse.prevScrollY == old(mouse.prevScrollY) && mouse.lastClickTime == old(mouse.lastClickTime)
      ensures var f := RightStep(old(RightLatchesOf()), p);
        f.plan == ScrollFrame ==>
          mouse.prevScreen == old(mouse.prevScreen) && mouse.ema == old(mouse.ema) &&
          mouse.lastClickTime == old(mouse.lastClickTime) &&
          var y := mouse.MapCoordinates(t, lm[8].x, lm[8].y).1;
          var o := ScrollDecision(now, old(mouse.lastScrollTime), mouse.scrollCooldown, old(mouse.prevScrollY),
                                  y, t.scrollThreshold, t.scrollSensitivity);
          mouse.prevScrollY == (if o.Seeded? || o.Scrolled? then Some(y) else old(mouse.prevScrollY))
      ensures var f := RightStep(old(RightLatchesOf()), p);
        f.plan.CursorFrame? ==>
          mouse.prevScreen == Some(mouse.MapCoordinates(t, Palm(lm).x, Palm(lm).y)) &&
          mouse.ema == Some(Smoothed(mouse.emaAlpha, old(mouse.ema), mouse.MapCoordinates(t, Palm(lm).x, Palm(lm).y).0,
                                     mouse.MapCoordinates(t, Palm(lm).x, Palm(lm).y).1)) &&
          mouse.prevScrollY == (if f.plan.leaveScroll then None else old(mouse.prevScrollY)) &&
          mouse.lastClickTime ==
            (if f.plan.doubleFires && now - old(mouse.lastClickTime) >= mouse.clickCooldown then now
             else old(mouse.lastClickTime))
    {
      // The steps are used through their contracts alone.
      hide *;
      LatchesAre();
      ghost var f := RightStep(RightLatchesOf(), p);
      RightStepByFist(RightLatchesOf(), p);
      RightFist(p.fist);
      LatchesAre();
      if !isPaused {
        ActiveRightFrame(now, t, lm, p);
      } else {
        ghost var m := mouse.MapCoordinates(t, Palm(lm).x, Palm(lm).y);
        ghost var e := Smoothed(mouse.emaAlpha, old(mouse.ema), m.0, m.1);
        ghost var o := ScrollDecision(now, old(mouse.lastScrollTime), mouse.scrollCooldown, old(mouse.prevScrollY),
                                      mouse.MapCoordinates(t, lm[8].x, lm[8].y).1, t.scrollThreshold, t.scrollSensitivity);
        RightFrameEffects(f, old(mouse.leftPressed), old(mouse.rightPressed), MoveTo(TruncReal(e.0), TruncReal(e.1)),
                          WheelEvents(o), now - old(mouse.lastClickTime) >= mouse.clickCooldown);
      }
    }

    /** The part of `process_right_hand` after a fist check that left the mouse running: scroll, or move and click. */
    method ActiveRightFrame(now: real, t: Tuning, lm: seq<Point>, p: RightPose)
      requires mouse.Valid() && ButtonsValid() && |lm| >= 13 && !isPaused && !globalPaused
      requires t.speedMin != t.speedMax && mouse.MapDefined(t) && t.scrollSensitivity != 0
      modifies this`isScrolling, this`doubleClickPerformed,
               mouse`prevScreen, mouse`emaAlpha, mouse`currentSpeed, mouse`ema, mouse`actions,
               mouse`prevScrollY, mouse`lastScrollTime, mouse`lastClickTime, mouse`leftPressed, mouse`rightPressed
      ensures ButtonsValid()
      ensures var f := ActiveStep(old(RightLatchesOf()), p);
        RightLatchesOf() == f.next &&
        (mouse.leftPressed, mouse.rightPressed) == RightButtons(f, old(mouse.leftPressed), old(mouse.rightPressed))
      ensures var f := ActiveStep(old(RightLatchesOf()), p);
        var m := mouse.MapCoordinates(t, Palm(lm).x, Palm(lm).y);
        var e := Smoothed(mouse.emaAlpha, old(mouse.ema), m.0, m.1);
        var o := ScrollDecision(now, old(mouse.lastScrollTime), mouse.scrollCooldown, old(mouse.prevScrollY),
                                mouse.MapCoordinates(t, lm[8].x, lm[8].y).1, t.scrollThreshold, t.scrollSensitivity);
        mouse.lastScrollTime == (if f.plan == ScrollFrame && o.Scrolled? then now else old(mouse.lastScrollTime)) &&
        mouse.actions == old(mouse.actions) +
          RightEvents(f, old(mouse.leftPressed), old(mouse.rightPressed), MoveTo(TruncReal(e.0), TruncReal(e.1)),
                      WheelEvents(o), now - old(mouse.lastClickTime) >= mouse.clickCooldown)
      ensures var f := ActiveStep(old(RightLatchesOf()), p);
        f.plan == ScrollFrame ==>
          mouse.prevScreen == old(mouse.prevScreen) && mouse.ema == old(mouse.ema) &&
          mouse.lastClickTime == old(mouse.lastClickTime) &&
          var y := mouse.MapCoordinates(t, lm[8].x, lm[8].y).1;
          var o := ScrollDecision(now, old(mouse.lastScrollTime), mouse.scrollCooldown, old(mouse.prevScrollY),
                                  y, t.scrollThreshold, t.scrollSensitivity);
          mouse.prevScrollY == (if o.Seeded? || o.Scrolled? then Some(y) else old(mouse.prevScrollY))
      ensures var f := ActiveStep(old(RightLatchesOf()), p);
        f.plan.CursorFrame? ==>
          mouse.prevScreen == Some(mouse.MapCoordinates(t, Palm(lm).x, Palm(lm).y)) &&
          mouse.ema == Some(Smoothed(mouse.emaAlpha, old(mouse.ema), mouse.MapCoordinates(t, Palm(lm).x, Palm(lm).y).0,
                                     mouse.MapCoordinates(t, Palm(lm).x, Palm(lm).y).1)) &&
          mouse.prevScrollY == (if f.plan.leaveScroll then None else old(mouse.prevScrollY)) &&
          mouse.lastClickTime ==
            (if f.plan.doubleFires && now - old(mouse.lastClickTime) >= mouse.clickCooldown then now
             else old(mouse.lastClickTime))
    {
      // The steps are used through their contracts alone.
      hide *;
      LatchesAre();
      ghost var f := ActiveStep(RightLatchesOf(), p);
      ActiveStepByScroll(RightLatchesOf(), p);
      ghost var m := mouse.MapCoordinates(t, Palm(lm).x, Palm(lm).y);
      ghost var o := ScrollDecision(now, mouse.lastScrollTime, mouse.scrollCooldown, mouse.prevScrollY,
                                    mouse.MapCoordinates(t, lm[8].x, lm[8].y).1, t.scrollThreshold, t.scrollSensitivity);
      ghost var clicked := now - mouse.lastClickTime >= mouse.clickCooldown;
      ghost var left, right := mouse.leftPressed, mouse.rightPressed;
      if p.scroll {
        ScrollByIndexTip(now, t, lm);
      } else {
        CursorAndClicks(now, t, lm, p);
      }
      LatchesAre();
      ghost var e := Smoothed(mouse.emaAlpha, old(mouse.ema), m.0, m.1);
      RightFrameEffects(f, left, right, MoveTo(TruncReal(e.0), TruncReal(e.1)), WheelEvents(o), clicked);
    }

    /** The non-scroll part of `process_right_hand`: leave scroll mode, move to the palm, then the clicks. */
    method CursorAndClicks(now: real, t: Tuning, lm: seq<Point>, p: RightPose)
      requires mouse.Valid() && ButtonsValid() && |lm| >= 13 && !isPaused && !globalPaused
      requires t.speedMin != t.speedMax && mouse.MapDefined(t)
      modifies this`isScrolling, this`doubleClickPerformed,
               mouse`prevScreen, mouse`emaAlpha, mouse`currentSpeed, mouse`ema, mouse`actions,
               mouse`prevScrollY, mouse`lastClickTime, mouse`leftPressed, mouse`rightPressed
      ensures ButtonsValid() && !isScrolling
      ensures mouse.prevScreen == Some(mouse.MapCoordinates(t, Palm(lm).x, Palm(lm).y))
      ensures mouse.prevScrollY == (if old(isScrolling) then None else old(mouse.prevScrollY))
      ensures var m := mouse.MapCoordinates(t, Palm(lm).x, Palm(lm).y);
        mouse.emaAlpha ==
          Alpha(mouse.emaMin, mouse.emaMax, Curve(mouse.emaFunction, t, mouse.exp, mouse.SpeedFrom(old(mouse.prevScreen), m.0, m.1))) &&
        mouse.ema == Some(Smoothed(mouse.emaAlpha, old(mouse.ema), m.0, m.1))
      ensures var branch := ClickChoice(p.double, p.leftPinch, p.rightPinch);
        var fires := branch == DoubleBranch && !old(doubleClickPerformed);
        doubleClickPerformed == (branch == DoubleBranch) &&
        (mouse.leftPressed, mouse.rightPressed) ==
          (if branch == DoubleBranch && !fires then (old(mouse.leftPressed), old(mouse.rightPressed))
           else ButtonsAfter(branch, old(mouse.leftPressed), old(mouse.rightPressed))) &&
        mouse.lastClickTime ==
          (if fires && now - old(mouse.lastClickTime) >= mouse.clickCooldown then now else old(mouse.lastClickTime)) &&
        mouse.actions == old(mouse.actions) + [MoveTo(TruncReal(mouse.ema.value.0), TruncReal(mouse.ema.value.1))] +
          ClickEvents(branch, fires, now - old(mouse.lastClickTime) >= mouse.clickCooldown,
                      old(mouse.leftPressed), old(mouse.rightPressed))
    {
      // The steps are used through their contracts alone.
      hide *;
      CursorToPalm(t, lm);
      Clicks(now, p);
    }

    /** The move part of `process_right_hand`: leave scroll mode if it was on, then `move_mouse` to the palm. */
    method CursorToPalm(t: Tuning, lm: seq<Point>)
      requires mouse.Valid() && |lm| >= 10
      requires t.speedMin != t.speedMax && mouse.MapDefined(t)
      modifies this`isScrolling, mouse`prevScreen, mouse`emaAlpha, mouse`currentSpeed, mouse`ema, mouse`actions,
               mouse`prevScrollY
      ensures !isScrolling
      ensures mouse.prevScreen == Some(mouse.MapCoordinates(t, Palm(lm).x, Palm(lm).y))
      ensures mouse.prevScrollY == (if old(isScrolling) then None else old(mouse.prevScrollY))
      ensures var m := mouse.MapCoordinates(t, Palm(lm).x, Palm(lm).y);
        mouse.emaAlpha ==
          Alpha(mouse.emaMin, mouse.emaMax, Curve(mouse.emaFunction, t, mouse.exp, mouse.SpeedFrom(old(mouse.prevScreen), m.0, m.1))) &&
        mouse.ema == Some(Smoothed(mouse.emaAlpha, old(mouse.ema), m.0, m.1))
      ensures mouse.actions == old(mouse.actions) + [MoveTo(TruncReal(mouse.ema.value.0), TruncReal(mouse.ema.value.1))]
    {
      var palm := Palm(lm);
      if isScrolling {
        mouse.ResetScroll();
        isScrolling := false;
      }
      mouse.MoveMouse(t, palm.x, palm.y);
    }

    /** The fist block of `process_right_hand`: toggle the pause on a new fist, releasing the buttons. */
    method RightFist(isFist: bool)
      requires ButtonsValid() && !globalPaused
      modifies this`isPaused, this`fistDetected, mouse`leftPressed, mouse`rightPressed, mouse`actions
      ensures ButtonsValid()
      ensures Latch(isPaused, fistDetected) == EdgeStep(old(Latch(isPaused, fistDetected)), isFist)
      ensures (mouse.leftPressed, mouse.rightPressed) ==
        (if isPaused && !old(isPaused) then (false, false) else (old(mouse.leftPressed), old(mouse.rightPressed)))
    ensures mouse.actions == old(mouse.actions) +
      (if isPaused && !old(isPaused) then Releases(old(mouse.leftPressed), old(mouse.rightPressed)) else [])
    {
      if isFist && !fistDetected {
        isPaused := !isPaused;
        fistDetected := true;
        if isPaused {
          ReleaseHeld(mouse);
        }
      } else if !isFist {
        fistDetected := false;
      }
    }

    /** The scroll block of `process_right_hand`: scroll by the index tip, release the buttons. */
    method ScrollByIndexTip(now: real, t: Tuning, lm: seq<Point>)
      requires ButtonsValid() && |lm| >= 9 && !isPaused && !globalPaused
      requires mouse.MapDefined(t) && t.scrollSensitivity != 0
      modifies this`isScrolling, mouse`prevScrollY, mouse`lastScrollTime, mouse`actions,
               mouse`leftPressed, mouse`rightPressed
      ensures ButtonsValid()
      ensures isScrolling && !mouse.leftPressed && !mouse.rightPressed
      ensures var y := mouse.MapCoordinates(t, lm[8].x, lm[8].y).1;
        var o := ScrollDecision(now, old(mouse.lastScrollTime), mouse.scrollCooldown, old(mouse.prevScrollY),
                                y, t.scrollThreshold, t.scrollSensitivity);
        mouse.prevScrollY == (if o.Seeded? || o.Scrolled? then Some(y) else old(mouse.prevScrollY)) &&
        mouse.lastScrollTime == (if o.Scrolled? then now else old(mouse.lastScrollTime)) &&
        mouse.actions == old(mouse.actions) + WheelEvents(o) + Releases(old(mouse.leftPressed), old(mouse.rightPressed))
    {
      var indexTip := lm[8];
      var screen := mouse.MapCoordinates(t, indexTip.x, indexTip.y);
      var scrolled := mouse.Scroll(t, now, screen.1);
      isScrolling := true;
      ReleaseHeld(mouse);
    }

    /** The click block of `process_right_hand`: double click, then left, then right pinch. */
    method Clicks(now: real, p: RightPose)
      requires ButtonsValid() && !isPaused && !globalPaused
      modifies this`doubleClickPerformed, mouse`leftPressed, mouse`rightPressed, mouse`actions, mouse`lastClickTime
      ensures ButtonsValid()
      ensures var branch := ClickChoice(p.double, p.leftPinch, p.rightPinch);
        var fires := branch == DoubleBranch && !old(doubleClickPerformed);
        doubleClickPerformed == (branch == DoubleBranch) &&
        (mouse.leftPressed, mouse.rightPressed) ==
          (if branch == DoubleBranch && !fires then (old(mouse.leftPressed), old(mouse.rightPressed))
           else ButtonsAfter(branch, old(mouse.leftPressed), old(mouse.rightPressed))) &&
        mouse.lastClickTime ==
          (if fires && now - old(mouse.lastClickTime) >= mouse.clickCooldown then now else old(mouse.lastClickTime)) &&
        mouse.actions == old(mouse.actions) +
          ClickEvents(branch, fires, now - old(mouse.lastClickTime) >= mouse.clickCooldown,
                      old(mouse.leftPressed), old(mouse.rightPressed))
    {
      if p.double {
        if !doubleClickPerformed {
          ReleaseHeld(mouse);
          var clicked := mouse.DoubleClick(now);
          doubleClickPerformed := true;
        }
      } else if p.leftPinch {
        var pressed := mouse.LeftPress();
        if mouse.rightPressed {
          var released := mouse.RightRelease();
        }
        doubleClickPerformed := false;
      } else if p.rightPinch {
        var pressed := mouse.RightPress();
        if mouse.leftPressed {
          var released := mouse.LeftRelease();
        }
        doubleClickPerformed := false;
      } else {
        ReleaseHeld(mouse);
        doubleClickPerformed := false;
      }
    }

    /** `process_left_hand`: classify the hand once, then run the frame on that pose. */
    method ProcessLeftHand(now: real, t: Tuning, lm: seq<Point>)
      requires Valid()
      modifies this`leftHandEnabled, this`leftFistDetected, this`lastLeftGesture, this`prevVolumeY,
               this`isVolumeMode, this`lastVolumeTime, this`mutePinchDetected, this`mediaPinchDetected,
               volume`level, volume`muted, volume`lastVolumeChange, volume`mediaPresses
      ensures Valid()
      ensures var f := LeftStep(RateLimited, old(LeftLatchesOf()), LeftPoseOf(recognizer.pinchThreshold, lm), now);
        LeftLatchesOf() == f.next &&
        EndpointOf() == AfterEffect(f.effect, volume.available, volume.mediaAvailable, volume.volumeCooldown,
                                    t.volumeStep, now, old(EndpointOf()))
    {
      var pose := LeftPoseOf(recognizer.pinchThreshold, lm);
      LeftHandFrame(now, t, pose);
    }

    /** The body of `process_left_hand` on the classifier's answers: fist toggle, then mute, media and the drag. */
    method LeftHandFrame(now: real, t: Tuning, p: LeftPose)
      requires LeftValid()
      modifies this`leftHandEnabled, this`leftFistDetected, this`lastLeftGesture, this`prevVolumeY,
               this`isVolumeMode, this`lastVolumeTime, this`mutePinchDetected, this`mediaPinchDetected,
               volume`level, volume`muted, volume`lastVolumeChange, volume`mediaPresses
      ensures LeftValid()
      ensures var f := LeftStep(RateLimited, old(LeftLatchesOf()), p, now);
        LeftLatchesOf() == f.next &&
        EndpointOf() == AfterEffect(f.effect, volume.available, volume.mediaAvailable, volume.volumeCooldown,
                                    t.volumeStep, now, old(EndpointOf()))
    {
      LeftFist(p.fist);
      if leftHandEnabled && !p.fist {
        if p.mute && !mutePinchDetected {
          var toggled := volume.ToggleMute();
          mutePinchDetected := true;
          lastLeftGesture := MuteDone;
          isVolumeMode := false;
          prevVolumeY := None;
          mediaPinchDetected := false;
        } else if !p.mute {
          mutePinchDetected := false;
          if p.media && !mediaPinchDetected {
            var sent := volume.MediaPlayPause();
            mediaPinchDetected := true;
            lastLeftGesture := MediaDone;
            isVolumeMode := false;
            prevVolumeY := None;
          } else if !p.media {
            mediaPinchDetected := false;
            VolumeDrag(now, t, p.volume, p.indexY);
          }
        }
      }
    }

    /** The fist block of `process_left_hand`: toggle the hand on a new fist; turning off drops the drag. */
    method LeftFist(isFist: bool)
      requires LeftValid()
      modifies this`leftHandEnabled, this`leftFistDetected, this`prevVolumeY, this`isVolumeMode
      ensures LeftValid()
      ensures Latch(leftHandEnabled, leftFistDetected) == EdgeStep(old(Latch(leftHandEnabled, leftFistDetected)), isFist)
      ensures prevVolumeY == (if old(leftHandEnabled) && !leftHandEnabled then None else old(prevVolumeY))
    {
      if isFist && !leftFistDetected {
        leftHandEnabled := !leftHandEnabled;
        leftFistDetected := true;
        if !leftHandEnabled {
          prevVolumeY := None;
          isVolumeMode := false;
        }
      } else if !isFist {
        leftFistDetected := false;
      }
    }

    /** The volume-drag block of `process_left_hand`: a reference, then rate-limited steps beyond 30 px. */
    method VolumeDrag(now: real, t: Tuning, volumePose: bool, currentY: int)
      requires LeftValid() && leftHandEnabled
      modifies this`lastLeftGesture, this`prevVolumeY, this`isVolumeMode, this`lastVolumeTime,
               volume`level, volume`lastVolumeChange
      ensures LeftValid()
      ensures var f := Drag(RateLimited, old(LeftLatchesOf()), volumePose, currentY, now);
        LeftLatchesOf() == f.next &&
        EndpointOf() == AfterEffect(f.effect, volume.available, volume.mediaAvailable, volume.volumeCooldown,
                                    t.volumeStep, now, old(EndpointOf()))
    {
      if volumePose {
        if prevVolumeY.None? {
          prevVolumeY := Some(currentY);
          isVolumeMode := true;
          lastLeftGesture := VolumeMode;
        } else {
          var yDiff := prevVolumeY.value - currentY;
          if now - lastVolumeTime >= MAIN_VOLUME_INTERVAL {
            if yDiff > MAIN_VOLUME_OFFSET {
              var ok := volume.VolumeUp(now, None, t.volumeStep);
              lastVolumeTime := now;
              if lastLeftGesture != VolumeUpContinuous {
                lastLeftGesture := VolumeUpContinuous;
              }
            } else if yDiff < -MAIN_VOLUME_OFFSET {
              var ok := volume.VolumeDown(now, None, t.volumeStep);
              lastVolumeTime := now;
              if lastLeftGesture != VolumeDownContinuous {
                lastLeftGesture := VolumeDownContinuous;
              }
            }
          }
        }
      } else {
        prevVolumeY := None;
        isVolumeMode := false;
        lastLeftGesture := NoLeftGesture;
      }
    }
  }
}
