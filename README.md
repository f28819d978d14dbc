# HandMouse core in Dafny

HandMouse turns a webcam picture of one or two hands into mouse and audio actions.
MediaPipe reports 21 landmarks per hand, and a label saying whether the hand is Left or Right.
The right hand drives the cursor:

- the palm position moves the cursor, through a dynamic EMA filter;
- pinches press and release the buttons;
- a two-finger pose scrolls;
- a fist pauses or resumes cursor control.

The left hand drives the audio endpoint:

- a fist enables or disables the hand;
- a thumb–index–middle pinch toggles mute;
- a thumb–index pinch sends play/pause;
- dragging two raised fingers up or down changes the volume.

Touching the two index fingertips pauses or resumes everything.

This project models that core, module by module:

- **Config** (`config.dfy`): the `Config` attribute table and its defaults. Also the merge of `settings.json` into it at import time.
- **ConfigManager** (`config_manager.dfy`): the rewriting of `config.py`, line by line, by `update_config_file`.
- **GestureRecognizer** (`gesture_recognizer.dfy`): the pose predicates and the priority classifier `recognize_gesture`. Also the stability filter `get_stable_gesture` over a `deque(maxlen=stable_frames)`, and the recognizer object.
- **MouseController** (`mouse_controller.dfy`):
  - the mapping of the central camera rectangle onto the screen;
  - the speed-dependent EMA and its three curves;
  - the guarded press/release of the buttons;
  - cooldown-limited scroll and double click.

  Every OS call is recorded as an entry in an action trace.
- **VolumeController** (`volume_controller.dfy`): the Windows audio endpoint as a level on a 0–100 scale plus a mute flag. Also the shared level cooldown and the play/pause media key.
- **HandDetector** (`hand_detector.dfy`): the per-frame landmark and label lists, and their conversion to pixels with Python's `int()` and negative indices.
- **SessionLogic, HandSteps** (`session_logic.dfy`, `hand_steps.dfy`): the per-frame logic of the two front ends as pure transition functions:
  - the rising-edge toggles;
  - the global pause;
  - the click branch;
  - the two volume-drag policies;
  - the status lines.

  These modules also prove what holds over runs of frames.
- **MainApp** (`main_app.dfy`): `HandMouseApp` of `main.py`, the OpenCV front end.
- **GuiApp** (`gui_app.dfy`): `HandMouseGUI` of `src/gui_app.py`, the CustomTkinter front end.
  - Its processing loop sits behind the window's pause button.
  - It names the active gesture for the window.
  - It latches a volume direction rather than rate-limiting steps.
  - It writes the settings form into `Config`.

Both front-end classes are proved against the transition functions of HandSteps. Each handler's `ensures` says the new flags and the new controller state equal those functions applied to the old state. The lemmas in HandSteps and SessionLogic then state what the handlers promise. Examples:

- a held fist toggles the pause once;
- a held double-click pose clicks once;
- a paused hand never moves the cursor;
- at most one button is held;
- the volume stays on its scale.

Outside effects are modelled as follows:

- Each frame's inputs are parameters:
  - the MediaPipe result;
  - the image size;
  - the wall-clock time;
  - the Config values the controllers read live (a `Tuning` record).
- `math.sqrt` and `math.exp` are function-valued constants of the mouse controller. Their only constraints are that they agree with the square root, are positive and are increasing.
- Floats are reals. Inside the Config table, a float value is kept as its printed text.

## Model

| member | source | states |
|---|---|---|
| Config.DefaultsAreConsistent | src/config.py:37-56 | The declared defaults form a valid tuning: EMA_MIN < EMA_MAX and SPEED_MIN < SPEED_MAX. Every crop edge is within the documented 0.01–0.49, so each axis keeps a non-empty active rectangle. |
| Config.MergeKeepsAttributeSet | src/config.py:124-126 | Merging settings.json never adds or removes a Config attribute; keys that are not attributes are ignored. |
| Config.MergeKeepsUnnamed | src/config.py:124-126 | An attribute that no settings.json pair names keeps its declared value. |
| Config.MergeLastWins | src/config.py:124-126 | An attribute named in settings.json ends with the value of the last pair that names it. |
| Config.Settings.constructor | src/config.py:16-102 | The attribute table starts as the declared defaults. |
| Config.Settings.LoadSettingsOnStartup | src/config.py:106-128 | On a parsed file the table becomes the merge of its pairs. With no file, or a read or parse error, every attribute keeps its value. |
| ConfigManager.FirstMatch | src/config_manager.py:89-110 | The setting that rewrites a line is the first one, in dictionary order, whose `key =` / `key=` the stripped line starts with. When none matches, no key matches. |
| ConfigManager.RewriteOneLine | src/config_manager.py:85-113 | The inner loop yields the rewrite function's result for the line: the first matching setting's new assignment, or the line itself. |
| ConfigManager.UpdateConfigLines | src/config_manager.py:84-113 | There is one output line per input line, each rewritten on its own. |
| ConfigManager.UpdateConfigFile | src/config_manager.py:67-123 | Returns True exactly when the file could be read and written. Then the written file has the same number of lines, each rewritten. On failure nothing is written. |
| ConfigManager.UnmatchedLineKept | src/config_manager.py:112-113 | A line that assigns none of the keys is copied unchanged. |
| ConfigManager.LongerNameNotMatched | src/config_manager.py:90 | A key never rewrites the assignment of a longer name that starts with it (EMA_MIN vs EMA_MINIMUM). |
| ConfigManager.RewrittenLineShape | src/config_manager.py:92-106 | A rewritten line starts with the new indented `key = value` assignment. Without a '#' it is exactly that assignment followed by a newline. |
| ConfigManager.RewrittenLineIndent | src/config_manager.py:92-99 | A rewritten line keeps the original's indentation width. |
| ConfigManager.CommentKeepsColumn | src/config_manager.py:101-104 | A comment is carried over verbatim from its first '#'. It stays at its original column whenever the new assignment fits before it. |
| GestureRecognizer.CloserThanIsEuclidean | src/gesture_recognizer.py:47-62 | The integer squared-distance test agrees with comparing `calculate_distance` (the Euclidean distance) against the threshold. |
| GestureRecognizer.DetectPinchIsEuclidean | src/gesture_recognizer.py:64-89 | `detect_pinch` holds exactly when the Euclidean distance of the two tips is below the pinch threshold and their vertical gap is below 50 px. |
| GestureRecognizer.DetectPinchSymmetric | src/gesture_recognizer.py:64-89 | A pinch does not depend on which tip is passed as the thumb. |
| GestureRecognizer.FingersUpToSpec | src/gesture_recognizer.py:479-493 | The ids listed among 1..n are exactly the raised fingers, in strictly increasing order. |
| GestureRecognizer.FingersUpToMembers | src/gesture_recognizer.py:445-493 | An id is listed exactly when it is in 1..n and `is_finger_up` holds for it. |
| GestureRecognizer.FingersUpToIncreasing | src/gesture_recognizer.py:479-493 | Listed ids are within 1..n and strictly increasing, so there are no duplicates. |
| GestureRecognizer.GetFingersUp | src/gesture_recognizer.py:479-493 | The loop returns exactly the raised finger ids among 1..5, each once, in increasing order. |
| GestureRecognizer.ShortHandHasNoFingersUp | src/gesture_recognizer.py:445-493 | A hand with fewer than 21 landmarks has no raised finger. |
| GestureRecognizer.RecognizeNoneExactlyForShortHands | src/gesture_recognizer.py:286-335 | "none" is returned exactly for incomplete hands; every complete hand gets a real label. |
| GestureRecognizer.RecognizePriority | src/gesture_recognizer.py:286-335 | Each label holds iff its pose holds and no earlier one does, in the order fist, scroll, double click, left, right, otherwise move. |
| GestureRecognizer.FistExcludesScroll | src/gesture_recognizer.py:116-165 | No hand is both a fist and the scroll pose. |
| GestureRecognizer.GestureAliases | src/gesture_recognizer.py:91-253 | The source's aliases: mute is the double-click pose; volume down is volume up, which is the scroll pose; media is the left-click pinch. The double click is exactly left and right pinch together. |
| GestureRecognizer.ShortHandMatchesNothing | src/gesture_recognizer.py:91-561 | Every gesture predicate, the global pause included, is false on an incomplete hand. |
| GestureRecognizer.ScrollPoseByFingers | src/gesture_recognizer.py:116-145 | The scroll pose is index and middle raised, ring and pinky down, whatever the thumb does. |
| GestureRecognizer.FistByFingers | src/gesture_recognizer.py:147-165 | A fist is exactly a complete hand with all five fingers down. |
| GestureRecognizer.PointingByFingers | src/gesture_recognizer.py:495-507 | Pointing is exactly the index finger raised alone. |
| GestureRecognizer.ClampThreshold | src/gesture_recognizer.py:436-443 | The pinch threshold setter keeps values in [10, 100] and clamps others to the nearer end. |
| GestureRecognizer.DisplayNamesDistinct | src/gesture_recognizer.py:408-425 | Distinct labels have distinct display names, and none is the fallback "Bilinmeyen". |
| GestureRecognizer.ObserveConfirmsIff | src/gesture_recognizer.py:337-366 | A frame confirms a label iff the window is full, all the window's labels are equal and differ from the last confirmed one. A confirmation reports that label and records it; otherwise both labels are kept. |
| GestureRecognizer.NoRepeatConfirmation | src/gesture_recognizer.py:337-366 | Right after a confirmation the same label is not confirmed again. |
| GestureRecognizer.RunHistory | src/gesture_recognizer.py:337-366 | After any run of frames the window holds exactly the last `stable_frames` labels. |
| GestureRecognizer.ConfirmationNeedsRun | src/gesture_recognizer.py:337-366 | From a fresh filter, a confirmation needs at least `stable_frames` frames, the last of them all the confirmed label. |
| GestureRecognizer.InterruptionBlocks | src/gesture_recognizer.py:337-366 | A different label among the last `stable_frames` − 1 frames blocks the confirmation. |
| GestureRecognizer.HoldingConfirmsOnce | src/gesture_recognizer.py:337-366 | Holding a new label for k frames confirms it at most once, and exactly once when k ≥ `stable_frames`. After a confirmation the filter remembers the label; without one it keeps the previous one. |
| GestureRecognizer.HeldLabelStaysQuiet | src/gesture_recognizer.py:337-366 | Holding the label confirmed last never confirms again. |
| GestureRecognizer.Recognizer.constructor | src/gesture_recognizer.py:18-45 | Stores the threshold and window size, with an empty window, both labels "none" and an empty display name. |
| GestureRecognizer.Recognizer.GetStableGesture | src/gesture_recognizer.py:337-366 | The new filter state and the result are one filter observation of the frame's classification. |
| GestureRecognizer.Recognizer.PushLabel | src/gesture_recognizer.py:346-366 | The deque push and confirmation are that observation of the given label. |
| GestureRecognizer.Recognizer.CurrentGestureName | src/gesture_recognizer.py:408-425 | The display name of the current label. |
| GestureRecognizer.Recognizer.ResetGestureHistory | src/gesture_recognizer.py:427-434 | The window is emptied and both labels go back to "none". |
| GestureRecognizer.Recognizer.SetPinchThreshold | src/gesture_recognizer.py:436-443 | The threshold becomes the clamped value, within [10, 100]. |
| GestureRecognizer.Recognizer.SetGestureName | src/gesture_recognizer.py:563-570 | The display name becomes the given text. |
| MouseController.MapAxisCorners | src/mouse_controller.py:124-139 | The active rectangle's edges land on the screen's edges. |
| MouseController.MapAxisMonotone | src/mouse_controller.py:124-139 | The mapping is strictly increasing and does not clamp: points outside the rectangle fall outside the screen. |
| MouseController.DefaultCropCorners | src/mouse_controller.py:109-141 | With the default 0.35 crops on a 640×480 camera, pixel (224,168) maps to (0,0) and (416,312) to the screen's size. |
| MouseController.NormalizedSpeed | src/mouse_controller.py:187-189 | The normalized speed is within [0, 1]. |
| MouseController.NormalizedSpeedEnds | src/mouse_controller.py:187-189 | It is 0 up to SPEED_MIN, 1 from SPEED_MAX, and linear in between. |
| MouseController.NormalizedMonotone | src/mouse_controller.py:187-189 | The normalized speed never decreases as the speed grows. |
| MouseController.CurveInUnitInterval | src/mouse_controller.py:192-214 | Every EMA curve stays within [0, 1]; the sigmoid stays strictly inside. |
| MouseController.UnknownCurveIsLinear | src/mouse_controller.py:192-214 | An unrecognized EMA_FUNCTION behaves as "linear". |
| MouseController.CurveMonotone | src/mouse_controller.py:192-214 | Every curve never decreases as the speed grows; the sigmoid needs a non-negative steepness for this. |
| MouseController.SigmoidMonotone | src/mouse_controller.py:209-211 | The logistic curve with a non-negative steepness never decreases. |
| MouseController.AlphaWithinBounds | src/mouse_controller.py:217-220 | The alpha stays in [EMA_MIN, EMA_MAX]. For curve values in [0, 1], the clamp changes nothing. |
| MouseController.AlphaMonotone | src/mouse_controller.py:217-220 | A larger curve value never gives a smaller alpha. |
| MouseController.SmoothedBetween | src/mouse_controller.py:243-256 | With alpha in [0, 1], each coordinate of the new EMA lies between the previous EMA and the mapped point. |
| MouseController.BlendBetween | src/mouse_controller.py:253-254 | The EMA update lies between the raw and the previous value. It shrinks the gap to the raw value by the factor (1 − alpha). |
| MouseController.ScrollAmountBound | src/mouse_controller.py:468-476 | The wheel amount equals `int(y_diff / SCROLL_SENSITIVITY)`: the real quotient truncated toward zero. A non-zero amount needs a movement of at least one sensitivity step, has the quotient's sign and is at most the quotient in size. |
| MouseController.ScrollAmountTruncates | src/mouse_controller.py:475 | The amount computed on integers is Python's `int()` of the real quotient. |
| MouseController.WheelEvents | src/mouse_controller.py:477-484 | A scroll records nothing but one wheel event, by the scroll amount. |
| MouseController.ScrollDecisionSpec | src/mouse_controller.py:446-497 | The scroll is refused within the cooldown. The first call only seeds the reference. Beyond the threshold a nonzero amount scrolls and moves the reference; otherwise nothing happens. |
| MouseController.Mouse.constructor | src/mouse_controller.py:37-107 | Stores the screen, camera and EMA parameters. Alpha is the midpoint of EMA_MIN and EMA_MAX. Click cooldown is 0.3 s and scroll cooldown 0.05 s, with nothing held or recorded. |
| MouseController.Mouse.CalculateSpeed | src/mouse_controller.py:143-170 | The speed is the Euclidean distance from the previous position (0 on the first call). The position is recorded. |
| MouseController.Mouse.UpdateDynamicEma | src/mouse_controller.py:172-223 | The alpha is the clamped interpolation of the configured curve at this speed. The smoothed speed is 0.3·speed + 0.7·previous. |
| MouseController.Mouse.SmoothCoordinates | src/mouse_controller.py:225-256 | The first point is taken as is. Later points are EMA-blended with this frame's alpha, and the result is truncated to ints. |
| MouseController.Mouse.MoveMouse | src/mouse_controller.py:258-280 | The camera point is mapped to the screen, then smoothed. Alpha comes from the speed curve on the distance from the last mapped point. The smoothed speed is 0.3·speed + 0.7·previous. The EMA becomes the mapped point on the first move; afterwards it is the alpha-blend of the mapped point and the previous EMA. Exactly one move is recorded, to the truncated EMA. |
| MouseController.Mouse.LeftPress | src/mouse_controller.py:316-338 | Presses, and records a press, only when the button is not already held; afterwards it is held. |
| MouseController.Mouse.LeftRelease | src/mouse_controller.py:340-362 | Releases, and records a release, only when the button is held; afterwards it is not. |
| MouseController.Mouse.RightPress | src/mouse_controller.py:398-420 | The same guarded press for the right button. |
| MouseController.Mouse.RightRelease | src/mouse_controller.py:422-444 | The same guarded release for the right button. |
| MouseController.Mouse.Scroll | src/mouse_controller.py:446-497 | Reference, time and trace change exactly as the scroll decision says, with the live threshold and sensitivity. |
| MouseController.Mouse.ResetScroll | src/mouse_controller.py:499-504 | The scroll reference is cleared. |
| MouseController.Mouse.DoubleClick | src/mouse_controller.py:506-523 | Clicks, and records the click time, exactly when the click cooldown has passed. |
| MouseController.Mouse.ResetSmoothing | src/mouse_controller.py:525-531 | Only the two coordinate buffers are cleared. |
| MouseController.Mouse.SetClickCooldown | src/mouse_controller.py:533-540 | The cooldown becomes max(0.1, value): at least 0.1 s, and unchanged from the request when the request is at least 0.1. |
| VolumeController.ClampPercent | src/volume_controller.py:96-121 | A requested level is clamped onto 0–100, and levels already on the scale are kept. |
| VolumeController.StepLevels | src/volume_controller.py:123-181 | Up is min(100, v+step) and down is max(0, v−step); up never lowers and down never raises. |
| VolumeController.StepRoundTrip | src/volume_controller.py:123-181 | A step down undoes a step up that did not hit 100, and vice versa. |
| VolumeController.MuteAlgebra | src/volume_controller.py:199-256 | Toggling twice restores the flag. Mute and unmute are idempotent and win over any earlier state. On an available endpoint a toggle always flips the flag. |
| VolumeController.Volume.constructor | src/volume_controller.py:41-65 | The cooldown is 0.1 s, no level change is recorded, and there is no media press. |
| VolumeController.Volume.GetVolume | src/volume_controller.py:76-94 | The level is on 0–100, and 0 when the endpoint is unavailable. |
| VolumeController.Volume.IsMuted | src/volume_controller.py:183-197 | Muted only on an available endpoint. |
| VolumeController.Volume.SetVolume | src/volume_controller.py:96-121 | Succeeds iff the endpoint is available, and then sets the clamped level; otherwise nothing changes. |
| VolumeController.Volume.VolumeUp | src/volume_controller.py:123-151 | Succeeds iff the endpoint is available and the cooldown has passed. Then the level rises by the given step, or the configured step when none is given, capped at 100, and the time is recorded. |
| VolumeController.Volume.VolumeDown | src/volume_controller.py:153-181 | The mirror image of VolumeUp, floored at 0, sharing its cooldown. |
| VolumeController.Volume.ToggleMute | src/volume_controller.py:199-218 | Flips the mute flag of an available endpoint. |
| VolumeController.Volume.Mute | src/volume_controller.py:220-237 | Sets the mute flag of an available endpoint. |
| VolumeController.Volume.Unmute | src/volume_controller.py:239-256 | Clears the mute flag of an available endpoint. |
| VolumeController.Volume.MediaPlayPause | src/volume_controller.py:258-278 | Sends one play/pause press exactly when the key injector exists. |
| HandDetector.LabelsFor | src/hand_detector.py:105-114 | One label per hand: MediaPipe's handedness in order, or "Unknown" for all when none is given. |
| HandDetector.PyIndex | src/hand_detector.py:252-264 | A Python index in range, negative ones counting from the end, selects a valid position, and non-negative ones select themselves. |
| HandDetector.Pixels | src/hand_detector.py:192-214 | Landmark i of a hand becomes pixel i: the normalized coordinates times the image size, truncated by `int()`. |
| HandDetector.ToPixelInFrame | src/hand_detector.py:206-212 | A landmark inside the image maps to a pixel inside the image. |
| HandDetector.FirstIndex | src/hand_detector.py:266-279 | The first position carrying the wanted label, or none when no hand carries it. |
| HandDetector.LookupWithoutHandedness | src/hand_detector.py:105-114 | Without handedness, a lookup of any label other than "Unknown" finds no hand. |
| HandDetector.LabelledHand | src/hand_detector.py:192-279 | A labelled hand's pixels exist exactly when some hand carries the label. |
| HandDetector.Detector.constructor | src/hand_detector.py:17-51 | No hand, no labels and no image shape. |
| HandDetector.Detector.UpdateImageShape | src/hand_detector.py:281-288 | The image shape is recorded. |
| HandDetector.Detector.FindHands | src/hand_detector.py:79-123 | The lists are replaced by exactly this frame's hands and their labels. A hand is detected iff there are any. |
| HandDetector.Detector.IsHandPresent | src/hand_detector.py:234-241 | True iff the landmark list is non-empty. |
| HandDetector.Detector.GetHandCount | src/hand_detector.py:243-250 | The number of hands, which is also the number of labels; 0 iff no hand is detected. |
| HandDetector.Detector.GetHandLabel | src/hand_detector.py:252-264 | None past the end. Otherwise the label at the Python index, which is the i-th label for a non-negative i. |
| HandDetector.Detector.GetHandByLabel | src/hand_detector.py:266-279 | The loop returns the first hand carrying the label, or none. |
| HandDetector.Detector.GetAllLandmarks | src/hand_detector.py:192-214 | None without that hand. Otherwise all its landmarks in pixels, in MediaPipe's order. |
| HandDetector.Detector.GetLandmarkPosition | src/hand_detector.py:166-190 | None exactly when the hand is missing. |
| SessionLogic.EdgeStepSpec | main.py:454-473 | A fist-style toggle flips its flag exactly on a rising edge of the pose, and remembers whether the pose is held. |
| SessionLogic.EdgeRunCountsRises | main.py:454-473 | Over any run of frames the flag has flipped once per rising edge. |
| SessionLogic.HoldingTogglesOnce | main.py:454-473 | Holding the pose for any number of frames toggles once. |
| SessionLogic.TwoHoldsRestore | main.py:454-473 | Two separate holds restore the flag. |
| SessionLogic.EdgeRunSplit | main.py:454-473 | A run of frames composes: running a then b is running a + b. |
| SessionLogic.GlobalPoseSeen | main.py:374-385 | The global pose is examined only with exactly two hands, labelled Left and Right. |
| SessionLogic.GlobalNeedsBothHands | main.py:374-404 | Any other frame leaves the global latch untouched. |
| SessionLogic.GlobalSeparatedRearms | main.py:402-404 | A two-hand frame whose index tips do not touch re-arms the latch without toggling. |
| SessionLogic.PalmBetween | main.py:441-446 | The palm centre lies between the wrist and the middle finger's base on both axes. |
| SessionLogic.ReleaseHeld | main.py:394-398 | Afterwards neither button is held, and exactly the releases of the held buttons are recorded. |
| SessionLogic.ClickBranchMatchesClassifier | main.py:510-561 | The click branch the handler takes agrees, branch by branch in both directions, with `recognize_gesture` on a complete hand that is neither fist nor scroll. |
| SessionLogic.ShortHandNoClick | main.py:510-561 | An incomplete hand never clicks. |
| SessionLogic.ButtonsAfterExclusive | main.py:510-561 | At most one button is held after a click branch, and only a pinch branch holds one. |
| SessionLogic.ClickEventsReplay | main.py:510-561 | The events a click branch records are the button flags' history. Replayed on the buttons held before, they give the buttons after the branch. Each press is of a free button and each release of a held one. The double click is recorded exactly when it fires past the click cooldown. |
| SessionLogic.ReleasesReplay | main.py:394-398 | Releasing what is held records only releases, only of held buttons, and frees both. |
| SessionLogic.MainVolumeStepSpec | main.py:640-668 | main.py steps up or down iff the tip moved more than 30 px from the reference in that direction and 0.15 s have passed; within 30 px it never steps. |
| SessionLogic.MainVolumeStepSymmetric | main.py:640-668 | Moving up by an offset steps up exactly when moving down by it steps down. |
| SessionLogic.SteppedLevelSpec | main.py:652-668 | An accepted step up never lowers the level, a step down never raises it, and the level stays on 0–100. |
| SessionLogic.GuiVolumeLatchSpec | src/gui_app.py:1109-1141 | Beyond ±10 px the offset latches a direction. Inside that band the latch persists. Re-reading is idempotent. |
| SessionLogic.GuiLatchRepeats | src/gui_app.py:1136-1141 | Once latched, the GUI keeps stepping the same way through any dead-band frames. |
| SessionLogic.OverlayStatusSpec | main.py:767-814 | A status line is red iff the hand is absent or globally paused. The right line is green iff active and not paused; the left line iff active and enabled. "YOK" shows exactly an absent right hand. |
| HandSteps.RightPoseOf | main.py:432-561 | The right-hand pose: nothing on an incomplete hand. Never both fist and scroll. The double click is both pinches. |
| HandSteps.RightStepSpec | main.py:432-561 | A right-hand frame, flag by flag: the fist is a rising-edge toggle; a paused frame leaves the cursor alone; scroll wins over clicks; the double click fires once per pose, and any other branch re-arms it. |
| HandSteps.RightStepKeepsButtonsSafe | main.py:432-561 | Every right-hand frame keeps at most one button held, and none while paused or after a double click. |
| HandSteps.ActiveStep | main.py:474-561 | A frame the fist check left running never freezes, never enters the pause and keeps the fist flags. |
| HandSteps.RightEventsReplay | main.py:432-561 | A right-hand frame's events, replayed on the buttons before it, give `RightButtons`, and every press and release is guarded. A frozen frame records only releases. A frame moves the cursor exactly when it is a cursor frame. |
| HandSteps.FrameKeepsButtonsSafe | main.py:407-413 | A whole frame's right-hand part, paused or not and with or without a right hand, keeps the button invariant. |
| HandSteps.PausedFrameIsQuiet | main.py:407-420 | Under a global pause a frame leaves both hands' flags, the buttons and the volume endpoint as they were. |
| HandSteps.RightPlans | main.py:432-561 | One plan per frame. |
| HandSteps.DoubleClickOncePerHold | main.py:510-530 | Holding the double-click pose clicks on the first frame only. |
| HandSteps.PausedStaysFrozen | main.py:454-473 | While paused, frames without a fist never touch the cursor and keep the pause. |
| HandSteps.RightGestureName | src/gui_app.py:956-1054 | The GUI names double, left, right click and scroll by their display names. A paused frame names nothing. |
| HandSteps.LeftPoseOf | main.py:563-675 | The left-hand pose: the mute pose implies the media pose; never fist and volume; nothing on an incomplete hand. |
| HandSteps.LeftStepSpec | main.py:563-675 | A left-hand frame: fist toggle; only an enabled non-fist hand reaches the controller. Mute fires on a fresh mute pose, media on a fresh media pose without mute. The drag reference never moves while it exists, and the flags stay sound. |
| HandSteps.RateLimitedSpec | main.py:632-675 | main.py steps only with a reference, beyond 30 px and after 0.15 s, in the offset's direction. `last_volume_time` moves exactly when it steps. |
| HandSteps.DirectionLatchedSpec | src/gui_app.py:1109-1150 | The GUI steps every frame in the latched direction while dragging, and never moves `last_volume_time`. |
| HandSteps.AfterEffectSpec | src/volume_controller.py:123-278 | Each call touches only its part of the controller. The level stays on 0–100, steps move it the right way, and a step refused by availability or cooldown changes nothing. |
| HandSteps.LeftEffects | main.py:563-675 | One controller call, or none, per frame. |
| HandSteps.MuteOncePerHold | main.py:595-614 | Holding the mute pose toggles mute once, on the first frame, and nothing else fires. |
| HandSteps.DisabledStaysQuiet | main.py:571-588 | A disabled hand without a fist stays disabled and silent. |
| HandSteps.DragKeepsReference | main.py:632-675 | During a drag the reference is fixed at the first frame's tip height. |
| HandSteps.LeftGestureNameSpec | src/gui_app.py:1056-1150 | The GUI shows a name exactly when the frame calls the controller, starts a drag or ends a stepping drag. A step up is named "Ses Artırma". |
| MainApp.HandMouseApp.constructor | main.py:92-130 | Every hand flag is cleared and no drag is active, around collaborators with no button held. |
| MainApp.HandMouseApp.ProcessFrame | main.py:342-430 | A frame records the image shape and hands, resets the filters when a hand appears and steps the global latch. The right and left flags end as `RightAfterFrame` and `LeftAfterFrame` say. With hands and outside a global pause the buttons end as `RightButtonsAfterFrame` and the volume endpoint as `EndpointAfterFrame` (rate-limited drag); pausing releases both buttons. Under a global pause that holds across the frame the volume endpoint is untouched, and so are the cursor, scroll, click and button state and the action trace; the whole mouse is untouched when the hand was already present. With no hand nothing changes. The status lines are returned. |
| MainApp.HandMouseApp.HandsFrame | main.py:363-420 | The hand-present branch: reset on appearance, then the global latch step and both hands, with the flags, buttons and endpoint as for ProcessFrame. Under a global pause that holds across the frame the volume endpoint is untouched, and so are the cursor, scroll, click and button state and the action trace; the whole mouse is untouched when the hand was already present. |
| MainApp.HandMouseApp.RestartFilters | main.py:365-368 | The hands came back: the coordinate buffers and the gesture history are cleared and the presence flag is set. |
| MainApp.HandMouseApp.PauseThenHands | main.py:374-420 | The global latch steps first; the hands run only outside a global pause. Outside it the buttons and endpoint end as one frame of each hand; on pausing the buttons are released; a pause that holds leaves the mouse and the volume untouched. |
| MainApp.HandMouseApp.UpdateGlobalPause | main.py:374-404 | The global latch takes one step on this frame's two-hand pose. The mouse controller is touched only when the pause changes. |
| MainApp.HandMouseApp.GlobalPoseOfFrame | main.py:374-385 | The lookup returns the frame's global pose, or none. |
| MainApp.HandMouseApp.ApplyGlobalPose | main.py:387-404 | Toggle on a fresh touch, releasing held buttons when pausing; the hand flags are untouched. |
| MainApp.HandMouseApp.ProcessHands | main.py:407-420 | Outside a global pause: the right hand, then the left, with flags, buttons and endpoint as their frame functions say. Under a global pause the mouse and the volume are untouched. |
| MainApp.HandMouseApp.BothHands | main.py:407-420 | The right hand, then the left, on the first hand carrying each label. The right one alone moves the flags and buttons of its side; the left one alone moves the volume endpoint. |
| MainApp.HandMouseApp.RightHandIfPresent | main.py:409-413 | The "Right" hand runs when it has landmarks: the right flags and the buttons end as `RightAfterFrame` and `RightButtonsAfterFrame` say. |
| MainApp.HandMouseApp.LeftHandIfPresent | main.py:416-420 | The "Left" hand runs when it has landmarks: the left flags and the volume endpoint end as `LeftAfterFrame` and `EndpointAfterFrame` say. |
| MainApp.HandMouseApp.ProcessRightHand | main.py:432-561 | One right-hand step on this hand's pose gives the right flags and the buttons. It also gives the scroll time and the action trace (`RightEvents`): a frame entering the pause records only the releases; a scroll frame records the scroll decision's wheel event, then the releases; a cursor frame records the move to the smoothed palm, then its click branch's events. Frozen frames leave the cursor, EMA, scroll reference and click time alone. Scroll frames set the scroll reference as the scroll decision says. Cursor frames move to the palm, blend the EMA, drop the scroll reference when leaving scroll mode, and move the click time only on a fresh double click past the cooldown. |
| MainApp.HandMouseApp.RightHandFrame | main.py:441-561 | The same, on the classifier's answers: flags, buttons, scroll time, action trace and cursor state per plan as for ProcessRightHand. |
| MainApp.HandMouseApp.ActiveRightFrame | main.py:474-561 | An unpaused frame follows `ActiveStep` with the same state and trace. The scroll pose scrolls by the index tip, records its wheel event and the releases, and keeps the cursor. Any other pose leaves scroll mode, moves to the palm and records the move, then its click branch. |
| MainApp.HandMouseApp.CursorToPalm | main.py:501-507 | Scroll mode is left if it was on. The cursor moves to the palm through `move_mouse`: the EMA and alpha are updated, and one move is recorded. |
| MainApp.HandMouseApp.CursorAndClicks | main.py:498-561 | Leave scroll mode, move to the palm with the new alpha and EMA, then take the click branch; the double click fires once per pose. The trace is the move followed by the branch's events; the click time moves only on a fired double click past the cooldown. |
| MainApp.HandMouseApp.RightFist | main.py:454-473 | The pause toggles on a rising fist edge. Pausing releases the buttons and records exactly those releases; otherwise the buttons and the trace are kept. |
| MainApp.HandMouseApp.ScrollByIndexTip | main.py:476-496 | Scroll mode on and both buttons released. The scroll reference, the scroll time and the trace follow the scroll decision on the mapped index tip: its wheel event, then the releases of the held buttons. |
| MainApp.HandMouseApp.Clicks | main.py:510-561 | Double click, then left pinch, then right pinch; the double click fires once per pose. The trace is exactly the branch's events (`ClickEvents`). The click time moves only when a fresh double click is past the cooldown. |
| MainApp.HandMouseApp.ProcessLeftHand | main.py:563-675 | The left flags and the volume controller end as one left-hand step on this hand's pose. |
| MainApp.HandMouseApp.LeftHandFrame | main.py:563-675 | The same on the classifier's answers. |
| MainApp.HandMouseApp.LeftFist | main.py:571-588 | Enable or disable on a rising fist edge; disabling drops the drag. |
| MainApp.HandMouseApp.VolumeDrag | main.py:632-675 | A reference, then rate-limited steps beyond 30 px. |
| GuiApp.ParseIndexFieldRoundTrip | src/gui_app.py:1350-1351 | A drop-down entry "N: name" parses back to N, whatever the name says. |
| GuiApp.ParseIndexFieldRejects | src/gui_app.py:1350-1354 | An entry with no digit does not parse. |
| GuiApp.NoSpaceStripsToItself | src/gui_app.py:1351 | `strip()` leaves text with no whitespace unchanged. |
| GuiApp.ApplyFormSpec | src/gui_app.py:1346-1386 | Applying the form sets exactly the applied attributes. Every other attribute is kept. The one dead zone goes to all four crop edges. |
| GuiApp.ApplyIndexFallbacks | src/gui_app.py:1349-1384 | An unparsable camera entry gives camera 0 and an unparsable microphone entry gives none. Otherwise each gets its parsed index. |
| GuiApp.ApplyCameraEntry | src/gui_app.py:1349-1354 | Choosing the entry "N: name" selects camera N. |
| GuiApp.HandMouseGUI.constructor | src/gui_app.py:33-67 | The window starts unpaused. `__init__` creates no hand flags; `process_loop` first sets them (modelled by BeginLoop). The constructor clears them only because Dafny needs every field initialised. |
| GuiApp.HandMouseGUI.TogglePause | src/gui_app.py:780-789 | Flips the window's pause. |
| GuiApp.HandMouseGUI.BeginLoop | src/gui_app.py:806-823 | The loop starts with every hand flag and the global latch cleared. |
| GuiApp.HandMouseGUI.ResetRightFlags | src/gui_app.py:806-823 | The right hand's flags are cleared. |
| GuiApp.HandMouseGUI.ResetLeftFlags | src/gui_app.py:806-823 | The left hand's flags are cleared. |
| GuiApp.HandMouseGUI.ProcessLoopStep | src/gui_app.py:803-954 | While the window is paused nothing changes. Otherwise the frame runs as in main.py, with the GUI's direction latch: the flags, buttons and volume endpoint end as the frame functions say, and pausing releases the buttons. Under a global pause that holds across the frame the volume endpoint is untouched, and so are the cursor, scroll, click and button state and the action trace; the whole mouse is untouched when the hand was already present. The status lines are returned when the overlay is shown. |
| GuiApp.HandMouseGUI.FrameBody | src/gui_app.py:870-937 | Image shape, hands, appearance reset, then the global pause and both hands, with flags, buttons and endpoint as in ProcessLoopStep. Under a global pause that holds across the frame the volume endpoint is untouched, and so are the cursor, scroll, click and button state and the action trace; the whole mouse is untouched when the hand was already present. |
| GuiApp.HandMouseGUI.HandsFrame | src/gui_app.py:874-933 | The hand-present branch, as in main.py, with the direction latch. Under a global pause that holds across the frame the volume endpoint is untouched, and so are the cursor, scroll, click and button state and the action trace; the whole mouse is untouched when the hand was already present. |
| GuiApp.HandMouseGUI.RestartFilters | src/gui_app.py:876-879 | The hands came back: the coordinate buffers and the gesture history are cleared and the presence flag is set. |
| GuiApp.HandMouseGUI.PauseThenHands | src/gui_app.py:885-933 | The global latch first; the hands only outside a global pause, then with buttons and endpoint as one frame of each hand. On pausing the buttons are released; a pause that holds leaves the mouse and the volume untouched. |
| GuiApp.HandMouseGUI.UpdateGlobalPause | src/gui_app.py:885-917 | One global latch step on the two-hand pose. |
| GuiApp.HandMouseGUI.GlobalPoseOfFrame | src/gui_app.py:885-895 | The frame's global pose, or none. |
| GuiApp.HandMouseGUI.ApplyGlobalPose | src/gui_app.py:897-917 | Toggle on a fresh touch, releasing held buttons. |
| GuiApp.HandMouseGUI.ProcessHands | src/gui_app.py:920-933 | The hand block runs only outside a global pause, with flags, buttons and endpoint as the frame functions say. Under a global pause no hand flag changes and the mouse and the volume are untouched. |
| GuiApp.HandMouseGUI.BothHands | src/gui_app.py:921-933 | The right hand, then the left, each on the first hand carrying its label. The right one alone moves its flags and the buttons; the left one alone moves the volume endpoint. |
| GuiApp.HandMouseGUI.RightHandIfPresent | src/gui_app.py:922-926 | The "Right" hand runs when it has landmarks: the right flags and the buttons end as `RightAfterFrame` and `RightButtonsAfterFrame` say. |
| GuiApp.HandMouseGUI.LeftHandIfPresent | src/gui_app.py:929-933 | The "Left" hand runs when it has landmarks: the left flags and the volume endpoint end as `LeftAfterFrame` and `EndpointAfterFrame` (direction-latched drag) say. |
| GuiApp.HandMouseGUI.ProcessRightHand | src/gui_app.py:956-1054 | As in main.py: one right-hand step gives the flags, buttons, scroll time, action trace and cursor state per plan. The shown gesture name becomes the frame's name, or stays when a frozen frame names nothing. |
| GuiApp.HandMouseGUI.RightHandFrame | src/gui_app.py:956-1054 | The same on the classifier's answers: flags, buttons, name, scroll time, trace and cursor state per plan. |
| GuiApp.HandMouseGUI.ActiveRightFrame | src/gui_app.py:987-1054 | An unpaused frame follows `ActiveStep` with the same state and trace as in main.py: scroll (named "Scroll"), or leave scroll mode, move to the palm and click, naming the branch. |
| GuiApp.HandMouseGUI.CursorToPalm | src/gui_app.py:1008-1013 | Scroll mode is left if it was on. The cursor moves to the palm through `move_mouse`: the EMA and alpha are updated, and one move is recorded. |
| GuiApp.HandMouseGUI.CursorAndClicks | src/gui_app.py:1006-1054 | Leave scroll mode and move to the palm with the new alpha and EMA, then the click branch. The trace is the move followed by the branch's events; the click time moves only on a fired double click past the cooldown; the name is the branch's, or the move's without a click pose. |
| GuiApp.HandMouseGUI.RightFist | src/gui_app.py:965-985 | The pause toggles on a rising fist edge. Pausing releases the buttons and records exactly those releases. |
| GuiApp.HandMouseGUI.ScrollByIndexTip | src/gui_app.py:988-1004 | Named "Scroll"; scroll mode on and the buttons released. The reference, scroll time and trace follow the scroll decision on the mapped index tip, then the releases. |
| GuiApp.HandMouseGUI.Clicks | src/gui_app.py:1017-1054 | The click branch, named for the window. The trace is exactly the branch's events; the click time moves only on a fresh double click past the cooldown. |
| GuiApp.HandMouseGUI.ProcessLeftHand | src/gui_app.py:1056-1150 | The left flags, the controller and the shown name end as one latched left-hand step. |
| GuiApp.HandMouseGUI.LeftHandFrame | src/gui_app.py:1056-1150 | The same on the classifier's answers. |
| GuiApp.HandMouseGUI.LeftPoses | src/gui_app.py:1080-1150 | Mute, then media, then the latched drag. |
| GuiApp.HandMouseGUI.LeftFist | src/gui_app.py:1059-1073 | Enable or disable on a rising fist edge. |
| GuiApp.HandMouseGUI.VolumeDrag | src/gui_app.py:1109-1150 | A reference, then a step every frame in the latched direction; the end of a drag clears it. |
| GuiApp.HandMouseGUI.ApplySettings | src/gui_app.py:1346-1386 | The Config attributes become the old ones overridden by the form's. |
| Numeric.TruncReal | src/mouse_controller.py:138-139 | Python `int()` on a float rounds toward zero. |
| Numeric.IntToDecimalRoundTrip | src/gui_app.py:227 | `int(str(n)) == n` for every integer. |
| Numeric.IndexOf | src/config_manager.py:103 | `s.index(c)` is the first occurrence of c, defined exactly when c is in s. |
| Numeric.BeforeFirst | src/config_manager.py:104 | `s.split(c)[0]` holds no c and is a prefix of s; it is all of s when c is absent. |
| Numeric.LStrip | src/config_manager.py:92 | `lstrip()` yields a suffix of the string. |
| Numeric.RStrip | src/config_manager.py:90 | `rstrip()` yields a prefix of the string. |

## Left out

- The camera, OpenCV drawing, the FPS counter and frame flipping are I/O and are not modelled. So are the Tk widgets, status labels and `root.after` scheduling, the message boxes and the help window. A frame's MediaPipe result, its size and the time are parameters instead.
- The overlay window itself is not part of this model; only the status lines `_update_overlay` computes are.
- The speech-to-text feature is left out: the worker thread, its flags, and the microphone gesture's handler, which the source no longer calls. `is_microphone_toggle_gesture` is modelled as a predicate only.
- Threads and the processing thread's start and stop are left out; a front end is one frame step at a time.
- JSON reading and writing (`save_settings`, `load_settings`) is I/O. `settings.json` enters as a parsed-or-failed value, and `config.py` as its lines or a read failure.
- Camera and microphone enumeration for the drop-downs is OS I/O.
- pyautogui, win32api and the Windows audio API are assumed to succeed. Their calls are recorded, or applied to the level and mute flag; exceptions are modelled only where the source catches them and changes behaviour.
- `get_finger_distances`, `get_current_position`, `draw_fingertips_only`, `update_settings` and `__del__` are left out: a debug helper, an OS read and drawing respectively, none of which feed the core.
- The deprecated `left_click` and `right_click` are left out; no handler calls them.
- `media_next` and `media_previous` are left out; no handler calls them.
- The detector's `calculate_distance` is left out; the recognizer's version is the one the core uses.
- `get_gesture_name` is a plain field read and is not modelled separately.
- MOUSE_SPEED, `smoothing_factor` and the `smooth_x`/`smooth_y` deques are never used to move the cursor; they are carried only as the buffers `reset_smoothing` clears.
- Config.VOLUME_COOLDOWN is 0.2 in src/config.py:70. The volume controller hard-codes 0.1 (src/volume_controller.py:45), and the model follows the code.
- Floats are modelled as exact reals, with no rounding. `math.sqrt` and `math.exp` are constrained oracles.
- ParseInt: Python `int()` also accepts underscores and non-ASCII digits; the model accepts an optional sign and ASCII digits only.
- MainApp.HandMouseApp.ProcessRightHand requires at least 13 landmarks per reported hand. main.py indexes landmarks up to 12 without a length check, so shorter lists raise IndexError there. This error path is not modelled.
- GuiApp.HandMouseGUI.ProcessRightHand requires at least 10 landmarks for the same reason: the GUI indexes the palm base, landmark 9, unchecked.
- HandDetector.Detector.GetLandmarkPosition states only when a point exists, not its value. Its value is `ToPixel` of that landmark, as GetAllLandmarks states for the whole hand.
- Each frame uses a single time value for all of its `time.time()` reads.
- Config.Settings.LoadSettingsOnStartup applies every pair whose key is an attribute. In Python, `setattr` on a read-only type attribute (such as `__name__`) raises TypeError part-way through the loop; src/config.py:127-128 swallows it, so the pairs before it stay applied and the rest are skipped. That partial application is not modelled.
- HandDetector.LabelsCover excludes a handedness list that is non-empty but shorter than the hand list, for which src/hand_detector.py:110 raises IndexError. MediaPipe always reports one handedness entry per hand, so this case is not modelled.
- MainApp.HandMouseApp.ProcessFrame, GuiApp.HandMouseGUI.ProcessLoopStep and the frame methods between them and the per-hand ones (HandsFrame, PauseThenHands, ProcessHands, BothHands, FrameBody and the *IfPresent pair) state the flags, the buttons, the volume endpoint and the pause frames. They do not restate the cursor's EMA, the scroll reference and time, the click time, the action trace of an unpaused frame or the GUI's gesture name. Those are stated per hand by ProcessRightHand and the methods under it.
- MainApp.HandMouseApp.ProcessRightHand, MainApp.HandMouseApp.RightHandFrame, MainApp.HandMouseApp.ActiveRightFrame and their GuiApp.HandMouseGUI counterparts give the new EMA as the blend with the new alpha, without the alpha's formula; CursorAndClicks and CursorToPalm state the formula. None of the right-hand methods states `current_speed`; MouseController.Mouse.MoveMouse does.
- MouseController.Mouse.MoveMouse, MouseController.Mouse.Scroll and both front ends' frame methods require a non-degenerate configuration: the cropped active rectangle has non-zero width and height (neither camera side is 0 and the two crops of an axis do not sum to 1), SPEED_MIN differs from SPEED_MAX, and SCROLL_SENSITIVITY is not 0. The same requirement sits on MainApp.HandMouseApp.ProcessFrame and GuiApp.HandMouseGUI.ProcessLoopStep with their callees, and on SmoothCoordinates, UpdateDynamicEma, NormalizedSpeed, MapAxis and ScrollDecision. Otherwise the source divides by zero (src/mouse_controller.py:135-136, 187-189 and 468-476). The resulting ZeroDivisionError stops the processing loop. That error path is not modelled. The values come unchecked from config.py and the settings.json merge; `Config.DefaultsAreConsistent` shows the defaults satisfy `ValidTuning`.
