/**
 * SessionLogic: the per-frame decisions both front ends (the OpenCV window in main.py
 * and the Tk window in gui_app.py) take from recognized poses: rising-edge latches,
 * click priority, the two volume-drag policies and the overlay status of each hand.
 */
module SessionLogic {
  import opened Numeric
  import opened GestureRecognizer
  import opened HandDetector
  import opened MouseController
  import opened VolumeController

  // ----- rising-edge latches -----

  /**
   * A toggled flag with its edge detector: `flag` is the state the pose toggles
   * (`is_paused`, `global_paused`, `left_hand_enabled`), `held` the `*_detected`
   * companion that remembers the pose was already seen.
   */
  datatype Latch = Latch(flag: bool, held: bool)

  /** One frame: a pose seen while not held toggles the flag; a frame without the pose re-arms. */
  function EdgeStep(l: Latch, pose: bool): Latch
  {
    if pose && !l.held then Latch(!l.flag, true)
    else if !pose then Latch(l.flag, false)
    else l
  }

  /** Whether this frame is a rising edge of the pose. */
  predicate Fires(l: Latch, pose: bool)
  {
    pose && !l.held
  }

  /** One edge step: the flag flips exactly on a rising edge, and `held` follows the pose. */
  lemma EdgeStepSpec(l: Latch, pose: bool)
    ensures EdgeStep(l, pose).held == pose
    ensures EdgeStep(l, pose).flag == (l.flag != Fires(l, pose))
  {
  }

  /** The latch after a run of frames. */
  function EdgeRun(l: Latch, poses: seq<bool>): Latch
    decreases |poses|
  {
    if |poses| == 0 then l else EdgeRun(EdgeStep(l, poses[0]), poses[1..])
  }

  /** Number of rising edges in a run of frames, starting from a held or released pose. */
  function Rises(held: bool, poses: seq<bool>): nat
    decreases |poses|
  {
    if |poses| == 0 then 0
    else (if poses[0] && !held then 1 else 0) + Rises(poses[0], poses[1..])
  }

  /** Over any run of frames the flag has flipped once per rising edge, and `held` is the last pose. */
  lemma {:induction false} EdgeRunCountsRises(l: Latch, poses: seq<bool>)
    ensures EdgeRun(l, poses).flag == (l.flag != (Rises(l.held, poses) % 2 == 1))
    ensures EdgeRun(l, poses).held == (if |poses| == 0 then l.held else poses[|poses| - 1])
    decreases |poses|
  {
    if |poses| > 0 {
      var next := EdgeStep(l, poses[0]);
      EdgeStepSpec(l, poses[0]);
      EdgeRunCountsRises(next, poses[1..]);
    }
  }

  function AllTrue(k: nat): (r: seq<bool>)
    ensures |r| == k && forall i :: 0 <= i < k ==> r[i]
  {
    if k == 0 then [] else AllTrue(k - 1) + [true]
  }

  lemma {:induction false} RisesWhileHeld(k: nat)
    ensures Rises(true, AllTrue(k)) == 0
    decreases k
  {
    if k > 0 {
      assert AllTrue(k)[1..] == AllTrue(k - 1) by {
        AllTrueTail(k);
      }
      RisesWhileHeld(k - 1);
    }
  }

  lemma AllTrueTail(k: nat)
    requires k > 0
    ensures AllTrue(k)[1..] == AllTrue(k - 1)
  {
  }

  /**
   * Holding a pose for any number of frames toggles the flag exactly once, and
   * keeps holding it changes nothing more.
   */
  lemma HoldingTogglesOnce(l: Latch, k: nat)
    requires !l.held && k > 0
    ensures EdgeRun(l, AllTrue(k)) == Latch(!l.flag, true)
  {
    EdgeRunCountsRises(l, AllTrue(k));
    AllTrueTail(k);
    RisesWhileHeld(k - 1);
    assert Rises(l.held, AllTrue(k)) == 1 + Rises(true, AllTrue(k - 1));
  }

  /** Two separate holds (with a released frame between them) toggle twice: the flag is back. */
  lemma TwoHoldsRestore(l: Latch, j: nat, k: nat)
    requires !l.held && j > 0 && k > 0
    ensures EdgeRun(l, AllTrue(j) + [false] + AllTrue(k)).flag == l.flag
  {
    var first := AllTrue(j);
    var rest := [false] + AllTrue(k);
    EdgeRunSplit(l, first, rest);
    HoldingTogglesOnce(l, j);
    var mid := EdgeRun(l, first);
    assert rest[1..] == AllTrue(k);
    var released := EdgeStep(mid, false);
    assert EdgeRun(mid, rest) == EdgeRun(released, AllTrue(k));
    HoldingTogglesOnce(released, k);
    assert first + [false] + AllTrue(k) == first + rest;
  }

  lemma {:induction false} EdgeRunSplit(l: Latch, a: seq<bool>, b: seq<bool>)
    ensures EdgeRun(l, a + b) == EdgeRun(EdgeRun(l, a), b)
    decreases |a|
  {
    if |a| == 0 {
      assert a + b == b;
    } else {
      assert (a + b)[0] == a[0];
      assert (a + b)[1..] == a[1..] + b;
      EdgeRunSplit(EdgeStep(l, a[0]), a[1..], b);
      assert EdgeRun(l, a + b) == EdgeRun(EdgeStep(l, a[0]), a[1..] + b);
    }
  }

  // ----- global pause -----

  /**
   * What the global-pause check sees in a frame: None unless exactly two hands were
   * found and one is labelled Left and one Right; then whether their index tips touch.
   */
  function GlobalPoseSeen(d: Detection, width: int, height: int): (r: Option<bool>)
    requires LabelsCover(d)
    ensures r.Some? ==> |d.hands| == 2 && "Left" in LabelsFor(d) && "Right" in LabelsFor(d)
  {
    var left := LabelledHand(d, "Left", width, height);
    var right := LabelledHand(d, "Right", width, height);
    if |d.hands| == 2 && left.Some? && right.Some? then Some(IsGlobalPauseGesture(left.value, right.value))
    else None
  }

  /** The global latch after a frame: unseen means untouched, seen means one edge step. */
  function GlobalLatchAfter(l: Latch, seen: Option<bool>): Latch
  {
    if seen.Some? then EdgeStep(l, seen.value) else l
  }

  /** With fewer or more than two hands, or a missing side, the global latch keeps its state. */
  lemma GlobalNeedsBothHands(l: Latch, d: Detection, width: int, height: int)
    requires LabelsCover(d)
    requires |d.hands| != 2 || "Left" !in LabelsFor(d) || "Right" !in LabelsFor(d)
    ensures GlobalLatchAfter(l, GlobalPoseSeen(d, width, height)) == l
  {
  }

  /** A two-hand frame whose index tips do not touch re-arms the latch without toggling. */
  lemma GlobalSeparatedRearms(l: Latch, d: Detection, width: int, height: int)
    requires LabelsCover(d)
    requires GlobalPoseSeen(d, width, height) == Some(false)
    ensures GlobalLatchAfter(l, GlobalPoseSeen(d, width, height)) == Latch(l.flag, false)
  {
  }

  // ----- the right hand -----

  /** The palm centre: the midpoint of the wrist (0) and the middle finger's base (9), floored. */
  function Palm(lm: seq<Point>): Point
    requires |lm| >= 10
  {
    Point((lm[0].x + lm[9].x) / 2, (lm[0].y + lm[9].y) / 2)
  }

  /** The palm centre lies between the wrist and the palm base on both axes. */
  lemma PalmBetween(lm: seq<Point>)
    requires |lm| >= 10
    ensures MinInt(lm[0].x, lm[9].x) <= Palm(lm).x <= MaxInt(lm[0].x, lm[9].x)
    ensures MinInt(lm[0].y, lm[9].y) <= Palm(lm).y <= MaxInt(lm[0].y, lm[9].y)
    ensures lm[0] == lm[9] ==> Palm(lm) == lm[0]
  {
  }

  /** The "release whatever is still held" idiom both front ends repeat before pausing, scrolling or double clicking. */
  method ReleaseHeld(m: Mouse)
    modifies m`leftPressed, m`rightPressed, m`actions
    ensures !m.leftPressed && !m.rightPressed
    ensures m.actions == old(m.actions) + Releases(old(m.leftPressed), old(m.rightPressed))
  {
    if m.leftPressed {
      var released := m.LeftRelease();
    }
    if m.rightPressed {
      var released := m.RightRelease();
    }
  }

  /** The events `ReleaseHeld` sends: a release of each held button, the left one first. */
  function Releases(left: bool, right: bool): seq<MouseAction>
  {
    (if left then [Release(Left)] else []) + (if right then [Release(Right)] else [])
  }

  /** The button flags after one event: a press holds its button, a release frees it, any other event leaves both. */
  function Apply(e: MouseAction, left: bool, right: bool): (bool, bool)
  {
    match e
    case Press(b) => if b == Left then (true, right) else (left, true)
    case Release(b) => if b == Left then (false, right) else (left, false)
    case _ => (left, right)
  }

  /** The button flags after replaying `events` on the flags `(left, right)`. */
  function Replay(events: seq<MouseAction>, left: bool, right: bool): (bool, bool)
    decreases |events|
  {
    if |events| == 0 then (left, right)
    else
      var next := Apply(events[0], left, right);
      Replay(events[1..], next.0, next.1)
  }

  /** The events never press a held button nor release a free one (the press and release calls are guarded). */
  predicate Guarded(events: seq<MouseAction>, left: bool, right: bool)
    decreases |events|
  {
    if |events| == 0 then true
    else
      var ok :=
        match events[0]
        case Press(b) => !(if b == Left then left else right)
        case Release(b) => (if b == Left then left else right)
        case _ => true;
      var next := Apply(events[0], left, right);
      ok && Guarded(events[1..], next.0, next.1)
  }

  // ----- click arbitration -----

  datatype ClickBranch = DoubleBranch | LeftBranch | RightBranch | NoClick

  /** Which click branch a frame takes: double click, then left pinch, then right pinch. */
  function ClickChoice(isDouble: bool, isLeft: bool, isRight: bool): ClickBranch
  {
    if isDouble then DoubleBranch
    else if isLeft then LeftBranch
    else if isRight then RightBranch
    else NoClick
  }

  /** The click branch of a frame, from the right hand's landmarks. */
  function ClickBranchOf(threshold: int, lm: seq<Point>): ClickBranch
  {
    ClickChoice(IsDoubleClick(threshold, lm), IsLeftClick(threshold, lm), IsRightClick(threshold, lm))
  }

  /**
   * The session's click arbitration agrees with the classifier's own priority: on a
   * complete hand that is neither a fist nor the scroll pose, each branch is taken
   * exactly when `recognize_gesture` gives the matching label.
   */
  lemma ClickBranchMatchesClassifier(threshold: int, lm: seq<Point>)
    requires FullHand(lm) && !IsFist(lm) && !IsScrollGesture(lm)
    ensures ClickBranchOf(threshold, lm) == DoubleBranch <==> RecognizeGesture(threshold, lm) == DoubleClick
    ensures ClickBranchOf(threshold, lm) == LeftBranch <==> RecognizeGesture(threshold, lm) == LeftClick
    ensures ClickBranchOf(threshold, lm) == RightBranch <==> RecognizeGesture(threshold, lm) == RightClick
    ensures ClickBranchOf(threshold, lm) == NoClick <==> RecognizeGesture(threshold, lm) == Move
  {
  }

  /** An incomplete hand never clicks. */
  lemma ShortHandNoClick(threshold: int, lm: seq<Point>)
    requires !FullHand(lm)
    ensures ClickBranchOf(threshold, lm) == NoClick
  {
  }

  /** The cursor's button flags after a frame's click branch, from the flags before it. */
  function ButtonsAfter(b: ClickBranch, left: bool, right: bool): (r: (bool, bool))
  {
    match b
    case DoubleBranch => (false, false)
    case LeftBranch => (true, false)
    case RightBranch => (false, true)
    case NoClick => (false, false)
  }

  /**
   * The events a frame's click branch sends on the held buttons `(left, right)`: a
   * double click that fires releases the held buttons and then clicks when `clicked`
   * (the click cooldown has passed); a pinch presses its button unless held and
   * releases the other one if held; no click pose releases what is held.
   */
  function ClickEvents(b: ClickBranch, fires: bool, clicked: bool, left: bool, right: bool): seq<MouseAction>
  {
    match b
    case DoubleBranch => if fires then Releases(left, right) + (if clicked then [DoubleClickAction] else []) else []
    case LeftBranch => (if left then [] else [Press(Left)]) + (if right then [Release(Right)] else [])
    case RightBranch => (if right then [] else [Press(Right)]) + (if left then [Release(Left)] else [])
    case NoClick => Releases(left, right)
  }

  /**
   * The click events are the button flags' history: replayed on the flags before the
   * frame they give `ButtonsAfter` (or the flags unchanged for a held double click),
   * each press and release is guarded, and the double click is sent exactly when it
   * fires past the cooldown.
   */
  lemma {:induction false} ClickEventsReplay(b: ClickBranch, fires: bool, clicked: bool, left: bool, right: bool)
    ensures Replay(ClickEvents(b, fires, clicked, left, right), left, right) ==
      (if b == DoubleBranch && !fires then (left, right) else ButtonsAfter(b, left, right))
    ensures Guarded(ClickEvents(b, fires, clicked, left, right), left, right)
    ensures DoubleClickAction in ClickEvents(b, fires, clicked, left, right) <==> b == DoubleBranch && fires && clicked
  {
    var single := if left then [Release(Left)] else [];
    var other := if right then [Release(Right)] else [];
    ReplayAppend(single, other, left, right);
    match b
    case DoubleBranch =>
      if fires {
        var click := if clicked then [DoubleClickAction] else [];
        ReplayAppend(single + other, click, left, right);
      }
    case LeftBranch =>
      ReplayAppend(if left then [] else [Press(Left)], other, left, right);
    case RightBranch =>
      ReplayAppend(if right then [] else [Press(Right)], single, left, right);
    case NoClick =>
  }

  /** `ReleaseHeld`'s events free both buttons, release only held ones and are all releases. */
  lemma ReleasesReplay(left: bool, right: bool)
    ensures Replay(Releases(left, right), left, right) == (false, false) && Guarded(Releases(left, right), left, right)
    ensures forall i :: 0 <= i < |Releases(left, right)| ==> Releases(left, right)[i].Release?
  {
    ReplayAppend(if left then [Release(Left)] else [], if right then [Release(Right)] else [], left, right);
  }

  /** A click branch sends no move and no wheel event. */
  lemma ClickEventsMoveFree(b: ClickBranch, fires: bool, clicked: bool, left: bool, right: bool)
    ensures forall i :: 0 <= i < |ClickEvents(b, fires, clicked, left, right)| ==>
      !ClickEvents(b, fires, clicked, left, right)[i].MoveTo? && !ClickEvents(b, fires, clicked, left, right)[i].Wheel?
  {
  }

  /** Replaying two runs of events one after the other; the guard holds on both parts. */
  lemma {:induction false} ReplayAppend(a: seq<MouseAction>, b: seq<MouseAction>, left: bool, right: bool)
    ensures var mid := Replay(a, left, right);
      Replay(a + b, left, right) == Replay(b, mid.0, mid.1) &&
      (Guarded(a + b, left, right) <==> Guarded(a, left, right) && Guarded(b, mid.0, mid.1))
    decreases |a|
  {
    if |a| > 0 {
      var step := Apply(a[0], left, right);
      assert (a + b)[0] == a[0] && (a + b)[1..] == a[1..] + b;
      ReplayAppend(a[1..], b, step.0, step.1);
    } else {
      assert a + b == b;
    }
  }

  /** Whatever the branch, at most one button is held afterwards; only a pinch branch holds one. */
  lemma ButtonsAfterExclusive(b: ClickBranch, left: bool, right: bool)
    ensures !(ButtonsAfter(b, left, right).0 && ButtonsAfter(b, left, right).1)
    ensures ButtonsAfter(b, left, right).0 <==> b == LeftBranch
    ensures ButtonsAfter(b, left, right).1 <==> b == RightBranch
  {
  }

  // ----- the left hand's last action -----

  /** `last_left_gesture`: None, "mute", "media", "volume_mode", "volume_up_continuous", "volume_down_continuous". */
  datatype LeftGesture = NoLeftGesture | MuteDone | MediaDone | VolumeMode | VolumeUpContinuous | VolumeDownContinuous

  /** The gestures that belong to an active volume drag. */
  predicate VolumeTracking(g: LeftGesture)
  {
    g == VolumeMode || g == VolumeUpContinuous || g == VolumeDownContinuous
  }

  // ----- volume drag in main.py: fixed offset, rate-limited steps -----

  const MAIN_VOLUME_OFFSET: int := 30
  const MAIN_VOLUME_INTERVAL: real := 0.15

  datatype VolumeStep = NoStep | StepUp | StepDown

  /**
   * The step main.py takes for the index tip at `y`, against the reference `reference`
   * recorded on the first frame of the pose: none within 0.15 s of the last step,
   * up beyond 30 px above the reference, down beyond 30 px below it.
   */
  function MainVolumeStep(reference: int, y: int, now: real, lastStepTime: real): VolumeStep
  {
    if now - lastStepTime < MAIN_VOLUME_INTERVAL then NoStep
    else if reference - y > MAIN_VOLUME_OFFSET then StepUp
    else if reference - y < -MAIN_VOLUME_OFFSET then StepDown
    else NoStep
  }

  /** A step needs both the offset and the interval; the dead band never steps; the interval always blocks. */
  lemma MainVolumeStepSpec(reference: int, y: int, now: real, lastStepTime: real)
    ensures MainVolumeStep(reference, y, now, lastStepTime) == StepUp <==>
      now - lastStepTime >= MAIN_VOLUME_INTERVAL && reference - y > MAIN_VOLUME_OFFSET
    ensures MainVolumeStep(reference, y, now, lastStepTime) == StepDown <==>
      now - lastStepTime >= MAIN_VOLUME_INTERVAL && y - reference > MAIN_VOLUME_OFFSET
    ensures Abs(reference - y) <= MAIN_VOLUME_OFFSET ==> MainVolumeStep(reference, y, now, lastStepTime) == NoStep
  {
  }

  /**
   * Mirror symmetry: moving the same distance below the reference steps down exactly when
   * moving it above steps up.
   */
  lemma MainVolumeStepSymmetric(reference: int, offset: int, now: real, lastStepTime: real)
    ensures MainVolumeStep(reference, reference - offset, now, lastStepTime) == StepUp <==>
            MainVolumeStep(reference, reference + offset, now, lastStepTime) == StepDown
  {
  }

  /**
   * The volume level after a drag frame's step, when the controller accepts the
   * call (`accepted`: available and outside its own cooldown); `size` is `Config.VOLUME_STEP`.
   */
  function SteppedLevel(s: VolumeStep, accepted: bool, level: int, size: int): int
  {
    if !accepted then level
    else match s
      case NoStep => level
      case StepUp => RaisedLevel(level, size)
      case StepDown => LoweredLevel(level, size)
  }

  /** A step up never lowers the volume, a step down never raises it, and the level stays on the 0-100 scale. */
  lemma SteppedLevelSpec(s: VolumeStep, accepted: bool, level: int, size: int)
    requires 0 <= level <= 100 && 0 <= size
    ensures 0 <= SteppedLevel(s, accepted, level, size) <= 100
    ensures s == StepUp ==> level <= SteppedLevel(s, accepted, level, size)
    ensures s == StepDown ==> SteppedLevel(s, accepted, level, size) <= level
    ensures s == NoStep || !accepted ==> SteppedLevel(s, accepted, level, size) == level
  {
  }

  // ----- volume drag in gui_app.py: a direction latched on a small offset -----

  const GUI_VOLUME_OFFSET: int := 10

  /**
   * The left gesture after a GUI drag frame with offset `diff` (reference minus tip):
   * beyond 10 px up latches increasing, beyond 10 px down latches decreasing,
   * anything in between keeps whatever was latched.
   */
  function GuiVolumeLatch(diff: int, last: LeftGesture): LeftGesture
  {
    if diff > GUI_VOLUME_OFFSET && last != VolumeUpContinuous then VolumeUpContinuous
    else if diff < -GUI_VOLUME_OFFSET && last != VolumeDownContinuous then VolumeDownContinuous
    else last
  }

  /** The GUI latch: the offset decides outside the dead band, the latch persists inside it, and re-reading is idempotent. */
  lemma GuiVolumeLatchSpec(diff: int, last: LeftGesture)
    ensures diff > GUI_VOLUME_OFFSET ==> GuiVolumeLatch(diff, last) == VolumeUpContinuous
    ensures diff < -GUI_VOLUME_OFFSET ==> GuiVolumeLatch(diff, last) == VolumeDownContinuous
    ensures Abs(diff) <= GUI_VOLUME_OFFSET ==> GuiVolumeLatch(diff, last) == last
    ensures GuiVolumeLatch(diff, GuiVolumeLatch(diff, last)) == GuiVolumeLatch(diff, last)
    ensures VolumeTracking(last) ==> VolumeTracking(GuiVolumeLatch(diff, last))
  {
  }

  /** The step the GUI takes in a frame: every frame while a direction is latched. */
  function GuiVolumeStep(latched: LeftGesture): VolumeStep
  {
    if latched == VolumeUpContinuous then StepUp
    else if latched == VolumeDownContinuous then StepDown
    else NoStep
  }

  /** Once latched, the GUI keeps stepping the same way through any dead-band frames. */
  lemma GuiLatchRepeats(diffs: seq<int>, last: LeftGesture)
    requires last == VolumeUpContinuous || last == VolumeDownContinuous
    requires forall i :: 0 <= i < |diffs| ==> Abs(diffs[i]) <= GUI_VOLUME_OFFSET
    ensures GuiLatchRun(diffs, last) == last
    ensures GuiVolumeStep(GuiLatchRun(diffs, last)) != NoStep
    decreases |diffs|
  {
    if |diffs| > 0 {
      GuiLatchRepeats(diffs[1..], last);
    }
  }

  /** The latch after a run of dragging frames. */
  function GuiLatchRun(diffs: seq<int>, last: LeftGesture): LeftGesture
    decreases |diffs|
  {
    if |diffs| == 0 then last else GuiLatchRun(diffs[1..], GuiVolumeLatch(diffs[0], last))
  }

  // ----- overlay status -----

  datatype Color = Red | Orange | Green

  datatype Status = Status(text: string, color: Color)

  /**
   * The right hand's status line; `pausedText` is "DURAKLADI" in the OpenCV front
   * end and "MOUSE DURAKLADI" in the GUI.
   */
  function RightStatus(present: bool, globalPaused: bool, paused: bool, pausedText: string): Status
  {
    if !present then Status("YOK", Red)
    else if globalPaused then Status("GLOBAL PAUSE", Red)
    else if paused then Status(pausedText, Orange)
    else Status("AKTİF", Green)
  }

  /** The left hand's status line. */
  function LeftStatus(present: bool, globalPaused: bool, enabled: bool): Status
  {
    if !present then Status("YOK", Red)
    else if globalPaused then Status("GLOBAL PAUSE", Red)
    else if enabled then Status("AKTİF (SES)", Green)
    else Status("KAPALI", Orange)
  }

  /**
   * A present hand under global pause shows GLOBAL PAUSE whatever its own latch says;
   * red means absent or globally paused; green means the hand is actually in control.
   */
  lemma OverlayStatusSpec(present: bool, globalPaused: bool, paused: bool, pausedText: string, enabled: bool)
    requires pausedText != "YOK" && pausedText != "GLOBAL PAUSE"
    ensures present && globalPaused ==>
      RightStatus(present, globalPaused, paused, pausedText).text == "GLOBAL PAUSE" &&
      LeftStatus(present, globalPaused, enabled).text == "GLOBAL PAUSE"
    ensures RightStatus(present, globalPaused, paused, pausedText).color == Red <==> !present || globalPaused
    ensures LeftStatus(present, globalPaused, enabled).color == Red <==> !present || globalPaused
    ensures RightStatus(present, globalPaused, paused, pausedText).color == Green <==> present && !globalPaused && !paused
    ensures LeftStatus(present, globalPaused, enabled).color == Green <==> present && !globalPaused && enabled
    ensures RightStatus(present, globalPaused, paused, pausedText).text == "YOK" <==> !present
  {
  }
}
