/**
 * HandSteps: one frame of each hand's handler as a transition over the handler's own
 * flags. `process_right_hand` and `process_left_hand` are the same in both front ends
 * down to the volume drag, so the front ends share these transitions and differ only
 * in their `DragPolicy` and in the gesture names the GUI shows.
 */
module HandSteps {
  import opened Numeric
  import opened GestureRecognizer
  import opened SessionLogic
  import opened VolumeController
  import opened HandDetector
  import opened MouseController

  // ----- the right hand -----

  /** The classifier calls `process_right_hand` makes on one landmark list. */
  datatype RightPose = RightPose(fist: bool, scroll: bool, double: bool, leftPinch: bool, rightPinch: bool)

  /** The right hand's pose in a frame; an incomplete hand matches nothing. */
  function RightPoseOf(threshold: int, lm: seq<Point>): (p: RightPose)
    ensures !FullHand(lm) ==> p == RightPose(false, false, false, false, false)
    ensures !(p.fist && p.scroll)
    ensures p.double <==> p.leftPinch && p.rightPinch
  {
    FistExcludesScroll(lm);
    RightPose(IsFist(lm), IsScrollGesture(lm), IsDoubleClick(threshold, lm),
              IsLeftClick(threshold, lm), IsRightClick(threshold, lm))
  }

  /**
   * The right hand's flags: `is_paused` (`right_hand_paused` in the GUI), `fist_detected`,
   * `is_scrolling` and `double_click_performed`.
   */
  datatype RightLatches = RightLatches(paused: bool, fistHeld: bool, scrolling: bool, doubleDone: bool)

  /** What a frame does with the cursor once the fist check has run. */
  datatype RightPlan =
    | Frozen
    | ScrollFrame
    | CursorFrame(leaveScroll: bool, click: ClickBranch, doubleFires: bool)

  /**
   * One right-hand frame: the new flags, whether this frame enters the pause (and so
   * releases the buttons), and what happens to the cursor: nothing while paused; a
   * scroll by the index tip; or leaving scroll mode if it was on, a move to the palm
   * and the click branch, whose double click fires only on the first frame of the pose.
   */
  datatype RightFrame = RightFrame(next: RightLatches, pauses: bool, plan: RightPlan)

  function RightStep(s: RightLatches, p: RightPose): RightFrame
  {
    var fist := EdgeStep(Latch(s.paused, s.fistHeld), p.fist);
    if fist.flag then
      RightFrame(RightLatches(true, fist.held, s.scrolling, s.doubleDone), !s.paused, Frozen)
    else
      ActiveStep(RightLatches(false, fist.held, s.scrolling, s.doubleDone), p)
  }

  /** A right-hand frame is the fist check, then, unless that check paused the hand, the active step. */
  lemma RightStepByFist(s: RightLatches, p: RightPose)
    ensures var fist := EdgeStep(Latch(s.paused, s.fistHeld), p.fist);
      RightStep(s, p) ==
        if fist.flag then RightFrame(RightLatches(true, fist.held, s.scrolling, s.doubleDone), !s.paused, Frozen)
        else ActiveStep(RightLatches(false, fist.held, s.scrolling, s.doubleDone), p)
  {
  }

  /** `ActiveStep` by the scroll pose, for proofs that hide function bodies. */
  lemma ActiveStepByScroll(s: RightLatches, p: RightPose)
    ensures p.scroll ==> ActiveStep(s, p) == RightFrame(s.(scrolling := true), false, ScrollFrame)
    ensures !p.scroll ==>
      var click := ClickChoice(p.double, p.leftPinch, p.rightPinch);
      ActiveStep(s, p) == RightFrame(s.(scrolling := false, doubleDone := click == DoubleBranch), false,
                                     CursorFrame(s.scrolling, click, click == DoubleBranch && !s.doubleDone))
  {
  }

  /**
   * The rest of a frame the fist check left unpaused, on the flags as that check set
   * them: a scroll, or leaving scroll mode, the move and the click branch.
   */
  function ActiveStep(s: RightLatches, p: RightPose): (r: RightFrame)
    ensures r.plan != Frozen && !r.pauses && r.next.paused == s.paused && r.next.fistHeld == s.fistHeld
  {
    if p.scroll then
      RightFrame(s.(scrolling := true), false, ScrollFrame)
    else
      var click := ClickChoice(p.double, p.leftPinch, p.rightPinch);
      RightFrame(s.(scrolling := false, doubleDone := click == DoubleBranch), false,
                 CursorFrame(s.scrolling, click, click == DoubleBranch && !s.doubleDone))
  }

  /**
   * The right-hand frame, flag by flag: the fist is a rising-edge toggle; a paused frame
   * leaves the cursor alone; the scroll pose wins over clicks; the double click fires
   * once per pose and any other click branch re-arms it.
   */
  lemma RightStepSpec(s: RightLatches, p: RightPose)
    ensures var f := RightStep(s, p);
      Latch(f.next.paused, f.next.fistHeld) == EdgeStep(Latch(s.paused, s.fistHeld), p.fist)
    ensures var f := RightStep(s, p);
      (f.plan == Frozen <==> f.next.paused) && (f.pauses <==> !s.paused && f.next.paused)
    ensures var f := RightStep(s, p);
      f.plan == ScrollFrame <==> !f.next.paused && p.scroll
    ensures var f := RightStep(s, p);
      f.next.scrolling == (if f.next.paused then s.scrolling else p.scroll)
    ensures var f := RightStep(s, p);
      f.plan.CursorFrame? ==>
        f.plan.leaveScroll == s.scrolling && f.plan.click == ClickChoice(p.double, p.leftPinch, p.rightPinch) &&
        (f.plan.doubleFires <==> f.plan.click == DoubleBranch && !s.doubleDone)
    ensures var f := RightStep(s, p);
      f.next.doubleDone == (if f.plan.CursorFrame? then f.plan.click == DoubleBranch else s.doubleDone)
    ensures s.paused && !p.fist ==> RightStep(s, p).plan == Frozen
  {
  }

  /** The cursor's button flags after a right-hand frame. */
  function RightButtons(f: RightFrame, left: bool, right: bool): (bool, bool)
  {
    match f.plan
    case Frozen => if f.pauses then (false, false) else (left, right)
    case ScrollFrame => (false, false)
    case CursorFrame(_, click, fires) =>
      if click == DoubleBranch && !fires then (left, right) else ButtonsAfter(click, left, right)
  }

  /**
   * The events a right-hand frame sends, on the buttons `(left, right)` held before it:
   * the releases of a frame that enters the pause; the `wheel` events of a scroll frame,
   * then the releases; the `move` of a cursor frame, then its click branch's events,
   * where `clicked` says whether a firing double click is past the click cooldown.
   */
  function RightEvents(f: RightFrame, left: bool, right: bool, move: MouseAction, wheel: seq<MouseAction>,
                       clicked: bool): seq<MouseAction>
  {
    match f.plan
    case Frozen => if f.pauses then Releases(left, right) else []
    case ScrollFrame => wheel + Releases(left, right)
    case CursorFrame(_, click, fires) => [move] + ClickEvents(click, fires, clicked, left, right)
  }

  /**
   * A frame's events are its buttons' history and its cursor work: replayed on the
   * buttons before the frame they give `RightButtons`, every press and release is
   * guarded, a frozen frame sends no move and no wheel, and only a cursor frame moves.
   */
  lemma {:induction false} RightEventsReplay(f: RightFrame, left: bool, right: bool, x: int, y: int,
                                             wheel: seq<MouseAction>, clicked: bool)
    requires forall i :: 0 <= i < |wheel| ==> wheel[i].Wheel?
    ensures var e := RightEvents(f, left, right, MoveTo(x, y), wheel, clicked);
      Replay(e, left, right) == RightButtons(f, left, right) && Guarded(e, left, right)
    ensures var e := RightEvents(f, left, right, MoveTo(x, y), wheel, clicked);
      f.plan == Frozen ==> forall i :: 0 <= i < |e| ==> e[i].Release?
    ensures var e := RightEvents(f, left, right, MoveTo(x, y), wheel, clicked);
      (exists i :: 0 <= i < |e| && e[i].MoveTo?) <==> f.plan.CursorFrame?
  {
    ReleasesReplay(left, right);
    match f.plan
    case Frozen =>
    case ScrollFrame =>
      WheelsReplay(wheel, left, right);
      ReplayAppend(wheel, Releases(left, right), left, right);
    case CursorFrame(_, click, fires) =>
      var c := ClickEvents(click, fires, clicked, left, right);
      ClickEventsReplay(click, fires, clicked, left, right);
      ReplayAppend([MoveTo(x, y)], c, left, right);
      ClickEventsMoveFree(click, fires, clicked, left, right);
      assert ([MoveTo(x, y)] + c)[0].MoveTo?;
  }

  /** `RightButtons` and `RightEvents` plan by plan, for proofs that hide function bodies. */
  lemma RightFrameEffects(f: RightFrame, left: bool, right: bool, move: MouseAction, wheel: seq<MouseAction>,
                          clicked: bool)
    ensures f.plan == Frozen ==>
      RightButtons(f, left, right) == (if f.pauses then (false, false) else (left, right)) &&
      RightEvents(f, left, right, move, wheel, clicked) == (if f.pauses then Releases(left, right) else [])
    ensures f.plan == ScrollFrame ==>
      RightButtons(f, left, right) == (false, false) &&
      RightEvents(f, left, right, move, wheel, clicked) == wheel + Releases(left, right)
    ensures f.plan.CursorFrame? ==>
      RightButtons(f, left, right) ==
        (if f.plan.click == DoubleBranch && !f.plan.doubleFires then (left, right)
         else ButtonsAfter(f.plan.click, left, right)) &&
      RightEvents(f, left, right, move, wheel, clicked) ==
        [move] + ClickEvents(f.plan.click, f.plan.doubleFires, clicked, left, right)
  {
  }

  /** Wheel events leave the buttons alone. */
  lemma {:induction false} WheelsReplay(wheel: seq<MouseAction>, left: bool, right: bool)
    requires forall i :: 0 <= i < |wheel| ==> wheel[i].Wheel?
    ensures Replay(wheel, left, right) == (left, right) && Guarded(wheel, left, right)
    decreases |wheel|
  {
    if |wheel| > 0 {
      WheelsReplay(wheel[1..], left, right);
    }
  }

  /** Never both buttons, and none while paused or right after a double click. */
  predicate ButtonsSafe(s: RightLatches, left: bool, right: bool)
  {
    !(left && right) && (s.paused || s.doubleDone ==> !left && !right)
  }

  /** Every right-hand frame keeps the buttons safe. */
  lemma RightStepKeepsButtonsSafe(s: RightLatches, p: RightPose, left: bool, right: bool)
    requires ButtonsSafe(s, left, right)
    ensures var f := RightStep(s, p);
      ButtonsSafe(f.next, RightButtons(f, left, right).0, RightButtons(f, left, right).1)
  {
  }

  /** The plans of a run of right-hand frames. */
  function RightPlans(s: RightLatches, poses: seq<RightPose>): (plans: seq<RightPlan>)
    ensures |plans| == |poses|
    decreases |poses|
  {
    if |poses| == 0 then []
    else
      var f := RightStep(s, poses[0]);
      [f.plan] + RightPlans(f.next, poses[1..])
  }

  /** The flags after a run of right-hand frames. */
  function RightRun(s: RightLatches, poses: seq<RightPose>): RightLatches
    decreases |poses|
  {
    if |poses| == 0 then s else RightRun(RightStep(s, poses[0]).next, poses[1..])
  }

  /**
   * Holding the three-finger pose for any number of frames double clicks at most once,
   * on the first frame, and only when the previous frame was not already the pose
   * (`double_click_performed`); every frame still moves the cursor.
   */
  lemma {:induction false} DoubleClickOncePerHold(s: RightLatches, p: RightPose, poses: seq<RightPose>)
    requires !s.paused && !p.fist && !p.scroll && p.double
    requires forall i :: 0 <= i < |poses| ==> poses[i] == p
    ensures forall i :: 0 <= i < |poses| ==>
      RightPlans(s, poses)[i] == CursorFrame(i == 0 && s.scrolling, DoubleBranch, i == 0 && !s.doubleDone)
    ensures |poses| > 0 ==> RightRun(s, poses) == RightLatches(false, false, false, true)
    decreases |poses|
  {
    if |poses| > 0 {
      var f := RightStep(s, p);
      assert f.next == RightLatches(false, false, false, true);
      DoubleClickOncePerHold(f.next, p, poses[1..]);
      assert RightPlans(s, poses) == [f.plan] + RightPlans(f.next, poses[1..]);
      assert RightRun(s, poses) == RightRun(f.next, poses[1..]);
    }
  }

  /** While paused, frames without a fist never touch the cursor and keep the pause. */
  lemma {:induction false} PausedStaysFrozen(s: RightLatches, poses: seq<RightPose>)
    requires s.paused
    requires forall i :: 0 <= i < |poses| ==> !poses[i].fist
    ensures forall i :: 0 <= i < |poses| ==> RightPlans(s, poses)[i] == Frozen
    ensures RightRun(s, poses).paused && RightRun(s, poses).scrolling == s.scrolling
    ensures |poses| > 0 ==> !RightRun(s, poses).fistHeld
    decreases |poses|
  {
    if |poses| > 0 {
      var f := RightStep(s, poses[0]);
      assert f.next == s.(fistHeld := false) && f.plan == Frozen;
      PausedStaysFrozen(f.next, poses[1..]);
      assert RightPlans(s, poses) == [f.plan] + RightPlans(f.next, poses[1..]);
    }
  }

  /**
   * The name the GUI shows for a right-hand frame (`set_gesture_name`), or None when the
   * frame sets none; the click names are the recognizer's own display names.
   */
  function RightGestureName(plan: RightPlan): (r: Option<string>)
    ensures plan.CursorFrame? && plan.click == DoubleBranch ==> r == Some(DisplayName(DoubleClick))
    ensures plan.CursorFrame? && plan.click == LeftBranch ==> r == Some(DisplayName(LeftClick))
    ensures plan.CursorFrame? && plan.click == RightBranch ==> r == Some(DisplayName(RightClick))
    ensures plan == ScrollFrame ==> r == Some(DisplayName(Scroll))
    ensures r.None? <==> plan == Frozen
  {
    match plan
    case Frozen => None
    case ScrollFrame => Some("Scroll")
    case CursorFrame(_, click, _) => Some(ClickName(click))
  }

  /** The name a cursor frame ends with: the click branch's, or the move's when no click pose is held. */
  function ClickName(click: ClickBranch): string
  {
    match click
    case DoubleBranch => "Çift Tıklama"
    case LeftBranch => "Sol Tıklama"
    case RightBranch => "Sağ Tıklama"
    case NoClick => "Mouse Hareketi"
  }

  /** The recognizer's display name after a handler that sets `named`, or none, over `before`. */
  function NameAfter(named: Option<string>, before: string): string
  {
    if named.Some? then named.value else before
  }

  /** The name after a right-hand frame, plan by plan, for proofs that hide function bodies. */
  lemma RightNameAfter(plan: RightPlan, before: string)
    ensures plan == Frozen ==> NameAfter(RightGestureName(plan), before) == before
    ensures plan == ScrollFrame ==> NameAfter(RightGestureName(plan), before) == "Scroll"
    ensures plan.CursorFrame? ==> NameAfter(RightGestureName(plan), before) == ClickName(plan.click)
  {
  }

  // ----- the left hand -----

  /** The classifier calls `process_left_hand` makes, and the index tip's height. */
  datatype LeftPose = LeftPose(fist: bool, mute: bool, media: bool, volume: bool, indexY: int)

  /**
   * The left hand's pose in a frame. The mute pose is the double-click pose and so
   * always also the media pose; the volume pose has the index tip to read.
   */
  function LeftPoseOf(threshold: int, lm: seq<Point>): (p: LeftPose)
    ensures p.volume ==> |lm| > 8 && p.indexY == lm[8].y
    ensures p.mute ==> p.media
    ensures !(p.fist && p.volume)
    ensures !FullHand(lm) ==> !p.fist && !p.mute && !p.media && !p.volume
  {
    FistExcludesScroll(lm);
    LeftPose(IsFist(lm), IsMuteGesture(threshold, lm), IsMediaPlayPauseGesture(threshold, lm),
             IsVolumeUpGesture(lm), if |lm| > 8 then lm[8].y else 0)
  }

  /**
   * The left hand's flags: `left_hand_enabled`, `left_fist_detected`, `last_left_gesture`,
   * `prev_volume_y` (the drag reference; `is_volume_mode` mirrors whether it is set),
   * `last_volume_time`, `mute_pinch_detected`, `media_pinch_detected`.
   */
  datatype LeftLatches = LeftLatches(enabled: bool, fistHeld: bool, last: LeftGesture, reference: Option<int>,
                                     lastStepTime: real, muteHeld: bool, mediaHeld: bool)

  /** A drag reference exists only while the hand is enabled and dragging. */
  predicate LeftSound(s: LeftLatches)
  {
    s.reference.Some? ==> s.enabled && VolumeTracking(s.last)
  }

  /** main.py steps at most every 0.15 s beyond 30 px; the GUI latches a direction beyond 10 px. */
  datatype DragPolicy = RateLimited | DirectionLatched

  /** The call a left-hand frame makes on the volume controller. */
  datatype LeftEffect = NoEffect | MuteToggled | MediaKey | VolumeKey(step: VolumeStep)

  datatype LeftFrame = LeftFrame(next: LeftLatches, effect: LeftEffect)

  /**
   * One left-hand frame at time `now`: the fist toggles the hand (dropping the drag
   * reference when it turns off); an enabled hand without a fist gets the mute pose
   * first, then the media pose, each acting once per pose, then the volume drag.
   */
  function LeftStep(policy: DragPolicy, s: LeftLatches, p: LeftPose, now: real): LeftFrame
  {
    var fist := EdgeStep(Latch(s.enabled, s.fistHeld), p.fist);
    var s1 := s.(enabled := fist.flag, fistHeld := fist.held,
                reference := if s.enabled && !fist.flag then None else s.reference);
    if !fist.flag || p.fist then LeftFrame(s1, NoEffect)
    else PoseStep(policy, s1, p, now)
  }

  /** The poses of an enabled hand without a fist: mute first, then media, then the volume drag. */
  function PoseStep(policy: DragPolicy, s: LeftLatches, p: LeftPose, now: real): LeftFrame
  {
    if p.mute then
      if s.muteHeld then LeftFrame(s, NoEffect)
      else LeftFrame(s.(muteHeld := true, last := MuteDone, reference := None, mediaHeld := false), MuteToggled)
    else if p.media then
      if s.mediaHeld then LeftFrame(s.(muteHeld := false), NoEffect)
      else LeftFrame(s.(muteHeld := false, mediaHeld := true, last := MediaDone, reference := None), MediaKey)
    else
      Drag(policy, s.(muteHeld := false, mediaHeld := false), p.volume, p.indexY, now)
  }

  /**
   * The volume drag: without the pose the drag ends; its first frame records the index
   * tip as the reference; later frames step by the policy, against that reference.
   */
  function Drag(policy: DragPolicy, s: LeftLatches, volumePose: bool, y: int, now: real): LeftFrame
  {
    if !volumePose then LeftFrame(s.(reference := None, last := NoLeftGesture), NoEffect)
    else if s.reference.None? then LeftFrame(s.(reference := Some(y), last := VolumeMode), NoEffect)
    else match policy
      case RateLimited =>
        var step := MainVolumeStep(s.reference.value, y, now, s.lastStepTime);
        if step == NoStep then LeftFrame(s, NoEffect)
        else LeftFrame(s.(lastStepTime := now, last := if step == StepUp then VolumeUpContinuous else VolumeDownContinuous),
                       VolumeKey(step))
      case DirectionLatched =>
        var latched := GuiVolumeLatch(s.reference.value - y, s.last);
        var step := GuiVolumeStep(latched);
        LeftFrame(s.(last := latched), if step == NoStep then NoEffect else VolumeKey(step))
  }

  /**
   * The left-hand frame: the fist toggle; nothing reaches the controller unless the hand
   * is enabled and not a fist; mute acts on a new mute pose, media on a new media pose
   * without the mute pose; the drag reference never moves while it exists; a step is
   * never "no step"; and the flags stay sound.
   */
  lemma LeftStepSpec(policy: DragPolicy, s: LeftLatches, p: LeftPose, now: real)
    requires LeftSound(s)
    ensures var f := LeftStep(policy, s, p, now);
      Latch(f.next.enabled, f.next.fistHeld) == EdgeStep(Latch(s.enabled, s.fistHeld), p.fist)
    ensures var f := LeftStep(policy, s, p, now);
      f.effect != NoEffect ==> f.next.enabled && !p.fist
    ensures var f := LeftStep(policy, s, p, now);
      f.effect == MuteToggled <==> f.next.enabled && !p.fist && p.mute && !s.muteHeld
    ensures var f := LeftStep(policy, s, p, now);
      f.effect == MediaKey <==> f.next.enabled && !p.fist && !p.mute && p.media && !s.mediaHeld
    ensures var f := LeftStep(policy, s, p, now);
      f.effect.VolumeKey? ==> f.effect.step != NoStep && s.reference.Some? && p.volume && !p.mute && !p.media
    ensures var f := LeftStep(policy, s, p, now);
      s.reference.Some? && f.next.reference.Some? ==> f.next.reference == s.reference
    ensures LeftSound(LeftStep(policy, s, p, now).next)
  {
  }

  /**
   * main.py's drag: a step needs the reference, the 30 px offset and 0.15 s since the
   * last step, and `last_volume_time` moves exactly when a step is taken.
   */
  lemma RateLimitedSpec(s: LeftLatches, p: LeftPose, now: real)
    ensures var f := LeftStep(RateLimited, s, p, now);
      f.effect.VolumeKey? ==>
        now - s.lastStepTime >= MAIN_VOLUME_INTERVAL &&
        Abs(s.reference.value - p.indexY) > MAIN_VOLUME_OFFSET &&
        (f.effect.step == StepUp <==> s.reference.value - p.indexY > MAIN_VOLUME_OFFSET)
    ensures var f := LeftStep(RateLimited, s, p, now);
      f.next.lastStepTime == (if f.effect.VolumeKey? then now else s.lastStepTime)
  {
  }

  /** The GUI's drag steps every frame in the latched direction, and never moves `last_volume_time`. */
  lemma DirectionLatchedSpec(s: LeftLatches, p: LeftPose, now: real)
    ensures var f := LeftStep(DirectionLatched, s, p, now);
      f.effect.VolumeKey? ==> f.effect.step == GuiVolumeStep(f.next.last)
    ensures LeftStep(DirectionLatched, s, p, now).next.lastStepTime == s.lastStepTime
    ensures var f := LeftStep(DirectionLatched, s, p, now);
      (f.next.enabled && !p.fist && !p.mute && !p.media && p.volume && s.reference.Some? &&
       (s.last == VolumeUpContinuous || s.last == VolumeDownContinuous)) ==> f.effect.VolumeKey?
  {
  }

  /** What the volume controller holds: level, mute flag, time of the last level change, play/pause presses sent. */
  datatype Endpoint = Endpoint(level: int, muted: bool, lastChange: real, presses: nat)

  /**
   * The controller after a frame's call, for an endpoint that is `available` or not, a
   * media key injector that is `mediaAvailable` or not, the controller's cooldown and
   * the configured step `size`: a level step is accepted only outside the cooldown.
   */
  function AfterEffect(e: LeftEffect, available: bool, mediaAvailable: bool, cooldown: real, size: int,
                       now: real, v: Endpoint): Endpoint
  {
    match e
    case NoEffect => v
    case MuteToggled => v.(muted := MuteAfter(available, v.muted, Toggle))
    case MediaKey => v.(presses := v.presses + if mediaAvailable then 1 else 0)
    case VolumeKey(step) =>
      var accepted := available && now - v.lastChange >= cooldown && step != NoStep;
      v.(level := SteppedLevel(step, accepted, v.level, size), lastChange := if accepted then now else v.lastChange)
  }

  /**
   * Each call touches only its own part of the controller: mute flips the flag of an
   * available endpoint, the media key counts one press when it can be sent, a step keeps
   * the level on the 0-100 scale, and a refused step changes nothing.
   */
  lemma AfterEffectSpec(e: LeftEffect, available: bool, mediaAvailable: bool, cooldown: real, size: int,
                        now: real, v: Endpoint)
    requires 0 <= v.level <= 100 && 0 <= size
    ensures var r := AfterEffect(e, available, mediaAvailable, cooldown, size, now, v);
      0 <= r.level <= 100 &&
      (r.muted != v.muted <==> e == MuteToggled && available) &&
      r.presses == v.presses + (if e == MediaKey && mediaAvailable then 1 else 0) &&
      (r.lastChange != v.lastChange ==> e.VolumeKey? && r.lastChange == now)
    ensures var r := AfterEffect(e, available, mediaAvailable, cooldown, size, now, v);
      e.VolumeKey? && e.step == StepUp ==> v.level <= r.level
    ensures var r := AfterEffect(e, available, mediaAvailable, cooldown, size, now, v);
      e.VolumeKey? && e.step == StepDown ==> r.level <= v.level
    ensures var r := AfterEffect(e, available, mediaAvailable, cooldown, size, now, v);
      e.VolumeKey? && (!available || now - v.lastChange < cooldown) ==> r == v
  {
    if e.VolumeKey? {
      var accepted := available && now - v.lastChange >= cooldown && e.step != NoStep;
      SteppedLevelSpec(e.step, accepted, v.level, size);
    }
  }

  /** Calls and flags over a run of left-hand frames, each with its pose and time. */
  function LeftEffects(policy: DragPolicy, s: LeftLatches, frames: seq<(LeftPose, real)>): (r: seq<LeftEffect>)
    ensures |r| == |frames|
    decreases |frames|
  {
    if |frames| == 0 then []
    else
      var f := LeftStep(policy, s, frames[0].0, frames[0].1);
      [f.effect] + LeftEffects(policy, f.next, frames[1..])
  }

  function LeftRun(policy: DragPolicy, s: LeftLatches, frames: seq<(LeftPose, real)>): LeftLatches
    decreases |frames|
  {
    if |frames| == 0 then s
    else LeftRun(policy, LeftStep(policy, s, frames[0].0, frames[0].1).next, frames[1..])
  }

  /** Holding the mute pose toggles mute at most once, on the first frame, and nothing else fires. */
  lemma {:induction false} MuteOncePerHold(policy: DragPolicy, s: LeftLatches, p: LeftPose, frames: seq<(LeftPose, real)>)
    requires s.enabled && !p.fist && p.mute
    requires forall i :: 0 <= i < |frames| ==> frames[i].0 == p
    ensures forall i :: 0 <= i < |frames| ==>
      LeftEffects(policy, s, frames)[i] == (if i == 0 && !s.muteHeld then MuteToggled else NoEffect)
    ensures |frames| > 0 ==> LeftRun(policy, s, frames).muteHeld && LeftRun(policy, s, frames).enabled
    decreases |frames|
  {
    if |frames| > 0 {
      var f := LeftStep(policy, s, p, frames[0].1);
      assert f.next.enabled && f.next.muteHeld && !f.next.fistHeld;
      MuteOncePerHold(policy, f.next, p, frames[1..]);
      assert LeftEffects(policy, s, frames) == [f.effect] + LeftEffects(policy, f.next, frames[1..]);
    }
  }

  /** A disabled hand without a fist stays disabled and silent. */
  lemma {:induction false} DisabledStaysQuiet(policy: DragPolicy, s: LeftLatches, frames: seq<(LeftPose, real)>)
    requires !s.enabled
    requires forall i :: 0 <= i < |frames| ==> !frames[i].0.fist
    ensures forall i :: 0 <= i < |frames| ==> LeftEffects(policy, s, frames)[i] == NoEffect
    ensures LeftRun(policy, s, frames).enabled == false
    ensures LeftRun(policy, s, frames).reference == s.reference
    decreases |frames|
  {
    if |frames| > 0 {
      var f := LeftStep(policy, s, frames[0].0, frames[0].1);
      assert f.next == s.(fistHeld := false) && f.effect == NoEffect;
      DisabledStaysQuiet(policy, f.next, frames[1..]);
      assert LeftEffects(policy, s, frames) == [f.effect] + LeftEffects(policy, f.next, frames[1..]);
    }
  }

  /** The frames of a plain volume drag: enabled hand, the volume pose, no fist and no pinch. */
  predicate Dragging(frame: (LeftPose, real))
  {
    var p := frame.0;
    !p.fist && !p.mute && !p.media && p.volume
  }

  /**
   * Throughout a drag the reference is the index tip's height on the drag's first frame:
   * the hand is measured against where the gesture started, never against the last frame.
   */
  lemma {:induction false} DragKeepsReference(policy: DragPolicy, s: LeftLatches, frames: seq<(LeftPose, real)>)
    requires s.enabled && LeftSound(s)
    requires forall i :: 0 <= i < |frames| ==> Dragging(frames[i])
    ensures |frames| > 0 ==>
      LeftRun(policy, s, frames).reference == (if s.reference.Some? then s.reference else Some(frames[0].0.indexY))
    ensures |frames| == 0 ==> LeftRun(policy, s, frames) == s
    ensures LeftRun(policy, s, frames).enabled && LeftSound(LeftRun(policy, s, frames))
    decreases |frames|
  {
    if |frames| > 0 {
      var f := LeftStep(policy, s, frames[0].0, frames[0].1);
      LeftStepSpec(policy, s, frames[0].0, frames[0].1);
      assert f.next.enabled && f.next.reference.Some?;
      assert f.next.reference == (if s.reference.Some? then s.reference else Some(frames[0].0.indexY));
      DragKeepsReference(policy, f.next, frames[1..]);
    }
  }

  /**
   * The name the GUI shows for left-hand frame `f` taken from flags `s`, or None when the
   * frame sets none: the mute and media names, "Ses Kontrolü" when a drag starts, the
   * direction while stepping, and "" when a stepping drag ends.
   */
  function LeftFrameName(s: LeftLatches, f: LeftFrame): Option<string>
  {
    match f.effect
    case MuteToggled => Some("Sessiz/Aç")
    case MediaKey => Some("Oynat/Duraklat")
    case VolumeKey(step) => Some(if step == StepUp then "Ses Artırma" else "Ses Azaltma")
    case NoEffect =>
      if s.reference.None? && f.next.reference.Some? then Some("Ses Kontrolü")
      else if f.next.last == NoLeftGesture && (s.last == VolumeUpContinuous || s.last == VolumeDownContinuous) then Some("")
      else None
  }

  /** The name of the GUI's left-hand frame on pose `p` at time `now`. */
  function LeftGestureName(s: LeftLatches, p: LeftPose, now: real): Option<string>
  {
    LeftFrameName(s, LeftStep(DirectionLatched, s, p, now))
  }

  /**
   * A name is shown exactly when the frame calls the controller, starts a drag, or ends
   * a stepping drag; the empty name only ends a stepping drag; and a frame that steps
   * the volume is named by its direction.
   */
  lemma LeftGestureNameSpec(s: LeftLatches, p: LeftPose, now: real)
    ensures var f := LeftStep(DirectionLatched, s, p, now);
      LeftGestureName(s, p, now).None? <==>
        f.effect == NoEffect && !(s.reference.None? && f.next.reference.Some?) &&
        !(f.next.last == NoLeftGesture && (s.last == VolumeUpContinuous || s.last == VolumeDownContinuous))
    ensures LeftGestureName(s, p, now) == Some("") ==> s.last == VolumeUpContinuous || s.last == VolumeDownContinuous
    ensures var f := LeftStep(DirectionLatched, s, p, now);
      f.effect == VolumeKey(StepUp) ==> LeftGestureName(s, p, now) == Some("Ses Artırma")
  {
  }

  // ----- a whole frame -----

  /** Every reported hand is empty or has at least `needed` landmarks (MediaPipe reports 21). */
  predicate HandsIndexable(d: Detection, needed: nat)
  {
    forall i :: 0 <= i < |d.hands| ==> |d.hands[i]| == 0 || |d.hands[i]| >= needed
  }

  /**
   * What one frame does to the right hand's flags: a `RightStep` on the first hand
   * labelled "Right", when there is one with landmarks and the session is not globally paused.
   */
  function RightAfterFrame(s: RightLatches, threshold: int, d: Detection, width: int, height: int, paused: bool): RightLatches
    requires LabelsCover(d)
  {
    var right := LabelledHand(d, "Right", width, height);
    if !paused && right.Some? && |right.value| > 0 then RightStep(s, RightPoseOf(threshold, right.value)).next else s
  }

  /** The same for the left hand's flags and the first hand labelled "Left", at time `now`. */
  function LeftAfterFrame(policy: DragPolicy, s: LeftLatches, threshold: int, d: Detection, width: int, height: int,
                          paused: bool, now: real): LeftLatches
    requires LabelsCover(d)
  {
    var left := LabelledHand(d, "Left", width, height);
    if !paused && left.Some? && |left.value| > 0 then LeftStep(policy, s, LeftPoseOf(threshold, left.value), now).next else s
  }

  /** The buttons after one frame, from `left` and `right` before it: `RightButtons` of the same right-hand step. */
  function RightButtonsAfterFrame(s: RightLatches, threshold: int, d: Detection, width: int, height: int, paused: bool,
                                  left: bool, right: bool): (bool, bool)
    requires LabelsCover(d)
  {
    var hand := LabelledHand(d, "Right", width, height);
    if !paused && hand.Some? && |hand.value| > 0 then RightButtons(RightStep(s, RightPoseOf(threshold, hand.value)), left, right)
    else (left, right)
  }

  /** The volume endpoint after one frame: `AfterEffect` of the same left-hand step's call. */
  function EndpointAfterFrame(policy: DragPolicy, s: LeftLatches, threshold: int, d: Detection, width: int, height: int,
                              paused: bool, now: real, available: bool, mediaAvailable: bool, cooldown: real, size: int,
                              v: Endpoint): Endpoint
    requires LabelsCover(d)
  {
    var hand := LabelledHand(d, "Left", width, height);
    if !paused && hand.Some? && |hand.value| > 0 then
      AfterEffect(LeftStep(policy, s, LeftPoseOf(threshold, hand.value), now).effect, available, mediaAvailable, cooldown,
                  size, now, v)
    else v
  }

  /** A whole frame keeps the buttons safe, whatever hands it holds and whether the session is paused. */
  lemma FrameKeepsButtonsSafe(s: RightLatches, threshold: int, d: Detection, width: int, height: int, paused: bool,
                              left: bool, right: bool)
    requires LabelsCover(d) && ButtonsSafe(s, left, right)
    ensures var b := RightButtonsAfterFrame(s, threshold, d, width, height, paused, left, right);
      ButtonsSafe(RightAfterFrame(s, threshold, d, width, height, paused), b.0, b.1)
  {
    var hand := LabelledHand(d, "Right", width, height);
    if !paused && hand.Some? && |hand.value| > 0 {
      RightStepKeepsButtonsSafe(s, RightPoseOf(threshold, hand.value), left, right);
    }
  }

  /** Under a global pause a frame changes neither hand's flags, the buttons nor the volume. */
  lemma PausedFrameIsQuiet(policy: DragPolicy, rs: RightLatches, ls: LeftLatches, threshold: int, d: Detection,
                           width: int, height: int, now: real, left: bool, right: bool,
                           available: bool, mediaAvailable: bool, cooldown: real, size: int, v: Endpoint)
    requires LabelsCover(d)
    ensures RightAfterFrame(rs, threshold, d, width, height, true) == rs
    ensures LeftAfterFrame(policy, ls, threshold, d, width, height, true, now) == ls
    ensures RightButtonsAfterFrame(rs, threshold, d, width, height, true, left, right) == (left, right)
    ensures EndpointAfterFrame(policy, ls, threshold, d, width, height, true, now, available, mediaAvailable, cooldown, size, v) == v
  {
  }
}
