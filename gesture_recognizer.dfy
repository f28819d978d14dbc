/**
 * GestureRecognizer: classifies one hand's 21 pixel landmarks into a gesture label,
 * decides which fingers are raised, and filters labels through a stability window.
 */
module GestureRecognizer {
  import opened Numeric

  /** A landmark in pixel coordinates. */
  datatype Point = Point(x: int, y: int)

  /** The labels `recognize_gesture` returns ("none", "move", "fist", …). */
  datatype Gesture = NoGesture | Move | Fist | Scroll | DoubleClick | LeftClick | RightClick

  const LANDMARK_COUNT: nat := 21
  /** Largest vertical gap between two fingertips that still counts as a pinch. */
  const PINCH_VERTICAL_LIMIT: int := 50
  /** Distance between the two index fingertips below which both hands signal a global pause. */
  const GLOBAL_PAUSE_DISTANCE: int := 50
  /** Extra reach granted to the thumb–pinky pinch. */
  const MICROPHONE_EXTRA: int := 20
  /** Horizontal thumb tip–joint offset above which the thumb counts as raised. */
  const THUMB_SPREAD: int := 30
  /** How far a fingertip must be above its middle joint to count as raised. */
  const FINGER_TOLERANCE: int := 10

  const FINGER_TIPS: seq<nat> := [4, 8, 12, 16, 20]
  const FINGER_PIPS: seq<nat> := [3, 6, 10, 14, 18]

  function DistSq(a: Point, b: Point): nat
  {
    (b.x - a.x) * (b.x - a.x) + (b.y - a.y) * (b.y - a.y)
  }

  /** `calculate_distance(a, b) < t`, decided on squared integers. */
  predicate CloserThan(a: Point, b: Point, t: int)
  {
    0 < t && DistSq(a, b) < t * t
  }

  /** For any non-negative distance d, comparing d < t and comparing squares agree. */
  lemma CloserThanIsEuclidean(a: Point, b: Point, t: int, d: real)
    requires 0.0 <= d && d * d == DistSq(a, b) as real
    ensures CloserThan(a, b, t) <==> d < t as real
  {
    SquareAsReal(t);
    if 0 < t {
      if d < t as real {
        SquareStrictMono(d, t as real);
      } else {
        SquareMono(t as real, d);
      }
    }
  }

  /** `detect_pinch`: the tips are closer than the threshold and at a similar height. */
  predicate DetectPinch(threshold: int, thumbTip: Point, fingerTip: Point)
  {
    CloserThan(thumbTip, fingerTip, threshold) && Abs(thumbTip.y - fingerTip.y) < PINCH_VERTICAL_LIMIT
  }

  /** With `d` the Euclidean distance of the tips, a pinch is `d` below the threshold and a vertical gap below 50. */
  lemma DetectPinchIsEuclidean(threshold: int, thumbTip: Point, fingerTip: Point, d: real)
    requires 0.0 <= d && d * d == DistSq(thumbTip, fingerTip) as real
    ensures DetectPinch(threshold, thumbTip, fingerTip) <==>
              d < threshold as real && Abs(thumbTip.y - fingerTip.y) < PINCH_VERTICAL_LIMIT
  {
    CloserThanIsEuclidean(thumbTip, fingerTip, threshold, d);
  }

  /** Which tip is the thumb does not matter: both the distance and the vertical gap are symmetric. */
  lemma DetectPinchSymmetric(threshold: int, a: Point, b: Point)
    ensures DetectPinch(threshold, a, b) == DetectPinch(threshold, b, a)
  {
    assert DistSq(a, b) == DistSq(b, a);
  }

  predicate FullHand(lm: seq<Point>) { |lm| >= LANDMARK_COUNT }

  // ----- raised fingers -----

  /** `is_finger_up`: finger ids 1 (thumb) to 5 (pinky); anything else, or a short hand, is down. */
  predicate IsFingerUp(lm: seq<Point>, fingerId: int)
  {
    if !FullHand(lm) || fingerId < 1 || fingerId > 5 then false
    else if fingerId == 1 then Abs(lm[FINGER_TIPS[0]].x - lm[FINGER_PIPS[0]].x) > THUMB_SPREAD
    else lm[FINGER_TIPS[fingerId - 1]].y < lm[FINGER_PIPS[fingerId - 1]].y - FINGER_TOLERANCE
  }

  /** Raised finger ids among 1..n, in increasing order. */
  function FingersUpTo(lm: seq<Point>, n: nat): seq<int>
    decreases n
  {
    if n == 0 then [] else FingersUpTo(lm, n - 1) + (if IsFingerUp(lm, n) then [n] else [])
  }

  /** `get_fingers_up` as a value. */
  function FingersUp(lm: seq<Point>): seq<int>
  {
    FingersUpTo(lm, 5)
  }

  /** The ids listed among 1..n are exactly the raised fingers there. */
  lemma {:induction false} FingersUpToMembers(lm: seq<Point>, n: nat)
    requires n <= 5
    ensures forall f :: f in FingersUpTo(lm, n) <==> 1 <= f <= n && IsFingerUp(lm, f)
    decreases n
  {
    if n > 0 {
      FingersUpToMembers(lm, n - 1);
    }
  }

  /** The ids listed among 1..n are strictly increasing, so each appears once. */
  lemma {:induction false} FingersUpToIncreasing(lm: seq<Point>, n: nat)
    ensures forall f :: f in FingersUpTo(lm, n) ==> 1 <= f <= n
    ensures forall i, j :: 0 <= i < j < |FingersUpTo(lm, n)| ==> FingersUpTo(lm, n)[i] < FingersUpTo(lm, n)[j]
    ensures |FingersUpTo(lm, n)| <= n
    decreases n
  {
    if n > 0 {
      FingersUpToIncreasing(lm, n - 1);
    }
  }

  lemma FingersUpToSpec(lm: seq<Point>, n: nat)
    requires n <= 5
    ensures forall f :: f in FingersUpTo(lm, n) <==> 1 <= f <= n && IsFingerUp(lm, f)
    ensures forall i, j :: 0 <= i < j < |FingersUpTo(lm, n)| ==> FingersUpTo(lm, n)[i] < FingersUpTo(lm, n)[j]
  {
    FingersUpToMembers(lm, n);
    FingersUpToIncreasing(lm, n);
  }

  /** `get_fingers_up`: its loop appends each raised finger id in turn. */
  method GetFingersUp(lm: seq<Point>) returns (fingers: seq<int>)
    ensures fingers == FingersUp(lm)
    ensures forall f :: f in fingers <==> 1 <= f <= 5 && IsFingerUp(lm, f)
    ensures forall i, j :: 0 <= i < j < |fingers| ==> fingers[i] < fingers[j]
  {
    fingers := [];
    var i := 1;
    while i < 6
      invariant 1 <= i <= 6
      invariant fingers == FingersUpTo(lm, i - 1)
    {
      if IsFingerUp(lm, i) {
        fingers := fingers + [i];
      }
      i := i + 1;
    }
    FingersUpToSpec(lm, 5);
  }

  /** A hand with fewer than 21 landmarks has no raised finger. */
  lemma ShortHandHasNoFingersUp(lm: seq<Point>)
    requires !FullHand(lm)
    ensures FingersUp(lm) == []
  {
  }

  // ----- gesture predicates -----

  predicate IsDoubleClick(threshold: int, lm: seq<Point>)
  {
    FullHand(lm) && DetectPinch(threshold, lm[4], lm[8]) && DetectPinch(threshold, lm[4], lm[12])
  }

  predicate IsScrollGesture(lm: seq<Point>)
  {
    FullHand(lm) &&
    var ups := FingersUp(lm);
    2 in ups && 3 in ups && 4 !in ups && 5 !in ups
  }

  predicate IsFist(lm: seq<Point>)
  {
    FullHand(lm) && |FingersUp(lm)| == 0
  }

  predicate IsMuteGesture(threshold: int, lm: seq<Point>)
  {
    FullHand(lm) && DetectPinch(threshold, lm[4], lm[8]) && DetectPinch(threshold, lm[4], lm[12])
  }

  predicate IsVolumeUpGesture(lm: seq<Point>)
  {
    FullHand(lm) &&
    var ups := FingersUp(lm);
    2 in ups && 3 in ups && 4 !in ups && 5 !in ups
  }

  predicate IsVolumeDownGesture(lm: seq<Point>)
  {
    IsVolumeUpGesture(lm)
  }

  predicate IsMediaPlayPauseGesture(threshold: int, lm: seq<Point>)
  {
    FullHand(lm) && DetectPinch(threshold, lm[4], lm[8])
  }

  /** Thumb tip near pinky tip, with a wider threshold and no height check. */
  predicate IsMicrophoneToggleGesture(threshold: int, lm: seq<Point>)
  {
    FullHand(lm) && CloserThan(lm[4], lm[20], threshold + MICROPHONE_EXTRA)
  }

  predicate IsLeftClick(threshold: int, lm: seq<Point>)
  {
    FullHand(lm) && DetectPinch(threshold, lm[4], lm[8])
  }

  predicate IsRightClick(threshold: int, lm: seq<Point>)
  {
    FullHand(lm) && DetectPinch(threshold, lm[4], lm[12])
  }

  predicate IsPointingGesture(lm: seq<Point>)
  {
    var ups := FingersUp(lm);
    ups == [2] || (2 in ups && |ups| == 1)
  }

  /** Both hands complete and their index fingertips closer than 50 px. */
  predicate IsGlobalPauseGesture(left: seq<Point>, right: seq<Point>)
  {
    FullHand(left) && FullHand(right) && CloserThan(left[8], right[8], GLOBAL_PAUSE_DISTANCE)
  }

  /** `recognize_gesture`: the first match in the order fist, scroll, double click, left, right. */
  function RecognizeGesture(threshold: int, lm: seq<Point>): Gesture
  {
    if !FullHand(lm) then NoGesture
    else if IsFist(lm) then Fist
    else if IsScrollGesture(lm) then Scroll
    else if IsDoubleClick(threshold, lm) then DoubleClick
    else if DetectPinch(threshold, lm[4], lm[8]) then LeftClick
    else if DetectPinch(threshold, lm[4], lm[12]) then RightClick
    else Move
  }

  // ----- properties of the classification -----

  /** Every incomplete hand is "none", and every complete hand gets a real label. */
  lemma RecognizeNoneExactlyForShortHands(threshold: int, lm: seq<Point>)
    ensures RecognizeGesture(threshold, lm) == NoGesture <==> !FullHand(lm)
  {
  }

  /** The priority order, stated label by label in both directions. */
  lemma RecognizePriority(threshold: int, lm: seq<Point>)
    requires FullHand(lm)
    ensures RecognizeGesture(threshold, lm) == Fist <==> IsFist(lm)
    ensures RecognizeGesture(threshold, lm) == Scroll <==> !IsFist(lm) && IsScrollGesture(lm)
    ensures RecognizeGesture(threshold, lm) == DoubleClick <==>
      !IsFist(lm) && !IsScrollGesture(lm) && IsDoubleClick(threshold, lm)
    ensures RecognizeGesture(threshold, lm) == LeftClick <==>
      !IsFist(lm) && !IsScrollGesture(lm) && !IsDoubleClick(threshold, lm) && IsLeftClick(threshold, lm)
    ensures RecognizeGesture(threshold, lm) == RightClick <==>
      !IsFist(lm) && !IsScrollGesture(lm) && !IsLeftClick(threshold, lm) && IsRightClick(threshold, lm)
    ensures RecognizeGesture(threshold, lm) == Move <==>
      !IsFist(lm) && !IsScrollGesture(lm) && !IsLeftClick(threshold, lm) && !IsRightClick(threshold, lm)
  {
  }

  /** A fist has no raised finger, so it can never also be the scroll pose. */
  lemma FistExcludesScroll(lm: seq<Point>)
    ensures !(IsFist(lm) && IsScrollGesture(lm))
  {
  }

  /** Aliases in the source: the mute pose is the double-click pose, volume down is volume up is scroll, media is left click. */
  lemma GestureAliases(threshold: int, lm: seq<Point>)
    ensures IsMuteGesture(threshold, lm) <==> IsDoubleClick(threshold, lm)
    ensures IsVolumeDownGesture(lm) <==> IsVolumeUpGesture(lm)
    ensures IsVolumeUpGesture(lm) <==> IsScrollGesture(lm)
    ensures IsMediaPlayPauseGesture(threshold, lm) <==> IsLeftClick(threshold, lm)
    ensures IsDoubleClick(threshold, lm) <==> IsLeftClick(threshold, lm) && IsRightClick(threshold, lm)
  {
  }

  /** Every gesture predicate is false on an empty or incomplete landmark list. */
  lemma ShortHandMatchesNothing(threshold: int, lm: seq<Point>, other: seq<Point>)
    requires !FullHand(lm)
    ensures !IsDoubleClick(threshold, lm) && !IsScrollGesture(lm) && !IsFist(lm)
    ensures !IsMuteGesture(threshold, lm) && !IsVolumeUpGesture(lm) && !IsVolumeDownGesture(lm)
    ensures !IsMediaPlayPauseGesture(threshold, lm) && !IsMicrophoneToggleGesture(threshold, lm)
    ensures !IsLeftClick(threshold, lm) && !IsRightClick(threshold, lm) && !IsPointingGesture(lm)
    ensures !IsGlobalPauseGesture(lm, other) && !IsGlobalPauseGesture(other, lm)
  {
  }

  /** The scroll pose is index and middle raised, ring and pinky down, whatever the thumb does. */
  lemma ScrollPoseByFingers(lm: seq<Point>)
    requires FullHand(lm)
    ensures IsScrollGesture(lm) <==>
      IsFingerUp(lm, 2) && IsFingerUp(lm, 3) && !IsFingerUp(lm, 4) && !IsFingerUp(lm, 5)
  {
    FingersUpToSpec(lm, 5);
  }

  /** A fist is exactly a complete hand with all five fingers down. */
  lemma FistByFingers(lm: seq<Point>)
    ensures IsFist(lm) <==> FullHand(lm) && forall f :: 1 <= f <= 5 ==> !IsFingerUp(lm, f)
  {
    FingersUpToSpec(lm, 5);
  }

  /** Pointing is the index finger raised alone. */
  lemma PointingByFingers(lm: seq<Point>)
    ensures IsPointingGesture(lm) <==> FingersUp(lm) == [2]
    ensures IsPointingGesture(lm) <==> IsFingerUp(lm, 2) && forall f :: 1 <= f <= 5 && f != 2 ==> !IsFingerUp(lm, f)
  {
    FingersUpToSpec(lm, 5);
  }

  /** The threshold setter clamps into [10, 100] and keeps in-range values. */
  function ClampThreshold(threshold: int): (r: int)
    ensures 10 <= r <= 100
    ensures 10 <= threshold <= 100 ==> r == threshold
    ensures threshold < 10 ==> r == 10
    ensures threshold > 100 ==> r == 100
  {
    MaxInt(10, MinInt(threshold, 100))
  }

  /** `gesture_names.get(current_gesture, "Bilinmeyen")`. */
  function DisplayName(g: Gesture): string
  {
    match g
    case NoGesture => "Bekleniyor..."
    case Move => "Hareket"
    case LeftClick => "Sol Tıklama"
    case RightClick => "Sağ Tıklama"
    case DoubleClick => "Çift Tıklama"
    case Scroll => "Scroll"
    case Fist => "Yumruk (Duraklat)"
  }

  /** Distinct labels have distinct display names, none of them the fallback "Bilinmeyen". */
  lemma DisplayNamesDistinct(g: Gesture, h: Gesture)
    ensures DisplayName(g) == DisplayName(h) <==> g == h
    ensures DisplayName(g) != "Bilinmeyen"
  {
  }

  // ----- the stability filter of get_stable_gesture -----

  /** The contents of a `deque(maxlen=n)`: only the last n items are kept. */
  function Window<T>(s: seq<T>, n: nat): seq<T>
  {
    if |s| <= n then s else s[|s| - n..]
  }

  /** The filter state: the label window, `current_gesture` and `last_gesture`. */
  datatype Filter = Filter(history: seq<Gesture>, current: Gesture, last: Gesture)

  const ResetFilter: Filter := Filter([], NoGesture, NoGesture)

  predicate AllEqual(h: seq<Gesture>, d: Gesture)
  {
    forall i :: 0 <= i < |h| ==> h[i] == d
  }

  /** One call of `get_stable_gesture` on the label `d` recognized this frame. */
  function Observe(n: nat, f: Filter, d: Gesture): (Filter, Option<Gesture>)
  {
    var h := Window(f.history + [d], n);
    if |h| >= n && AllEqual(h, d) && d != f.last then (Filter(h, d, d), Some(d))
    else (f.(history := h), None)
  }

  /**
   * A label is confirmed exactly when it differs from the last confirmed one and
   * the previous n - 1 recognized labels equal it too.
   */
  lemma ObserveConfirmsIff(n: nat, f: Filter, d: Gesture)
    requires n >= 1
    ensures Observe(n, f, d).1.Some? <==>
      d != f.last && |f.history| + 1 >= n &&
      forall i :: |f.history| + 1 - n <= i < |f.history| ==> f.history[i] == d
    ensures Observe(n, f, d).1.Some? ==> Observe(n, f, d).1 == Some(d) && Observe(n, f, d).0.last == d
    ensures Observe(n, f, d).1.None? ==> Observe(n, f, d).0.last == f.last && Observe(n, f, d).0.current == f.current
  {
    var s := f.history + [d];
    var h := Window(s, n);
    var k := |f.history| + 1 - n;
    if |f.history| + 1 >= n {
      assert h == s[k..];
      if forall i :: k <= i < |f.history| ==> f.history[i] == d {
        forall j | 0 <= j < |h| ensures h[j] == d {
          assert h[j] == s[k + j];
        }
      }
      if AllEqual(h, d) {
        forall i | k <= i < |f.history| ensures f.history[i] == d {
          assert f.history[i] == s[i] == h[i - k];
        }
      }
    }
  }

  /** Right after a confirmation, the same label is not confirmed again. */
  lemma NoRepeatConfirmation(n: nat, f: Filter, d: Gesture)
    requires Observe(n, f, d).1.Some?
    ensures Observe(n, Observe(n, f, d).0, d).1.None?
  {
  }

  /** Feeding a sequence of recognized labels one frame at a time. */
  function Run(n: nat, f: Filter, ds: seq<Gesture>): Filter
    decreases |ds|
  {
    if |ds| == 0 then f else Observe(n, Run(n, f, ds[..|ds| - 1]), ds[|ds| - 1]).0
  }

  /** The confirmations produced while feeding `ds`, one entry per frame. */
  function Confirmations(n: nat, f: Filter, ds: seq<Gesture>): seq<Option<Gesture>>
    decreases |ds|
  {
    if |ds| == 0 then []
    else Confirmations(n, f, ds[..|ds| - 1]) + [Observe(n, Run(n, f, ds[..|ds| - 1]), ds[|ds| - 1]).1]
  }

  lemma WindowOfWindow(s: seq<Gesture>, d: Gesture, n: nat)
    ensures Window(Window(s, n) + [d], n) == Window(s + [d], n)
  {
  }

  /** The window always holds the last n labels seen, counting those it started with. */
  lemma {:induction false} RunHistory(n: nat, f: Filter, ds: seq<Gesture>)
    requires |f.history| <= n
    ensures Run(n, f, ds).history == Window(f.history + ds, n)
    decreases |ds|
  {
    if |ds| == 0 {
      assert f.history + ds == f.history;
    } else {
      var pre := ds[..|ds| - 1];
      RunHistory(n, f, pre);
      WindowOfWindow(f.history + pre, ds[|ds| - 1], n);
      assert f.history + pre + [ds[|ds| - 1]] == f.history + ds;
    }
  }

  /**
   * Starting from a reset filter, a label is confirmed only after n identical labels in a
   * row: it was recognized in this frame and in each of the n - 1 frames before.
   */
  lemma ConfirmationNeedsRun(n: nat, ds: seq<Gesture>, d: Gesture)
    requires n >= 1
    requires Observe(n, Run(n, ResetFilter, ds), d).1.Some?
    ensures |ds| + 1 >= n
    ensures forall i :: |ds| + 1 - n <= i < |ds| ==> ds[i] == d
  {
    RunHistory(n, ResetFilter, ds);
    var f := Run(n, ResetFilter, ds);
    assert ResetFilter.history + ds == ds;
    ObserveConfirmsIff(n, f, d);
    var k := |ds| + 1 - n;
    if |ds| <= n {
      assert f.history == ds;
    } else {
      assert f.history == ds[|ds| - n..];
      forall i | k <= i < |ds| ensures ds[i] == d {
        assert ds[i] == f.history[i - (|ds| - n)];
      }
    }
  }

  /** A different label among the last n - 1 frames blocks the confirmation of `d`. */
  lemma InterruptionBlocks(n: nat, f: Filter, ds: seq<Gesture>, d: Gesture, j: nat)
    requires n >= 1 && |f.history| <= n
    requires j < |ds| && ds[j] != d && |ds| - j < n
    ensures Observe(n, Run(n, f, ds), d).1.None?
  {
    var full := f.history + ds + [d];
    assert full[|f.history| + j] == ds[j];
    LateMismatch(full, n, |f.history| + j, d);
    var g := Run(n, f, ds);
    RunHistory(n, f, ds);
    WindowOfWindow(f.history + ds, d, n);
    assert Window(g.history + [d], n) == Window(full, n);
  }


  /** A label other than `d` among the last n of `s` keeps the window of `s` from being all `d`. */
  lemma LateMismatch(s: seq<Gesture>, n: nat, p: nat, d: Gesture)
    requires p < |s| && |s| - p <= n && s[p] != d
    ensures !AllEqual(Window(s, n), d)
  {
    var idx := if |s| <= n then p else p - (|s| - n);
    assert Window(s, n)[idx] == s[p];
  }

  function Repeat(d: Gesture, k: nat): (r: seq<Gesture>)
    ensures |r| == k && forall i :: 0 <= i < k ==> r[i] == d
  {
    seq(k, _ => d)
  }

  function CountConfirmations(outs: seq<Option<Gesture>>): nat
    decreases |outs|
  {
    if |outs| == 0 then 0
    else CountConfirmations(outs[..|outs| - 1]) + (if outs[|outs| - 1].Some? then 1 else 0)
  }

  /**
   * Holding one pose: feeding the same label k times to a filter that last confirmed a
   * different label yields at most one confirmation, and exactly one once k >= n; the
   * filter then remembers that label.
   */
  lemma {:induction false} HoldingConfirmsOnce(n: nat, f: Filter, d: Gesture, k: nat)
    requires n >= 1 && |f.history| <= n && f.last != d
    ensures var r := Run(n, f, Repeat(d, k));
      var c := CountConfirmations(Confirmations(n, f, Repeat(d, k)));
      (r.last == d && c == 1) || (r.last == f.last && c == 0)
    ensures k >= n ==> Run(n, f, Repeat(d, k)).last == d
    decreases k
  {
    if k > 0 {
      HoldingConfirmsOnce(n, f, d, k - 1);
      LastStep(n, f, Repeat(d, k));
      assert Repeat(d, k)[..k - 1] == Repeat(d, k - 1);
      if k >= n && Run(n, f, Repeat(d, k - 1)).last != d {
        FullHoldConfirms(n, f, d, k);
      }
    }
  }

  /** One more frame: the run and its confirmations extend by one observation. */
  lemma LastStep(n: nat, f: Filter, ds: seq<Gesture>)
    requires |ds| > 0
    ensures var pre := ds[..|ds| - 1];
      var o := Observe(n, Run(n, f, pre), ds[|ds| - 1]);
      Run(n, f, ds) == o.0 &&
      CountConfirmations(Confirmations(n, f, ds)) ==
        CountConfirmations(Confirmations(n, f, pre)) + (if o.1.Some? then 1 else 0)
  {
    var outs := Confirmations(n, f, ds);
    assert outs[..|outs| - 1] == Confirmations(n, f, ds[..|ds| - 1]);
  }

  /** After k >= n frames of `d`, the window is full of `d`, so a filter not yet on `d` confirms it. */
  lemma FullHoldConfirms(n: nat, f: Filter, d: Gesture, k: nat)
    requires 1 <= n <= k && |f.history| <= n
    requires Run(n, f, Repeat(d, k - 1)).last != d
    ensures Observe(n, Run(n, f, Repeat(d, k - 1)), d).1.Some?
  {
    var pre := Repeat(d, k - 1);
    RunHistory(n, f, pre);
    WindowFullOf(n, Run(n, f, pre).history, f.history + pre, d);
  }

  /** Pushing `d` onto the window of a sequence that ends in n - 1 copies of `d` gives a window full of `d`. */
  lemma WindowFullOf(n: nat, w: seq<Gesture>, s: seq<Gesture>, d: Gesture)
    requires n >= 1 && w == Window(s, n) && |s| >= n - 1
    requires forall i :: |s| - (n - 1) <= i < |s| ==> s[i] == d
    ensures |Window(w + [d], n)| >= n && AllEqual(Window(w + [d], n), d)
  {
    WindowOfWindow(s, d, n);
    var t := s + [d];
    var h := Window(t, n);
    assert h == t[|t| - n..];
    forall i | 0 <= i < n ensures h[i] == d {
      assert h[i] == t[|t| - n + i];
    }
  }

  /** Feeding more of the label that was confirmed last never confirms again. */
  lemma {:induction false} HeldLabelStaysQuiet(n: nat, f: Filter, d: Gesture, k: nat)
    requires f.last == d
    ensures Run(n, f, Repeat(d, k)).last == d
    ensures CountConfirmations(Confirmations(n, f, Repeat(d, k))) == 0
    decreases k
  {
    if k > 0 {
      var ds := Repeat(d, k);
      assert ds[..k - 1] == Repeat(d, k - 1);
      HeldLabelStaysQuiet(n, f, d, k - 1);
    }
  }

  /** The recognizer object: pinch threshold, the stability window and the display name. */
  class Recognizer {
    var pinchThreshold: int
    const stableFrames: nat
    var history: seq<Gesture>
    var currentGesture: Gesture
    var lastGesture: Gesture
    var currentGestureName: string

    /** The deque never holds more than `stable_frames` labels. */
    ghost predicate Valid()
      reads this`history
    {
      |history| <= stableFrames
    }

    function State(): Filter
      reads this`history, this`currentGesture, this`lastGesture
    {
      Filter(history, currentGesture, lastGesture)
    }

    constructor (pinchThreshold: int, stableFrames: nat)
      ensures Valid()
      ensures this.pinchThreshold == pinchThreshold && this.stableFrames == stableFrames
      ensures State() == ResetFilter && currentGestureName == ""
    {
      this.pinchThreshold := pinchThreshold;
      this.stableFrames := stableFrames;
      history := [];
      currentGesture := NoGesture;
      lastGesture := NoGesture;
      currentGestureName := "";
    }

    /** `get_stable_gesture`: recognize, push into the window, confirm a stable new label. */
    method GetStableGesture(lm: seq<Point>) returns (r: Option<Gesture>)
      requires Valid()
      modifies this`history, this`currentGesture, this`lastGesture
      ensures Valid()
      ensures (State(), r) == Observe(stableFrames, old(State()), RecognizeGesture(pinchThreshold, lm))
    {
      var d := RecognizeGesture(pinchThreshold, lm);
      r := PushLabel(d);
    }

    /** The window part of `get_stable_gesture`: push the frame's label `d`, then confirm it if it is stable and new. */
    method PushLabel(d: Gesture) returns (r: Option<Gesture>)
      requires Valid()
      modifies this`history, this`currentGesture, this`lastGesture
      ensures Valid()
      ensures (State(), r) == Observe(stableFrames, old(State()), d)
    {
      history := history + [d];
      if |history| > stableFrames {
        history := history[1..];
      }
      if |history| < stableFrames {
        return None;
      }
      if AllEqual(history, d) && d != lastGesture {
        currentGesture := d;
        lastGesture := d;
        return Some(d);
      }
      return None;
    }

    /** `get_current_gesture_name`. */
    function CurrentGestureName(): (name: string)
      reads this
      ensures name == DisplayName(currentGesture)
    {
      DisplayName(currentGesture)
    }

    /** `reset_gesture_history`: empty window, both labels back to "none"; threshold and display name kept. */
    method ResetGestureHistory()
      modifies this`history, this`currentGesture, this`lastGesture
      ensures Valid() && State() == ResetFilter
    {
      history := [];
      currentGesture := NoGesture;
      lastGesture := NoGesture;
    }

    /** `set_pinch_threshold`. */
    method SetPinchThreshold(threshold: int)
      modifies this`pinchThreshold
      ensures pinchThreshold == ClampThreshold(threshold)
      ensures 10 <= pinchThreshold <= 100
    {
      pinchThreshold := MaxInt(10, MinInt(threshold, 100));
    }

    /** `set_gesture_name`. */
    method SetGestureName(name: string)
      modifies this`currentGestureName
      ensures currentGestureName == name
    {
      currentGestureName := name;
    }
  }
}
