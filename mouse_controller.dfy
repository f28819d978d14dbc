/**
 * MouseController: maps camera coordinates into the screen through the crop rectangle,
 * smooths the cursor with a speed-dependent exponential moving average, and drives
 * buttons, double clicks and the wheel with their cooldowns.
 * The operating system's mouse is the `actions` trace the controller emits.
 */
module MouseController {
  import opened Numeric
  import opened Config

  datatype Button = Left | Right

  /** The calls the controller makes into pyautogui / win32api. */
  datatype MouseAction = MoveTo(x: int, y: int) | Press(button: Button) | Release(button: Button)
    | DoubleClickAction | Wheel(amount: int)

  /** `math.sqrt` on non-negative reals. */
  ghost predicate SqrtOracle(sqrt: real -> real)
  {
    forall x: real :: 0.0 <= x ==> 0.0 <= sqrt(x) && sqrt(x) * sqrt(x) == x
  }

  /** `math.exp` is positive. */
  ghost predicate ExpPositive(exp: real -> real)
  {
    forall x: real :: 0.0 < exp(x)
  }

  /** `math.exp` is increasing. */
  ghost predicate ExpIncreasing(exp: real -> real)
  {
    forall x: real, y: real :: x <= y ==> exp(x) <= exp(y)
  }

  // ----- coordinate mapping -----

  /**
   * One axis of `map_coordinates` before truncation: the crop rectangle [lo, hi] of the
   * camera image is stretched onto [0, screen], without clamping.
   */
  function MapAxis(c: real, lo: real, hi: real, screen: real): real
    requires hi != lo
  {
    (c - lo) / (hi - lo) * screen
  }

  /** The rectangle's edges land on the screen's edges. */
  lemma MapAxisCorners(lo: real, hi: real, screen: real)
    requires hi != lo
    ensures MapAxis(lo, lo, hi, screen) == 0.0
    ensures MapAxis(hi, lo, hi, screen) == screen
  {
    assert (hi - lo) / (hi - lo) == 1.0;
  }

  /**
   * With a proper rectangle and screen the mapping is strictly increasing, and points
   * outside the rectangle map outside the screen (nothing is clamped).
   */
  lemma MapAxisMonotone(c1: real, c2: real, lo: real, hi: real, screen: real)
    requires lo < hi && 0.0 < screen
    ensures c1 < c2 ==> MapAxis(c1, lo, hi, screen) < MapAxis(c2, lo, hi, screen)
    ensures c1 < lo ==> MapAxis(c1, lo, hi, screen) < 0.0
    ensures c1 > hi ==> MapAxis(c1, lo, hi, screen) > screen
  {
    var w := hi - lo;
    if c1 < c2 {
      DivStrict(c1 - lo, c2 - lo, w);
      assert (c2 - lo) / w * screen - (c1 - lo) / w * screen == ((c2 - lo) / w - (c1 - lo) / w) * screen;
    }
    if c1 < lo {
      DivStrict(c1 - lo, 0.0, w);
    }
    if c1 > hi {
      DivStrict(w, c1 - lo, w);
      assert w / w == 1.0;
      assert (c1 - lo) / w * screen - screen == ((c1 - lo) / w - 1.0) * screen;
    }
  }

  // ----- dynamic EMA -----

  /** `normalized_speed`: the speed's position between SPEED_MIN and SPEED_MAX, clamped to [0, 1]. */
  function NormalizedSpeed(speedMin: real, speedMax: real, speed: real): (n: real)
    requires speedMin != speedMax
    ensures 0.0 <= n <= 1.0
  {
    MaxReal(0.0, MinReal(1.0, (speed - speedMin) / (speedMax - speedMin)))
  }

  /** Below SPEED_MIN the normalized speed is 0, above SPEED_MAX it is 1, in between it is linear. */
  lemma NormalizedSpeedEnds(speedMin: real, speedMax: real, speed: real)
    requires speedMin < speedMax
    ensures speed <= speedMin ==> NormalizedSpeed(speedMin, speedMax, speed) == 0.0
    ensures speed >= speedMax ==> NormalizedSpeed(speedMin, speedMax, speed) == 1.0
    ensures speedMin <= speed <= speedMax ==>
      NormalizedSpeed(speedMin, speedMax, speed) == (speed - speedMin) / (speedMax - speedMin)
  {
    var d := speedMax - speedMin;
    assert d / d == 1.0;
    if speed <= speedMin {
      DivMono(speed - speedMin, 0.0, d);
    }
    if speed >= speedMax {
      DivMono(d, speed - speedMin, d);
    }
    if speedMin <= speed <= speedMax {
      DivMono(0.0, speed - speedMin, d);
      DivMono(speed - speedMin, d, d);
    }
  }

  /** The logistic curve on the raw speed. */
  function Sigmoid(exp: real -> real, k: real, x0: real, speed: real): real
    requires ExpPositive(exp)
  {
    var e := exp(-k * (speed - x0));
    assert 0.0 < e;
    1.0 / (1.0 + e)
  }

  /** `ema_normalized` for the configured function name; an unknown name behaves as 'linear'. */
  function Curve(fn: string, t: Tuning, exp: real -> real, speed: real): real
    requires t.speedMin != t.speedMax && ExpPositive(exp)
  {
    var n := NormalizedSpeed(t.speedMin, t.speedMax, speed);
    if fn == "linear" then n
    else if fn == "exponential" then n * n
    else if fn == "sigmoid" then Sigmoid(exp, t.sigmoidSteepness, t.sigmoidMidpoint, speed)
    else n
  }

  /** `lo + (hi - lo) * v`, the point a fraction v of the way from lo to hi. */
  function Lerp(lo: real, hi: real, v: real): real
  {
    lo + v * (hi - lo)
  }

  /** The alpha interpolated between EMA_MIN and EMA_MAX, then clamped. */
  function Alpha(lo: real, hi: real, v: real): real
  {
    MaxReal(lo, MinReal(hi, Lerp(lo, hi, v)))
  }

  /** Every curve value lies in [0, 1]; the sigmoid one strictly inside. */
  lemma CurveInUnitInterval(fn: string, t: Tuning, exp: real -> real, speed: real)
    requires t.speedMin != t.speedMax && ExpPositive(exp)
    ensures 0.0 <= Curve(fn, t, exp, speed) <= 1.0
    ensures fn == "sigmoid" ==> 0.0 < Curve(fn, t, exp, speed) < 1.0
  {
    var e := exp(-t.sigmoidSteepness * (speed - t.sigmoidMidpoint));
    assert 0.0 < e;
    RecipMono(1.0, 1.0 + e);
    assert 0.0 < 1.0 / (1.0 + e);
    assert 1.0 / (1.0 + e) != 1.0;
    var n := NormalizedSpeed(t.speedMin, t.speedMax, speed);
    MulBetween(n, n);
  }

  /** An unrecognized EMA_FUNCTION falls back to the linear curve. */
  lemma UnknownCurveIsLinear(fn: string, t: Tuning, exp: real -> real, speed: real)
    requires t.speedMin != t.speedMax && ExpPositive(exp)
    requires fn != "linear" && fn != "exponential" && fn != "sigmoid"
    ensures Curve(fn, t, exp, speed) == Curve("linear", t, exp, speed)
  {
  }

  /** With EMA_MIN <= EMA_MAX the alpha stays in [EMA_MIN, EMA_MAX]; for v in [0, 1] the clamp changes nothing. */
  lemma AlphaWithinBounds(lo: real, hi: real, v: real)
    requires lo <= hi
    ensures lo <= Alpha(lo, hi, v) <= hi
    ensures 0.0 <= v <= 1.0 ==> Alpha(lo, hi, v) == lo + (hi - lo) * v
  {
    ClampBetween(lo, hi, Lerp(lo, hi, v));
    if 0.0 <= v <= 1.0 {
      LerpBetween(lo, hi, v);
    }
  }

  /** For v in [0, 1] the interpolation stays between its ends. */
  lemma LerpBetween(lo: real, hi: real, v: real)
    requires lo <= hi && 0.0 <= v <= 1.0
    ensures lo <= Lerp(lo, hi, v) <= hi
  {
    var d := hi - lo;
    MulBetween(v, d);
    assert Lerp(lo, hi, v) == lo + v * d;
  }

  /** Clamping into [lo, hi] lands in the interval and keeps values already inside it. */
  lemma ClampBetween(lo: real, hi: real, x: real)
    requires lo <= hi
    ensures lo <= MaxReal(lo, MinReal(hi, x)) <= hi
    ensures lo <= x <= hi ==> MaxReal(lo, MinReal(hi, x)) == x
  {
  }

  /** A larger curve value never gives a smaller alpha. */
  lemma AlphaMonotone(lo: real, hi: real, v1: real, v2: real)
    requires lo <= hi && v1 <= v2
    ensures Alpha(lo, hi, v1) <= Alpha(lo, hi, v2)
  {
    MulMono(v1, v2, hi - lo);
    assert (hi - lo) * v1 == v1 * (hi - lo);
    assert (hi - lo) * v2 == v2 * (hi - lo);
    var x1 := lo + (hi - lo) * v1;
    var x2 := lo + (hi - lo) * v2;
    assert x1 <= x2;
    assert MinReal(hi, x1) <= MinReal(hi, x2);
  }

  /**
   * Faster hands get a larger alpha (less smoothing): every curve is non-decreasing in
   * the speed (the sigmoid for a non-negative steepness).
   */
  lemma CurveMonotone(fn: string, t: Tuning, exp: real -> real, s1: real, s2: real)
    requires t.speedMin < t.speedMax && ExpPositive(exp) && ExpIncreasing(exp) && s1 <= s2
    requires fn == "sigmoid" ==> 0.0 <= t.sigmoidSteepness
    ensures Curve(fn, t, exp, s1) <= Curve(fn, t, exp, s2)
  {
    var n1 := NormalizedSpeed(t.speedMin, t.speedMax, s1);
    var n2 := NormalizedSpeed(t.speedMin, t.speedMax, s2);
    NormalizedMonotone(t.speedMin, t.speedMax, s1, s2);
    if fn == "sigmoid" {
      SigmoidMonotone(exp, t.sigmoidSteepness, t.sigmoidMidpoint, s1, s2);
    } else if fn == "exponential" {
      SquareMono(n1, n2);
    }
  }

  /** The normalized speed never decreases with the speed. */
  lemma NormalizedMonotone(speedMin: real, speedMax: real, s1: real, s2: real)
    requires speedMin < speedMax && s1 <= s2
    ensures 0.0 <= NormalizedSpeed(speedMin, speedMax, s1) <= NormalizedSpeed(speedMin, speedMax, s2)
  {
    DivMono(s1 - speedMin, s2 - speedMin, speedMax - speedMin);
  }

  /** The logistic curve with a non-negative steepness never decreases with the speed. */
  lemma SigmoidMonotone(exp: real -> real, k: real, x0: real, s1: real, s2: real)
    requires ExpPositive(exp) && ExpIncreasing(exp) && 0.0 <= k && s1 <= s2
    ensures Sigmoid(exp, k, x0, s1) <= Sigmoid(exp, k, x0, s2)
  {
    var a1 := -k * (s1 - x0);
    var a2 := -k * (s2 - x0);
    assert a2 <= a1 by {
      MulMono(s1 - x0, s2 - x0, k);
    }
    var e1 := exp(a1);
    var e2 := exp(a2);
    assert 0.0 < e2 <= e1;
    RecipMono(1.0 + e2, 1.0 + e1);
  }

  /** The EMA update: `alpha * raw + (1 - alpha) * previous`. */
  function Blend(alpha: real, raw: real, previous: real): real
  {
    alpha * raw + (1.0 - alpha) * previous
  }

  /** The EMA after one `smooth_coordinates` step on (x, y) with weight alpha: the point itself at first, then a blend. */
  function Smoothed(alpha: real, previous: Option<(real, real)>, x: int, y: int): (real, real)
  {
    if previous.None? then (x as real, y as real)
    else (Blend(alpha, x as real, previous.value.0), Blend(alpha, y as real, previous.value.1))
  }

  /** With an alpha from [0, 1], each smoothed coordinate lies between the previous EMA and the new point. */
  lemma SmoothedBetween(alpha: real, previous: (real, real), x: int, y: int)
    requires 0.0 <= alpha <= 1.0
    ensures var e := Smoothed(alpha, Some(previous), x, y);
      MinReal(x as real, previous.0) <= e.0 <= MaxReal(x as real, previous.0) &&
      MinReal(y as real, previous.1) <= e.1 <= MaxReal(y as real, previous.1)
  {
    BlendBetween(alpha, x as real, previous.0);
    BlendBetween(alpha, y as real, previous.1);
  }

  /**
   * For alpha in [0, 1] the smoothed value lies between the previous value and the raw
   * one, and its gap to the raw value shrinks by the factor 1 - alpha.
   */
  lemma BlendBetween(alpha: real, raw: real, previous: real)
    requires 0.0 <= alpha <= 1.0
    ensures raw <= previous ==> raw <= Blend(alpha, raw, previous) <= previous
    ensures previous <= raw ==> previous <= Blend(alpha, raw, previous) <= raw
    ensures Blend(alpha, raw, previous) - raw == (1.0 - alpha) * (previous - raw)
  {
    var g := 1.0 - alpha;
    var d := previous - raw;
    calc {
      Blend(alpha, raw, previous);
      alpha * raw + g * (raw + d);
      { Distribute(g, raw, d); }
      alpha * raw + g * raw + g * d;
      { Distribute(raw, alpha, g); }
      (alpha + g) * raw + g * d;
      raw + g * d;
    }
    if raw <= previous {
      MulBetween(g, d);
    } else {
      MulBetween(g, -d);
      Distribute(g, d, -d);
    }
  }

  // ----- scrolling -----

  datatype ScrollOutcome = CoolingDown | Seeded | BelowThreshold | TooSmall | Scrolled(amount: int)

  /** The wheel event a scroll decision sends: one `Wheel` by the amount when it scrolls, else none. */
  function WheelEvents(o: ScrollOutcome): (r: seq<MouseAction>)
    ensures forall i :: 0 <= i < |r| ==> r[i].Wheel?
  {
    if o.Scrolled? then [Wheel(o.amount)] else []
  }

  /**
   * `int(y_diff / SCROLL_SENSITIVITY)`: the quotient truncated toward zero, written as
   * integer division of the magnitudes with the quotient's sign.
   */
  function ScrollAmount(diff: int, sensitivity: int): int
    requires sensitivity != 0
  {
    var q := Abs(diff) / Abs(sensitivity);
    if (diff >= 0) == (sensitivity > 0) then q else -q
  }

  /** The branch `scroll` takes for hand position `y`. */
  function ScrollDecision(now: real, lastScrollTime: real, cooldown: real, prev: Option<int>, y: int,
                          threshold: int, sensitivity: int): ScrollOutcome
    requires sensitivity != 0
  {
    if now - lastScrollTime < cooldown then CoolingDown
    else if prev.None? then Seeded
    else
      var diff := prev.value - y;
      if Abs(diff) < threshold then BelowThreshold
      else
        var amount := ScrollAmount(diff, sensitivity);
        if amount != 0 then Scrolled(amount) else TooSmall
  }

  /** One wheel notch per full sensitivity step, with the sign of the quotient. */
  lemma ScrollAmountBound(diff: int, sensitivity: int)
    requires sensitivity != 0
    ensures var a := ScrollAmount(diff, sensitivity);
      a != 0 ==>
        Abs(sensitivity) <= Abs(diff) && (a > 0 <==> (diff > 0) == (sensitivity > 0)) &&
        Abs(a) * Abs(sensitivity) <= Abs(diff)
    ensures ScrollAmount(diff, sensitivity) == TruncReal(diff as real / sensitivity as real)
  {
    NatDiv(Abs(diff), Abs(sensitivity));
    ScrollAmountTruncates(diff, sensitivity);
  }

  /** `ScrollAmount` is Python's `int` of the real quotient. */
  lemma ScrollAmountTruncates(diff: int, sensitivity: int)
    requires sensitivity != 0
    ensures ScrollAmount(diff, sensitivity) == TruncReal(diff as real / sensitivity as real)
  {
    var q := Abs(diff) / Abs(sensitivity);
    var x := Abs(diff) as real / Abs(sensitivity) as real;
    NatDivIsFloor(Abs(diff), Abs(sensitivity));
    QuotientSigns(Abs(diff) as real, Abs(sensitivity) as real);
    var r := diff as real / sensitivity as real;
    if (diff >= 0) == (sensitivity > 0) {
      assert r == x;
    } else {
      assert r == -x;
      if x == 0.0 {
        assert q == 0;
      }
    }
  }

  /**
   * A scroll happens only outside the cooldown, from a remembered position, after a
   * movement of at least SCROLL_THRESHOLD and at least one sensitivity step; the wheel
   * turns up (positive) exactly when the hand moved up (for a positive sensitivity), by
   * at most |diff| / |sensitivity| notches.
   */
  lemma ScrollDecisionSpec(now: real, last: real, cooldown: real, prev: Option<int>, y: int,
                           threshold: int, sensitivity: int)
    requires sensitivity != 0
    ensures var o := ScrollDecision(now, last, cooldown, prev, y, threshold, sensitivity);
      o.Scrolled? ==>
        now - last >= cooldown && prev.Some? &&
        Abs(prev.value - y) >= threshold && Abs(prev.value - y) >= Abs(sensitivity) &&
        o.amount != 0 &&
        (o.amount > 0 <==> (prev.value - y > 0) == (sensitivity > 0)) &&
        Abs(o.amount) * Abs(sensitivity) <= Abs(prev.value - y)
  {
    if prev.Some? {
      ScrollAmountBound(prev.value - y, sensitivity);
    }
  }

  /** The controller's state and the trace of mouse actions it has emitted. */
  class Mouse {
    const screenWidth: int
    const screenHeight: int
    const cameraWidth: int
    const cameraHeight: int
    const speedMultiplier: real
    const smoothingFactor: int
    const sqrt: real -> real
    const exp: real -> real
    var emaMin: real
    var emaMax: real
    var emaFunction: string
    var smoothX: seq<int>
    var smoothY: seq<int>
    var ema: Option<(real, real)>
    var emaAlpha: real
    var prevScreen: Option<(int, int)>
    var currentSpeed: real
    var lastClickTime: real
    var clickCooldown: real
    var leftPressed: bool
    var rightPressed: bool
    var lastScrollTime: real
    const scrollCooldown: real
    var prevScrollY: Option<int>
    var actions: seq<MouseAction>

    /** The math oracles behave as `math.sqrt` and `math.exp` (they are constants, so nothing is read). */
    ghost predicate Valid()
    {
      SqrtOracle(sqrt) && ExpPositive(exp) && ExpIncreasing(exp)
    }

    /**
     * `__init__`: screen size from the display, EMA bounds and function copied from Config,
     * alpha starting halfway between them, nothing tracked or held yet.
     */
    constructor (screenWidth: int, screenHeight: int, cameraWidth: int, cameraHeight: int,
                 smoothingFactor: int, speedMultiplier: real,
                 emaMin: real, emaMax: real, emaFunction: string,
                 sqrt: real -> real, exp: real -> real)
      requires SqrtOracle(sqrt) && ExpPositive(exp) && ExpIncreasing(exp)
      ensures Valid()
      ensures this.screenWidth == screenWidth && this.screenHeight == screenHeight
      ensures this.cameraWidth == cameraWidth && this.cameraHeight == cameraHeight
      ensures this.sqrt == sqrt && this.exp == exp
      ensures this.emaMin == emaMin && this.emaMax == emaMax && this.emaFunction == emaFunction
      ensures emaAlpha == (emaMin + emaMax) / 2.0
      ensures smoothX == [] && smoothY == [] && ema.None? && prevScreen.None? && currentSpeed == 0.0
      ensures lastClickTime == 0.0 && clickCooldown == 0.3 && !leftPressed && !rightPressed
      ensures lastScrollTime == 0.0 && scrollCooldown == 0.05 && prevScrollY.None? && actions == []
    {
      this.screenWidth := screenWidth;
      this.screenHeight := screenHeight;
      this.cameraWidth := cameraWidth;
      this.cameraHeight := cameraHeight;
      this.speedMultiplier := speedMultiplier;
      this.smoothingFactor := smoothingFactor;
      this.sqrt := sqrt;
      this.exp := exp;
      this.emaMin := emaMin;
      this.emaMax := emaMax;
      this.emaFunction := emaFunction;
      smoothX := [];
      smoothY := [];
      ema := None;
      emaAlpha := (emaMin + emaMax) / 2.0;
      prevScreen := None;
      currentSpeed := 0.0;
      lastClickTime := 0.0;
      clickCooldown := 0.3;
      leftPressed := false;
      rightPressed := false;
      lastScrollTime := 0.0;
      scrollCooldown := 0.05;
      prevScrollY := None;
      actions := [];
    }

    /** The active rectangle's horizontal edges in camera pixels. */
    function RectX(t: Tuning): (real, real)
    {
      ((cameraWidth as real) * t.cropLeft, (cameraWidth as real) * (1.0 - t.cropRight))
    }

    /** The active rectangle's vertical edges in camera pixels. */
    function RectY(t: Tuning): (real, real)
    {
      ((cameraHeight as real) * t.cropTop, (cameraHeight as real) * (1.0 - t.cropBottom))
    }

    /** The rectangle is not degenerate on either axis (otherwise the source divides by zero). */
    predicate MapDefined(t: Tuning)
    {
      RectX(t).0 != RectX(t).1 && RectY(t).0 != RectY(t).1
    }

    /** `map_coordinates`, with the crop fractions read from Config at the time of the call. */
    function MapCoordinates(t: Tuning, cameraX: int, cameraY: int): (int, int)
      requires MapDefined(t)
    {
      (TruncReal(MapAxis(cameraX as real, RectX(t).0, RectX(t).1, screenWidth as real)),
       TruncReal(MapAxis(cameraY as real, RectY(t).0, RectY(t).1, screenHeight as real)))
    }

    /** The speed `calculate_speed` reports for a move to (x, y) from `prev`. */
    function SpeedFrom(prev: Option<(int, int)>, x: int, y: int): real
    {
      if prev.None? then 0.0
      else sqrt(((x - prev.value.0) * (x - prev.value.0) + (y - prev.value.1) * (y - prev.value.1)) as real)
    }

    /** `calculate_speed`: the Euclidean distance from the last position (0 on the first call). */
    method CalculateSpeed(x: int, y: int) returns (speed: real)
      requires Valid()
      modifies this`prevScreen
      ensures prevScreen == Some((x, y))
      ensures speed == SpeedFrom(old(prevScreen), x, y)
      ensures 0.0 <= speed
      ensures old(prevScreen).Some? ==>
        speed * speed == ((x - old(prevScreen).value.0) * (x - old(prevScreen).value.0)
                          + (y - old(prevScreen).value.1) * (y - old(prevScreen).value.1)) as real
    {
      if prevScreen.None? {
        prevScreen := Some((x, y));
        return 0.0;
      }
      var dx := x - prevScreen.value.0;
      var dy := y - prevScreen.value.1;
      speed := sqrt((dx * dx + dy * dy) as real);
      prevScreen := Some((x, y));
    }

    /** `update_dynamic_ema`: alpha from the speed curve, and the smoothed speed estimate. */
    method UpdateDynamicEma(t: Tuning, speed: real)
      requires ExpPositive(exp) && t.speedMin != t.speedMax
      modifies this`emaAlpha, this`currentSpeed
      ensures emaAlpha == Alpha(emaMin, emaMax, Curve(emaFunction, t, exp, speed))
      ensures emaMin <= emaAlpha && (emaMin <= emaMax ==> emaAlpha <= emaMax)
      ensures currentSpeed == 0.3 * speed + 0.7 * old(currentSpeed)
    {
      var normalized := NormalizedSpeed(t.speedMin, t.speedMax, speed);
      var v: real;
      if emaFunction == "linear" {
        v := normalized;
      } else if emaFunction == "exponential" {
        v := normalized * normalized;
      } else if emaFunction == "sigmoid" {
        v := Sigmoid(exp, t.sigmoidSteepness, t.sigmoidMidpoint, speed);
      } else {
        v := normalized;
      }
      assert v == Curve(emaFunction, t, exp, speed);
      emaAlpha := Alpha(emaMin, emaMax, v);
      currentSpeed := 0.3 * speed + 0.7 * currentSpeed;
    }

    /** `smooth_coordinates`: the first point is taken as is, later ones are blended in. */
    method SmoothCoordinates(t: Tuning, x: int, y: int) returns (sx: int, sy: int)
      requires Valid() && t.speedMin != t.speedMax
      modifies this`prevScreen, this`emaAlpha, this`currentSpeed, this`ema
      ensures prevScreen == Some((x, y))
      ensures emaAlpha == Alpha(emaMin, emaMax, Curve(emaFunction, t, exp, SpeedFrom(old(prevScreen), x, y)))
      ensures currentSpeed == 0.3 * SpeedFrom(old(prevScreen), x, y) + 0.7 * old(currentSpeed)
      ensures old(ema).None? ==> ema == Some((x as real, y as real)) && sx == x && sy == y
      ensures old(ema).Some? ==>
        ema == Some((Blend(emaAlpha, x as real, old(ema).value.0), Blend(emaAlpha, y as real, old(ema).value.1)))
        && sx == TruncReal(ema.value.0) && sy == TruncReal(ema.value.1)
    {
      var speed := CalculateSpeed(x, y);
      UpdateDynamicEma(t, speed);
      if ema.None? {
        ema := Some((x as real, y as real));
        return x, y;
      }
      var ex := Blend(emaAlpha, x as real, ema.value.0);
      var ey := Blend(emaAlpha, y as real, ema.value.1);
      ema := Some((ex, ey));
      sx := TruncReal(ex);
      sy := TruncReal(ey);
    }

    /** `move_mouse`: map, smooth, and move the cursor to the smoothed point. */
    method MoveMouse(t: Tuning, cameraX: int, cameraY: int)
      requires Valid() && t.speedMin != t.speedMax && MapDefined(t)
      modifies this`prevScreen, this`emaAlpha, this`currentSpeed, this`ema, this`actions
      ensures var m := MapCoordinates(t, cameraX, cameraY);
        prevScreen == Some(m) &&
        emaAlpha == Alpha(emaMin, emaMax, Curve(emaFunction, t, exp, SpeedFrom(old(prevScreen), m.0, m.1))) &&
        currentSpeed == 0.3 * SpeedFrom(old(prevScreen), m.0, m.1) + 0.7 * old(currentSpeed)
      ensures var m := MapCoordinates(t, cameraX, cameraY);
        ema == Some(Smoothed(emaAlpha, old(ema), m.0, m.1))
      ensures actions == old(actions) + [MoveTo(TruncReal(ema.value.0), TruncReal(ema.value.1))]
    {
      var (mx, my) := MapCoordinates(t, cameraX, cameraY);
      var sx, sy := SmoothCoordinates(t, mx, my);
      actions := actions + [MoveTo(sx, sy)];
    }

    /** `left_press`: presses only when not already held. */
    method LeftPress() returns (ok: bool)
      modifies this`leftPressed, this`actions
      ensures ok == !old(leftPressed) && leftPressed
      ensures actions == old(actions) + (if ok then [Press(Left)] else [])
    {
      if leftPressed {
        return false;
      }
      actions := actions + [Press(Left)];
      leftPressed := true;
      return true;
    }

    /** `left_release`: releases only when held. */
    method LeftRelease() returns (ok: bool)
      modifies this`leftPressed, this`actions
      ensures ok == old(leftPressed) && !leftPressed
      ensures actions == old(actions) + (if ok then [Release(Left)] else [])
    {
      if !leftPressed {
        return false;
      }
      actions := actions + [Release(Left)];
      leftPressed := false;
      return true;
    }

    /** `right_press`: presses only when not already held. */
    method RightPress() returns (ok: bool)
      modifies this`rightPressed, this`actions
      ensures ok == !old(rightPressed) && rightPressed
      ensures actions == old(actions) + (if ok then [Press(Right)] else [])
    {
      if rightPressed {
        return false;
      }
      actions := actions + [Press(Right)];
      rightPressed := true;
      return true;
    }

    /** `right_release`: releases only when held. */
    method RightRelease() returns (ok: bool)
      modifies this`rightPressed, this`actions
      ensures ok == old(rightPressed) && !rightPressed
      ensures actions == old(actions) + (if ok then [Release(Right)] else [])
    {
      if !rightPressed {
        return false;
      }
      actions := actions + [Release(Right)];
      rightPressed := false;
      return true;
    }

    /** `scroll`: SCROLL_THRESHOLD and SCROLL_SENSITIVITY are read from Config at the time of the call. */
    method Scroll(t: Tuning, now: real, y: int) returns (ok: bool)
      requires t.scrollSensitivity != 0
      modifies this`prevScrollY, this`lastScrollTime, this`actions
      ensures var o := ScrollDecision(now, old(lastScrollTime), scrollCooldown, old(prevScrollY), y,
                                      t.scrollThreshold, t.scrollSensitivity);
        ok == o.Scrolled? &&
        prevScrollY == (if o.Seeded? || o.Scrolled? then Some(y) else old(prevScrollY)) &&
        lastScrollTime == (if o.Scrolled? then now else old(lastScrollTime)) &&
        actions == old(actions) + WheelEvents(o)
    {
      if now - lastScrollTime < scrollCooldown {
        return false;
      }
      if prevScrollY.None? {
        prevScrollY := Some(y);
        return false;
      }
      var diff := prevScrollY.value - y;
      if Abs(diff) < t.scrollThreshold {
        return false;
      }
      var amount := ScrollAmount(diff, t.scrollSensitivity);
      if amount != 0 {
        actions := actions + [Wheel(amount)];
        prevScrollY := Some(y);
        lastScrollTime := now;
        return true;
      }
      return false;
    }

    /** `reset_scroll`. */
    method ResetScroll()
      modifies this`prevScrollY
      ensures prevScrollY.None?
    {
      prevScrollY := None;
    }

    /** `double_click`: refused within `click_cooldown` of the previous click. */
    method DoubleClick(now: real) returns (ok: bool)
      modifies this`lastClickTime, this`actions
      ensures ok == (now - old(lastClickTime) >= clickCooldown)
      ensures lastClickTime == (if ok then now else old(lastClickTime))
      ensures actions == old(actions) + (if ok then [DoubleClickAction] else [])
    {
      if now - lastClickTime < clickCooldown {
        return false;
      }
      actions := actions + [DoubleClickAction];
      lastClickTime := now;
      return true;
    }

    /** `reset_smoothing`: clears only the two coordinate buffers; the EMA and speed tracking survive. */
    method ResetSmoothing()
      modifies this`smoothX, this`smoothY
      ensures smoothX == [] && smoothY == []
    {
      smoothX := [];
      smoothY := [];
    }

    /** `set_click_cooldown`: never below 0.1 s. */
    method SetClickCooldown(cooldown: real)
      modifies this`clickCooldown
      ensures clickCooldown == MaxReal(0.1, cooldown)
      ensures clickCooldown >= 0.1 && (cooldown >= 0.1 ==> clickCooldown == cooldown)
    {
      clickCooldown := MaxReal(0.1, cooldown);
    }
  }

  /**
   * With the default 640x480 camera and 35% crops, camera pixel (224, 168) is the
   * screen's top-left corner and (416, 312) its bottom-right corner.
   */
  lemma DefaultCropCorners(m: Mouse)
    requires m.cameraWidth == CAMERA_WIDTH && m.cameraHeight == CAMERA_HEIGHT
    ensures m.MapDefined(DefaultTuning)
    ensures m.MapCoordinates(DefaultTuning, 224, 168) == (0, 0)
    ensures m.MapCoordinates(DefaultTuning, 416, 312) == (m.screenWidth, m.screenHeight)
  {
    var t := DefaultTuning;
    var w := m.screenWidth as real;
    var h := m.screenHeight as real;
    assert m.RectX(t) == (224.0, 416.0);
    assert m.RectY(t) == (168.0, 312.0);
    MapAxisCorners(224.0, 416.0, w);
    MapAxisCorners(168.0, 312.0, h);
    assert MapAxis(416 as real, m.RectX(t).0, m.RectX(t).1, w) == w;
    assert MapAxis(312 as real, m.RectY(t).0, m.RectY(t).1, h) == h;
    TruncOfInteger(m.screenWidth);
    TruncOfInteger(m.screenHeight);
    TruncOfInteger(0);
  }
}
