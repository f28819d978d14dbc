/**
 * The Config class of HandMouse: a table of class attributes holding every tunable
 * default, overwritten at import time by the known keys of settings.json.
 */
module Config {
  import opened Numeric

  /**
   * A value held by a Config attribute or read from settings.json.
   * Floats are carried as the decimal text Python prints for them.
   */
  datatype Value =
    | NoneVal
    | BoolVal(b: bool)
    | IntVal(i: int)
    | FloatVal(repr: string)
    | StrVal(s: string)
    | TupleVal(items: seq<int>)

  // ----- typed defaults (the numeric ones the rest of the model computes with) -----

  const CAMERA_INDEX: int := 0
  const CAMERA_WIDTH: int := 640
  const CAMERA_HEIGHT: int := 480
  const CAMERA_FPS: int := 60
  const MAX_HANDS: int := 2
  const MOUSE_SMOOTHING: int := 2
  const EMA_MIN: real := 0.010000000000000009
  const EMA_MAX: real := 0.6000000000000001
  const SPEED_MIN: real := 10.0
  const SPEED_MAX: real := 350.0
  const EMA_FUNCTION: string := "sigmoid"
  const SIGMOID_STEEPNESS: real := 0.05
  const SIGMOID_MIDPOINT: real := 60.0
  const CAMERA_CROP_LEFT: real := 0.35
  const CAMERA_CROP_RIGHT: real := 0.35
  const CAMERA_CROP_TOP: real := 0.35
  const CAMERA_CROP_BOTTOM: real := 0.35
  const PINCH_THRESHOLD: int := 20
  const STABLE_FRAMES: nat := 10
  const SCROLL_SENSITIVITY: int := 20
  const SCROLL_THRESHOLD: int := 15
  const SCROLL_COOLDOWN: real := 0.05
  const VOLUME_STEP: int := 4
  const SPEECH_MICROPHONE_INDEX: int := 3

  // MediaPipe landmark indices
  const THUMB_TIP: nat := 4
  const INDEX_TIP: nat := 8
  const MIDDLE_TIP: nat := 12
  const RING_TIP: nat := 16
  const PINKY_TIP: nat := 20
  const WRIST: nat := 0
  const PALM_CENTER: nat := 9

  /** The attribute table of the Config class as declared. */
  function Defaults(): map<string, Value>
  {
    map[
      "DEBUG_MODE" := BoolVal(false),
      "CAMERA_INDEX" := IntVal(CAMERA_INDEX),
      "CAMERA_WIDTH" := IntVal(CAMERA_WIDTH),
      "CAMERA_HEIGHT" := IntVal(CAMERA_HEIGHT),
      "CAMERA_FPS" := IntVal(CAMERA_FPS),
      "DETECTION_CONFIDENCE" := FloatVal("0.5"),
      "TRACKING_CONFIDENCE" := FloatVal("0.5"),
      "MAX_HANDS" := IntVal(MAX_HANDS),
      "MOUSE_SMOOTHING" := IntVal(MOUSE_SMOOTHING),
      "MOUSE_SPEED" := FloatVal("3.0"),
      "SCREEN_MARGIN" := IntVal(100),
      "EMA_MIN" := FloatVal("0.010000000000000009"),
      "EMA_MAX" := FloatVal("0.6000000000000001"),
      "SPEED_MIN" := IntVal(10),
      "SPEED_MAX" := IntVal(350),
      "EMA_FUNCTION" := StrVal(EMA_FUNCTION),
      "SIGMOID_STEEPNESS" := FloatVal("0.05"),
      "SIGMOID_MIDPOINT" := IntVal(60),
      "CAMERA_CROP_LEFT" := FloatVal("0.35"),
      "CAMERA_CROP_RIGHT" := FloatVal("0.35"),
      "CAMERA_CROP_TOP" := FloatVal("0.35"),
      "CAMERA_CROP_BOTTOM" := FloatVal("0.35"),
      "PINCH_THRESHOLD" := IntVal(PINCH_THRESHOLD),
      "GESTURE_COOLDOWN" := FloatVal("0.5"),
      "STABLE_FRAMES" := IntVal(STABLE_FRAMES),
      "SCROLL_SENSITIVITY" := IntVal(SCROLL_SENSITIVITY),
      "SCROLL_THRESHOLD" := IntVal(SCROLL_THRESHOLD),
      "SCROLL_COOLDOWN" := FloatVal("0.05"),
      "VOLUME_STEP" := IntVal(VOLUME_STEP),
      "VOLUME_COOLDOWN" := FloatVal("0.2"),
      "SPEECH_ENABLED" := BoolVal(true),
      "SPEECH_LANGUAGE" := StrVal("tr-TR"),
      "SPEECH_MICROPHONE_INDEX" := IntVal(SPEECH_MICROPHONE_INDEX),
      "SPEECH_AUTO_START" := BoolVal(true),
      "SPEECH_AUTO_WRITE" := BoolVal(true),
      "SPEECH_TIMEOUT" := IntVal(5),
      "SPEECH_AUTO_ENTER" := BoolVal(false),
      "SHOW_FPS" := BoolVal(true),
      "SHOW_LANDMARKS" := BoolVal(true),
      "SHOW_GESTURE_TEXT" := BoolVal(true),
      "FLIP_CAMERA" := BoolVal(true),
      "COLOR_HAND_LANDMARKS" := TupleVal([0, 255, 0]),
      "COLOR_HAND_CONNECTIONS" := TupleVal([255, 0, 0]),
      "COLOR_GESTURE_TEXT" := TupleVal([0, 255, 255]),
      "COLOR_FPS_TEXT" := TupleVal([255, 255, 255]),
      "COLOR_STATUS_TEXT" := TupleVal([0, 165, 255]),
      "THUMB_TIP" := IntVal(THUMB_TIP),
      "INDEX_TIP" := IntVal(INDEX_TIP),
      "MIDDLE_TIP" := IntVal(MIDDLE_TIP),
      "RING_TIP" := IntVal(RING_TIP),
      "PINKY_TIP" := IntVal(PINKY_TIP),
      "WRIST" := IntVal(WRIST),
      "PALM_CENTER" := IntVal(PALM_CENTER)
    ]
  }

  /**
   * The Config attributes the mouse and volume controllers read at the moment they act
   * (rather than copying them at construction), as the numbers they compute with.
   */
  datatype Tuning = Tuning(
    cropLeft: real, cropRight: real, cropTop: real, cropBottom: real,
    speedMin: real, speedMax: real,
    sigmoidSteepness: real, sigmoidMidpoint: real,
    scrollThreshold: int, scrollSensitivity: int,
    volumeStep: int)

  /**
   * What the controllers need of these attributes to run without a ZeroDivisionError:
   * a crop that leaves a non-empty active rectangle, distinct speed bounds and a
   * non-zero scroll sensitivity.
   */
  predicate ValidTuning(t: Tuning)
  {
    t.cropLeft + t.cropRight != 1.0 && t.cropTop + t.cropBottom != 1.0
    && t.speedMin != t.speedMax && t.scrollSensitivity != 0
  }

  const DefaultTuning: Tuning := Tuning(
    CAMERA_CROP_LEFT, CAMERA_CROP_RIGHT, CAMERA_CROP_TOP, CAMERA_CROP_BOTTOM,
    SPEED_MIN, SPEED_MAX, SIGMOID_STEEPNESS, SIGMOID_MIDPOINT,
    SCROLL_THRESHOLD, SCROLL_SENSITIVITY, VOLUME_STEP)

  lemma DefaultsAreConsistent()
    ensures ValidTuning(DefaultTuning)
    ensures EMA_MIN < EMA_MAX && SPEED_MIN < SPEED_MAX
    ensures 0.01 <= CAMERA_CROP_LEFT <= 0.49 && 0.01 <= CAMERA_CROP_RIGHT <= 0.49
    ensures 0.01 <= CAMERA_CROP_TOP <= 0.49 && 0.01 <= CAMERA_CROP_BOTTOM <= 0.49
    ensures CAMERA_CROP_LEFT + CAMERA_CROP_RIGHT < 1.0 && CAMERA_CROP_TOP + CAMERA_CROP_BOTTOM < 1.0
  {
  }

  // ----- loading settings.json -----

  /** What reading settings.json produced: no file, a read or parse failure, or its key/value pairs in order. */
  datatype SettingsFile = Missing | Unreadable | Parsed(items: seq<(string, Value)>)

  /**
   * Applying the pairs in order, each one only when Config already has that attribute
   * (`hasattr` before `setattr`).
   */
  function Merge(attrs: map<string, Value>, items: seq<(string, Value)>): map<string, Value>
    decreases |items|
  {
    if |items| == 0 then attrs
    else
      var m := Merge(attrs, items[..|items| - 1]);
      var kv := items[|items| - 1];
      if kv.0 in m then m[kv.0 := kv.1] else m
  }

  /** The merge never adds or removes an attribute: unknown keys are ignored. */
  lemma {:induction false} MergeKeepsAttributeSet(attrs: map<string, Value>, items: seq<(string, Value)>)
    ensures Merge(attrs, items).Keys == attrs.Keys
    decreases |items|
  {
    if |items| > 0 {
      MergeKeepsAttributeSet(attrs, items[..|items| - 1]);
    }
  }

  /** An attribute no pair names keeps its value. */
  lemma {:induction false} MergeKeepsUnnamed(attrs: map<string, Value>, items: seq<(string, Value)>, k: string)
    requires k in attrs
    requires forall i :: 0 <= i < |items| ==> items[i].0 != k
    ensures k in Merge(attrs, items) && Merge(attrs, items)[k] == attrs[k]
    decreases |items|
  {
    if |items| > 0 {
      MergeKeepsUnnamed(attrs, items[..|items| - 1], k);
    }
  }

  /** A known attribute named by some pair ends with the value of the last pair naming it. */
  lemma {:induction false} MergeLastWins(attrs: map<string, Value>, items: seq<(string, Value)>, j: nat)
    requires j < |items| && items[j].0 in attrs
    requires forall i :: j < i < |items| ==> items[i].0 != items[j].0
    ensures items[j].0 in Merge(attrs, items) && Merge(attrs, items)[items[j].0] == items[j].1
    decreases |items|
  {
    var n := |items|;
    var prefix := items[..n - 1];
    MergeKeepsAttributeSet(attrs, prefix);
    if j < n - 1 {
      MergeLastWins(attrs, prefix, j);
    }
  }

  /** The attribute table of the Config class, which the application mutates in place. */
  class Settings {
    var attrs: map<string, Value>

    constructor ()
      ensures attrs == Defaults()
    {
      attrs := Defaults();
    }

    /** `_load_settings_on_startup`: any failure leaves every attribute as it was. */
    method LoadSettingsOnStartup(file: SettingsFile)
      modifies this
      ensures file.Parsed? ==> attrs == Merge(old(attrs), file.items)
      ensures !file.Parsed? ==> attrs == old(attrs)
    {
      if file.Parsed? {
        var items := file.items;
        for i := 0 to |items|
          invariant attrs == Merge(old(attrs), items[..i])
        {
          assert items[..i + 1][..i] == items[..i];
          var kv := items[i];
          if kv.0 in attrs {
            attrs := attrs[kv.0 := kv.1];
          }
        }
        assert items[..|items|] == items;
      }
    }
  }
}
