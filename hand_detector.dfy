/**
 * HandDetector: keeps the hands MediaPipe reported for the last frame (normalized
 * landmarks and a Left/Right label per hand) and converts them into pixel points of the last image.
 * The MediaPipe inference itself is the `Detection` value handed to `FindHands`.
 */
module HandDetector {
  import opened Numeric
  import opened GestureRecognizer

  /** A landmark as MediaPipe reports it: coordinates normalized to the image size. */
  datatype RawLandmark = RawLandmark(x: real, y: real)

  /**
   * One inference result: the landmark list of each hand, and the handedness labels
   * (empty when MediaPipe gave no handedness).
   */
  datatype Detection = Detection(hands: seq<seq<RawLandmark>>, handedness: seq<string>)

  const UNKNOWN_LABEL: string := "Unknown"

  /** Every hand has a handedness entry, or there are none at all (otherwise the source raises IndexError). */
  predicate LabelsCover(d: Detection)
  {
    |d.handedness| == 0 || |d.handedness| >= |d.hands|
  }

  /** `n` copies of "Unknown". */
  function Unknowns(n: nat): (r: seq<string>)
    ensures |r| == n && forall i :: 0 <= i < n ==> r[i] == UNKNOWN_LABEL
  {
    if n == 0 then [] else Unknowns(n - 1) + [UNKNOWN_LABEL]
  }

  /** The label list `find_hands` records: one per hand. */
  function LabelsFor(d: Detection): (r: seq<string>)
    requires LabelsCover(d)
    ensures |r| == |d.hands|
    ensures |d.handedness| == 0 ==> forall i :: 0 <= i < |r| ==> r[i] == UNKNOWN_LABEL
    ensures |d.handedness| > 0 ==> forall i :: 0 <= i < |r| ==> r[i] == d.handedness[i]
  {
    if |d.handedness| == 0 then Unknowns(|d.hands|) else d.handedness[..|d.hands|]
  }

  /** Python indexing with a possibly negative index. */
  function PyIndex(i: int, n: nat): (k: nat)
    requires -(n as int) <= i < n
    ensures k < n
    ensures 0 <= i ==> k == i
  {
    if i < 0 then n + i else i
  }

  /** `int(c * size)`: one normalized coordinate in pixels. */
  function Scaled(c: real, size: int): int
  {
    TruncReal(c * size as real)
  }

  /** `(int(landmark.x * w), int(landmark.y * h))`. */
  function ToPixel(l: RawLandmark, width: int, height: int): Point
  {
    Point(Scaled(l.x, width), Scaled(l.y, height))
  }

  /** A whole hand in pixels, landmark by landmark. */
  function Pixels(hand: seq<RawLandmark>, width: int, height: int): (ps: seq<Point>)
    ensures |ps| == |hand|
    ensures forall i :: 0 <= i < |hand| ==> ps[i] == ToPixel(hand[i], width, height)
  {
    seq(|hand|, i requires 0 <= i < |hand| => ToPixel(hand[i], width, height))
  }

  /** A landmark inside the image maps to a pixel inside the image. */
  lemma ToPixelInFrame(l: RawLandmark, width: nat, height: nat)
    requires 0.0 <= l.x <= 1.0 && 0.0 <= l.y <= 1.0
    ensures 0 <= ToPixel(l, width, height).x <= width
    ensures 0 <= ToPixel(l, width, height).y <= height
  {
    ScaledWithin(l.x, width);
    ScaledWithin(l.y, height);
  }

  /** A coordinate in [0, 1] scales to a whole number of pixels in [0, size]. */
  lemma ScaledWithin(c: real, size: nat)
    requires 0.0 <= c <= 1.0
    ensures 0 <= Scaled(c, size) <= size
  {
    var r := c * size as real;
    MulBetween(c, size as real);
    TruncWithin(r, size);
  }

  /** Truncating a value in [0, bound] gives a whole number in [0, bound]. */
  lemma TruncWithin(r: real, bound: nat)
    requires 0.0 <= r <= bound as real
    ensures 0 <= TruncReal(r) <= bound
  {
  }

  /** First position of `wanted` in `labels`. */
  function FirstIndex(labels: seq<string>, wanted: string): (r: Option<nat>)
    ensures r.Some? ==> r.value < |labels| && labels[r.value] == wanted
    ensures r.Some? ==> forall i :: 0 <= i < r.value ==> labels[i] != wanted
    ensures r.None? ==> forall i :: 0 <= i < |labels| ==> labels[i] != wanted
    decreases |labels|
  {
    if |labels| == 0 then None
    else if labels[0] == wanted then Some(0)
    else
      var rest := FirstIndex(labels[1..], wanted);
      if rest.Some? then Some(rest.value + 1) else None
  }

  class Detector {
    var handDetected: bool
    var landmarksList: seq<seq<RawLandmark>>
    var handLabels: seq<string>
    /** `last_image_shape` as (height, width); None before the first `update_image_shape`. */
    var imageShape: Option<(int, int)>

    /** One label per hand, and a hand is detected exactly when the list is non-empty. */
    ghost predicate Valid()
      reads this`landmarksList, this`handLabels, this`handDetected
    {
      |landmarksList| == |handLabels| && (handDetected <==> |landmarksList| > 0)
    }

    constructor ()
      ensures Valid()
      ensures !handDetected && landmarksList == [] && handLabels == [] && imageShape.None?
    {
      handDetected := false;
      landmarksList := [];
      handLabels := [];
      imageShape := None;
    }

    /** `update_image_shape`. */
    method UpdateImageShape(height: int, width: int)
      modifies this`imageShape
      ensures imageShape == Some((height, width))
    {
      imageShape := Some((height, width));
    }

    /** The list maintenance of `find_hands`: clear, then one entry and one label per reported hand. */
    method FindHands(d: Detection)
      requires LabelsCover(d)
      modifies this`handDetected, this`landmarksList, this`handLabels
      ensures Valid()
      ensures landmarksList == d.hands && handLabels == LabelsFor(d)
      ensures handDetected == (|d.hands| > 0)
    {
      landmarksList := [];
      handLabels := [];
      if |d.hands| > 0 {
        handDetected := true;
        for idx := 0 to |d.hands|
          invariant handDetected
          invariant landmarksList == d.hands[..idx]
          invariant handLabels == LabelsFor(d)[..idx]
        {
          landmarksList := landmarksList + [d.hands[idx]];
          if |d.handedness| > 0 {
            handLabels := handLabels + [d.handedness[idx]];
          } else {
            handLabels := handLabels + [UNKNOWN_LABEL];
          }
        }
        assert d.hands[..|d.hands|] == d.hands;
        assert LabelsFor(d)[..|d.hands|] == LabelsFor(d);
      } else {
        handDetected := false;
      }
    }

    /** `is_hand_present`. */
    function IsHandPresent(): (b: bool)
      reads this
      requires Valid()
      ensures b <==> |landmarksList| > 0
    {
      handDetected
    }

    /** `get_hand_count`. */
    function GetHandCount(): (n: nat)
      reads this
      requires Valid()
      ensures n == |handLabels| && (n == 0 <==> !handDetected)
    {
      |landmarksList|
    }

    /** `get_hand_label`: None past the end; a negative number counts from the end as in Python. */
    function GetHandLabel(handNo: int): (r: Option<string>)
      reads this
      requires handNo < |handLabels| ==> -|handLabels| <= handNo
      ensures r.None? <==> handNo >= |handLabels|
      ensures 0 <= handNo < |handLabels| ==> r == Some(handLabels[handNo])
    {
      if handNo >= |handLabels| then None else Some(handLabels[PyIndex(handNo, |handLabels|)])
    }

    /** `get_hand_by_label`: the first hand carrying `wanted`. */
    method GetHandByLabel(wanted: string) returns (r: Option<nat>)
      ensures r == FirstIndex(handLabels, wanted)
    {
      var idx := 0;
      while idx < |handLabels|
        invariant 0 <= idx <= |handLabels|
        invariant forall i :: 0 <= i < idx ==> handLabels[i] != wanted
      {
        if handLabels[idx] == wanted {
          FirstIndexIsFirst(handLabels, wanted, idx);
          return Some(idx);
        }
        idx := idx + 1;
      }
      FirstIndexAbsent(handLabels, wanted);
      return None;
    }

    /** The hand `handNo` names exists: the guard `get_all_landmarks` and `get_landmark_position` apply. */
    predicate HasHand(handNo: int)
      reads this
    {
      handDetected && handNo < |landmarksList|
    }

    /** `get_all_landmarks`: every landmark of the hand in pixels, in MediaPipe's order. */
    method GetAllLandmarks(handNo: int) returns (r: Option<seq<Point>>)
      requires HasHand(handNo) ==> -|landmarksList| <= handNo && imageShape.Some?
      ensures r.None? <==> !HasHand(handNo)
      ensures r.Some? ==>
        r.value == Pixels(landmarksList[PyIndex(handNo, |landmarksList|)], imageShape.value.1, imageShape.value.0)
    {
      if !handDetected || handNo >= |landmarksList| {
        return None;
      }
      var height := imageShape.value.0;
      var width := imageShape.value.1;
      var hand := landmarksList[PyIndex(handNo, |landmarksList|)];
      var points: seq<Point> := [];
      for i := 0 to |hand|
        invariant |points| == i
        invariant forall k :: 0 <= k < i ==> points[k] == ToPixel(hand[k], width, height)
      {
        var x := Scaled(hand[i].x, width);
        var y := Scaled(hand[i].y, height);
        points := points + [Point(x, y)];
      }
      assert points == Pixels(hand, width, height);
      return Some(points);
    }

    /** `get_landmark_position`: one landmark of the hand in pixels. */
    function GetLandmarkPosition(landmarkId: int, handNo: int): (r: Option<Point>)
      reads this
      requires HasHand(handNo) ==>
        -|landmarksList| <= handNo && imageShape.Some? &&
        -|landmarksList[PyIndex(handNo, |landmarksList|)]| <= landmarkId < |landmarksList[PyIndex(handNo, |landmarksList|)]|
      ensures r.None? <==> !HasHand(handNo)
    {
      if !handDetected || handNo >= |landmarksList| then None
      else
        var hand := landmarksList[PyIndex(handNo, |landmarksList|)];
        Some(ToPixel(hand[PyIndex(landmarkId, |hand|)], imageShape.value.1, imageShape.value.0))
    }
  }

  lemma FirstIndexIsFirst(labels: seq<string>, wanted: string, idx: nat)
    requires idx < |labels| && labels[idx] == wanted
    requires forall i :: 0 <= i < idx ==> labels[i] != wanted
    ensures FirstIndex(labels, wanted) == Some(idx)
  {
  }

  lemma FirstIndexAbsent(labels: seq<string>, wanted: string)
    requires forall i :: 0 <= i < |labels| ==> labels[i] != wanted
    ensures FirstIndex(labels, wanted).None?
  {
  }

  /** Without handedness every hand is "Unknown", so a lookup of any other label finds nothing. */
  lemma LookupWithoutHandedness(d: Detection, wanted: string)
    requires LabelsCover(d) && |d.handedness| == 0 && wanted != UNKNOWN_LABEL
    ensures FirstIndex(LabelsFor(d), wanted).None?
  {
    FirstIndexAbsent(LabelsFor(d), wanted);
  }

  /**
   * What `get_all_landmarks(get_hand_by_label(name))` yields right after `find_hands(d)`
   * on an image of the given size: the pixels of the first hand labelled `name`.
   */
  function LabelledHand(d: Detection, name: string, width: int, height: int): (r: Option<seq<Point>>)
    requires LabelsCover(d)
    ensures r.Some? <==> name in LabelsFor(d)
  {
    var i := FirstIndex(LabelsFor(d), name);
    if i.Some? then Some(Pixels(d.hands[i.value], width, height)) else None
  }
}
