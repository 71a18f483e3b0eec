/**
 * The choices `draw_detections` makes for each detection: the rectangle
 * (corners truncated to integers), the status colour with its gray fallback,
 * and the text "{objectName} {confidenceScore:.0f}%" drawn 8 pixels above the
 * box. The pixels themselves are not modelled: an annotated image is its
 * source image together with the list of marks drawn on a copy of it.
 */
module Annotator {
  import opened Wrappers
  import opened Text
  import opened Status
  import opened Fusion

  /** An OpenCV colour, in blue-green-red order. */
  datatype Color = Color(blue: int, green: int, red: int)

  const Red: Color := Color(0, 0, 255)
  const Green: Color := Color(0, 200, 0)
  const Amber: Color := Color(0, 200, 255)
  const Gray: Color := Color(200, 200, 200)

  /** `STATUS_COLORS.get(status, (200, 200, 200))`. */
  function StatusColor(status: string): (c: Color)
    ensures status == Threat ==> c == Red
    ensures status == Verified ==> c == Green
    ensures status == Analyzing ==> c == Amber
    ensures !IsStatus(status) ==> c == Gray
  {
    if status == Threat then Red
    else if status == Verified then Green
    else if status == Analyzing then Amber
    else Gray
  }

  /** The three statuses get three distinct colours, none of them the fallback gray. */
  lemma ColorIdentifiesStatus(s1: string, s2: string)
    requires IsStatus(s1) && IsStatus(s2)
    ensures StatusColor(s1) != Gray
    ensures StatusColor(s1) == StatusColor(s2) ==> s1 == s2
  {
  }

  /** Python's `int(x)` on a float: truncation toward zero. */
  function Trunc(x: real): (n: int)
    ensures x >= 0.0 ==> n as real <= x < n as real + 1.0
    ensures x < 0.0 ==> n as real - 1.0 < x <= n as real
  {
    if x >= 0.0 then x.Floor else -((-x).Floor)
  }

  /** The rounding of the `.0f` format: to the nearest integer, halves to the even one. */
  function RoundHalfEven(x: real): (n: int)
    ensures -0.5 <= x - n as real <= 0.5
    ensures (x - n as real == 0.5 || x - n as real == -0.5) ==> n % 2 == 0
  {
    var f := x.Floor;
    var frac := x - f as real;
    if frac < 0.5 then f
    else if frac > 0.5 then f + 1
    else if f % 2 == 0 then f
    else f + 1
  }

  /** The two properties of `RoundHalfEven` leave no choice. */
  lemma RoundHalfEvenUnique(x: real, n: int)
    requires -0.5 <= x - n as real <= 0.5
    requires (x - n as real == 0.5 || x - n as real == -0.5) ==> n % 2 == 0
    ensures n == RoundHalfEven(x)
  {
  }

  function Abs(n: int): nat
  {
    if n < 0 then -n else n
  }

  /** `f"{x:.0f}"`: a minus sign for negative values, then the rounded magnitude. */
  function FormatWhole(x: real): string
  {
    (if x < 0.0 then "-" else "") + Digits(Abs(RoundHalfEven(x)))
  }

  /** The text drawn above a box. */
  function Label(d: Detection): string
  {
    d.objectName + " " + FormatWhole(d.confidenceScore) + "%"
  }

  /** For a non-negative confidence the number in the text reads back as the rounded confidence. */
  lemma {:induction false} LabelShowsRoundedConfidence(d: Detection)
    requires d.confidenceScore >= 0.0
    ensures var t := Label(d);
            |t| >= |d.objectName| + 3
            && t[..|d.objectName| + 1] == d.objectName + " "
            && t[|t| - 1] == '%'
            && AllDigits(t[|d.objectName| + 1 .. |t| - 1])
            && ParseDigits(t[|d.objectName| + 1 .. |t| - 1]) == RoundHalfEven(d.confidenceScore)
  {
    var n := RoundHalfEven(d.confidenceScore);
    assert n >= 0;
    var digits := Digits(n);
    assert FormatWhole(d.confidenceScore) == digits;
    LabelParts(d.objectName, digits);
    ParseDigitsOfDigits(n);
  }

  /** The pieces of "{name} {digits}%" are found back at their offsets. */
  lemma LabelParts(name: string, digits: string)
    ensures var t := name + " " + digits + "%";
            && |t| == |name| + |digits| + 2
            && t[..|name| + 1] == name + " "
            && t[|t| - 1] == '%'
            && t[|name| + 1 .. |t| - 1] == digits
  {
  }

  /** What is drawn for one detection: rectangle, colour, text and text origin. */
  datatype Mark = Mark(x1: int, y1: int, x2: int, y2: int, color: Color, text: string, textX: int, textY: int)

  function MarkFor(d: Detection, b: BBox): Mark
  {
    Mark(Trunc(b.x1), Trunc(b.y1), Trunc(b.x2), Trunc(b.y2), StatusColor(d.status), Label(d), Trunc(b.x1), Trunc(b.y1) - 8)
  }

  /** The marks for the detections that carry a box, in order. */
  function Marks(dets: seq<Detection>): (r: seq<Mark>)
    ensures |r| <= |dets|
  {
    if dets == [] then []
    else
      var last := dets[|dets| - 1];
      var front := Marks(dets[..|dets| - 1]);
      if last.bbox.Some? then front + [MarkFor(last, last.bbox.value)] else front
  }

  /** When every detection carries a box, mark `i` is drawn for detection `i`. */
  lemma {:induction false} MarksOfBoxes(dets: seq<Detection>)
    requires forall i :: 0 <= i < |dets| ==> dets[i].bbox.Some?
    ensures |Marks(dets)| == |dets|
    ensures forall i :: 0 <= i < |dets| ==> Marks(dets)[i] == MarkFor(dets[i], dets[i].bbox.value)
  {
    if dets != [] {
      MarksOfBoxes(dets[..|dets| - 1]);
    }
  }

  /** An image: a source frame, or a copy of an image with marks drawn on it. */
  datatype Image = Frame(id: nat) | Drawn(source: Image, marks: seq<Mark>)

  /** `draw_detections`: the source is copied, never changed. */
  function Annotate(image: Image, dets: seq<Detection>): (r: Image)
    ensures r.Drawn? && r.source == image
  {
    Drawn(image, Marks(dets))
  }

  /** Every detection built from a detector box is drawn, in the colour of its status. */
  lemma DetectionsAreDrawn(image: Image, cands: seq<Candidate>, m: Models)
    ensures var dets := Detections(cands, m);
            var marks := Annotate(image, dets).marks;
            |marks| == |cands|
            && forall i :: 0 <= i < |cands| ==> marks[i].color == StatusColor(dets[i].status) && marks[i].color != Gray
  {
    var dets := Detections(cands, m);
    forall i | 0 <= i < |cands| ensures IsStatus(dets[i].status) && dets[i].bbox.Some? {
      DetectionFields(cands[i], m);
    }
    MarksOfBoxes(dets);
  }
}
