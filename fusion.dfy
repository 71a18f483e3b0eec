/**
 * Per-box decision of backend/main.py: the detector's label and confidence,
 * the classifier's answer for the box's crop (or the placeholder
 * `classify_crop` returns when no classifier is loaded), the fusion of the
 * two into one best label and confidence, and the status of that decision.
 * Both networks are outside the model: a box arrives with its label id,
 * score and corners, and with what the loaded classifier says for its crop.
 */
module Fusion {
  import opened Wrappers
  import opened Text
  import opened Status

  /** A label and a confidence percentage. */
  datatype Prediction = Prediction(name: string, confidence: real)

  /** One detector box: corners, the raw score in [0, 1] and the class id. */
  datatype Box = Box(x1: real, y1: real, x2: real, y2: real, score: real, classId: int)

  /** A detector box together with the loaded classifier's answer for its crop. */
  datatype Candidate = Candidate(box: Box, classifierOutput: Prediction)

  /** What a request sees of the models: the detector's class names and whether a classifier is loaded. */
  datatype Models = Models(classNames: map<int, string>, classifierLoaded: bool)

  /** The `modelInfo` of a response: whether a classifier is loaded and its class list (empty when it is not). */
  datatype ModelInfo = ModelInfo(vitLoaded: bool, vitClasses: seq<string>)

  datatype BBox = BBox(x1: real, y1: real, x2: real, y2: real)

  /** `DetectionResult` without its random id and wall-clock time. */
  datatype Detection = Detection(
    objectName: string,
    status: string,
    confidenceScore: real,
    bbox: Option<BBox>,
    vitLabel: Option<string>,
    vitConfidence: Option<real>)

  /** The label used for an id missing from the detector's name table, and by `classify_crop` without a model. */
  const UnknownLabel: string := "Unknown"

  /** `results.names.get(cls_id, "Unknown")`. */
  function DetectorLabel(classNames: map<int, string>, classId: int): (l: string)
    ensures classId in classNames ==> l == classNames[classId]
    ensures classId !in classNames ==> l == UnknownLabel
  {
    if classId in classNames then classNames[classId] else UnknownLabel
  }

  /** The detector's decision for a box; its score becomes a percentage. */
  function DetectorPrediction(box: Box, classNames: map<int, string>): Prediction
  {
    Prediction(DetectorLabel(classNames, box.classId), box.score * 100.0)
  }

  /** `classify_crop`: without a model it answers ("Unknown", 0.0). */
  function ClassifyCrop(loaded: bool, output: Prediction): (p: Prediction)
    ensures !loaded ==> p == Prediction(UnknownLabel, 0.0)
  {
    if loaded then output else Prediction(UnknownLabel, 0.0)
  }

  function Max(a: real, b: real): real
  {
    if a >= b then a else b
  }

  /** The best label and confidence, and the classifier fields a detection reports. */
  datatype Fused = Fused(best: Prediction, vitLabel: Option<string>, vitConfidence: Option<real>)

  /**
   * The fusion rule: the label follows the classifier only when its
   * confidence is strictly higher, the confidence is the maximum of the two;
   * without a classifier the detector's answer is used and no classifier
   * fields are reported.
   */
  function Fuse(loaded: bool, detector: Prediction, classifier: Prediction): (f: Fused)
    ensures !loaded ==> f == Fused(detector, None, None)
    ensures loaded ==> f.best == if classifier.confidence > detector.confidence then classifier else detector
    ensures loaded ==> f.best.confidence >= detector.confidence && f.best.confidence >= classifier.confidence
    ensures loaded ==> f.vitLabel == Some(classifier.name) && f.vitConfidence == Some(classifier.confidence)
  {
    var bestLabel := if loaded && classifier.confidence > detector.confidence then classifier.name else detector.name;
    var bestConfidence := if loaded then Max(classifier.confidence, detector.confidence) else detector.confidence;
    Fused(
      Prediction(bestLabel, bestConfidence),
      if loaded then Some(classifier.name) else None,
      if loaded then Some(classifier.confidence) else None)
  }

  /** The detection `run_detection` and `detect_pipeline` build for one box. */
  function MakeDetection(c: Candidate, m: Models): Detection
  {
    var f := Fuse(m.classifierLoaded, DetectorPrediction(c.box, m.classNames), ClassifyCrop(m.classifierLoaded, c.classifierOutput));
    Detection(
      f.best.name,
      DetermineStatus(f.best.confidence, f.best.name),
      f.best.confidence,
      Some(BBox(c.box.x1, c.box.y1, c.box.x2, c.box.y2)),
      f.vitLabel,
      f.vitConfidence)
  }

  /**
   * A detection's status is the heuristic applied to its own label and
   * confidence, its confidence is at least the detector's, its box is the
   * detector's, and it reports classifier fields exactly when a classifier is loaded.
   */
  lemma DetectionFields(c: Candidate, m: Models)
    ensures var d := MakeDetection(c, m);
            && IsStatus(d.status) && d.status == DetermineStatus(d.confidenceScore, d.objectName)
            && d.confidenceScore >= c.box.score * 100.0
            && d.bbox == Some(BBox(c.box.x1, c.box.y1, c.box.x2, c.box.y2))
            && (d.vitLabel.Some? <==> m.classifierLoaded)
            && (d.vitConfidence.Some? <==> m.classifierLoaded)
  {
  }

  /** One detection per box, in the detector's order. */
  function Detections(cands: seq<Candidate>, m: Models): seq<Detection>
  {
    seq(|cands|, i requires 0 <= i < |cands| => MakeDetection(cands[i], m))
  }

  /** The box loop of `run_detection`. */
  method RunDetection(cands: seq<Candidate>, m: Models) returns (dets: seq<Detection>)
    ensures dets == Detections(cands, m)
  {
    dets := [];
    for i := 0 to |cands|
      invariant |dets| == i
      invariant forall j :: 0 <= j < i ==> dets[j] == MakeDetection(cands[j], m)
    {
      dets := dets + [MakeDetection(cands[i], m)];
    }
  }

  /** With a classifier loaded, the best pair is the more confident of the two answers, ties going to the detector. */
  lemma FusionPicksMoreConfident(c: Candidate, m: Models)
    requires m.classifierLoaded
    ensures var d := MakeDetection(c, m);
            var detector := DetectorPrediction(c.box, m.classNames);
            Prediction(d.objectName, d.confidenceScore)
              == if c.classifierOutput.confidence > detector.confidence then c.classifierOutput else detector
  {
  }

  /** Degraded mode: without a classifier the detection is the detector's answer and ignores the crop. */
  lemma DegradedModeUsesDetector(c: Candidate, other: Prediction, m: Models)
    requires !m.classifierLoaded
    ensures var d := MakeDetection(c, m);
            d.objectName == DetectorLabel(m.classNames, c.box.classId)
            && d.confidenceScore == c.box.score * 100.0
            && d.vitLabel == None && d.vitConfidence == None
            && d == MakeDetection(Candidate(c.box, other), m)
  {
  }

  /** "Unknown", the fallback label, contains a keyword: an unmapped class id above 80% is a threat. */
  lemma UnmappedClassIsThreat(c: Candidate, m: Models)
    requires !m.classifierLoaded && c.box.classId !in m.classNames
    requires c.box.score * 100.0 > ThreatThreshold
    ensures MakeDetection(c, m).status == Threat
  {
    assert Lower(UnknownLabel) == "unknown";
    assert "unknown" <= Lower(UnknownLabel)[0..];
    assert "unknown" in ThreatKeywords;
  }

  /** A box found at 90% that the classifier calls "drone" at 95% becomes one threat, "drone", 95. */
  lemma DroneExample(box: Box, m: Models)
    requires m.classifierLoaded && box.score == 0.9
    ensures var d := MakeDetection(Candidate(box, Prediction("drone", 95.0)), m);
            d.objectName == "drone" && d.confidenceScore == 95.0 && d.status == Threat
  {
    assert Lower("drone") == "drone";
    assert "drone" <= Lower("drone")[0..];
    DroneIsThreat(95.0, "drone");
  }
}
