/**
 * The single-image endpoints of backend/main.py: the two-stage pipeline
 * (`detect_pipeline`), which rejects an undecodable upload and reports one
 * crop record beside each detection, and `detect`, which runs
 * `run_detection` on the decoded upload.
 */
module Pipeline {
  import opened Wrappers
  import opened Fusion
  import opened Annotator

  /** `CropInfo` without its id and its base64 thumbnail. */
  datatype CropInfo = CropInfo(
    objectName: string,
    yoloLabel: string,
    yoloConfidence: real,
    vitLabel: Option<string>,
    vitConfidence: Option<real>,
    status: string,
    bbox: BBox)

  datatype PipelineResult = PipelineResult(
    detections: seq<Detection>,
    crops: seq<CropInfo>,
    annotated: Image,
    modelInfo: ModelInfo)

  const InvalidImage: HttpError := HttpError(400, "Invalid image file")

  function CropFor(c: Candidate, m: Models, d: Detection): CropInfo
  {
    var detector := DetectorPrediction(c.box, m.classNames);
    CropInfo(d.objectName, detector.name, detector.confidence, d.vitLabel, d.vitConfidence, d.status,
             BBox(c.box.x1, c.box.y1, c.box.x2, c.box.y2))
  }

  /**
   * `detect_pipeline`. `upload` is the decoded image, `None` when non-empty
   * bytes do not decode (an empty upload makes the decoder raise instead,
   * which is not modelled); `vitClasses` is the loaded classifier's class
   * list.
   */
  method DetectPipeline(upload: Option<Image>, cands: seq<Candidate>, m: Models, vitClasses: seq<string>)
    returns (r: Result<PipelineResult, HttpError>)
    ensures upload.None? ==> r == Failure(InvalidImage)
    ensures upload.Some? ==> r.Success?
    ensures upload.Some? ==>
              var p := r.value;
              && p.detections == Detections(cands, m)
              && |p.crops| == |cands|
              && (forall i :: 0 <= i < |cands| ==>
                    var c, d := p.crops[i], p.detections[i];
                    && c.objectName == d.objectName && c.status == d.status
                    && c.vitLabel == d.vitLabel && c.vitConfidence == d.vitConfidence
                    && Some(c.bbox) == d.bbox
                    && c.yoloLabel == DetectorLabel(m.classNames, cands[i].box.classId)
                    && c.yoloConfidence == cands[i].box.score * 100.0)
              && p.annotated == Annotate(upload.value, p.detections)
              && p.modelInfo == ModelInfo(m.classifierLoaded, if m.classifierLoaded then vitClasses else [])
  {
    if upload.None? {
      return Failure(InvalidImage);
    }
    var dets: seq<Detection> := [];
    var crops: seq<CropInfo> := [];
    for i := 0 to |cands|
      invariant |dets| == i && |crops| == i
      invariant forall j :: 0 <= j < i ==> dets[j] == MakeDetection(cands[j], m)
      invariant forall j :: 0 <= j < i ==> crops[j] == CropFor(cands[j], m, dets[j])
    {
      var d := MakeDetection(cands[i], m);
      dets := dets + [d];
      crops := crops + [CropFor(cands[i], m, d)];
    }
    CropsMatchDetections(cands, m, dets, crops);
    var info := ModelInfo(m.classifierLoaded, if m.classifierLoaded then vitClasses else []);
    r := Success(PipelineResult(dets, crops, Annotate(upload.value, dets), info));
  }

  /** Each crop record repeats its detection's decision and box beside the detector's own label and confidence. */
  lemma CropsMatchDetections(cands: seq<Candidate>, m: Models, dets: seq<Detection>, crops: seq<CropInfo>)
    requires |dets| == |cands| && |crops| == |cands|
    requires forall j :: 0 <= j < |cands| ==> dets[j] == MakeDetection(cands[j], m)
    requires forall j :: 0 <= j < |cands| ==> crops[j] == CropFor(cands[j], m, dets[j])
    ensures forall i :: 0 <= i < |cands| ==>
              var c, d := crops[i], dets[i];
              && c.objectName == d.objectName && c.status == d.status
              && c.vitLabel == d.vitLabel && c.vitConfidence == d.vitConfidence
              && Some(c.bbox) == d.bbox
              && c.yoloLabel == DetectorLabel(m.classNames, cands[i].box.classId)
              && c.yoloConfidence == cands[i].box.score * 100.0
  {
    forall i | 0 <= i < |cands|
      ensures Some(crops[i].bbox) == dets[i].bbox
    {
      DetectionFields(cands[i], m);
    }
  }

  /**
   * `detect` as written: it does not check the decoded image, so an
   * undecodable upload reaches `run_detection` with `None` and fails there
   * with a server error.
   */
  function DetectAsWritten(upload: Option<Image>, cands: seq<Candidate>, m: Models): Result<seq<Detection>, HttpError>
  {
    if upload.None? then Failure(ServerError) else Success(Detections(cands, m))
  }

  /** The same upload is refused as a server error by `detect` and as invalid input by `detect_pipeline`. */
  lemma UndecodableUploadIsServerError(cands: seq<Candidate>, m: Models)
    ensures DetectAsWritten(None, cands, m) == Failure(ServerError)
    ensures DetectAsWritten(None, cands, m) != Failure(InvalidImage)
  {
  }

  /** `detect` with the decode check `detect_pipeline` has. */
  function Detect(upload: Option<Image>, cands: seq<Candidate>, m: Models): (r: Result<seq<Detection>, HttpError>)
    ensures upload.None? <==> r == Failure(InvalidImage)
    ensures upload.Some? ==> r == DetectAsWritten(upload, cands, m)
    ensures r.Success? ==> |r.value| == |cands| && forall i :: 0 <= i < |cands| ==> r.value[i] == MakeDetection(cands[i], m)
  {
    if upload.None? then Failure(InvalidImage) else Success(Detections(cands, m))
  }
}
