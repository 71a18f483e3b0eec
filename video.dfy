/**
 * The video endpoint `detect_video` of backend/main.py: a loop over the
 * decoded frames that runs the image pipeline on every `frameInterval`-th
 * frame, keeps the detections at or above the confidence threshold in one
 * record per processed frame, writes one output frame per input frame, and
 * keeps running totals from which the summary is built.
 */
module Video {
  import opened Wrappers
  import opened Text
  import opened Status
  import opened Fusion
  import opened Annotator

  /** A decoded frame, with the detector boxes and classifier answers for it. */
  datatype VideoFrame = VideoFrame(image: Image, candidates: seq<Candidate>)

  /** `frame_idx / fps`, kept as the exact quotient of the frame index by the frame rate. */
  datatype Seconds = Seconds(frameIndex: nat, fps: real)
  {
    function Value(): real
      requires fps != 0.0
    {
      frameIndex as real / fps
    }
  }

  /** `FrameDetection`. */
  datatype FrameRecord = FrameRecord(frameIndex: nat, timestamp: Seconds, detections: seq<Detection>)

  datatype VideoSummary = VideoSummary(
    totalFramesProcessed: nat,
    totalDetections: nat,
    uniqueObjects: seq<string>,
    threats: nat,
    verified: nat,
    analyzing: nat,
    avgConfidence: real,
    peakDetectionFrame: nat)

  /**
   * The frames written to the output video, the per-frame records, the
   * thumbnail (`None` for ""), the summary, the frame rate in effect and
   * `modelInfo`.
   */
  datatype VideoOutput = VideoOutput(
    records: seq<FrameRecord>,
    written: seq<Image>,
    thumbnail: Option<Image>,
    summary: VideoSummary,
    fps: real,
    modelInfo: ModelInfo)

  /** The query parameters and the frame rate the capture reports. */
  datatype Sampling = Sampling(frameInterval: int, threshold: real, reportedFps: real)

  const VideoOpenError: HttpError := HttpError(400, "Could not open video file")
  /**
   * FastAPI's answer to a query parameter outside its bounds. The 422 body is
   * FastAPI's list of the failed constraints; this detail is a placeholder
   * that stands for that list.
   */
  const ValidationError: HttpError := HttpError(422, "Unprocessable Entity")

  /** `cap.get(cv2.CAP_PROP_FPS) or 30.0`. */
  function EffectiveFps(reported: real): (fps: real)
    ensures fps != 0.0
  {
    if reported == 0.0 then 30.0 else reported
  }

  /** `i % k` for a positive interval, by repeated subtraction; `RemIsMod` ties it to the remainder. */
  function Rem(i: nat, k: int): (r: nat)
    requires k >= 1
    ensures r < k && r <= i
    decreases i
  {
    if i < k then i else Rem(i - k, k)
  }

  /** The last sampled index at or before `i`. */
  function LastSampled(i: nat, k: int): nat
    requires k >= 1
  {
    i - Rem(i, k)
  }

  /** The comprehension `[d for d in dets if d.confidenceScore >= confidence]`. */
  function Kept(ds: seq<Detection>, threshold: real): (r: seq<Detection>)
    ensures |r| <= |ds|
  {
    if ds == [] then []
    else
      var last := ds[|ds| - 1];
      Kept(ds[..|ds| - 1], threshold) + (if last.confidenceScore >= threshold then [last] else [])
  }

  /** A detection is kept exactly when it is among the frame's detections and reaches the threshold. */
  lemma {:induction false} KeptMembership(ds: seq<Detection>, threshold: real)
    ensures forall d :: d in Kept(ds, threshold) <==> d in ds && d.confidenceScore >= threshold
  {
    if ds != [] {
      KeptMembership(ds[..|ds| - 1], threshold);
      assert ds == ds[..|ds| - 1] + [ds[|ds| - 1]];
    }
  }

  /** What `process_video_frame` draws: every detection of the frame, also those below the threshold. */
  function AnnotatedFrame(f: VideoFrame, m: Models): Image
  {
    Annotate(f.image, Detections(f.candidates, m))
  }

  /** `process_video_frame`: the image pipeline on one frame, returning the drawn frame and all its detections. */
  method ProcessVideoFrame(f: VideoFrame, m: Models) returns (annotated: Image, dets: seq<Detection>)
    ensures dets == Detections(f.candidates, m)
    ensures annotated == AnnotatedFrame(f, m) && annotated.Drawn? && annotated.source == f.image
  {
    dets := RunDetection(f.candidates, m);
    annotated := Annotate(f.image, dets);
  }

  function RecordAt(frames: seq<VideoFrame>, i: nat, s: Sampling, m: Models): FrameRecord
    requires i < |frames|
  {
    FrameRecord(i, Seconds(i, EffectiveFps(s.reportedFps)), Kept(Detections(frames[i].candidates, m), s.threshold))
  }

  /** The records of the sampled frames among the first `n`. */
  function Records(frames: seq<VideoFrame>, n: nat, s: Sampling, m: Models): seq<FrameRecord>
    requires n <= |frames| && s.frameInterval >= 1
  {
    if n == 0 then []
    else Records(frames, n - 1, s, m) + (if Rem(n - 1, s.frameInterval) == 0 then [RecordAt(frames, n - 1, s, m)] else [])
  }

  /** All kept detections, frame after frame. */
  function AllKept(recs: seq<FrameRecord>): seq<Detection>
  {
    if recs == [] then [] else AllKept(recs[..|recs| - 1]) + recs[|recs| - 1].detections
  }

  function Names(ds: seq<Detection>): (r: seq<string>)
    ensures |r| == |ds| && forall i :: 0 <= i < |ds| ==> r[i] == ds[i].objectName
  {
    if ds == [] then [] else Names(ds[..|ds| - 1]) + [ds[|ds| - 1].objectName]
  }

  function Confidences(ds: seq<Detection>): (r: seq<real>)
    ensures |r| == |ds| && forall i :: 0 <= i < |ds| ==> r[i] == ds[i].confidenceScore
  {
    if ds == [] then [] else Confidences(ds[..|ds| - 1]) + [ds[|ds| - 1].confidenceScore]
  }

  function Sum(xs: seq<real>): real
  {
    if xs == [] then 0.0 else Sum(xs[..|xs| - 1]) + xs[|xs| - 1]
  }

  function CountStatus(ds: seq<Detection>, status: string): nat
  {
    if ds == [] then 0
    else CountStatus(ds[..|ds| - 1], status) + (if ds[|ds| - 1].status == status then 1 else 0)
  }

  /** Detections whose status is neither "threat" nor "verified": the `else` of the counting loop. */
  function CountOther(ds: seq<Detection>): nat
  {
    if ds == [] then 0
    else
      var st := ds[|ds| - 1].status;
      CountOther(ds[..|ds| - 1]) + (if st != Threat && st != Verified then 1 else 0)
  }

  /** `sum(all_confidences) / total_dets if total_dets else 0.0`. */
  function Average(xs: seq<real>): real
  {
    if xs == [] then 0.0 else Sum(xs) / |xs| as real
  }

  /** The largest per-frame count so far (0 before any detection). */
  function PeakCount(recs: seq<FrameRecord>): nat
  {
    if recs == [] then 0
    else
      var n := |recs[|recs| - 1].detections|;
      var before := PeakCount(recs[..|recs| - 1]);
      if n > before then n else before
  }

  /** The frame at which the count last rose strictly above every earlier count. */
  function PeakFrame(recs: seq<FrameRecord>): nat
  {
    if recs == [] then 0
    else if |recs[|recs| - 1].detections| > PeakCount(recs[..|recs| - 1]) then recs[|recs| - 1].frameIndex
    else PeakFrame(recs[..|recs| - 1])
  }

  /** Record `j` has the most detections, more than every record before it. */
  ghost predicate PeakAt(recs: seq<FrameRecord>, j: int)
  {
    && 0 <= j < |recs|
    && |recs[j].detections| > 0
    && (forall i :: 0 <= i < |recs| ==> |recs[i].detections| <= |recs[j].detections|)
    && (forall i :: 0 <= i < j ==> |recs[i].detections| < |recs[j].detections|)
  }

  /** `peakDetectionFrame`: the first frame with the most detections, or 0 when no frame has any. */
  ghost predicate IsPeakFrame(recs: seq<FrameRecord>, frame: nat)
  {
    || ((forall i :: 0 <= i < |recs| ==> recs[i].detections == []) && frame == 0)
    || (exists j :: PeakAt(recs, j) && recs[j].frameIndex == frame)
  }

  /** At most one record is the peak. */
  lemma PeakAtUnique(recs: seq<FrameRecord>, j1: int, j2: int)
    requires PeakAt(recs, j1) && PeakAt(recs, j2)
    ensures j1 == j2
  {
  }

  lemma {:induction false} PeakFrameIsFirstMaximum(recs: seq<FrameRecord>)
    ensures forall i :: 0 <= i < |recs| ==> |recs[i].detections| <= PeakCount(recs)
    ensures PeakCount(recs) == 0 ==> PeakFrame(recs) == 0 && forall i :: 0 <= i < |recs| ==> recs[i].detections == []
    ensures PeakCount(recs) > 0 ==> exists j :: PeakAt(recs, j) && recs[j].frameIndex == PeakFrame(recs)
                                                && |recs[j].detections| == PeakCount(recs)
  {
    if recs != [] {
      var front := recs[..|recs| - 1];
      PeakFrameIsFirstMaximum(front);
      assert forall i :: 0 <= i < |front| ==> recs[i] == front[i];
      if |recs[|recs| - 1].detections| > PeakCount(front) {
        assert PeakAt(recs, |recs| - 1);
      } else if PeakCount(recs) > 0 {
        var k :| PeakAt(front, k) && front[k].frameIndex == PeakFrame(front) && |front[k].detections| == PeakCount(front);
        assert PeakAt(recs, k);
      }
    }
  }

  lemma {:induction false} CountPartition(ds: seq<Detection>)
    ensures CountStatus(ds, Threat) + CountStatus(ds, Verified) + CountOther(ds) == |ds|
  {
    if ds != [] {
      CountPartition(ds[..|ds| - 1]);
    }
  }

  /** When every status is one of the three, the `else` branch counts exactly the "analyzing" detections. */
  lemma {:induction false} CountOtherIsAnalyzing(ds: seq<Detection>)
    requires forall i :: 0 <= i < |ds| ==> IsStatus(ds[i].status)
    ensures CountOther(ds) == CountStatus(ds, Analyzing)
  {
    if ds != [] {
      CountOtherIsAnalyzing(ds[..|ds| - 1]);
    }
  }

  lemma PeakFrameIsPeak(recs: seq<FrameRecord>)
    ensures IsPeakFrame(recs, PeakFrame(recs))
  {
    PeakFrameIsFirstMaximum(recs);
  }

  lemma NamesMembership(ds: seq<Detection>)
    ensures forall x :: x in Names(ds) <==> exists d :: d in ds && d.objectName == x
  {
    var names := Names(ds);
    forall x ensures x in names ==> exists d :: d in ds && d.objectName == x {
      if x in names {
        var i :| 0 <= i < |names| && names[i] == x;
        assert ds[i] in ds;
      }
    }
    forall x ensures (exists d :: d in ds && d.objectName == x) ==> x in names {
      if d :| d in ds && d.objectName == x {
        var i :| 0 <= i < |ds| && ds[i] == d;
        assert names[i] == x;
      }
    }
  }

  /** The summary built after the loop; its properties are the `Summary…` lemmas below. */
  function Summarize(recs: seq<FrameRecord>): VideoSummary
  {
    var all := AllKept(recs);
    VideoSummary(
      |recs|,
      |Confidences(all)|,
      SortedUnique(Names(all)),
      CountStatus(all, Threat),
      CountStatus(all, Verified),
      CountOther(all),
      Average(Confidences(all)),
      PeakFrame(recs))
  }

  /** One processed frame per record, one detection per kept detection, each counted under exactly one status. */
  lemma SummaryCounts(recs: seq<FrameRecord>)
    ensures var s := Summarize(recs);
            && s.totalFramesProcessed == |recs| && s.totalDetections == |AllKept(recs)|
            && s.threats + s.verified + s.analyzing == s.totalDetections
            && s.threats == CountStatus(AllKept(recs), Threat)
            && s.verified == CountStatus(AllKept(recs), Verified)
  {
    CountPartition(AllKept(recs));
  }

  /** The unique objects are the names of the kept detections, sorted, without repeats. */
  lemma SummaryUniqueObjects(recs: seq<FrameRecord>)
    ensures StrictlySorted(Summarize(recs).uniqueObjects)
    ensures forall x :: x in Summarize(recs).uniqueObjects <==> exists d :: d in AllKept(recs) && d.objectName == x
  {
    NamesMembership(AllKept(recs));
  }

  /** The peak frame is the first frame with the most kept detections, or 0 when none has any. */
  lemma SummaryPeakFrame(recs: seq<FrameRecord>)
    ensures IsPeakFrame(recs, Summarize(recs).peakDetectionFrame)
  {
    PeakFrameIsPeak(recs);
  }

  /** `avg` is the mean of `xs`: times their number it is their total, and 0 for none. */
  predicate IsMean(avg: real, xs: seq<real>)
  {
    && (xs == [] ==> avg == 0.0)
    && (xs != [] ==> avg * |xs| as real == Sum(xs))
  }

  lemma AverageIsMean(xs: seq<real>)
    ensures IsMean(Average(xs), xs)
  {
    if xs != [] {
      var n := |xs| as real;
      var t := Sum(xs);
      assert n > 0.0;
      assert (t / n) * n == t;
    }
  }

  /** The average confidence of the summary is the mean of the kept confidences. */
  lemma SummaryAverageIsMean(recs: seq<FrameRecord>)
    ensures IsMean(Summarize(recs).avgConfidence, Confidences(AllKept(recs)))
  {
    var xs := Confidences(AllKept(recs));
    assert Summarize(recs).avgConfidence == Average(xs);
    AverageIsMean(xs);
  }

  lemma {:induction false} MulAtLeast(d: int, k: int)
    requires d >= 1 && k >= 1
    ensures d * k >= k
  {
    if d > 1 {
      MulAtLeast(d - 1, k);
      assert d * k == (d - 1) * k + k;
    }
  }

  /** Euclidean division is determined by quotient and remainder. */
  lemma DivModUnique(a: int, k: int, q: int, r: int)
    requires k >= 1 && a == q * k + r && 0 <= r < k
    ensures a / k == q && a % k == r
  {
    var q', r' := a / k, a % k;
    assert a == q' * k + r';
    assert q * k - q' * k == (q - q') * k;
    if q > q' {
      MulAtLeast(q - q', k);
    } else if q < q' {
      MulAtLeast(q' - q, k);
    }
  }

  lemma CeilDivStep(n: int, k: int)
    requires n >= 1 && k >= 1
    ensures (n + k - 1) / k == (n - 1 + k - 1) / k + (if (n - 1) % k == 0 then 1 else 0)
  {
    var q, r := (n - 1) / k, (n - 1) % k;
    assert n - 1 == q * k + r;
    if r == 0 {
      DivModUnique(n - 1 + k - 1, k, q, k - 1);
      assert n + k - 1 == (q + 1) * k;
      DivModUnique(n + k - 1, k, q + 1, 0);
    } else {
      assert n - 1 + k - 1 == (q + 1) * k + (r - 1);
      DivModUnique(n - 1 + k - 1, k, q + 1, r - 1);
      DivModUnique(n + k - 1, k, q + 1, r);
    }
  }

  lemma {:induction false} RemIsMod(i: nat, k: int)
    requires k >= 1
    ensures Rem(i, k) == i % k
  {
    if i < k {
      DivModUnique(i, k, 0, i);
    } else {
      RemIsMod(i - k, k);
      DivModUnique(i, k, (i - k) / k + 1, (i - k) % k);
    }
  }

  /** The remainder of the next frame index: one more, wrapping to 0 after `k - 1`. */
  lemma {:induction false} RemSucc(i: nat, k: int)
    requires k >= 1
    ensures Rem(i + 1, k) == if Rem(i, k) == k - 1 then 0 else Rem(i, k) + 1
  {
    if i >= k {
      RemSucc(i - k, k);
    }
  }

  lemma {:induction false} RemOffset(b: nat, d: nat, k: int)
    requires k >= 1 && Rem(b, k) == 0 && d < k
    ensures Rem(b + d, k) == d
  {
    if d > 0 {
      RemOffset(b, d - 1, k);
      RemSucc(b + d - 1, k);
    }
  }

  lemma {:induction false} LastSampledIsSampled(i: nat, k: int)
    requires k >= 1
    ensures Rem(LastSampled(i, k), k) == 0
  {
    if i >= k {
      LastSampledIsSampled(i - k, k);
      assert LastSampled(i, k) == LastSampled(i - k, k) + k;
    }
  }

  /** `LastSampled(i, k)` is the most recent processed frame at or before frame `i`. */
  lemma LastSampledIsMostRecent(i: nat, k: int)
    requires k >= 1
    ensures LastSampled(i, k) <= i && Rem(LastSampled(i, k), k) == 0
    ensures forall j: nat :: LastSampled(i, k) < j <= i ==> Rem(j, k) != 0
    ensures Rem(i, k) == 0 ==> LastSampled(i, k) == i
  {
    var b := LastSampled(i, k);
    LastSampledIsSampled(i, k);
    forall j: nat | b < j <= i
      ensures Rem(j, k) != 0
    {
      RemOffset(b, j - b, k);
    }
  }

  lemma LastSampledOfSkipped(i: nat, k: int)
    requires k >= 1 && Rem(i, k) != 0
    ensures i > 0 && LastSampled(i - 1, k) == LastSampled(i, k)
  {
    RemSucc(i - 1, k);
  }

  /** The number of multiples of `k` below `n`: `n` divided by `k`, rounded up. */
  function CeilDiv(n: nat, k: int): nat
    requires k >= 1
  {
    (n + k - 1) / k
  }

  lemma CountStep(n: nat, k: int)
    requires n >= 1 && k >= 1
    ensures CeilDiv(n, k) == CeilDiv(n - 1, k) + (if Rem(n - 1, k) == 0 then 1 else 0)
  {
    CeilDivStep(n, k);
    RemIsMod(n - 1, k);
  }

  /** The number of processed frames among the first `n` is the number of multiples of the interval below `n`. */
  lemma {:induction false} RecordsCount(frames: seq<VideoFrame>, n: nat, s: Sampling, m: Models)
    requires n <= |frames| && s.frameInterval >= 1
    ensures |Records(frames, n, s, m)| == CeilDiv(n, s.frameInterval)
  {
    if n > 0 {
      RecordsCount(frames, n - 1, s, m);
      CountStep(n, s.frameInterval);
      assert |Records(frames, n, s, m)| == |Records(frames, n - 1, s, m)| + (if Rem(n - 1, s.frameInterval) == 0 then 1 else 0);
    } else {
      DivModUnique(s.frameInterval - 1, s.frameInterval, 0, s.frameInterval - 1);
    }
  }

  /** `r` is the record of a frame before `n` whose index is a multiple of the interval. */
  predicate SampledRecord(frames: seq<VideoFrame>, n: nat, s: Sampling, m: Models, r: FrameRecord)
    requires n <= |frames| && s.frameInterval >= 1
  {
    r.frameIndex < n && Rem(r.frameIndex, s.frameInterval) == 0 && r == RecordAt(frames, r.frameIndex, s, m)
  }

  /** Each record is the record of a sampled frame. */
  lemma {:induction false} RecordsAreSampledFrames(frames: seq<VideoFrame>, n: nat, s: Sampling, m: Models)
    requires n <= |frames| && s.frameInterval >= 1
    ensures forall j :: 0 <= j < |Records(frames, n, s, m)| ==> SampledRecord(frames, n, s, m, Records(frames, n, s, m)[j])
  {
    if n > 0 {
      RecordsAreSampledFrames(frames, n - 1, s, m);
      var front := Records(frames, n - 1, s, m);
      var recs := Records(frames, n, s, m);
      if Rem(n - 1, s.frameInterval) == 0 {
        assert recs == front + [RecordAt(frames, n - 1, s, m)];
        forall j | 0 <= j < |recs|
          ensures SampledRecord(frames, n, s, m, recs[j])
        {
          if j < |front| {
            assert recs[j] == front[j];
            assert SampledRecord(frames, n - 1, s, m, front[j]);
          } else {
            assert recs[j] == RecordAt(frames, n - 1, s, m);
            assert recs[j].frameIndex == n - 1;
          }
        }
      } else {
        assert recs == front;
        forall j | 0 <= j < |recs|
          ensures SampledRecord(frames, n, s, m, recs[j])
        {
          assert SampledRecord(frames, n - 1, s, m, front[j]);
        }
      }
    } else {
      assert Records(frames, n, s, m) == [];
    }
  }

  /** Each record's `timestamp` is its frame index divided by the frame rate in effect, which is never 0. */
  lemma RecordTimestamps(frames: seq<VideoFrame>, n: nat, s: Sampling, m: Models)
    requires n <= |frames| && s.frameInterval >= 1
    ensures forall j :: 0 <= j < |Records(frames, n, s, m)| ==>
              var r := Records(frames, n, s, m)[j];
              r.timestamp.fps != 0.0 && r.timestamp.Value() == r.frameIndex as real / EffectiveFps(s.reportedFps)
  {
    RecordsAreSampledFrames(frames, n, s, m);
  }

  /** The records are in ascending frame order, so no frame is reported twice. */
  lemma {:induction false} RecordsAscending(frames: seq<VideoFrame>, n: nat, s: Sampling, m: Models)
    requires n <= |frames| && s.frameInterval >= 1
    ensures forall a, b :: 0 <= a < b < |Records(frames, n, s, m)| ==> Records(frames, n, s, m)[a].frameIndex < Records(frames, n, s, m)[b].frameIndex
  {
    if n > 0 {
      RecordsAscending(frames, n - 1, s, m);
      RecordsAreSampledFrames(frames, n - 1, s, m);
      var front := Records(frames, n - 1, s, m);
      var recs := Records(frames, n, s, m);
      if Rem(n - 1, s.frameInterval) == 0 {
        assert recs == front + [RecordAt(frames, n - 1, s, m)];
      } else {
        assert recs == front;
      }
    } else {
      assert Records(frames, n, s, m) == [];
    }
  }

  predicate HasRecordFor(recs: seq<FrameRecord>, i: nat)
  {
    exists j :: 0 <= j < |recs| && recs[j].frameIndex == i
  }

  /** Every frame before `n` whose index is a multiple of the interval has a record. */
  lemma {:induction false} RecordsComplete(frames: seq<VideoFrame>, n: nat, s: Sampling, m: Models)
    requires n <= |frames| && s.frameInterval >= 1
    ensures forall i: nat :: i < n && Rem(i, s.frameInterval) == 0 ==> HasRecordFor(Records(frames, n, s, m), i)
  {
    if n > 0 {
      RecordsComplete(frames, n - 1, s, m);
      var front := Records(frames, n - 1, s, m);
      var recs := Records(frames, n, s, m);
      assert Rem(n - 1, s.frameInterval) == 0 ==> recs == front + [RecordAt(frames, n - 1, s, m)];
      assert Rem(n - 1, s.frameInterval) != 0 ==> recs == front;
      forall i: nat | i < n && Rem(i, s.frameInterval) == 0
        ensures HasRecordFor(recs, i)
      {
        if i < n - 1 {
          assert HasRecordFor(front, i);
          var j :| 0 <= j < |front| && front[j].frameIndex == i;
          assert recs[j] == front[j];
        } else {
          assert recs[|front|] == RecordAt(frames, n - 1, s, m);
          assert recs[|front|].frameIndex == i;
        }
      }
    }
  }

  /** Every kept detection of every record reaches the threshold. */
  lemma RecordsMeetThreshold(frames: seq<VideoFrame>, n: nat, s: Sampling, m: Models)
    requires n <= |frames| && s.frameInterval >= 1
    ensures forall j, d :: 0 <= j < |Records(frames, n, s, m)| && d in Records(frames, n, s, m)[j].detections ==> d.confidenceScore >= s.threshold
  {
    var recs := Records(frames, n, s, m);
    RecordsAreSampledFrames(frames, n, s, m);
    forall j, d | 0 <= j < |recs| && d in recs[j].detections
      ensures d.confidenceScore >= s.threshold
    {
      assert SampledRecord(frames, n, s, m, recs[j]);
      KeptMembership(Detections(frames[recs[j].frameIndex].candidates, m), s.threshold);
    }
  }

  lemma {:induction false} AllKeptMembership(recs: seq<FrameRecord>, d: Detection)
    ensures d in AllKept(recs) <==> exists j :: 0 <= j < |recs| && d in recs[j].detections
  {
    if recs != [] {
      var front := recs[..|recs| - 1];
      AllKeptMembership(front, d);
      assert forall j :: 0 <= j < |front| ==> recs[j] == front[j];
    }
  }

  lemma RecordHasStatuses(frames: seq<VideoFrame>, i: nat, s: Sampling, m: Models)
    requires i < |frames|
    ensures forall d :: d in RecordAt(frames, i, s, m).detections ==> IsStatus(d.status)
  {
    var dets := Detections(frames[i].candidates, m);
    KeptMembership(dets, s.threshold);
    forall d | d in RecordAt(frames, i, s, m).detections ensures IsStatus(d.status) {
      assert d in dets;
      var b :| 0 <= b < |dets| && dets[b] == d;
      DetectionFields(frames[i].candidates[b], m);
    }
  }

  /** In the video summary, the `else` branch of the counting loop counts the "analyzing" detections. */
  lemma SummaryAnalyzingCountsAnalyzing(frames: seq<VideoFrame>, n: nat, s: Sampling, m: Models)
    requires n <= |frames| && s.frameInterval >= 1
    ensures Summarize(Records(frames, n, s, m)).analyzing == CountStatus(AllKept(Records(frames, n, s, m)), Analyzing)
  {
    var recs := Records(frames, n, s, m);
    var all := AllKept(recs);
    RecordsAreSampledFrames(frames, n, s, m);
    forall i | 0 <= i < |all| ensures IsStatus(all[i].status) {
      var d := all[i];
      AllKeptMembership(recs, d);
      var j :| 0 <= j < |recs| && d in recs[j].detections;
      assert SampledRecord(frames, n, s, m, recs[j]);
      RecordHasStatuses(frames, recs[j].frameIndex, s, m);
    }
    CountOtherIsAnalyzing(all);
  }

  lemma {:induction false} NamesAppend(a: seq<Detection>, b: seq<Detection>)
    ensures Names(a + b) == Names(a) + Names(b)
    ensures Confidences(a + b) == Confidences(a) + Confidences(b)
  {
    if b != [] {
      var front := b[..|b| - 1];
      NamesAppend(a, front);
      assert (a + b)[..|a + b| - 1] == a + front;
    }
  }

  lemma {:induction false} CountAppend(a: seq<Detection>, b: seq<Detection>)
    ensures CountStatus(a + b, Threat) == CountStatus(a, Threat) + CountStatus(b, Threat)
    ensures CountStatus(a + b, Verified) == CountStatus(a, Verified) + CountStatus(b, Verified)
    ensures CountOther(a + b) == CountOther(a) + CountOther(b)
  {
    if b != [] {
      var front := b[..|b| - 1];
      CountAppend(a, front);
      assert (a + b)[..|a + b| - 1] == a + front;
      assert (a + b)[|a + b| - 1] == b[|b| - 1];
    } else {
      assert a + b == a;
    }
  }

  /** The statistics loop over the kept detections of one processed frame. */
  method AccumulateStats(kept: seq<Detection>, objects: seq<string>, confidences: seq<real>,
                         threats: nat, verified: nat, analyzing: nat)
    returns (objects': seq<string>, confidences': seq<real>, threats': nat, verified': nat, analyzing': nat)
    ensures objects' == objects + Names(kept) && confidences' == confidences + Confidences(kept)
    ensures threats' == threats + CountStatus(kept, Threat) && verified' == verified + CountStatus(kept, Verified)
    ensures analyzing' == analyzing + CountOther(kept)
  {
    objects', confidences', threats', verified', analyzing' := objects, confidences, threats, verified, analyzing;
    for t := 0 to |kept|
      invariant objects' == objects + Names(kept[..t]) && confidences' == confidences + Confidences(kept[..t])
      invariant threats' == threats + CountStatus(kept[..t], Threat)
      invariant verified' == verified + CountStatus(kept[..t], Verified)
      invariant analyzing' == analyzing + CountOther(kept[..t])
    {
      var d := kept[t];
      assert kept[..t + 1] == kept[..t] + [d];
      assert (kept[..t] + [d])[..t] == kept[..t];
      objects' := objects' + [d.objectName];
      confidences' := confidences' + [d.confidenceScore];
      if d.status == Threat {
        threats' := threats' + 1;
      } else if d.status == Verified {
        verified' := verified' + 1;
      } else {
        analyzing' := analyzing' + 1;
      }
    }
    assert kept[..|kept|] == kept;
  }

  /** The loop's records and processed count after the first `n` frames. */
  ghost predicate RecordsSoFar(frames: seq<VideoFrame>, s: Sampling, m: Models, n: nat, records: seq<FrameRecord>, processed: nat)
    requires n <= |frames| && s.frameInterval >= 1
  {
    records == Records(frames, n, s, m) && processed == |records| && (n == 0 <==> processed == 0)
  }

  /** The running totals of the loop are those of the kept detections of `records`. */
  ghost predicate TotalsOf(records: seq<FrameRecord>, objects: seq<string>, confidences: seq<real>,
                           threats: nat, verified: nat, analyzing: nat, peakFrame: nat, peakCount: nat)
  {
    && objects == Names(AllKept(records)) && confidences == Confidences(AllKept(records))
    && threats == CountStatus(AllKept(records), Threat) && verified == CountStatus(AllKept(records), Verified)
    && analyzing == CountOther(AllKept(records))
    && peakCount == PeakCount(records) && peakFrame == PeakFrame(records)
  }

  /** Every input frame run through the image pipeline, in order. */
  function AnnotatedFrames(frames: seq<VideoFrame>, m: Models): (r: seq<Image>)
    ensures |r| == |frames|
  {
    seq(|frames|, j requires 0 <= j < |frames| => AnnotatedFrame(frames[j], m))
  }

  /**
   * The frames written for the first `n` input frames, given the annotated
   * version of every frame: each repeats the last sampled frame at or before it.
   */
  function Written(annotated: seq<Image>, n: nat, k: int): (r: seq<Image>)
    requires n <= |annotated| && k >= 1
    ensures |r| == n
  {
    if n == 0 then [] else Written(annotated, n - 1, k) + [annotated[LastSampled(n - 1, k)]]
  }

  /** Output frame `i` shows the annotations of the last sampled frame at or before `i`. */
  lemma {:induction false} WrittenFrame(annotated: seq<Image>, n: nat, k: int, i: nat)
    requires n <= |annotated| && k >= 1 && i < n
    ensures Written(annotated, n, k)[i] == annotated[LastSampled(i, k)]
  {
    if i < n - 1 {
      WrittenFrame(annotated, n - 1, k, i);
      assert Written(annotated, n, k)[i] == Written(annotated, n - 1, k)[i];
    }
  }

  /**
   * Exactly one frame is written per input frame, and output frame `i` is
   * the most recently processed frame at or before `i`, drawn with all its
   * detections; since frame 0 is always processed, no raw frame is written.
   */
  lemma OutputFrame(frames: seq<VideoFrame>, k: int, m: Models, i: nat)
    requires k >= 1 && i < |frames|
    ensures |Written(AnnotatedFrames(frames, m), |frames|, k)| == |frames|
    ensures Written(AnnotatedFrames(frames, m), |frames|, k)[i] == AnnotatedFrame(frames[LastSampled(i, k)], m)
    ensures Written(AnnotatedFrames(frames, m), |frames|, k)[i].Drawn?
  {
    WrittenFrame(AnnotatedFrames(frames, m), |frames|, k, i);
  }

  /** The frames written, the thumbnail and the last annotated frame after the first `n` frames. */
  ghost predicate OutputSoFar(frames: seq<VideoFrame>, k: int, m: Models, n: nat,
                              thumbnail: Option<Image>, lastAnnotated: Option<Image>, written: seq<Image>)
    requires n <= |frames| && k >= 1
  {
    && thumbnail == (if n == 0 then None else Some(AnnotatedFrame(frames[0], m)))
    && lastAnnotated == (if n == 0 then None else Some(AnnotatedFrame(frames[LastSampled(n - 1, k)], m)))
    && written == Written(AnnotatedFrames(frames, m), n, k)
  }

  lemma RecordsStep(frames: seq<VideoFrame>, s: Sampling, m: Models, n: nat,
                    records: seq<FrameRecord>, processed: nat, records': seq<FrameRecord>, processed': nat)
    requires n < |frames| && s.frameInterval >= 1 && RecordsSoFar(frames, s, m, n, records, processed)
    requires Rem(n, s.frameInterval) == 0 ==> records' == records + [RecordAt(frames, n, s, m)] && processed' == processed + 1
    requires Rem(n, s.frameInterval) != 0 ==> records' == records && processed' == processed
    ensures RecordsSoFar(frames, s, m, n + 1, records', processed')
  {
    if Rem(n, s.frameInterval) != 0 {
      LastSampledOfSkipped(n, s.frameInterval);
    }
  }

  lemma TotalsStep(records: seq<FrameRecord>, objects: seq<string>, confidences: seq<real>,
                   threats: nat, verified: nat, analyzing: nat, peakFrame: nat, peakCount: nat, r: FrameRecord,
                   objects': seq<string>, confidences': seq<real>,
                   threats': nat, verified': nat, analyzing': nat, peakFrame': nat, peakCount': nat)
    requires TotalsOf(records, objects, confidences, threats, verified, analyzing, peakFrame, peakCount)
    requires objects' == objects + Names(r.detections) && confidences' == confidences + Confidences(r.detections)
    requires threats' == threats + CountStatus(r.detections, Threat)
    requires verified' == verified + CountStatus(r.detections, Verified)
    requires analyzing' == analyzing + CountOther(r.detections)
    requires |r.detections| > peakCount ==> peakFrame' == r.frameIndex && peakCount' == |r.detections|
    requires |r.detections| <= peakCount ==> peakFrame' == peakFrame && peakCount' == peakCount
    ensures TotalsOf(records + [r], objects', confidences', threats', verified', analyzing', peakFrame', peakCount')
  {
    assert (records + [r])[..|records|] == records;
    NamesAppend(AllKept(records), r.detections);
    CountAppend(AllKept(records), r.detections);
  }

  lemma OutputStep(frames: seq<VideoFrame>, k: int, m: Models, n: nat,
                   thumbnail: Option<Image>, lastAnnotated: Option<Image>, written: seq<Image>,
                   thumbnail': Option<Image>, lastAnnotated': Option<Image>, written': seq<Image>)
    requires n < |frames| && k >= 1 && OutputSoFar(frames, k, m, n, thumbnail, lastAnnotated, written)
    requires Rem(n, k) == 0 ==>
               var a := AnnotatedFrame(frames[n], m);
               thumbnail' == (if n == 0 then Some(a) else thumbnail) && lastAnnotated' == Some(a) && written' == written + [a]
    requires Rem(n, k) != 0 ==>
               && thumbnail' == thumbnail && lastAnnotated' == lastAnnotated
               && written' == written + [if lastAnnotated.Some? then lastAnnotated.value else frames[n].image]
    ensures OutputSoFar(frames, k, m, n + 1, thumbnail', lastAnnotated', written')
  {
    if Rem(n, k) == 0 {
      assert LastSampled(n, k) == n;
    } else {
      LastSampledOfSkipped(n, k);
    }
  }

  /** The summary built from running totals that match the records is `Summarize` of the records. */
  lemma SummarizeFromTotals(recs: seq<FrameRecord>, processed: nat, objects: seq<string>, confidences: seq<real>,
                            threats: nat, verified: nat, analyzing: nat, peakFrame: nat, peakCount: nat)
    requires processed == |recs| && TotalsOf(recs, objects, confidences, threats, verified, analyzing, peakFrame, peakCount)
    ensures Summarize(recs) == VideoSummary(processed, |confidences|, SortedUnique(objects),
                                            threats, verified, analyzing, Average(confidences), peakFrame)
  {
  }

  /** The locals that the frame loop of `detect_video` updates. */
  datatype LoopState = LoopState(
    records: seq<FrameRecord>,
    objects: seq<string>,
    confidences: seq<real>,
    threats: nat,
    verified: nat,
    analyzing: nat,
    thumbnail: Option<Image>,
    processed: nat,
    peakFrame: nat,
    peakCount: nat,
    lastAnnotated: Option<Image>,
    written: seq<Image>)

  /** The locals before the first frame. */
  const Initial: LoopState := LoopState([], [], [], 0, 0, 0, None, 0, 0, 0, None, [])

  /** The loop state after the first `n` frames: it is fully determined by the frames, the sampling and the models. */
  ghost predicate LoopInvariant(frames: seq<VideoFrame>, s: Sampling, m: Models, n: nat, st: LoopState)
    requires n <= |frames| && s.frameInterval >= 1
  {
    && RecordsSoFar(frames, s, m, n, st.records, st.processed)
    && TotalsOf(st.records, st.objects, st.confidences, st.threats, st.verified, st.analyzing, st.peakFrame, st.peakCount)
    && OutputSoFar(frames, s.frameInterval, m, n, st.thumbnail, st.lastAnnotated, st.written)
  }

  /**
   * One iteration of the frame loop on a sampled frame: it goes through the
   * image pipeline, its kept detections become a record and are added to the
   * totals, and it is written annotated.
   */
  method SampledStep(frames: seq<VideoFrame>, s: Sampling, m: Models, frameIdx: nat, st: LoopState) returns (st': LoopState)
    requires frameIdx < |frames| && s.frameInterval >= 1 && LoopInvariant(frames, s, m, frameIdx, st)
    requires Rem(frameIdx, s.frameInterval) == 0
    ensures LoopInvariant(frames, s, m, frameIdx + 1, st')
  {
    var annotated, dets := ProcessVideoFrame(frames[frameIdx], m);
    var kept := Kept(dets, s.threshold);
    var record := FrameRecord(frameIdx, Seconds(frameIdx, EffectiveFps(s.reportedFps)), kept);
    var objects, confidences, threats, verified, analyzing :=
      AccumulateStats(kept, st.objects, st.confidences, st.threats, st.verified, st.analyzing);
    var peakFrame, peakCount := st.peakFrame, st.peakCount;
    if |kept| > peakCount {
      peakCount := |kept|;
      peakFrame := frameIdx;
    }
    var thumbnail := st.thumbnail;
    if st.processed == 0 {
      thumbnail := Some(annotated);
    }
    st' := LoopState(st.records + [record], objects, confidences, threats, verified, analyzing,
                     thumbnail, st.processed + 1, peakFrame, peakCount, Some(annotated), st.written + [annotated]);
    assert RecordsSoFar(frames, s, m, frameIdx + 1, st'.records, st'.processed) by {
      assert record == RecordAt(frames, frameIdx, s, m);
      RecordsStep(frames, s, m, frameIdx, st.records, st.processed, st'.records, st'.processed);
    }
    assert TotalsOf(st'.records, objects, confidences, threats, verified, analyzing, peakFrame, peakCount) by {
      TotalsStep(st.records, st.objects, st.confidences, st.threats, st.verified, st.analyzing, st.peakFrame, st.peakCount,
                 record, objects, confidences, threats, verified, analyzing, peakFrame, peakCount);
    }
    assert OutputSoFar(frames, s.frameInterval, m, frameIdx + 1, st'.thumbnail, st'.lastAnnotated, st'.written) by {
      OutputStep(frames, s.frameInterval, m, frameIdx, st.thumbnail, st.lastAnnotated, st.written,
                 st'.thumbnail, st'.lastAnnotated, st'.written);
    }
  }

  /**
   * One iteration of the frame loop. A sampled frame is processed; any other
   * frame is written as the last annotated frame.
   */
  method FrameStep(frames: seq<VideoFrame>, s: Sampling, m: Models, frameIdx: nat, st: LoopState) returns (st': LoopState)
    requires frameIdx < |frames| && s.frameInterval >= 1 && LoopInvariant(frames, s, m, frameIdx, st)
    ensures LoopInvariant(frames, s, m, frameIdx + 1, st')
  {
    var k := s.frameInterval;
    RemIsMod(frameIdx, k);
    if frameIdx % k == 0 {
      st' := SampledStep(frames, s, m, frameIdx, st);
    } else {
      var frame := frames[frameIdx];
      st' := st.(written := st.written + [if st.lastAnnotated.Some? then st.lastAnnotated.value else frame.image]);
      RecordsStep(frames, s, m, frameIdx, st.records, st.processed, st'.records, st'.processed);
      OutputStep(frames, k, m, frameIdx, st.thumbnail, st.lastAnnotated, st.written, st'.thumbnail, st'.lastAnnotated, st'.written);
    }
  }

  /**
   * The frame loop of `detect_video` and the summary after it. The
   * thumbnail is the first processed frame.
   */
  method ProcessVideo(frames: seq<VideoFrame>, s: Sampling, m: Models, vitClasses: seq<string>) returns (out: VideoOutput)
    requires s.frameInterval >= 1
    ensures out.records == Records(frames, |frames|, s, m)
    ensures out.summary == Summarize(out.records)
    ensures out.written == Written(AnnotatedFrames(frames, m), |frames|, s.frameInterval)
    ensures out.thumbnail == if |frames| == 0 then None else Some(AnnotatedFrame(frames[0], m))
    ensures out.fps == EffectiveFps(s.reportedFps) && out.fps != 0.0
    ensures out.modelInfo == ModelInfo(m.classifierLoaded, if m.classifierLoaded then vitClasses else [])
  {
    var st := Initial;
    for frameIdx := 0 to |frames|
      invariant LoopInvariant(frames, s, m, frameIdx, st)
    {
      st := FrameStep(frames, s, m, frameIdx, st);
    }
    SummarizeFromTotals(st.records, st.processed, st.objects, st.confidences, st.threats, st.verified, st.analyzing,
                        st.peakFrame, st.peakCount);
    var totalDets := |st.confidences|;
    var avgConf := Average(st.confidences);
    var summary := VideoSummary(st.processed, totalDets, SortedUnique(st.objects),
                                st.threats, st.verified, st.analyzing, avgConf, st.peakFrame);
    var info := ModelInfo(m.classifierLoaded, if m.classifierLoaded then vitClasses else []);
    out := VideoOutput(st.records, st.written, st.thumbnail, summary, EffectiveFps(s.reportedFps), info);
  }

  /**
   * The error `detect_video` answers as written, `None` when it succeeds.
   * When the capture cannot be opened, the 400 raised inside `try` is
   * replaced in the `finally` clause, which reads `tmp_out` before that
   * variable has been assigned: the client receives a server error.
   */
  function DetectVideoErrorAsWritten(isOpened: bool, frameInterval: int, confidence: real): Option<HttpError>
  {
    if !(1 <= frameInterval <= 60 && 0.0 <= confidence <= 100.0) then Some(ValidationError)
    else if !isOpened then Some(ServerError)
    else None
  }

  /** As written, an upload the capture cannot open is a server error, where `DetectVideo` answers 400. */
  lemma UnopenableVideoIsServerError(frameInterval: int, confidence: real)
    requires 1 <= frameInterval <= 60 && 0.0 <= confidence <= 100.0
    ensures DetectVideoErrorAsWritten(false, frameInterval, confidence) == Some(ServerError)
    ensures DetectVideoErrorAsWritten(false, frameInterval, confidence) != Some(VideoOpenError)
  {
  }

  /**
   * `detect_video` with the open failure answered as intended: query
   * parameters out of range are refused before the handler runs, a file the
   * capture cannot open is refused with 400, and otherwise the frame loop
   * runs over the decoded frames. It agrees with the handler as written on
   * every other outcome.
   */
  method DetectVideo(isOpened: bool, frames: seq<VideoFrame>, frameInterval: int, confidence: real, reportedFps: real,
                     m: Models, vitClasses: seq<string>)
    returns (r: Result<VideoOutput, HttpError>)
    ensures !(1 <= frameInterval <= 60 && 0.0 <= confidence <= 100.0) ==> r == Failure(ValidationError)
    ensures 1 <= frameInterval <= 60 && 0.0 <= confidence <= 100.0 && !isOpened ==> r == Failure(VideoOpenError)
    ensures r.Success? <==> 1 <= frameInterval <= 60 && 0.0 <= confidence <= 100.0 && isOpened
    ensures r.Success? <==> DetectVideoErrorAsWritten(isOpened, frameInterval, confidence).None?
    ensures r.Failure? && r.error != VideoOpenError ==> DetectVideoErrorAsWritten(isOpened, frameInterval, confidence) == Some(r.error)
    ensures r.Success? ==>
              var recs := Records(frames, |frames|, Sampling(frameInterval, confidence, reportedFps), m);
              && r.value.records == recs
              && r.value.summary == Summarize(recs)
              && r.value.written == Written(AnnotatedFrames(frames, m), |frames|, frameInterval)
              && r.value.thumbnail == (if |frames| == 0 then None else Some(AnnotatedFrame(frames[0], m)))
              && r.value.fps == EffectiveFps(reportedFps)
              && r.value.modelInfo == ModelInfo(m.classifierLoaded, if m.classifierLoaded then vitClasses else [])
  {
    if !(1 <= frameInterval <= 60 && 0.0 <= confidence <= 100.0) {
      return Failure(ValidationError);
    }
    if !isOpened {
      return Failure(VideoOpenError);
    }
    var out := ProcessVideo(frames, Sampling(frameInterval, confidence, reportedFps), m, vitClasses);
    r := Success(out);
  }
}
