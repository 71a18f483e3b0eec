# Decision and bookkeeping logic of the detection backend

This project is a Dafny model of the logic in `backend/main.py`, the FastAPI
server behind the drone and military-object detector. The two neural networks
are not modelled. The detector (YOLO) is represented by its boxes: corners,
score and class id. The classifier (ViT) is represented by its answer for each
box's crop, together with whether a classifier is loaded at all. Around those
inputs the model follows the server's own code:

- `status.dfy`: `determine_status`, the keyword-and-threshold heuristic that
  labels a detection "threat", "verified" or "analyzing".
- `fusion.dfy`: `classify_crop` without a model, and the fusion of detector
  and classifier answers into one label, confidence and status per box. This
  covers the box loop of `run_detection`.
- `annotator.dfy`: the choices `draw_detections` makes for each detection.
  These are the integer rectangle, the status colour with its gray fallback,
  and the text "name NN%". An annotated image is its source together with the
  list of marks drawn on it.
- `pipeline.dfy`: `detect_pipeline`, which rejects an undecodable upload and
  returns one crop record per detection. Also `detect`, and the difference
  between the two on an undecodable upload.
- `video.dfy`: the `detect_video` frame loop and its summary.
  - Every `frame_interval`-th frame is processed, and its detections are
    filtered by the threshold into a frame record.
  - One output frame is written per input frame.
  - Running totals become the summary: counts per status, mean confidence,
    sorted unique names, and the peak frame.
  - The loop is an imperative `for` loop. One iteration is the method
    `FrameStep`, proved against the specification functions `Records`,
    `Summarize` and `Written`.
- `training.dfy`: the retraining state machine of `retrain_model` and
  `_train`.
  - The shared `train_state` dictionary, the globals `vit_model` and
    `VIT_CLASSES`, and the classifier's weight file are fields of a class.
  - A run is the reset (`Begin`), then the epoch loop (`RunEpochs`), then the
    swap or the failure (`Run`).
  - A start request issued between the reset and the end of a run sees the
    status "training".
- `text.dfy`: stand-ins for the Python built-ins the backend relies on:
  `str.lower` for ASCII, the substring test, string order, `sorted(set(...))`
  and `str(n)`.
- `wrappers.dfy`: `Option`, `Result`, and an HTTP error as a status code with
  its detail text.

Confidences are `real` percentages. Statuses and labels are strings, as in the
source. The per-frame timestamp is kept as the exact pair (frame index, frame
rate).

## Model

| member | source | states |
|---|---|---|
| `Status.StatusCases` | backend/main.py:189-196 | The status is always one of the three. It is "threat" exactly when a keyword occurs in the lower-cased label and the confidence is above 80. Otherwise it is "verified" exactly above 85, and "analyzing" in every other case. |
| `Status.ThreatWinsOverVerified` | backend/main.py:191-194 | A keyword label above 85 is a threat, not verified. |
| `Status.StatusMonotoneInConfidence` | backend/main.py:191-196 | Raising the confidence never demotes a threat and never returns a status to "analyzing". |
| `Status.StatusIgnoresCase` | backend/main.py:192 | The label is compared case-insensitively: lower-casing it first changes nothing. |
| `Status.DroneIsThreat` | backend/main.py:190-193 | Any label containing "drone" in any case is a threat above 80. |
| `Status.TankIsNeverThreat` | backend/main.py:190-196 | "tank" matches no keyword: it is "verified" above 85 and "analyzing" otherwise. |
| `Fusion.DetectorLabel` | backend/main.py:213 | A class id missing from the detector's name table is labelled "Unknown"; a known id gets its name. |
| `Fusion.ClassifyCrop` | backend/main.py:177-180 | Without a loaded classifier the answer is ("Unknown", 0). |
| `Fusion.Fuse` | backend/main.py:220-221 | With a classifier, the label is the classifier's exactly when its confidence is strictly higher, and the confidence is at least both inputs. Without one, the detector's answer is used and no classifier fields are reported. |
| `Fusion.DetectionFields` | backend/main.py:220-234 | A detection's status is `determine_status` of its own label and confidence. Its confidence is at least the detector's and its box is the detector's. It reports classifier fields exactly when a classifier is loaded. |
| `Fusion.RunDetection` | backend/main.py:209-236 | The box loop yields one detection per box, in the detector's order. |
| `Fusion.FusionPicksMoreConfident` | backend/main.py:220-221 | With a classifier, (label, confidence) is the more confident of the two answers, and ties go to the detector. |
| `Fusion.DegradedModeUsesDetector` | backend/main.py:179-180 | Without a classifier, a detection is the detector's label and confidence with no classifier fields, whatever the crop holds. |
| `Fusion.UnmappedClassIsThreat` | backend/main.py:190-193 | In degraded mode, an unmapped class id above 80 is a threat, because its fallback label "Unknown" contains a keyword. |
| `Fusion.DroneExample` | backend/main.py:220-223 | A 90% box that the classifier calls "drone" at 95% becomes a threat labelled "drone" at 95. |
| `Annotator.StatusColor` | backend/main.py:249-258 | The three statuses map to red, green and amber; anything else maps to gray. |
| `Annotator.ColorIdentifiesStatus` | backend/main.py:249-253 | The three statuses get three distinct colours, none of them gray. |
| `Annotator.Trunc` | backend/main.py:257 | `int(x)` truncates toward zero on both signs. |
| `Annotator.RoundHalfEven` | backend/main.py:260 | The `.0f` rounding is within one half of the value and breaks ties to the even integer. |
| `Annotator.RoundHalfEvenUnique` | backend/main.py:260 | Those two properties determine the rounding uniquely. |
| `Annotator.LabelShowsRoundedConfidence` | backend/main.py:260 | For a non-negative confidence the text is the name, a space, decimal digits and "%". The digits read back as the rounded confidence. |
| `Annotator.MarksOfBoxes` | backend/main.py:255-262 | When every detection has a box, mark `i` is drawn for detection `i`, with its box, colour and text. |
| `Annotator.Annotate` | backend/main.py:254-263 | Drawing works on a copy: the result is the source image with marks drawn on it. |
| `Annotator.DetectionsAreDrawn` | backend/main.py:255-262 | Every detection built from a detector box is drawn, in its status colour, and never in gray. |
| `Pipeline.DetectPipeline` | backend/main.py:318-415 | A non-empty upload that does not decode is refused with 400 "Invalid image file". Otherwise the result has one detection per box and one crop per box. Each crop repeats its detection's label, status, classifier fields and box beside the detector's own label and confidence. The annotated image draws the detections. The reported classifier classes are empty when no classifier is loaded. |
| `Pipeline.CropsMatchDetections` | backend/main.py:376-388 | A crop record agrees with its detection on decision and box, and carries the detector's label and confidence. |
| `Pipeline.UndecodableUploadIsServerError` | backend/main.py:287-293 | `detect` as written turns an undecodable upload into a server error, where `detect_pipeline` answers 400. |
| `Pipeline.Detect` | backend/main.py:287-293 | `detect` with the decode check: 400 exactly for an undecodable upload, and otherwise one detection per box. |
| `Video.EffectiveFps` | backend/main.py:488 | A reported frame rate of 0 is replaced by 30, so the rate is never 0. |
| `Video.RemIsMod` | backend/main.py:519 | The sampling test used in the model is `frame_idx % frame_interval`. |
| `Video.KeptMembership` | backend/main.py:524 | A detection is kept exactly when it is among the frame's detections and its confidence reaches the threshold. |
| `Video.ProcessVideoFrame` | backend/main.py:457-461 | A frame yields all its detections, and the frame drawn with all of them, including those below the threshold. |
| `Video.RecordsCount` | backend/main.py:519-554 | The number of records, which is `totalFramesProcessed`, is the number of multiples of the interval below the frame count. |
| `Video.RecordTimestamps` | backend/main.py:488-526 | A record's timestamp is its frame index divided by the frame rate in effect, which is never 0. |
| `Video.RecordsAreSampledFrames` | backend/main.py:519-531 | Each record belongs to a frame whose index is a multiple of the interval. It carries that frame's index and timestamp, and the frame's detections that reach the threshold. |
| `Video.RecordsAscending` | backend/main.py:519-560 | Records are in strictly ascending frame order. |
| `Video.RecordsComplete` | backend/main.py:519-531 | Every frame whose index is a multiple of the interval has a record. |
| `Video.RecordsMeetThreshold` | backend/main.py:524-531 | Every detection in every record has confidence at least the threshold. |
| `Video.AllKeptMembership` | backend/main.py:533-536 | The detections summarised are exactly those of the records. |
| `Video.RecordHasStatuses` | backend/main.py:223 | Every recorded detection has one of the three statuses. |
| `Video.AccumulateStats` | backend/main.py:534-542 | The inner loop appends the names and confidences of the kept detections. It adds their "threat" and "verified" counts, and counts every other status under "analyzing". |
| `Video.CountPartition` | backend/main.py:537-542 | threats + verified + analyzing equals the number of detections counted. |
| `Video.CountOtherIsAnalyzing` | backend/main.py:541-542 | When every status is one of the three, the `else` branch counts exactly the "analyzing" ones. |
| `Video.SummaryAnalyzingCountsAnalyzing` | backend/main.py:537-542 | In the video summary, `analyzing` is the number of "analyzing" detections. |
| `Video.PeakFrameIsFirstMaximum` | backend/main.py:508-509 | No record has more detections than the peak count. With no detections the peak frame is 0. Otherwise it is the frame of the first record reaching the maximum, which is strictly more than every earlier record. |
| `Video.PeakAtUnique` | backend/main.py:544-546 | At most one record is the first maximum. |
| `Video.PeakFrameIsPeak` | backend/main.py:544-546 | The peak frame computed by the loop meets that description. |
| `Video.NamesMembership` | backend/main.py:535 | The collected names are exactly the names of the kept detections. |
| `Video.SummaryCounts` | backend/main.py:586-600 | `totalFramesProcessed` is the number of records, and `totalDetections` the number of kept detections. threats + verified + analyzing = totalDetections. |
| `Video.SummaryUniqueObjects` | backend/main.py:588 | `uniqueObjects` is strictly sorted, so free of duplicates. It holds exactly the names of the kept detections. |
| `Video.SummaryPeakFrame` | backend/main.py:602 | `peakDetectionFrame` is the first frame with the most kept detections, or 0 when none has any. |
| `Video.AverageIsMean` | backend/main.py:587 | The average is 0 for no values, and otherwise times the count it gives the sum. |
| `Video.SummaryAverageIsMean` | backend/main.py:586-587 | `avgConfidence` is the mean of the kept confidences, and 0 when there are none. |
| `Video.LastSampledIsMostRecent` | backend/main.py:553-558 | The frame whose annotation is reused for frame `i` is the latest processed frame at or before `i`. |
| `Video.LastSampledOfSkipped` | backend/main.py:556-558 | A skipped frame reuses the same annotated frame as its predecessor. |
| `Video.WrittenFrame` | backend/main.py:553-558 | Output frame `i` is the annotation of the latest processed frame at or before `i`. |
| `Video.OutputFrame` | backend/main.py:553-558 | Exactly one frame is written per input frame. Each is a drawn frame: the latest processed one with all its detections. Frame 0 is always processed, so the raw-frame fallback is never written. |
| `Video.SampledStep` | backend/main.py:519-555 | Processing a sampled frame preserves the loop invariant. Its record, its kept detections' totals, a possibly higher peak, the thumbnail for the first processed frame, and its annotation as the frame written are all those of the frames seen so far. |
| `Video.FrameStep` | backend/main.py:519-560 | One iteration preserves the loop invariant. Records, totals, peak, thumbnail, last annotated frame and written frames stay those of the frames seen so far. |
| `Video.ProcessVideo` | backend/main.py:499-614 | The loop's records are `Records` of all frames, and the summary is `Summarize` of them. The written frames are `Written` of the annotated frames. The thumbnail is frame 0 drawn. The response reports the frame rate in effect, which is never 0. Its `modelInfo` lists the classifier's classes only when a classifier is loaded. |
| `Video.UnopenableVideoIsServerError` | backend/main.py:484-619 | As written, an upload the capture cannot open gets a server error, not the 400 raised for it. The 400 is raised at line 486, inside `try`. The `finally` clause reads `tmp_out` at line 619, but `tmp_out` is first assigned at line 494. |
| `Video.DetectVideo` | backend/main.py:464-486 | This is the corrected handler (see Findings). An out-of-range interval or threshold is refused with 422, and a video that cannot be opened with 400. Otherwise the result is that of the frame loop, including its `fps` and `modelInfo`. It succeeds exactly when the handler as written succeeds. It fails with the same error except on an unopenable video. |
| `Text.SortedUnique` | backend/main.py:588 | `sorted(set(xs))` is strictly sorted and holds exactly the elements of `xs`. |
| `Text.SortedListUnique` | backend/main.py:588 | Two strictly sorted lists with the same elements are equal, so `sorted(set(xs))` has one possible value. |
| `Text.ParseDigitsOfDigits` | backend/main.py:260 | The decimal text of a number reads back as the number. |
| `Training.ClassesFor` | backend/main.py:1012-1015 | A run trains for the loaded classes, or for the ten default ones when none are loaded. |
| `Training.NumClassesFor` | backend/main.py:1011 | The class count used to build the model is the length of that class list. |
| `Training.AccuracyIsPercentage` | backend/main.py:1101-1103 | An accuracy is a percentage between 0 and 100. |
| `Training.EpochsCompleted` | backend/main.py:1065-1139 | The number of epochs that finish is the index of the first epoch that raises, or all of them. |
| `Training.BestMonotone` | backend/main.py:1105-1106 | `best_acc` never decreases. |
| `Training.SavedIsFirstBest` | backend/main.py:1105-1112 | `best_acc` is the largest validation accuracy seen, or 0 when none is positive. The weights saved are those of the first epoch reaching it. |
| `Training.SavedOnStrictImprovement` | backend/main.py:1105-1112 | A checkpoint is written, and `best_acc` changes, exactly when the epoch's accuracy is strictly above `best_acc`. |
| `Training.UnfreezeOnce` | backend/main.py:1066-1071 | The backbone becomes trainable at `unfreeze_epoch` and at no other epoch, and it stays trainable. |
| `Training.ProgressReportsRun` | backend/main.py:1114-1124 | During a run the state reports "training", the epochs finished, the total, and `best_acc`. The last validation accuracy is never above `best_acc`. |
| `Training.Snapshot` | backend/main.py:954-969 | The status reported is always one of the four names, and is "training" exactly when the state's status is Training. |
| `Training.TrainingController.constructor` | backend/main.py:751-762 | The server starts idle with zero metrics and "No training in progress". |
| `Training.TrainingController.RequestRetrain` | backend/main.py:988-994 | A request during a run is refused with 409, and one with a missing dataset with 400. Neither changes any state. An accepted request answers "training" at epoch 0. |
| `Training.TrainingController.Begin` | backend/main.py:1001-1007 | Starting a run resets the state to "training", with zero metrics and the new epoch total. |
| `Training.TrainingController.EndEpoch` | backend/main.py:1105-1124 | The end of an epoch keeps `train_state`, `best_acc` and the weight file equal to their values for the epochs finished. |
| `Training.TrainingController.RunEpochs` | backend/main.py:1065-1124 | The loop stops at the first epoch that raises. Every started epoch's optimizer follows the unfreeze schedule, and the state, best accuracy and weight file are those of the finished epochs. |
| `Training.TrainingController.Run` | backend/main.py:1009-1139 | A setup error or an epoch that raises ends the run as "failed", with the loaded classifier and classes unchanged. A run that finishes ends "completed", with the last epoch's weights and the run's classes swapped in. In both cases the weight file holds the best epoch's weights if any epoch improved. |
| `Training.TrainingController.Train` | backend/main.py:996-1139 | The reset followed by the run. A run ends "completed" exactly when nothing raised, and "failed" otherwise. A failed run leaves the classifier as it was. The state records the epochs finished, `best_acc` and the error or completion message. The weight file holds the first-best epoch's weights, if any epoch improved. On completion, the last epoch's weights and the run's classes are swapped in. |

## Left out

- Neural-network inference (YOLO, ViT, softmax, transforms). Boxes and classifier answers are inputs.
- Rounding to decimal places is left out. This covers `round(x * 100, 2)` of confidences, `round(x, 1)` of box corners, the 3-decimal timestamp, the 2-decimal average and frame rate, and the rounding of training metrics. The model keeps the exact values; floating point is not modelled.
- Random ids, wall-clock times, processing durations and `elapsed_sec`.
- Pixel work: cropping, drawing rectangles and text, JPEG and base64 encoding, and thumbnail resizing. An image is modelled as its source plus the marks drawn on it.
- The video capture and writer, the ffmpeg re-encode, temporary files and their clean-up. Frames arrive as a decoded sequence, and "could not open" is a flag.
- `total_frames`, width and height metadata, and the constant "yolo" and "device" entries of `modelInfo` in both the image and the video response.
- Pipeline.DetectPipeline: an empty upload makes `cv2.imdecode` raise before the `None` test, so the server answers 500. In the model an upload of `None` stands only for non-empty bytes that fail to decode, and the empty upload is not modelled.
- Video.DetectVideo: for an out-of-range `frame_interval` or `confidence`, FastAPI answers 422 with its list of the failed constraints. The model keeps only the status code, with the fixed placeholder detail of `Video.ValidationError` standing for that list.
- The WebSocket feed, MongoDB CRUD, `/`, `/health`, `/detect/annotated` and the `/model/...` endpoints other than retraining and status.
- Threads and the lock. A run is a sequence of method calls, and another request can only come between the reset and the rest of the run.
- Two retraining requests that both pass the "training" test before either thread has reset the state are both accepted by the server. In the model a request and its reset do not interleave with another request.
- Data loading, batching, the train/validation split, the loss and the cosine learning-rate steps within an epoch. An epoch arrives as its loss sums, correct and total counts, and an identity for the weights it leaves.
- Training.TrainingController.RunEpochs: an exception is modelled as raised before the epoch's bookkeeping. An exception inside `torch.save` itself is not distinguished.
- Text.Lower: lower-cases ASCII letters only, where Python's `str.lower` also folds non-ASCII letters.
- Video.EffectiveFps: treats only 0 as a missing frame rate; NaN is a floating-point value the model does not have.
- Default query values: `frame_interval=5` and `confidence=25.0` for the video endpoint, and `epochs=20` and `unfreeze_epoch=5` for retraining. The model takes every parameter as an explicit argument, so FastAPI's filling-in of omitted parameters is not modelled.
- Loading the models at server start, and `backend/train_classifier.py`. The starting classifier and classes are constructor arguments.

## Findings

| source | as written | input that shows it | evidently intended | confidence | as-written member | corrected member |
|---|---|---|---|---|---|---|
| backend/main.py:287-293 | `detect` passes the result of `cv2.imdecode` to `run_detection` unchecked; an undecodable upload fails there with a server error | an upload whose bytes are not an image, so decoding gives `None` | refuse it with 400 "Invalid image file", as `detect_pipeline` does at lines 322-324 | not executed; medium | `Pipeline.UndecodableUploadIsServerError` | `Pipeline.Detect` |
| backend/main.py:484-619 | `detect_video` raises 400 "Could not open video file" at line 486, inside `try`. The `finally` clause at line 619 then reads `tmp_out`, which is first assigned at line 494, so an `UnboundLocalError` replaces the 400 and the client gets a server error | an upload that `cv2.VideoCapture` cannot open | answer 400 "Could not open video file" | not executed; medium | `Video.UnopenableVideoIsServerError` | `Video.DetectVideo` |
