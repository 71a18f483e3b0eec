/**
 * The retraining state machine of backend/main.py: the `/model/retrain`
 * request, which refuses a second run and a missing dataset, and the
 * background run `_train`, which resets the shared `train_state`, runs the
 * epochs, keeps the best validation accuracy, saves a checkpoint on every
 * strict improvement, unfreezes the backbone once, and ends either by
 * swapping the trained classifier in or by failing with the classifier
 * left in place. The networks are outside the model: each epoch arrives as
 * the sums the loops accumulate and the identity of the weights it leaves
 * behind, or as the exception it raised.
 */
module Training {
  import opened Wrappers

  /** The value of `train_state["status"]`. */
  datatype RunStatus = Idle | Training | Completed | Failed
  {
    function Name(): (s: string)
      ensures s in ["idle", "training", "completed", "failed"]
    {
      match this
      case Idle => "idle"
      case Training => "training"
      case Completed => "completed"
      case Failed => "failed"
    }
  }

  /** Which text `train_state["message"]` holds. */
  datatype Message =
    | NoTraining                                          // "No training in progress"
    | Initialising                                        // "Initialising..."
    | PretrainedLoaded                                    // "Pretrained vit_classifier.pth loaded, preparing data..."
    | EpochDone(epoch: int, total: int, valAcc: real)     // "Epoch {e}/{n} — val_acc {va:.2f}%"
    | Complete(bestAcc: real)                             // "Training complete! Best val accuracy: ..."
    | Error(detail: string)                               // the exception's text
    | Started                                             // the text of the response to a start request

  /** What the loops over the training and validation batches accumulate in one epoch. */
  datatype EpochCounts = EpochCounts(
    trainLossSum: real,
    trainCorrect: nat,
    trainTotal: nat,
    valLossSum: real,
    valCorrect: nat,
    valTotal: nat,
    weights: nat)   // identifies the model's weights at the end of the epoch

  /** An epoch either runs to its end or raises. */
  datatype EpochOutcome = Finished(counts: EpochCounts) | Raised(error: string)

  /** What `torch.save` writes to the classifier's weight file. */
  datatype Checkpoint = Checkpoint(weights: nat, classes: seq<string>, numClasses: nat)

  /** The optimizer an epoch trains with: whether the backbone is trainable, the base learning rate and `T_max`. */
  datatype OptimizerSetting = OptimizerSetting(unfrozen: bool, lr: real, tMax: int)

  /** The shared dictionary `train_state`, without `elapsed_sec`. */
  datatype TrainState = TrainState(
    status: RunStatus,
    currentEpoch: int,
    totalEpochs: int,
    trainLoss: real,
    trainAcc: real,
    valLoss: real,
    valAcc: real,
    bestAcc: real,
    message: Message)

  /** `train_state` as the server starts. */
  const InitialState: TrainState := TrainState(Idle, 0, 0, 0.0, 0.0, 0.0, 0.0, 0.0, NoTraining)

  /** `train_state` after the reset at the start of a run of `epochs` epochs. */
  function Begun(epochs: int): TrainState
  {
    TrainState(Training, 0, epochs, 0.0, 0.0, 0.0, 0.0, 0.0, Initialising)
  }

  /** `TrainStatusResponse` without `elapsedSec`. */
  datatype TrainStatusResponse = TrainStatusResponse(
    status: string,
    currentEpoch: int,
    totalEpochs: int,
    trainLoss: real,
    trainAcc: real,
    valLoss: real,
    valAcc: real,
    bestAcc: real,
    message: Message)

  const InProgress: HttpError := HttpError(409, "Training already in progress")

  function DatasetNotFound(dataDir: string): HttpError
  {
    HttpError(400, "Dataset path not found: " + dataDir)
  }

  /** The class list used when no classifier classes are loaded. */
  const DefaultClasses: seq<string> :=
    ["aircraft", "artelary", "camo_soldier", "civilian_vehical", "mil_truck",
     "mil_vehical", "soldier", "tank", "warship", "weapons"]

  /** The classes a run trains for: the loaded ones, or the default ten. */
  function ClassesFor(vitClasses: seq<string>): (r: seq<string>)
    ensures |vitClasses| > 0 ==> r == vitClasses
    ensures |vitClasses| == 0 ==> r == DefaultClasses && |r| == 10
  {
    if |vitClasses| > 0 then vitClasses else DefaultClasses
  }

  /** `len(VIT_CLASSES) if VIT_CLASSES else 10`: always the length of the class list trained for. */
  function NumClassesFor(vitClasses: seq<string>): (n: nat)
    ensures n == |ClassesFor(vitClasses)| && n >= 1
  {
    if |vitClasses| > 0 then |vitClasses| else 10
  }

  /** A percentage of correct answers; 0 for an empty split. */
  function Accuracy(correct: nat, total: nat): real
  {
    if total == 0 then 0.0 else correct as real / total as real * 100.0
  }

  /** The mean loss per sample; 0 for an empty split. */
  function MeanLoss(sum: real, total: nat): real
  {
    if total == 0 then 0.0 else sum / total as real
  }

  lemma AccuracyIsPercentage(correct: nat, total: nat)
    requires correct <= total
    ensures 0.0 <= Accuracy(correct, total) <= 100.0
  {
    if total > 0 {
      assert correct as real / total as real <= 1.0;
    }
  }

  function ValAcc(c: EpochCounts): real
  {
    Accuracy(c.valCorrect, c.valTotal)
  }

  /** Number of epochs `range(epochs)` runs. */
  function EpochsRun(epochs: int): nat
  {
    if epochs > 0 then epochs else 0
  }

  /** The number of epochs that finish before the first one that raises, counting from `i`, up to `limit`. */
  function EpochsCompleted(outcomes: seq<EpochOutcome>, i: nat, limit: nat): (k: nat)
    requires i <= limit <= |outcomes|
    ensures i <= k <= limit
    ensures forall j :: i <= j < k ==> outcomes[j].Finished?
    ensures k < limit ==> outcomes[k].Raised?
    decreases limit - i
  {
    if i == limit then limit
    else if outcomes[i].Raised? then i
    else EpochsCompleted(outcomes, i + 1, limit)
  }

  predicate FinishedUpTo(outcomes: seq<EpochOutcome>, n: nat)
  {
    n <= |outcomes| && forall j :: 0 <= j < n ==> outcomes[j].Finished?
  }

  /** `best_acc` after `n` finished epochs. */
  function Best(outcomes: seq<EpochOutcome>, n: nat): real
    requires FinishedUpTo(outcomes, n)
  {
    if n == 0 then 0.0
    else
      var va := ValAcc(outcomes[n - 1].counts);
      if va > Best(outcomes, n - 1) then va else Best(outcomes, n - 1)
  }

  /** The epoch whose weights the run last saved after `n` finished epochs, if any. */
  function SavedEpoch(outcomes: seq<EpochOutcome>, n: nat): (r: Option<nat>)
    requires FinishedUpTo(outcomes, n)
    ensures r.Some? ==> r.value < n
  {
    if n == 0 then None
    else if ValAcc(outcomes[n - 1].counts) > Best(outcomes, n - 1) then Some(n - 1)
    else SavedEpoch(outcomes, n - 1)
  }

  /** The weight file after `n` finished epochs: the last save of this run, or what was there before. */
  function CheckpointAfter(initial: Option<Checkpoint>, outcomes: seq<EpochOutcome>, n: nat, classes: seq<string>): Option<Checkpoint>
    requires FinishedUpTo(outcomes, n)
  {
    match SavedEpoch(outcomes, n)
    case Some(j) => Some(Checkpoint(outcomes[j].counts.weights, classes, |classes|))
    case None => initial
  }

  /** The optimizer of epoch `e`: the backbone is trainable from `unfreezeEpoch` on, with a tenth of the learning rate. */
  function Setting(e: nat, epochs: int, lr: real, unfreezeEpoch: int): OptimizerSetting
  {
    if 0 <= unfreezeEpoch <= e then OptimizerSetting(true, lr * 0.1, epochs - unfreezeEpoch)
    else OptimizerSetting(false, lr, epochs)
  }

  /** The weights a completed run swaps in: the last epoch's, or the starting weights when no epoch ran. */
  function FinalWeights(outcomes: seq<EpochOutcome>, n: nat, start: nat): nat
    requires FinishedUpTo(outcomes, n)
  {
    if n == 0 then start else outcomes[n - 1].counts.weights
  }

  /** `best_acc` never decreases. */
  lemma {:induction false} BestMonotone(outcomes: seq<EpochOutcome>, n1: nat, n2: nat)
    requires n1 <= n2 && FinishedUpTo(outcomes, n2)
    ensures Best(outcomes, n1) <= Best(outcomes, n2)
  {
    if n1 < n2 {
      BestMonotone(outcomes, n1, n2 - 1);
    }
  }

  /**
   * `best_acc` is the largest validation accuracy seen, or 0 when none was
   * positive; the saved weights are those of the first epoch reaching it.
   */
  lemma {:induction false} SavedIsFirstBest(outcomes: seq<EpochOutcome>, n: nat)
    requires FinishedUpTo(outcomes, n)
    ensures Best(outcomes, n) >= 0.0
    ensures forall j :: 0 <= j < n ==> ValAcc(outcomes[j].counts) <= Best(outcomes, n)
    ensures SavedEpoch(outcomes, n).None? ==> Best(outcomes, n) == 0.0
    ensures SavedEpoch(outcomes, n).Some? ==>
              var s := SavedEpoch(outcomes, n).value;
              && ValAcc(outcomes[s].counts) == Best(outcomes, n)
              && forall j :: 0 <= j < s ==> ValAcc(outcomes[j].counts) < Best(outcomes, n)
  {
    if n > 0 {
      SavedIsFirstBest(outcomes, n - 1);
    }
  }

  /** A save happens exactly on a strict improvement of `best_acc`. */
  lemma SavedOnStrictImprovement(outcomes: seq<EpochOutcome>, n: nat)
    requires FinishedUpTo(outcomes, n + 1)
    ensures (SavedEpoch(outcomes, n + 1) != SavedEpoch(outcomes, n)) <==> ValAcc(outcomes[n].counts) > Best(outcomes, n)
    ensures (Best(outcomes, n + 1) != Best(outcomes, n)) <==> ValAcc(outcomes[n].counts) > Best(outcomes, n)
  {
  }

  /** The backbone is unfrozen once, at `unfreezeEpoch`, and stays unfrozen. */
  lemma UnfreezeOnce(epochs: int, lr: real, unfreezeEpoch: int, e1: nat, e2: nat)
    requires e1 <= e2
    ensures Setting(e1, epochs, lr, unfreezeEpoch).unfrozen ==> Setting(e2, epochs, lr, unfreezeEpoch).unfrozen
    ensures (Setting(e2, epochs, lr, unfreezeEpoch).unfrozen
             && (e2 == 0 || !Setting(e2 - 1, epochs, lr, unfreezeEpoch).unfrozen))
            <==> e2 == unfreezeEpoch
  {
  }

  /** The update of `train_state` at the end of epoch `e`, which produced `c` and left `best_acc` at `best`. */
  function EpochEnd(st: TrainState, e: nat, epochs: int, c: EpochCounts, best: real): TrainState
  {
    st.(currentEpoch := e + 1,
        trainLoss := MeanLoss(c.trainLossSum, c.trainTotal), trainAcc := Accuracy(c.trainCorrect, c.trainTotal),
        valLoss := MeanLoss(c.valLossSum, c.valTotal), valAcc := ValAcc(c),
        bestAcc := best, message := EpochDone(e + 1, epochs, ValAcc(c)))
  }

  /** `train_state` during a run once `e` epochs have finished and no exception was raised. */
  function Progress(outcomes: seq<EpochOutcome>, e: nat, epochs: int): TrainState
    requires FinishedUpTo(outcomes, e)
  {
    if e == 0 then Begun(epochs).(message := PretrainedLoaded)
    else EpochEnd(Begun(epochs), e - 1, epochs, outcomes[e - 1].counts, Best(outcomes, e))
  }

  /** The state shown during a run reports the epochs finished so far and the best accuracy so far. */
  lemma ProgressReportsRun(outcomes: seq<EpochOutcome>, e: nat, epochs: int)
    requires FinishedUpTo(outcomes, e)
    ensures var st := Progress(outcomes, e, epochs);
            && st.status == Training && st.currentEpoch == e && st.totalEpochs == epochs
            && st.bestAcc == Best(outcomes, e)
            && (e > 0 ==> st.valAcc == ValAcc(outcomes[e - 1].counts) && st.valAcc <= st.bestAcc)
  {
    if e > 0 {
      SavedIsFirstBest(outcomes, e);
    }
  }

  /** `train_status`: the state as the client sees it. */
  function Snapshot(st: TrainState): (r: TrainStatusResponse)
    ensures r.status in ["idle", "training", "completed", "failed"]
    ensures r.status == "training" <==> st.status == Training
  {
    TrainStatusResponse(st.status.Name(), st.currentEpoch, st.totalEpochs, st.trainLoss, st.trainAcc,
                        st.valLoss, st.valAcc, st.bestAcc, st.message)
  }

  /** `train_state` together with the globals `vit_model` and `VIT_CLASSES` and the classifier's weight file. */
  class TrainingController {
    var state: TrainState
    /** The loaded classifier's weights, `None` when no classifier is loaded. */
    var vitModel: Option<nat>
    var vitClasses: seq<string>
    /** The classifier's weight file. */
    var checkpoint: Option<Checkpoint>

    constructor (model: Option<nat>, classes: seq<string>, file: Option<Checkpoint>)
      ensures state == InitialState
      ensures vitModel == model && vitClasses == classes && checkpoint == file
    {
      state := InitialState;
      vitModel := model;
      vitClasses := classes;
      checkpoint := file;
    }

    /**
     * `retrain_model` up to the start of the thread: a run in progress is
     * refused with 409, a missing dataset with 400; it changes no state.
     */
    method RequestRetrain(dataDir: string, dataDirExists: bool, epochs: int)
      returns (r: Result<TrainStatusResponse, HttpError>)
      ensures state.status == Training ==> r == Failure(InProgress)
      ensures state.status != Training && !dataDirExists ==> r == Failure(DatasetNotFound(dataDir))
      ensures state.status != Training && dataDirExists ==>
                r == Success(TrainStatusResponse("training", 0, epochs, 0.0, 0.0, 0.0, 0.0, 0.0, Started))
    {
      if state.status == Training {
        return Failure(InProgress);
      }
      if !dataDirExists {
        return Failure(DatasetNotFound(dataDir));
      }
      r := Success(TrainStatusResponse("training", 0, epochs, 0.0, 0.0, 0.0, 0.0, 0.0, Started));
    }

    /** The reset at the start of `_train`. */
    method Begin(epochs: int)
      modifies this
      ensures state == Begun(epochs)
      ensures vitModel == old(vitModel) && vitClasses == old(vitClasses) && checkpoint == old(checkpoint)
    {
      state := Begun(epochs);
    }

    /** `train_state`, `best_acc` and the weight file once `e` epochs of a run have finished. */
    ghost predicate Ongoing(outcomes: seq<EpochOutcome>, e: nat, epochs: int, initial: Option<Checkpoint>,
                            classes: seq<string>, best: real)
      reads this
      requires FinishedUpTo(outcomes, e)
    {
      && state == Progress(outcomes, e, epochs) && best == Best(outcomes, e)
      && checkpoint == CheckpointAfter(initial, outcomes, e, classes)
    }

    /** The end of a finished epoch: a save on a strict improvement, then the update of `train_state`. */
    method EndEpoch(outcomes: seq<EpochOutcome>, e: nat, epochs: int, ghost initial: Option<Checkpoint>,
                    classes: seq<string>, best: real) returns (best': real)
      requires FinishedUpTo(outcomes, e + 1) && Ongoing(outcomes, e, epochs, initial, classes, best)
      modifies this
      ensures Ongoing(outcomes, e + 1, epochs, initial, classes, best')
      ensures vitModel == old(vitModel) && vitClasses == old(vitClasses)
    {
      var c := outcomes[e].counts;
      var va := ValAcc(c);
      best' := best;
      if va > best {
        best' := va;
        checkpoint := Some(Checkpoint(c.weights, classes, |classes|));
      }
      state := EpochEnd(state, e, epochs, c, best');
    }

    /**
     * The epoch loop of `_train`, from the state after loading. It stops at
     * the first epoch that raises and returns that epoch's exception, the
     * optimizer each started epoch trained with, `best_acc` and the weights
     * after the last finished epoch.
     */
    method RunEpochs(epochs: int, lr: real, unfreezeEpoch: int, outcomes: seq<EpochOutcome>,
                     classes: seq<string>, start: nat)
      returns (schedule: seq<OptimizerSetting>, best: real, weights: nat, raised: Option<string>)
      requires state == Progress(outcomes, 0, epochs) && EpochsRun(epochs) <= |outcomes|
      modifies this
      ensures var n := EpochsRun(epochs);
              var k := EpochsCompleted(outcomes, 0, n);
              && FinishedUpTo(outcomes, k)
              && Ongoing(outcomes, k, epochs, old(checkpoint), classes, best)
              && weights == FinalWeights(outcomes, k, start)
              && raised == (if k < n then Some(outcomes[k].error) else None)
              && |schedule| == (if k < n then k + 1 else n)
              && forall e :: 0 <= e < |schedule| ==> schedule[e] == Setting(e, epochs, lr, unfreezeEpoch)
      ensures vitModel == old(vitModel) && vitClasses == old(vitClasses)
    {
      schedule, best, weights, raised := [], 0.0, start, None;
      var n := EpochsRun(epochs);
      var opt := OptimizerSetting(false, lr, epochs);
      for e := 0 to n
        invariant FinishedUpTo(outcomes, e) && EpochsCompleted(outcomes, 0, n) >= e
        invariant Ongoing(outcomes, e, epochs, old(checkpoint), classes, best)
        invariant weights == FinalWeights(outcomes, e, start)
        invariant |schedule| == e && forall j :: 0 <= j < e ==> schedule[j] == Setting(j, epochs, lr, unfreezeEpoch)
        invariant opt == if 0 <= unfreezeEpoch < e then Setting(e, epochs, lr, unfreezeEpoch) else OptimizerSetting(false, lr, epochs)
        invariant vitModel == old(vitModel) && vitClasses == old(vitClasses)
      {
        if e == unfreezeEpoch {
          opt := OptimizerSetting(true, lr * 0.1, epochs - e);
        }
        schedule := schedule + [opt];
        if outcomes[e].Raised? {
          raised := Some(outcomes[e].error);
          return;
        }
        best := EndEpoch(outcomes, e, epochs, old(checkpoint), classes, best);
        weights := outcomes[e].counts.weights;
      }
    }

    /**
     * The `try` block of `_train` after the reset. `pretrained` is the
     * backbone's pretrained weights, used when no weight file exists;
     * `setupError` is the exception raised while building the model or the
     * data, if any; `outcomes[e]` is what epoch `e` does. Returns the
     * optimizer each started epoch trained with.
     */
    method Run(epochs: int, lr: real, unfreezeEpoch: int, pretrained: nat, setupError: Option<string>,
               outcomes: seq<EpochOutcome>) returns (schedule: seq<OptimizerSetting>)
      requires state == Begun(epochs)
      requires EpochsRun(epochs) <= |outcomes|
      modifies this
      ensures setupError.Some? ==>
                && state == Begun(epochs).(status := Failed, message := Error(setupError.value)) && schedule == []
                && vitModel == old(vitModel) && vitClasses == old(vitClasses) && checkpoint == old(checkpoint)
      ensures setupError.None? ==>
                var n := EpochsRun(epochs);
                var k := EpochsCompleted(outcomes, 0, n);
                var classes := ClassesFor(old(vitClasses));
                && FinishedUpTo(outcomes, k)
                && checkpoint == CheckpointAfter(old(checkpoint), outcomes, k, classes)
                && |schedule| == (if k < n then k + 1 else n)
                && (forall e :: 0 <= e < |schedule| ==> schedule[e] == Setting(e, epochs, lr, unfreezeEpoch))
                && (k < n ==>
                      && state == Progress(outcomes, k, epochs).(status := Failed, message := Error(outcomes[k].error))
                      && vitModel == old(vitModel) && vitClasses == old(vitClasses))
                && (k == n ==>
                      && state == Progress(outcomes, n, epochs).(status := Completed, message := Complete(Best(outcomes, n)))
                      && vitClasses == classes
                      && vitModel == Some(FinalWeights(outcomes, n,
                                            if old(checkpoint).Some? then old(checkpoint).value.weights else pretrained)))
    {
      if setupError.Some? {
        state := state.(status := Failed, message := Error(setupError.value));
        return [];
      }
      var classes := ClassesFor(vitClasses);
      var start := if checkpoint.Some? then checkpoint.value.weights else pretrained;
      state := state.(message := PretrainedLoaded);
      var best, weights, raised;
      schedule, best, weights, raised := RunEpochs(epochs, lr, unfreezeEpoch, outcomes, classes, start);
      if raised.Some? {
        state := state.(status := Failed, message := Error(raised.value));
        return;
      }
      vitModel := Some(weights);
      vitClasses := classes;
      state := state.(status := Completed, message := Complete(best));
    }

    /**
     * `_train`: the reset, then the run. The run ends "completed" exactly
     * when nothing raised, and a failed run leaves the loaded classifier as
     * it was.
     */
    method Train(epochs: int, lr: real, unfreezeEpoch: int, pretrained: nat, setupError: Option<string>,
                 outcomes: seq<EpochOutcome>) returns (schedule: seq<OptimizerSetting>)
      requires EpochsRun(epochs) <= |outcomes|
      modifies this
      ensures state.totalEpochs == epochs && (state.status == Completed || state.status == Failed)
      ensures state.status == Failed ==> vitModel == old(vitModel) && vitClasses == old(vitClasses)
      ensures state.status == Completed <==>
                setupError.None? && EpochsCompleted(outcomes, 0, EpochsRun(epochs)) == EpochsRun(epochs)
      ensures setupError.Some? ==>
                && state == Begun(epochs).(status := Failed, message := Error(setupError.value)) && schedule == []
                && checkpoint == old(checkpoint)
      ensures setupError.None? ==>
                var n := EpochsRun(epochs);
                var k := EpochsCompleted(outcomes, 0, n);
                var classes := ClassesFor(old(vitClasses));
                && FinishedUpTo(outcomes, k)
                && checkpoint == CheckpointAfter(old(checkpoint), outcomes, k, classes)
                && |schedule| == (if k < n then k + 1 else n)
                && (forall e :: 0 <= e < |schedule| ==> schedule[e] == Setting(e, epochs, lr, unfreezeEpoch))
                && (k < n ==> state == Progress(outcomes, k, epochs).(status := Failed, message := Error(outcomes[k].error)))
                && (k == n ==>
                      && state == Progress(outcomes, n, epochs).(status := Completed, message := Complete(Best(outcomes, n)))
                      && vitClasses == classes
                      && vitModel == Some(FinalWeights(outcomes, n,
                                            if old(checkpoint).Some? then old(checkpoint).value.weights else pretrained)))
    {
      Begin(epochs);
      schedule := Run(epochs, lr, unfreezeEpoch, pretrained, setupError, outcomes);
    }
  }
}
