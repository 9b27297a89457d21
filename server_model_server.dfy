/** `AtomicModel` of `src/server/model_server.rs`: a `current` slot that answers
    predictions and a `training` slot that training mutates, the
    `training_in_progress` and `models_in_sync` flags, and the model's
    `ModelStats`. The locks and atomics of the source only make this safe under
    concurrency; the operations here run one at a time. */
module AtomicModels {
  import opened ModelTraits
  import opened Metrics

  const EmptyTrainingData := "Empty training data"
  const TrainingAlreadyInProgress := "Training already in progress"
  const CannotSwapWhileTraining := "Cannot swap while training in progress"
  const EmptyValidationData := "Empty validation data"

  /** Whether the input guards of `train` pass. */
  predicate TrainInputsOk(features: seq<Feature>, targets: seq<real>) {
    |features| > 0 && |targets| > 0 && |features| == |targets|
  }

  /** The input-guard error of `train`, when there is one. */
  function TrainInputError(features: seq<Feature>, targets: seq<real>): (e: ModelError)
    requires !TrainInputsOk(features, targets)
    ensures e.TrainingError? <==> |features| == 0 || |targets| == 0
    ensures e.TrainingError? ==> e.msg == EmptyTrainingData
    ensures !e.TrainingError? ==> e.DimensionMismatch? && e.context == "features vs targets length"
    ensures e.DimensionMismatch? ==> e.expected == |features| && e.actual == |targets|
  {
    if |features| == 0 || |targets| == 0 then TrainingError(EmptyTrainingData)
    else DimensionMismatch(|features|, |targets|, "features vs targets length")
  }

  /** Every field of an `AtomicModel` that changes, as one value. */
  datatype SlotsView<M> = SlotsView(
    current: M,
    training: M,
    trainingInProgress: bool,
    modelsInSync: bool,
    stats: StatsView)

  class AtomicModel<M> {
    var current: M
    var training: M
    const stats: ModelStats
    var trainingInProgress: bool
    var modelsInSync: bool
    /** The behaviour of `M` (its `impl Model`). */
    const ops: ModelOps<M>

    /** When the flag says the slots are in sync, they hold the same model. */
    ghost predicate Valid()
      reads this
    {
      modelsInSync ==> current == training
    }

    function View(): SlotsView<M>
      reads this, stats
    {
      SlotsView(current, training, trainingInProgress, modelsInSync, stats.View())
    }

    /** `AtomicModel::new`: both slots hold the initial model; version 1, not
        training, in sync. */
    constructor (initial: M, ops: ModelOps<M>, now: nat)
      ensures Valid() && fresh(stats)
      ensures current == initial && training == initial && this.ops == ops
      ensures !trainingInProgress && modelsInSync
      ensures stats.View() == InitialView(now)
    {
      current := initial;
      training := initial;
      stats := new ModelStats(now);
      trainingInProgress := false;
      modelsInSync := true;
      this.ops := ops;
    }

    /** `impl Clone for AtomicModel`: copies both slots and both flags, and
        shares the statistics with the original. */
    constructor Cloned(source: AtomicModel<M>)
      ensures current == source.current && training == source.training
      ensures trainingInProgress == source.trainingInProgress && modelsInSync == source.modelsInSync
      ensures stats == source.stats && ops == source.ops
      ensures source.Valid() ==> Valid()
    {
      current := source.current;
      training := source.training;
      stats := source.stats;
      trainingInProgress := source.trainingInProgress;
      modelsInSync := source.modelsInSync;
      ops := source.ops;
    }

    /** `get_current`. */
    function GetCurrent(): M
      reads this
    {
      current
    }

    /** `get_stats`. */
    function GetStats(): ModelStats {
      stats
    }

    /** `get_version`. */
    function GetVersion(): nat
      reads stats
    {
      stats.version
    }

    /** `is_training`. */
    function IsTraining(): bool
      reads this
    {
      trainingInProgress
    }

    /** `is_in_sync`. */
    function IsInSync(): bool
      reads this
    {
      modelsInSync
    }

    /** The model the training slot holds after `M::train` on the given data. */
    ghost function TrainedModel(features: seq<Feature>, targets: seq<real>): M
      reads this
    {
      ops.train(training, features, targets).0
    }

    /** The failure, if any, of `M::train` on the given data. */
    ghost function TrainFailure(features: seq<Feature>, targets: seq<real>): Option<ModelError>
      reads this
    {
      ops.train(training, features, targets).1
    }

    /** `train`: checks the inputs, refuses when another training run holds the
        flag, and otherwise trains the `training` slot only. `elapsed` is the
        measured duration and `now` the clock at the end. */
    method Train(features: seq<Feature>, targets: seq<real>, elapsed: nat, now: nat) returns (r: ModelResult<()>)
      requires Valid()
      modifies this, stats
      ensures Valid()
      ensures current == old(current) && stats.version == old(stats.version)
      ensures !TrainInputsOk(features, targets) ==>
        r == Err(TrainInputError(features, targets)) && unchanged(this, stats)
      ensures TrainInputsOk(features, targets) && old(trainingInProgress) ==>
        r == Err(TrainingError(TrainingAlreadyInProgress)) && unchanged(this, stats)
      ensures TrainInputsOk(features, targets) && !old(trainingInProgress) ==>
        && training == old(TrainedModel(features, targets))
        && !modelsInSync && !trainingInProgress
        && (old(TrainFailure(features, targets)).None? ==>
              r == Ok(()) && stats.View() == old(stats.View()).(
                trainingCount := old(stats.trainingCount) + 1,
                latestTrainingLatencyUs := elapsed,
                lastUpdatedAt := now))
        && (old(TrainFailure(features, targets)).Some? ==>
              r == Err(old(TrainFailure(features, targets)).value)
              && stats.View() == old(stats.View()).(trainingErrors := old(stats.trainingErrors) + 1))
    {
      if |features| == 0 || |targets| == 0 {
        return Err(TrainingError(EmptyTrainingData));
      }
      if |features| != |targets| {
        return Err(DimensionMismatch(|features|, |targets|, "features vs targets length"));
      }
      if trainingInProgress {
        return Err(TrainingError(TrainingAlreadyInProgress));
      }
      trainingInProgress := true;
      modelsInSync := false;
      var outcome := ops.train(training, features, targets);
      training := outcome.0;
      if outcome.1.None? {
        stats.trainingCount := stats.trainingCount + 1;
        stats.latestTrainingLatencyUs := elapsed;
        stats.UpdateTimestamp(now);
        r := Ok(());
      } else {
        stats.trainingErrors := stats.trainingErrors + 1;
        r := Err(outcome.1.value);
      }
      trainingInProgress := false;
    }

    /** `predict`: answers from `current` and counts the outcome. */
    method Predict(feature: Feature, elapsed: nat) returns (r: ModelResult<real>)
      modifies stats
      ensures r == ops.predict(current, feature)
      ensures r.Ok? ==> stats.View() == old(stats.View()).(
        predictionCount := old(stats.predictionCount) + 1,
        latestPredictionLatencyUs := elapsed)
      ensures r.Err? ==> stats.View() == old(stats.View()).(
        predictionErrors := old(stats.predictionErrors) + 1)
    {
      r := ops.predict(current, feature);
      if r.Ok? {
        stats.predictionCount := stats.predictionCount + 1;
        stats.latestPredictionLatencyUs := elapsed;
      } else {
        stats.predictionErrors := stats.predictionErrors + 1;
      }
    }

    /** `predict_batch`: the default batch prediction on `current`. A success
        counts every item and records the per-item latency (the divisor is at
        least 1); a failure counts one error. */
    method PredictBatch(features: seq<Feature>, elapsed: nat) returns (r: ModelResult<seq<real>>)
      modifies stats
      ensures r == BatchPredictions(ops, current, features)
      ensures r.Ok? ==> stats.View() == old(stats.View()).(
        predictionCount := old(stats.predictionCount) + |features|,
        latestPredictionLatencyUs := elapsed / (if |features| > 1 then |features| else 1))
      ensures r.Err? ==> stats.View() == old(stats.View()).(
        predictionErrors := old(stats.predictionErrors) + 1)
    {
      r := DefaultPredictBatch(ops, current, features);
      if r.Ok? {
        stats.predictionCount := stats.predictionCount + |features|;
        var divisor := if |features| > 1 then |features| else 1;
        stats.latestPredictionLatencyUs := elapsed / divisor;
      } else {
        stats.predictionErrors := stats.predictionErrors + 1;
      }
    }

    /** `swap_models`: refused while training; otherwise promotes `training` to
        `current`, bumps the version by one and returns it. */
    method SwapModels(now: nat) returns (r: ModelResult<nat>)
      requires Valid()
      modifies this, stats
      ensures Valid() && training == old(training) && trainingInProgress == old(trainingInProgress)
      ensures old(trainingInProgress) ==>
        r == Err(TrainingError(CannotSwapWhileTraining)) && unchanged(this, stats)
      ensures !old(trainingInProgress) ==>
        && current == old(training) && modelsInSync
        && r == Ok(old(stats.version) + 1)
        && stats.View() == old(stats.View()).(version := old(stats.version) + 1, lastUpdatedAt := now)
    {
      if trainingInProgress {
        return Err(TrainingError(CannotSwapWhileTraining));
      }
      current := training;
      stats.version := stats.version + 1;
      var newVersion := stats.version;
      stats.UpdateTimestamp(now);
      modelsInSync := true;
      r := Ok(newVersion);
    }

    /** `validate`: the error metric of `current`; changes nothing. */
    method Validate(features: seq<Feature>, targets: seq<real>) returns (r: ModelResult<real>)
      ensures r == ops.validate(current, features, targets)
    {
      r := ops.validate(current, features, targets);
    }

    /** `compare_models`: after the input checks, the error of `current` then
        that of `training`; the first failure is returned. Changes nothing. */
    method CompareModels(features: seq<Feature>, targets: seq<real>) returns (r: ModelResult<(real, real)>)
      ensures |features| == 0 || |targets| == 0 ==> r == Err(ValidationError(EmptyValidationData))
      ensures |features| > 0 && |targets| > 0 && |features| != |targets| ==>
        r == Err(DimensionMismatch(|features|, |targets|, "Validation features vs targets"))
      ensures TrainInputsOk(features, targets) ==>
        var c := ops.validate(current, features, targets);
        var t := ops.validate(training, features, targets);
        r == if c.Err? then Err(c.error) else if t.Err? then Err(t.error) else Ok((c.value, t.value))
    {
      if |features| == 0 || |targets| == 0 {
        return Err(ValidationError(EmptyValidationData));
      }
      if |features| != |targets| {
        return Err(DimensionMismatch(|features|, |targets|, "Validation features vs targets"));
      }
      var currentError := ops.validate(current, features, targets);
      if currentError.Err? {
        return Err(currentError.error);
      }
      var trainingError := ops.validate(training, features, targets);
      if trainingError.Err? {
        return Err(trainingError.error);
      }
      r := Ok((currentError.value, trainingError.value));
    }
  }

  /** While the slots are in sync, `current` and `training` give the same
      prediction for every input. */
  lemma InSyncSlotsPredictAlike<M>(model: AtomicModel<M>, x: Feature)
    requires model.Valid() && model.modelsInSync
    ensures model.ops.predict(model.current, x) == model.ops.predict(model.training, x)
  {
  }
}
