/** `ModelServer` of `src/server/server.rs`: the registry of named models
    (name -> `AtomicModel`) and of their training buffers (name ->
    `TrainingBuffer`), manual training, and the continuous-learning scheduler.
    The background task is modelled by one trip of its loop
    (`ContinuousLearningIteration`) and by the work it does for one model
    (`SchedulerStep`); the sleep between trips and the spawned tokio task are not. */
module Server {
  import opened ModelTraits
  import opened Metrics
  import opened ContinuousLearning
  import opened AtomicModels

  function NotFound(name: string): ModelError {
    InvalidParameter("Model '" + name + "' not found")
  }

  function AlreadyExists(name: string): ModelError {
    InvalidParameter("Model '" + name + "' already exists")
  }

  /** The state of a model after one training run on examples that pass the
      input guards, started while no other run was under way, followed by the
      auto-swap decision. The training slot holds the trained model; the swap
      happens exactly when training succeeded, auto-swap is on and either there
      are no validation examples or the current model could be measured on
      them; the statistics count the run and, on a swap, the new version. */
  function AfterRetraining<M>(ops: ModelOps<M>, s: SlotsView<M>, features: seq<Feature>, targets: seq<real>,
                              valFeatures: seq<Feature>, valTargets: seq<real>,
                              autoSwap: bool, elapsed: nat, now: nat): SlotsView<M>
  {
    var outcome := ops.train(s.training, features, targets);
    var trained, failure := outcome.0, outcome.1;
    var before := ops.validate(s.current, valFeatures, valTargets);
    var swaps := failure.None? && autoSwap && (valFeatures == [] || before.Ok?);
    var v := s.stats;
    SlotsView(
      if swaps then trained else s.current,
      trained,
      false,
      swaps,
      if failure.Some? then v.(trainingErrors := v.trainingErrors + 1)
      else if swaps then
        v.(trainingCount := v.trainingCount + 1, latestTrainingLatencyUs := elapsed,
           version := v.version + 1, lastUpdatedAt := now)
      else
        v.(trainingCount := v.trainingCount + 1, latestTrainingLatencyUs := elapsed,
           lastUpdatedAt := now))
  }

  /** A retraining bumps the version by one exactly when it promotes the
      trained model, and otherwise leaves it and the serving model alone; a
      failed training never promotes. */
  lemma RetrainedVersion<M>(ops: ModelOps<M>, s: SlotsView<M>, features: seq<Feature>, targets: seq<real>,
                            valFeatures: seq<Feature>, valTargets: seq<real>,
                            autoSwap: bool, elapsed: nat, now: nat)
    ensures var t := AfterRetraining(ops, s, features, targets, valFeatures, valTargets, autoSwap, elapsed, now);
      && (t.stats.version == s.stats.version + 1 || t.stats.version == s.stats.version)
      && (t.stats.version == s.stats.version + 1 <==> t.modelsInSync)
      && (t.stats.version == s.stats.version ==> t.current == s.current)
      && (ops.train(s.training, features, targets).1.Some? ==> t.stats.version == s.stats.version)
      && !t.trainingInProgress
  {
  }

  /** One training run followed by the auto-swap decision, on a model that was
      not training. */
  twostate predicate Retrained<M>(model: AtomicModel<M>, features: seq<Feature>, targets: seq<real>,
                                  valFeatures: seq<Feature>, valTargets: seq<real>,
                                  autoSwap: bool, elapsed: nat, now: nat)
    reads model, model.stats
  {
    model.View() == AfterRetraining(model.ops, old(model.View()), features, targets, valFeatures, valTargets,
                                    autoSwap, elapsed, now)
  }

  /** The outcome of `train_now` on one model and its buffer. */
  twostate predicate TrainNowOutcome<M>(model: AtomicModel<M>, buffer: TrainingBuffer, config: Config,
                                        elapsed: nat, now: nat, new r: ModelResult<()>, warned: bool)
    reads model, model.stats, buffer
  {
    var features, targets := old(buffer.features), old(buffer.targets);
    var valFeatures, valTargets := old(buffer.valFeatures), old(buffer.valTargets);
    if features == [] then
      r == Ok(()) && unchanged(model, model.stats, buffer)
    else if old(model.trainingInProgress) then
      r == Err(TrainingError(TrainingAlreadyInProgress)) && unchanged(model, model.stats, buffer)
    else
      var failure := old(model.TrainFailure(features, targets));
      && Retrained(model, features, targets, valFeatures, valTargets, config.autoSwap, elapsed, now)
      && if failure.Some? then
           r == Err(failure.value) && unchanged(buffer)
         else
           var before := old(model.ops.validate(model.current, valFeatures, valTargets));
           var after := model.ops.validate(model.current, valFeatures, valTargets);
           && buffer.features == [] && buffer.targets == [] && buffer.lastTrained == now
           && buffer.valFeatures == valFeatures && buffer.valTargets == valTargets
           && r == (if !config.autoSwap || valFeatures == [] then Ok(())
                    else if before.Err? then Err(before.error)
                    else if after.Err? then Err(after.error)
                    else Ok(()))
           && (config.autoSwap && valFeatures != [] && before.Ok? && after.Ok? ==>
                 warned == (after.value > before.value * (1.0 - config.validationThreshold)))
  }

  /** After a successful `train_now` with auto-swap on, the swap has happened
      exactly once and stands, whatever the validation errors and the warning;
      with auto-swap off the version and the serving model stay. */
  twostate lemma TrainNowSwapStands<M>(model: AtomicModel<M>, buffer: TrainingBuffer, config: Config,
                                       elapsed: nat, now: nat, new r: ModelResult<()>, warned: bool)
    requires TrainNowOutcome(model, buffer, config, elapsed, now, r, warned)
    requires old(buffer.features) != [] && !old(model.trainingInProgress)
    requires old(model.TrainFailure(buffer.features, buffer.targets)).None?
    ensures config.autoSwap && (old(buffer.valFeatures) == []
              || old(model.ops.validate(model.current, buffer.valFeatures, buffer.valTargets)).Ok?) ==>
      && model.stats.version == old(model.stats.version) + 1
      && model.current == old(model.TrainedModel(buffer.features, buffer.targets))
    ensures !config.autoSwap ==>
      model.stats.version == old(model.stats.version) && model.current == old(model.current)
  {
  }

  /** The state of a model and its buffer after one scheduler pass: nothing
      happens below `min_samples` training examples or while a run is under
      way; otherwise the training pair is taken out of the buffer (the
      validation pair stays) and, when the examples pass the input guards, the
      model is retrained; a refused or failed run loses those examples. */
  function AfterSchedulerStep<M>(ops: ModelOps<M>, s: SlotsView<M>, b: BufferView, config: Config,
                                 elapsed: nat, now: nat): (SlotsView<M>, BufferView)
  {
    if |b.features| < config.minSamples || s.trainingInProgress then (s, b)
    else
      var drained := b.(features := [], targets := [], lastTrained := now);
      if !TrainInputsOk(b.features, b.targets) then (s, drained)
      else
        (AfterRetraining(ops, s, b.features, b.targets, b.valFeatures, b.valTargets,
                         config.autoSwap, elapsed, now), drained)
  }

  /** A scheduler pass never lowers the version, raises it by at most one,
      leaves the validation pair alone, and either changes nothing or empties
      the training pair. */
  lemma SchedulerStepBounds<M>(ops: ModelOps<M>, s: SlotsView<M>, b: BufferView, config: Config,
                               elapsed: nat, now: nat)
    ensures var (t, c) := AfterSchedulerStep(ops, s, b, config, elapsed, now);
      && s.stats.version <= t.stats.version <= s.stats.version + 1
      && c.valFeatures == b.valFeatures && c.valTargets == b.valTargets
      && ((t, c) == (s, b) || (c.features == [] && c.targets == []))
      && (|b.features| < config.minSamples ==> (t, c) == (s, b))
  {
    if |b.features| >= config.minSamples && !s.trainingInProgress && TrainInputsOk(b.features, b.targets) {
      RetrainedVersion(ops, s, b.features, b.targets, b.valFeatures, b.valTargets, config.autoSwap, elapsed, now);
    }
  }

  /** The outcome of one scheduler pass over one model and its buffer. */
  twostate predicate SchedulerOutcome<M>(model: AtomicModel<M>, buffer: TrainingBuffer, config: Config,
                                         elapsed: nat, now: nat)
    reads model, model.stats, buffer
  {
    (model.View(), buffer.View())
      == AfterSchedulerStep(model.ops, old(model.View()), old(buffer.View()), config, elapsed, now)
  }

  /** The outcome of predicting a batch item by item on one model: the batch
      result, every leading success counted and, on failure, one error. */
  twostate predicate PredictedEach<M>(model: AtomicModel<M>, features: seq<Feature>, elapsed: nat,
                                      new r: ModelResult<seq<real>>)
    reads model, model.stats
  {
    var k := LeadingSuccesses(model.ops, model.current, features);
    var v := old(model.stats.View());
    && r == BatchPredictions(model.ops, model.current, features)
    && (r.Ok? ==> model.stats.View() == v.(
          predictionCount := v.predictionCount + |features|,
          latestPredictionLatencyUs := if |features| == 0 then v.latestPredictionLatencyUs else elapsed))
    && (r.Err? ==> model.stats.View() == v.(
          predictionCount := v.predictionCount + k,
          predictionErrors := v.predictionErrors + 1,
          latestPredictionLatencyUs := if k == 0 then v.latestPredictionLatencyUs else elapsed))
  }

  /** The loop of the server's `predict_batch` on one model. */
  method PredictEach<M>(model: AtomicModel<M>, features: seq<Feature>, elapsed: nat) returns (r: ModelResult<seq<real>>)
    modifies model.stats
    ensures PredictedEach(model, features, elapsed, r)
  {
    var predictions: seq<real> := [];
    for i := 0 to |features|
      invariant BatchPredictions(model.ops, model.current, features[..i]) == Ok(predictions)
      invariant forall j :: 0 <= j < i ==> model.ops.predict(model.current, features[j]).Ok?
      invariant model.stats.View() == old(model.stats.View()).(
        predictionCount := old(model.stats.predictionCount) + i,
        latestPredictionLatencyUs := if i == 0 then old(model.stats.latestPredictionLatencyUs) else elapsed)
    {
      assert features[..i + 1][..i] == features[..i];
      var p := model.Predict(features[i], elapsed);
      if p.Err? {
        PrefixFailurePropagates(model.ops, model.current, features, i + 1);
        assert LeadingSuccesses(model.ops, model.current, features) == i;
        return Err(p.error);
      }
      predictions := predictions + [p.value];
    }
    assert features[..|features|] == features;
    r := Ok(predictions);
  }

  /** The auto-swap decision after a successful training run, shared by
      `train_now` (which returns its errors) and the scheduler (which only logs
      them): with validation examples, measure `current`, swap, measure again
      and warn when the improvement misses the threshold; without them, swap.
      The swap cannot be refused because no training is under way. */
  method AutoSwap<M>(model: AtomicModel<M>, valFeatures: seq<Feature>, valTargets: seq<real>,
                     config: Config, now: nat) returns (r: ModelResult<()>, ghost warned: bool)
    requires model.Valid() && !model.trainingInProgress
    modifies model, model.stats
    ensures model.Valid() && model.training == old(model.training) && !model.trainingInProgress
    ensures
      var before := old(model.ops.validate(model.current, valFeatures, valTargets));
      var after := model.ops.validate(model.current, valFeatures, valTargets);
      var swaps := config.autoSwap && (valFeatures == [] || before.Ok?);
      && (swaps ==>
            model.current == old(model.training) && model.modelsInSync
            && model.stats.View() == old(model.stats.View()).(
                 version := old(model.stats.version) + 1, lastUpdatedAt := now))
      && (!swaps ==> unchanged(model, model.stats))
      && r == (if !config.autoSwap || valFeatures == [] then Ok(())
               else if before.Err? then Err(before.error)
               else if after.Err? then Err(after.error)
               else Ok(()))
      && (config.autoSwap && valFeatures != [] && before.Ok? && after.Ok? ==>
            warned == (after.value > before.value * (1.0 - config.validationThreshold)))
  {
    warned := false;
    r := Ok(());
    if !config.autoSwap {
      return;
    }
    if valFeatures != [] {
      var oldError := model.Validate(valFeatures, valTargets);
      if oldError.Err? {
        return Err(oldError.error), false;
      }
      var swapped := model.SwapModels(now);
      assert swapped.Ok?;
      var newError := model.Validate(valFeatures, valTargets);
      if newError.Err? {
        return Err(newError.error), false;
      }
      warned := newError.value > oldError.value * (1.0 - config.validationThreshold);
    } else {
      var swapped := model.SwapModels(now);
      assert swapped.Ok?;
    }
  }

  /** `train_now` once the model and its buffer are found. */
  method TrainEntry<M>(model: AtomicModel<M>, buffer: TrainingBuffer, config: Config, elapsed: nat, now: nat)
    returns (r: ModelResult<()>, ghost warned: bool)
    requires model.Valid() && buffer.Valid()
    modifies model, model.stats, buffer
    ensures model.Valid() && buffer.Valid()
    ensures TrainNowOutcome(model, buffer, config, elapsed, now, r, warned)
  {
    warned := false;
    if buffer.features == [] {
      return Ok(()), false;
    }
    var features, targets := buffer.features, buffer.targets;
    var trained := model.Train(features, targets, elapsed, now);
    if trained.Err? {
      return Err(trained.error), false;
    }
    buffer.ClearTraining(now);
    r, warned := AutoSwap(model, buffer.valFeatures, buffer.valTargets, config, now);
  }

  /** The scheduler's work for one model once its buffer and model are found:
      the training examples are taken out of the buffer before training, so a
      failed training drops them; a failure only skips the swap. */
  method ScheduleEntry<M>(model: AtomicModel<M>, buffer: TrainingBuffer, config: Config, elapsed: nat, now: nat)
    requires model.Valid() && buffer.Valid()
    modifies model, model.stats, buffer
    ensures model.Valid() && buffer.Valid()
    ensures SchedulerOutcome(model, buffer, config, elapsed, now)
    ensures model.stats.version >= old(model.stats.version)
  {
    if !buffer.HasMinSamples(config.minSamples) || model.IsTraining() {
      return;
    }
    var features, targets := buffer.features, buffer.targets;
    buffer.ClearTraining(now);
    var trained := model.Train(features, targets, elapsed, now);
    if trained.Err? {
      return;
    }
    var valFeatures, valTargets := buffer.valFeatures, buffer.valTargets;
    var swapResult, warned := AutoSwap(model, valFeatures, valTargets, config, now);
  }

  class ModelServer<M> {
    var models: map<string, AtomicModel<M>>
    var buffers: map<string, TrainingBuffer>
    const config: Config
    var running: bool

    /** Every registered name has a model and a buffer, every entry keeps its
        own invariant, and different names own different containers,
        statistics and buffers. */
    ghost predicate Valid()
      reads this, models.Values, buffers.Values
    {
      && models.Keys == buffers.Keys
      && (forall m :: m in models.Values ==> m.Valid())
      && (forall b :: b in buffers.Values ==> b.Valid())
      && (forall a, b :: a in models && b in models && a != b ==>
            models[a] != models[b] && models[a].stats != models[b].stats)
      && (forall a, b :: a in buffers && b in buffers && a != b ==> buffers[a] != buffers[b])
    }

    /** The objects that belong to the entry `name`. */
    ghost function EntryRepr(name: string): set<object>
      reads this
    {
      if name in models && name in buffers then {models[name], models[name].stats, buffers[name]} else {}
    }

    /** The statistics objects of every entry. */
    ghost function AllStats(): set<object>
      reads this
    {
      set m | m in models.Values :: m.stats
    }

    /** The entry `name` is valid when the server is. */
    lemma EntryValid(name: string)
      requires Valid() && name in models
      ensures name in buffers && models[name].Valid() && buffers[name].Valid()
      ensures EntryRepr(name) <= models.Values + AllStats() + buffers.Values
    {
      assert models[name] in models.Values;
      assert buffers[name] in buffers.Values;
    }

    /** `ModelServer::new`: no models, not running. */
    constructor (config: Config)
      ensures Valid()
      ensures models == map[] && buffers == map[] && this.config == config && !running
    {
      models := map[];
      buffers := map[];
      this.config := config;
      running := false;
    }

    /** `ModelServer::default`: the default configuration. */
    constructor Default()
      ensures Valid()
      ensures models == map[] && buffers == map[] && config == DefaultConfig() && !running
    {
      models := map[];
      buffers := map[];
      config := DefaultConfig();
      running := false;
    }

    /** `register_model`: refuses a name already in use; otherwise adds a fresh
        container (version 1, in sync) and an empty, unbounded buffer. */
    method RegisterModel(name: string, model: M, ops: ModelOps<M>, now: nat) returns (r: ModelResult<()>)
      requires Valid()
      modifies this
      ensures Valid() && running == old(running)
      ensures name in old(models) ==>
        r == Err(AlreadyExists(name)) && models == old(models) && buffers == old(buffers)
      ensures name !in old(models) ==>
        && r == Ok(())
        && name in models && name in buffers
        && models == old(models)[name := models[name]]
        && buffers == old(buffers)[name := buffers[name]]
        && fresh(models[name]) && fresh(models[name].stats) && fresh(buffers[name])
        && models[name].current == model && models[name].training == model && models[name].ops == ops
        && !models[name].trainingInProgress && models[name].modelsInSync
        && models[name].stats.View() == InitialView(now)
        && buffers[name].IsEmpty() && buffers[name].maxSize == None
    {
      if name in models {
        return Err(AlreadyExists(name));
      }
      var atomic := new AtomicModel(model, ops, now);
      var buffer := new TrainingBuffer(now);
      models, buffers := models[name := atomic], buffers[name := buffer];
      r := Ok(());
    }

    /** `unregister_model`: refuses an unknown name; otherwise removes both the
        model and its buffer. */
    method UnregisterModel(name: string) returns (r: ModelResult<()>)
      requires Valid()
      modifies this
      ensures Valid() && running == old(running)
      ensures name !in old(models) ==>
        r == Err(NotFound(name)) && models == old(models) && buffers == old(buffers)
      ensures name in old(models) ==>
        r == Ok(()) && models == old(models) - {name} && buffers == old(buffers) - {name}
    {
      if name !in models {
        return Err(NotFound(name));
      }
      models, buffers := models - {name}, buffers - {name};
      r := Ok(());
    }

    /** `get_model`. */
    function GetModel(name: string): (r: ModelResult<AtomicModel<M>>)
      reads this
      ensures r.Ok? <==> name in models
      ensures r.Ok? ==> r.value == models[name]
      ensures r.Err? ==> r.error == NotFound(name)
    {
      if name in models then Ok(models[name]) else Err(NotFound(name))
    }

    /** `predict`: routes to the named model. */
    method Predict(name: string, feature: Feature, elapsed: nat) returns (r: ModelResult<real>)
      requires Valid()
      modifies if name in models then {models[name].stats} else {}
      ensures Valid()
      ensures forall n :: n in models && n != name ==> unchanged(models[n], models[n].stats, buffers[n])
      ensures name !in models ==> r == Err(NotFound(name))
      ensures name in models ==>
        var m := models[name];
        && r == m.ops.predict(m.current, feature)
        && (r.Ok? ==> m.stats.View() == old(m.stats.View()).(
              predictionCount := old(m.stats.predictionCount) + 1,
              latestPredictionLatencyUs := elapsed))
        && (r.Err? ==> m.stats.View() == old(m.stats.View()).(
              predictionErrors := old(m.stats.predictionErrors) + 1))
    {
      if name !in models {
        return Err(NotFound(name));
      }
      r := models[name].Predict(feature, elapsed);
    }

    /** `predict_batch`: predicts item by item through the single-item path, in
        order, and stops at the first failure. Each success is counted, and the
        failure once. */
    method PredictBatch(name: string, features: seq<Feature>, elapsed: nat) returns (r: ModelResult<seq<real>>)
      requires Valid()
      modifies if name in models then {models[name].stats} else {}
      ensures Valid()
      ensures name !in models ==> r == Err(NotFound(name))
      ensures forall n :: n in models && n != name ==> unchanged(models[n], models[n].stats, buffers[n])
      ensures name in models ==> PredictedEach(models[name], features, elapsed, r)
    {
      if name !in models {
        return Err(NotFound(name));
      }
      r := PredictEach(models[name], features, elapsed);
    }

    /** `add_training_example`: appends to the named model's buffer. */
    method AddTrainingExample(name: string, feature: Feature, target: real, isValidation: bool)
      returns (r: ModelResult<()>)
      requires Valid()
      modifies if name in buffers then {buffers[name]} else {}
      ensures Valid()
      ensures forall n :: n in models && n != name ==> unchanged(models[n], models[n].stats, buffers[n])
      ensures name !in buffers ==> r == Err(NotFound(name))
      ensures name in buffers ==>
        var b := buffers[name];
        && r == Ok(())
        && b.lastTrained == old(b.lastTrained)
        && b.features == (if isValidation then old(b.features) else PushBounded(old(b.features), feature, b.maxSize))
        && b.targets == (if isValidation then old(b.targets) else PushBounded(old(b.targets), target, b.maxSize))
        && b.valFeatures == (if isValidation then PushBounded(old(b.valFeatures), feature, b.maxSize) else old(b.valFeatures))
        && b.valTargets == (if isValidation then PushBounded(old(b.valTargets), target, b.maxSize) else old(b.valTargets))
    {
      if name !in buffers {
        return Err(NotFound(name));
      }
      assert buffers[name] in buffers.Values;
      buffers[name].Add(feature, target, isValidation);
      r := Ok(());
    }

    /** `train_now`: trains the named model on its buffered training examples.
        Nothing happens without examples; a failed training keeps them; a
        successful one clears them (validation examples stay) and, with
        `auto_swap`, promotes the result. With validation examples the error
        before and after the swap is measured and `warned` tells whether the
        improvement missed the threshold; the swap stands either way. */
    method TrainNow(name: string, elapsed: nat, now: nat) returns (r: ModelResult<()>, ghost warned: bool)
      requires Valid()
      modifies EntryRepr(name)
      ensures Valid()
      ensures name !in models ==> r == Err(NotFound(name))
      ensures forall n :: n in models && n != name ==> unchanged(models[n], models[n].stats, buffers[n])
      ensures name in models ==>
        name in buffers && TrainNowOutcome(models[name], buffers[name], config, elapsed, now, r, warned)
    {
      if name !in models {
        return Err(NotFound(name)), false;
      }
      EntryValid(name);
      // Valid() guarantees the buffer exists, so the source's second
      // not-found branch cannot be taken.
      r, warned := TrainEntry(models[name], buffers[name], config, elapsed, now);
    }

    /** The body of the scheduler loop for one model name: train only with at
        least `min_samples` training examples and no training under way. */
    method SchedulerStep(name: string, elapsed: nat, now: nat)
      requires Valid()
      modifies EntryRepr(name)
      ensures Valid()
      ensures forall n :: n in models && n != name ==> unchanged(models[n], models[n].stats, buffers[n])
      ensures forall n :: n in models && n != name ==>
        (models[n].View(), buffers[n].View()) == old((models[n].View(), buffers[n].View()))
      ensures name in models ==>
        name in buffers && SchedulerOutcome(models[name], buffers[name], config, elapsed, now)
    {
      if name !in buffers {
        return;
      }
      EntryValid(name);
      ScheduleEntry(models[name], buffers[name], config, elapsed, now);
    }

    /** Part way through one trip of the background loop: the names still in
        `pending` are as they were (`before`), every other name is as its
        scheduler pass left it (`after`). */
    ghost predicate PassUnderWay(pending: set<string>, before: map<string, (SlotsView<M>, BufferView)>,
                                 after: map<string, (SlotsView<M>, BufferView)>)
      reads this, models.Values, AllStats(), buffers.Values
    {
      && pending <= models.Keys
      && models.Keys <= buffers.Keys
      && models.Keys <= before.Keys
      && models.Keys <= after.Keys
      && forall n :: n in models ==>
           (models[n].View(), buffers[n].View()) == if n in pending then before[n] else after[n]
    }

    /** One name's turn in a trip of the background loop. */
    method SchedulerVisit(name: string, ghost pending: set<string>, ghost before: map<string, (SlotsView<M>, BufferView)>,
                          ghost after: map<string, (SlotsView<M>, BufferView)>, elapsed: nat, now: nat)
      requires Valid() && name in pending && PassUnderWay(pending, before, after)
      requires after[name] == AfterSchedulerStep(models[name].ops, before[name].0, before[name].1, config, elapsed, now)
      modifies EntryRepr(name)
      ensures Valid() && PassUnderWay(pending - {name}, before, after)
    {
      EntryValid(name);
      SchedulerStep(name, elapsed, now);
    }

    /** One trip of the background loop: stop when the flag is off; otherwise
        run the per-model step once for every registered name, in the
        unspecified order of the map's keys. Entries are independent, so each
        ends as one scheduler pass from its state at the start of the trip. */
    method ContinuousLearningIteration(elapsed: nat, now: nat) returns (continued: bool)
      requires Valid()
      modifies models.Values, AllStats(), buffers.Values
      ensures Valid()
      ensures continued == running
      ensures !continued ==> forall n :: n in models ==> unchanged(models[n], models[n].stats, buffers[n])
      ensures continued ==> forall n :: n in models ==>
        (models[n].View(), buffers[n].View())
          == AfterSchedulerStep(models[n].ops, old(models[n].View()), old(buffers[n].View()), config, elapsed, now)
    {
      if !running {
        return false;
      }
      ghost var before := map n | n in models :: (models[n].View(), buffers[n].View());
      ghost var after := map n | n in models ::
        AfterSchedulerStep(models[n].ops, before[n].0, before[n].1, config, elapsed, now);
      var names := models.Keys;
      while names != {}
        invariant Valid() && PassUnderWay(names, before, after)
        decreases names
      {
        var name :| name in names;
        EntryValid(name);
        SchedulerVisit(name, names, before, after, elapsed, now);
        names := names - {name};
      }
      continued := true;
    }

    /** `start_continuous_learning`: does nothing when disabled or already
        running; otherwise raises the flag. */
    method StartContinuousLearning() returns (r: ModelResult<()>)
      modifies this`running
      ensures r == Ok(())
      ensures running == (old(running) || config.enabled)
    {
      if !config.enabled {
        return Ok(());
      }
      if running {
        return Ok(());
      }
      running := true;
      r := Ok(());
    }

    /** `stop_continuous_learning`: lowers the flag. */
    method StopContinuousLearning()
      modifies this`running
      ensures !running
    {
      running := false;
    }

    /** `list_models`: every registered name, once, in an unspecified order. */
    method ListModels() returns (names: seq<string>)
      ensures forall n :: n in names <==> n in models
      ensures forall i, j :: 0 <= i < j < |names| ==> names[i] != names[j]
    {
      names := [];
      var rest := models.Keys;
      while rest != {}
        invariant rest <= models.Keys
        invariant forall n :: n in names <==> n in models && n !in rest
        invariant forall i, j :: 0 <= i < j < |names| ==> names[i] != names[j]
        decreases rest
      {
        var n :| n in rest;
        names := names + [n];
        rest := rest - {n};
      }
    }

    /** `get_model_stats`: the named model's formatted statistics. */
    method GetModelStats(name: string) returns (r: ModelResult<string>)
      ensures name !in models ==> r == Err(NotFound(name))
      ensures name in models ==> r == Ok(models[name].stats.FormatStats())
    {
      if name !in models {
        return Err(NotFound(name));
      }
      r := Ok(models[name].stats.FormatStats());
    }
  }
}
