/** `ContinuumApi` of `src/server/api.rs`: a front end over one `ModelServer`
    that picks the model kind from a string, fills in default parameters and
    wraps the server's errors. It keeps no state of its own. The concrete
    linear and ridge models are abstract: `newModel` builds the model state for
    a resolved `ModelSpec`, and `ops` is its behaviour. */
module Api {
  import opened ModelTraits
  import opened Metrics
  import opened ContinuousLearning
  import S = Server

  /** `ApiError`; `ModelFailure` is the `#[from] ModelError` variant. */
  datatype ApiError =
    | ModelFailure(cause: ModelError)
    | InvalidInput(msg: string)
    | NotFound(msg: string)

  type ApiResult<T> = Result<T, ApiError>

  /** The `#[error(..)]` texts. */
  function ApiDisplay(e: ApiError): (s: string)
    ensures e.ModelFailure? ==> "Model error: " <= s && s[|"Model error: "|..] == Display(e.cause)
    ensures e.InvalidInput? ==> "Invalid input: " <= s && s[|"Invalid input: "|..] == e.msg
    ensures e.NotFound? ==> "Not found: " <= s && s[|"Not found: "|..] == e.msg
  {
    match e
    case ModelFailure(cause) => "Model error: " + Display(cause)
    case InvalidInput(msg) => "Invalid input: " + msg
    case NotFound(msg) => "Not found: " + msg
  }

  /** The `?` operator on a server result: `From<ModelError>` wraps the error. */
  function Lift<T>(r: ModelResult<T>): (a: ApiResult<T>)
    ensures a.Ok? <==> r.Ok?
    ensures r.Ok? ==> a.value == r.value
    ensures r.Err? ==> a.error == ModelFailure(r.error)
  {
    match r
    case Ok(v) => Ok(v)
    case Err(e) => Err(ModelFailure(e))
  }

  /** `ModelParameters`. */
  datatype ModelParameters = ModelParameters(
    withBias: bool,
    learningRate: Option<real>,
    maxIterations: Option<nat>,
    regularization: Option<real>)

  /** `impl Default for ModelParameters`. */
  function DefaultParameters(): ModelParameters {
    ModelParameters(true, Some(0.01), Some(1000), None)
  }

  /** `Option::unwrap_or`. */
  function UnwrapOr<T>(o: Option<T>, default: T): (r: T)
    ensures o.Some? ==> r == o.value
    ensures o.None? ==> r == default
  {
    if o.Some? then o.value else default
  }

  /** The arguments given to `LinearRegression::new` or `RidgeRegression::new`. */
  datatype ModelSpec =
    | Linear(withBias: bool, learningRate: real, maxIterations: nat)
    | Ridge(withBias: bool, alpha: real, learningRate: real, maxIterations: nat)

  /** The dispatch of `register_model`: absent parameters become the defaults,
      absent fields 0.01 (learning rate), 1000 (iterations) and, for ridge, 0.1
      (regularization); any other model type is rejected. */
  function ResolveModel(modelType: string, parameters: Option<ModelParameters>): (r: ApiResult<ModelSpec>)
    ensures r.Err? <==> modelType != "linear" && modelType != "ridge"
    ensures r.Err? ==> r.error == InvalidInput("Unknown model type: " + modelType)
    ensures r.Ok? ==> (r.value.Linear? <==> modelType == "linear")
  {
    var params := UnwrapOr(parameters, DefaultParameters());
    if modelType == "linear" then
      Ok(Linear(params.withBias, UnwrapOr(params.learningRate, 0.01), UnwrapOr(params.maxIterations, 1000)))
    else if modelType == "ridge" then
      Ok(Ridge(params.withBias, UnwrapOr(params.regularization, 0.1),
               UnwrapOr(params.learningRate, 0.01), UnwrapOr(params.maxIterations, 1000)))
    else
      Err(InvalidInput("Unknown model type: " + modelType))
  }

  /** Without parameters, a linear model gets bias, rate 0.01 and 1000
      iterations, and a ridge model additionally regularization 0.1. */
  lemma DefaultSpecs()
    ensures ResolveModel("linear", None) == Ok(Linear(true, 0.01, 1000))
    ensures ResolveModel("ridge", None) == Ok(Ridge(true, 0.1, 0.01, 1000))
  {
    assert "ridge" != "linear" by {
      assert "ridge"[0] != "linear"[0];
    }
  }

  /** Fields that are given are used as they are and missing ones fall back
      one by one to rate 0.01, 1000 iterations and, for a ridge model,
      regularization 0.1, whatever else is given. */
  lemma GivenParametersKept(modelType: string, p: ModelParameters)
    requires modelType == "linear" || modelType == "ridge"
    ensures var r := ResolveModel(modelType, Some(p));
      && r.Ok? && r.value.withBias == p.withBias
      && (p.learningRate.Some? ==> r.value.learningRate == p.learningRate.value)
      && (p.learningRate.None? ==> r.value.learningRate == 0.01)
      && (p.maxIterations.Some? ==> r.value.maxIterations == p.maxIterations.value)
      && (p.maxIterations.None? ==> r.value.maxIterations == 1000)
      && (r.value.Ridge? ==> r.value.alpha == UnwrapOr(p.regularization, 0.1))
  {
  }

  /** `PredictionResponse`. */
  datatype PredictionResponse = PredictionResponse(prediction: real, modelVersion: nat)

  /** `BatchPredictionResponse`. */
  datatype BatchPredictionResponse = BatchPredictionResponse(predictions: seq<real>, modelVersion: nat)

  /** `ModelInfo`. */
  datatype ModelInfo = ModelInfo(name: string, version: nat, isTraining: bool, stats: string)

  class ContinuumApi<M> {
    const server: S.ModelServer<M>
    /** `LinearRegression::new` / `RidgeRegression::new` for a resolved spec. */
    const newModel: ModelSpec -> M
    /** The behaviour of the models built by `newModel`. */
    const ops: ModelOps<M>

    ghost predicate Valid()
      reads this, server, server.models.Values, server.buffers.Values
    {
      server.Valid()
    }

    /** `ContinuumApi::new`. */
    constructor (config: Config, newModel: ModelSpec -> M, ops: ModelOps<M>)
      ensures Valid() && fresh(server)
      ensures server.config == config && server.models == map[] && !server.running
      ensures this.newModel == newModel && this.ops == ops
    {
      server := new S.ModelServer(config);
      this.newModel := newModel;
      this.ops := ops;
    }

    /** `ContinuumApi::default`. */
    constructor Default(newModel: ModelSpec -> M, ops: ModelOps<M>)
      ensures Valid() && fresh(server)
      ensures server.config == DefaultConfig() && server.models == map[] && !server.running
      ensures this.newModel == newModel && this.ops == ops
    {
      server := new S.ModelServer.Default();
      this.newModel := newModel;
      this.ops := ops;
    }

    /** `register_model`: an unknown type or a name in use registers nothing;
        otherwise a fresh model built from the resolved spec is registered. */
    method RegisterModel(name: string, modelType: string, parameters: Option<ModelParameters>, now: nat)
      returns (r: ApiResult<()>)
      requires Valid()
      modifies server
      ensures Valid() && server.running == old(server.running)
      ensures ResolveModel(modelType, parameters).Err? ==>
        && r == Err(ResolveModel(modelType, parameters).error)
        && server.models == old(server.models) && server.buffers == old(server.buffers)
      ensures ResolveModel(modelType, parameters).Ok? && name in old(server.models) ==>
        && r == Err(ModelFailure(S.AlreadyExists(name)))
        && server.models == old(server.models) && server.buffers == old(server.buffers)
      ensures ResolveModel(modelType, parameters).Ok? && name !in old(server.models) ==>
        && r == Ok(())
        && name in server.models && name in server.buffers
        && server.models == old(server.models)[name := server.models[name]]
        && server.buffers == old(server.buffers)[name := server.buffers[name]]
        && fresh(server.models[name]) && fresh(server.models[name].stats) && fresh(server.buffers[name])
        && server.models[name].current == newModel(ResolveModel(modelType, parameters).value)
        && server.models[name].training == server.models[name].current
        && server.models[name].ops == ops
        && !server.models[name].trainingInProgress && server.models[name].modelsInSync
        && server.models[name].stats.View() == InitialView(now)
        && server.buffers[name].IsEmpty() && server.buffers[name].maxSize == None
    {
      var spec := ResolveModel(modelType, parameters);
      if spec.Err? {
        return Err(spec.error);
      }
      var registered := server.RegisterModel(name, newModel(spec.value), ops, now);
      r := Lift(registered);
    }

    /** `predict`: reads the version, then predicts through the server. */
    method Predict(name: string, features: Feature, elapsed: nat) returns (r: ApiResult<PredictionResponse>)
      requires Valid()
      modifies if name in server.models then {server.models[name].stats} else {}
      ensures Valid()
      ensures forall n :: n in server.models && n != name ==>
        unchanged(server.models[n], server.models[n].stats, server.buffers[n])
      ensures name !in server.models ==> r == Err(ModelFailure(S.NotFound(name)))
      ensures name in server.models ==>
        var m := server.models[name];
        var p := m.ops.predict(m.current, features);
        && r == (if p.Ok? then Ok(PredictionResponse(p.value, old(m.stats.version))) else Err(ModelFailure(p.error)))
        && (p.Ok? ==> m.stats.View() == old(m.stats.View()).(
              predictionCount := old(m.stats.predictionCount) + 1,
              latestPredictionLatencyUs := elapsed))
        && (p.Err? ==> m.stats.View() == old(m.stats.View()).(
              predictionErrors := old(m.stats.predictionErrors) + 1))
    {
      var model := server.GetModel(name);
      if model.Err? {
        return Err(ModelFailure(model.error));
      }
      var version := model.value.GetVersion();
      var prediction := server.Predict(name, features, elapsed);
      if prediction.Err? {
        return Err(ModelFailure(prediction.error));
      }
      r := Ok(PredictionResponse(prediction.value, version));
    }

    /** `predict_batch`: reads the version, then predicts the batch through the
        server; `outcome` is the server's own result. */
    method PredictBatch(name: string, features: seq<Feature>, elapsed: nat)
      returns (r: ApiResult<BatchPredictionResponse>, ghost outcome: ModelResult<seq<real>>)
      requires Valid()
      modifies if name in server.models then {server.models[name].stats} else {}
      ensures Valid()
      ensures forall n :: n in server.models && n != name ==>
        unchanged(server.models[n], server.models[n].stats, server.buffers[n])
      ensures name !in server.models ==> r == Err(ModelFailure(S.NotFound(name)))
      ensures name in server.models ==>
        var m := server.models[name];
        && outcome == BatchPredictions(m.ops, m.current, features)
        && S.PredictedEach(m, features, elapsed, outcome)
        && r == (if outcome.Ok? then Ok(BatchPredictionResponse(outcome.value, old(m.stats.version)))
                 else Err(ModelFailure(outcome.error)))
        && m.stats.version == old(m.stats.version)
    {
      var model := server.GetModel(name);
      if model.Err? {
        return Err(ModelFailure(model.error)), Err(model.error);
      }
      var version := model.value.GetVersion();
      var predictions := server.PredictBatch(name, features, elapsed);
      outcome := predictions;
      if predictions.Err? {
        return Err(ModelFailure(predictions.error)), outcome;
      }
      r := Ok(BatchPredictionResponse(predictions.value, version));
    }

    /** `add_training_example`. */
    method AddTrainingExample(name: string, features: Feature, target: real, isValidation: bool)
      returns (r: ApiResult<()>)
      requires Valid()
      modifies if name in server.buffers then {server.buffers[name]} else {}
      ensures Valid()
      ensures forall n :: n in server.models && n != name ==>
        unchanged(server.models[n], server.models[n].stats, server.buffers[n])
      ensures name !in server.buffers ==> r == Err(ModelFailure(S.NotFound(name)))
      ensures name in server.buffers ==>
        var b := server.buffers[name];
        && r == Ok(())
        && b.lastTrained == old(b.lastTrained)
        && b.features == (if isValidation then old(b.features) else PushBounded(old(b.features), features, b.maxSize))
        && b.targets == (if isValidation then old(b.targets) else PushBounded(old(b.targets), target, b.maxSize))
        && b.valFeatures == (if isValidation then PushBounded(old(b.valFeatures), features, b.maxSize) else old(b.valFeatures))
        && b.valTargets == (if isValidation then PushBounded(old(b.valTargets), target, b.maxSize) else old(b.valTargets))
    {
      var added := server.AddTrainingExample(name, features, target, isValidation);
      r := Lift(added);
    }

    /** `train_model`: `train_now` with its error wrapped; `outcome` is the
        server's own result. */
    method TrainModel(name: string, elapsed: nat, now: nat)
      returns (r: ApiResult<()>, ghost outcome: ModelResult<()>, ghost warned: bool)
      requires Valid()
      modifies server.EntryRepr(name)
      ensures Valid()
      ensures forall n :: n in server.models && n != name ==>
        unchanged(server.models[n], server.models[n].stats, server.buffers[n])
      ensures r == Lift(outcome)
      ensures name !in server.models ==> outcome == Err(S.NotFound(name))
      ensures name in server.models ==>
        name in server.buffers
        && S.TrainNowOutcome(server.models[name], server.buffers[name], server.config, elapsed, now, outcome, warned)
    {
      var trained;
      trained, warned := server.TrainNow(name, elapsed, now);
      outcome := trained;
      r := Lift(trained);
    }

    /** `get_model_info`: the name as given, the version, the training flag and
        the formatted statistics. */
    method GetModelInfo(name: string) returns (r: ApiResult<ModelInfo>)
      ensures name !in server.models ==> r == Err(ModelFailure(S.NotFound(name)))
      ensures name in server.models ==>
        var m := server.models[name];
        r == Ok(ModelInfo(name, m.stats.version, m.trainingInProgress, m.stats.FormatStats()))
    {
      var model := server.GetModel(name);
      if model.Err? {
        return Err(ModelFailure(model.error));
      }
      // The name was just found, so the second lookup cannot fail.
      var stats := server.GetModelStats(name);
      assert stats.Ok?;
      r := Ok(ModelInfo(name, model.value.GetVersion(), model.value.IsTraining(), stats.value));
    }

    /** `list_models`: never fails. */
    method ListModels() returns (r: ApiResult<seq<string>>)
      ensures r.Ok?
      ensures forall n :: n in r.value <==> n in server.models
      ensures forall i, j :: 0 <= i < j < |r.value| ==> r.value[i] != r.value[j]
    {
      var names := server.ListModels();
      r := Ok(names);
    }

    /** `start_continuous_learning`. */
    method StartContinuousLearning() returns (r: ApiResult<()>)
      modifies server`running
      ensures r == Ok(())
      ensures server.running == (old(server.running) || server.config.enabled)
    {
      var started := server.StartContinuousLearning();
      r := Lift(started);
    }

    /** `stop_continuous_learning`. */
    method StopContinuousLearning() returns (r: ApiResult<()>)
      modifies server`running
      ensures r == Ok(()) && !server.running
    {
      server.StopContinuousLearning();
      r := Ok(());
    }
  }
}
