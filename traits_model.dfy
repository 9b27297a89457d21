/** The error taxonomy and the model capability of `src/traits/model.rs`:
    `ModelError` with its `Display`, `source` and `From<io::Error>`, and the
    default `Model::predict_batch`. The concrete model is abstract: a state
    type `M` together with the outcomes of its `train`, `predict` and
    `validate`. */
module ModelTraits {
  import opened Text

  datatype Option<+T> = None | Some(value: T)

  datatype Result<+T, +E> = Ok(value: T) | Err(error: E)

  /** A feature vector (a one-dimensional `f32` array). */
  type Feature = seq<real>

  /** A `std::io::Error`, reduced to the text it displays. */
  datatype StdIoError = StdIoError(description: string)

  datatype ModelError =
    | TrainingError(msg: string)
    | PredictionError(msg: string)
    | DimensionMismatch(expected: nat, actual: nat, context: string)
    | InvalidParameter(msg: string)
    | IoError(err: StdIoError)
    | SerializationError(msg: string)
    | ValidationError(msg: string)
    | Timeout(msg: string)

  type ModelResult<T> = Result<T, ModelError>

  /** The variant of an error, without its payload. */
  datatype ErrorKind =
    | TrainingKind | PredictionKind | DimensionKind | ParameterKind
    | IoKind | SerializationKind | ValidationKind | TimeoutKind

  function Kind(e: ModelError): ErrorKind {
    match e
    case TrainingError(_) => TrainingKind
    case PredictionError(_) => PredictionKind
    case DimensionMismatch(_, _, _) => DimensionKind
    case InvalidParameter(_) => ParameterKind
    case IoError(_) => IoKind
    case SerializationError(_) => SerializationKind
    case ValidationError(_) => ValidationKind
    case Timeout(_) => TimeoutKind
  }

  /** The fixed text that opens the display of each variant. */
  function KindPrefix(k: ErrorKind): string {
    match k
    case TrainingKind => "Training error: "
    case PredictionKind => "Prediction error: "
    case DimensionKind => "Dimension mismatch ("
    case ParameterKind => "Invalid parameter: "
    case IoKind => "I/O error: "
    case SerializationKind => "Serialization error: "
    case ValidationKind => "Validation error: "
    case TimeoutKind => "Operation timed out: "
  }

  /** `impl Display for ModelError`. */
  function Display(e: ModelError): (s: string)
    ensures KindPrefix(Kind(e)) <= s
    ensures e.DimensionMismatch? ==>
      s == "Dimension mismatch (" + e.context + "): expected " + NatToString(e.expected)
           + ", got " + NatToString(e.actual)
  {
    match e
    case TrainingError(msg) => "Training error: " + msg
    case PredictionError(msg) => "Prediction error: " + msg
    case DimensionMismatch(expected, actual, context) =>
      "Dimension mismatch (" + context + "): expected " + NatToString(expected)
      + ", got " + NatToString(actual)
    case InvalidParameter(msg) => "Invalid parameter: " + msg
    case IoError(err) => "I/O error: " + err.description
    case SerializationError(msg) => "Serialization error: " + msg
    case Timeout(msg) => "Operation timed out: " + msg
    case ValidationError(msg) => "Validation error: " + msg
  }

  /** Reads the variant back from a displayed error by its opening text. */
  function KindOfMessage(s: string): Option<ErrorKind> {
    if KindPrefix(TrainingKind) <= s then Some(TrainingKind)
    else if KindPrefix(PredictionKind) <= s then Some(PredictionKind)
    else if KindPrefix(DimensionKind) <= s then Some(DimensionKind)
    else if KindPrefix(ParameterKind) <= s then Some(ParameterKind)
    else if KindPrefix(IoKind) <= s then Some(IoKind)
    else if KindPrefix(SerializationKind) <= s then Some(SerializationKind)
    else if KindPrefix(ValidationKind) <= s then Some(ValidationKind)
    else if KindPrefix(TimeoutKind) <= s then Some(TimeoutKind)
    else None
  }

  /** The prefixes of two different variants already differ in their first
      two characters, so no text opens with both. */
  lemma PrefixExcludesOthers(k: ErrorKind, j: ErrorKind, s: string)
    requires k != j && KindPrefix(k) <= s
    ensures !(KindPrefix(j) <= s)
  {
    var p := KindPrefix(k);
    assert s[0] == p[0] && s[1] == p[1];
  }

  /** Each variant has its own prefix: the displayed text determines the variant. */
  lemma DisplayDeterminesKind(e: ModelError)
    ensures KindOfMessage(Display(e)) == Some(Kind(e))
  {
    var s := Display(e);
    var k := Kind(e);
    forall j: ErrorKind | j != k
      ensures !(KindPrefix(j) <= s)
    {
      PrefixExcludesOthers(k, j, s);
    }
  }

  /** `Error::source`: only an I/O error has an underlying cause. */
  function Source(e: ModelError): (r: Option<StdIoError>)
    ensures r.Some? <==> e.IoError?
    ensures r.Some? ==> r.value == e.err
  {
    match e
    case IoError(err) => Some(err)
    case _ => None
  }

  /** `From<std::io::Error> for ModelError`. */
  function FromIo(err: StdIoError): (e: ModelError)
    ensures Source(e) == Some(err)
    ensures Display(e) == "I/O error: " + err.description
  {
    IoError(err)
  }

  /** The behaviour of a concrete model (`impl Model for M`). `train` returns the
      model after the call together with its failure, if any: `&mut self` may be
      changed even by a failing call. */
  datatype ModelOps<!M> = ModelOps(
    train: (M, seq<Feature>, seq<real>) -> (M, Option<ModelError>),
    predict: (M, Feature) -> ModelResult<real>,
    validate: (M, seq<Feature>, seq<real>) -> ModelResult<real>)

  /** Reference meaning of a batch prediction: every prediction in input order,
      or the error of the first item that fails. */
  function BatchPredictions<M>(ops: ModelOps<M>, model: M, features: seq<Feature>): (r: ModelResult<seq<real>>)
    ensures r.Ok? ==> |r.value| == |features|
    ensures r.Ok? ==> forall i :: 0 <= i < |features| ==> ops.predict(model, features[i]) == Ok(r.value[i])
    decreases |features|
  {
    if features == [] then Ok([])
    else
      var init := features[..|features| - 1];
      match BatchPredictions(ops, model, init)
      case Err(e) => Err(e)
      case Ok(ps) =>
        match ops.predict(model, features[|features| - 1])
        case Err(e) => Err(e)
        case Ok(p) => Ok(ps + [p])
  }

  /** The number of items that predict successfully before the first failure. */
  function LeadingSuccesses<M>(ops: ModelOps<M>, model: M, features: seq<Feature>): (k: nat)
    ensures k <= |features|
    ensures forall j :: 0 <= j < k ==> ops.predict(model, features[j]).Ok?
    ensures k < |features| ==> ops.predict(model, features[k]).Err?
    decreases |features|
  {
    if features == [] then 0
    else
      var n := |features| - 1;
      var k := LeadingSuccesses(ops, model, features[..n]);
      if k < n then k
      else if ops.predict(model, features[n]).Ok? then n + 1
      else n
  }

  /** A batch fails exactly when some item fails, and then with the error of the
      first failing item. */
  lemma {:induction false} BatchFailsAtFirstFailure<M>(ops: ModelOps<M>, model: M, features: seq<Feature>)
    ensures var k := LeadingSuccesses(ops, model, features);
      && (BatchPredictions(ops, model, features).Ok? <==> k == |features|)
      && (k < |features| ==> BatchPredictions(ops, model, features) == Err(ops.predict(model, features[k]).error))
    decreases |features|
  {
    if features != [] {
      var n := |features| - 1;
      BatchFailsAtFirstFailure(ops, model, features[..n]);
    }
  }

  /** A failure in a prefix of the batch is the failure of the whole batch. */
  lemma {:induction false} PrefixFailurePropagates<M>(ops: ModelOps<M>, model: M, features: seq<Feature>, i: nat)
    requires i <= |features|
    requires BatchPredictions(ops, model, features[..i]).Err?
    ensures BatchPredictions(ops, model, features) == BatchPredictions(ops, model, features[..i])
    decreases |features| - i
  {
    if i < |features| {
      var n := |features| - 1;
      assert features[..n][..i] == features[..i];
      PrefixFailurePropagates(ops, model, features[..n], i);
    } else {
      assert features[..i] == features;
    }
  }

  /** The default `Model::predict_batch`: predicts item by item and returns on
      the first error, without partial results. */
  method DefaultPredictBatch<M>(ops: ModelOps<M>, model: M, features: seq<Feature>) returns (r: ModelResult<seq<real>>)
    ensures r == BatchPredictions(ops, model, features)
  {
    var predictions: seq<real> := [];
    for i := 0 to |features|
      invariant BatchPredictions(ops, model, features[..i]) == Ok(predictions)
    {
      assert features[..i + 1][..i] == features[..i];
      var p := ops.predict(model, features[i]);
      if p.Err? {
        PrefixFailurePropagates(ops, model, features, i + 1);
        return Err(p.error);
      }
      predictions := predictions + [p.value];
    }
    assert features[..|features|] == features;
    return Ok(predictions);
  }
}
