# Continuum model-serving core in Dafny

This project models the serving and continuous-learning core of Continuum, a
Rust library that serves online regression models. It covers:

- `AtomicModel`, a container holding a *current* model that answers
  predictions and a *training* model that retraining mutates. It also keeps
  two flags (`training_in_progress`, `models_in_sync`) and a shared
  `ModelStats`.
- `TrainingBuffer`, which holds training and validation examples with an
  optional bound and oldest-first eviction.
- `ModelServer`, a registry of named containers and their buffers. It offers
  manual training with an auto-swap rule and a background scheduler.
- `ContinuumApi`, a front end that picks the model kind by name, fills in
  default parameters and wraps errors.
- The `ModelError` taxonomy and the default item-by-item `predict_batch` of
  the `Model` trait.

The concrete regression models are abstract. A model is any state `M`
together with a `ModelOps<M>` value that gives the outcome of its `train`,
`predict` and `validate`. `train` returns the model after the call and its
failure, if any, because `&mut self` may be changed even by a failing run.
Every property proved here is therefore about the container logic, for every
possible model. Feature vectors are sequences of reals and `usize` counters
are unbounded naturals. The clock and measured durations are passed in as
`now` and `elapsed`.

Files and modules:

- `text.dfy` (`Text`): decimal rendering of counters and its inverse.
- `traits_model.dfy` (`ModelTraits`): `ModelError`, its `Display`, `source`
  and `From<io::Error>`, `ModelOps`, and the default batch prediction.
- `server_metrics.dfy` (`Metrics`): class `ModelStats`.
- `server_continuous_learning.dfy` (`ContinuousLearning`): the configuration
  presets and class `TrainingBuffer`.
- `server_model_server.dfy` (`AtomicModels`): class `AtomicModel`.
- `server_server.dfy` (`Server`): class `ModelServer` and the per-entry
  training, scheduling and batch-prediction methods it delegates to.
- `server_api.dfy` (`Api`): parameter resolution, `ApiError` and class
  `ContinuumApi`.

`Valid()` of the server says three things:

- every registered name has both a model and a buffer;
- every entry keeps its own invariant;
- different names own different containers, statistics objects and buffers.

The entry invariants are:

- for a container, being in sync means both slots hold the same model;
- for a buffer, each pair has equal lengths and neither pair exceeds the bound.

Because entries share nothing, every per-name server operation promises that
every other entry is unchanged. A failure in one model therefore cannot
affect another.

A container and a buffer each have a value snapshot, `View()`. The effect of
training is given by two pure functions over these snapshots:

- `AfterRetraining`: one training run followed by the auto-swap decision.
- `AfterSchedulerStep`: one scheduler pass over one model and its buffer.

The outcomes of the methods are stated once as two-state predicates, shared
by the server and the API:

- `Retrained` and `SchedulerOutcome` say that the new snapshot is the
  function of the old one.
- `TrainNowOutcome` describes `train_now`.
- `PredictedEach` describes the server's batch prediction.

## Model

| member | source | states |
|---|---|---|
| Text.NatToString | src/server/metrics.rs:58-69 | The `{}` rendering of a counter: at least one decimal digit, no leading zero, a single digit exactly for values below 10 |
| Text.ParseNatToString | src/server/metrics.rs:58-69 | Reading a rendered counter back gives the counter: the rendering loses nothing |
| Text.NatToStringInjective | src/server/metrics.rs:58-69 | Different counter values are rendered as different texts |
| ModelTraits.Display | src/traits/model.rs:30-44 | Each variant's text opens with that variant's fixed prefix; a dimension mismatch renders context, then expected, then actual |
| ModelTraits.PrefixExcludesOthers | src/traits/model.rs:30-44 | No text opens with the prefixes of two different variants |
| ModelTraits.DisplayDeterminesKind | src/traits/model.rs:30-44 | The displayed text of an error determines its variant: each variant has its own prefix |
| ModelTraits.Source | src/traits/model.rs:46-53 | `source()` is present exactly for an I/O error, and is that error's cause |
| ModelTraits.FromIo | src/traits/model.rs:55-59 | Converting an I/O error gives an error whose source is that I/O error and whose text is "I/O error: " followed by it |
| ModelTraits.BatchPredictions | src/traits/model.rs:85-91 | On success the batch result has one entry per input, and entry i is the prediction for input i |
| ModelTraits.LeadingSuccesses | src/traits/model.rs:85-91 | Counts the inputs that predict successfully before the first failure; the input at that count fails |
| ModelTraits.BatchFailsAtFirstFailure | src/traits/model.rs:85-91 | A batch succeeds exactly when every item does; otherwise it fails with the error of the first failing item and returns no partial result |
| ModelTraits.PrefixFailurePropagates | src/traits/model.rs:87-89 | Once a prefix of the batch fails, the whole batch fails with that same error |
| ModelTraits.DefaultPredictBatch | src/traits/model.rs:85-91 | The loop that predicts item by item and returns early on the first error computes exactly `BatchPredictions`; an empty input gives an empty success |
| Metrics.ElapsedSince | src/server/metrics.rs:86-93 | Saturating subtraction: the elapsed time added to the start gives now, or 0 when the clock is behind |
| Metrics.ModelStats.constructor | src/server/metrics.rs:29-46 | Version 1, every counter and both latencies 0, created and last updated now |
| Metrics.ModelStats.UpdateTimestamp | src/server/metrics.rs:49-55 | Only the last-update time changes |
| Metrics.ModelStats.ResetErrorCounters | src/server/metrics.rs:72-75 | Both error counters become 0; the other counters, the latencies, the version and the times are unchanged |
| Metrics.ModelStats.FormatStats | src/server/metrics.rs:58-69 | The summary opens with "Model v", the version, then the prediction count, the training-run count and the prediction/training error counts, each under its label and separated by vertical bars |
| Metrics.ModelStats.UptimeSecs | src/server/metrics.rs:78-83 | Time since creation, 0 when the clock reads earlier |
| Metrics.ModelStats.TimeSinceUpdateSecs | src/server/metrics.rs:86-93 | Time since the last update, saturating at 0 when the clock is behind |
| Metrics.FreshSummaryText | src/server/metrics.rs:58-69 | With version 1 and zero counters those leading fields read "Model v1", "Predictions: 0", "Training runs: 0", "Errors: 0/0" |
| Metrics.FreshStatsSummary | src/server/metrics.rs:29-69 | The summary of statistics just created opens with "Model v1", "Predictions: 0", "Training runs: 0", "Errors: 0/0" in that order |
| ContinuousLearning.ConfigPresets | src/server/continuous_learning.rs:21-70 | Default: enabled, 60 s, 100 samples, auto-swap, threshold 0.05, no KL. `disabled` changes only `enabled`; `frequent_updates` changes only interval (10), samples (10) and threshold (0.01) |
| ContinuousLearning.LastK | src/server/continuous_learning.rs:86-87 | The last k elements: length min(len, k), the whole sequence when it is no longer than k |
| ContinuousLearning.PushBoundedKeepsMostRecent | src/server/continuous_learning.rs:116-139 | Within the bound k, one bounded push leaves the last k of the old contents followed by the new item |
| ContinuousLearning.LastKAbsorbs | src/server/continuous_learning.rs:116-139 | Trimming to the last k before appending changes nothing once the result is trimmed to the last k again |
| ContinuousLearning.PushAllKeepsMostRecent | src/server/continuous_learning.rs:116-139 | After any sequence of insertions, a buffer bounded by k holds the k most recent items in insertion order |
| ContinuousLearning.OverfilledBufferKeepsLastK | src/server/continuous_learning.rs:116-139 | Inserting more than k items into an empty buffer bounded by k leaves exactly the last k |
| ContinuousLearning.TrainingBuffer.constructor | src/server/continuous_learning.rs:92-101 | All four sequences empty, no bound, last trained now |
| ContinuousLearning.TrainingBuffer.WithMaxSize | src/server/continuous_learning.rs:104-113 | All four sequences empty, bound `Some(k)` |
| ContinuousLearning.TrainingBuffer.Add | src/server/continuous_learning.rs:116-140 | Only the selected pair grows, by a bounded push on both of its sequences (oldest evicted past the bound); the other pair and the training time are unchanged; equal lengths and the bound are preserved |
| ContinuousLearning.TrainingBuffer.HasMinSamples | src/server/continuous_learning.rs:143-145 | True exactly when there are at least n training examples; validation examples never count |
| ContinuousLearning.TrainingBuffer.ClearTraining | src/server/continuous_learning.rs:148-152 | Empties the training pair and sets the training time; the validation pair is unchanged and the buffer stays valid |
| ContinuousLearning.TrainingBuffer.ClearValidation | src/server/continuous_learning.rs:155-158 | Empties the validation pair only; the buffer stays valid |
| ContinuousLearning.TrainingBuffer.ClearAll | src/server/continuous_learning.rs:161-164 | Empties both pairs and sets the training time |
| ContinuousLearning.TrainingBuffer.TimeSinceLastTraining | src/server/continuous_learning.rs:167-169 | Time since the last training, 0 when the clock reads earlier |
| ContinuousLearning.TrainingBuffer.GetSizes | src/server/continuous_learning.rs:172-174 | (training length, validation length) |
| ContinuousLearning.TrainingBuffer.GetTrainingData | src/server/continuous_learning.rs:177-179 | The training features and targets as stored, of equal length in a valid buffer |
| ContinuousLearning.TrainingBuffer.GetValidationData | src/server/continuous_learning.rs:182-184 | The validation features and targets as stored, of equal length in a valid buffer |
| AtomicModels.AtomicModel.constructor | src/server/model_server.rs:25-35 | Both slots hold the initial model; not training, in sync, fresh statistics at version 1 |
| AtomicModels.AtomicModel.Cloned | src/server/model_server.rs:234-247 | Copies both slots and both flags and shares the same statistics object |
| AtomicModels.TrainInputError | src/server/model_server.rs:63-74 | Empty inputs give the "Empty training data" training error. Otherwise it is a dimension mismatch with context "features vs targets length", expected = number of features and actual = number of targets |
| AtomicModels.AtomicModel.Train | src/server/model_server.rs:63-111 | Empty or mismatched inputs and a run already in progress are refused and change nothing. Otherwise only the training slot is trained, sync is lost even on failure, exactly one of the training count and the training errors grows, the flag is clear on return, and `current` and the version stay |
| AtomicModels.AtomicModel.Predict | src/server/model_server.rs:114-138 | Returns the current model's prediction unchanged; a success adds one prediction and records the latency; a failure adds one prediction error |
| AtomicModels.AtomicModel.PredictBatch | src/server/model_server.rs:141-165 | Returns the default batch prediction of `current`. On success the count grows by the batch length and the latency is divided by max(length, 1); a failure adds exactly one error |
| AtomicModels.AtomicModel.SwapModels | src/server/model_server.rs:168-195 | Refused while training, changing nothing. Otherwise `current` becomes `training`, the version grows by exactly 1 and is returned, the slots are in sync and the update time is set |
| AtomicModels.AtomicModel.Validate | src/server/model_server.rs:198-201 | The current model's validation result; nothing changes |
| AtomicModels.AtomicModel.CompareModels | src/server/model_server.rs:204-230 | Empty inputs give a validation error and mismatched lengths a dimension mismatch. Otherwise it returns the errors of `current` and then of `training`, or the first failure; nothing changes |
| AtomicModels.InSyncSlotsPredictAlike | src/server/model_server.rs:57-60 | While the slots are in sync, both give the same prediction for every input |
| Server.RetrainedVersion | src/server/server.rs:143-174 | A training run followed by the auto-swap decision raises the version by 1 exactly when it leaves the slots in sync. Otherwise the version and the serving model stay, as they always do after a failed training. No run is left in progress |
| Server.SchedulerStepBounds | src/server/server.rs:212-296 | One scheduler pass raises the version by at most 1 and keeps the validation pair. Either nothing changes or the training pair is emptied. Below `min_samples` nothing changes |
| Server.TrainNowSwapStands | src/server/server.rs:152-174 | After a successful `train_now` with auto-swap on, the swap happened once and stands whatever the validation errors and the warning; with auto-swap off, version and serving model stay |
| Server.PredictEach | src/server/server.rs:94-104 | Predicting item by item through the single-item path gives the batch result in order, or the first failure; each leading success is counted and a failure counted once |
| Server.AutoSwap | src/server/server.rs:152-174 | With auto-swap on and validation data: measure, swap, measure again, and warn when the new error exceeds old × (1 − threshold). A measurement error is returned (before the swap if it is the first). Without validation data it just swaps |
| Server.TrainEntry | src/server/server.rs:136-177 | Establishes `TrainNowOutcome`: no training examples means Ok and no change; a failed training is returned and keeps the buffer; success clears the training pair, keeps the validation pair and applies the auto-swap rule |
| Server.ScheduleEntry | src/server/server.rs:212-296 | Establishes `SchedulerOutcome`: trains only with at least `min_samples` examples and no run in progress. The examples are taken out before training, so a failure drops them and skips the swap. The version never decreases |
| Server.ModelServer.constructor | src/server/server.rs:25-33 | No models, no buffers, the given configuration, not running |
| Server.ModelServer.Default | src/server/server.rs:35-37 | The same with the default configuration |
| Server.ModelServer.RegisterModel | src/server/server.rs:40-60 | An existing name is refused with "already exists" and nothing changes. A new name gets a fresh container (version 1, in sync, not training) with its own fresh statistics, and an empty, unbounded buffer. No other entry changes |
| Server.ModelServer.UnregisterModel | src/server/server.rs:63-75 | An absent name is refused with "not found"; a present one loses both its model and its buffer, and nothing else changes |
| Server.ModelServer.GetModel | src/server/server.rs:78-85 | Finds the registered container exactly when the name is registered, otherwise "not found" |
| Server.ModelServer.Predict | src/server/server.rs:88-91 | An unknown name gives "not found". Otherwise it returns the named container's prediction and updates that container's statistics. Every other entry is unchanged |
| Server.ModelServer.PredictBatch | src/server/server.rs:94-104 | An unknown name gives "not found". Otherwise `PredictedEach` holds on the named container, and every other entry is unchanged |
| Server.ModelServer.AddTrainingExample | src/server/server.rs:107-123 | An unknown name gives "not found". Otherwise exactly the buffer's `add` is applied to the named buffer, and every other entry is unchanged |
| Server.ModelServer.TrainNow | src/server/server.rs:126-177 | An unknown name gives "not found". Otherwise `TrainNowOutcome` holds on the named model and buffer, and every other entry is unchanged |
| Server.ModelServer.SchedulerStep | src/server/server.rs:210-297 | `SchedulerOutcome` holds for one registered name. Every other entry is unchanged: a failure in one model does not stop or touch the others |
| Server.ModelServer.SchedulerVisit | src/server/server.rs:210-297 | One name's turn in a trip: if it held before the visit, it holds afterwards with the name removed from the pending set. The invariant is that pending names keep their snapshot and every other name has exactly its scheduler pass |
| Server.ModelServer.ContinuousLearningIteration | src/server/server.rs:197-299 | When the flag is off nothing changes and the loop ends. Otherwise every registered name ends exactly as `AfterSchedulerStep` maps its snapshot from the start of the trip, and the loop continues |
| Server.ModelServer.StartContinuousLearning | src/server/server.rs:180-189 | Always Ok; the flag is raised only when enabled, and left as it was otherwise |
| Server.ModelServer.StopContinuousLearning | src/server/server.rs:306-308 | Lowers the flag |
| Server.ModelServer.ListModels | src/server/server.rs:311-314 | Exactly the registered names, each once |
| Server.ModelServer.GetModelStats | src/server/server.rs:317-320 | An unknown name gives "not found"; otherwise the named model's formatted statistics |
| Api.ApiDisplay | src/server/api.rs:10-18 | Each API error's text is its own prefix followed by the wrapped error's text or the message |
| Api.Lift | src/server/api.rs:12-13 | A server error is wrapped unchanged as the model-error variant; a success passes through |
| Api.UnwrapOr | src/server/api.rs:93-110 | The value when present, the default otherwise |
| Api.ResolveModel | src/server/api.rs:93-116 | Fails, with "Unknown model type: " and the type, exactly when the type is neither "linear" nor "ridge"; otherwise builds the model kind the type names |
| Api.DefaultSpecs | src/server/api.rs:32-41 | Without parameters: linear gets bias, rate 0.01 and 1000 iterations; ridge additionally regularization 0.1 |
| Api.GivenParametersKept | src/server/api.rs:96-111 | Given fields are used as they are. Missing fields become rate 0.01, 1000 iterations and, for ridge, regularization 0.1, whichever other fields are given |
| Api.ContinuumApi.constructor | src/server/api.rs:73-77 | A fresh, empty, stopped server with the given configuration |
| Api.ContinuumApi.Default | src/server/api.rs:80-84 | The same with the default configuration |
| Api.ContinuumApi.RegisterModel | src/server/api.rs:87-117 | An unknown type gives InvalidInput and registers nothing. A duplicate name gives the wrapped "already exists". Otherwise a model built from the resolved parameters is registered in both slots, in sync and not training, with fresh statistics at version 1 and an empty, unbounded buffer |
| Api.ContinuumApi.Predict | src/server/api.rs:120-134 | An unknown name gives the wrapped "not found". Otherwise it returns the prediction with the version read before predicting, or the wrapped failure. A success adds one prediction and records the latency; a failure adds one error. Every other entry is unchanged |
| Api.ContinuumApi.PredictBatch | src/server/api.rs:137-158 | The same for a batch: the server's own result `outcome` satisfies `PredictedEach`, and the response carries it with the version read first |
| Api.ContinuumApi.AddTrainingExample | src/server/api.rs:161-176 | The server's `add_training_example` with its error wrapped: only the selected pair grows and the training time stays |
| Api.ContinuumApi.TrainModel | src/server/api.rs:179-182 | The server's `train_now` (`TrainNowOutcome`) with its error wrapped |
| Api.ContinuumApi.GetModelInfo | src/server/api.rs:185-195 | The requested name, the version, the training flag and the formatted statistics; "not found" wrapped for an unknown name |
| Api.ContinuumApi.ListModels | src/server/api.rs:198-200 | Always Ok, with every registered name once |
| Api.ContinuumApi.StartContinuousLearning | src/server/api.rs:203-206 | Always Ok; the flag as the server's start sets it |
| Api.ContinuumApi.StopContinuousLearning | src/server/api.rs:209-212 | Always Ok; the flag is lowered |

## Left out

- Concrete models (`src/models/linears.rs`, `src/models/ridge.rs`): the least-squares solve, gradient descent and error metrics are `f32` numerics. `ModelOps` stands for any model's behaviour.
- `Api.ContinuumApi.RegisterModel`: the source registers two different concrete types; here one model type `M` covers both, built by `newModel` from the resolved `ModelSpec`.
- `save`, `load`, `export_parameters`, `import_parameters`, `clone_model` and the other `Model` trait methods: file I/O and numerics, not used by the serving core.
- `kl_divergence` and `to_probabilities` in `src/server/metrics.rs`: floating-point logarithms and exponentials, never called on the training or swap path.
- Concurrency: the locks, atomics and memory orderings, the spawned task and its sleep. Operations run one at a time, so a check-then-act race between tasks is not represented, and `training_in_progress` is never observed set between calls.
- `Server.ModelServer.ContinuousLearningIteration`: one trip of the background loop. The spawned tokio task, its interval sleep and its repetition until the flag is lowered are not modelled. Names are processed in an unspecified order, like the map's.
- `Server.ScheduleEntry`: the source re-looks-up the model and buffer inside the loop and skips a name that disappeared meanwhile. Sequentially the name cannot disappear, so those branches are not modelled.
- `Server.TrainEntry`: `train_now`'s second "not found" branch (model present, buffer absent) cannot be taken while `Valid()` holds, so it is not modelled.
- Logging (`println!`): the threshold warning of `train_now` is exposed as the ghost result `warned`; the scheduler's messages are dropped.
- The clock and `Instant` measurements are the parameters `now` and `elapsed`. Creation time and last-update time are both whole seconds.
- Counters are unbounded naturals, so `usize` wrap-around is not represented.
- `f32` values are exact reals. The auto-swap warning at `src/server/server.rs:166` compares `new_error > old_error * (1.0 - validation_threshold)`; `f32` rounding and NaN (where the comparison is false) are not represented, so `warned` is the exact-real comparison.
- The `impl ModelWrapper for AtomicModel` forwarding methods and the `get_current`/`get_stats`/getter accessors are modelled as plain field reads.
- `ContinuousLearningConfig::new` is the `Config` datatype constructor itself.
- The Python bindings, the example script and the `FeatureVector` wrapper are not part of this model.
