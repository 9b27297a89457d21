/** `src/server/continuous_learning.rs`: the scheduler's configuration and the
    per-model `TrainingBuffer`, two parallel pairs of sequences (training and
    validation examples) with an optional bound and oldest-first eviction. */
module ContinuousLearning {
  import opened ModelTraits
  import opened Metrics

  /** `ContinuousLearningConfig`; its positional constructor is `new`. */
  datatype Config = Config(
    enabled: bool,
    intervalSec: nat,
    minSamples: nat,
    autoSwap: bool,
    validationThreshold: real,
    useKlDivergence: bool)

  /** `impl Default for ContinuousLearningConfig`. */
  function DefaultConfig(): Config {
    Config(true, 60, 100, true, 0.05, false)
  }

  /** `ContinuousLearningConfig::disabled`. */
  function Disabled(): Config {
    DefaultConfig().(enabled := false)
  }

  /** `ContinuousLearningConfig::frequent_updates`. */
  function FrequentUpdates(): Config {
    DefaultConfig().(intervalSec := 10, minSamples := 10, validationThreshold := 0.01)
  }

  /** The presets: the default, and the two that override only the fields they name. */
  lemma ConfigPresets()
    ensures var d := DefaultConfig();
      d.enabled && d.intervalSec == 60 && d.minSamples == 100 && d.autoSwap
      && d.validationThreshold == 0.05 && !d.useKlDivergence
    ensures var c := Disabled();
      !c.enabled && c.intervalSec == 60 && c.minSamples == 100 && c.autoSwap
      && c.validationThreshold == 0.05 && !c.useKlDivergence
    ensures var c := FrequentUpdates();
      c.enabled && c.intervalSec == 10 && c.minSamples == 10 && c.autoSwap
      && c.validationThreshold == 0.01 && !c.useKlDivergence
  {
  }

  /** Whether a sequence of length `len` is over the bound. */
  predicate Overflows(len: nat, maxSize: Option<nat>) {
    maxSize.Some? && len > maxSize.value
  }

  /** One `push` followed, when the bound is exceeded, by one `remove(0)`. */
  function PushBounded<T>(s: seq<T>, x: T, maxSize: Option<nat>): seq<T> {
    if Overflows(|s| + 1, maxSize) then (s + [x])[1..] else s + [x]
  }

  /** The last `k` elements of `s` (all of `s` when it is shorter). */
  function LastK<T>(s: seq<T>, k: nat): (r: seq<T>)
    ensures |r| == if |s| <= k then |s| else k
    ensures |s| <= k ==> r == s
    ensures r == s[|s| - |r|..]
  {
    if |s| <= k then s else s[|s| - k..]
  }

  /** A sequence of insertions, one `PushBounded` after the other. */
  function PushAll<T>(s: seq<T>, xs: seq<T>, maxSize: Option<nat>): seq<T>
    decreases |xs|
  {
    if xs == [] then s else PushAll(PushBounded(s, xs[0], maxSize), xs[1..], maxSize)
  }

  /** Within the bound, one bounded push keeps the most recent `k` elements. */
  lemma PushBoundedKeepsMostRecent<T>(s: seq<T>, x: T, k: nat)
    requires |s| <= k
    ensures PushBounded(s, x, Some(k)) == LastK(s + [x], k)
  {
  }

  /** Trimming to the last `k` and then appending and trimming again is the
      same as appending first. */
  lemma LastKAbsorbs<T>(a: seq<T>, b: seq<T>, k: nat)
    ensures LastK(LastK(a, k) + b, k) == LastK(a + b, k)
  {
    var t := LastK(a, k);
    if |a| > k && |t + b| > k {
      assert (t + b)[|t + b| - k..] == (a + b)[|a + b| - k..];
    }
  }

  /** After any number of insertions into a buffer within its bound `k`, it
      holds the `k` most recently inserted items, in insertion order. */
  lemma {:induction false} PushAllKeepsMostRecent<T>(s: seq<T>, xs: seq<T>, k: nat)
    requires |s| <= k
    ensures PushAll(s, xs, Some(k)) == LastK(s + xs, k)
    decreases |xs|
  {
    if xs != [] {
      var s' := PushBounded(s, xs[0], Some(k));
      PushBoundedKeepsMostRecent(s, xs[0], k);
      PushAllKeepsMostRecent(s', xs[1..], k);
      LastKAbsorbs(s + [xs[0]], xs[1..], k);
      assert s + [xs[0]] + xs[1..] == s + xs;
    }
  }

  /** Inserting `n > k` items into an empty buffer bounded by `k` leaves exactly
      `k` of them: the last `k`. */
  lemma OverfilledBufferKeepsLastK<T>(xs: seq<T>, k: nat)
    requires |xs| > k
    ensures var r := PushAll([], xs, Some(k)); |r| == k && r == xs[|xs| - k..]
  {
    PushAllKeepsMostRecent([], xs, k);
    assert [] + xs == xs;
  }

  /** Every field of a `TrainingBuffer` that changes, as one value. */
  datatype BufferView = BufferView(
    features: seq<Feature>,
    targets: seq<real>,
    valFeatures: seq<Feature>,
    valTargets: seq<real>,
    lastTrained: nat)

  /** `TrainingBuffer`. */
  class TrainingBuffer {
    var features: seq<Feature>
    var targets: seq<real>
    var valFeatures: seq<Feature>
    var valTargets: seq<real>
    var lastTrained: nat
    const maxSize: Option<nat>

    /** Each pair has equal lengths, and neither pair exceeds the bound. */
    ghost predicate Valid()
      reads this
    {
      && |features| == |targets|
      && |valFeatures| == |valTargets|
      && (maxSize.Some? ==> |features| <= maxSize.value && |valFeatures| <= maxSize.value)
    }

    function View(): BufferView
      reads this
    {
      BufferView(features, targets, valFeatures, valTargets, lastTrained)
    }

    predicate IsEmpty()
      reads this
    {
      features == [] && targets == [] && valFeatures == [] && valTargets == []
    }

    /** `TrainingBuffer::new`: empty and unbounded. */
    constructor (now: nat)
      ensures Valid() && IsEmpty() && maxSize == None && lastTrained == now
    {
      features, targets := [], [];
      valFeatures, valTargets := [], [];
      lastTrained := now;
      maxSize := None;
    }

    /** `TrainingBuffer::with_max_size`: empty and bounded by `maxSize`. */
    constructor WithMaxSize(maxSize: nat, now: nat)
      ensures Valid() && IsEmpty() && this.maxSize == Some(maxSize) && lastTrained == now
    {
      features, targets := [], [];
      valFeatures, valTargets := [], [];
      lastTrained := now;
      this.maxSize := Some(maxSize);
    }

    /** `add`: appends to the selected pair and, past the bound, evicts the
        oldest example of that pair. The other pair does not change. */
    method Add(feature: Feature, target: real, isValidation: bool)
      requires Valid()
      modifies this
      ensures Valid() && lastTrained == old(lastTrained)
      ensures isValidation ==>
        && features == old(features) && targets == old(targets)
        && valFeatures == PushBounded(old(valFeatures), feature, maxSize)
        && valTargets == PushBounded(old(valTargets), target, maxSize)
      ensures !isValidation ==>
        && valFeatures == old(valFeatures) && valTargets == old(valTargets)
        && features == PushBounded(old(features), feature, maxSize)
        && targets == PushBounded(old(targets), target, maxSize)
    {
      if isValidation {
        valFeatures := valFeatures + [feature];
        valTargets := valTargets + [target];
        if maxSize.Some? && |valFeatures| > maxSize.value {
          valFeatures := valFeatures[1..];
          valTargets := valTargets[1..];
        }
      } else {
        features := features + [feature];
        targets := targets + [target];
        if maxSize.Some? && |features| > maxSize.value {
          features := features[1..];
          targets := targets[1..];
        }
      }
    }

    /** `has_min_samples`: counts training examples only. */
    function HasMinSamples(minSamples: nat): (r: bool)
      reads this
      ensures r <==> |features| >= minSamples
    {
      |features| >= minSamples
    }

    /** `clear_training`: empties the training pair and records the time. */
    method ClearTraining(now: nat)
      requires Valid()
      modifies this
      ensures Valid()
      ensures features == [] && targets == [] && lastTrained == now
      ensures valFeatures == old(valFeatures) && valTargets == old(valTargets)
    {
      features := [];
      targets := [];
      lastTrained := now;
    }

    /** `clear_validation`: empties the validation pair only. */
    method ClearValidation()
      requires Valid()
      modifies this
      ensures Valid()
      ensures valFeatures == [] && valTargets == []
      ensures features == old(features) && targets == old(targets) && lastTrained == old(lastTrained)
    {
      valFeatures := [];
      valTargets := [];
    }

    /** `clear_all`. */
    method ClearAll(now: nat)
      requires Valid()
      modifies this
      ensures Valid() && IsEmpty() && lastTrained == now
    {
      ClearTraining(now);
      ClearValidation();
    }

    /** `time_since_last_training`: 0 when the clock reads earlier. */
    function TimeSinceLastTraining(now: nat): (r: nat)
      reads this
      ensures now >= lastTrained ==> lastTrained + r == now
      ensures now <= lastTrained ==> r == 0
    {
      ElapsedSince(lastTrained, now)
    }

    /** `get_sizes`: (training length, validation length). */
    function GetSizes(): (r: (nat, nat))
      reads this
      ensures r.0 == |features| && r.1 == |valFeatures|
    {
      (|features|, |valFeatures|)
    }

    /** `get_training_data`: the training pair, aligned item by item. */
    function GetTrainingData(): (r: (seq<Feature>, seq<real>))
      reads this
      ensures r == (features, targets)
      ensures Valid() ==> |r.0| == |r.1|
    {
      (features, targets)
    }

    /** `get_validation_data`: the validation pair, aligned item by item. */
    function GetValidationData(): (r: (seq<Feature>, seq<real>))
      reads this
      ensures r == (valFeatures, valTargets)
      ensures Valid() ==> |r.0| == |r.1|
    {
      (valFeatures, valTargets)
    }
  }
}
