/** `ModelStats` of `src/server/metrics.rs`: the counters, latencies, version
    and timestamps of one model. The source keeps them in atomics behind an
    `Arc` shared by the model container and its clones; here they are the
    fields of one object. Timestamps are whole seconds since the Unix epoch
    and latencies are microseconds, both read from the clock by the caller. */
module Metrics {
  import opened Text

  /** Every field of a `ModelStats`, as one value. */
  datatype StatsView = StatsView(
    predictionCount: nat,
    trainingCount: nat,
    predictionErrors: nat,
    trainingErrors: nat,
    latestPredictionLatencyUs: nat,
    latestTrainingLatencyUs: nat,
    version: nat,
    createdAt: nat,
    lastUpdatedAt: nat)

  /** The statistics of a model created at time `now`. */
  function InitialView(now: nat): StatsView {
    StatsView(0, 0, 0, 0, 0, 0, 1, now, now)
  }

  /** Time elapsed from `since` to `now`, or 0 when the clock reads earlier
      than `since` (`saturating_sub`, `duration_since(..).unwrap_or_default()`). */
  function ElapsedSince(since: nat, now: nat): (r: nat)
    ensures now >= since ==> since + r == now
    ensures now <= since ==> r == 0
  {
    if now >= since then now - since else 0
  }

  class ModelStats {
    var predictionCount: nat
    var trainingCount: nat
    var predictionErrors: nat
    var trainingErrors: nat
    var latestPredictionLatencyUs: nat
    var latestTrainingLatencyUs: nat
    var version: nat
    const createdAt: nat
    var lastUpdatedAt: nat

    function View(): StatsView
      reads this
    {
      StatsView(predictionCount, trainingCount, predictionErrors, trainingErrors,
                latestPredictionLatencyUs, latestTrainingLatencyUs, version,
                createdAt, lastUpdatedAt)
    }

    /** `ModelStats::new`: version 1, every counter and latency 0. */
    constructor (now: nat)
      ensures View() == InitialView(now)
    {
      predictionCount, trainingCount := 0, 0;
      predictionErrors, trainingErrors := 0, 0;
      latestPredictionLatencyUs, latestTrainingLatencyUs := 0, 0;
      version := 1;
      createdAt := now;
      lastUpdatedAt := now;
    }

    /** `update_timestamp`: only the last-update time changes. */
    method UpdateTimestamp(now: nat)
      modifies this
      ensures View() == old(View()).(lastUpdatedAt := now)
    {
      lastUpdatedAt := now;
    }

    /** `reset_error_counters`: both error counters drop to 0, nothing else changes. */
    method ResetErrorCounters()
      modifies this
      ensures View() == old(View()).(predictionErrors := 0, trainingErrors := 0)
    {
      predictionErrors := 0;
      trainingErrors := 0;
    }

    /** `format_stats`. */
    function FormatStats(): (s: string)
      reads this
      ensures "Model v" + NatToString(version) + " | Predictions: " + NatToString(predictionCount)
              + " | Training runs: " + NatToString(trainingCount) + " | Errors: "
              + NatToString(predictionErrors) + "/" + NatToString(trainingErrors) <= s
    {
      "Model v" + NatToString(version)
      + " | Predictions: " + NatToString(predictionCount)
      + " | Training runs: " + NatToString(trainingCount)
      + " | Errors: " + NatToString(predictionErrors) + "/" + NatToString(trainingErrors)
      + " | Latency: " + NatToString(latestPredictionLatencyUs) + "μs/"
      + NatToString(latestTrainingLatencyUs) + "μs"
    }

    /** `uptime_secs`. */
    function UptimeSecs(now: nat): (r: nat)
      reads this
      ensures now >= createdAt ==> createdAt + r == now
      ensures now <= createdAt ==> r == 0
    {
      ElapsedSince(createdAt, now)
    }

    /** `time_since_update_secs`: saturating, so 0 when the clock is behind. */
    function TimeSinceUpdateSecs(now: nat): (r: nat)
      reads this
      ensures now >= lastUpdatedAt ==> lastUpdatedAt + r == now
      ensures now <= lastUpdatedAt ==> r == 0
    {
      ElapsedSince(lastUpdatedAt, now)
    }
  }

  /** The first two fields of the summary line of fresh statistics. */
  lemma FreshSummaryHead()
    ensures "Model v" + NatToString(1) + " | Predictions: " + NatToString(0)
            == "Model v1 | Predictions: 0"
  {
    assert NatToString(1) == "1" && NatToString(0) == "0";
    assert "Model v" + "1" == "Model v1";
  }

  /** The summary line of the statistics of a model created at `now`. */
  lemma FreshSummaryText()
    ensures "Model v" + NatToString(1) + " | Predictions: " + NatToString(0)
            + " | Training runs: " + NatToString(0) + " | Errors: "
            + NatToString(0) + "/" + NatToString(0)
            == "Model v1 | Predictions: 0 | Training runs: 0 | Errors: 0/0"
  {
    assert NatToString(0) == "0";
    FreshSummaryHead();
    var c := "Model v1 | Predictions: 0" + " | Training runs: " + "0";
    assert c == "Model v1 | Predictions: 0 | Training runs: 0";
    var d := c + " | Errors: " + "0";
    assert d == "Model v1 | Predictions: 0 | Training runs: 0 | Errors: 0";
    assert d + "/" + "0" == "Model v1 | Predictions: 0 | Training runs: 0 | Errors: 0/0";
  }

  /** A freshly created model reports "Model v1", "Predictions: 0",
      "Training runs: 0" and "Errors: 0/0". */
  lemma FreshStatsSummary(stats: ModelStats, now: nat)
    requires stats.View() == InitialView(now)
    ensures "Model v1 | Predictions: 0 | Training runs: 0 | Errors: 0/0" <= stats.FormatStats()
  {
    FreshSummaryText();
  }
}
