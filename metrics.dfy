/** `lib/metrics.ts`: the counters shown on the admin page. They live in
    the module variable `metrics`, are loaded once from `data/metrics.json`
    and are written back after each change (the write is left out). */
module Metrics {
  import opened Common

  /** The fields a `metrics.json` file may carry; `None` for a field the
      file does not have, which then keeps its current value. */
  datatype MetricsFile = MetricsFile(
    generated: Option<nat>, failures: Option<nat>, totalMs: Option<real>, avgMs: Option<int>,
    lastGeneratedAt: Option<string>, feedbackCount: Option<nat>, feedbackAvg: Option<real>)

  /** `Number(x.toFixed(2))`: x rounded to two decimals. */
  function Round2(x: real): (r: real)
    ensures x - 0.005 < r <= x + 0.005
  {
    Round(x * 100.0) as real / 100.0
  }

  /** Rounding to two decimals keeps a value between two bounds that have
      at most two decimals. */
  lemma Round2Within(x: real, lo: int, hi: int)
    requires lo as real <= x <= hi as real
    ensures lo as real <= Round2(x) <= hi as real
  {
    var n := Round(x * 100.0);
    assert (lo * 100) as real <= x * 100.0 <= (hi * 100) as real;
    assert lo * 100 <= n <= hi * 100;
  }

  /** The new average after one more score: the old total plus the score,
      over the new count. */
  function NextAverage(avg: real, count: nat, score: real): real
  {
    Round2((avg * count as real + score) / (count + 1) as real)
  }

  /** With scores between 1 and 5 the average stays between 1 and 5. */
  lemma NextAverageBounds(avg: real, count: nat, score: real)
    requires 1.0 <= score <= 5.0
    requires count == 0 || 1.0 <= avg <= 5.0
    ensures 1.0 <= NextAverage(avg, count, score) <= 5.0
  {
    var total := avg * count as real + score;
    var n := (count + 1) as real;
    TotalBetween(avg, count, score, total, n);
    MeanBetween(total, n);
    Round2Within(total / n, 1, 5);
    assert NextAverage(avg, count, score) == Round2(total / n);
  }

  lemma TotalBetween(avg: real, count: nat, score: real, total: real, n: real)
    requires 1.0 <= score <= 5.0
    requires count == 0 || 1.0 <= avg <= 5.0
    requires total == avg * count as real + score && n == (count + 1) as real
    ensures n <= total <= 5.0 * n
  {
    if count > 0 {
      MulLeReal(1.0, avg, count as real);
      MulLeReal(avg, 5.0, count as real);
    }
  }

  /** A total between n and 5n over n is between 1 and 5. */
  lemma MeanBetween(total: real, n: real)
    requires n > 0.0 && n <= total <= 5.0 * n
    ensures 1.0 <= total / n <= 5.0
  {
    DivLeReal(total, 5.0, n);
    assert (total / n) * n == total;
  }

  /** `Metrics` */
  datatype Counters = Counters(
    generated: nat, failures: nat, totalMs: real, avgMs: int, lastGeneratedAt: Option<string>,
    feedbackCount: nat, feedbackAvg: real)

  /** The initial value of `metrics`. */
  const Initial := Counters(0, 0, 0.0, 0, None, 0, 0.0)

  function Pick<T>(fromFile: Option<T>, current: T): T
  {
    if fromFile.Some? then fromFile.value else current
  }

  /** `{ ...metrics, ...JSON.parse(raw) }`: each field the file has wins. */
  function Merge(m: Counters, f: MetricsFile): (r: Counters)
    ensures f.generated.Some? ==> r.generated == f.generated.value
    ensures f.generated.None? ==> r.generated == m.generated
    ensures f.failures.Some? ==> r.failures == f.failures.value
    ensures f.failures.None? ==> r.failures == m.failures
    ensures f.totalMs.Some? ==> r.totalMs == f.totalMs.value
    ensures f.totalMs.None? ==> r.totalMs == m.totalMs
    ensures f.avgMs.Some? ==> r.avgMs == f.avgMs.value
    ensures f.avgMs.None? ==> r.avgMs == m.avgMs
    ensures f.lastGeneratedAt.Some? ==> r.lastGeneratedAt == f.lastGeneratedAt
    ensures f.lastGeneratedAt.None? ==> r.lastGeneratedAt == m.lastGeneratedAt
    ensures f.feedbackCount.Some? ==> r.feedbackCount == f.feedbackCount.value
    ensures f.feedbackCount.None? ==> r.feedbackCount == m.feedbackCount
    ensures f.feedbackAvg.Some? ==> r.feedbackAvg == f.feedbackAvg.value
    ensures f.feedbackAvg.None? ==> r.feedbackAvg == m.feedbackAvg
  {
    Counters(Pick(f.generated, m.generated), Pick(f.failures, m.failures), Pick(f.totalMs, m.totalMs),
             Pick(f.avgMs, m.avgMs), if f.lastGeneratedAt.Some? then f.lastGeneratedAt else m.lastGeneratedAt,
             Pick(f.feedbackCount, m.feedbackCount), Pick(f.feedbackAvg, m.feedbackAvg))
  }

  /** A file with every field replaces everything, and an empty one
      (`{}`) changes nothing. */
  lemma MergeExtremes(m: Counters, f: MetricsFile)
    ensures Merge(m, MetricsFile(None, None, None, None, None, None, None)) == m
    ensures f.generated.Some? && f.failures.Some? && f.totalMs.Some? && f.avgMs.Some? && f.lastGeneratedAt.Some?
            && f.feedbackCount.Some? && f.feedbackAvg.Some? ==>
      Merge(m, f) == Counters(f.generated.value, f.failures.value, f.totalMs.value, f.avgMs.value, f.lastGeneratedAt,
                              f.feedbackCount.value, f.feedbackAvg.value)
  {
  }

  /** The counters once `ensureLoaded` has run: as they were when already
      loaded or when there is no file, merged with the file otherwise. */
  function AfterLoad(loaded: bool, m: Counters, file: Option<MetricsFile>): Counters
  {
    if loaded || file.None? then m else Merge(m, file.value)
  }

  /** Loading is done once: a second load changes nothing. */
  lemma LoadOnce(m: Counters, file1: Option<MetricsFile>, file2: Option<MetricsFile>)
    ensures AfterLoad(true, AfterLoad(false, m, file1), file2) == AfterLoad(false, m, file1)
  {
  }

  /** The feedback average is meaningful: between 1 and 5 once there is
      feedback. */
  predicate FeedbackInRange(m: Counters)
  {
    m.feedbackCount == 0 || 1.0 <= m.feedbackAvg <= 5.0
  }

  /** The module variables `metrics` and `loaded`. */
  class MetricsStore {
    var loaded: bool
    var metrics: Counters

    constructor()
      ensures !loaded && metrics == Initial
    {
      loaded, metrics := false, Initial;
    }

    /** `ensureLoaded`: only the first call reads the file (`None` when it
        is missing or unreadable). */
    method EnsureLoaded(file: Option<MetricsFile>)
      modifies this
      ensures loaded && metrics == AfterLoad(old(loaded), old(metrics), file)
    {
      if loaded {
        return;
      }
      loaded := true;
      if file.Some? {
        metrics := Merge(metrics, file.value);
      }
    }

    /** `getMetrics` */
    method GetMetrics(file: Option<MetricsFile>) returns (m: Counters)
      modifies this
      ensures loaded && m == metrics == AfterLoad(old(loaded), old(metrics), file)
    {
      EnsureLoaded(file);
      m := metrics;
    }

    /** `recordGeneration(durationMs)` at the time written `nowIso`: one
        more generation, its time added, the average recomputed; failures
        and feedback are untouched. */
    method RecordGeneration(durationMs: real, nowIso: string, file: Option<MetricsFile>)
      modifies this
      ensures loaded
      ensures var m := AfterLoad(old(loaded), old(metrics), file);
        var total := m.totalMs + durationMs;
        var n := m.generated + 1;
        metrics == m.(generated := n, totalMs := total, avgMs := Round(total / n as real), lastGeneratedAt := Some(nowIso))
    {
      EnsureLoaded(file);
      metrics := metrics.(generated := metrics.generated + 1);
      metrics := metrics.(totalMs := metrics.totalMs + durationMs);
      metrics := metrics.(avgMs := Round(metrics.totalMs / metrics.generated as real));
      metrics := metrics.(lastGeneratedAt := Some(nowIso));
    }

    /** `recordFailure`: one more failure and nothing else. */
    method RecordFailure(file: Option<MetricsFile>)
      modifies this
      ensures var m := AfterLoad(old(loaded), old(metrics), file);
        loaded && metrics == m.(failures := m.failures + 1)
    {
      EnsureLoaded(file);
      metrics := metrics.(failures := metrics.failures + 1);
    }

    /** `recordFeedback(score)`: one more score, folded into the average,
        which stays between 1 and 5 when every score is. */
    method RecordFeedback(score: real, file: Option<MetricsFile>)
      modifies this
      ensures loaded
      ensures var m := AfterLoad(old(loaded), old(metrics), file);
        metrics == m.(feedbackCount := m.feedbackCount + 1, feedbackAvg := NextAverage(m.feedbackAvg, m.feedbackCount, score))
      ensures FeedbackInRange(AfterLoad(old(loaded), old(metrics), file)) && 1.0 <= score <= 5.0 ==> FeedbackInRange(metrics)
    {
      EnsureLoaded(file);
      var avg, count := metrics.feedbackAvg, metrics.feedbackCount;
      var next := NextAverage(avg, count, score);
      if FeedbackInRange(metrics) && 1.0 <= score <= 5.0 {
        NextAverageBounds(avg, count, score);
      }
      metrics := metrics.(feedbackCount := count + 1, feedbackAvg := next);
    }
  }
}
