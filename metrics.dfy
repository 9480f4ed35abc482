/**
 * Operational metrics: navigation counters, a window of recent load times,
 * and the last error and recovery instants (apps/desktop/src/metrics.rs).
 * Time is a clock reading in milliseconds passed in by the caller; load
 * durations are whole milliseconds.
 */
module Metrics {
  import opened Wrappers
  import Sorting

  /** At most this many load-time samples are kept. */
  const MaxSamples: nat := 1000
  /** An error less than 300 seconds old makes the collector unhealthy. */
  const RecentErrorWindowMs: nat := 300_000

  /** The figures reported by `get_stats`. */
  datatype MetricsSnapshot = MetricsSnapshot(
    totalNavigations: nat,
    failedNavigations: nat,
    errorRate: real,
    avgLoadTimeMs: real,
    p95LoadTimeMs: nat,
    p99LoadTimeMs: nat,
    lastError: Option<string>,
    mttrSeconds: real)

  /** Average, 95th and 99th percentile of the retained load times. */
  datatype LoadTimeStats = LoadTimeStats(avgMs: real, p95Ms: nat, p99Ms: nat)

  /** The last `n` elements of `s` (all of `s` when it is shorter), oldest dropped first. */
  function KeepLast(s: seq<nat>, n: nat): (r: seq<nat>)
    ensures |r| == if |s| <= n then |s| else n
    ensures |s| <= n ==> r == s
  {
    if |s| > n then s[|s| - n..] else s
  }

  /** What is kept is the newest part of `s`, in order. */
  lemma KeepLastIsSuffix(s: seq<nat>, n: nat)
    ensures forall k :: 0 <= k < |KeepLast(s, n)| ==>
      KeepLast(s, n)[k] == s[|s| - |KeepLast(s, n)| + k]
  {
  }

  function Sum(s: seq<nat>): nat
  {
    if |s| == 0 then 0 else Sum(s[..|s| - 1]) + s[|s| - 1]
  }

  /** `floor(n * percent / 100)`: the rank of a percentile among `n` sorted samples. */
  function PercentileIndex(n: nat, percent: nat): (i: nat)
    requires percent < 100
    ensures i * 100 <= n * percent < (i + 1) * 100
    ensures n > 0 ==> i < n
  {
    n * percent / 100
  }

  /** The sample at the percentile's rank in sorted order; 0 when there is none. */
  function Percentile(samples: seq<nat>, percent: nat): nat
    requires percent < 100
  {
    var sorted := Sorting.Sort(samples);
    var i := PercentileIndex(|sorted|, percent);
    if i < |sorted| then sorted[i] else 0
  }

  /** The arithmetic mean of a non-empty sample set. */
  function Average(samples: seq<nat>): (avg: real)
    requires |samples| > 0
    ensures avg >= 0.0
    ensures avg * |samples| as real == Sum(samples) as real
  {
    DivTimes(Sum(samples) as real, |samples| as real);
    Sum(samples) as real / |samples| as real
  }

  function LoadStats(samples: seq<nat>): LoadTimeStats
  {
    if |samples| == 0 then LoadTimeStats(0.0, 0, 0)
    else LoadTimeStats(Average(samples), Percentile(samples, 95), Percentile(samples, 99))
  }

  /**
   * A percentile of a non-empty sample set is one of the samples, and it is
   * the element at its rank in every ascending arrangement of the samples.
   */
  lemma PercentileIsRankedSample(samples: seq<nat>, percent: nat, arranged: seq<nat>)
    requires |samples| > 0 && percent < 100
    requires Sorting.Sorted(arranged) && multiset(arranged) == multiset(samples)
    ensures PercentileIndex(|samples|, percent) < |arranged|
    ensures Percentile(samples, percent) == arranged[PercentileIndex(|samples|, percent)]
    ensures Percentile(samples, percent) in multiset(samples)
  {
    Sorting.SortedUnique(Sorting.Sort(samples), arranged);
    assert |arranged| == |samples|;
    var i := PercentileIndex(|samples|, percent);
    assert arranged[i] in multiset(arranged);
  }

  /** Empty samples give all-zero statistics; otherwise p95 never exceeds p99. */
  lemma LoadStatsShape(samples: seq<nat>)
    ensures |samples| == 0 ==> LoadStats(samples) == LoadTimeStats(0.0, 0, 0)
    ensures |samples| > 0 ==> LoadStats(samples).p95Ms <= LoadStats(samples).p99Ms
  {
    if |samples| > 0 {
      var sorted := Sorting.Sort(samples);
      var n := |samples|;
      var i, j := PercentileIndex(n, 95), PercentileIndex(n, 99);
      assert i <= j by {
        assert i * 100 <= n * 95 <= n * 99 < (j + 1) * 100;
      }
      assert i < |sorted| && j < |sorted|;
      assert Percentile(samples, 95) == sorted[i];
      assert Percentile(samples, 99) == sorted[j];
      assert i == j || sorted[i] <= sorted[j];
    }
  }

  lemma DivTimes(a: real, b: real)
    requires b > 0.0
    ensures (a / b) * b == a
  {
  }

  /** The samples 0, 1, ..., 99 ms give p95 = 95 and p99 = 99. */
  lemma PercentilesOfRamp(samples: seq<nat>)
    requires |samples| == 100 && forall i :: 0 <= i < 100 ==> samples[i] == i
    ensures LoadStats(samples).p95Ms == 95 && LoadStats(samples).p99Ms == 99
  {
    assert Sorting.Sorted(samples);
    Sorting.SortOfSorted(samples);
    assert PercentileIndex(100, 95) == 95 && PercentileIndex(100, 99) == 99;
    assert Percentile(samples, 95) == samples[95];
    assert Percentile(samples, 99) == samples[99];
  }

  /** Time since `since`, saturating at zero as `Instant::elapsed` does. */
  function Elapsed(since: nat, now: nat): nat
  {
    if now >= since then now - since else 0
  }

  class Metrics {
    var navigationCount: nat
    var navigationErrors: nat
    /** Load times of successful navigations, oldest first. */
    var pageLoadTimes: seq<nat>
    /** When the last error was recorded, and its message. */
    var lastError: Option<(nat, string)>
    /** When the last successful navigation was recorded. */
    var lastRecovery: Option<nat>

    ghost predicate Valid()
      reads this
    {
      |pageLoadTimes| <= MaxSamples
    }

    constructor ()
      ensures Valid()
      ensures navigationCount == 0 && navigationErrors == 0 && pageLoadTimes == []
      ensures lastError == None && lastRecovery == None
    {
      navigationCount := 0;
      navigationErrors := 0;
      pageLoadTimes := [];
      lastError := None;
      lastRecovery := None;
    }

    /**
     * Counts a navigation. A success adds its load time to the window (which
     * keeps only the newest samples) and marks a recovery at `now`; a
     * failure counts an error.
     */
    method RecordNavigation(success: bool, durationMs: nat, now: nat)
      requires Valid()
      modifies this
      ensures Valid()
      ensures navigationCount == old(navigationCount) + 1
      ensures success ==>
        && pageLoadTimes == KeepLast(old(pageLoadTimes) + [durationMs], MaxSamples)
        && lastRecovery == Some(now)
        && navigationErrors == old(navigationErrors)
      ensures !success ==>
        && navigationErrors == old(navigationErrors) + 1
        && pageLoadTimes == old(pageLoadTimes)
        && lastRecovery == old(lastRecovery)
      ensures lastError == old(lastError)
    {
      navigationCount := navigationCount + 1;
      if success {
        var times := pageLoadTimes + [durationMs];
        var len := |times|;
        if len > MaxSamples {
          times := times[len - MaxSamples..];
        }
        pageLoadTimes := times;
        lastRecovery := Some(now);
      } else {
        navigationErrors := navigationErrors + 1;
      }
    }

    /** Records an error message at `now`; it counts as a failure but not as a navigation. */
    method RecordError(message: string, now: nat)
      requires Valid()
      modifies this`lastError, this`navigationErrors
      ensures Valid()
      ensures lastError == Some((now, message))
      ensures navigationErrors == old(navigationErrors) + 1
    {
      lastError := Some((now, message));
      navigationErrors := navigationErrors + 1;
    }

    /** Failed over total navigations; 0 before the first navigation. */
    function ErrorRate(): (rate: real)
      reads this
      ensures rate >= 0.0
      ensures navigationCount == 0 ==> rate == 0.0
      ensures navigationCount > 0 ==> rate * navigationCount as real == navigationErrors as real
    {
      if navigationCount == 0 then 0.0
      else navigationErrors as real / navigationCount as real
    }

    /** Time from the last error to the last recovery, when the recovery came later; else 0. */
    function Mttr(): (ms: nat)
      reads this
      ensures ms > 0 <==>
        lastError.Some? && lastRecovery.Some? && lastRecovery.value > lastError.value.0
      ensures ms > 0 ==> lastError.value.0 + ms == lastRecovery.value
    {
      match (lastError, lastRecovery)
      case (Some((errorTime, _)), Some(recoveryTime)) =>
        if recoveryTime > errorTime then recoveryTime - errorTime else 0
      case _ => 0
    }

    /**
     * Healthy when the error rate is at most 5% (stated here without
     * division: 20 errors per navigation at most) and no error was
     * recorded in the last 300 seconds.
     */
    function IsHealthy(now: nat): (healthy: bool)
      reads this
      ensures healthy <==>
        && (navigationCount == 0 || 20 * navigationErrors <= navigationCount)
        && (lastError.Some? ==> Elapsed(lastError.value.0, now) >= RecentErrorWindowMs)
    {
      RateExceedsIffCross(navigationErrors, navigationCount, ErrorRate());
      if ErrorRate() > 0.05 then false
      else if lastError.Some? && Elapsed(lastError.value.0, now) < RecentErrorWindowMs then false
      else true
    }

    function GetStats(): (s: MetricsSnapshot)
      reads this
      ensures s.totalNavigations == navigationCount && s.failedNavigations == navigationErrors
      ensures s.errorRate == ErrorRate()
      ensures LoadTimeStats(s.avgLoadTimeMs, s.p95LoadTimeMs, s.p99LoadTimeMs) == LoadStats(pageLoadTimes)
      ensures s.lastError == if lastError.Some? then Some(lastError.value.1) else None
      ensures s.mttrSeconds * 1000.0 == Mttr() as real
    {
      var stats := LoadStats(pageLoadTimes);
      MetricsSnapshot(
        navigationCount,
        navigationErrors,
        ErrorRate(),
        stats.avgMs,
        stats.p95Ms,
        stats.p99Ms,
        match lastError case Some((_, message)) => Some(message) case None => None,
        Mttr() as real / 1000.0)
    }
  }

  /** For a positive count, errors/count > 0.05 exactly when 20 * errors > count. */
  lemma RateExceedsIffCross(errors: nat, count: nat, rate: real)
    requires count == 0 ==> rate == 0.0
    requires count > 0 ==> rate * count as real == errors as real
    ensures rate > 0.05 <==> count > 0 && 20 * errors > count
  {
    if count > 0 {
      var c, e := count as real, errors as real;
      assert (20 * errors) as real == 20.0 * e;
      if rate > 0.05 {
        ScaleStrict(rate, 0.05, c);
        assert 20.0 * e > c;
      } else {
        ScaleWeak(rate, 0.05, c);
        assert 20.0 * e <= c;
      }
    }
  }

  lemma ScaleStrict(a: real, b: real, c: real)
    requires a > b && c > 0.0
    ensures a * c > b * c
  {
  }

  lemma ScaleWeak(a: real, b: real, c: real)
    requires a <= b && c > 0.0
    ensures a * c <= b * c
  {
  }

  /** A fresh collector reports zeros and is healthy. */
  method FreshMetrics(now: nat) returns (m: Metrics, s: MetricsSnapshot)
    ensures m.Valid()
    ensures s.totalNavigations == 0 && s.failedNavigations == 0 && s.errorRate == 0.0
    ensures m.IsHealthy(now)
  {
    m := new Metrics();
    s := m.GetStats();
  }

  /**
   * One failure in five navigations is an error rate of exactly 0.2. The
   * rate depends only on the two counts, so the failure is recorded first
   * here, not third as in `test_error_rate_calculation`.
   */
  method OneFailureInFive(d: nat, now: nat) returns (m: Metrics)
    ensures m.Valid() && m.ErrorRate() == 0.2
  {
    m := new Metrics();
    m.RecordNavigation(false, 0, now);
    var i := 0;
    while i < 4
      invariant 0 <= i <= 4
      invariant m.Valid() && m.navigationCount == 1 + i && m.navigationErrors == 1
    {
      m.RecordNavigation(true, d, now);
      i := i + 1;
    }
    assert m.ErrorRate() * 5.0 == 1.0;
  }

  /** A hundred successes are healthy; ten failures after them are not. */
  method FailuresMakeUnhealthy(d: nat, now: nat) returns (m: Metrics, before: bool, after: bool)
    ensures m.Valid() && before && !after
  {
    m := new Metrics();
    var i := 0;
    while i < 100
      invariant 0 <= i <= 100
      invariant m.Valid() && m.navigationCount == i && m.navigationErrors == 0
      invariant m.lastError == None
    {
      m.RecordNavigation(true, d, now);
      i := i + 1;
    }
    before := m.IsHealthy(now);
    i := 0;
    while i < 10
      invariant 0 <= i <= 10
      invariant m.Valid() && m.navigationCount == 100 + i && m.navigationErrors == i
      invariant m.lastError == None
    {
      m.RecordNavigation(false, 0, now);
      i := i + 1;
    }
    after := m.IsHealthy(now);
  }

  /** Recording the load times 0, 1, ..., 99 ms gives p95 = 95 and p99 = 99. */
  method RampPercentiles(now: nat) returns (m: Metrics, s: MetricsSnapshot)
    ensures m.Valid()
    ensures s.p95LoadTimeMs == 95 && s.p99LoadTimeMs == 99
  {
    m := new Metrics();
    var i := 0;
    while i < 100
      invariant 0 <= i <= 100
      invariant m.Valid()
      invariant |m.pageLoadTimes| == i
      invariant forall k :: 0 <= k < i ==> m.pageLoadTimes[k] == k
    {
      m.RecordNavigation(true, i, now);
      i := i + 1;
    }
    PercentilesOfRamp(m.pageLoadTimes);
    s := m.GetStats();
  }

  /** A recorded error is reported and counted as a failure. */
  method ErrorIsReported(message: string, now: nat) returns (m: Metrics, s: MetricsSnapshot)
    ensures m.Valid()
    ensures s.lastError == Some(message) && s.failedNavigations == 1 && s.totalNavigations == 0
  {
    m := new Metrics();
    m.RecordError(message, now);
    s := m.GetStats();
  }
}
