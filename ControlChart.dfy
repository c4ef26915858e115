/** The control-chart calculator: centre line, control limits and the values of
    the P-chart (failure-status rates), the U-chart (average durations) and the
    two C-charts (single response durations, usage per version). */
module ControlChart {
  import opened MonitorTypes
  import opened Sums

  /** The platform's square root, a library routine this model does not see:
      on every non-negative argument it returns the non-negative root. */
  ghost predicate IsSqrt(sqrt: real -> real)
  {
    forall x :: 0.0 <= x ==> 0.0 <= sqrt(x) && sqrt(x) * sqrt(x) == x
  }

  /** Standard deviation of a proportion chart with centre line `cl` and
      `n` samples per subject on average. */
  function PChartSD(cl: real, n: real, sqrt: real -> real): (sd: real)
    requires IsSqrt(sqrt) && 0.0 <= cl <= 1.0 && 0.0 < n
    ensures 0.0 <= sd && sd * sd == cl * (1.0 - cl) / n
  {
    ProductNonNegative(cl, 1.0 - cl);
    sqrt(cl * (1.0 - cl) / n)
  }

  /** The square root of a square is the number squared, when it is positive. */
  lemma SqrtOfSquare(sqrt: real -> real, x: real, square: real)
    requires IsSqrt(sqrt) && 0.0 < x && square == x * x
    ensures sqrt(square) == x
  {
    var r := sqrt(square);
    var p, q := r + x, r - x;
    assert q * p == 0.0;
    assert q * p / p == q;
  }

  lemma ProductNonNegative(a: real, b: real)
    requires 0.0 <= a && 0.0 <= b
    ensures 0.0 <= a * b
  {
  }

  lemma QuotientNonNegative(a: real, b: real)
    requires 0.0 <= a && 0.0 < b
    ensures 0.0 <= a / b
  {
  }

  /** Standard deviation of a rate chart. */
  function UChartSD(cl: real, n: real, sqrt: real -> real): (sd: real)
    requires IsSqrt(sqrt) && 0.0 <= cl && 0.0 < n
    ensures 0.0 <= sd && sd * sd == cl / n
  {
    sqrt(cl / n)
  }

  /** Standard deviation of a count chart: it does not depend on the sample size. */
  function CChartSD(cl: real, sqrt: real -> real): (sd: real)
    requires IsSqrt(sqrt) && 0.0 <= cl
    ensures 0.0 <= sd && sd * sd == cl
  {
    sqrt(cl)
  }

  /** Limits three standard deviations either side of the centre line, the lower
      one clamped at zero. */
  function ControlLimitsOf(cl: real, sd: real): (r: ControlLimits)
    requires 0.0 <= sd
    ensures r.cl == cl && r.ucl - r.cl == 3.0 * sd
    ensures 0.0 <= r.lcl && cl - 3.0 * sd <= r.lcl
    ensures r.lcl == 0.0 || r.lcl == cl - 3.0 * sd
    ensures 0.0 < r.lcl ==> r.cl - r.lcl == r.ucl - r.cl
    ensures 0.0 <= cl ==> r.lcl <= r.cl <= r.ucl
  {
    var lcl := cl - 3.0 * sd;
    ControlLimits(cl, cl + 3.0 * sd, if lcl < 0.0 then 0.0 else lcl)
  }

  /** A chart has limits exactly when it has values, and then they are ordered. */
  ghost predicate WellFormed(d: SpcData)
  {
    && (d.limits.None? <==> |d.values| == 0)
    && (d.limits.Some? ==> 0.0 <= d.limits.value.lcl <= d.limits.value.cl <= d.limits.value.ucl)
  }

  /** For a count chart the lower limit is clamped to zero exactly when the
      centre line is at most 9 (where cl - 3 * sqrt(cl) <= 0). */
  lemma CChartLclZeroIff(cl: real, sqrt: real -> real)
    requires IsSqrt(sqrt) && 0.0 <= cl
    ensures ControlLimitsOf(cl, CChartSD(cl, sqrt)).lcl == 0.0 <==> cl <= 9.0
  {
    var sd := CChartSD(cl, sqrt);
    if cl <= 9.0 {
      assert sd <= 3.0;
      assert cl == sd * sd <= 3.0 * sd;
    } else {
      assert sd > 3.0;
      assert cl == sd * sd > 3.0 * sd;
    }
  }

  // ---------------------------------------------------------------------------
  // P-chart and U-chart: one subject per app and version.

  datatype SubjectMetric = FailureStatus | Duration

  function SamplesOf(m: AppMetrics, metric: SubjectMetric): int
  {
    match metric
    case FailureStatus => m.failureStatusSamplesNum
    case Duration => m.durationSamplesNum
  }

  function ValueOf(m: AppMetrics, metric: SubjectMetric): real
  {
    match metric
    case FailureStatus => m.failureStatusRate
    case Duration => m.averageDuration
  }

  /** The values of the qualifying subjects among `keys`. */
  ghost function ValuesAmong(metricsMap: map<string, AppMetrics>, metric: SubjectMetric, keys: set<string>): map<string, real>
  {
    map k | k in keys && k in metricsMap && SamplesOf(metricsMap[k], metric) > 0 :: ValueOf(metricsMap[k], metric)
  }

  /** The sample counts of the qualifying subjects among `keys`. */
  ghost function SamplesAmong(metricsMap: map<string, AppMetrics>, metric: SubjectMetric, keys: set<string>): map<string, real>
  {
    map k | k in keys && k in metricsMap && SamplesOf(metricsMap[k], metric) > 0 :: SamplesOf(metricsMap[k], metric) as real
  }

  ghost function QualifyingValues(metricsMap: map<string, AppMetrics>, metric: SubjectMetric): map<string, real>
  {
    ValuesAmong(metricsMap, metric, metricsMap.Keys)
  }

  ghost function QualifyingSamples(metricsMap: map<string, AppMetrics>, metric: SubjectMetric): map<string, real>
  {
    SamplesAmong(metricsMap, metric, metricsMap.Keys)
  }

  /** Visiting one more subject adds it to the values exactly when it has samples. */
  lemma AmongOneMore(metricsMap: map<string, AppMetrics>, metric: SubjectMetric, keys: set<string>, app: string)
    requires app in metricsMap && app !in keys
    ensures app !in ValuesAmong(metricsMap, metric, keys) && app !in SamplesAmong(metricsMap, metric, keys)
    ensures ValuesAmong(metricsMap, metric, keys + {app}) ==
      if SamplesOf(metricsMap[app], metric) > 0
      then ValuesAmong(metricsMap, metric, keys)[app := ValueOf(metricsMap[app], metric)]
      else ValuesAmong(metricsMap, metric, keys)
    ensures SamplesAmong(metricsMap, metric, keys + {app}) ==
      if SamplesOf(metricsMap[app], metric) > 0
      then SamplesAmong(metricsMap, metric, keys)[app := SamplesOf(metricsMap[app], metric) as real]
      else SamplesAmong(metricsMap, metric, keys)
  {
  }

  /** The facts the standard deviations need: the centre line lies in the range
      of the metric, and the average number of samples is positive. */
  lemma QualifyingFacts(metricsMap: map<string, AppMetrics>, metric: SubjectMetric)
    requires |QualifyingValues(metricsMap, metric)| > 0
    ensures var values := QualifyingValues(metricsMap, metric);
      && 0.0 <= Sum(values) / (|values| as real)
      && (metric == FailureStatus ==> Sum(values) / (|values| as real) <= 1.0)
      && 0.0 < Sum(QualifyingSamples(metricsMap, metric)) / (|values| as real)
  {
    var values := QualifyingValues(metricsMap, metric);
    var samples := QualifyingSamples(metricsMap, metric);
    SumNonNegative(values);
    if metric == FailureStatus {
      MeanAtMost(values, 1.0);
    }
    assert samples.Keys == values.Keys;
    assert |samples| == |values| by { assert |samples.Keys| == |values.Keys|; }
    SumPositive(samples);
  }

  /** The P-chart of failure-status rates. */
  ghost function PChart(metricsMap: map<string, AppMetrics>, sqrt: real -> real): (d: SpcData)
    requires IsSqrt(sqrt)
    ensures WellFormed(d)
    ensures forall k :: k in d.values <==> k in metricsMap && metricsMap[k].failureStatusSamplesNum > 0
    ensures forall k :: k in d.values ==> d.values[k] == metricsMap[k].failureStatusRate
    ensures d.valueLabel == "Failure Status Rate" && d.groupLabel == "Services" && d.displayedLimits == [UCL]
  {
    var values := QualifyingValues(metricsMap, FailureStatus);
    if |values| == 0 then SpcData(None, values, "Failure Status Rate", "Services", [UCL])
    else
      QualifyingFacts(metricsMap, FailureStatus);
      var cl := Sum(values) / (|values| as real);
      var n := Sum(QualifyingSamples(metricsMap, FailureStatus)) / (|values| as real);
      SpcData(Some(ControlLimitsOf(cl, PChartSD(cl, n, sqrt))), values, "Failure Status Rate", "Services", [UCL])
  }


  /** The U-chart of average durations. */
  ghost function UChart(metricsMap: map<string, AppMetrics>, sqrt: real -> real): (d: SpcData)
    requires IsSqrt(sqrt)
    ensures WellFormed(d)
    ensures forall k :: k in d.values <==> k in metricsMap && metricsMap[k].durationSamplesNum > 0
    ensures forall k :: k in d.values ==> d.values[k] == metricsMap[k].averageDuration
    ensures d.valueLabel == "Average Duration" && d.groupLabel == "Services" && d.displayedLimits == [UCL]
  {
    var values := QualifyingValues(metricsMap, Duration);
    if |values| == 0 then SpcData(None, values, "Average Duration", "Services", [UCL])
    else
      QualifyingFacts(metricsMap, Duration);
      var cl := Sum(values) / (|values| as real);
      var n := Sum(QualifyingSamples(metricsMap, Duration)) / (|values| as real);
      SpcData(Some(ControlLimitsOf(cl, UChartSD(cl, n, sqrt))), values, "Average Duration", "Services", [UCL])
  }


  /** The centre line of the P-chart is the unweighted mean of the charted rates,
      and a proportion; n is the average sample count of the charted subjects, and
      the limits lie three standard deviations sqrt(cl * (1 - cl) / n) either side. */
  lemma PChartLimits(metricsMap: map<string, AppMetrics>, sqrt: real -> real)
    requires IsSqrt(sqrt) && PChart(metricsMap, sqrt).limits.Some?
    ensures var d := PChart(metricsMap, sqrt);
      var l := d.limits.value;
      var groups := |d.values| as real;
      var n := Sum(QualifyingSamples(metricsMap, FailureStatus)) / groups;
      && 0.0 < groups && l.cl == Sum(d.values) / groups
      && 0.0 <= l.cl <= 1.0 && 0.0 < n
      && l == ControlLimitsOf(l.cl, PChartSD(l.cl, n, sqrt))
  {
    var values := QualifyingValues(metricsMap, FailureStatus);
    QualifyingFacts(metricsMap, FailureStatus);
    var cl := Sum(values) / (|values| as real);
    var n := Sum(QualifyingSamples(metricsMap, FailureStatus)) / (|values| as real);
    assert PChart(metricsMap, sqrt).limits.value == ControlLimitsOf(cl, PChartSD(cl, n, sqrt));
  }

  /** The centre line of the U-chart is the unweighted mean of the charted average
      durations; n is the average sample count of the charted subjects, and the
      limits lie three standard deviations sqrt(cl / n) either side. */
  lemma UChartLimits(metricsMap: map<string, AppMetrics>, sqrt: real -> real)
    requires IsSqrt(sqrt) && UChart(metricsMap, sqrt).limits.Some?
    ensures var d := UChart(metricsMap, sqrt);
      var l := d.limits.value;
      var groups := |d.values| as real;
      var n := Sum(QualifyingSamples(metricsMap, Duration)) / groups;
      && 0.0 < groups && l.cl == Sum(d.values) / groups
      && 0.0 <= l.cl && 0.0 < n
      && l == ControlLimitsOf(l.cl, UChartSD(l.cl, n, sqrt))
  {
    QualifyingFacts(metricsMap, Duration);
  }

  /** Visiting one more subject: a qualifying one adds its value and its samples
      to the sums and to the maps. */
  lemma FoldStep(metricsMap: map<string, AppMetrics>, metric: SubjectMetric, keys: set<string>, app: string)
    requires app in metricsMap && app !in keys
    ensures var values, samples := ValuesAmong(metricsMap, metric, keys), SamplesAmong(metricsMap, metric, keys);
      var m := metricsMap[app];
      if SamplesOf(m, metric) > 0 then
        && ValuesAmong(metricsMap, metric, keys + {app}) == values[app := ValueOf(m, metric)]
        && SamplesAmong(metricsMap, metric, keys + {app}) == samples[app := SamplesOf(m, metric) as real]
        && Sum(values[app := ValueOf(m, metric)]) == Sum(values) + ValueOf(m, metric)
        && Sum(samples[app := SamplesOf(m, metric) as real]) == Sum(samples) + SamplesOf(m, metric) as real
        && |values[app := ValueOf(m, metric)]| == |values| + 1
      else
        && ValuesAmong(metricsMap, metric, keys + {app}) == values
        && SamplesAmong(metricsMap, metric, keys + {app}) == samples
  {
    AmongOneMore(metricsMap, metric, keys, app);
    var m := metricsMap[app];
    if SamplesOf(m, metric) > 0 {
      SumInsert(ValuesAmong(metricsMap, metric, keys), app, ValueOf(m, metric));
      SumInsert(SamplesAmong(metricsMap, metric, keys), app, SamplesOf(m, metric) as real);
    }
  }

  /** One pass over the subjects: the sum of the qualifying values, their number,
      the total of their samples, and the map of their values. */
  method FoldSubjects(metricsMap: map<string, AppMetrics>, metric: SubjectMetric)
    returns (valueCount: real, sampleGroupsNum: nat, samplesCount: int, values: map<string, real>)
    ensures values == QualifyingValues(metricsMap, metric)
    ensures valueCount == Sum(values) && sampleGroupsNum == |values|
    ensures samplesCount as real == Sum(QualifyingSamples(metricsMap, metric))
  {
    valueCount, sampleGroupsNum, samplesCount := 0.0, 0, 0;
    values := map[];
    ghost var samples: map<string, real> := map[];
    var remaining := metricsMap.Keys;
    while remaining != {}
      invariant remaining <= metricsMap.Keys
      invariant values == ValuesAmong(metricsMap, metric, metricsMap.Keys - remaining)
      invariant samples == SamplesAmong(metricsMap, metric, metricsMap.Keys - remaining)
      invariant valueCount == Sum(values) && sampleGroupsNum == |values|
      invariant samplesCount as real == Sum(samples)
      decreases remaining
    {
      var app :| app in remaining;
      FoldStep(metricsMap, metric, metricsMap.Keys - remaining, app);
      assert metricsMap.Keys - (remaining - {app}) == (metricsMap.Keys - remaining) + {app};
      var metrics := metricsMap[app];
      var samplesNum := SamplesOf(metrics, metric);
      if samplesNum > 0 {
        var value := ValueOf(metrics, metric);
        valueCount := valueCount + value;
        sampleGroupsNum := sampleGroupsNum + 1;
        samplesCount := samplesCount + samplesNum;
        values := values[app := value];
        samples := samples[app := samplesNum as real];
      }
      remaining := remaining - {app};
    }
    assert metricsMap.Keys - remaining == metricsMap.Keys;
  }

  /** Builds the P-chart of failure-status rates of the given subjects. */
  method NowFailureStatusRateSPC(metricsMap: map<string, AppMetrics>, sqrt: real -> real)
    returns (d: SpcData)
    requires IsSqrt(sqrt)
    ensures d == PChart(metricsMap, sqrt)
  {
    var valueCount, sampleGroupsNum, samplesCount, values := FoldSubjects(metricsMap, FailureStatus);
    var limits: Option<ControlLimits> := None;
    if sampleGroupsNum > 0 {
      QualifyingFacts(metricsMap, FailureStatus);
      var cl := valueCount / sampleGroupsNum as real;
      var n := samplesCount as real / sampleGroupsNum as real;
      var sd := PChartSD(cl, n, sqrt);
      limits := Some(ControlLimitsOf(cl, sd));
    }
    d := SpcData(limits, values, "Failure Status Rate", "Services", [UCL]);
  }

  /** Builds the U-chart of average durations of the given subjects. */
  method NowAverageDurationSPC(metricsMap: map<string, AppMetrics>, sqrt: real -> real)
    returns (d: SpcData)
    requires IsSqrt(sqrt)
    ensures d == UChart(metricsMap, sqrt)
  {
    var valueCount, sampleGroupsNum, samplesCount, values := FoldSubjects(metricsMap, Duration);
    var limits: Option<ControlLimits> := None;
    if sampleGroupsNum > 0 {
      QualifyingFacts(metricsMap, Duration);
      var cl := valueCount / sampleGroupsNum as real;
      var n := samplesCount as real / sampleGroupsNum as real;
      var sd := UChartSD(cl, n, sqrt);
      limits := Some(ControlLimitsOf(cl, sd));
    }
    d := SpcData(limits, values, "Average Duration", "Services", [UCL]);
  }

  // ---------------------------------------------------------------------------
  // C-chart of single response durations, keyed by formatted timestamp.

  /** The values map of the duration chart: every log with a resolvable duration
      puts it under its timestamp, so a later log overwrites an earlier one with
      the same timestamp. */
  function ResolvedValues(logs: seq<ResponseLog>): map<string, real>
  {
    if logs == [] then map[]
    else
      var prev := ResolvedValues(logs[..|logs| - 1]);
      var last := logs[|logs| - 1];
      if last.duration.Some? then prev[last.time := last.duration.value as real] else prev
  }

  /** The sum of all resolvable durations, overwritten ones included. */
  function ResolvedTotal(logs: seq<ResponseLog>): (total: real)
    ensures 0.0 <= total
  {
    if logs == [] then 0.0
    else
      var last := logs[|logs| - 1];
      ResolvedTotal(logs[..|logs| - 1]) + (if last.duration.Some? then last.duration.value as real else 0.0)
  }

  /** The number of logs with a resolvable duration, overwritten ones included. */
  function ResolvedCount(logs: seq<ResponseLog>): nat
  {
    if logs == [] then 0
    else ResolvedCount(logs[..|logs| - 1]) + (if logs[|logs| - 1].duration.Some? then 1 else 0)
  }

  /** No duration was counted exactly when the values map is empty. */
  lemma {:induction false} ResolvedCountZero(logs: seq<ResponseLog>)
    ensures ResolvedCount(logs) == 0 <==> |ResolvedValues(logs)| == 0
  {
    if logs != [] {
      ResolvedCountZero(logs[..|logs| - 1]);
    }
  }

  /** A timestamp is a key exactly when some log with a resolvable duration has it. */
  lemma {:induction false} ResolvedValuesKeys(logs: seq<ResponseLog>, time: string)
    ensures time in ResolvedValues(logs) <==>
      exists i :: 0 <= i < |logs| && logs[i].time == time && logs[i].duration.Some?
  {
    if logs != [] {
      var init := logs[..|logs| - 1];
      ResolvedValuesKeys(init, time);
      if exists i :: 0 <= i < |init| && init[i].time == time && init[i].duration.Some? {
        var i :| 0 <= i < |init| && init[i].time == time && init[i].duration.Some?;
        assert logs[i] == init[i];
      }
      if exists i :: 0 <= i < |logs| && logs[i].time == time && logs[i].duration.Some? {
        var i :| 0 <= i < |logs| && logs[i].time == time && logs[i].duration.Some?;
        if i < |init| {
          assert init[i] == logs[i];
        }
      }
    }
  }

  /** Under a timestamp the chart shows the duration of the latest resolvable log
      with that timestamp: later logs overwrite earlier ones. */
  lemma {:induction false} ResolvedValuesLatest(logs: seq<ResponseLog>, i: int)
    requires 0 <= i < |logs| && logs[i].duration.Some?
    requires forall j :: i < j < |logs| && logs[j].time == logs[i].time ==> logs[j].duration.None?
    ensures logs[i].time in ResolvedValues(logs)
    ensures ResolvedValues(logs)[logs[i].time] == logs[i].duration.value as real
  {
    if i < |logs| - 1 {
      ResolvedValuesLatest(logs[..|logs| - 1], i);
    }
  }

  /** Every log with a resolvable duration is counted, overwritten or not, so the
      count is never below the number of values shown. */
  lemma {:induction false} ResolvedCountAtLeastValues(logs: seq<ResponseLog>)
    ensures |ResolvedValues(logs)| <= ResolvedCount(logs)
  {
    if logs != [] {
      var init := logs[..|logs| - 1];
      ResolvedCountAtLeastValues(init);
      var last := logs[|logs| - 1];
      if last.duration.Some? {
        var prev := ResolvedValues(init);
        assert prev[last.time := last.duration.value as real].Keys == prev.Keys + {last.time};
      }
    }
  }

  /** A log without a resolvable duration, wherever it stands, changes neither the
      values nor the total nor the count. */
  lemma {:induction false} UnresolvedLogIgnored(before: seq<ResponseLog>, log: ResponseLog, after: seq<ResponseLog>)
    requires log.duration.None?
    ensures ResolvedValues(before + [log] + after) == ResolvedValues(before + after)
    ensures ResolvedTotal(before + [log] + after) == ResolvedTotal(before + after)
    ensures ResolvedCount(before + [log] + after) == ResolvedCount(before + after)
  {
    var with, without := before + [log] + after, before + after;
    if after == [] {
      assert with[..|with| - 1] == before && without == before;
    } else {
      var init := after[..|after| - 1];
      UnresolvedLogIgnored(before, log, init);
      assert with[..|with| - 1] == before + [log] + init;
      assert without[..|without| - 1] == before + init;
      assert with[|with| - 1] == without[|without| - 1];
    }
  }

  /** The duration C-chart of the given logs. */
  function DurationChart(logs: seq<ResponseLog>, groupLabel: string, sqrt: real -> real): (d: SpcData)
    requires IsSqrt(sqrt)
    ensures WellFormed(d)
    ensures d.values == ResolvedValues(logs)
    ensures d.valueLabel == "Duration" && d.groupLabel == groupLabel && d.displayedLimits == [UCL]
  {
    ResolvedCountZero(logs);
    var count := ResolvedCount(logs);
    if count == 0 then SpcData(None, ResolvedValues(logs), "Duration", groupLabel, [UCL])
    else
      var cl := ResolvedTotal(logs) / count as real;
      SpcData(Some(ControlLimitsOf(cl, CChartSD(cl, sqrt))), ResolvedValues(logs), "Duration", groupLabel, [UCL])
  }

  /** The centre line of the duration chart is the total of all resolvable
      durations over their number, overwritten ones included; the limits lie
      three standard deviations sqrt(cl) either side. */
  lemma DurationChartLimits(logs: seq<ResponseLog>, groupLabel: string, sqrt: real -> real)
    requires IsSqrt(sqrt) && DurationChart(logs, groupLabel, sqrt).limits.Some?
    ensures var l := DurationChart(logs, groupLabel, sqrt).limits.value;
      && 0 < ResolvedCount(logs) && l.cl == ResolvedTotal(logs) / ResolvedCount(logs) as real
      && 0.0 <= l.cl && l == ControlLimitsOf(l.cl, CChartSD(l.cl, sqrt))
  {
    ResolvedCountZero(logs);
  }

  /** Two logs with the same formatted timestamp: the chart shows only the later
      duration, but both enter the centre line. */
  lemma SameTimestampOverwritesButCounts(sqrt: real -> real)
    requires IsSqrt(sqrt)
    ensures var logs := [ResponseLog("03:00:00", Some(10)), ResponseLog("03:00:00", Some(20))];
      var d := DurationChart(logs, "app:1.0", sqrt);
      d.values == map["03:00:00" := 20.0] && d.limits.Some? && d.limits.value.cl == 15.0
  {
    var logs := [ResponseLog("03:00:00", Some(10)), ResponseLog("03:00:00", Some(20))];
    var first := logs[..1];
    assert first[..|first| - 1] == [] && first[0].duration.Some?;
    assert ResolvedValues(first) == map["03:00:00" := 10.0];
    assert ResolvedTotal(first) == 10.0 && ResolvedCount(first) == 1;
    assert ResolvedValues(logs) == map["03:00:00" := 20.0];
    assert ResolvedTotal(logs) == 30.0 && ResolvedCount(logs) == 2;
  }

  /** One pass over the logs, oldest first. */
  method DurationSPC(logs: seq<ResponseLog>, groupLabel: string, sqrt: real -> real) returns (d: SpcData)
    requires IsSqrt(sqrt)
    ensures d == DurationChart(logs, groupLabel, sqrt)
  {
    var valueCount := 0.0;
    var samplesNum := 0;
    var values: map<string, real> := map[];
    for i := 0 to |logs|
      invariant values == ResolvedValues(logs[..i])
      invariant valueCount == ResolvedTotal(logs[..i])
      invariant samplesNum == ResolvedCount(logs[..i])
    {
      assert logs[..i + 1][..i] == logs[..i];
      var log := logs[i];
      if log.duration.Some? {
        var duration := log.duration.value;
        valueCount := valueCount + duration as real;
        samplesNum := samplesNum + 1;
        values := values[log.time := duration as real];
      }
    }
    assert logs[..|logs|] == logs;
    ResolvedCountZero(logs);
    var limits: Option<ControlLimits> := None;
    if samplesNum > 0 {
      var cl := valueCount / samplesNum as real;
      limits := Some(ControlLimitsOf(cl, CChartSD(cl, sqrt)));
    }
    d := SpcData(limits, values, "Duration", groupLabel, [UCL]);
  }

  // ---------------------------------------------------------------------------
  // C-chart of usage volume, one subject per version of an app.

  ghost function UsageValues(env: Collaborators, systemName: string, appName: string,
                             versions: set<string>, window: int): map<string, real>
  {
    map v | v in versions :: env.appUsage(systemName, appName, v, window) as real
  }

  lemma UsageValuesOneMore(env: Collaborators, systemName: string, appName: string,
                           versions: set<string>, window: int, version: string)
    requires version !in versions
    ensures version !in UsageValues(env, systemName, appName, versions, window)
    ensures UsageValues(env, systemName, appName, versions + {version}, window)
         == UsageValues(env, systemName, appName, versions, window)[version := env.appUsage(systemName, appName, version, window) as real]
  {
  }

  /** The usage C-chart over the given versions of one app. */
  ghost function UsageChart(env: Collaborators, systemName: string, appName: string,
                            versions: set<string>, window: int, sqrt: real -> real): (d: SpcData)
    requires IsSqrt(sqrt)
    ensures WellFormed(d)
    ensures d.values.Keys == versions
    ensures forall v :: v in d.values ==> d.values[v] == env.appUsage(systemName, appName, v, window) as real
    ensures d.valueLabel == "Usage" && d.groupLabel == appName && d.displayedLimits == [LCL]
  {
    var values := UsageValues(env, systemName, appName, versions, window);
    assert |values| == |versions| by { assert values.Keys == versions; }
    if |versions| == 0 then SpcData(None, values, "Usage", appName, [LCL])
    else
      SumNonNegative(values);
      var cl := Sum(values) / (|versions| as real);
      SpcData(Some(ControlLimitsOf(cl, CChartSD(cl, sqrt))), values, "Usage", appName, [LCL])
  }

  /** The centre line of the usage chart is the mean usage of the versions; the
      limits lie three standard deviations sqrt(cl) either side. */
  lemma UsageChartLimits(env: Collaborators, systemName: string, appName: string,
                         versions: set<string>, window: int, sqrt: real -> real)
    requires IsSqrt(sqrt) && versions != {}
    ensures var d := UsageChart(env, systemName, appName, versions, window, sqrt);
      var l := d.limits.value;
      d.limits.Some? && l.cl == Sum(d.values) / (|versions| as real)
      && 0.0 <= l.cl && l == ControlLimitsOf(l.cl, CChartSD(l.cl, sqrt))
  {
    var values := UsageValues(env, systemName, appName, versions, window);
    assert |values| == |versions| by { assert values.Keys == versions; }
    SumNonNegative(values);
  }

  /** Asks for the usage of every version and builds the usage chart. */
  method CreateVersionUsageSPC(env: Collaborators, systemName: string, appName: string,
                               versions: set<string>, samplingDurationMinutes: int, sqrt: real -> real)
    returns (d: SpcData)
    requires IsSqrt(sqrt)
    ensures d == UsageChart(env, systemName, appName, versions, samplingDurationMinutes, sqrt)
  {
    var valueCount := 0.0;
    var samplesNum := |versions|;
    var values: map<string, real> := map[];
    var remaining := versions;
    while remaining != {}
      invariant remaining <= versions
      invariant values == UsageValues(env, systemName, appName, versions - remaining, samplingDurationMinutes)
      invariant valueCount == Sum(values)
      decreases remaining
    {
      var version :| version in remaining;
      var usageMetrics := env.appUsage(systemName, appName, version, samplingDurationMinutes);
      UsageValuesOneMore(env, systemName, appName, versions - remaining, samplingDurationMinutes, version);
      SumInsert(values, version, usageMetrics as real);
      valueCount := valueCount + usageMetrics as real;
      values := values[version := usageMetrics as real];
      assert versions - (remaining - {version}) == (versions - remaining) + {version};
      remaining := remaining - {version};
    }
    assert versions - remaining == versions;
    var limits: Option<ControlLimits> := None;
    if samplesNum > 0 {
      SumNonNegative(values);
      QuotientNonNegative(valueCount, samplesNum as real);
      var cl := valueCount / samplesNum as real;
      limits := Some(ControlLimitsOf(cl, CChartSD(cl, sqrt)));
    }
    d := SpcData(limits, values, "Usage", appName, [LCL]);
  }
}
