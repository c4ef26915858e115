/** The decisions of the threshold evaluator: which notifications one service's
    metrics and setting call for, the share of response durations above a chart's
    upper limit, and the versions whose usage falls below their app's lower limit. */
module AlertRules {
  import opened MonitorTypes
  import opened ControlChart
  import opened Sums

  /** Whether the observed failure-status rate exceeds the threshold, and the rate. */
  function IsFailureStatusRateExceededThreshold(metrics: AppMetrics, threshold: real): (r: (bool, real))
    ensures r.0 <==> metrics.failureStatusRate > threshold
    ensures r.1 == metrics.failureStatusRate
  {
    var failureStatusRate := metrics.failureStatusRate;
    (failureStatusRate > threshold, failureStatusRate)
  }

  /** The comparison is strict: a rate equal to the threshold is not exceeded.
      Once exceeded, it stays exceeded for every lower threshold, and a rate that
      is within a threshold is within every higher one. */
  lemma FailureStatusRateThresholdStrict(metrics: AppMetrics, threshold: real, other: real)
    ensures !IsFailureStatusRateExceededThreshold(metrics, metrics.failureStatusRate).0
    ensures IsFailureStatusRateExceededThreshold(metrics, threshold).0 && other <= threshold
      ==> IsFailureStatusRateExceededThreshold(metrics, other).0
    ensures !IsFailureStatusRateExceededThreshold(metrics, threshold).0 && threshold <= other
      ==> !IsFailureStatusRateExceededThreshold(metrics, other).0
  {
  }

  /** The notifications of the log-index branch of one service, in the order they
      are pushed: failure-status rate, error count, average duration. */
  function LogAlerts(setting: Setting, appName: string, version: string, metrics: AppMetrics): seq<Notification>
  {
    var failureAlerts :=
      if setting.enableLogFailureAlert then
        (if metrics.failureStatusRate > setting.failureStatusRate
         then [FailureStatusRateWarning(appName, version, metrics.failureStatusRate, setting.failureStatusRate,
                                        DataElasticsearch, ThresholdUser)]
         else [])
        + (if setting.failureErrorCount.Some? && metrics.errorCount > setting.failureErrorCount.value
           then [FailureError(appName, version, metrics.errorCount, setting.failureErrorCount.value, DataElasticsearch)]
           else [])
      else [];
    var durationAlerts :=
      if setting.enableLogAverageDurationAlert
         && setting.thresholdAverageDuration.Some?
         && metrics.averageDuration > setting.thresholdAverageDuration.value
      then [HighAvgDuration(appName, version, metrics.averageDuration, setting.thresholdAverageDuration.value,
                            DataElasticsearch)]
      else [];
    failureAlerts + durationAlerts
  }

  /** Every notification of the log-index branch names the service and the log
      index, and a failure-status-rate warning there is against the user's threshold. */
  lemma LogAlertsProvenance(setting: Setting, appName: string, version: string, metrics: AppMetrics, r: seq<Notification>)
    requires r == LogAlerts(setting, appName, version, metrics)
    ensures forall n :: n in r ==>
      n.appName == appName && n.version == version &&
      (n.FailureStatusRateWarning? || n.FailureError? || n.HighAvgDuration?) && n.source == DataElasticsearch
    ensures forall n :: n in r && n.FailureStatusRateWarning? ==> n.origin == ThresholdUser
  {
  }

  /** The log-index branch warns about a failure-status rate strictly above the
      threshold, an error count strictly above a configured threshold, and an
      average duration strictly above a configured threshold, each only when its
      alert is enabled. */
  lemma LogAlertsExactly(setting: Setting, appName: string, version: string, metrics: AppMetrics, r: seq<Notification>)
    requires r == LogAlerts(setting, appName, version, metrics)
    ensures FailureStatusRateWarning(appName, version, metrics.failureStatusRate, setting.failureStatusRate,
                                     DataElasticsearch, ThresholdUser) in r
        <==> setting.enableLogFailureAlert && metrics.failureStatusRate > setting.failureStatusRate
    ensures (exists n :: n in r && n.FailureStatusRateWarning?)
        <==> setting.enableLogFailureAlert && metrics.failureStatusRate > setting.failureStatusRate
    ensures forall n :: n in r && n.FailureStatusRateWarning? ==>
      n.rate == metrics.failureStatusRate && n.threshold == setting.failureStatusRate
    ensures (exists n :: n in r && n.FailureError?)
        <==> setting.enableLogFailureAlert && setting.failureErrorCount.Some?
             && metrics.errorCount > setting.failureErrorCount.value
    ensures forall n :: n in r && n.FailureError? ==>
      n.errorCount == metrics.errorCount && n.errorThreshold == setting.failureErrorCount.value
    ensures (exists n :: n in r && n.HighAvgDuration?)
        <==> setting.enableLogAverageDurationAlert && setting.thresholdAverageDuration.Some?
             && metrics.averageDuration > setting.thresholdAverageDuration.value
    ensures forall n :: n in r && n.HighAvgDuration? ==>
      n.duration == metrics.averageDuration && n.threshold == setting.thresholdAverageDuration.value
  {
    LogAlertsProvenance(setting, appName, version, metrics, r);
  }

  /** The notifications of the runtime-endpoint branch of one service, in the
      order they are pushed; this branch has no error-count check. */
  function RestAlerts(setting: Setting, appName: string, version: string, metrics: AppMetrics): seq<Notification>
  {
    var failureAlerts :=
      if setting.enableRestFailureAlert && metrics.failureStatusRate > setting.failureStatusRate
      then [FailureStatusRateWarning(appName, version, metrics.failureStatusRate, setting.failureStatusRate,
                                     DataActuator, ThresholdUser)]
      else [];
    var durationAlerts :=
      if setting.enableRestAverageDurationAlert
         && setting.thresholdAverageDuration.Some?
         && metrics.averageDuration > setting.thresholdAverageDuration.value
      then [HighAvgDuration(appName, version, metrics.averageDuration, setting.thresholdAverageDuration.value,
                            DataActuator)]
      else [];
    failureAlerts + durationAlerts
  }

  /** Every notification of the runtime-endpoint branch names the service and the
      runtime endpoint, none is about an error count, and a failure-status-rate
      warning there is against the user's threshold. */
  lemma RestAlertsProvenance(setting: Setting, appName: string, version: string, metrics: AppMetrics, r: seq<Notification>)
    requires r == RestAlerts(setting, appName, version, metrics)
    ensures forall n :: n in r ==>
      n.appName == appName && n.version == version &&
      (n.FailureStatusRateWarning? || n.HighAvgDuration?) && n.source == DataActuator
    ensures forall n :: n in r ==> !n.FailureError?
    ensures forall n :: n in r && n.FailureStatusRateWarning? ==> n.origin == ThresholdUser
  {
  }

  /** The runtime-endpoint branch warns about a failure-status rate and an average
      duration as the log-index branch does. */
  lemma RestAlertsExactly(setting: Setting, appName: string, version: string, metrics: AppMetrics, r: seq<Notification>)
    requires r == RestAlerts(setting, appName, version, metrics)
    ensures FailureStatusRateWarning(appName, version, metrics.failureStatusRate, setting.failureStatusRate,
                                     DataActuator, ThresholdUser) in r
        <==> setting.enableRestFailureAlert && metrics.failureStatusRate > setting.failureStatusRate
    ensures (exists n :: n in r && n.FailureStatusRateWarning?)
        <==> setting.enableRestFailureAlert && metrics.failureStatusRate > setting.failureStatusRate
    ensures forall n :: n in r && n.FailureStatusRateWarning? ==>
      n.rate == metrics.failureStatusRate && n.threshold == setting.failureStatusRate
    ensures (exists n :: n in r && n.HighAvgDuration?)
        <==> setting.enableRestAverageDurationAlert && setting.thresholdAverageDuration.Some?
             && metrics.averageDuration > setting.thresholdAverageDuration.value
    ensures forall n :: n in r && n.HighAvgDuration? ==>
      n.duration == metrics.averageDuration && n.threshold == setting.thresholdAverageDuration.value
  {
    RestAlertsProvenance(setting, appName, version, metrics, r);
  }

  // ---------------------------------------------------------------------------
  // SPC high-duration rate.

  /** The keys whose value lies strictly above the chart's upper limit. With no
      limits (a NaN upper limit) no comparison succeeds. */
  ghost function Violations(d: SpcData): set<string>
  {
    match d.limits
    case None => {}
    case Some(l) => set k | k in d.values && d.values[k] > l.ucl
  }

  /** The share of values above the upper limit; None where the engine divides
      zero by zero (an empty chart), so that no comparison with it succeeds. */
  ghost function HighDurationRate(d: SpcData): Option<real>
  {
    if |d.values| == 0 then None
    else Some(|Violations(d)| as real / |d.values| as real)
  }

  lemma HighDurationRateBounds(d: SpcData)
    requires HighDurationRate(d).Some?
    ensures 0.0 <= HighDurationRate(d).value <= 1.0
  {
    assert Violations(d) <= d.values.Keys;
    SubsetCardinality(Violations(d), d.values.Keys);
    assert |Violations(d)| <= |d.values|;
  }

  lemma {:induction false} SubsetCardinality(a: set<string>, b: set<string>)
    requires a <= b
    ensures |a| <= |b|
    decreases b
  {
    if a != {} {
      var x :| x in a;
      SubsetCardinality(a - {x}, b - {x});
    }
  }

  /** The SPC high-duration-rate notification of one service, given its duration chart. */
  ghost function SpcRateAlerts(setting: Setting, appName: string, version: string, d: SpcData): (r: seq<Notification>)
    ensures |r| <= 1
    ensures |r| == 1 <==>
      HighDurationRate(d).Some? && HighDurationRate(d).value > setting.thresholdSPCHighDurationRate
    ensures forall n :: n in r ==>
      n == SpcHighDurationRate(appName, version, HighDurationRate(d).value, setting.thresholdSPCHighDurationRate)
  {
    match HighDurationRate(d)
    case None => []
    case Some(rate) =>
      if rate > setting.thresholdSPCHighDurationRate
      then [SpcHighDurationRate(appName, version, rate, setting.thresholdSPCHighDurationRate)]
      else []
  }

  /** Counts the values above the chart's upper limit, visiting them in any order. */
  method CountViolations(spcData: SpcData) returns (violationCount: nat)
    ensures violationCount == |Violations(spcData)|
  {
    violationCount := 0;
    var remaining := spcData.values.Keys;
    ghost var counted: set<string> := {};
    while remaining != {}
      invariant remaining <= spcData.values.Keys
      invariant counted == Violations(spcData) - remaining
      invariant violationCount == |counted|
      decreases remaining
    {
      var key :| key in remaining;
      if spcData.limits.Some? && spcData.values[key] > spcData.limits.value.ucl {
        violationCount := violationCount + 1;
        counted := counted + {key};
      }
      remaining := remaining - {key};
    }
  }

  // ---------------------------------------------------------------------------
  // Low-usage versions.

  ghost function AppNames(services: seq<Service>): set<string>
  {
    set s | s in services :: s.appName
  }

  ghost function VersionsOf(services: seq<Service>, appName: string): set<string>
  {
    set s | s in services && s.appName == appName :: s.version
  }

  /** Groups the services by app name into sets of versions. */
  method GroupVersionsByApp(services: seq<Service>) returns (appNameAndVerSetMap: map<string, set<string>>)
    ensures appNameAndVerSetMap.Keys == AppNames(services)
    ensures forall a :: a in appNameAndVerSetMap ==> appNameAndVerSetMap[a] == VersionsOf(services, a)
    ensures forall a :: a in appNameAndVerSetMap ==> appNameAndVerSetMap[a] != {}
  {
    appNameAndVerSetMap := map[];
    for i := 0 to |services|
      invariant appNameAndVerSetMap.Keys == AppNames(services[..i])
      invariant forall a :: a in appNameAndVerSetMap ==> appNameAndVerSetMap[a] == VersionsOf(services[..i], a)
    {
      var service := services[i];
      assert services[..i + 1] == services[..i] + [service];
      if service.appName in appNameAndVerSetMap {
        appNameAndVerSetMap := appNameAndVerSetMap[service.appName := appNameAndVerSetMap[service.appName] + {service.version}];
      } else {
        appNameAndVerSetMap := appNameAndVerSetMap[service.appName := {service.version}];
      }
    }
    assert services[..|services|] == services;
    forall a | a in appNameAndVerSetMap
      ensures appNameAndVerSetMap[a] != {}
    {
      var s :| s in services && s.appName == a;
      assert s.version in VersionsOf(services, a);
    }
  }

  /** The versions whose usage lies strictly below the chart's lower limit. */
  ghost function LowUsageVersions(d: SpcData): set<string>
  {
    match d.limits
    case None => {}
    case Some(l) => set v | v in d.values && d.values[v] < l.lcl
  }

  /** Three versions used 54, 54 and 0 times: the centre line is 36, the standard
      deviation 6 and the lower limit 18, so only the unused version is flagged. */
  lemma UnusedVersionFlagged(env: Collaborators, systemName: string, appName: string, window: int,
                             sqrt: real -> real, v1: string, v2: string, v3: string)
    requires IsSqrt(sqrt) && v1 != v2 && v2 != v3 && v1 != v3
    requires env.appUsage(systemName, appName, v1, window) == 54.0
    requires env.appUsage(systemName, appName, v2, window) == 54.0
    requires env.appUsage(systemName, appName, v3, window) == 0.0
    ensures var d := UsageChart(env, systemName, appName, {v1, v2, v3}, window, sqrt);
      d.limits == Some(ControlLimits(36.0, 54.0, 18.0)) && LowUsageVersions(d) == {v3}
  {
    var d := UsageChart(env, systemName, appName, {v1, v2, v3}, window, sqrt);
    UsageChartLimits(env, systemName, appName, {v1, v2, v3}, window, sqrt);
    ExampleUsageMean(v1, v2, v3, d.values);
    SqrtOfSquare(sqrt, 6.0, 36.0);
    assert d.limits.value == ControlLimitsOf(36.0, 6.0);
  }

  lemma ExampleUsageMean(v1: string, v2: string, v3: string, values: map<string, real>)
    requires v1 != v2 && v2 != v3 && v1 != v3
    requires values.Keys == {v1, v2, v3}
    requires values[v1] == 54.0 && values[v2] == 54.0 && values[v3] == 0.0
    ensures Sum(values) / (|{v1, v2, v3}| as real) == 36.0
  {
    SumOfThree(values, v1, v2, v3);
    assert |{v1, v2, v3}| == 3 by {
      assert {v1, v2, v3} == {v1, v2} + {v3};
    }
  }

  /** The version with the highest usage is never a low-usage version: the lower
      limit never exceeds the centre line, which is the mean usage. */
  lemma MostUsedVersionNotLow(env: Collaborators, systemName: string, appName: string,
                              versions: set<string>, window: int, sqrt: real -> real, top: string)
    requires IsSqrt(sqrt) && top in versions
    requires forall v :: v in versions ==>
      env.appUsage(systemName, appName, v, window) <= env.appUsage(systemName, appName, top, window)
    ensures top !in LowUsageVersions(UsageChart(env, systemName, appName, versions, window, sqrt))
  {
    var d := UsageChart(env, systemName, appName, versions, window, sqrt);
    var values := UsageValues(env, systemName, appName, versions, window);
    assert |values| == |versions| by { assert values.Keys == versions; }
    MeanAtMost(values, env.appUsage(systemName, appName, top, window) as real);
  }
}
