# SPC monitoring engine — a Dafny model

This project models the monitoring engine of the microservice graph platform
(`MonitorService`). After every data-collection cycle of a system, the engine:

- rebuilds two control charts of the system from log-index metrics and stores them
  per system. The failure-status-rate chart is a P chart. The average-duration chart
  is a U chart.
- checks every service of the system against its user-configured thresholds. These
  are log-index failure rate, error count and average duration, runtime-endpoint
  failure rate and average duration, and the share of recent response durations
  above the upper limit of the service's own duration chart (a C chart).
- warns about every "app:version" whose failure rate lies above the upper control
  limit of the stored P chart.

Once a day it builds, for every app of every system, a usage chart over the app's
versions. It then warns about each version whose usage lies below that chart's lower
control limit.

The model is split into these modules:

- `MonitorTypes` (Types.dfy): the values. Metrics, settings, services, response logs,
  chart snapshots, the five kinds of notification, and the collaborators' answers.
- `Sums` (Sums.dfy): the sum of a map's values, which does not depend on the visiting
  order.
- `JavaSplit` (JavaSplit.dfy): Java's `String.split(":")`, trailing empty fields
  dropped, and the keys the engine builds with it.
- `ControlChart` (ControlChart.dfy): the three standard-deviation formulas, the control
  limits, and the P, U, C and usage charts. Each chart is a specification function,
  and the loop that builds it is a method proved equal to that function.
- `AlertRules` (AlertRules.dfy): which notifications a service's metrics and settings
  call for, the high-duration-rate rule, grouping versions by app, and which versions
  count as low-usage.
- `Monitor` (Monitor.dfy): the engine. The class `MonitorService` holds the two chart
  maps of the source, which its methods reassign. It also holds a ghost log of every
  notification pushed, in order. Each sweep is a loop method whose postcondition
  states the new log in terms of a specification function. The lemmas beside those
  functions state what the sweeps push.

Other modelling choices:

- `Math.sqrt` is a parameter `sqrt`. Everything that uses it requires `IsSqrt(sqrt)`:
  for every x >= 0, sqrt(x) >= 0 and sqrt(x)^2 = x.
- A chart whose centre line would be 0/0 (no qualifying subject, no resolved log, no
  version) has `limits == None`. This stands for the NaN centre line and limits of the
  source. NaN compares false with everything, so such a chart raises no alert, and
  the model's rules give the same outcome.
- Java's `HashMap` iteration order is unspecified. Loops over hash maps pick their next
  key from the set of remaining keys. Their results are stated for any visiting order:
  as multisets of pushes for the low-usage sweep, and as a ghost sequence of the
  visited keys for the SPC sweep.
- The `ArrayIndexOutOfBoundsException` raised by indexing a split identifier becomes
  an `ok: bool` result or `Failure(MalformedIdentity(id))`.
  - In `checkUserAlert` it ends the loop at that service, and no later service is
    checked.
  - In `runScheduled` it also skips `checkSPCAlert`.
  - In `checkSPCAlert` it ends the sweep over the chart's keys.

The written description of the system says that a chart with no qualifying subject
must not be stored and must not overwrite the previous one. The code stores it
(MonitorService.java lines 177-183). The model follows the code:
`UpdateSPCData` always replaces the system's charts, including one with
`limits == None`.

## Model

| member | source | states |
|---|---|---|
| ControlChart.PChartSD | src/main/java/com/soselab/microservicegraphplatform/services/MonitorService.java:145-147 | the P-chart standard deviation is non-negative and its square is cl(1-cl)/n |
| ControlChart.UChartSD | src/main/java/com/soselab/microservicegraphplatform/services/MonitorService.java:149-151 | the U-chart standard deviation is non-negative and its square is cl/n |
| ControlChart.CChartSD | src/main/java/com/soselab/microservicegraphplatform/services/MonitorService.java:153-155 | the C-chart standard deviation is non-negative and its square is cl |
| ControlChart.ControlLimitsOf | src/main/java/com/soselab/microservicegraphplatform/services/MonitorService.java:208-212 | ucl = cl + 3sd; lcl is cl - 3sd clamped at 0, never negative; when lcl is not clamped the limits are symmetric; for cl >= 0, lcl <= cl <= ucl |
| ControlChart.CChartLclZeroIff | src/main/java/com/soselab/microservicegraphplatform/services/MonitorService.java:272-278 | a C chart's lower limit is clamped to 0 exactly when cl <= 9 |
| ControlChart.QualifyingFacts | src/main/java/com/soselab/microservicegraphplatform/services/MonitorService.java:205-206 | with a qualifying subject, the mean is non-negative (at most 1 for failure rates) and the mean sample count n is positive, so the SD formulas apply |
| ControlChart.PChart | src/main/java/com/soselab/microservicegraphplatform/services/MonitorService.java:188-214 | the failure-rate chart holds exactly the keys with a positive failure-status sample count, each with its rate, is well formed, and is labelled "Failure Status Rate" by "Services" with only the UCL line shown |
| ControlChart.PChartLimits | src/main/java/com/soselab/microservicegraphplatform/services/MonitorService.java:205-212 | when defined, cl is the unweighted mean of the charted rates, in [0,1]; n is the mean sample count, positive; the limits are cl ± 3·PChartSD(cl, n), lcl clamped |
| ControlChart.UChart | src/main/java/com/soselab/microservicegraphplatform/services/MonitorService.java:221-247 | the duration chart holds exactly the keys with a positive duration sample count, each with its average duration, is well formed, and is labelled "Average Duration" by "Services" with only the UCL line shown |
| ControlChart.UChartLimits | src/main/java/com/soselab/microservicegraphplatform/services/MonitorService.java:238-245 | when defined, cl is the mean of the charted durations, n the positive mean sample count, and the limits are cl ± 3·UChartSD(cl, n), lcl clamped |
| ControlChart.FoldSubjects | src/main/java/com/soselab/microservicegraphplatform/services/MonitorService.java:193-204 | the loop over the metrics map, in any key order, yields exactly the qualifying values, their sum, their count and the sum of their sample counts |
| ControlChart.NowFailureStatusRateSPC | src/main/java/com/soselab/microservicegraphplatform/services/MonitorService.java:188-214 | the computed chart is the P chart of the metrics map |
| ControlChart.NowAverageDurationSPC | src/main/java/com/soselab/microservicegraphplatform/services/MonitorService.java:221-247 | the computed chart is the U chart of the metrics map |
| ControlChart.ResolvedCountZero | src/main/java/com/soselab/microservicegraphplatform/services/MonitorService.java:263-272 | no log has a resolved duration exactly when the chart has no values, the case where cl is 0/0 |
| ControlChart.ResolvedValuesKeys | src/main/java/com/soselab/microservicegraphplatform/services/MonitorService.java:263-270 | a timestamp is charted exactly when some log with that timestamp has a resolved duration |
| ControlChart.ResolvedValuesLatest | src/main/java/com/soselab/microservicegraphplatform/services/MonitorService.java:269 | a timestamp's charted value is the duration of the last resolved log with that timestamp |
| ControlChart.ResolvedCountAtLeastValues | src/main/java/com/soselab/microservicegraphplatform/services/MonitorService.java:266-269 | the number of resolved logs is at least the number of charted timestamps |
| ControlChart.UnresolvedLogIgnored | src/main/java/com/soselab/microservicegraphplatform/services/MonitorService.java:264-265 | a log without a resolvable duration changes neither the values, nor the total, nor the count |
| ControlChart.DurationChart | src/main/java/com/soselab/microservicegraphplatform/services/MonitorService.java:260-281 | the duration chart of a service is well formed, charts the resolved durations by timestamp, and is labelled "Duration" by the given "app:version" with only the UCL line shown |
| ControlChart.DurationChartLimits | src/main/java/com/soselab/microservicegraphplatform/services/MonitorService.java:272-278 | when defined, cl is the total of resolved durations over their count (not over the charted values), and the limits are cl ± 3·CChartSD(cl), lcl clamped |
| ControlChart.SameTimestampOverwritesButCounts | src/main/java/com/soselab/microservicegraphplatform/services/MonitorService.java:266-272 | two logs with the same timestamp (10 ms, 20 ms) chart one value, 20, but both count towards cl = 15 |
| ControlChart.DurationSPC | src/main/java/com/soselab/microservicegraphplatform/services/MonitorService.java:260-281 | the loop over the logs builds the duration chart |
| ControlChart.UsageChart | src/main/java/com/soselab/microservicegraphplatform/services/MonitorService.java:306-323 | the usage chart has exactly the given versions as keys, each with its usage, is well formed, and is labelled "Usage" by the app name with only the LCL line shown |
| ControlChart.UsageChartLimits | src/main/java/com/soselab/microservicegraphplatform/services/MonitorService.java:315-321 | for a non-empty version set the limits are defined, cl is the mean usage, and the limits are cl ± 3·CChartSD(cl), lcl clamped |
| ControlChart.CreateVersionUsageSPC | src/main/java/com/soselab/microservicegraphplatform/services/MonitorService.java:306-323 | the loop over the versions, in any order, builds the usage chart |
| AlertRules.FailureStatusRateThresholdStrict | src/main/java/com/soselab/microservicegraphplatform/services/MonitorService.java:139-142 | the comparison is strict: a rate equal to the threshold is not exceeded; an exceeded threshold stays exceeded for every lower threshold, and one not exceeded stays so for every higher threshold |
| AlertRules.LogAlertsProvenance | src/main/java/com/soselab/microservicegraphplatform/services/MonitorService.java:67-96 | every log-index alert names the service, is a failure-rate, error-count or average-duration alert tagged with the log source, and a failure-rate alert is tagged user-configured |
| AlertRules.LogAlertsExactly | src/main/java/com/soselab/microservicegraphplatform/services/MonitorService.java:68-96 | each log-index alert is raised exactly when its enable flag is set, its threshold is configured and the metric is strictly above it, and it carries that metric and threshold |
| AlertRules.RestAlertsProvenance | src/main/java/com/soselab/microservicegraphplatform/services/MonitorService.java:97-118 | every runtime-endpoint alert names the service, is a failure-rate or average-duration alert tagged with the endpoint source, never an error-count alert |
| AlertRules.RestAlertsExactly | src/main/java/com/soselab/microservicegraphplatform/services/MonitorService.java:98-118 | each runtime-endpoint alert is raised exactly when its flag is set, its threshold is configured and the metric is strictly above it, and it carries both |
| AlertRules.HighDurationRateBounds | src/main/java/com/soselab/microservicegraphplatform/services/MonitorService.java:122-128 | the share of charted durations above the upper limit lies in [0,1] |
| AlertRules.SpcRateAlerts | src/main/java/com/soselab/microservicegraphplatform/services/MonitorService.java:128-133 | at most one high-duration-rate alert, raised exactly when the share is defined and strictly above the configured threshold, carrying both |
| AlertRules.CountViolations | src/main/java/com/soselab/microservicegraphplatform/services/MonitorService.java:122-127 | the loop counts exactly the charted values strictly above the upper limit |
| AlertRules.GroupVersionsByApp | src/main/java/com/soselab/microservicegraphplatform/services/MonitorService.java:285-292 | the merge loop maps exactly the services' app names, each to the non-empty set of its versions |
| AlertRules.UnusedVersionFlagged | src/main/java/com/soselab/microservicegraphplatform/services/MonitorService.java:296-321 | with usages 54, 54 and 0 the chart has cl 36, ucl 54, lcl 18, and only the unused version is low-usage |
| AlertRules.MostUsedVersionNotLow | src/main/java/com/soselab/microservicegraphplatform/services/MonitorService.java:298-321 | the most used version of an app is never below its chart's lower limit |
| JavaSplit.SplitJoin2 | src/main/java/com/soselab/microservicegraphplatform/services/MonitorService.java:163-175 | a key "app:version" built at line 175 splits back into app and version when neither holds ':' and the version is not empty |
| JavaSplit.SplitJoin3 | src/main/java/com/soselab/microservicegraphplatform/services/MonitorService.java:255-258 | an identifier "system:app:version" splits back into its three parts under the same conditions |
| JavaSplit.SplitEmptyVersion | src/main/java/com/soselab/microservicegraphplatform/services/MonitorService.java:163-164 | a key with an empty version, "app:", splits into fewer than two parts, so reading the version fails |
| Monitor.MetricsMapKeys | src/main/java/com/soselab/microservicegraphplatform/services/MonitorService.java:173-176 | the metrics map of a refresh has exactly the services' "app:version" keys |
| Monitor.MetricsMapLatest | src/main/java/com/soselab/microservicegraphplatform/services/MonitorService.java:175 | a key holds the log-index metrics of the last service with that key |
| Monitor.MetricsMapKeysSplit | src/main/java/com/soselab/microservicegraphplatform/services/MonitorService.java:173-176 | with well-formed names, every key of the metrics map splits into some service's app name and version |
| Monitor.AppDurationChartOfIdentity | src/main/java/com/soselab/microservicegraphplatform/services/MonitorService.java:254-259 | a well-formed identifier yields the chart of that service's own recent logs, labelled "app:version" |
| Monitor.UserAlertRunStaysStopped | src/main/java/com/soselab/microservicegraphplatform/services/MonitorService.java:61-136 | once the user-threshold sweep has stopped at a malformed identifier, later services push nothing |
| Monitor.ServiceAlertsAbout | src/main/java/com/soselab/microservicegraphplatform/services/MonitorService.java:62-134 | every notification a service calls for names that service's app and version |
| Monitor.UserAlertRunAboutServices | src/main/java/com/soselab/microservicegraphplatform/services/MonitorService.java:61-136 | every notification of the sweep is about one of the swept services |
| Monitor.SpcWarningTagged | src/main/java/com/soselab/microservicegraphplatform/services/MonitorService.java:162-166 | an SPC warning is a failure-rate warning tagged SPC-derived and log-source, about the key's app and version, carrying its rate above the chart's ucl |
| Monitor.SpcWarningsLength | src/main/java/com/soselab/microservicegraphplatform/services/MonitorService.java:161-168 | the SPC sweep pushes one warning per warned key |
| Monitor.SpcWarningsAt | src/main/java/com/soselab/microservicegraphplatform/services/MonitorService.java:161-168 | the i-th SPC warning pushed is the warning for the i-th warned key, a violating key that splits |
| Monitor.SpcWarningsAllTagged | src/main/java/com/soselab/microservicegraphplatform/services/MonitorService.java:161-168 | every warning of the SPC sweep is a failure-rate warning tagged SPC-derived and log-source, above the chart's ucl, about the app and version of one of the warned keys |
| Monitor.SpcSweepCompletes | src/main/java/com/soselab/microservicegraphplatform/services/MonitorService.java:157-176 | on the chart of a fresh refresh with well-formed names, the SPC sweep completes and warns about exactly the violating keys |
| Monitor.LowUsagePushesExactly | src/main/java/com/soselab/microservicegraphplatform/services/MonitorService.java:284-304 | a system's low-usage sweep warns exactly about the versions of its apps whose usage lies strictly below their app's lower limit |
| Monitor.SingleVersionNeverLow | src/main/java/com/soselab/microservicegraphplatform/services/MonitorService.java:306-323 | an app with a single version is never warned about |
| Monitor.DailyPushesToKnownSystems | src/main/java/com/soselab/microservicegraphplatform/services/MonitorService.java:45-52 | the daily sweep only warns a system about low-usage versions of that system's own apps |
| Monitor.MonitorService.constructor | src/main/java/com/soselab/microservicegraphplatform/services/MonitorService.java:41-42 | both chart stores start empty and nothing has been pushed |
| Monitor.MonitorService.PushNotificationToSystem | src/main/java/com/soselab/microservicegraphplatform/services/MonitorService.java:78 | a push appends exactly one notification for one system to the log |
| Monitor.MonitorService.UpdateSPCData | src/main/java/com/soselab/microservicegraphplatform/services/MonitorService.java:172-185 | the system's two charts are replaced by the P and U charts of the fresh metrics map; other systems' charts are unchanged |
| Monitor.MonitorService.GetFailureStatusRateSPC | src/main/java/com/soselab/microservicegraphplatform/services/MonitorService.java:216-218 | returns the stored failure-rate chart exactly when the system has one (null otherwise) |
| Monitor.MonitorService.GetAverageDurationSPC | src/main/java/com/soselab/microservicegraphplatform/services/MonitorService.java:249-251 | returns the stored duration chart exactly when the system has one |
| Monitor.MonitorService.GetAppDurationSPC | src/main/java/com/soselab/microservicegraphplatform/services/MonitorService.java:254-281 | fails exactly when the identifier has fewer than three parts; otherwise the well-formed duration chart of the service's last 100 logs |
| Monitor.MonitorService.CheckLogMetrics | src/main/java/com/soselab/microservicegraphplatform/services/MonitorService.java:67-96 | pushes exactly the log-index alerts, in source order |
| Monitor.MonitorService.CheckRestMetrics | src/main/java/com/soselab/microservicegraphplatform/services/MonitorService.java:97-118 | pushes exactly the runtime-endpoint alerts, in source order |
| Monitor.MonitorService.CheckSpcHighDurationRate | src/main/java/com/soselab/microservicegraphplatform/services/MonitorService.java:119-134 | fails, pushing nothing, exactly when the identifier is malformed; otherwise pushes exactly the high-duration-rate alert the rule calls for |
| Monitor.MonitorService.CheckServiceAlert | src/main/java/com/soselab/microservicegraphplatform/services/MonitorService.java:62-135 | a service without a setting pushes nothing; otherwise log-index, endpoint and SPC alerts in that order |
| Monitor.MonitorService.CheckUserAlert | src/main/java/com/soselab/microservicegraphplatform/services/MonitorService.java:61-136 | pushes every service's alerts in list order, up to the first malformed identifier, and reports whether it got through |
| Monitor.MonitorService.CheckSPCKey | src/main/java/com/soselab/microservicegraphplatform/services/MonitorService.java:161-167 | warns about a key exactly when its rate is above the ucl and it splits; fails exactly when it is above the ucl and does not split |
| Monitor.MonitorService.CheckSPCAlert | src/main/java/com/soselab/microservicegraphplatform/services/MonitorService.java:157-170 | without a stored chart pushes nothing; otherwise, in any key order, warns once about each violating key it reaches, and about all of them unless a violating key does not split |
| Monitor.MonitorService.GetVersionUsageSPC | src/main/java/com/soselab/microservicegraphplatform/services/MonitorService.java:325-335 | fails exactly when the identifier has fewer than two parts; otherwise the one-hour usage chart of the distinct versions of that app |
| Monitor.MonitorService.PushLowUsageVersions | src/main/java/com/soselab/microservicegraphplatform/services/MonitorService.java:296-302 | appends, in any order, one warning per version of the app whose usage is below the lower limit |
| Monitor.MonitorService.CheckLowUsageVersionAlert | src/main/java/com/soselab/microservicegraphplatform/services/MonitorService.java:284-304 | appends, in any order, exactly the low-usage warnings of the system's apps |
| Monitor.MonitorService.RunScheduled | src/main/java/com/soselab/microservicegraphplatform/services/MonitorService.java:54-59 | refreshes the system's charts, pushes the user-threshold alerts and, if that sweep got through, the SPC warnings of the fresh chart |
| Monitor.MonitorService.EveryDayScheduled | src/main/java/com/soselab/microservicegraphplatform/services/MonitorService.java:45-52 | appends, in any order, the one-day low-usage warnings of every known system |

## Left out

- `Math.sqrt` is a parameter `sqrt` constrained by `IsSqrt`. It is a library routine,
  and a real square root cannot be built inside the model.
- Float arithmetic is not modelled. Sums, means, the float cast of the
  high-duration rate and the float result of `Math.sqrt` are exact reals, so rounding
  and overflow are not captured.
- The NaN of a 0/0 division is the `None` of `SpcData.limits`, not a float value.
- Metric ranges are subset types: failure rates in [0,1], durations and usage
  non-negative. This keeps the square roots real; the source would produce NaN for a
  negative argument.
- The `webPageController` sends of the refreshed charts, the logger and the cron wiring
  of `everyDayScheduled` are not modelled.
- The repositories and analyzers are a `Collaborators` value of total functions
  passed in. Each answers the same within one call of the engine.
- `dateFormat.format` is not modelled: the timestamp of a response log arrives already
  formatted, as an opaque string key.
- `getResponseDuration` is folded into `ResponseLog.duration`, which is `None` when it
  returns null.
- The notification dispatch service is not modelled. Its effect is the ghost log
  `notifications`.
- Hash-map iteration order is not modelled. Results are stated for any order.
- A null `Setting` field that is unboxed without a check is not modelled; the model's
  `Setting` has these fields always present. This covers the thresholds
  `failureStatusRate` and `thresholdSPCHighDurationRate`, and the `Boolean` enable flags
  `enableLogFailureAlert`, `enableLogAverageDurationAlert`, `enableRestFailureAlert`,
  `enableRestAverageDurationAlert` and `enableSPCHighDurationRateAlert`, unboxed at
  MonitorService.java lines 68, 70, 89, 98, 101, 111 and 120.
