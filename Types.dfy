/** Values the SPC monitoring engine consumes and produces: metrics snapshots,
    per-service settings, control-chart snapshots and the notifications it pushes. */
module MonitorTypes {

  datatype Option<+T> = None | Some(value: T)

  datatype Result<+T> = Success(value: T) | Failure(error: Error)

  /** The only error the core raises itself: an identifier whose ':'-separated
      parts are too few, so that indexing the split array goes out of bounds. */
  datatype Error = MalformedIdentity(id: string)

  /** A failure-status rate is a proportion of requests. */
  type Proportion = r: real | 0.0 <= r <= 1.0

  /** Durations and usage volumes are never negative. */
  type NonNegReal = r: real | 0.0 <= r

  /** Aggregated metrics of one (system, app, version) over a sampling window. */
  datatype AppMetrics = AppMetrics(
    failureStatusRate: Proportion,
    failureStatusSamplesNum: int,
    errorCount: int,
    averageDuration: NonNegReal,
    durationSamplesNum: int)

  /** Per-service alert configuration. Only the error-count and the average-duration
      thresholds may be absent; the enable flags, the failure-status-rate threshold
      and the SPC high-duration-rate threshold are unboxed by the engine without a check. */
  datatype Setting = Setting(
    enableLogFailureAlert: bool,
    enableLogAverageDurationAlert: bool,
    enableRestFailureAlert: bool,
    enableRestAverageDurationAlert: bool,
    enableSPCHighDurationRateAlert: bool,
    failureStatusRate: real,
    failureErrorCount: Option<int>,
    thresholdAverageDuration: Option<real>,
    thresholdSPCHighDurationRate: real)

  /** A registered app instance; `appId` is expected to read "system:app:version". */
  datatype Service = Service(
    systemName: string,
    appName: string,
    version: string,
    appId: string,
    setting: Option<Setting>)

  /** One recent response log: its timestamp already formatted to text, and its
      response duration in milliseconds when one can be resolved. */
  datatype ResponseLog = ResponseLog(time: string, duration: Option<nat>)

  datatype LimitLine = UCL | LCL

  /** Centre line and control limits of a chart. */
  datatype ControlLimits = ControlLimits(cl: real, ucl: real, lcl: real)

  /** A control-chart snapshot. `limits` is None where the engine divides zero by
      zero (no qualifying subject) and its centre line and limits are NaN. */
  datatype SpcData = SpcData(
    limits: Option<ControlLimits>,
    values: map<string, real>,
    valueLabel: string,
    groupLabel: string,
    displayedLimits: seq<LimitLine>)

  /** Where the metrics behind a notification come from. */
  datatype DataSource = DataElasticsearch | DataActuator

  /** Whether the exceeded threshold was configured by a user or derived from a chart. */
  datatype ThresholdOrigin = ThresholdUser | ThresholdSpc

  datatype Notification =
    | FailureStatusRateWarning(appName: string, version: string, rate: real, threshold: real,
                               source: DataSource, origin: ThresholdOrigin)
    | FailureError(appName: string, version: string, errorCount: int, errorThreshold: int,
                   source: DataSource)
    | HighAvgDuration(appName: string, version: string, duration: real, threshold: real,
                      source: DataSource)
    | SpcHighDurationRate(appName: string, version: string, rate: real, threshold: real)
    | LowUsageVersion(appName: string, version: string)

  /** One call of the dispatch collaborator: a notification pushed to a system. */
  datatype Push = Push(systemName: string, notification: Notification)

  /** What the engine's collaborators answer, as seen during one call of the engine. */
  datatype Collaborators = Collaborators(
    // the names of all known systems
    allSystemNames: seq<string>,
    // the services of a system, each with its setting when it has one
    servicesOf: string -> seq<Service>,
    // all versions of one app (system name, app name) in a system
    versionsOf: (string, string) -> seq<Service>,
    // log-index metrics of (system, app, version)
    logMetrics: (string, string, string) -> AppMetrics,
    // runtime-endpoint metrics of (system, app, version)
    restMetrics: (string, string, string) -> AppMetrics,
    // the most recent response logs of (system, app, version), at most `limit` of them, oldest first
    recentResponseLogs: (string, string, string, int) -> seq<ResponseLog>,
    // usage volume of (system, app, version) over a window of minutes
    appUsage: (string, string, string, int) -> NonNegReal)

  /** Notifications all pushed to one system, in order. */
  function ToSystem(systemName: string, ns: seq<Notification>): (r: seq<Push>)
    ensures |r| == |ns|
    ensures forall i :: 0 <= i < |ns| ==> r[i] == Push(systemName, ns[i])
  {
    seq(|ns|, i requires 0 <= i < |ns| => Push(systemName, ns[i]))
  }

  lemma ToSystemAppend(systemName: string, a: seq<Notification>, b: seq<Notification>)
    ensures ToSystem(systemName, a + b) == ToSystem(systemName, a) + ToSystem(systemName, b)
  {
    var l, r := ToSystem(systemName, a + b), ToSystem(systemName, a) + ToSystem(systemName, b);
    assert |l| == |r|;
    forall i | 0 <= i < |l| ensures l[i] == r[i] {
      if i < |a| { assert (a + b)[i] == a[i]; } else { assert (a + b)[i] == b[i - |a|]; }
    }
  }

  lemma ToSystemSnoc(systemName: string, ns: seq<Notification>, n: Notification)
    ensures ToSystem(systemName, ns + [n]) == ToSystem(systemName, ns) + [Push(systemName, n)]
  {
    ToSystemAppend(systemName, ns, [n]);
    assert ToSystem(systemName, [n]) == [Push(systemName, n)];
  }

  /** Pushing `a` and then `b` to one system extends a log as pushing `a + b` does. */
  lemma LogExtend(log: seq<Push>, systemName: string, a: seq<Notification>, b: seq<Notification>)
    ensures log + ToSystem(systemName, a) + ToSystem(systemName, b) == log + ToSystem(systemName, a + b)
  {
    ToSystemAppend(systemName, a, b);
    assert log + ToSystem(systemName, a) + ToSystem(systemName, b)
        == log + (ToSystem(systemName, a) + ToSystem(systemName, b));
  }
}
