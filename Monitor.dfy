/** The monitoring engine: the per-system chart stores, the user-threshold and
    SPC sweeps run after every data-collection cycle, the on-demand charts, and
    the daily low-usage sweep. The notifications it pushes are recorded, in
    order, in a ghost log. */
module Monitor {
  import opened MonitorTypes
  import opened Sums
  import opened ControlChart
  import opened AlertRules
  import opened JavaSplit

  /** How many recent response logs the duration chart of a service looks at. */
  const RecentLogLimit := 100

  /** The usage window, in minutes, of an on-demand usage chart. */
  const OnDemandUsageWindow := 60

  /** The usage window, in minutes, of the daily low-usage sweep. */
  const DailyUsageWindow := 1440

  // ---------------------------------------------------------------------------
  // The metrics snapshot of one system.

  /** The metrics map of a store refresh: one entry per "app:version" key, a later
      service overwriting an earlier one with the same key. */
  function MetricsMap(env: Collaborators, services: seq<Service>): map<string, AppMetrics>
  {
    if services == [] then map[]
    else
      var service := services[|services| - 1];
      MetricsMap(env, services[..|services| - 1])[Join2(service.appName, service.version) :=
        env.logMetrics(service.systemName, service.appName, service.version)]
  }

  /** The keys are exactly the "app:version" keys of the services. */
  lemma {:induction false} MetricsMapKeys(env: Collaborators, services: seq<Service>)
    ensures MetricsMap(env, services).Keys == set s | s in services :: Join2(s.appName, s.version)
  {
    if services != [] {
      var init, last := services[..|services| - 1], services[|services| - 1];
      MetricsMapKeys(env, init);
      assert services == init + [last];
    }
  }

  /** The entry under a key holds the metrics of the last service with that key. */
  lemma {:induction false} MetricsMapLatest(env: Collaborators, services: seq<Service>, i: int)
    requires 0 <= i < |services|
    requires forall j :: i < j < |services| ==>
      Join2(services[j].appName, services[j].version) != Join2(services[i].appName, services[i].version)
    ensures var s := services[i];
      Join2(s.appName, s.version) in MetricsMap(env, services) &&
      MetricsMap(env, services)[Join2(s.appName, s.version)] == env.logMetrics(s.systemName, s.appName, s.version)
  {
    if i < |services| - 1 {
      MetricsMapLatest(env, services[..|services| - 1], i);
    }
  }

  /** Names without the separator and non-empty versions give keys that split
      back into their app name and version. */
  ghost predicate WellFormedNames(services: seq<Service>)
  {
    forall s :: s in services ==> Sep !in s.appName && Sep !in s.version && s.version != ""
  }

  lemma MetricsMapKeysSplit(env: Collaborators, services: seq<Service>)
    requires WellFormedNames(services)
    ensures forall k :: k in MetricsMap(env, services) ==>
      exists s :: s in services && Split(k) == [s.appName, s.version]
  {
    MetricsMapKeys(env, services);
    forall k | k in MetricsMap(env, services)
      ensures exists s :: s in services && Split(k) == [s.appName, s.version]
    {
      var s :| s in services && k == Join2(s.appName, s.version);
      SplitJoin2(s.appName, s.version);
    }
  }

  // ---------------------------------------------------------------------------
  // What the user-threshold sweep pushes.

  /** The duration chart of the service named by "system:app:version", or the
      failure of an identifier with fewer than three parts. */
  ghost function AppDurationChart(env: Collaborators, appId: string, sqrt: real -> real): Result<SpcData>
    requires IsSqrt(sqrt)
  {
    var appInfo := Split(appId);
    if |appInfo| < 3 then Failure(MalformedIdentity(appId))
    else
      Success(DurationChart(env.recentResponseLogs(appInfo[0], appInfo[1], appInfo[2], RecentLogLimit),
                            Join2(appInfo[1], appInfo[2]), sqrt))
  }

  /** A well-formed identifier yields the chart of its own service's logs, labelled
      "app:version". */
  lemma AppDurationChartOfIdentity(env: Collaborators, systemName: string, appName: string, version: string,
                                   sqrt: real -> real)
    requires IsSqrt(sqrt)
    requires Sep !in systemName && Sep !in appName && Sep !in version && version != ""
    ensures var r := AppDurationChart(env, Join2(Join2(systemName, appName), version), sqrt);
      r.Success? &&
      r.value.values == ResolvedValues(env.recentResponseLogs(systemName, appName, version, RecentLogLimit)) &&
      r.value.groupLabel == Join2(appName, version) && r.value.valueLabel == "Duration"
  {
    SplitJoin3(systemName, appName, version);
  }

  /** The notifications one service calls for, in the order they are pushed, and
      whether the sweep got past the service (false when its identifier is
      malformed and its duration chart cannot be built). */
  ghost function ServiceAlerts(env: Collaborators, service: Service, sqrt: real -> real): (seq<Notification>, bool)
    requires IsSqrt(sqrt)
  {
    match service.setting
    case None => ([], true)
    case Some(setting) =>
      var logAlerts :=
        if setting.enableLogFailureAlert || setting.enableLogAverageDurationAlert
        then LogAlerts(setting, service.appName, service.version,
                       env.logMetrics(service.systemName, service.appName, service.version))
        else [];
      var restAlerts :=
        if setting.enableRestFailureAlert || setting.enableRestAverageDurationAlert
        then RestAlerts(setting, service.appName, service.version,
                        env.restMetrics(service.systemName, service.appName, service.version))
        else [];
      if !setting.enableSPCHighDurationRateAlert then (logAlerts + restAlerts, true)
      else match AppDurationChart(env, service.appId, sqrt)
        case Failure(_) => (logAlerts + restAlerts, false)
        case Success(d) => (logAlerts + restAlerts + SpcRateAlerts(setting, service.appName, service.version, d), true)
  }

  /** The sweep over a list of services: each service's notifications in list
      order, up to and including the first service the sweep cannot get past. */
  ghost function UserAlertRun(env: Collaborators, services: seq<Service>, sqrt: real -> real): (seq<Notification>, bool)
    requires IsSqrt(sqrt)
  {
    if services == [] then ([], true)
    else
      var prev := UserAlertRun(env, services[..|services| - 1], sqrt);
      if !prev.1 then prev
      else
        var current := ServiceAlerts(env, services[|services| - 1], sqrt);
        (prev.0 + current.0, current.1)
  }

  /** Once the sweep has stopped, later services change nothing. */
  lemma {:induction false} UserAlertRunStaysStopped(env: Collaborators, services: seq<Service>,
                                                    later: seq<Service>, sqrt: real -> real)
    requires IsSqrt(sqrt) && !UserAlertRun(env, services, sqrt).1
    ensures UserAlertRun(env, services + later, sqrt) == UserAlertRun(env, services, sqrt)
    decreases |later|
  {
    if later != [] {
      var init := later[..|later| - 1];
      var whole := services + later;
      UserAlertRunStaysStopped(env, services, init, sqrt);
      assert whole[..|whole| - 1] == services + init;
      assert !UserAlertRun(env, whole[..|whole| - 1], sqrt).1;
    } else {
      assert services + later == services;
    }
  }

  lemma UserAlertRunStep(env: Collaborators, services: seq<Service>, i: int, sqrt: real -> real)
    requires IsSqrt(sqrt) && 0 <= i < |services| && UserAlertRun(env, services[..i], sqrt).1
    ensures UserAlertRun(env, services[..i + 1], sqrt)
         == (UserAlertRun(env, services[..i], sqrt).0 + ServiceAlerts(env, services[i], sqrt).0,
             ServiceAlerts(env, services[i], sqrt).1)
  {
    assert services[..i + 1][..i] == services[..i];
  }

  /** The sweep over all services is the sweep up to the first one it cannot get past. */
  lemma UserAlertRunStopsAt(env: Collaborators, services: seq<Service>, i: int, sqrt: real -> real)
    requires IsSqrt(sqrt) && 0 <= i <= |services| && !UserAlertRun(env, services[..i], sqrt).1
    ensures UserAlertRun(env, services, sqrt) == UserAlertRun(env, services[..i], sqrt)
  {
    UserAlertRunStaysStopped(env, services[..i], services[i..], sqrt);
    assert services[..i] + services[i..] == services;
  }

  /** Every notification a service calls for is about that service. */
  lemma ServiceAlertsAbout(env: Collaborators, service: Service, sqrt: real -> real)
    requires IsSqrt(sqrt)
    ensures forall n :: n in ServiceAlerts(env, service, sqrt).0 ==>
      n.appName == service.appName && n.version == service.version
  {
    if service.setting.Some? {
      var setting := service.setting.value;
      var logMetrics := env.logMetrics(service.systemName, service.appName, service.version);
      var restMetrics := env.restMetrics(service.systemName, service.appName, service.version);
      LogAlertsProvenance(setting, service.appName, service.version, logMetrics,
                       LogAlerts(setting, service.appName, service.version, logMetrics));
      RestAlertsProvenance(setting, service.appName, service.version, restMetrics,
                        RestAlerts(setting, service.appName, service.version, restMetrics));
    }
  }

  /** Every notification of the sweep is about one of the swept services. */
  lemma {:induction false} UserAlertRunAboutServices(env: Collaborators, services: seq<Service>, sqrt: real -> real)
    requires IsSqrt(sqrt)
    ensures forall n :: n in UserAlertRun(env, services, sqrt).0 ==>
      exists s :: s in services && n.appName == s.appName && n.version == s.version
  {
    if services != [] {
      var init, last := services[..|services| - 1], services[|services| - 1];
      UserAlertRunAboutServices(env, init, sqrt);
      assert forall s :: s in init ==> s in services;
      ServiceAlertsAbout(env, last, sqrt);
    }
  }

  // ---------------------------------------------------------------------------
  // What the SPC failure-status sweep pushes.

  /** The SPC warning for one violating "app:version" key of the failure-status chart. */
  ghost function SpcWarning(d: SpcData, key: string): Notification
    requires key in Violations(d) && |Split(key)| >= 2
  {
    var appInfo := Split(key);
    FailureStatusRateWarning(appInfo[0], appInfo[1], d.values[key], d.limits.value.ucl,
                             DataElasticsearch, ThresholdSpc)
  }

  /** An SPC warning is a failure-status-rate warning tagged as derived from the
      chart and from the log index, about the app and version the key splits into,
      carrying the key's rate, which lies above the upper limit it carries. */
  lemma SpcWarningTagged(d: SpcData, key: string, n: Notification)
    requires key in Violations(d) && |Split(key)| >= 2 && n == SpcWarning(d, key)
    ensures n.FailureStatusRateWarning? && n.source == DataElasticsearch && n.origin == ThresholdSpc
    ensures n.appName == Split(key)[0] && n.version == Split(key)[1]
    ensures d.limits.Some? && n.rate == d.values[key] && n.threshold == d.limits.value.ucl
    ensures n.rate > n.threshold
  {
  }

  /** The keys a sweep may warn about: violating keys that split into app name and version. */
  ghost predicate Warnable(d: SpcData, keys: seq<string>)
  {
    forall k :: k in keys ==> k in Violations(d) && |Split(k)| >= 2
  }

  /** The SPC warnings for the given keys, in order. */
  ghost function SpcWarnings(d: SpcData, keys: seq<string>): seq<Notification>
    requires Warnable(d, keys)
  {
    if keys == [] then []
    else
      assert Warnable(d, keys[..|keys| - 1]) by {
        assert forall k :: k in keys[..|keys| - 1] ==> k in keys;
      }
      SpcWarnings(d, keys[..|keys| - 1]) + [SpcWarning(d, keys[|keys| - 1])]
  }

  lemma SpcWarningsSnoc(d: SpcData, keys: seq<string>, key: string)
    requires Warnable(d, keys) && key in Violations(d) && |Split(key)| >= 2
    ensures Warnable(d, keys + [key])
    ensures SpcWarnings(d, keys + [key]) == SpcWarnings(d, keys) + [SpcWarning(d, key)]
  {
    assert (keys + [key])[..|keys|] == keys;
  }

  /** There is one SPC warning per key. */
  lemma {:induction false} SpcWarningsLength(d: SpcData, keys: seq<string>)
    requires Warnable(d, keys)
    ensures |SpcWarnings(d, keys)| == |keys|
  {
    if keys != [] {
      var init := keys[..|keys| - 1];
      assert Warnable(d, init) by {
        assert forall k :: k in init ==> k in keys;
      }
      SpcWarningsLength(d, init);
    }
  }

  /** The i-th SPC warning is the warning for the i-th key. */
  lemma {:induction false} SpcWarningsAt(d: SpcData, keys: seq<string>, i: int)
    requires Warnable(d, keys) && 0 <= i < |keys|
    ensures |SpcWarnings(d, keys)| == |keys|
    ensures keys[i] in Violations(d) && |Split(keys[i])| >= 2
    ensures SpcWarnings(d, keys)[i] == SpcWarning(d, keys[i])
    decreases |keys|
  {
    var init := keys[..|keys| - 1];
    assert Warnable(d, init) by {
      assert forall k :: k in init ==> k in keys;
    }
    SpcWarningsLength(d, init);
    if i < |keys| - 1 {
      SpcWarningsAt(d, init, i);
      assert init[i] == keys[i];
    }
  }

  /** Every warning of an SPC sweep is a failure-status-rate warning derived from
      the chart, about one of the warned keys, with a rate above the chart's ucl. */
  lemma SpcWarningsAllTagged(d: SpcData, keys: seq<string>)
    requires Warnable(d, keys)
    ensures forall n :: n in SpcWarnings(d, keys) ==>
      && n.FailureStatusRateWarning? && n.source == DataElasticsearch && n.origin == ThresholdSpc
      && d.limits.Some? && n.threshold == d.limits.value.ucl && n.rate > n.threshold
      && exists k :: k in keys && Split(k)[..2] == [n.appName, n.version]
  {
    SpcWarningsLength(d, keys);
    forall n | n in SpcWarnings(d, keys)
      ensures && n.FailureStatusRateWarning? && n.source == DataElasticsearch && n.origin == ThresholdSpc
              && d.limits.Some? && n.threshold == d.limits.value.ucl && n.rate > n.threshold
              && exists k :: k in keys && Split(k)[..2] == [n.appName, n.version]
    {
      var i :| 0 <= i < |SpcWarnings(d, keys)| && SpcWarnings(d, keys)[i] == n;
      SpcWarningsAt(d, keys, i);
      SpcWarningTagged(d, keys[i], n);
      assert Split(keys[i])[..2] == [n.appName, n.version];
    }
  }

  /** What one SPC sweep over a chart did, given the keys it warned about in
      order: each is a violating key that splits into app name and version, none
      twice; the sweep completed exactly when every violating key splits, and then
      it warned about all of them. */
  ghost predicate SpcSweep(d: SpcData, visited: seq<string>, ok: bool)
  {
    && Warnable(d, visited)
    && (forall i, j :: 0 <= i < j < |visited| ==> visited[i] != visited[j])
    && (ok <==> forall k :: k in Violations(d) ==> |Split(k)| >= 2)
    && (ok ==> forall k :: k in Violations(d) ==> k in visited)
  }

  /** The state of a sweep that has still to look at the keys in `remaining`:
      it warned, once each, about the violating keys it has looked at. */
  ghost predicate SweepSoFar(d: SpcData, visited: seq<string>, remaining: set<string>)
  {
    && Warnable(d, visited)
    && (forall k :: k in visited ==> k !in remaining)
    && (forall i, j :: 0 <= i < j < |visited| ==> visited[i] != visited[j])
    && (forall k :: k in Violations(d) && k !in remaining ==> k in visited)
  }

  /** Looking at a key that is not a violation changes nothing. */
  lemma SweepSkip(d: SpcData, visited: seq<string>, remaining: set<string>, key: string)
    requires SweepSoFar(d, visited, remaining) && key !in Violations(d)
    ensures SweepSoFar(d, visited, remaining - {key})
  {
  }

  /** Warning about a violating key that splits records it as visited. */
  lemma SweepWarn(d: SpcData, visited: seq<string>, remaining: set<string>, key: string)
    requires SweepSoFar(d, visited, remaining) && key in remaining
    requires key in Violations(d) && |Split(key)| >= 2
    ensures SweepSoFar(d, visited + [key], remaining - {key})
  {
    SpcWarningsSnoc(d, visited, key);
  }

  /** A sweep that has looked at every key completed. */
  lemma SweepDone(d: SpcData, visited: seq<string>)
    requires SweepSoFar(d, visited, {})
    ensures SpcSweep(d, visited, true)
  {
  }

  /** A sweep that meets a violating key that does not split stops. */
  lemma SweepStopped(d: SpcData, visited: seq<string>, remaining: set<string>, key: string)
    requires SweepSoFar(d, visited, remaining)
    requires key in Violations(d) && |Split(key)| < 2
    ensures SpcSweep(d, visited, false)
  {
  }

  /** On the chart of a fresh store refresh, with well-formed names, the SPC sweep
      completes and warns about exactly the violating keys, each once. */
  lemma SpcSweepCompletes(env: Collaborators, services: seq<Service>, sqrt: real -> real,
                          visited: seq<string>, ok: bool)
    requires IsSqrt(sqrt) && WellFormedNames(services)
    requires SpcSweep(PChart(MetricsMap(env, services), sqrt), visited, ok)
    ensures ok
    ensures forall k :: k in visited <==> k in Violations(PChart(MetricsMap(env, services), sqrt))
  {
    var d := PChart(MetricsMap(env, services), sqrt);
    MetricsMapKeysSplit(env, services);
    forall k | k in Violations(d)
      ensures |Split(k)| >= 2
    {
      assert k in d.values;
    }
  }

  // ---------------------------------------------------------------------------
  // What the low-usage sweep pushes.

  /** The warnings about the low-usage versions of one app, among `seen`. */
  ghost function AppLowUsagePushes(systemName: string, appName: string, d: SpcData, seen: set<string>): set<Push>
  {
    set v | v in seen && v in LowUsageVersions(d) :: Push(systemName, LowUsageVersion(appName, v))
  }

  /** Looking at one more version adds its warning exactly when it is a low-usage version. */
  lemma AppLowUsagePushesStep(systemName: string, appName: string, d: SpcData, seen: set<string>, version: string)
    requires version in d.values && version !in seen
    ensures version in LowUsageVersions(d) <==> d.limits.Some? && d.values[version] < d.limits.value.lcl
    ensures var p := Push(systemName, LowUsageVersion(appName, version));
      && p !in AppLowUsagePushes(systemName, appName, d, seen)
      && multiset(AppLowUsagePushes(systemName, appName, d, seen + {version}))
         == multiset(AppLowUsagePushes(systemName, appName, d, seen))
            + (if version in LowUsageVersions(d) then multiset{p} else multiset{})
  {
    var p := Push(systemName, LowUsageVersion(appName, version));
    if version in LowUsageVersions(d) {
      assert AppLowUsagePushes(systemName, appName, d, seen + {version})
          == AppLowUsagePushes(systemName, appName, d, seen) + {p};
    } else {
      assert AppLowUsagePushes(systemName, appName, d, seen + {version})
          == AppLowUsagePushes(systemName, appName, d, seen);
    }
  }

  /** The usage chart of one app of the services. */
  ghost function AppUsageChart(env: Collaborators, systemName: string, services: seq<Service>,
                               appName: string, window: int, sqrt: real -> real): SpcData
    requires IsSqrt(sqrt)
  {
    UsageChart(env, systemName, appName, VersionsOf(services, appName), window, sqrt)
  }

  /** The low-usage warnings about the apps in `apps`. */
  ghost function LowUsagePushesAmong(env: Collaborators, systemName: string, services: seq<Service>,
                                     window: int, sqrt: real -> real, apps: set<string>): set<Push>
    requires IsSqrt(sqrt)
  {
    set a, v | a in apps && v in LowUsageVersions(AppUsageChart(env, systemName, services, a, window, sqrt))
      :: Push(systemName, LowUsageVersion(a, v))
  }

  /** Every low-usage warning of one system's sweep. */
  ghost function LowUsagePushes(env: Collaborators, systemName: string, services: seq<Service>,
                                window: int, sqrt: real -> real): set<Push>
    requires IsSqrt(sqrt)
  {
    LowUsagePushesAmong(env, systemName, services, window, sqrt, AppNames(services))
  }

  /** A system's sweep warns exactly about the versions of its apps whose usage
      lies below the lower limit of their app's usage chart. */
  lemma LowUsagePushesExactly(env: Collaborators, systemName: string, services: seq<Service>,
                              window: int, sqrt: real -> real, p: Push)
    requires IsSqrt(sqrt)
    ensures p in LowUsagePushes(env, systemName, services, window, sqrt) <==>
      && p.systemName == systemName && p.notification.LowUsageVersion?
      && p.notification.appName in AppNames(services)
      && p.notification.version in VersionsOf(services, p.notification.appName)
      && var d := AppUsageChart(env, systemName, services, p.notification.appName, window, sqrt);
         d.limits.Some?
         && (env.appUsage(systemName, p.notification.appName, p.notification.version, window) as real)
            < d.limits.value.lcl
  {
    if p.systemName == systemName && p.notification.LowUsageVersion? {
      var a, v := p.notification.appName, p.notification.version;
      var d := AppUsageChart(env, systemName, services, a, window, sqrt);
      if a in AppNames(services) && v in LowUsageVersions(d) {
        assert p == Push(systemName, LowUsageVersion(a, v));
      }
    }
  }

  /** An app with a single version is never warned about: its usage is the mean. */
  lemma SingleVersionNeverLow(env: Collaborators, systemName: string, services: seq<Service>,
                              window: int, sqrt: real -> real, appName: string, version: string)
    requires IsSqrt(sqrt)
    requires VersionsOf(services, appName) == {version}
    ensures Push(systemName, LowUsageVersion(appName, version)) !in LowUsagePushes(env, systemName, services, window, sqrt)
  {
    MostUsedVersionNotLow(env, systemName, appName, {version}, window, sqrt, version);
    LowUsagePushesExactly(env, systemName, services, window, sqrt, Push(systemName, LowUsageVersion(appName, version)));
  }

  lemma LowUsagePushesOneMore(env: Collaborators, systemName: string, services: seq<Service>,
                              window: int, sqrt: real -> real, apps: set<string>, appName: string)
    requires IsSqrt(sqrt) && appName !in apps
    ensures var d := AppUsageChart(env, systemName, services, appName, window, sqrt);
      var here := AppLowUsagePushes(systemName, appName, d, d.values.Keys);
      LowUsagePushesAmong(env, systemName, services, window, sqrt, apps) !! here &&
      LowUsagePushesAmong(env, systemName, services, window, sqrt, apps + {appName})
        == LowUsagePushesAmong(env, systemName, services, window, sqrt, apps) + here
  {
  }

  /** One more app in the low-usage sweep adds that app's warnings. */
  lemma LowUsageStep(env: Collaborators, systemName: string, services: seq<Service>, window: int,
                     sqrt: real -> real, done: set<string>, appName: string, usageSpc: SpcData,
                     previous: multiset<Push>, added: multiset<Push>)
    requires IsSqrt(sqrt) && appName !in done
    requires usageSpc == AppUsageChart(env, systemName, services, appName, window, sqrt)
    requires previous == multiset(LowUsagePushesAmong(env, systemName, services, window, sqrt, done))
    requires added == multiset(AppLowUsagePushes(systemName, appName, usageSpc, usageSpc.values.Keys))
    ensures previous + added == multiset(LowUsagePushesAmong(env, systemName, services, window, sqrt, done + {appName}))
  {
    LowUsagePushesOneMore(env, systemName, services, window, sqrt, done, appName);
    MultisetOfDisjointUnion(LowUsagePushesAmong(env, systemName, services, window, sqrt, done),
                            AppLowUsagePushes(systemName, appName, usageSpc, usageSpc.values.Keys));
  }

  lemma MultisetOfDisjointUnion(a: set<Push>, b: set<Push>)
    requires a !! b
    ensures multiset(a + b) == multiset(a) + multiset(b)
  {
    forall p ensures multiset(a + b)[p] == (multiset(a) + multiset(b))[p] {
    }
  }

  /** A log extended at its end: what was there stays, and the pushes since
      `start` are those before the extension plus the new ones. */
  lemma ExtendedLog(previous: seq<Push>, current: seq<Push>, start: int)
    requires 0 <= start <= |previous| <= |current|
    requires current[..|previous|] == previous
    ensures current[..start] == previous[..start]
    ensures multiset(current[start..]) == multiset(previous[start..]) + multiset(current[|previous|..])
  {
    assert current[start..] == previous[start..] + current[|previous|..];
  }

  /** The warnings of the daily sweep over the given systems. */
  ghost function DailyPushes(env: Collaborators, systemNames: seq<string>, sqrt: real -> real): multiset<Push>
    requires IsSqrt(sqrt)
  {
    if systemNames == [] then multiset{}
    else
      var systemName := systemNames[|systemNames| - 1];
      DailyPushes(env, systemNames[..|systemNames| - 1], sqrt)
        + multiset(LowUsagePushes(env, systemName, env.servicesOf(systemName), DailyUsageWindow, sqrt))
  }

  lemma DailyPushesStep(env: Collaborators, systemNames: seq<string>, i: int, sqrt: real -> real)
    requires IsSqrt(sqrt) && 0 <= i < |systemNames|
    ensures DailyPushes(env, systemNames[..i + 1], sqrt)
         == DailyPushes(env, systemNames[..i], sqrt)
            + multiset(LowUsagePushes(env, systemNames[i], env.servicesOf(systemNames[i]), DailyUsageWindow, sqrt))
  {
    assert systemNames[..i + 1][..i] == systemNames[..i];
  }

  /** The daily sweep warns each system only about its own apps. */
  lemma {:induction false} DailyPushesToKnownSystems(env: Collaborators, systemNames: seq<string>, sqrt: real -> real)
    requires IsSqrt(sqrt)
    ensures forall p :: p in DailyPushes(env, systemNames, sqrt) ==>
      p.systemName in systemNames && p.notification.LowUsageVersion? &&
      p.notification.appName in AppNames(env.servicesOf(p.systemName))
  {
    if systemNames != [] {
      var init, last := systemNames[..|systemNames| - 1], systemNames[|systemNames| - 1];
      DailyPushesToKnownSystems(env, init, sqrt);
      forall p | p in multiset(LowUsagePushes(env, last, env.servicesOf(last), DailyUsageWindow, sqrt))
        ensures p.systemName == last && p.notification.LowUsageVersion? &&
                p.notification.appName in AppNames(env.servicesOf(last))
      {
        LowUsagePushesExactly(env, last, env.servicesOf(last), DailyUsageWindow, sqrt, p);
      }
      assert forall n :: n in init ==> n in systemNames;
    }
  }

  // ---------------------------------------------------------------------------
  // The engine.

  class MonitorService {
    /** The latest failure-status-rate chart of each system. */
    var failureStatusRateSPCMap: map<string, SpcData>
    /** The latest average-duration chart of each system. */
    var averageDurationSPCMap: map<string, SpcData>
    /** Every notification pushed so far, in order. */
    ghost var notifications: seq<Push>
    /** The square root the chart formulas use. */
    const sqrt: real -> real

    ghost predicate Valid()
      reads this`failureStatusRateSPCMap, this`averageDurationSPCMap
    {
      && IsSqrt(sqrt)
      && (forall s :: s in failureStatusRateSPCMap ==> WellFormed(failureStatusRateSPCMap[s]))
      && (forall s :: s in averageDurationSPCMap ==> WellFormed(averageDurationSPCMap[s]))
    }

    constructor (sqrt: real -> real)
      requires IsSqrt(sqrt)
      ensures Valid() && this.sqrt == sqrt
      ensures failureStatusRateSPCMap == map[] && averageDurationSPCMap == map[]
      ensures notifications == []
    {
      this.sqrt := sqrt;
      failureStatusRateSPCMap := map[];
      averageDurationSPCMap := map[];
      notifications := [];
    }

    /** The dispatch collaborator: one notification to one system. */
    method PushNotificationToSystem(systemName: string, notification: Notification)
      modifies this`notifications
      ensures notifications == old(notifications) + [Push(systemName, notification)]
    {
      notifications := notifications + [Push(systemName, notification)];
    }

    /** Rebuilds both charts of a system from fresh log-index metrics of its services
        and stores them, replacing that system's previous charts only. */
    method UpdateSPCData(systemName: string, services: seq<Service>, env: Collaborators)
      requires Valid()
      modifies this`failureStatusRateSPCMap, this`averageDurationSPCMap
      ensures Valid()
      ensures failureStatusRateSPCMap == old(failureStatusRateSPCMap)[systemName := PChart(MetricsMap(env, services), sqrt)]
      ensures averageDurationSPCMap == old(averageDurationSPCMap)[systemName := UChart(MetricsMap(env, services), sqrt)]
    {
      var metricsMap: map<string, AppMetrics> := map[];
      for i := 0 to |services|
        invariant metricsMap == MetricsMap(env, services[..i])
      {
        assert services[..i + 1][..i] == services[..i];
        var service := services[i];
        metricsMap := metricsMap[Join2(service.appName, service.version) :=
          env.logMetrics(service.systemName, service.appName, service.version)];
      }
      assert services[..|services|] == services;
      var failureStatusRateSpcData := NowFailureStatusRateSPC(metricsMap, sqrt);
      failureStatusRateSPCMap := failureStatusRateSPCMap[systemName := failureStatusRateSpcData];
      var durationSpcData := NowAverageDurationSPC(metricsMap, sqrt);
      averageDurationSPCMap := averageDurationSPCMap[systemName := durationSpcData];
    }

    /** The stored failure-status-rate chart of a system, if there is one. */
    method GetFailureStatusRateSPC(systemName: string) returns (r: Option<SpcData>)
      requires Valid()
      ensures r.Some? <==> systemName in failureStatusRateSPCMap
      ensures r.Some? ==> r.value == failureStatusRateSPCMap[systemName] && WellFormed(r.value)
    {
      if systemName in failureStatusRateSPCMap {
        r := Some(failureStatusRateSPCMap[systemName]);
      } else {
        r := None;
      }
    }

    /** The stored average-duration chart of a system, if there is one. */
    method GetAverageDurationSPC(systemName: string) returns (r: Option<SpcData>)
      requires Valid()
      ensures r.Some? <==> systemName in averageDurationSPCMap
      ensures r.Some? ==> r.value == averageDurationSPCMap[systemName] && WellFormed(r.value)
    {
      if systemName in averageDurationSPCMap {
        r := Some(averageDurationSPCMap[systemName]);
      } else {
        r := None;
      }
    }

    /** The duration chart of the service named by "system:app:version". */
    method GetAppDurationSPC(appId: string, env: Collaborators) returns (r: Result<SpcData>)
      requires Valid()
      ensures r.Failure? <==> |Split(appId)| < 3
      ensures r.Failure? ==> r.error == MalformedIdentity(appId)
      ensures r == AppDurationChart(env, appId, sqrt)
      ensures r.Success? ==> WellFormed(r.value)
    {
      var appInfo := Split(appId);
      if |appInfo| < 3 {
        return Failure(MalformedIdentity(appId));
      }
      var systemName, appName, version := appInfo[0], appInfo[1], appInfo[2];
      var logs := env.recentResponseLogs(systemName, appName, version, RecentLogLimit);
      var d := DurationSPC(logs, Join2(appName, version), sqrt);
      return Success(d);
    }

    /** Checks one service against its thresholds on log-index metrics. */
    method CheckLogMetrics(systemName: string, service: Service, setting: Setting, env: Collaborators)
      modifies this`notifications
      ensures notifications == old(notifications) + ToSystem(systemName,
        LogAlerts(setting, service.appName, service.version,
                  env.logMetrics(service.systemName, service.appName, service.version)))
    {
      ghost var pushed: seq<Notification> := [];
      var appName, version := service.appName, service.version;
      var metrics := env.logMetrics(service.systemName, appName, version);
      if setting.enableLogFailureAlert {
        var failureStatusRateResult := IsFailureStatusRateExceededThreshold(metrics, setting.failureStatusRate);
        if failureStatusRateResult.0 {
          var n := FailureStatusRateWarning(appName, version, failureStatusRateResult.1, setting.failureStatusRate,
                                            DataElasticsearch, ThresholdUser);
          PushNotificationToSystem(systemName, n);
          ToSystemSnoc(systemName, pushed, n);
          pushed := pushed + [n];
        }
        if setting.failureErrorCount.Some? && metrics.errorCount > setting.failureErrorCount.value {
          var n := FailureError(appName, version, metrics.errorCount, setting.failureErrorCount.value, DataElasticsearch);
          PushNotificationToSystem(systemName, n);
          ToSystemSnoc(systemName, pushed, n);
          pushed := pushed + [n];
        }
      }
      if setting.enableLogAverageDurationAlert {
        if setting.thresholdAverageDuration.Some? && metrics.averageDuration > setting.thresholdAverageDuration.value {
          var n := HighAvgDuration(appName, version, metrics.averageDuration, setting.thresholdAverageDuration.value,
                                   DataElasticsearch);
          PushNotificationToSystem(systemName, n);
          ToSystemSnoc(systemName, pushed, n);
          pushed := pushed + [n];
        }
      }
      assert pushed == LogAlerts(setting, appName, version, metrics);
    }

    /** Checks one service against its thresholds on runtime-endpoint metrics. */
    method CheckRestMetrics(systemName: string, service: Service, setting: Setting, env: Collaborators)
      modifies this`notifications
      ensures notifications == old(notifications) + ToSystem(systemName,
        RestAlerts(setting, service.appName, service.version,
                   env.restMetrics(service.systemName, service.appName, service.version)))
    {
      ghost var pushed: seq<Notification> := [];
      var appName, version := service.appName, service.version;
      var metrics := env.restMetrics(service.systemName, appName, version);
      if setting.enableRestFailureAlert {
        var failureStatusRateResult := IsFailureStatusRateExceededThreshold(metrics, setting.failureStatusRate);
        if failureStatusRateResult.0 {
          var n := FailureStatusRateWarning(appName, version, failureStatusRateResult.1, setting.failureStatusRate,
                                            DataActuator, ThresholdUser);
          PushNotificationToSystem(systemName, n);
          ToSystemSnoc(systemName, pushed, n);
          pushed := pushed + [n];
        }
      }
      if setting.enableRestAverageDurationAlert {
        if setting.thresholdAverageDuration.Some? && metrics.averageDuration > setting.thresholdAverageDuration.value {
          var n := HighAvgDuration(appName, version, metrics.averageDuration, setting.thresholdAverageDuration.value,
                                   DataActuator);
          PushNotificationToSystem(systemName, n);
          ToSystemSnoc(systemName, pushed, n);
          pushed := pushed + [n];
        }
      }
      assert pushed == RestAlerts(setting, appName, version, metrics);
    }

    /** Checks the share of a service's recent response durations above the upper
        limit of its duration chart; false when its identifier is malformed. */
    method CheckSpcHighDurationRate(systemName: string, service: Service, setting: Setting, env: Collaborators)
      returns (ok: bool)
      requires Valid()
      modifies this`notifications
      ensures ok <==> AppDurationChart(env, service.appId, sqrt).Success?
      ensures !ok ==> notifications == old(notifications)
      ensures ok ==> notifications == old(notifications) + ToSystem(systemName,
        SpcRateAlerts(setting, service.appName, service.version, AppDurationChart(env, service.appId, sqrt).value))
    {
      var spc := GetAppDurationSPC(service.appId, env);
      if spc.Failure? {
        // the identifier has fewer than three parts: the sweep stops here
        return false;
      }
      var spcData := spc.value;
      var violationCount := CountViolations(spcData);
      // with no values the rate is 0/0, which exceeds no threshold
      if |spcData.values| > 0 {
        var highDurationRate := violationCount as real / |spcData.values| as real;
        if highDurationRate > setting.thresholdSPCHighDurationRate {
          var n := SpcHighDurationRate(service.appName, service.version, highDurationRate,
                                       setting.thresholdSPCHighDurationRate);
          PushNotificationToSystem(systemName, n);
          ToSystemSnoc(systemName, [], n);
        }
      }
      ok := true;
    }

    /** Checks one service against its thresholds and its duration chart. */
    method CheckServiceAlert(systemName: string, service: Service, env: Collaborators) returns (ok: bool)
      requires Valid()
      modifies this`notifications
      ensures notifications == old(notifications) + ToSystem(systemName, ServiceAlerts(env, service, sqrt).0)
      ensures ok == ServiceAlerts(env, service, sqrt).1
    {
      if service.setting.None? {
        return true;
      }
      var setting := service.setting.value;
      ghost var expected := ServiceAlerts(env, service, sqrt);
      ghost var pushed: seq<Notification> := [];
      if setting.enableLogFailureAlert || setting.enableLogAverageDurationAlert {
        CheckLogMetrics(systemName, service, setting, env);
        pushed := LogAlerts(setting, service.appName, service.version,
                            env.logMetrics(service.systemName, service.appName, service.version));
      }
      assert notifications == old(notifications) + ToSystem(systemName, pushed);
      if setting.enableRestFailureAlert || setting.enableRestAverageDurationAlert {
        ghost var restAlerts := RestAlerts(setting, service.appName, service.version,
                                           env.restMetrics(service.systemName, service.appName, service.version));
        CheckRestMetrics(systemName, service, setting, env);
        LogExtend(old(notifications), systemName, pushed, restAlerts);
        pushed := pushed + restAlerts;
      } else {
        assert pushed + [] == pushed;
      }
      assert notifications == old(notifications) + ToSystem(systemName, pushed);
      if !setting.enableSPCHighDurationRateAlert {
        assert expected == (pushed, true);
        return true;
      }
      ok := CheckSpcHighDurationRate(systemName, service, setting, env);
      if !ok {
        assert expected == (pushed, false);
        return;
      }
      ghost var d := AppDurationChart(env, service.appId, sqrt).value;
      LogExtend(old(notifications), systemName, pushed, SpcRateAlerts(setting, service.appName, service.version, d));
      assert expected == (pushed + SpcRateAlerts(setting, service.appName, service.version, d), true);
    }

    /** Checks every service of a system in list order, stopping at the first one
        whose identifier is malformed. */
    method CheckUserAlert(systemName: string, services: seq<Service>, env: Collaborators) returns (ok: bool)
      requires Valid()
      modifies this`notifications
      ensures notifications == old(notifications) + ToSystem(systemName, UserAlertRun(env, services, sqrt).0)
      ensures ok == UserAlertRun(env, services, sqrt).1
    {
      ghost var pushed: seq<Notification> := [];
      for i := 0 to |services|
        invariant UserAlertRun(env, services[..i], sqrt) == (pushed, true)
        invariant notifications == old(notifications) + ToSystem(systemName, pushed)
      {
        ghost var current := ServiceAlerts(env, services[i], sqrt);
        UserAlertRunStep(env, services, i, sqrt);
        var serviceOk := CheckServiceAlert(systemName, services[i], env);
        LogExtend(old(notifications), systemName, pushed, current.0);
        pushed := pushed + current.0;
        if !serviceOk {
          UserAlertRunStopsAt(env, services, i + 1, sqrt);
          return false;
        }
      }
      assert services[..|services|] == services;
      ok := true;
    }

    /** Looks at one key of a failure-status chart: warns about it when its rate
        lies above the upper limit, and fails when such a key does not split into
        app name and version. */
    method CheckSPCKey(systemName: string, spcData: SpcData, app: string) returns (ok: bool, warned: bool)
      requires app in spcData.values
      modifies this`notifications
      ensures warned ==> ok
      ensures ok <==> app !in Violations(spcData) || |Split(app)| >= 2
      ensures warned <==> app in Violations(spcData) && |Split(app)| >= 2
      ensures warned ==> notifications == old(notifications) + [Push(systemName, SpcWarning(spcData, app))]
      ensures !warned ==> notifications == old(notifications)
    {
      var value := spcData.values[app];
      if spcData.limits.Some? && value > spcData.limits.value.ucl {
        assert app in Violations(spcData);
        var appInfo := Split(app);
        if |appInfo| < 2 {
          // indexing the split key goes out of bounds
          return false, false;
        }
        var n := FailureStatusRateWarning(appInfo[0], appInfo[1], value, spcData.limits.value.ucl,
                                          DataElasticsearch, ThresholdSpc);
        PushNotificationToSystem(systemName, n);
        return true, true;
      }
      assert app !in Violations(spcData);
      return true, false;
    }

    /** Warns about every key of a system's stored failure-status chart whose rate
        lies above the chart's upper limit. */
    method CheckSPCAlert(systemName: string) returns (ok: bool, ghost visited: seq<string>)
      requires Valid()
      modifies this`notifications
      ensures systemName !in failureStatusRateSPCMap ==> ok && visited == [] && notifications == old(notifications)
      ensures systemName in failureStatusRateSPCMap ==>
        var d := failureStatusRateSPCMap[systemName];
        SpcSweep(d, visited, ok) &&
        notifications == old(notifications) + ToSystem(systemName, SpcWarnings(d, visited))
    {
      ok, visited := true, [];
      if systemName !in failureStatusRateSPCMap {
        return;
      }
      var spcData := failureStatusRateSPCMap[systemName];
      var remaining := spcData.values.Keys;
      while remaining != {}
        invariant remaining <= spcData.values.Keys
        invariant SweepSoFar(spcData, visited, remaining)
        invariant notifications == old(notifications) + ToSystem(systemName, SpcWarnings(spcData, visited))
        decreases remaining
      {
        var app :| app in remaining;
        var keyOk, warned := CheckSPCKey(systemName, spcData, app);
        if !keyOk {
          // the sweep stops here
          SweepStopped(spcData, visited, remaining, app);
          return false, visited;
        }
        if warned {
          SpcWarningsSnoc(spcData, visited, app);
          ToSystemSnoc(systemName, SpcWarnings(spcData, visited), SpcWarning(spcData, app));
          SweepWarn(spcData, visited, remaining, app);
          visited := visited + [app];
        } else {
          SweepSkip(spcData, visited, remaining, app);
        }
        remaining := remaining - {app};
      }
      SweepDone(spcData, visited);
    }

    /** The usage chart of every version of the app named by "system:app". */
    method GetVersionUsageSPC(appId: string, env: Collaborators) returns (r: Result<SpcData>)
      requires Valid()
      ensures r.Failure? <==> |Split(appId)| < 2
      ensures r.Failure? ==> r.error == MalformedIdentity(appId)
      ensures r.Success? ==>
        var appInfo := Split(appId);
        var services := env.versionsOf(appInfo[0], appInfo[1]);
        r.value == UsageChart(env, appInfo[0], appInfo[1], set s | s in services :: s.version, OnDemandUsageWindow, sqrt)
    {
      var appInfo := Split(appId);
      if |appInfo| < 2 {
        return Failure(MalformedIdentity(appId));
      }
      var systemName, appName := appInfo[0], appInfo[1];
      var services := env.versionsOf(systemName, appName);
      var versions: set<string> := {};
      for i := 0 to |services|
        invariant versions == set s | s in services[..i] :: s.version
      {
        assert services[..i + 1] == services[..i] + [services[i]];
        versions := versions + {services[i].version};
      }
      assert services[..|services|] == services;
      var d := CreateVersionUsageSPC(env, systemName, appName, versions, OnDemandUsageWindow, sqrt);
      return Success(d);
    }

    /** Pushes the warning of every version of one app whose usage lies below the
        lower limit of the app's usage chart, visiting the versions in any order. */
    method PushLowUsageVersions(systemName: string, appName: string, usageSpc: SpcData)
      modifies this`notifications
      ensures |old(notifications)| <= |notifications|
      ensures notifications[..|old(notifications)|] == old(notifications)
      ensures multiset(notifications[|old(notifications)|..])
           == multiset(AppLowUsagePushes(systemName, appName, usageSpc, usageSpc.values.Keys))
    {
      ghost var start := |notifications|;
      var remaining := usageSpc.values.Keys;
      while remaining != {}
        invariant remaining <= usageSpc.values.Keys
        invariant start <= |notifications| && notifications[..start] == old(notifications)
        invariant multiset(notifications[start..])
               == multiset(AppLowUsagePushes(systemName, appName, usageSpc, usageSpc.values.Keys - remaining))
        decreases remaining
      {
        var version :| version in remaining;
        ghost var seen := usageSpc.values.Keys - remaining;
        ghost var before := notifications;
        AppLowUsagePushesStep(systemName, appName, usageSpc, seen, version);
        if usageSpc.limits.Some? && usageSpc.values[version] < usageSpc.limits.value.lcl {
          PushNotificationToSystem(systemName, LowUsageVersion(appName, version));
          assert notifications[start..] == before[start..] + [Push(systemName, LowUsageVersion(appName, version))];
        }
        assert seen + {version} == usageSpc.values.Keys - (remaining - {version});
        remaining := remaining - {version};
      }
    }

    /** Groups a system's services by app and warns about every low-usage version
        of every app, visiting the apps in any order. */
    method CheckLowUsageVersionAlert(systemName: string, services: seq<Service>, samplingDurationMinutes: int,
                                     env: Collaborators)
      requires Valid()
      modifies this`notifications
      ensures |old(notifications)| <= |notifications|
      ensures notifications[..|old(notifications)|] == old(notifications)
      ensures multiset(notifications[|old(notifications)|..])
           == multiset(LowUsagePushes(env, systemName, services, samplingDurationMinutes, sqrt))
    {
      var appNameAndVerSetMap := GroupVersionsByApp(services);
      ghost var start := |notifications|;
      var remaining := appNameAndVerSetMap.Keys;
      while remaining != {}
        invariant remaining <= appNameAndVerSetMap.Keys
        invariant start <= |notifications| && notifications[..start] == old(notifications)
        invariant multiset(notifications[start..])
               == multiset(LowUsagePushesAmong(env, systemName, services, samplingDurationMinutes, sqrt,
                                               appNameAndVerSetMap.Keys - remaining))
        decreases remaining
      {
        var appName :| appName in remaining;
        ghost var done := appNameAndVerSetMap.Keys - remaining;
        ghost var previous := notifications;
        var usageSpc := CreateVersionUsageSPC(env, systemName, appName, appNameAndVerSetMap[appName],
                                              samplingDurationMinutes, sqrt);
        PushLowUsageVersions(systemName, appName, usageSpc);
        ExtendedLog(previous, notifications, start);
        LowUsageStep(env, systemName, services, samplingDurationMinutes, sqrt, done, appName, usageSpc,
                     multiset(previous[start..]), multiset(notifications[|previous|..]));
        assert done + {appName} == appNameAndVerSetMap.Keys - (remaining - {appName});
        remaining := remaining - {appName};
      }
    }

    /** After a data-collection cycle of a system: refresh its charts, check its
        services' thresholds and, if that sweep completes, its SPC chart. `ok` is
        false when a sweep stops at a malformed identifier. */
    method RunScheduled(systemName: string, env: Collaborators) returns (ok: bool, ghost spcVisited: seq<string>)
      requires Valid()
      modifies this`failureStatusRateSPCMap, this`averageDurationSPCMap, this`notifications
      ensures Valid()
      ensures failureStatusRateSPCMap
           == old(failureStatusRateSPCMap)[systemName := PChart(MetricsMap(env, env.servicesOf(systemName)), sqrt)]
      ensures averageDurationSPCMap
           == old(averageDurationSPCMap)[systemName := UChart(MetricsMap(env, env.servicesOf(systemName)), sqrt)]
      ensures var userRun := UserAlertRun(env, env.servicesOf(systemName), sqrt);
        var d := PChart(MetricsMap(env, env.servicesOf(systemName)), sqrt);
        && (!userRun.1 ==> !ok && notifications == old(notifications) + ToSystem(systemName, userRun.0))
        && (userRun.1 ==>
              && SpcSweep(d, spcVisited, ok)
              && notifications == old(notifications) + ToSystem(systemName, userRun.0)
                                  + ToSystem(systemName, SpcWarnings(d, spcVisited)))
    {
      var services := env.servicesOf(systemName);
      UpdateSPCData(systemName, services, env);
      var userOk := CheckUserAlert(systemName, services, env);
      if !userOk {
        return false, [];
      }
      ok, spcVisited := CheckSPCAlert(systemName);
    }

    /** Once a day: the low-usage sweep over every system, over a one-day window. */
    method EveryDayScheduled(env: Collaborators)
      requires Valid()
      modifies this`notifications
      ensures |old(notifications)| <= |notifications|
      ensures notifications[..|old(notifications)|] == old(notifications)
      ensures multiset(notifications[|old(notifications)|..]) == DailyPushes(env, env.allSystemNames, sqrt)
    {
      var systemNames := env.allSystemNames;
      ghost var start := |notifications|;
      for i := 0 to |systemNames|
        invariant start <= |notifications| && notifications[..start] == old(notifications)
        invariant multiset(notifications[start..]) == DailyPushes(env, systemNames[..i], sqrt)
      {
        var systemName := systemNames[i];
        ghost var previous := notifications;
        var services := env.servicesOf(systemName);
        CheckLowUsageVersionAlert(systemName, services, DailyUsageWindow, env);
        ExtendedLog(previous, notifications, start);
        DailyPushesStep(env, systemNames, i, sqrt);
      }
      assert systemNames[..|systemNames|] == systemNames;
    }
  }
}
