/** What an undisturbed pass reports, for every cluster: the outcome its caller
    is told and the conditions it sets. */
module Outcomes {
  import opened Wrappers
  import opened Json
  import opened Cluster
  import opened OcpVersion
  import opened Install
  import opened OlsConfig
  import opened Reconcile
  import opened Runs
  import opened Solo
  import opened Teardown
  import opened Convergence

  /** The outcome, and the operator's and the instance's own condition. */
  datatype Report = Report(outcome: Outcome, operator: Truth, lightspeed: Truth)

  predicate Reports(p: Pass, r: Report) {
    && p.stage.Idle? && p.result == r.outcome
    && OperatorReady in p.conditions && p.conditions[OperatorReady] == r.operator
    && LightspeedReady in p.conditions && p.conditions[LightspeedReady] == r.lightspeed
  }

  /** The instance's own condition has not been decided yet. */
  predicate Undecided(p: Pass) {
    LightspeedReady in p.conditions && p.conditions[LightspeedReady] == IsUnknown
  }

  lemma RestOn(st: Settings, u: Uid, c: Cluster, p: Pass, c1: Cluster, p1: Pass, ping: string)
    requires !p.stage.Idle? && PassStep(st, u, c, p, Fine(ping)) == (c1, p1)
    ensures Rest(st, u, c, p, ping) == Rest(st, u, c1, p1, ping)
  {
  }

  lemma RestOver(st: Settings, u: Uid, c: Cluster, p: Pass, ping: string)
    requires p.stage.Finish?
    ensures Rest(st, u, c, p, ping).1 == Over(p)
  {
    RestFinish(st, u, c, p, ping);
  }

  lemma OverReports(st: Settings, u: Uid, c: Cluster, p: Pass, r: Report, ping: string)
    requires p.stage == Finish(r.outcome)
    requires OperatorReady in p.conditions && p.conditions[OperatorReady] == r.operator
    requires LightspeedReady in p.conditions && p.conditions[LightspeedReady] == r.lightspeed
    ensures Reports(Rest(st, u, c, p, ping).1, r)
  {
    RestOver(st, u, c, p, ping);
  }

  // ---------------------------------------------------------- the OLSConfig stages

  /** What a pass reports that got as far as the status of the OLSConfig: done
      if it is ready, an error if it cannot be read, and else later. */
  function StatusReport(body: Object): Report {
    if SaysReady(body) then Report(Outcome(false, false), IsTrue, IsTrue)
    else if Malformed(body) then Report(Outcome(false, true), IsTrue, IsUnknown)
    else Report(Outcome(true, false), IsTrue, IsUnknown)
  }

  /** And what it leaves there: a ping if the status has to be waited for. */
  predicate PingedIfWaiting(cfg: OLSConfig, ping: string, config': Option<OLSConfig>) {
    if StatusReport(cfg.body).outcome.requeue then
      && config'.Some? && config' == Some(cfg.(labels := config'.value.labels))
      && config'.value.labels == cfg.labels["openstack-lightspeed/ping" := ping]
    else config' == Some(cfg)
  }

  lemma CheckReports(st: Settings, u: Uid, c: Cluster, p: Pass, cfg: OLSConfig, ping: string)
    requires p.stage.CheckReady? && OperatorTrue(p) && Undecided(p) && c.config == Some(cfg)
    ensures Reports(Rest(st, u, c, p, ping).1, StatusReport(cfg.body))
    ensures PingedIfWaiting(cfg, ping, Rest(st, u, c, p, ping).0.config)
  {
    OverallStatusExactly(cfg.body, "Ready");
    var p1 := AfterCheckReady(p, Ok(Some(cfg)));
    assert PassStep(st, u, c, p, Fine(ping)) == (c, p1);
    RestOn(st, u, c, p, c, p1, ping);
    if p1.stage.ReadPing? {
      PingReports(st, u, c, p1, cfg, ping);
    } else {
      OverReports(st, u, c, p1, StatusReport(cfg.body), ping);
      RestFinish(st, u, c, p1, ping);
    }
  }

  lemma PingReports(st: Settings, u: Uid, c: Cluster, p: Pass, cfg: OLSConfig, ping: string)
    requires p.stage.ReadPing? && OperatorTrue(p) && Undecided(p) && c.config == Some(cfg)
    ensures Reports(Rest(st, u, c, p, ping).1, Report(Outcome(true, false), IsTrue, IsUnknown))
    ensures Rest(st, u, c, p, ping).0.config == Some(PingOLSConfig(cfg, ping))
  {
    var p1 := p.To(WritePing(cfg));
    assert PassStep(st, u, c, p, Fine(ping)) == (c, p1);
    RestOn(st, u, c, p, c, p1, ping);
    var c2, p2 := c.(config := Some(PingOLSConfig(cfg, ping))), p1.To(Finish(LATER));
    assert PassStep(st, u, c, p1, Fine(ping)) == (c2, p2);
    RestOn(st, u, c, p1, c2, p2, ping);
    OverReports(st, u, c2, p2, Report(LATER, IsTrue, IsUnknown), ping);
    RestFinish(st, u, c2, p2, ping);
  }

  /** The OLSConfig is taken by another instance, cannot be patched, or must not
      get the finalizer any more. */
  ghost predicate Refused(st: Settings, u: Uid, config: Option<OLSConfig>, want: Result<OLSConfig>) {
    || (config.Some? && "openstack.org/lightspeed-owner-id" in config.value.labels
        && config.value.labels["openstack.org/lightspeed-owner-id"] !in {"", u})
    || want.Err?
    || (config.Some? && config.value.deleting && st.finalizer !in config.value.finalizers)
  }

  ghost function ConfigReport(st: Settings, u: Uid, config: Option<OLSConfig>, want: Result<OLSConfig>): Report {
    if Refused(st, u, config, want) then Report(Outcome(false, true), IsTrue, IsFalse) else StatusReport(want.value.body)
  }

  /** What becomes of the OLSConfig. */
  ghost predicate ConfigLeft(st: Settings, u: Uid, config: Option<OLSConfig>, want: Result<OLSConfig>, ping: string, config': Option<OLSConfig>) {
    if Refused(st, u, config, want) then config' == config else PingedIfWaiting(want.value, ping, config')
  }

  lemma ConfigReports(st: Settings, u: Uid, c: Cluster, p: Pass, want: Result<OLSConfig>, ping: string)
    requires p.stage.ReadConfig? && OperatorTrue(p) && Undecided(p) && want == Attempt(st, u, p, c.config)
    ensures Reports(Rest(st, u, c, p, ping).1, ConfigReport(st, u, c.config, want))
    ensures ConfigLeft(st, u, c.config, want, ping, Rest(st, u, c, p, ping).0.config)
  {
    var p1 := AfterReadConfig(u, p, Ok(c.config), want);
    assert PassStep(st, u, c, p, Fine(ping)) == (c, p1);
    RestOn(st, u, c, p, c, p1, ping);
    if c.config.Some? && want.Ok? { FinalizerAllowed(st, u, p, c.config, want.value); }
    if p1.stage.Finish? {
      OverReports(st, u, c, p1, ConfigReport(st, u, c.config, want), ping);
      RestFinish(st, u, c, p1, ping);
    } else if p1.stage.CheckReady? {
      CheckReports(st, u, c, p1, want.value, ping);
    } else {
      MergedIsWant(st, u, p, c.config, want.value);
      assert Merged(st, u, p1, c.config, want.value, c.config) == Merged(st, u, p, c.config, want.value, c.config);
      HasFinalizer(st, u, p, c.config, want.value);
      if c.config.Some? { FinalizerAllowed(st, u, p, c.config, want.value); }
      WriteReports(st, u, c, p1, want.value, ping);
    }
  }

  lemma FinalizerAllowed(st: Settings, u: Uid, p: Pass, config: Option<OLSConfig>, want: OLSConfig)
    requires Attempt(st, u, p, config) == Ok(want) && config.Some?
    ensures MayWriteFinalizers(config.value, want) <==> !(config.value.deleting && st.finalizer !in config.value.finalizers)
  {
    PatchFrame(st, u, p.Inst(), config.value);
  }

  lemma HasFinalizer(st: Settings, u: Uid, p: Pass, config: Option<OLSConfig>, want: OLSConfig)
    requires Attempt(st, u, p, config) == Ok(want)
    ensures want.finalizers != []
  {
    PatchFrame(st, u, p.Inst(), if config.Some? then config.value else EMPTY_CONFIG);
  }

  lemma WriteReports(st: Settings, u: Uid, c: Cluster, p: Pass, want: OLSConfig, ping: string)
    requires p.stage == WriteConfig(c.config, want) && OperatorTrue(p) && Undecided(p) && want.finalizers != []
    requires Merged(st, u, p, c.config, want, c.config) == want
    ensures var no := c.config.Some? && !MayWriteFinalizers(c.config.value, want);
            && Reports(Rest(st, u, c, p, ping).1, if no then Report(Outcome(false, true), IsTrue, IsFalse) else StatusReport(want.body))
            && (if no then Rest(st, u, c, p, ping).0.config == c.config
                else PingedIfWaiting(want, ping, Rest(st, u, c, p, ping).0.config))
  {
    var r := WriteConfigStep(c, p, c.config, want, want, Fine(ping));
    assert PassStep(st, u, c, p, Fine(ping)) == r;
    RestOn(st, u, c, p, r.0, r.1, ping);
    if r.1.stage.Finish? {
      OverReports(st, u, c, r.1, Report(ERROR, IsTrue, IsFalse), ping);
      RestFinish(st, u, c, r.1, ping);
    } else {
      CheckReports(st, u, r.0, r.1, want, ping);
    }
  }

  // ------------------------------------------------------------ the install stages

  /** To be continued later, without an error. */
  const WAITS := Report(Outcome(true, false), IsFalse, IsUnknown)

  /** Given up until something changes: no requeue, no error. */
  const STOPS := Report(Outcome(false, false), IsFalse, IsUnknown)

  /** How a pass ends: if the gates are open it goes on to the OLSConfig, and
      if not it reports `shut` and leaves the OLSConfig alone. */
  ghost predicate Concludes(st: Settings, u: Uid, c: Cluster, want: Result<OLSConfig>, open: bool, shut: Report, r: (Cluster, Pass), ping: string) {
    if open then Reports(r.1, ConfigReport(st, u, c.config, want)) && ConfigLeft(st, u, c.config, want, ping, r.0.config)
    else Reports(r.1, shut) && r.0.config == c.config
  }

  lemma ShutConcludes(st: Settings, u: Uid, c: Cluster, p: Pass, want: Result<OLSConfig>, shut: Report, ping: string)
    requires p.stage == Finish(shut.outcome) && shut.operator == IsFalse && shut.lightspeed == IsUnknown
    requires OperatorReady in p.conditions && p.conditions[OperatorReady] == IsFalse && Undecided(p)
    ensures Concludes(st, u, c, want, false, shut, Rest(st, u, c, p, ping), ping)
  {
    OverReports(st, u, c, p, shut, ping);
    RestFinish(st, u, c, p, ping);
  }

  lemma ConfirmConcludes(st: Settings, u: Uid, c: Cluster, p: Pass, fetched: Option<string>, ping: string)
    requires p.stage.ConfirmCsv? && Undecided(p) && Asking(st, p, fetched)
    ensures Concludes(st, u, c, Wants(st, u, p.base, fetched, c.config), Done(u, FirstCsv(c.csvs)), WAITS, Rest(st, u, c, p, ping), ping)
  {
    var p1 := AfterConfirmCsv(u, p, Ok(FirstCsv(c.csvs)));
    assert PassStep(st, u, c, p, Fine(ping)) == (c, p1);
    RestOn(st, u, c, p, c, p1, ping);
    if p1.stage.Finish? {
      ShutConcludes(st, u, c, p1, Wants(st, u, p.base, fetched, c.config), WAITS, ping);
    } else {
      AttemptIsWant(st, u, p1, fetched, c.config);
      ConfigReports(st, u, c, p1, Wants(st, u, p.base, fetched, c.config), ping);
    }
  }

  /** There is a matching CSV, and it has succeeded; the pass will own it. */
  predicate CsvDone(csvs: seq<Csv>) {
    FirstCsv(csvs).Some? && FirstCsv(csvs).value.phase == "Succeeded"
  }

  lemma FindCsvConcludes(st: Settings, u: Uid, c: Cluster, p: Pass, fetched: Option<string>, ping: string)
    requires p.stage.FindCsv? && Undecided(p) && Asking(st, p, fetched)
    ensures Concludes(st, u, c, Wants(st, u, p.base, fetched, c.config), CsvDone(c.csvs), WAITS, Rest(st, u, c, p, ping), ping)
  {
    var p1 := AfterFindCsv(p, Ok(FirstCsv(c.csvs)));
    assert PassStep(st, u, c, p, Fine(ping)) == (c, p1);
    RestOn(st, u, c, p, c, p1, ping);
    if p1.stage.Finish? {
      ShutConcludes(st, u, c, p1, Wants(st, u, p.base, fetched, c.config), WAITS, ping);
    } else {
      AdoptConcludes(st, u, c, p1, fetched, ping);
    }
  }

  lemma AdoptConcludes(st: Settings, u: Uid, c: Cluster, p: Pass, fetched: Option<string>, ping: string)
    requires p.stage.AdoptCsv? && FirstCsv(c.csvs) == Some(p.stage.csv) && Undecided(p) && Asking(st, p, fetched)
    ensures Concludes(st, u, c, Wants(st, u, p.base, fetched, c.config), CsvDone(c.csvs), WAITS, Rest(st, u, c, p, ping), ping)
  {
    var r := AdoptStep(u, c, p, p.stage.csv, Fine(ping));
    assert PassStep(st, u, c, p, Fine(ping)) == r;
    RestOn(st, u, c, p, r.0, r.1, ping);
    AdoptedFirst(u, p.base, c.csvs);
    ConfirmConcludes(st, u, r.0, r.1, fetched, ping);
  }

  lemma FindPlanConcludes(st: Settings, u: Uid, c: Cluster, p: Pass, version: string, fetched: Option<string>, ping: string)
    requires p.stage.FindPlan? && Undecided(p) && Asking(st, p, fetched) && GetRecommendedOLSVersion(st.olsVersion) == Ok(version)
    ensures Concludes(st, u, c, Wants(st, u, p.base, fetched, c.config),
                      FirstPlan(c.plans, p.base.namespace, version).Some? && CsvDone(c.csvs), WAITS, Rest(st, u, c, p, ping), ping)
  {
    var plan := FirstPlan(c.plans, p.base.namespace, version);
    assert SelectPlan(st, c, p, Fine(ping)) == Ok(plan);
    var p1 := AfterFindPlan(p, Ok(plan));
    assert PassStep(st, u, c, p, Fine(ping)) == (c, p1);
    RestOn(st, u, c, p, c, p1, ping);
    if p1.stage.Finish? {
      ShutConcludes(st, u, c, p1, Wants(st, u, p.base, fetched, c.config), WAITS, ping);
    } else {
      ApproveConcludes(st, u, c, p1, plan.value, fetched, ping);
    }
  }

  lemma ApproveConcludes(st: Settings, u: Uid, c: Cluster, p: Pass, plan: InstallPlan, fetched: Option<string>, ping: string)
    requires p.stage == ApprovePlan(plan) && plan in c.plans && Undecided(p) && Asking(st, p, fetched)
    ensures Concludes(st, u, c, Wants(st, u, p.base, fetched, c.config), CsvDone(c.csvs), WAITS, Rest(st, u, c, p, ping), ping)
  {
    var r := ApproveStep(c, p, plan, Fine(ping));
    assert PassStep(st, u, c, p, Fine(ping)) == r;
    RestOn(st, u, c, p, r.0, r.1, ping);
    FindCsvConcludes(st, u, r.0, r.1, fetched, ping);
  }

  /** The Subscription is ordered as u wants it and linked to a plan. */
  predicate OrderLinked(env: string, u: Uid, i: Instance, c: Cluster) {
    var sub := GetSub(c, OrderKey(u, i));
    sub.Some? && Ordered(env, u, i, sub.value) && sub.value.installPlanRef.Some?
  }

  lemma ReadSubConcludes(st: Settings, u: Uid, c: Cluster, p: Pass, version: string, fetched: Option<string>, ping: string)
    requires p.stage.ReadSub? && Undecided(p) && Asking(st, p, fetched) && GetRecommendedOLSVersion(st.olsVersion) == Ok(version)
    ensures Concludes(st, u, c, Wants(st, u, p.base, fetched, c.config),
                      OrderLinked(st.olsVersion, u, p.base, c) && FirstPlan(c.plans, p.base.namespace, version).Some? && CsvDone(c.csvs),
                      WAITS, Rest(st, u, c, p, ping), ping)
  {
    var sub := GetSub(c, SubscriptionKey(u, p.base));
    if sub.Some? { OrderedExactly(st.olsVersion, u, p.base, sub.value, sub); }
    OrderedExactly(st.olsVersion, u, p.base, DesiredSubscription(version, u, p.base, sub), sub);
    var p1 := AfterReadSub(st, u, p, Ok(sub));
    assert PassStep(st, u, c, p, Fine(ping)) == (c, p1);
    RestOn(st, u, c, p, c, p1, ping);
    if p1.stage.Finish? {
      ShutConcludes(st, u, c, p1, Wants(st, u, p.base, fetched, c.config), WAITS, ping);
    } else if p1.stage.FindPlan? {
      FindPlanConcludes(st, u, c, p1, version, fetched, ping);
    } else {
      WriteSubConcludes(st, u, c, p1, version, fetched, ping);
    }
  }

  lemma WriteSubConcludes(st: Settings, u: Uid, c: Cluster, p: Pass, version: string, fetched: Option<string>, ping: string)
    requires p.stage == WriteSub(GetSub(c, SubscriptionKey(u, p.base))) && Undecided(p)
    requires GetRecommendedOLSVersion(st.olsVersion) == Ok(version)
    ensures Concludes(st, u, c, Wants(st, u, p.base, fetched, c.config), false, WAITS, Rest(st, u, c, p, ping), ping)
  {
    var r := WriteSubStep(st, u, c, p, p.stage.sub, Fine(ping));
    assert PassStep(st, u, c, p, Fine(ping)) == r;
    RestOn(st, u, c, p, r.0, r.1, ping);
    ShutConcludes(st, u, r.0, r.1, Wants(st, u, p.base, fetched, c.config), WAITS, ping);
  }

  lemma NoVersionConcludes(st: Settings, u: Uid, c: Cluster, p: Pass, fetched: Option<string>, ping: string)
    requires p.stage.ReadSub? && Undecided(p) && GetRecommendedOLSVersion(st.olsVersion).Err?
    ensures Concludes(st, u, c, Wants(st, u, p.base, fetched, c.config), false, STOPS, Rest(st, u, c, p, ping), ping)
  {
    var p1 := InstallFailed(p);
    assert PassStep(st, u, c, p, Fine(ping)) == (c, p1);
    RestOn(st, u, c, p, c, p1, ping);
    ShutConcludes(st, u, c, p1, Wants(st, u, p.base, fetched, c.config), STOPS, ping);
  }

  /** Somebody else's installation is in the way: the first matching CSV and
      the Subscription, if there is one, have no owner reference to u. */
  predicate InTheWay(u: Uid, i: Instance, c: Cluster) {
    var csv, sub := FirstCsv(c.csvs), GetSub(c, OrderKey(u, i));
    csv.Some? && !NamesOwner(csv.value.owners, u) && (sub.Some? ==> !NamesOwner(sub.value.owners, u))
  }

  /** No version is configured, or an installation is in the way. */
  predicate Hopeless(st: Settings, u: Uid, i: Instance, c: Cluster) {
    st.olsVersion == "" || InTheWay(u, i, c)
  }

  /** The gates in front of the OLSConfig: the Subscription in order and linked,
      a matching plan, a matching CSV that has succeeded. */
  ghost predicate GatesOpen(st: Settings, u: Uid, i: Instance, c: Cluster) {
    && !Hopeless(st, u, i, c) && OrderLinked(st.olsVersion, u, i, c) && CsvDone(c.csvs)
    && exists k :: 0 <= k < |c.plans| && NamesVersion(c.plans[k], i.namespace, if st.olsVersion == "latest" then "" else st.olsVersion)
  }

  lemma GatesMean(st: Settings, u: Uid, i: Instance, c: Cluster, version: string)
    requires GetRecommendedOLSVersion(st.olsVersion) == Ok(version)
    ensures GatesOpen(st, u, i, c) <==>
              && !InTheWay(u, i, c) && OrderLinked(st.olsVersion, u, i, c)
              && FirstPlan(c.plans, i.namespace, version).Some? && CsvDone(c.csvs)
  {
    PlanSelection(c.plans, i.namespace, version);
  }

  lemma StopsConclude(st: Settings, u: Uid, c: Cluster, p: Pass, fetched: Option<string>, ping: string)
    requires p.stage.FindForeign? && Undecided(p) && InTheWay(u, p.base, c)
    ensures Concludes(st, u, c, Wants(st, u, p.base, fetched, c.config), false, STOPS, Rest(st, u, c, p, ping), ping)
  {
    var csv := FirstCsv(c.csvs).value;
    assert SubscriptionKey(u, p.base).1 == OrderKey(u, p.base).1;
    var p1 := p.To(CheckSub(csv));
    assert PassStep(st, u, c, p, Fine(ping)) == (c, p1);
    RestOn(st, u, c, p, c, p1, ping);
    assert PassStep(st, u, c, p1, Fine(ping)) == (c, InstallFailed(p1));
    RestOn(st, u, c, p1, c, InstallFailed(p1), ping);
    ShutConcludes(st, u, c, InstallFailed(p1), Wants(st, u, p.base, fetched, c.config), STOPS, ping);
  }

  lemma ToSubscription(st: Settings, u: Uid, c: Cluster, p: Pass, ping: string)
    requires p.stage.FindForeign? && !InTheWay(u, p.base, c)
    ensures Rest(st, u, c, p, ping) == Rest(st, u, c, p.To(ReadSub), ping)
  {
    assert SubscriptionKey(u, p.base).1 == OrderKey(u, p.base).1;
    var p1 := AfterFindForeign(p, Ok(FirstCsv(c.csvs)));
    assert PassStep(st, u, c, p, Fine(ping)) == (c, p1);
    RestOn(st, u, c, p, c, p1, ping);
    if p1.stage.CheckSub? {
      assert PassStep(st, u, c, p1, Fine(ping)) == (c, p1.To(ReadSub));
      RestOn(st, u, c, p1, c, p1.To(ReadSub), ping);
    }
  }

  /** What an undisturbed pass of a held working instance reports, for every
      cluster.  Somebody else's installation or no configured version: it stops,
      without a requeue.  Some gate in front of the OLSConfig shut: it waits.
      All open: an error if the OLSConfig is refused or its status cannot be
      read, done if it says Ready, and else it pings and waits. */
  lemma ForwardOutcome(st: Settings, u: Uid, c: Cluster, fetched: Option<string>, ping: string)
    requires Held(c, u) && !c.instances[u].deleting
    ensures var i := c.instances[u];
            Concludes(st, u, c, Wants(st, u, i, fetched, c.config), GatesOpen(st, u, i, c),
                      if Hopeless(st, u, i, c) then STOPS else WAITS, WholePass(st, u, c, fetched, ping), ping)
  {
    var i := c.instances[u];
    var p := Begin(st, i, fetched);
    assert LightspeedReady in p.conditions;
    if InTheWay(u, i, c) {
      StopsConclude(st, u, c, p, fetched, ping);
    } else {
      ToSubscription(st, u, c, p, ping);
      match GetRecommendedOLSVersion(st.olsVersion)
      case Err(_) => NoVersionConcludes(st, u, c, p.To(ReadSub), fetched, ping);
      case Ok(version) =>
        GatesMean(st, u, i, c, version);
        ReadSubConcludes(st, u, c, p.To(ReadSub), version, fetched, ping);
    }
  }

  /** A pass asks to be run again later exactly in these cases. */
  lemma LaterExactly(st: Settings, u: Uid, c: Cluster, fetched: Option<string>, ping: string)
    requires Held(c, u) && !c.instances[u].deleting
    ensures var i, want := c.instances[u], Wants(st, u, c.instances[u], fetched, c.config);
            && (WholePass(st, u, c, fetched, ping).1.result == Outcome(true, false) <==>
                  && !Hopeless(st, u, i, c)
                  && (!GatesOpen(st, u, i, c)
                      || (!Refused(st, u, c.config, want) && !SaysReady(want.value.body) && !Malformed(want.value.body))))
            && (want.Ok? ==>
                  var body := if c.config.Some? then c.config.value.body else map[];
                  && (SaysReady(want.value.body) <==> SaysReady(body)) && (Malformed(want.value.body) <==> Malformed(body)))
  {
    ForwardOutcome(st, u, c, fetched, ping);
    if Wants(st, u, c.instances[u], fetched, c.config).Ok? {
      StatusKept(st, u, Asker(st, c.instances[u], fetched), if c.config.Some? then c.config.value else EMPTY_CONFIG);
    }
  }

  /** A patch does not touch the status. */
  lemma StatusKept(st: Settings, u: Uid, i: Instance, cfg: OLSConfig)
    requires PatchOLSConfig(st, u, i, cfg).Ok?
    ensures var r := PatchOLSConfig(st, u, i, cfg).value;
            && Lookup(r.body, ["status"]) == Lookup(cfg.body, ["status"])
            && Lookup(r.body, ["status", "overallStatus"]) == Lookup(cfg.body, ["status", "overallStatus"])
  {
    forall k | 0 <= k < |Managed(st, i)|
      ensures Apart(Managed(st, i)[k].path, ["status"]) && Apart(Managed(st, i)[k].path, ["status", "overallStatus"])
    {
      assert Managed(st, i)[k].path[0] == "spec";
    }
    PatchFrame(st, u, i, cfg);
  }

  // ----------------------------------------------------------- the teardown stages

  /** The outcome of a pass that ends where it is. */
  lemma OverTells(st: Settings, u: Uid, c: Cluster, p: Pass, o: Outcome, ping: string)
    requires p.stage == Finish(o)
    ensures Rest(st, u, c, p, ping).1.result == o
  {
    RestOver(st, u, c, p, ping);
  }

  /** What uninstalling tells its caller, in a cluster without an OLSConfig:
      done if the first matching CSV is absent or not u's; an error if no
      version is configured; else later as long as, after the deletion of the
      first matching plan and that CSV, a matching CSV or plan is left. */
  function UninstallTells(st: Settings, u: Uid, ns: string, c: Cluster): Outcome {
    var first := FirstCsv(c.csvs);
    if first.None? || !NamesOwner(first.value.owners, u) then Outcome(false, false)
    else if st.olsVersion == "" then Outcome(false, true)
    else
      var version := if st.olsVersion == "latest" then "" else st.olsVersion;
      var csvs, plans := CsvsAfter(c.csvs, first.value), PlansAfter(c.plans, ns, version);
      if FirstCsv(csvs).Some? || FirstPlan(plans, ns, version).Some? then Outcome(true, false) else Outcome(false, false)
  }

  lemma LastLookTells(st: Settings, u: Uid, c: Cluster, p: Pass, version: string, ping: string)
    requires p.stage.ConfirmNoPlan? && GetRecommendedOLSVersion(st.olsVersion) == Ok(version)
    ensures Rest(st, u, c, p, ping).1.result ==
              if FirstPlan(c.plans, p.base.namespace, version).Some? then Outcome(true, false) else Outcome(false, false)
  {
    var plan := FirstPlan(c.plans, p.base.namespace, version);
    ConfirmNoPlanStep(st, u, c, p, plan, Fine(ping));
    var p1 := if plan.Some? then p.To(Finish(LATER)) else Released(p);
    RestOn(st, u, c, p, c, p1, ping);
    OverTells(st, u, c, p1, p1.stage.outcome, ping);
  }

  lemma ConfirmTells(st: Settings, u: Uid, c: Cluster, p: Pass, version: string, ping: string)
    requires p.stage.ConfirmNoCsv? && GetRecommendedOLSVersion(st.olsVersion) == Ok(version)
    ensures Rest(st, u, c, p, ping).1.result ==
              if FirstCsv(c.csvs).Some? || FirstPlan(c.plans, p.base.namespace, version).Some? then Outcome(true, false)
              else Outcome(false, false)
  {
    var p1 := AfterConfirmNoCsv(p, Ok(FirstCsv(c.csvs)));
    assert PassStep(st, u, c, p, Fine(ping)) == (c, p1);
    RestOn(st, u, c, p, c, p1, ping);
    if p1.stage.Finish? {
      OverTells(st, u, c, p1, LATER, ping);
    } else {
      LastLookTells(st, u, c, p1, version, ping);
    }
  }

  lemma DropCsvTells(st: Settings, u: Uid, c: Cluster, p: Pass, version: string, ping: string)
    requires p.stage.DropCsv? && p.stage.csv in c.csvs && GetRecommendedOLSVersion(st.olsVersion) == Ok(version)
    ensures Rest(st, u, c, p, ping).1.result ==
              if FirstCsv(CsvsAfter(c.csvs, p.stage.csv)).Some? || FirstPlan(c.plans, p.base.namespace, version).Some?
              then Outcome(true, false) else Outcome(false, false)
  {
    CsvCanBeDeleted(c.csvs, p.stage.csv);
    var r := DropCsvStep(c, p, p.stage.csv, Fine(ping));
    assert PassStep(st, u, c, p, Fine(ping)) == r;
    RestOn(st, u, c, p, r.0, r.1, ping);
    ConfirmTells(st, u, r.0, r.1, version, ping);
  }

  lemma FindOldPlanTells(st: Settings, u: Uid, c: Cluster, p: Pass, version: string, ping: string)
    requires p.stage.FindOldPlan? && p.stage.csv in c.csvs && GetRecommendedOLSVersion(st.olsVersion) == Ok(version)
    ensures var plans := PlansAfter(c.plans, p.base.namespace, version);
            Rest(st, u, c, p, ping).1.result ==
              if FirstCsv(CsvsAfter(c.csvs, p.stage.csv)).Some? || FirstPlan(plans, p.base.namespace, version).Some?
              then Outcome(true, false) else Outcome(false, false)
  {
    var plan := FirstPlan(c.plans, p.base.namespace, version);
    assert SelectPlan(st, c, p, Fine(ping)) == Ok(plan);
    var p1 := AfterFindOldPlan(p, p.stage.csv, Ok(plan));
    assert PassStep(st, u, c, p, Fine(ping)) == (c, p1);
    RestOn(st, u, c, p, c, p1, ping);
    if plan.None? {
      DropCsvTells(st, u, c, p1, version, ping);
    } else {
      DropPlanTells(st, u, c, p1, version, ping);
    }
  }

  lemma DropPlanTells(st: Settings, u: Uid, c: Cluster, p: Pass, version: string, ping: string)
    requires p.stage.DropPlan? && p.stage.csv in c.csvs && GetRecommendedOLSVersion(st.olsVersion) == Ok(version)
    requires FirstPlan(c.plans, p.base.namespace, version) == Some(p.stage.plan)
    ensures var plans := PlansAfter(c.plans, p.base.namespace, version);
            Rest(st, u, c, p, ping).1.result ==
              if FirstCsv(CsvsAfter(c.csvs, p.stage.csv)).Some? || FirstPlan(plans, p.base.namespace, version).Some?
              then Outcome(true, false) else Outcome(false, false)
  {
    ListedCanBeDeleted(c.plans, p.stage.plan);
    var r := DropPlanStep(c, p, p.stage.csv, p.stage.plan, Fine(ping));
    assert PassStep(st, u, c, p, Fine(ping)) == r;
    RestOn(st, u, c, p, r.0, r.1, ping);
    DropCsvTells(st, u, r.0, r.1, version, ping);
  }

  lemma UninstallOutcome(st: Settings, u: Uid, c: Cluster, p: Pass, ping: string)
    requires p.stage.FindOwnCsv?
    ensures Rest(st, u, c, p, ping).1.result == UninstallTells(st, u, p.base.namespace, c)
  {
    var first := FirstCsv(c.csvs);
    var p1 := AfterFindOwnCsv(u, p, Ok(first));
    assert PassStep(st, u, c, p, Fine(ping)) == (c, p1);
    RestOn(st, u, c, p, c, p1, ping);
    if p1.stage.Finish? {
      OverTells(st, u, c, p1, DONE, ping);
    } else {
      OwnTells(st, u, c, p1, ping);
    }
  }

  lemma OwnTells(st: Settings, u: Uid, c: Cluster, p: Pass, ping: string)
    requires p.stage.FindOldPlan? && FirstCsv(c.csvs) == Some(p.stage.csv) && OwnedBy(p.stage.csv.owners, u)
    ensures Rest(st, u, c, p, ping).1.result == UninstallTells(st, u, p.base.namespace, c)
  {
    match GetRecommendedOLSVersion(st.olsVersion)
    case Err(_) =>
      NoVersionStep(st, u, c, p, Fine(ping));
      RestOn(st, u, c, p, c, p.To(Finish(ERROR)), ping);
      OverTells(st, u, c, p.To(Finish(ERROR)), ERROR, ping);
    case Ok(version) => FindOldPlanTells(st, u, c, p, version, ping);
  }

  /** What a delete pass tells its caller.  u's own OLSConfig: an error if the
      finalizer is gone, or if the object vanishes with it before the Delete;
      later while another finalizer holds it.  Anybody else's: later while any
      finalizer holds it.  And if there is none any more, what uninstalling
      tells. */
  function DeleteTells(st: Settings, u: Uid, ns: string, c: Cluster): Outcome {
    match c.config
    case None => UninstallTells(st, u, ns, c)
    case Some(cfg) =>
      if cfg.Owner() == u && st.finalizer !in cfg.finalizers then Outcome(false, true)
      else if cfg.Owner() == u && HeldByOthers(st, cfg) then Outcome(true, false)
      else if cfg.Owner() == u && cfg.deleting then Outcome(false, true)
      else if cfg.Owner() != u && cfg.finalizers != [] then Outcome(true, false)
      else UninstallTells(st, u, ns, c)
  }

  lemma GoneTells(st: Settings, u: Uid, c: Cluster, p: Pass, ping: string)
    requires p.stage.ConfirmNoConfig?
    ensures Rest(st, u, c, p, ping).1.result ==
              if c.config.Some? then Outcome(true, false) else UninstallTells(st, u, p.base.namespace, c)
  {
    var p1 := AfterConfirmNoConfig(p, Ok(c.config));
    assert PassStep(st, u, c, p, Fine(ping)) == (c, p1);
    RestOn(st, u, c, p, c, p1, ping);
    if c.config.Some? {
      OverTells(st, u, c, p1, LATER, ping);
    } else {
      UninstallOutcome(st, u, c, p1, ping);
    }
  }

  lemma DropTells(st: Settings, u: Uid, c: Cluster, p: Pass, ping: string)
    requires p.stage.DropConfig?
    ensures Rest(st, u, c, p, ping).1.result ==
              if c.config.None? then Outcome(false, true)
              else if c.config.value.finalizers != [] then Outcome(true, false)
              else UninstallTells(st, u, p.base.namespace, c)
  {
    var r := DropConfigStep(c, p, Fine(ping));
    assert PassStep(st, u, c, p, Fine(ping)) == r;
    RestOn(st, u, c, p, r.0, r.1, ping);
    if c.config.None? {
      OverTells(st, u, c, r.1, ERROR, ping);
    } else {
      GoneTells(st, u, r.0, r.1, ping);
    }
  }

  lemma ReleaseTells(st: Settings, u: Uid, c: Cluster, p: Pass, cfg: OLSConfig, ping: string)
    requires p.stage == ReleaseConfig(cfg) && c.config == Some(cfg) && cfg.Owner() == u && st.finalizer in cfg.finalizers
    ensures Rest(st, u, c, p, ping).1.result == DeleteTells(st, u, p.base.namespace, c)
  {
    var left := Without(cfg.finalizers, st.finalizer);
    if !HeldByOthers(st, cfg) { OnlyOurs(cfg.finalizers, st.finalizer); }
    assert HeldByOthers(st, cfg) ==> left != [];
    var released := cfg.(finalizers := left);
    var c1, p1 := c.(config := Settle(released)), p.To(DropConfig);
    assert MayWriteFinalizers(cfg, released);
    assert PassStep(st, u, c, p, Fine(ping)) == ReleaseStep(st, c, p, cfg, Fine(ping));
    RestOn(st, u, c, p, c1, p1, ping);
    DropTells(st, u, c1, p1, ping);
  }

  lemma RereadTells(st: Settings, u: Uid, c: Cluster, p: Pass, cfg: OLSConfig, ping: string)
    requires p.stage.RereadConfig? && c.config == Some(cfg)
    ensures Rest(st, u, c, p, ping).1.result == DeleteTells(st, u, p.base.namespace, c)
  {
    var p1 := AfterReread(st, u, p, Ok(Some(cfg)));
    assert PassStep(st, u, c, p, Fine(ping)) == (c, p1);
    RestOn(st, u, c, p, c, p1, ping);
    if p1.stage.Finish? {
      OverTells(st, u, c, p1, ERROR, ping);
    } else if p1.stage.DropConfig? {
      DropTells(st, u, c, p1, ping);
    } else {
      ReleaseTells(st, u, c, p1, cfg, ping);
    }
  }

  /** The outcome of an undisturbed delete pass, for every cluster. */
  lemma DeleteOutcome(st: Settings, u: Uid, c: Cluster, fetched: Option<string>, ping: string)
    requires u in c.instances && c.instances[u].deleting
    ensures WholePass(st, u, c, fetched, ping).1.result == DeleteTells(st, u, c.instances[u].namespace, c)
  {
    var p := Begin(st, c.instances[u], fetched);
    var p1 := AfterFindConfig(p, Ok(c.config));
    assert PassStep(st, u, c, p, Fine(ping)) == (c, p1);
    RestOn(st, u, c, p, c, p1, ping);
    if c.config.None? {
      UninstallOutcome(st, u, c, p1, ping);
    } else {
      RereadTells(st, u, c, p1, c.config.value, ping);
    }
  }

  /** The pass that adds the finalizer does nothing else, and asks for nothing. */
  lemma FirstPass(st: Settings, u: Uid, c: Cluster, fetched: Option<string>, ping: string)
    requires u in c.instances && !c.instances[u].deleting && !c.instances[u].finalizer
    ensures var (c', p) := WholePass(st, u, c, fetched, ping);
            && p.result == Outcome(false, false) && OnlyInstance(u, c, c') && u in c'.instances
            && c'.instances[u] == c.instances[u].(finalizer := true, status := c'.instances[u].status)
  {
    var p := Begin(st, c.instances[u], fetched);
    OverTells(st, u, c, p, DONE, ping);
    RestFinish(st, u, c, p, ping);
  }

  /** A plan that is not there any more counts as deleted. */
  lemma VanishedPlan(st: Settings, u: Uid, c: Cluster, p: Pass, ping: string)
    requires p.stage.DropPlan? && forall k :: 0 <= k < |c.plans| ==> c.plans[k].key != p.stage.plan.key
    ensures PassStep(st, u, c, p, Fine(ping)) == (c, p.To(DropCsv(p.stage.csv)))
  {
    DeletePlanMissing(c.plans, p.stage.plan.key);
    assert PassStep(st, u, c, p, Fine(ping)) == DropPlanStep(c, p, p.stage.csv, p.stage.plan, Fine(ping));
  }
}
