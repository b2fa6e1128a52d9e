/** Convergence: undisturbed passes and a cooperating OLM lead to Ready, and
    nothing moves any more once they got there. */
module Convergence {
  import opened Wrappers
  import opened Json
  import opened Cluster
  import opened OcpVersion
  import opened Install
  import opened OlsConfig
  import opened Reconcile
  import opened Runs
  import opened Orphans
  import opened Solo

  // ------------------------------------------------- what a pass of u works towards

  /** Instance i as a pass presents it to PatchOLSConfig. */
  function Asker(st: Settings, i: Instance, fetched: Option<string>): Instance {
    i.(spec := WithDefaults(st, i.spec),
       status := Status(map[LightspeedReady := IsUnknown],
                        Resolve(fetched, i.spec.ocpVersionOverride, i.spec.enableOcpRag).active))
  }

  /** What u wants the OLSConfig to be, given what it is. */
  function Wants(st: Settings, u: Uid, i: Instance, fetched: Option<string>, config: Option<OLSConfig>): Result<OLSConfig> {
    PatchOLSConfig(st, u, Asker(st, i, fetched), if config.Some? then config.value else EMPTY_CONFIG)
  }

  /** Two versions of an instance that ask for the same. */
  predicate SameWish(st: Settings, i: Instance, i': Instance) {
    && i'.name == i.name && i'.namespace == i.namespace && i'.deleting == i.deleting
    && WithDefaults(st, i'.spec) == WithDefaults(st, i.spec)
  }

  lemma WishKept(st: Settings, u: Uid, i: Instance, i': Instance, fetched: Option<string>, config: Option<OLSConfig>, version: string, sub: Option<Subscription>)
    requires SameWish(st, i, i')
    ensures Wants(st, u, i', fetched, config) == Wants(st, u, i, fetched, config)
    ensures DesiredSubscription(version, u, i', sub) == DesiredSubscription(version, u, i, sub)
    ensures SubscriptionKey(u, i') == SubscriptionKey(u, i) && InstanceOwner(u, i') == InstanceOwner(u, i)
  {
  }

  // -------------------------------------------------------- the end of the pass

  /** The pass's copy comes from the instance as it stands, and the pass has
      not changed more of it than the defaults. */
  predicate Current(st: Settings, u: Uid, c: Cluster, p: Pass) {
    && u in c.instances && p.base == c.instances[u] && !p.base.deleting && p.finalizer
    && (p.spec == p.base.spec || p.spec == WithDefaults(st, p.base.spec))
  }

  lemma FinishWish(st: Settings, u: Uid, c: Cluster, p: Pass, ping: string)
    requires p.stage.Finish? && Current(st, u, c, p)
    ensures var c' := Rest(st, u, c, p, ping).0;
            OnlyInstance(u, c, c') && Held(c', u) && SameWish(st, c.instances[u], c'.instances[u])
  {
    RestFinish(st, u, c, p, ping);
  }

  // -------------------------------------------------------------- the OLSConfig

  /** u's claim on the OLSConfig can succeed. */
  predicate Claimable(u: Uid, config: Option<OLSConfig>) {
    config.Some? ==> !config.value.deleting && (config.value.Owner() == "" || config.value.Owner() == u)
  }

  /** The OLSConfig became what was wanted, perhaps with a ping on it. */
  predicate Became(want: OLSConfig, ping: string, config': Option<OLSConfig>) {
    config' == Some(want) || config' == Some(PingOLSConfig(want, ping))
  }

  lemma RestCheckReady(st: Settings, u: Uid, c: Cluster, p: Pass, ping: string)
    requires p.stage.CheckReady? && Current(st, u, c, p) && c.config.Some?
    ensures var c' := Rest(st, u, c, p, ping).0;
            && OnlyInstance(u, c.(config := c'.config), c') && Became(c.config.value, ping, c'.config)
            && Held(c', u) && SameWish(st, c.instances[u], c'.instances[u])
  {
    var x := Fine(ping);
    var p1 := AfterCheckReady(p, See(x, c.config));
    assert PassStep(st, u, c, p, x) == (c, p1);
    if p1.stage.Finish? {
      FinishWish(st, u, c, p1, ping);
    } else {
      RestReadPing(st, u, c, p1, ping);
    }
  }

  lemma RestReadPing(st: Settings, u: Uid, c: Cluster, p: Pass, ping: string)
    requires p.stage.ReadPing? && Current(st, u, c, p) && c.config.Some?
    ensures var c' := Rest(st, u, c, p, ping).0;
            && OnlyInstance(u, c.(config := c'.config), c') && Became(c.config.value, ping, c'.config)
            && Held(c', u) && SameWish(st, c.instances[u], c'.instances[u])
  {
    var x := Fine(ping);
    var p1 := AfterReadPing(p, See(x, c.config));
    assert PassStep(st, u, c, p, x) == (c, p1);
    var r := WritePingStep(c, p1, c.config.value, x);
    assert PassStep(st, u, c, p1, x) == r;
    FinishWish(st, u, r.0, r.1, ping);
  }

  lemma RestWriteConfig(st: Settings, u: Uid, c: Cluster, p: Pass, want: OLSConfig, ping: string)
    requires p.stage == WriteConfig(c.config, want) && Current(st, u, c, p) && Claimable(u, c.config)
    requires !want.deleting && Merged(st, u, p, c.config, want, c.config) == want
    ensures Rest(st, u, c, p, ping) == Rest(st, u, c.(config := Some(want)), p.Note(ConfigWritten(c.config, want)).To(CheckReady), ping)
  {
    var x := Fine(ping);
    var r := WriteConfigStep(c, p, c.config, want, want, x);
    assert PassStep(st, u, c, p, x) == r;
  }

  /** The pass after its patch of the OLSConfig. */
  function PatchDone(p: Pass, config: Option<OLSConfig>, want: OLSConfig): Pass {
    if config == Some(want) then p.Note(ConfigKept(want)).To(CheckReady)
    else p.Note(ConfigRead(config)).Note(ConfigWritten(config, want)).To(CheckReady)
  }

  /** The pass's copy is the one Wants speaks of. */
  predicate Asking(st: Settings, p: Pass, fetched: Option<string>) {
    && p.spec == WithDefaults(st, p.base.spec) && p.conditions != map[]
    && p.active == Resolve(fetched, p.base.spec.ocpVersionOverride, p.base.spec.enableOcpRag).active
  }

  lemma AttemptIsWant(st: Settings, u: Uid, p: Pass, fetched: Option<string>, config: Option<OLSConfig>)
    requires Asking(st, p, fetched)
    ensures Attempt(st, u, p, config) == Wants(st, u, p.base, fetched, config)
  {
    assert LightspeedReady in Asker(st, p.base, fetched).status.conditions;
  }

  lemma MergedIsWant(st: Settings, u: Uid, p: Pass, config: Option<OLSConfig>, want: OLSConfig)
    requires Attempt(st, u, p, config) == Ok(want)
    ensures Merged(st, u, p, config, want, config) == want
    ensures want.deleting == (config.Some? && config.value.deleting)
  {
    if config.Some? { MergeIsPatch(st, u, p.Inst(), config.value); }
  }

  lemma RestReadConfig(st: Settings, u: Uid, c: Cluster, p: Pass, want: OLSConfig, ping: string)
    requires p.stage.ReadConfig? && Current(st, u, c, p) && Claimable(u, c.config)
    requires Attempt(st, u, p, c.config) == Ok(want)
    ensures Rest(st, u, c, p, ping) == Rest(st, u, c.(config := Some(want)), PatchDone(p, c.config, want), ping)
  {
    var x := Fine(ping);
    var p1 := AfterReadConfig(u, p, See(x, c.config), Ok(want));
    assert PassStep(st, u, c, p, x) == (c, p1);
    if c.config == Some(want) {
      assert c.(config := Some(want)) == c;
    } else {
      assert p1 == p.Note(ConfigRead(c.config)).To(WriteConfig(c.config, want));
      MergedIsWant(st, u, p, c.config, want);
      assert Merged(st, u, p1, c.config, want, c.config) == Merged(st, u, p, c.config, want, c.config);
      RestWriteConfig(st, u, c, p1, want, ping);
    }
  }

  // --------------------------------------------------------- the CSV and the plan

  /** The pass ended with the OLSConfig as wanted if the first matching CSV has
      succeeded, and left it alone otherwise. */
  ghost predicate ConfigFollows(st: Settings, u: Uid, c: Cluster, fetched: Option<string>, ping: string, c': Cluster)
    requires u in c.instances && FirstCsv(c.csvs).Some?
  {
    if FirstCsv(c.csvs).value.phase == PHASE_SUCCEEDED then
      Wants(st, u, c.instances[u], fetched, c.config).Ok? &&
      Became(Wants(st, u, c.instances[u], fetched, c.config).value, ping, c'.config)
    else c'.config == c.config
  }

  ghost predicate Served(st: Settings, u: Uid, c: Cluster, c': Cluster) {
    u in c.instances && Held(c', u) && SameWish(st, c.instances[u], c'.instances[u])
    && c'.subscriptions == c.subscriptions
  }

  lemma RestConfirmCsv(st: Settings, u: Uid, c: Cluster, p: Pass, fetched: Option<string>, ping: string)
    requires p.stage.ConfirmCsv? && Current(st, u, c, p) && Asking(st, p, fetched) && Claimable(u, c.config)
    requires Wants(st, u, p.base, fetched, c.config).Ok?
    requires FirstCsv(c.csvs).Some? && OwnedBy(FirstCsv(c.csvs).value.owners, u)
    ensures var c' := Rest(st, u, c, p, ping).0;
            Served(st, u, c, c') && c'.plans == c.plans && c'.csvs == c.csvs && ConfigFollows(st, u, c, fetched, ping, c')
  {
    var x := Fine(ping);
    var p1 := AfterConfirmCsv(u, p, See(x, FirstCsv(c.csvs)));
    assert PassStep(st, u, c, p, x) == (c, p1);
    if p1.stage.Finish? {
      FinishWish(st, u, c, p1, ping);
    } else {
      RestConfigure(st, u, c, p1, Wants(st, u, p.base, fetched, c.config).value, fetched, ping);
    }
  }

  /** From the OLSConfig to the end of the pass. */
  lemma RestConfigure(st: Settings, u: Uid, c: Cluster, p: Pass, want: OLSConfig, fetched: Option<string>, ping: string)
    requires p.stage.ReadConfig? && Current(st, u, c, p) && Asking(st, p, fetched) && Claimable(u, c.config)
    requires Wants(st, u, p.base, fetched, c.config) == Ok(want)
    ensures var c' := Rest(st, u, c, p, ping).0;
            Served(st, u, c, c') && c'.plans == c.plans && c'.csvs == c.csvs && Became(want, ping, c'.config)
  {
    AttemptIsWant(st, u, p, fetched, c.config);
    RestReadConfig(st, u, c, p, want, ping);
    RestCheckReady(st, u, c.(config := Some(want)), PatchDone(p, c.config, want), ping);
  }

  function Adopted(u: Uid, i: Instance, csvs: seq<Csv>): seq<Csv>
    requires FirstCsv(csvs).Some?
  {
    Replace(csvs, FirstCsv(csvs).value, FirstCsv(csvs).value.(owners := InstanceOwner(u, i)))
  }

  lemma AdoptedFirst(u: Uid, i: Instance, csvs: seq<Csv>)
    requires FirstCsv(csvs).Some?
    ensures FirstCsv(Adopted(u, i, csvs)) == Some(FirstCsv(csvs).value.(owners := InstanceOwner(u, i)))
    ensures OwnedBy(InstanceOwner(u, i), u)
  {
    FirstCsvReplaced(csvs, FirstCsv(csvs).value, FirstCsv(csvs).value.(owners := InstanceOwner(u, i)));
    assert InstanceOwner(u, i)[0].uid == u;
  }

  /** From the search for the CSV to the end of the pass. */
  ghost predicate CsvHandled(st: Settings, u: Uid, c: Cluster, fetched: Option<string>, ping: string, c': Cluster) {
    && Served(st, u, c, c')
    && if FirstCsv(c.csvs).None? then c'.csvs == c.csvs && c'.config == c.config
       else c'.csvs == Adopted(u, c.instances[u], c.csvs) && ConfigFollows(st, u, c, fetched, ping, c')
  }

  lemma RestFindCsv(st: Settings, u: Uid, c: Cluster, p: Pass, fetched: Option<string>, ping: string)
    requires p.stage.FindCsv? && Current(st, u, c, p) && Asking(st, p, fetched) && Claimable(u, c.config)
    requires Wants(st, u, p.base, fetched, c.config).Ok?
    ensures var c' := Rest(st, u, c, p, ping).0; c'.plans == c.plans && CsvHandled(st, u, c, fetched, ping, c')
  {
    var x := Fine(ping);
    var p1 := AfterFindCsv(p, See(x, FirstCsv(c.csvs)));
    assert PassStep(st, u, c, p, x) == (c, p1);
    if p1.stage.Finish? {
      FinishWish(st, u, c, p1, ping);
    } else {
      RestAdoptCsv(st, u, c, p1, fetched, ping);
    }
  }

  lemma RestAdoptCsv(st: Settings, u: Uid, c: Cluster, p: Pass, fetched: Option<string>, ping: string)
    requires p.stage.AdoptCsv? && FirstCsv(c.csvs) == Some(p.stage.csv)
    requires Current(st, u, c, p) && Asking(st, p, fetched) && Claimable(u, c.config)
    requires Wants(st, u, p.base, fetched, c.config).Ok?
    ensures var c' := Rest(st, u, c, p, ping).0; c'.plans == c.plans && CsvHandled(st, u, c, fetched, ping, c')
  {
    var x := Fine(ping);
    var r := AdoptStep(u, c, p, p.stage.csv, x);
    assert PassStep(st, u, c, p, x) == r;
    AdoptedFirst(u, p.base, c.csvs);
    RestConfirmCsv(st, u, r.0, r.1, fetched, ping);
  }

  function Approved(ns: string, version: string, plans: seq<InstallPlan>): seq<InstallPlan> {
    var plan := FirstPlan(plans, ns, version);
    if plan.None? then plans else Replace(plans, plan.value, plan.value.(approved := true))
  }

  /** From the search for the plan to the end of the pass. */
  ghost predicate PlanHandled(st: Settings, u: Uid, c: Cluster, version: string, fetched: Option<string>, ping: string, c': Cluster) {
    && Served(st, u, c, c') && c'.plans == Approved(c.instances[u].namespace, version, c.plans)
    && if FirstPlan(c.plans, c.instances[u].namespace, version).None? then c'.csvs == c.csvs && c'.config == c.config
       else CsvHandled(st, u, c, fetched, ping, c')
  }

  lemma RestFindPlan(st: Settings, u: Uid, c: Cluster, p: Pass, version: string, fetched: Option<string>, ping: string)
    requires p.stage.FindPlan? && Current(st, u, c, p) && Asking(st, p, fetched) && Claimable(u, c.config)
    requires Wants(st, u, p.base, fetched, c.config).Ok? && GetRecommendedOLSVersion(st.olsVersion) == Ok(version)
    ensures PlanHandled(st, u, c, version, fetched, ping, Rest(st, u, c, p, ping).0)
  {
    var x := Fine(ping);
    var p1 := AfterFindPlan(p, SelectPlan(st, c, p, x));
    assert PassStep(st, u, c, p, x) == (c, p1);
    if p1.stage.Finish? {
      FinishWish(st, u, c, p1, ping);
    } else {
      RestApprove(st, u, c, p1, version, fetched, ping);
    }
  }

  lemma RestApprove(st: Settings, u: Uid, c: Cluster, p: Pass, version: string, fetched: Option<string>, ping: string)
    requires p.stage.ApprovePlan? && FirstPlan(c.plans, p.base.namespace, version) == Some(p.stage.plan)
    requires Current(st, u, c, p) && Asking(st, p, fetched) && Claimable(u, c.config)
    requires Wants(st, u, p.base, fetched, c.config).Ok?
    ensures PlanHandled(st, u, c, version, fetched, ping, Rest(st, u, c, p, ping).0)
  {
    var x := Fine(ping);
    var r := ApproveStep(c, p, p.stage.plan, x);
    assert PassStep(st, u, c, p, x) == r;
    RestFindCsv(st, u, r.0, r.1, fetched, ping);
  }

  // -------------------------------------------------------------- the Subscription

  predicate SubInPlace(u: Uid, c: Cluster, version: string)
    requires u in c.instances
  {
    var sub := GetSub(c, SubscriptionKey(u, c.instances[u]));
    sub.Some? && sub == Some(DesiredSubscription(version, u, c.instances[u], sub))
  }

  predicate SubLinked(u: Uid, c: Cluster)
    requires u in c.instances
  {
    var sub := GetSub(c, SubscriptionKey(u, c.instances[u]));
    sub.Some? && sub.value.installPlanRef.Some?
  }

  /** A whole pass of an instance that holds its finalizer: it puts the
      Subscription in place, or waits for the link, or goes on to the plan. */
  ghost predicate SubHandled(st: Settings, u: Uid, c: Cluster, version: string, fetched: Option<string>, ping: string, c': Cluster)
    requires u in c.instances
  {
    var i := c.instances[u];
    var key := SubscriptionKey(u, i);
    if !SubInPlace(u, c, version) then
      && Held(c', u) && SameWish(st, i, c'.instances[u])
      && c'.subscriptions == c.subscriptions[key := DesiredSubscription(version, u, i, GetSub(c, key))]
      && c'.plans == c.plans && c'.csvs == c.csvs && c'.config == c.config
    else if !SubLinked(u, c) then Served(st, u, c, c') && c'.plans == c.plans && c'.csvs == c.csvs && c'.config == c.config
    else PlanHandled(st, u, c, version, fetched, ping, c')
  }

  lemma RestReadSub(st: Settings, u: Uid, c: Cluster, p: Pass, version: string, fetched: Option<string>, ping: string)
    requires p.stage.ReadSub? && Current(st, u, c, p) && Asking(st, p, fetched) && Claimable(u, c.config)
    requires Wants(st, u, p.base, fetched, c.config).Ok? && GetRecommendedOLSVersion(st.olsVersion) == Ok(version)
    ensures SubHandled(st, u, c, version, fetched, ping, Rest(st, u, c, p, ping).0)
  {
    var x := Fine(ping);
    var sub := GetSub(c, SubscriptionKey(u, p.base));
    var p1 := AfterReadSub(st, u, p, See(x, sub));
    assert PassStep(st, u, c, p, x) == (c, p1);
    if p1.stage.Finish? {
      FinishWish(st, u, c, p1, ping);
    } else if p1.stage.FindPlan? {
      RestFindPlan(st, u, c, p1, version, fetched, ping);
    } else {
      RestWriteSub(st, u, c, p1, version, ping);
    }
  }

  lemma RestWriteSub(st: Settings, u: Uid, c: Cluster, p: Pass, version: string, ping: string)
    requires p.stage == WriteSub(GetSub(c, SubscriptionKey(u, p.base))) && Current(st, u, c, p)
    requires GetRecommendedOLSVersion(st.olsVersion) == Ok(version)
    ensures var c' := Rest(st, u, c, p, ping).0;
            var key := SubscriptionKey(u, p.base);
            && Held(c', u) && SameWish(st, p.base, c'.instances[u])
            && c'.subscriptions == c.subscriptions[key := DesiredSubscription(version, u, p.base, GetSub(c, key))]
            && c'.plans == c.plans && c'.csvs == c.csvs && c'.config == c.config
  {
    var x := Fine(ping);
    var r := WriteSubStep(st, u, c, p, p.stage.sub, x);
    assert PassStep(st, u, c, p, x) == r;
    FinishWish(st, u, r.0, r.1, ping);
  }

  /** No matching CSV, or one that u's own CSV or Subscription vouches for. */
  predicate NotForeign(u: Uid, c: Cluster)
    requires u in c.instances
  {
    FirstCsv(c.csvs).Some? ==> !Foreign(u, FirstCsv(c.csvs).value, GetSub(c, SubscriptionKey(u, c.instances[u])))
  }

  lemma RestFindForeign(st: Settings, u: Uid, c: Cluster, p: Pass, version: string, fetched: Option<string>, ping: string)
    requires p.stage.FindForeign? && Current(st, u, c, p) && Asking(st, p, fetched) && Claimable(u, c.config)
    requires Wants(st, u, p.base, fetched, c.config).Ok? && GetRecommendedOLSVersion(st.olsVersion) == Ok(version)
    requires NotForeign(u, c)
    ensures SubHandled(st, u, c, version, fetched, ping, Rest(st, u, c, p, ping).0)
  {
    var x := Fine(ping);
    var p1 := AfterFindForeign(p, See(x, FirstCsv(c.csvs)));
    assert PassStep(st, u, c, p, x) == (c, p1);
    if p1.stage.ReadSub? {
      RestReadSub(st, u, c, p1, version, fetched, ping);
    } else {
      var p2 := AfterCheckSub(u, p1, p1.stage.csv, See(x, GetSub(c, SubscriptionKey(u, p.base))));
      assert PassStep(st, u, c, p1, x) == (c, p2);
      RestReadSub(st, u, c, p2, version, fetched, ping);
    }
  }

  /** The conditions under which convergence is promised: the instance is not
      being deleted, the OLS version is configured, no foreign CSV is in the
      way, and the OLSConfig can be claimed and patched. */
  ghost predicate Promising(st: Settings, u: Uid, c: Cluster, version: string, fetched: Option<string>) {
    && u in c.instances && !c.instances[u].deleting && GetRecommendedOLSVersion(st.olsVersion) == Ok(version)
    && NotForeign(u, c) && Claimable(u, c.config) && Wants(st, u, c.instances[u], fetched, c.config).Ok?
  }

  lemma ForwardPass(st: Settings, u: Uid, c: Cluster, version: string, fetched: Option<string>, ping: string)
    requires Promising(st, u, c, version, fetched)
    ensures var c' := WholePass(st, u, c, fetched, ping).0;
            if Held(c, u) then SubHandled(st, u, c, version, fetched, ping, c')
            else OnlyInstance(u, c, c') && Held(c', u) && SameWish(st, c.instances[u], c'.instances[u])
  {
    var p := Begin(st, c.instances[u], fetched);
    assert LightspeedReady in p.conditions;
    if Held(c, u) {
      RestFindForeign(st, u, c, p, version, fetched, ping);
    } else {
      FinishWish(st, u, c, p, ping);
    }
  }

  // ------------------------------------------------------------------ the measure

  /** Which gates on the way to Ready are open. */
  datatype Gates = Gates(held: bool, sub: bool, plan: bool, approved: bool, csv: bool,
                         owned: bool, succeeded: bool, config: bool, ready: bool)
  {
    /** The first gate that is still shut. */
    function Level(): nat {
      if !held then 9 else if !sub then 8 else if !plan then 7 else if !approved then 6 else if !csv then 5
      else if !owned then 4 else if !succeeded then 3 else if !config then 2 else if !ready then 1 else 0
    }
  }

  function GatesOf(st: Settings, u: Uid, c: Cluster, version: string, fetched: Option<string>): Gates
    requires u in c.instances
  {
    var i := c.instances[u];
    var plan := FirstPlan(c.plans, i.namespace, version);
    var csv := FirstCsv(c.csvs);
    Gates(Held(c, u), SubInPlace(u, c, version), SubLinked(u, c) && plan.Some?, plan.Some? && plan.value.approved,
          csv.Some?, csv.Some? && csv.value.owners == InstanceOwner(u, i), csv.Some? && csv.value.phase == PHASE_SUCCEEDED,
          c.config.Some? && Wants(st, u, i, fetched, c.config) == Ok(c.config.value),
          c.config.Some? && SaysReady(c.config.value.body))
  }

  /** How far the instance is from Ready. */
  function Rank(st: Settings, u: Uid, c: Cluster, version: string, fetched: Option<string>): nat
    requires u in c.instances
  {
    GatesOf(st, u, c, version, fetched).Level()
  }

  /** The OLS operator changed at most the status of the OLSConfig, and did
      not take back a Ready. */
  ghost predicate Reports(cfg: OLSConfig, status: Json, config': Option<OLSConfig>) {
    && config' == Some(WithStatus(cfg, status))
    && (SaysReady(cfg.body) ==> SaysReady(WithStatus(cfg, status).body))
  }

  /** What OLM and the OLS operator may do at any time: link Subscriptions, add
      plans, install, move a CSV through its phases, report on the OLSConfig.
      They keep what they have produced, and a CSV appears only through u's
      Subscription. */
  ghost predicate Patient(u: Uid, c: Cluster, c': Cluster, version: string)
    requires u in c.instances
  {
    var i := c.instances[u];
    var sub, sub' := GetSub(c, SubscriptionKey(u, i)), GetSub(c', SubscriptionKey(u, i));
    var plan, plan' := FirstPlan(c.plans, i.namespace, version), FirstPlan(c'.plans, i.namespace, version);
    var csv, csv' := FirstCsv(c.csvs), FirstCsv(c'.csvs);
    && u in c'.instances && c'.instances[u] == i
    && (if sub.None? then sub'.None? else
          && sub'.Some? && sub'.value.spec == sub.value.spec && sub'.value.owners == sub.value.owners
          && (sub.value.installPlanRef.Some? ==> sub'.value.installPlanRef.Some?))
    && (plan.Some? ==> plan'.Some? && (plan.value.approved ==> plan'.value.approved))
    && (if csv.None? then csv'.Some? ==> sub.Some? && OwnedBy(sub.value.owners, u) else
          && csv'.Some? && csv'.value.owners == csv.value.owners
          && (csv.value.phase == PHASE_SUCCEEDED ==> csv'.value.phase == PHASE_SUCCEEDED))
    && (c'.config == c.config || (c.config.Some? && exists status :: Reports(c.config.value, status, c'.config)))
  }

  /** A time at which they do their part: the Subscription gets its plan, an
      approved plan its CSV, the CSV succeeds and the OLSConfig is reported
      ready. */
  ghost predicate Helpful(u: Uid, c: Cluster, c': Cluster, version: string)
    requires u in c.instances
  {
    var i := c.instances[u];
    var sub' := GetSub(c', SubscriptionKey(u, i));
    var plan := FirstPlan(c.plans, i.namespace, version);
    var csv, csv' := FirstCsv(c.csvs), FirstCsv(c'.csvs);
    && Patient(u, c, c', version)
    && (sub'.Some? ==> sub'.value.installPlanRef.Some? && FirstPlan(c'.plans, i.namespace, version).Some?)
    && (csv.None? && sub'.Some? && plan.Some? && plan.value.approved ==> csv'.Some?)
    && (csv.Some? && csv'.Some? ==> csv'.value.phase == PHASE_SUCCEEDED)
    && (c'.config.Some? ==> SaysReady(c'.config.value.body))
  }

  lemma PatienceKeeps(st: Settings, u: Uid, c: Cluster, c': Cluster, version: string, fetched: Option<string>)
    requires Promising(st, u, c, version, fetched) && Patient(u, c, c', version)
    ensures Promising(st, u, c', version, fetched)
    ensures c.config.Some? && Wants(st, u, c.instances[u], fetched, c.config) == Ok(c.config.value) ==>
              && c'.config.Some? && Wants(st, u, c.instances[u], fetched, c'.config) == Ok(c'.config.value)
              && (SaysReady(c.config.value.body) ==> SaysReady(c'.config.value.body))
  {
    if c'.config != c.config {
      var status :| Reports(c.config.value, status, c'.config);
      StatusCommutes(st, u, Asker(st, c.instances[u], fetched), c.config.value, status);
    }
  }

  lemma EnvironmentGates(st: Settings, u: Uid, c: Cluster, c': Cluster, version: string, fetched: Option<string>)
    requires Promising(st, u, c, version, fetched) && Patient(u, c, c', version)
    ensures var g, g' := GatesOf(st, u, c, version, fetched), GatesOf(st, u, c', version, fetched);
            && g'.held == g.held && g'.sub == g.sub && (g.plan ==> g'.plan && (g.approved ==> g'.approved))
            && (g.csv ==> g'.csv && g'.owned == g.owned && (g.succeeded ==> g'.succeeded))
            && (g.config ==> g'.config && (g.ready ==> g'.ready))
            && (Helpful(u, c, c', version) ==>
                  && (g.sub ==> g'.plan) && (g.sub && g.plan && g.approved ==> g'.csv)
                  && (g.csv ==> g'.succeeded) && (g'.config ==> g'.ready))
  {
    PatienceKeeps(st, u, c, c', version, fetched);
  }

  /** The environment never moves the instance away from Ready, and when it
      does its part it opens the gates that are not the operator's own. */
  lemma EnvironmentRank(st: Settings, u: Uid, c: Cluster, c': Cluster, version: string, fetched: Option<string>)
    requires Promising(st, u, c, version, fetched) && Patient(u, c, c', version)
    ensures u in c'.instances
    ensures var r, r' := Rank(st, u, c, version, fetched), Rank(st, u, c', version, fetched);
            r' <= r && (Helpful(u, c, c', version) && (r == 7 || r == 5 || r == 3 || r == 1) ==> r' < r)
  {
    EnvironmentGates(st, u, c, c', version, fetched);
  }

  /** What a pass made of the OLSConfig is what it wants, and stays so. */
  lemma WantIsFixed(st: Settings, u: Uid, i: Instance, fetched: Option<string>, config: Option<OLSConfig>, ping: string, config': Option<OLSConfig>)
    requires Wants(st, u, i, fetched, config).Ok? && Claimable(u, config)
    requires Became(Wants(st, u, i, fetched, config).value, ping, config')
    ensures config'.Some? && Wants(st, u, i, fetched, config') == Ok(config'.value) && Claimable(u, config')
  {
    var asker := Asker(st, i, fetched);
    assert LightspeedReady in asker.status.conditions;
    var cfg := if config.Some? then config.value else EMPTY_CONFIG;
    PatchAbsorption(st, u, asker, asker, cfg);
    var want := PatchOLSConfig(st, u, asker, cfg).value;
    PingCommutes(st, u, asker, want, ping);
    PingOwner(want, ping);
  }

  /** The gates as seen by an instance that asks for the same. */
  lemma RankOfWish(st: Settings, u: Uid, c: Cluster, i': Instance, version: string, fetched: Option<string>)
    requires u in c.instances && SameWish(st, c.instances[u], i')
    ensures var c' := c.(instances := c.instances[u := i']);
            && SubInPlace(u, c', version) == SubInPlace(u, c, version) && SubLinked(u, c') == SubLinked(u, c)
            && NotForeign(u, c') == NotForeign(u, c)
            && Wants(st, u, i', fetched, c.config) == Wants(st, u, c.instances[u], fetched, c.config)
  {
    var key := SubscriptionKey(u, c.instances[u]);
    WishKept(st, u, c.instances[u], i', fetched, c.config, version, GetSub(c, key));
  }

  /** An undisturbed pass keeps the promise, never moves away from Ready, and
      opens the gates that are the operator's own. */
  lemma PassRank(st: Settings, u: Uid, c: Cluster, version: string, fetched: Option<string>, ping: string)
    requires Promising(st, u, c, version, fetched)
    ensures var c' := WholePass(st, u, c, fetched, ping).0;
            && Promising(st, u, c', version, fetched)
            && (var r, r' := Rank(st, u, c, version, fetched), Rank(st, u, c', version, fetched);
                r' <= r && (r == 9 || r == 8 || r == 6 || r == 4 || r == 2 ==> r' < r))
  {
    var c' := WholePass(st, u, c, fetched, ping).0;
    ForwardPass(st, u, c, version, fetched, ping);
    if !Held(c, u) {
      IdleRank(st, u, c, c', version, fetched);
    } else if !SubInPlace(u, c, version) {
      SubRank(st, u, c, c', version, fetched);
    } else if !SubLinked(u, c) || FirstPlan(c.plans, c.instances[u].namespace, version).None? {
      IdleRank(st, u, c, c', version, fetched);
    } else {
      PlanRank(st, u, c, c', version, fetched, ping);
    }
  }

  lemma IdleRank(st: Settings, u: Uid, c: Cluster, c': Cluster, version: string, fetched: Option<string>)
    requires Promising(st, u, c, version, fetched) && Held(c', u) && SameWish(st, c.instances[u], c'.instances[u])
    requires c'.subscriptions == c.subscriptions && c'.plans == c.plans && c'.csvs == c.csvs && c'.config == c.config
    requires !Held(c, u) || !SubLinked(u, c) || FirstPlan(c.plans, c.instances[u].namespace, version).None? || !SubInPlace(u, c, version)
    ensures Promising(st, u, c', version, fetched)
    ensures Rank(st, u, c', version, fetched) <= Rank(st, u, c, version, fetched)
    ensures !Held(c, u) ==> Rank(st, u, c', version, fetched) < Rank(st, u, c, version, fetched)
    ensures Held(c, u) ==> Rank(st, u, c, version, fetched) >= 7
  {
    RankOfWish(st, u, c, c'.instances[u], version, fetched);
    assert c.(instances := c.instances[u := c'.instances[u]]).config == c.config;
  }

  lemma SubRank(st: Settings, u: Uid, c: Cluster, c': Cluster, version: string, fetched: Option<string>)
    requires Promising(st, u, c, version, fetched) && Held(c, u) && !SubInPlace(u, c, version)
    requires Held(c', u) && SameWish(st, c.instances[u], c'.instances[u])
    requires c'.plans == c.plans && c'.csvs == c.csvs && c'.config == c.config
    requires var key := SubscriptionKey(u, c.instances[u]);
             c'.subscriptions == c.subscriptions[key := DesiredSubscription(version, u, c.instances[u], GetSub(c, key))]
    ensures Promising(st, u, c', version, fetched) && Rank(st, u, c', version, fetched) < Rank(st, u, c, version, fetched)
  {
    var key := SubscriptionKey(u, c.instances[u]);
    var sub := DesiredSubscription(version, u, c.instances[u], GetSub(c, key));
    WishKept(st, u, c.instances[u], c'.instances[u], fetched, c.config, version, Some(sub));
    assert GetSub(c', key) == Some(sub) && sub.owners[0].uid == u;
  }

  /** The approved plan and the adopted CSV are the first ones afterwards. */
  lemma PlanAndCsvAfter(u: Uid, i: Instance, ns: string, version: string, plans: seq<InstallPlan>, csvs: seq<Csv>)
    ensures FirstPlan(plans, ns, version).Some? ==>
              FirstPlan(Approved(ns, version, plans), ns, version) == Some(FirstPlan(plans, ns, version).value.(approved := true))
    ensures FirstCsv(csvs).Some? ==>
              FirstCsv(Adopted(u, i, csvs)) == Some(FirstCsv(csvs).value.(owners := InstanceOwner(u, i)))
  {
    var plan := FirstPlan(plans, ns, version);
    if plan.Some? { FirstPlanReplaced(plans, ns, version, plan.value, plan.value.(approved := true)); }
    if FirstCsv(csvs).Some? { AdoptedFirst(u, i, csvs); }
  }

  /** A pass that reached the plan leaves the Subscription and the OLSConfig
      in a state it is content with. */
  lemma PlanPromise(st: Settings, u: Uid, c: Cluster, c': Cluster, version: string, fetched: Option<string>, ping: string)
    requires Promising(st, u, c, version, fetched) && SubInPlace(u, c, version) && SubLinked(u, c)
    requires FirstPlan(c.plans, c.instances[u].namespace, version).Some?
    requires PlanHandled(st, u, c, version, fetched, ping, c')
    ensures Promising(st, u, c', version, fetched) && SubInPlace(u, c', version) && SubLinked(u, c')
    ensures FirstCsv(c.csvs).Some? && FirstCsv(c.csvs).value.phase == PHASE_SUCCEEDED ==>
              c'.config.Some? && Wants(st, u, c'.instances[u], fetched, c'.config) == Ok(c'.config.value)
  {
    var i, i' := c.instances[u], c'.instances[u];
    var key := SubscriptionKey(u, i);
    WishKept(st, u, i, i', fetched, c'.config, version, GetSub(c, key));
    assert GetSub(c', key) == GetSub(c, key);
    PlanAndCsvAfter(u, i, i.namespace, version, c.plans, c.csvs);
    assert GetSub(c, key).value.owners[0].uid == u;
    if FirstCsv(c.csvs).Some? && FirstCsv(c.csvs).value.phase == PHASE_SUCCEEDED {
      WantIsFixed(st, u, i, fetched, c.config, ping, c'.config);
    }
  }

  lemma PlanRank(st: Settings, u: Uid, c: Cluster, c': Cluster, version: string, fetched: Option<string>, ping: string)
    requires Promising(st, u, c, version, fetched) && Held(c, u) && SubInPlace(u, c, version) && SubLinked(u, c)
    requires FirstPlan(c.plans, c.instances[u].namespace, version).Some?
    requires PlanHandled(st, u, c, version, fetched, ping, c')
    ensures Promising(st, u, c', version, fetched)
    ensures var r, r' := Rank(st, u, c, version, fetched), Rank(st, u, c', version, fetched);
            r' <= r <= 6 && (r == 6 || r == 4 || r == 2 ==> r' < r)
  {
    PlanPromise(st, u, c, c', version, fetched, ping);
    PlanAndCsvAfter(u, c.instances[u], c.instances[u].namespace, version, c.plans, c.csvs);
  }

  // --------------------------------------------------------------- convergence

  /** Everything is as u wants it. */
  ghost predicate Settled(st: Settings, u: Uid, c: Cluster, version: string, fetched: Option<string>) {
    Promising(st, u, c, version, fetched) && Rank(st, u, c, version, fetched) == 0
  }

  // ------------------------------------------------------- the pass that finds all done

  /** The pass with all its work found done. */
  function Success(p: Pass, log: Log): Pass {
    p.(stage := Finish(DONE), log := log, conditions := p.conditions[OperatorReady := IsTrue][LightspeedReady := IsTrue])
  }

  /** The rest of the pass changes nothing but the instance, and succeeds. */
  ghost predicate Succeeds(st: Settings, u: Uid, c: Cluster, p: Pass, ping: string) {
    exists log :: Rest(st, u, c, p, ping) == FinishStep(u, c, Success(p, log), Fine(ping))
  }

  /** If one call leads from p to p1 and p1 succeeds, so does p. */
  lemma SucceedsBefore(st: Settings, u: Uid, c: Cluster, p: Pass, p1: Pass, ping: string)
    requires Succeeds(st, u, c, p1, ping) && Rest(st, u, c, p, ping) == Rest(st, u, c, p1, ping)
    requires p1 == p.(stage := p1.stage, log := p1.log)
    ensures Succeeds(st, u, c, p, ping)
  {
    var log :| Rest(st, u, c, p1, ping) == FinishStep(u, c, Success(p1, log), Fine(ping));
    assert Success(p1, log) == Success(p, log);
  }

  lemma {:induction false} ReplaceSame<T>(s: seq<T>, x: T)
    requires x in s
    ensures Replace(s, x, x) == s
  {
    if s[0] != x { ReplaceSame(s[1..], x); }
  }

  lemma SucceedsCheckReady(st: Settings, u: Uid, c: Cluster, p: Pass, ping: string)
    requires p.stage.CheckReady? && OperatorTrue(p)
    requires c.config.Some? && SaysReady(c.config.value.body)
    ensures Succeeds(st, u, c, p, ping)
  {
    var x := Fine(ping);
    var p1 := AfterCheckReady(p, See(x, c.config));
    assert PassStep(st, u, c, p, x) == (c, p1);
    assert p.conditions[OperatorReady := IsTrue] == p.conditions;
    assert p1 == Success(p, p1.log);
    RestFinish(st, u, c, p1, ping);
  }

  lemma SucceedsReadConfig(st: Settings, u: Uid, c: Cluster, p: Pass, want: OLSConfig, ping: string)
    requires p.stage.ReadConfig? && OperatorTrue(p) && Current(st, u, c, p) && Claimable(u, c.config)
    requires c.config == Some(want) && SaysReady(want.body) && Attempt(st, u, p, c.config) == Ok(want)
    ensures Succeeds(st, u, c, p, ping)
  {
    RestReadConfig(st, u, c, p, want, ping);
    assert c.(config := Some(want)) == c;
    var p1 := PatchDone(p, c.config, want);
    SucceedsCheckReady(st, u, c, p1, ping);
    SucceedsBefore(st, u, c, p, p1, ping);
  }

  lemma SucceedsConfirmCsv(st: Settings, u: Uid, c: Cluster, p: Pass, want: OLSConfig, fetched: Option<string>, ping: string)
    requires p.stage.ConfirmCsv? && Current(st, u, c, p) && Asking(st, p, fetched) && Claimable(u, c.config)
    requires FirstCsv(c.csvs).Some? && Complete(u, FirstCsv(c.csvs).value)
    requires c.config == Some(want) && SaysReady(want.body)
    requires Wants(st, u, p.base, fetched, c.config) == Ok(want)
    ensures Succeeds(st, u, c, p, ping)
  {
    var x := Fine(ping);
    var p1 := p.Set(OperatorReady, IsTrue).Note(OperatorComplete(FirstCsv(c.csvs).value)).To(ReadConfig);
    assert PassStep(st, u, c, p, x) == (c, p1);
    AttemptIsWant(st, u, p1, fetched, c.config);
    SucceedsReadConfig(st, u, c, p1, want, ping);
    SucceedsUnmarked(st, u, c, p, p1, ping);
  }

  lemma SucceedsUnmarked(st: Settings, u: Uid, c: Cluster, p: Pass, p1: Pass, ping: string)
    requires Succeeds(st, u, c, p1, ping) && Rest(st, u, c, p, ping) == Rest(st, u, c, p1, ping)
    requires p1 == p.Set(OperatorReady, IsTrue).(stage := p1.stage, log := p1.log)
    ensures Succeeds(st, u, c, p, ping)
  {
    var log :| Rest(st, u, c, p1, ping) == FinishStep(u, c, Success(p1, log), Fine(ping));
    assert p.conditions[OperatorReady := IsTrue][OperatorReady := IsTrue] == p.conditions[OperatorReady := IsTrue];
    assert Success(p1, log) == Success(p, log);
  }

  /** Adopting a CSV that is owned already, and approving a plan that is
      approved already, are calls that change nothing. */
  lemma AdoptAgain(st: Settings, u: Uid, c: Cluster, p: Pass, csv: Csv, ping: string)
    requires p.stage.FindCsv? && FirstCsv(c.csvs) == Some(csv) && csv.owners == InstanceOwner(u, p.base)
    ensures Rest(st, u, c, p, ping) == Rest(st, u, c, p.Note(CsvFound(csv)).Note(CsvAdopted(csv)).To(ConfirmCsv), ping)
  {
    var x := Fine(ping);
    var p1 := p.Note(CsvFound(csv)).To(AdoptCsv(csv));
    assert PassStep(st, u, c, p, x) == (c, p1);
    ReplaceSame(c.csvs, csv);
    assert csv.(owners := InstanceOwner(u, p.base)) == csv;
    assert PassStep(st, u, c, p1, x) == (c, p.Note(CsvFound(csv)).Note(CsvAdopted(csv)).To(ConfirmCsv));
  }

  lemma ApproveAgain(st: Settings, u: Uid, c: Cluster, p: Pass, version: string, plan: InstallPlan, ping: string)
    requires p.stage.FindPlan? && GetRecommendedOLSVersion(st.olsVersion) == Ok(version)
    requires FirstPlan(c.plans, p.base.namespace, version) == Some(plan) && plan.approved
    ensures Rest(st, u, c, p, ping) == Rest(st, u, c, p.Note(PlanSelected(plan)).Note(PlanApproved(plan)).To(FindCsv), ping)
  {
    var x := Fine(ping);
    var p1 := p.Note(PlanSelected(plan)).To(ApprovePlan(plan));
    assert PassStep(st, u, c, p, x) == (c, p1);
    ReplaceSame(c.plans, plan);
    assert plan.(approved := true) == plan;
    assert PassStep(st, u, c, p1, x) == (c, p1.Note(PlanApproved(plan)).To(FindCsv));
  }

  lemma SucceedsFindCsv(st: Settings, u: Uid, c: Cluster, p: Pass, version: string, fetched: Option<string>, ping: string)
    requires p.stage.FindCsv? && Current(st, u, c, p) && Asking(st, p, fetched) && Settled(st, u, c, version, fetched)
    ensures Succeeds(st, u, c, p, ping)
  {
    var csv := FirstCsv(c.csvs).value;
    var p1 := p.Note(CsvFound(csv)).Note(CsvAdopted(csv)).To(ConfirmCsv);
    AdoptAgain(st, u, c, p, csv, ping);
    assert csv.owners[0].uid == u;
    SucceedsConfirmCsv(st, u, c, p1, c.config.value, fetched, ping);
    SucceedsBefore(st, u, c, p, p1, ping);
  }

  lemma SucceedsFindPlan(st: Settings, u: Uid, c: Cluster, p: Pass, version: string, fetched: Option<string>, ping: string)
    requires p.stage.FindPlan? && Current(st, u, c, p) && Asking(st, p, fetched) && Settled(st, u, c, version, fetched)
    ensures Succeeds(st, u, c, p, ping)
  {
    var plan := FirstPlan(c.plans, p.base.namespace, version).value;
    var p1 := p.Note(PlanSelected(plan)).Note(PlanApproved(plan)).To(FindCsv);
    ApproveAgain(st, u, c, p, version, plan, ping);
    SucceedsFindCsv(st, u, c, p1, version, fetched, ping);
    SucceedsBefore(st, u, c, p, p1, ping);
  }

  lemma SucceedsReadSub(st: Settings, u: Uid, c: Cluster, p: Pass, version: string, fetched: Option<string>, ping: string)
    requires p.stage.ReadSub? && Current(st, u, c, p) && Asking(st, p, fetched) && Settled(st, u, c, version, fetched)
    ensures Succeeds(st, u, c, p, ping)
  {
    var x := Fine(ping);
    var p1 := AfterReadSub(st, u, p, See(x, GetSub(c, SubscriptionKey(u, p.base))));
    assert PassStep(st, u, c, p, x) == (c, p1);
    SucceedsFindPlan(st, u, c, p1, version, fetched, ping);
    SucceedsBefore(st, u, c, p, p1, ping);
  }

  lemma SucceedsFindForeign(st: Settings, u: Uid, c: Cluster, p: Pass, version: string, fetched: Option<string>, ping: string)
    requires p.stage.FindForeign? && Current(st, u, c, p) && Asking(st, p, fetched) && Settled(st, u, c, version, fetched)
    ensures Succeeds(st, u, c, p, ping)
  {
    var x := Fine(ping);
    var csv := FirstCsv(c.csvs).value;
    var p1 := p.To(CheckSub(csv));
    assert PassStep(st, u, c, p, x) == (c, p1);
    var p2 := AfterCheckSub(u, p1, csv, See(x, GetSub(c, SubscriptionKey(u, p.base))));
    assert PassStep(st, u, c, p1, x) == (c, p2);
    SucceedsReadSub(st, u, c, p2, version, fetched, ping);
    SucceedsBefore(st, u, c, p, p2, ping);
  }

  /** The instance as a successful pass leaves it. */
  function Satisfied(st: Settings, i: Instance, fetched: Option<string>): Instance {
    var r := Resolve(fetched, i.spec.ocpVersionOverride, i.spec.enableOcpRag);
    var rag := if r.RagTrue() then IsTrue else IsFalse;
    i.(spec := WithDefaults(st, i.spec),
       status := Status(map[OperatorReady := IsTrue, LightspeedReady := IsTrue, OcpRagReady := rag, Ready := rag], r.active))
  }

  lemma FinalConditions(st: Settings, i: Instance, fetched: Option<string>, log: Log)
    requires i.finalizer && !i.deleting
    ensures var p := Final(Success(Begin(st, i, fetched), log));
            p.conditions == Satisfied(st, i, fetched).status.conditions && MergeInstance(p, i) == Satisfied(st, i, fetched)
  {
    var p := Success(Begin(st, i, fetched), log);
    assert p.conditions[OcpRagReady] == Satisfied(st, i, fetched).status.conditions[OcpRagReady];
    assert Final(p).conditions == Satisfied(st, i, fetched).status.conditions;
  }

  /** The end of convergence: the pass reports Ready exactly when the OCP RAG
      condition holds, touches nothing but the status and the defaulted
      fields of its own instance, and from then on every further pass leaves
      the whole cluster exactly as it is. */
  lemma ReadyAndStable(st: Settings, u: Uid, c: Cluster, version: string, fetched: Option<string>, ping: string, ping': string)
    requires Settled(st, u, c, version, fetched)
    ensures var (c', p) := WholePass(st, u, c, fetched, ping);
            && c' == c.(instances := c.instances[u := Satisfied(st, c.instances[u], fetched)])
            && p.conditions == c'.instances[u].status.conditions
            && (p.conditions[Ready] == IsTrue <==>
                  (c.instances[u].spec.enableOcpRag ==> DetectOCPVersion(fetched).Ok?))
            && WholePass(st, u, c', fetched, ping').0 == c'
  {
    PassWhenSettled(st, u, c, version, fetched, ping);
    var c' := WholePass(st, u, c, fetched, ping).0;
    PassRank(st, u, c, version, fetched, ping);
    PassWhenSettled(st, u, c', version, fetched, ping');
    var i := c.instances[u];
    ResolutionEndToEnd(fetched, i.spec.ocpVersionOverride, i.spec.enableOcpRag);
    assert Satisfied(st, Satisfied(st, i, fetched), fetched) == Satisfied(st, i, fetched);
    assert c'.instances[u := c'.instances[u]] == c'.instances;
  }

  lemma PassWhenSettled(st: Settings, u: Uid, c: Cluster, version: string, fetched: Option<string>, ping: string)
    requires Settled(st, u, c, version, fetched)
    ensures var i := Satisfied(st, c.instances[u], fetched);
            && WholePass(st, u, c, fetched, ping).0 == c.(instances := c.instances[u := i])
            && WholePass(st, u, c, fetched, ping).1.conditions == i.status.conditions
  {
    var p := Begin(st, c.instances[u], fetched);
    assert LightspeedReady in p.conditions;
    SucceedsFindForeign(st, u, c, p, version, fetched, ping);
    var log :| Rest(st, u, c, p, ping) == FinishStep(u, c, Success(p, log), Fine(ping));
    FinalConditions(st, c.instances[u], fetched, log);
  }
}
