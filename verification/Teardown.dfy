/** Progress of teardown: what a delete pass achieves. */
module Teardown {
  import opened Wrappers
  import opened Cluster
  import opened Install
  import opened OlsConfig
  import opened Reconcile
  import opened Runs
  import opened Orphans
  import opened Solo
  import opened Lock

  // ---------------------------------------------------------------- the measure

  function PlanWeight(s: seq<InstallPlan>): nat {
    if s == [] then 0 else (if s[0].deleting then 1 else 2) + PlanWeight(s[1..])
  }

  function CsvWeight(s: seq<Csv>): nat {
    if s == [] then 0 else (if s[0].deleting then 1 else 2) + CsvWeight(s[1..])
  }

  /** The OLSConfig, its missing deletion mark, and u's own hold on it. */
  function ConfigWeight(st: Settings, u: Uid, config: Option<OLSConfig>): nat {
    match config
    case None => 0
    case Some(cfg) =>
      1 + (if cfg.deleting then 0 else 1) + (if cfg.Owner() == u && st.finalizer in cfg.finalizers then 1 else 0)
  }

  function Weight(st: Settings, u: Uid, c: Cluster): nat {
    ConfigWeight(st, u, c.config) + PlanWeight(c.plans) + CsvWeight(c.csvs)
  }

  lemma {:induction false} DeletePlanWeight(s: seq<InstallPlan>, key: Key)
    ensures DeletePlan(s, key).Some? ==> PlanWeight(DeletePlan(s, key).value) <= PlanWeight(s)
    ensures DeletePlan(s, key).Some? && PlanWeight(DeletePlan(s, key).value) == PlanWeight(s) ==>
              DeletePlan(s, key).value == s
  {
    if s != [] && s[0].key != key { DeletePlanWeight(s[1..], key); }
  }

  lemma {:induction false} DeleteCsvWeight(s: seq<Csv>, key: Key)
    ensures DeleteCsv(s, key).Some? ==> CsvWeight(DeleteCsv(s, key).value) <= CsvWeight(s)
    ensures DeleteCsv(s, key).Some? && CsvWeight(DeleteCsv(s, key).value) == CsvWeight(s) ==>
              DeleteCsv(s, key).value == s
  {
    if s != [] && s[0].key != key { DeleteCsvWeight(s[1..], key); }
  }

  lemma {:induction false} ListedCanBeDeleted(s: seq<InstallPlan>, plan: InstallPlan)
    requires plan in s
    ensures DeletePlan(s, plan.key).Some?
  {
    if s[0].key != plan.key { ListedCanBeDeleted(s[1..], plan); }
  }

  // ------------------------------------------------------------ the uninstallation

  function PlansAfter(plans: seq<InstallPlan>, ns: string, version: string): seq<InstallPlan> {
    var plan := FirstPlan(plans, ns, version);
    if plan.None? || DeletePlan(plans, plan.value.key).None? then plans else DeletePlan(plans, plan.value.key).value
  }

  function CsvsAfter(csvs: seq<Csv>, csv: Csv): seq<Csv> {
    if DeleteCsv(csvs, csv.key).None? then csvs else DeleteCsv(csvs, csv.key).value
  }

  /** A pass that is uninstalling has not let go yet. */
  lemma KeepsHold(st: Settings, u: Uid, p: Pass, o: Outcome)
    requires PassOk(st, u, p) && Uninstalling(p.stage)
    ensures !p.To(Finish(o)).Releasing() && (p.base.finalizer ==> Released(p).Releasing())
  {
  }

  lemma RestExit(st: Settings, u: Uid, c: Cluster, p: Pass, ping: string)
    requires p.stage.Finish? && Held(c, u) && !p.Releasing()
    ensures OnlyInstance(u, c, Rest(st, u, c, p, ping).0) && Held(Rest(st, u, c, p, ping).0, u)
  {
    RestFinish(st, u, c, p, ping);
    FinishKeeps(u, c, p, Fine(ping));
  }

  lemma RestRelease(st: Settings, u: Uid, c: Cluster, p: Pass, ping: string)
    requires p.Releasing()
    ensures OnlyInstance(u, c, Rest(st, u, c, p, ping).0) && !Held(Rest(st, u, c, p, ping).0, u)
  {
    RestFinish(st, u, c, p, ping);
    FinishReleases(u, c, p, ping);
  }

  /** The last look for a plan decides whether the instance is let go. */
  lemma RestConfirmNoPlan(st: Settings, u: Uid, c: Cluster, p: Pass, version: string, ping: string)
    requires PassOk(st, u, p) && p.stage.ConfirmNoPlan? && p.base.finalizer && Held(c, u)
    requires GetRecommendedOLSVersion(st.olsVersion) == Ok(version)
    ensures var c' := Rest(st, u, c, p, ping).0;
            OnlyInstance(u, c, c') && (Held(c', u) <==> FirstPlan(c.plans, p.base.namespace, version).Some?)
  {
    var plan := FirstPlan(c.plans, p.base.namespace, version);
    ConfirmNoPlanStep(st, u, c, p, plan, Fine(ping));
    KeepsHold(st, u, p, LATER);
    if plan.Some? {
      RestExit(st, u, c, p.To(Finish(LATER)), ping);
    } else {
      RestRelease(st, u, c, Released(p), ping);
    }
  }

  lemma ConfirmNoPlanStep(st: Settings, u: Uid, c: Cluster, p: Pass, plan: Option<InstallPlan>, x: Input)
    requires p.stage.ConfirmNoPlan? && SelectPlan(st, c, p, x) == Ok(plan)
    ensures PassStep(st, u, c, p, x) == (c, if plan.Some? then p.To(Finish(LATER)) else Released(p))
  {
    assert UninstallStep(st, u, c, p, x) == (c, AfterConfirmNoPlan(p, Ok(plan)));
  }

  /** The end of a delete pass from the point where the CSV has been deleted:
      the instance is let go exactly if no matching CSV and no matching plan
      is left. */
  lemma RestAfterDrop(st: Settings, u: Uid, c: Cluster, p: Pass, version: string, ping: string)
    requires PassOk(st, u, p) && p.stage.ConfirmNoCsv? && p.base.finalizer && Held(c, u)
    requires GetRecommendedOLSVersion(st.olsVersion) == Ok(version)
    ensures var c' := Rest(st, u, c, p, ping).0;
            && OnlyInstance(u, c, c')
            && (Held(c', u) <==> FirstCsv(c.csvs).Some? || FirstPlan(c.plans, p.base.namespace, version).Some?)
  {
    var x := Fine(ping);
    var p1 := AfterConfirmNoCsv(p, See(x, FirstCsv(c.csvs)));
    assert PassStep(st, u, c, p, x) == (c, p1);
    ConfirmNoCsvOk(st, u, c, p, x);
    KeepsHold(st, u, p, LATER);
    if FirstCsv(c.csvs).Some? {
      RestExit(st, u, c, p1, ping);
    } else {
      RestConfirmNoPlan(st, u, c, p1, version, ping);
    }
  }

  /** Everything but plans, CSVs and instance u is as before. */
  predicate Around(u: Uid, c: Cluster, c': Cluster) {
    && c'.subscriptions == c.subscriptions && c'.config == c.config && c'.instances - {u} == c.instances - {u}
  }

  lemma {:induction false} CsvCanBeDeleted(s: seq<Csv>, csv: Csv)
    requires csv in s
    ensures DeleteCsv(s, csv.key).Some?
  {
    if s[0].key != csv.key { CsvCanBeDeleted(s[1..], csv); }
  }

  lemma RestDropCsv(st: Settings, u: Uid, c: Cluster, p: Pass, version: string, ping: string)
    requires PassOk(st, u, p) && p.stage.DropCsv? && p.base.finalizer && Held(c, u) && p.stage.csv in c.csvs
    requires GetRecommendedOLSVersion(st.olsVersion) == Ok(version)
    ensures var c' := Rest(st, u, c, p, ping).0;
            && Around(u, c, c') && c'.plans == c.plans && c'.csvs == CsvsAfter(c.csvs, p.stage.csv)
            && (Held(c', u) <==> FirstCsv(c'.csvs).Some? || FirstPlan(c'.plans, p.base.namespace, version).Some?)
  {
    var x, csv := Fine(ping), p.stage.csv;
    CsvCanBeDeleted(c.csvs, csv);
    var r := DropCsvStep(c, p, csv, x);
    assert PassStep(st, u, c, p, x) == r;
    DropCsvOk(st, u, c, p, x);
    RestAfterDrop(st, u, r.0, r.1, version, ping);
  }

  lemma RestDropPlan(st: Settings, u: Uid, c: Cluster, p: Pass, version: string, ping: string)
    requires PassOk(st, u, p) && p.stage.DropPlan? && p.base.finalizer && Held(c, u)
    requires p.stage.csv in c.csvs && p.stage.plan in c.plans && GetRecommendedOLSVersion(st.olsVersion) == Ok(version)
    ensures var c' := Rest(st, u, c, p, ping).0;
            && Around(u, c, c') && c'.csvs == CsvsAfter(c.csvs, p.stage.csv)
            && DeletePlan(c.plans, p.stage.plan.key) == Some(c'.plans)
            && (Held(c', u) <==> FirstCsv(c'.csvs).Some? || FirstPlan(c'.plans, p.base.namespace, version).Some?)
  {
    var x := Fine(ping);
    ListedCanBeDeleted(c.plans, p.stage.plan);
    var r := DropPlanStep(c, p, p.stage.csv, p.stage.plan, x);
    assert PassStep(st, u, c, p, x) == r;
    DropPlanOk(st, u, c, p, x);
    RestDropCsv(st, u, r.0, r.1, version, ping);
  }

  /** What uninstalling does: nothing but letting go if the first matching CSV
      is absent or not owned; else delete the first plan and that CSV and let
      go if no matching one is left, or nothing at all if no OLS version is
      configured. */
  ghost predicate Uninstalled(st: Settings, u: Uid, ns: string, c: Cluster, c': Cluster) {
    var first, version := FirstCsv(c.csvs), GetRecommendedOLSVersion(st.olsVersion);
    && Around(u, c, c')
    && if first.None? || !OwnedBy(first.value.owners, u) then c'.plans == c.plans && c'.csvs == c.csvs && !Held(c', u)
       else if version.Err? then c'.plans == c.plans && c'.csvs == c.csvs && Held(c', u)
       else
         && c'.csvs == CsvsAfter(c.csvs, first.value) && c'.plans == PlansAfter(c.plans, ns, version.value)
         && (Held(c', u) <==> FirstCsv(c'.csvs).Some? || FirstPlan(c'.plans, ns, version.value).Some?)
  }

  /** Without a configured version the plan lookup fails. */
  lemma RestNoVersion(st: Settings, u: Uid, c: Cluster, p: Pass, ping: string)
    requires PassOk(st, u, p) && p.stage.FindOldPlan? && Held(c, u) && GetRecommendedOLSVersion(st.olsVersion).Err?
    ensures OnlyInstance(u, c, Rest(st, u, c, p, ping).0) && Held(Rest(st, u, c, p, ping).0, u)
  {
    KeepsHold(st, u, p, ERROR);
    NoVersionStep(st, u, c, p, Fine(ping));
    RestExit(st, u, c, p.To(Finish(ERROR)), ping);
  }

  lemma NoVersionStep(st: Settings, u: Uid, c: Cluster, p: Pass, x: Input)
    requires p.stage.FindOldPlan? && GetRecommendedOLSVersion(st.olsVersion).Err?
    ensures PassStep(st, u, c, p, x) == (c, p.To(Finish(ERROR)))
  {
    var seen := SelectPlan(st, c, p, x);
    assert UninstallStep(st, u, c, p, x) == (c, AfterFindOldPlan(p, p.stage.csv, seen)) && seen.Err?;
  }

  lemma RestFindOldPlan(st: Settings, u: Uid, c: Cluster, p: Pass, version: string, ping: string)
    requires PassOk(st, u, p) && p.stage.FindOldPlan? && p.base.finalizer && Held(c, u) && p.stage.csv in c.csvs
    requires GetRecommendedOLSVersion(st.olsVersion) == Ok(version)
    ensures var c' := Rest(st, u, c, p, ping).0;
            && Around(u, c, c') && c'.csvs == CsvsAfter(c.csvs, p.stage.csv)
            && c'.plans == PlansAfter(c.plans, p.base.namespace, version)
            && (Held(c', u) <==> FirstCsv(c'.csvs).Some? || FirstPlan(c'.plans, p.base.namespace, version).Some?)
  {
    var x := Fine(ping);
    var plan := FirstPlan(c.plans, p.base.namespace, version);
    var p1 := AfterFindOldPlan(p, p.stage.csv, Ok(plan));
    assert SelectPlan(st, c, p, x) == Ok(plan);
    assert PassStep(st, u, c, p, x) == (c, p1);
    FindOldPlanOk(st, u, c, p, x);
    if plan.Some? {
      RestDropPlan(st, u, c, p1, version, ping);
    } else {
      RestDropCsv(st, u, c, p1, version, ping);
    }
  }

  lemma RestUninstall(st: Settings, u: Uid, c: Cluster, p: Pass, ping: string)
    requires PassOk(st, u, p) && p.stage.FindOwnCsv? && p.base.finalizer && Held(c, u)
    ensures Uninstalled(st, u, p.base.namespace, c, Rest(st, u, c, p, ping).0)
  {
    var x, first := Fine(ping), FirstCsv(c.csvs);
    FindOwnCsvOk(st, u, c, p, x);
    if first.Some? && OwnedBy(first.value.owners, u) {
      assert PassStep(st, u, c, p, x) == (c, p.To(FindOldPlan(first.value)));
      RestOwned(st, u, c, p.To(FindOldPlan(first.value)), ping);
    } else {
      var p1 := Released(p.Note(CsvClear(first)));
      assert PassStep(st, u, c, p, x) == (c, p1);
      KeepsHold(st, u, p, DONE);
      RestRelease(st, u, c, p1, ping);
    }
  }

  lemma RestOwned(st: Settings, u: Uid, c: Cluster, p: Pass, ping: string)
    requires PassOk(st, u, p) && p.stage.FindOldPlan? && p.base.finalizer && Held(c, u)
    requires FirstCsv(c.csvs) == Some(p.stage.csv) && OwnedBy(p.stage.csv.owners, u)
    ensures Uninstalled(st, u, p.base.namespace, c, Rest(st, u, c, p, ping).0)
  {
    match GetRecommendedOLSVersion(st.olsVersion)
    case Err(_) => RestNoVersion(st, u, c, p, ping);
    case Ok(version) => RestFindOldPlan(st, u, c, p, version, ping);
  }

  // ------------------------------------------------------- removing the OLSConfig

  /** Own finalizer off (u's config only), then Delete; an own config whose
      finalizer is already gone is not deleted at all. */
  function ConfigAfter(st: Settings, u: Uid, cfg: OLSConfig): Option<OLSConfig> {
    if cfg.Owner() != u then DeleteConfig(cfg)
    else if st.finalizer !in cfg.finalizers then Some(cfg)
    else match Settle(cfg.(finalizers := Without(cfg.finalizers, st.finalizer)))
      case None => None
      case Some(released) => DeleteConfig(released)
  }

  /** The pass ended after the OLSConfig became `config`, or went on uninstalling. */
  ghost predicate RemovedThen(st: Settings, u: Uid, ns: string, c: Cluster, config: Option<OLSConfig>, c': Cluster)
  {
    || (OnlyInstance(u, c.(config := config), c') && Held(c', u) && c.config.Some?)
    || (config.None? && Uninstalled(st, u, ns, c.(config := None), c'))
  }

  lemma RestConfirm(st: Settings, u: Uid, c: Cluster, p: Pass, ping: string)
    requires PassOk(st, u, p) && p.stage.ConfirmNoConfig? && p.base.finalizer
    requires Held(c, u)
    ensures var c' := Rest(st, u, c, p, ping).0;
            if c.config.Some? then OnlyInstance(u, c, c') && Held(c', u)
            else Uninstalled(st, u, p.base.namespace, c, c')
  {
    var x := Fine(ping);
    var p1 := AfterConfirmNoConfig(p, See(x, c.config));
    assert PassStep(st, u, c, p, x) == (c, p1);
    ConfirmNoConfigOk(st, u, c, p, x);
    if c.config.Some? {
      RestExit(st, u, c, p1, ping);
    } else {
      RestUninstall(st, u, c, p1, ping);
    }
  }

  lemma RestDropConfig(st: Settings, u: Uid, c: Cluster, p: Pass, ping: string)
    requires PassOk(st, u, p) && p.stage.DropConfig? && p.base.finalizer
    requires Held(c, u)
    ensures var c' := Rest(st, u, c, p, ping).0;
            if c.config.None? then OnlyInstance(u, c, c') && Held(c', u)
            else RemovedThen(st, u, p.base.namespace, c, DeleteConfig(c.config.value), c')
  {
    var x := Fine(ping);
    var r := DropConfigStep(c, p, x);
    assert PassStep(st, u, c, p, x) == r;
    DropConfigOk(st, u, c, p, x);
    if c.config.None? {
      RestExit(st, u, c, r.1, ping);
    } else {
      RestConfirm(st, u, r.0, r.1, ping);
    }
  }

  lemma RestReleaseConfig(st: Settings, u: Uid, c: Cluster, p: Pass, ping: string)
    requires PassOk(st, u, p) && p.stage.ReleaseConfig? && p.base.finalizer
    requires Held(c, u)
    requires c.config == Some(p.stage.cfg) && p.stage.cfg.Owner() == u && st.finalizer in p.stage.cfg.finalizers
    ensures RemovedThen(st, u, p.base.namespace, c, ConfigAfter(st, u, p.stage.cfg), Rest(st, u, c, p, ping).0)
  {
    var x, cfg := Fine(ping), p.stage.cfg;
    var r := ReleaseStep(st, c, p, cfg, x);
    assert PassStep(st, u, c, p, x) == r;
    ReleaseConfigOk(st, u, c, p, x);
    var released := cfg.(finalizers := Without(cfg.finalizers, st.finalizer));
    assert MayWriteFinalizers(cfg, released);
    assert r.0 == c.(config := Settle(released));
    RestDropConfig(st, u, r.0, r.1, ping);
  }

  lemma RestReread(st: Settings, u: Uid, c: Cluster, p: Pass, ping: string)
    requires PassOk(st, u, p) && p.stage.RereadConfig? && p.base.finalizer && c.config.Some?
    requires Held(c, u)
    ensures RemovedThen(st, u, p.base.namespace, c, ConfigAfter(st, u, c.config.value), Rest(st, u, c, p, ping).0)
  {
    var x, cfg := Fine(ping), c.config.value;
    var p1 := AfterReread(st, u, p, See(x, c.config));
    assert PassStep(st, u, c, p, x) == (c, p1);
    RereadConfigOk(st, u, c, p, See(x, c.config));
    if p1.stage.ReleaseConfig? {
      RestReleaseConfig(st, u, c, p1, ping);
    } else if p1.stage.DropConfig? {
      RestDropConfig(st, u, c, p1, ping);
    } else {
      RestExit(st, u, c, p1, ping);
    }
  }

  /** A whole delete pass: removal of the OLSConfig if there is one, else the
      uninstallation. */
  lemma DeletePass(st: Settings, u: Uid, c: Cluster, fetched: Option<string>, ping: string)
    requires Held(c, u) && c.instances[u].deleting
    ensures var c' := WholePass(st, u, c, fetched, ping).0;
            var ns := c.instances[u].namespace;
            if c.config.Some? then RemovedThen(st, u, ns, c, ConfigAfter(st, u, c.config.value), c')
            else Uninstalled(st, u, ns, c, c')
  {
    var x := Fine(ping);
    var p := Begin(st, c.instances[u], fetched);
    BeginOk(st, u, c.instances[u], fetched);
    var p1 := AfterFindConfig(p, See(x, c.config));
    assert PassStep(st, u, c, p, x) == (c, p1);
    FindConfigOk(st, u, c, p, x);
    if c.config.Some? {
      RestReread(st, u, c, p1, ping);
    } else {
      RestUninstall(st, u, c, p1, ping);
    }
  }

  // ------------------------------------------------------------------- progress

  function PlanNamed(s: seq<InstallPlan>, key: Key): Option<InstallPlan> {
    if s == [] then None else if s[0].key == key then Some(s[0]) else PlanNamed(s[1..], key)
  }

  /** The plan uninstalling would delete is marked already and held by a
      finalizer, or there is none. */
  predicate PlanStuck(plans: seq<InstallPlan>, ns: string, version: string) {
    var plan := FirstPlan(plans, ns, version);
    plan.Some? ==> var named := PlanNamed(plans, plan.value.key); named.Some? && named.value.held && named.value.deleting
  }

  predicate CsvStuck(csv: Csv) {
    csv.held && csv.deleting
  }

  /** What a delete pass cannot move: an own OLSConfig whose finalizer is
      already gone, one of nobody or of another that is marked but held by a
      finalizer, or an owned CSV and a plan that are marked and held; without a
      configured version, any owned CSV. */
  predicate Stalled(st: Settings, u: Uid, c: Cluster)
    requires u in c.instances
  {
    match c.config
    case Some(cfg) => if cfg.Owner() == u then st.finalizer !in cfg.finalizers else cfg.deleting && cfg.finalizers != []
    case None =>
      var first, version := FirstCsv(c.csvs), GetRecommendedOLSVersion(st.olsVersion);
      && first.Some? && OwnedBy(first.value.owners, u)
      && (version.Ok? ==> CsvStuck(first.value) && PlanStuck(c.plans, c.instances[u].namespace, version.value))
  }

  lemma {:induction false} CsvStuckExactly(csvs: seq<Csv>)
    requires FirstCsv(csvs).Some?
    ensures CsvsAfter(csvs, FirstCsv(csvs).value) == csvs <==> CsvStuck(FirstCsv(csvs).value)
  {
    var first := FirstCsv(csvs).value;
    CsvCanBeDeleted(csvs, first);
    if csvs[0] == first {
      assert |csvs[1..]| != |csvs|;
      assert [first.(deleting := true)] + csvs[1..] == csvs <==> first.deleting;
    } else {
      CsvStuckExactly(csvs[1..]);
      CsvCanBeDeleted(csvs[1..], first);
      assert csvs[0].key != first.key;
      assert csvs == [csvs[0]] + csvs[1..];
    }
  }

  lemma {:induction false} DeleteStuck(s: seq<InstallPlan>, key: Key)
    ensures DeletePlan(s, key).Some? <==> PlanNamed(s, key).Some?
    ensures PlanNamed(s, key).Some? ==>
              (DeletePlan(s, key) == Some(s) <==> PlanNamed(s, key).value.held && PlanNamed(s, key).value.deleting)
  {
    if s != [] {
      assert s == [s[0]] + s[1..] && |s[1..]| != |s|;
      if s[0].key == key {
        assert [s[0].(deleting := true)] + s[1..] == s <==> s[0].deleting;
      } else {
        DeleteStuck(s[1..], key);
      }
    }
  }

  lemma PlanStuckExactly(plans: seq<InstallPlan>, ns: string, version: string)
    ensures PlansAfter(plans, ns, version) == plans <==> PlanStuck(plans, ns, version)
  {
    var plan := FirstPlan(plans, ns, version);
    if plan.Some? {
      ListedCanBeDeleted(plans, plan.value);
      DeleteStuck(plans, plan.value.key);
    }
  }

  lemma UninstallWeight(st: Settings, u: Uid, ns: string, c: Cluster, c': Cluster)
    requires Uninstalled(st, u, ns, c, c') && c.config.None?
    ensures Weight(st, u, c') <= Weight(st, u, c)
    ensures var first, version := FirstCsv(c.csvs), GetRecommendedOLSVersion(st.olsVersion);
            Held(c', u) && Weight(st, u, c') == Weight(st, u, c) <==>
              && first.Some? && OwnedBy(first.value.owners, u)
              && (version.Ok? ==> CsvStuck(first.value) && PlanStuck(c.plans, ns, version.value))
  {
    var first, version := FirstCsv(c.csvs), GetRecommendedOLSVersion(st.olsVersion);
    if first.Some? && OwnedBy(first.value.owners, u) && version.Ok? {
      CsvStuckExactly(c.csvs);
      PlanStuckExactly(c.plans, ns, version.value);
      DeleteCsvWeight(c.csvs, first.value.key);
      var plan := FirstPlan(c.plans, ns, version.value);
      if plan.Some? { DeletePlanWeight(c.plans, plan.value.key); }
    }
  }

  lemma RemoveWeight(st: Settings, u: Uid, cfg: OLSConfig)
    ensures var after := ConfigWeight(st, u, ConfigAfter(st, u, cfg));
            && after <= ConfigWeight(st, u, Some(cfg))
            && (after == ConfigWeight(st, u, Some(cfg)) <==>
                  if cfg.Owner() == u then st.finalizer !in cfg.finalizers else cfg.deleting && cfg.finalizers != [])
  {
  }

  /** Teardown progress: every undisturbed delete pass finishes or makes the
      measure smaller, except exactly when it is stalled, and then it changes
      nothing of what it has to remove. */
  lemma TeardownProgress(st: Settings, u: Uid, c: Cluster, fetched: Option<string>, ping: string)
    requires Held(c, u) && c.instances[u].deleting
    ensures var c' := WholePass(st, u, c, fetched, ping).0;
            && Weight(st, u, c') <= Weight(st, u, c)
            && (Held(c', u) && Weight(st, u, c') == Weight(st, u, c) <==> Stalled(st, u, c))
  {
    var ns := c.instances[u].namespace;
    var c' := WholePass(st, u, c, fetched, ping).0;
    DeletePass(st, u, c, fetched, ping);
    if c.config.None? {
      UninstallWeight(st, u, ns, c, c');
    } else {
      RemoveWeight(st, u, c.config.value);
      var config := ConfigAfter(st, u, c.config.value);
      if !OnlyInstance(u, c.(config := config), c') {
        UninstallWeight(st, u, ns, c.(config := None), c');
      }
    }
  }

  /** The plan is deleted "to prevent leftovers", yet an undisturbed delete
      pass that lets go of the instance leaves a matching plan behind exactly
      when there was one and the pass found no matching CSV of its own. */
  lemma PlanLeftExactly(st: Settings, u: Uid, c: Cluster, version: string, fetched: Option<string>, ping: string)
    requires Held(c, u) && c.instances[u].deleting && GetRecommendedOLSVersion(st.olsVersion) == Ok(version)
    requires !Held(WholePass(st, u, c, fetched, ping).0, u)
    ensures var c', ns, first := WholePass(st, u, c, fetched, ping).0, c.instances[u].namespace, FirstCsv(c.csvs);
            FirstPlan(c'.plans, ns, version).Some? <==>
              FirstPlan(c.plans, ns, version).Some? && (first.None? || !OwnedBy(first.value.owners, u))
  {
    DeletePass(st, u, c, fetched, ping);
  }

  // ------------------------------------------------------------ kinds of stalls

  /** Some finalizer other than the operator's is on the OLSConfig. */
  predicate HeldByOthers(st: Settings, cfg: OLSConfig) {
    exists g :: g in cfg.finalizers && g != st.finalizer
  }

  /** The owner label names an instance that exists and holds its finalizer. */
  predicate OwnerHeld(c: Cluster, cfg: OLSConfig) {
    exists v :: v in c.instances && v == cfg.Owner() && c.instances[v].finalizer
  }

  /** u's own OLSConfig has lost the finalizer but was not marked. */
  predicate Bereft(st: Settings, u: Uid, cfg: OLSConfig) {
    cfg.Owner() == u && st.finalizer !in cfg.finalizers && !cfg.deleting
  }

  /** A marked OLSConfig that only the operator's finalizer holds, with an
      owner label that is empty or names no instance that could take it off. */
  predicate Lost(st: Settings, c: Cluster, cfg: OLSConfig) {
    && cfg.deleting && OWNER_LABEL in cfg.labels && !OwnerHeld(c, cfg)
    && st.finalizer in cfg.finalizers && !HeldByOthers(st, cfg)
  }

  /** The pass waits for somebody: for another finalizer to come off the
      marked OLSConfig, for the held instance it is labelled with, for some
      instance to claim it if it has no owner label, or for whoever holds the
      marked CSV and plan. */
  predicate Waiting(st: Settings, u: Uid, c: Cluster)
    requires u in c.instances
  {
    match c.config
    case Some(cfg) =>
      && cfg.deleting && (cfg.Owner() == u ==> st.finalizer !in cfg.finalizers)
      && (|| HeldByOthers(st, cfg)
          || (cfg.Owner() != u && cfg.finalizers != [] && (OWNER_LABEL !in cfg.labels || OwnerHeld(c, cfg))))
    case None => Stalled(st, u, c) && GetRecommendedOLSVersion(st.olsVersion).Ok?
  }

  /** The kinds of stalls, for every cluster whose OLSConfig is one the API
      server can hold: a delete pass that neither finishes nor progresses
      waits for somebody else, or its OLSConfig is bereft or lost, or the
      configured version is missing; and it is exactly one of these. */
  lemma StallsExactly(st: Settings, u: Uid, c: Cluster)
    requires Held(c, u) && (c.config.Some? ==> Settle(c.config.value).Some?)
    ensures Stalled(st, u, c) <==>
              || Waiting(st, u, c)
              || (c.config.Some? && (Bereft(st, u, c.config.value) || Lost(st, c, c.config.value)))
              || (c.config.None? && FirstCsv(c.csvs).Some? && OwnedBy(FirstCsv(c.csvs).value.owners, u)
                  && GetRecommendedOLSVersion(st.olsVersion).Err?)
    ensures c.config.Some? ==>
              && !(Waiting(st, u, c) && (Bereft(st, u, c.config.value) || Lost(st, c, c.config.value)))
              && !(Bereft(st, u, c.config.value) && Lost(st, c, c.config.value))
  {
    if c.config.Some? {
      var cfg := c.config.value;
      if cfg.finalizers != [] { assert cfg.finalizers[0] in cfg.finalizers; }
      if cfg.Owner() == u { assert OwnerHeld(c, cfg); }
    }
  }

  // ------------------------------------------------------------- how waiting ends

  lemma {:induction false} OnlyOurs(fs: seq<string>, f: string)
    requires forall g :: g in fs ==> g == f
    ensures Without(fs, f) == []
  {
    if fs != [] {
      assert fs[0] in fs && forall g :: g in fs[1..] ==> g in fs;
      OnlyOurs(fs[1..], f);
    }
  }

  /** The held owner of a marked OLSConfig that only the operator's finalizer
      holds ends the wait of all others with its own delete pass. */
  lemma OwnerEndsWait(st: Settings, v: Uid, c: Cluster, fetched: Option<string>, ping: string)
    requires Held(c, v) && c.instances[v].deleting && Labelled(c, v)
    requires c.config.value.deleting && st.finalizer in c.config.value.finalizers && !HeldByOthers(st, c.config.value)
    ensures WholePass(st, v, c, fetched, ping).0.config.None?
  {
    OnlyOurs(c.config.value.finalizers, st.finalizer);
    DeletePass(st, v, c, fetched, ping);
  }

  /** A marked OLSConfig without an owner label is claimed by the first
      accepted patch of a working instance, which can then release it. */
  lemma ClaimEndsWait(st: Settings, v: Uid, c: Cluster, p: Pass, x: Input)
    requires p.stage.WriteConfig? && p.stage.read == c.config && c.config.Some? && x.fault == NoFault
    requires c.config.value.deleting && st.finalizer in c.config.value.finalizers && OWNER_LABEL !in c.config.value.labels
    ensures Labelled(PassStep(st, v, c, p, x).0, v)
  {
    var merged := Merged(st, v, p, p.stage.read, p.stage.patched, c.config);
    MergedParts(st, v, p, c.config.value, p.stage.patched, c.config.value);
    assert PassStep(st, v, c, p, x) == WriteConfigStep(c, p, p.stage.read, p.stage.patched, merged, x);
  }
}
