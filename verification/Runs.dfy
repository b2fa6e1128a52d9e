/** Runs of one instance's passes while everybody else keeps changing the
    cluster, and what every such run keeps: the shape of a pass's log, the
    truth of its entries, and the absence of orphans. */
module Runs {
  import opened Wrappers
  import opened Cluster
  import opened Install
  import opened OlsConfig
  import opened Reconcile

  /** What instance u relies on when others move: its finalizer stays, and
      nobody else writes its UID into an owner label or owner reference. */
  predicate Rely(u: Uid, c: Cluster, c': Cluster) {
    && (Held(c, u) ==> Held(c', u))
    && (Labelled(c', u) ==> Labelled(c, u))
    && CsvsFrom(u, c.csvs, c'.csvs)
  }

  /** Every CSV owned by u is one that was owned by u before. */
  predicate CsvsFrom(u: Uid, csvs: seq<Csv>, csvs': seq<Csv>) {
    forall csv :: csv in csvs' && OwnedBy(csv.owners, u) ==> OwnsKey(u, csvs, csv.key)
  }

  predicate OwnsKey(u: Uid, csvs: seq<Csv>, key: Key) {
    exists csv :: csv in csvs && OwnedBy(csv.owners, u) && csv.key == key
  }

  /** u owns no CSV of another product. */
  predicate OwnsOnlyMatches(csvs: seq<Csv>, u: Uid) {
    forall csv :: csv in csvs && OwnedBy(csv.owners, u) ==> IsOlsCsv(csv)
  }

  lemma CsvsFromOwns(u: Uid, c: Cluster, c': Cluster)
    requires CsvsFrom(u, c.csvs, c'.csvs)
    ensures OwnsCsv(c', u) ==> OwnsCsv(c, u)
    ensures OwnsOnlyMatches(c.csvs, u) ==> OwnsOnlyMatches(c'.csvs, u)
  {
    if OwnsCsv(c', u) {
      var i :| 0 <= i < |c'.csvs| && OwnedBy(c'.csvs[i].owners, u);
      assert c'.csvs[i] in c'.csvs;
      var csv :| csv in c.csvs && OwnedBy(csv.owners, u) && csv.key == c'.csvs[i].key;
      var j :| 0 <= j < |c.csvs| && c.csvs[j] == csv;
    }
  }

  datatype Local = Local(cluster: Cluster, pass: Pass)

  datatype Move = Others | Start(fetched: Option<string>) | Call(input: Input) | Crash

  ghost predicate Next(st: Settings, u: Uid, l: Local, m: Move, l': Local) {
    match m
    case Others => l'.pass == l.pass && Rely(u, l.cluster, l'.cluster)
    case Start(fetched) =>
      && l.pass.stage.Idle? && u in l.cluster.instances
      && l'.cluster == l.cluster && l'.pass == Begin(st, l.cluster.instances[u], fetched)
    case Call(x) =>
      && !l.pass.stage.Idle?
      && (l'.cluster, l'.pass) == PassStep(st, u, l.cluster, l.pass, x)
    case Crash => l'.cluster == l.cluster && l'.pass == l.pass.To(Idle)
  }

  /** Before the first pass of u: nothing is marked as owned by an instance
      that does not hold its finalizer, nor anything of another product. */
  ghost predicate Initial(u: Uid, l: Local) {
    && l.pass.stage.Idle? && l.pass.log.Nothing?
    && (Labelled(l.cluster, u) ==> Held(l.cluster, u))
    && (OwnsCsv(l.cluster, u) ==> Held(l.cluster, u)) && OwnsOnlyMatches(l.cluster.csvs, u)
  }

  ghost predicate IsRun(st: Settings, u: Uid, ls: seq<Local>, ms: seq<Move>) {
    && |ls| == |ms| + 1
    && Initial(u, ls[0])
    && forall i: nat :: i < |ms| ==> NextAt(st, u, ls, ms, i)
  }

  ghost predicate NextAt(st: Settings, u: Uid, ls: seq<Local>, ms: seq<Move>, i: nat)
    requires i < |ms| && i + 1 < |ls|
  {
    Next(st, u, ls[i], ms[i], ls[i + 1])
  }

  // ------------------------------------------------------------ the pass's log

  /** A plan was selected for deletion. */
  predicate SelectedToDrop(log: Log) {
    log.Then? && log.event.PlanSelected? && log.before.Then? && log.before.event.NoConfigSeen?
  }

  /** Which event may come directly after a log. */
  predicate MayFollow(log: Log, e: Event) {
    match e
    case SubKept(_) | SubWritten | NoConfigSeen => log.Nothing?
    case PlanSelected(_) => log.Then? && (log.event.SubKept? || log.event.NoConfigSeen?)
    case PlanApproved(plan) =>
      && log.Then? && log.event == PlanSelected(plan)
      && log.before.Then? && log.before.event.SubKept?
    case CsvFound(_) => log.Then? && log.event.PlanApproved?
    case CsvAdopted(csv) => log.Then? && log.event == CsvFound(csv)
    case OperatorComplete(_) => log.Then? && log.event.CsvAdopted?
    case ConfigKept(_) | ConfigRead(_) => log.Then? && log.event.OperatorComplete?
    case ConfigWritten(read, _) => log.Then? && log.event == ConfigRead(read)
    case ReadySeen => log.Then? && (log.event.ConfigKept? || log.event.ConfigWritten?)
    case PlanDropped(plan) =>
      && log.Then? && log.event == PlanSelected(plan)
      && log.before.Then? && log.before.event.NoConfigSeen?
    case CsvDropped(_) => log.Then? && (log.event.NoConfigSeen? || log.event.PlanDropped? || SelectedToDrop(log))
    case CsvClear(_) => log.Then? && (log.event.NoConfigSeen? || log.event.CsvDropped?)
  }

  predicate Legal(log: Log) {
    log.Then? ==> Legal(log.before) && MayFollow(log.before, log.event)
  }

  /** A pass that installs and configures, for the instance with its defaults. */
  predicate Working(st: Settings, p: Pass) {
    && p.base.finalizer && p.finalizer && !p.base.deleting && p.spec == WithDefaults(st, p.base.spec)
    && LightspeedReady in p.conditions && p.conditions[LightspeedReady] == IsUnknown && OcpRagReady in p.conditions
  }

  /** A pass that tears down. */
  predicate Leaving(p: Pass) {
    && p.base.deleting && p.finalizer == p.base.finalizer
    && LightspeedReady in p.conditions && p.conditions[LightspeedReady] == IsUnknown && OcpRagReady in p.conditions
  }

  predicate OperatorTrue(p: Pass) {
    OperatorReady in p.conditions && p.conditions[OperatorReady] == IsTrue
  }

  predicate PlanOk(st: Settings, base: Instance, plan: InstallPlan) {
    var version := GetRecommendedOLSVersion(st.olsVersion);
    version.Ok? && IsOlsPlan(plan, base.namespace, version.value)
  }

  /** The Subscription that was read is missing or not as u wants it. */
  predicate Differs(st: Settings, u: Uid, base: Instance, sub: Option<Subscription>) {
    var version := GetRecommendedOLSVersion(st.olsVersion);
    version.Ok? && sub != Some(DesiredSubscription(version.value, u, base, sub))
  }

  predicate InstallStageOk(st: Settings, u: Uid, p: Pass)
    requires Installing(p.stage)
  {
    && Working(st, p)
    && match p.stage
       case FindForeign | CheckSub(_) | ReadSub => p.log.Nothing?
       case WriteSub(sub) => p.log.Nothing? && Differs(st, u, p.base, sub)
       case FindPlan => p.log.Then? && p.log.event.SubKept?
       case ApprovePlan(plan) =>
         && p.log.Then? && p.log.event == PlanSelected(plan) && p.log.before.Then? && p.log.before.event.SubKept?
         && PlanOk(st, p.base, plan)
       case FindCsv => p.log.Then? && p.log.event.PlanApproved?
       case AdoptCsv(csv) => p.log.Then? && p.log.event == CsvFound(csv) && IsOlsCsv(csv)
       case ConfirmCsv => p.log.Then? && p.log.event.CsvAdopted?
  }

  /** A new OLSConfig carries the owner label and the finalizer; an existing
      one was read without an owner or with this one. */
  predicate ClaimOk(st: Settings, u: Uid, read: Option<OLSConfig>, patched: OLSConfig) {
    if read.None? then patched.Owner() == u && st.finalizer in patched.finalizers && !patched.deleting
    else read.value.Owner() == "" || read.value.Owner() == u
  }

  /** The copy to be written differs from the one read, and is its patch. */
  predicate Computed(st: Settings, u: Uid, p: Pass, read: Option<OLSConfig>, patched: OLSConfig) {
    read != Some(patched) && Attempt(st, u, p, read) == Ok(patched)
  }

  predicate ConfigStageOk(st: Settings, u: Uid, p: Pass)
    requires Configuring(p.stage)
  {
    && Working(st, p) && OperatorTrue(p) && p.log.Then?
    && (p.stage.WriteConfig? ==> ClaimOk(st, u, p.stage.read, p.stage.patched) && Computed(st, u, p, p.stage.read, p.stage.patched))
    && (if p.stage.ReadConfig? then p.log.event.OperatorComplete?
        else if p.stage.WriteConfig? then p.log.event == ConfigRead(p.stage.read)
        else p.log.event.ConfigKept? || p.log.event.ConfigWritten?)
  }

  predicate UninstallStageOk(st: Settings, u: Uid, p: Pass)
    requires Uninstalling(p.stage)
  {
    && Leaving(p) && p.log.Then?
    && match p.stage
       case FindOwnCsv => p.log.event.NoConfigSeen?
       case FindOldPlan(csv) => p.log.event.NoConfigSeen? && IsOlsCsv(csv) && OwnedBy(csv.owners, u)
       case DropPlan(csv, plan) =>
         && SelectedToDrop(p.log) && p.log.event == PlanSelected(plan)
         && IsOlsCsv(csv) && OwnedBy(csv.owners, u) && PlanOk(st, p.base, plan)
       case DropCsv(csv) =>
         && (p.log.event.NoConfigSeen? || p.log.event.PlanDropped? || SelectedToDrop(p.log))
         && IsOlsCsv(csv) && OwnedBy(csv.owners, u)
       case ConfirmNoCsv => p.log.event.CsvDropped?
       case ConfirmNoPlan => p.log.event.CsvClear?
  }

  predicate FinishOk(p: Pass) {
    && LightspeedReady in p.conditions && OcpRagReady in p.conditions
    && (p.conditions[LightspeedReady] == IsTrue <==> p.log.Then? && p.log.event.ReadySeen?)
    && (p.conditions[LightspeedReady] == IsTrue ==> OperatorTrue(p))
    && (p.Releasing() ==> p.base.deleting && p.log.Then? && p.log.event.CsvClear?)
  }

  /** What is known of a pass in each stage: its path, the last event of its
      log, its conditions and the copies it holds. */
  predicate StageOk(st: Settings, u: Uid, p: Pass) {
    if p.stage.Idle? then true
    else if p.stage.Finish? then FinishOk(p)
    else if Installing(p.stage) then InstallStageOk(st, u, p)
    else if Configuring(p.stage) then ConfigStageOk(st, u, p)
    else if Removing(p.stage) then Leaving(p) && p.log.Nothing?
    else UninstallStageOk(st, u, p)
  }

  predicate PassOk(st: Settings, u: Uid, p: Pass) {
    Legal(p.log) && StageOk(st, u, p)
  }

  /** The guard in front of PatchOLSConfig. */
  predicate Free(u: Uid, read: Option<OLSConfig>) {
    read.Some? ==> read.value.Owner() == "" || read.value.Owner() == u
  }

  /** Which call an event is about. */
  predicate Makes(s: Stage, e: Event) {
    match e
    case SubKept(_) => s.ReadSub?
    case SubWritten => s.WriteSub?
    case PlanSelected(_) => s.FindPlan? || s.FindOldPlan?
    case PlanApproved(plan) => s == ApprovePlan(plan)
    case CsvFound(_) => s.FindCsv?
    case CsvAdopted(csv) => s == AdoptCsv(csv)
    case OperatorComplete(_) => s.ConfirmCsv?
    case ConfigKept(_) | ConfigRead(_) => s.ReadConfig?
    case ConfigWritten(read, patched) => s == WriteConfig(read, patched)
    case ReadySeen => s.CheckReady?
    case NoConfigSeen => s.FindConfig? || s.ConfirmNoConfig?
    case PlanDropped(plan) => s.DropPlan? && s.plan == plan
    case CsvDropped(csv) => s == DropCsv(csv)
    case CsvClear(_) => s.FindOwnCsv? || s.ConfirmNoCsv?
  }

  /** What a log entry says about the call of pass p that made it, and about the
      cluster before and after. */
  ghost predicate Fact(st: Settings, u: Uid, p: Pass, e: Event, c: Cluster, c': Cluster) {
    Makes(p.stage, e) && Effect(st, u, p, e, c, c')
  }

  ghost predicate Effect(st: Settings, u: Uid, p: Pass, e: Event, c: Cluster, c': Cluster) {
    var version := GetRecommendedOLSVersion(st.olsVersion);
    match e
    case SubKept(sub) =>
      && version.Ok? && GetSub(c, OrderKey(u, p.base)) == Some(sub)
      && Ordered(st.olsVersion, u, p.base, sub) && sub.installPlanRef.Some?
    case SubWritten =>
      var sub, sub' := GetSub(c, OrderKey(u, p.base)), GetSub(c', OrderKey(u, p.base));
      && version.Ok? && sub'.Some? && Ordered(st.olsVersion, u, p.base, sub'.value) && sub' != sub
      && sub'.value.installPlanRef == (if sub.Some? then sub.value.installPlanRef else None)
    case PlanSelected(plan) => version.Ok? && FirstPlan(c.plans, p.base.namespace, version.value) == Some(plan)
    case PlanApproved(plan) =>
      && version.Ok? && IsOlsPlan(plan, p.base.namespace, version.value)
      && plan in c.plans && c'.plans == Replace(c.plans, plan, plan.(approved := true))
    case CsvFound(csv) => FirstCsv(c.csvs) == Some(csv)
    case CsvAdopted(csv) =>
      IsOlsCsv(csv) && csv in c.csvs && c'.csvs == Replace(c.csvs, csv, csv.(owners := InstanceOwner(u, p.base)))
    case OperatorComplete(csv) => FirstCsv(c.csvs) == Some(csv) && Complete(u, csv)
    case ConfigKept(cfg) =>
      && p.spec == WithDefaults(st, p.base.spec) && Free(u, c.config)
      && c'.config == c.config == Some(cfg) && Attempt(st, u, p, c.config) == Ok(cfg)
    case ConfigRead(read) => c.config == read && Free(u, read)
    case ConfigWritten(read, patched) =>
      && p.spec == WithDefaults(st, p.base.spec) && Attempt(st, u, p, read) == Ok(patched) && read.None? == c.config.None?
      && c'.config == Settle(Merged(st, u, p, read, patched, c.config))
    case ReadySeen => c.config.Some? && SaysReady(c.config.value.body)
    case NoConfigSeen => c.config.None?
    case PlanDropped(plan) =>
      && version.Ok? && IsOlsPlan(plan, p.base.namespace, version.value)
      && DeletePlan(c.plans, plan.key) == Some(c'.plans)
    case CsvDropped(csv) => OwnedBy(csv.owners, u) && IsOlsCsv(csv) && DeleteCsv(c.csvs, csv.key) == Some(c'.csvs)
    case CsvClear(first) => FirstCsv(c.csvs) == first && (first.Some? ==> !OwnedBy(first.value.owners, u))
  }

  /** The step added nothing to the log, or one entry that is true of it. */
  ghost predicate Logged(st: Settings, u: Uid, p: Pass, p': Pass, c: Cluster, c': Cluster) {
    && p'.base == p.base && p'.active == p.active
    && (p'.log == p.log || (p'.log.Then? && p'.log.before == p.log && Fact(st, u, p, p'.log.event, c, c')))
  }

  ghost predicate Good(st: Settings, u: Uid, c: Cluster, p: Pass, r: (Cluster, Pass)) {
    PassOk(st, u, r.1) && Logged(st, u, p, r.1, c, r.0)
  }

  // ----------------------------------------------------- each stage keeps PassOk

  lemma BeginOk(st: Settings, u: Uid, i: Instance, fetched: Option<string>)
    ensures PassOk(st, u, Begin(st, i, fetched))
  {
  }

  lemma InstallExitOk(st: Settings, u: Uid, p: Pass)
    requires PassOk(st, u, p) && Installing(p.stage)
    ensures PassOk(st, u, InstallFailed(p)) && PassOk(st, u, InstallWait(p))
  {
  }

  lemma ConfigExitOk(st: Settings, u: Uid, p: Pass, o: Outcome)
    requires PassOk(st, u, p) && Configuring(p.stage)
    ensures PassOk(st, u, ConfigFailed(p)) && PassOk(st, u, p.To(Finish(o)))
  {
  }

  lemma TeardownExitOk(st: Settings, u: Uid, p: Pass, o: Outcome)
    requires PassOk(st, u, p) && (Removing(p.stage) || Uninstalling(p.stage))
    ensures PassOk(st, u, p.To(Finish(o)))
  {
  }

  lemma FindForeignOk(st: Settings, u: Uid, c: Cluster, p: Pass, x: Input)
    requires PassOk(st, u, p) && p.stage.FindForeign?
    ensures Good(st, u, c, p, (c, AfterFindForeign(p, See(x, FirstCsv(c.csvs)))))
  {
    InstallExitOk(st, u, p);
  }

  lemma CheckSubOk(st: Settings, u: Uid, c: Cluster, p: Pass, seen: Result<Option<Subscription>>)
    requires PassOk(st, u, p) && p.stage.CheckSub?
    ensures Good(st, u, c, p, (c, AfterCheckSub(u, p, p.stage.csv, seen)))
  {
    InstallExitOk(st, u, p);
  }

  lemma ReadSubOk(st: Settings, u: Uid, c: Cluster, p: Pass, x: Input)
    requires PassOk(st, u, p) && p.stage.ReadSub?
    ensures Good(st, u, c, p, (c, AfterReadSub(st, u, p, See(x, GetSub(c, SubscriptionKey(u, p.base))))))
  {
    InstallExitOk(st, u, p);
    var sub := GetSub(c, SubscriptionKey(u, p.base));
    if sub.Some? && GetRecommendedOLSVersion(st.olsVersion).Ok? { OrderedExactly(st.olsVersion, u, p.base, sub.value, sub); }
  }

  lemma WriteSubOk(st: Settings, u: Uid, c: Cluster, p: Pass, x: Input)
    requires PassOk(st, u, p) && p.stage.WriteSub?
    ensures Good(st, u, c, p, WriteSubStep(st, u, c, p, p.stage.sub, x))
  {
    InstallExitOk(st, u, p);
    var sub := p.stage.sub;
    if GetRecommendedOLSVersion(st.olsVersion).Ok? {
      var desired := DesiredSubscription(GetRecommendedOLSVersion(st.olsVersion).value, u, p.base, sub);
      OrderedExactly(st.olsVersion, u, p.base, desired, sub);
    }
  }

  lemma FindPlanOk(st: Settings, u: Uid, c: Cluster, p: Pass, x: Input)
    requires PassOk(st, u, p) && p.stage.FindPlan?
    ensures Good(st, u, c, p, (c, AfterFindPlan(p, SelectPlan(st, c, p, x))))
  {
    InstallExitOk(st, u, p);
  }

  lemma ApprovePlanOk(st: Settings, u: Uid, c: Cluster, p: Pass, x: Input)
    requires PassOk(st, u, p) && p.stage.ApprovePlan?
    ensures Good(st, u, c, p, ApproveStep(c, p, p.stage.plan, x))
  {
    InstallExitOk(st, u, p);
  }

  lemma FindCsvOk(st: Settings, u: Uid, c: Cluster, p: Pass, x: Input)
    requires PassOk(st, u, p) && p.stage.FindCsv?
    ensures Good(st, u, c, p, (c, AfterFindCsv(p, See(x, FirstCsv(c.csvs)))))
  {
    InstallExitOk(st, u, p);
  }

  lemma AdoptCsvOk(st: Settings, u: Uid, c: Cluster, p: Pass, x: Input)
    requires PassOk(st, u, p) && p.stage.AdoptCsv?
    ensures Good(st, u, c, p, AdoptStep(u, c, p, p.stage.csv, x))
  {
    InstallExitOk(st, u, p);
  }

  lemma ConfirmCsvOk(st: Settings, u: Uid, c: Cluster, p: Pass, x: Input)
    requires PassOk(st, u, p) && p.stage.ConfirmCsv?
    ensures Good(st, u, c, p, (c, AfterConfirmCsv(u, p, See(x, FirstCsv(c.csvs)))))
  {
    InstallExitOk(st, u, p);
  }

  lemma InstallOk(st: Settings, u: Uid, c: Cluster, p: Pass, x: Input)
    requires PassOk(st, u, p) && Installing(p.stage)
    ensures Good(st, u, c, p, InstallStep(st, u, c, p, x))
  {
    match p.stage
    case FindForeign => FindForeignOk(st, u, c, p, x);
    case CheckSub(_) => CheckSubOk(st, u, c, p, See(x, GetSub(c, SubscriptionKey(u, p.base))));
    case ReadSub => ReadSubOk(st, u, c, p, x);
    case WriteSub(_) => WriteSubOk(st, u, c, p, x);
    case FindPlan => FindPlanOk(st, u, c, p, x);
    case ApprovePlan(_) => ApprovePlanOk(st, u, c, p, x);
    case FindCsv => FindCsvOk(st, u, c, p, x);
    case AdoptCsv(_) => AdoptCsvOk(st, u, c, p, x);
    case ConfirmCsv => ConfirmCsvOk(st, u, c, p, x);
  }

  lemma NewConfigClaimed(st: Settings, u: Uid, p: Pass)
    ensures Attempt(st, u, p, None).Ok? ==> ClaimOk(st, u, None, Attempt(st, u, p, None).value)
  {
    PatchFrame(st, u, p.Inst(), EMPTY_CONFIG);
  }

  lemma ReadConfigOk(st: Settings, u: Uid, c: Cluster, p: Pass, x: Input, attempt: Result<OLSConfig>)
    requires PassOk(st, u, p) && p.stage.ReadConfig?
    requires c.config.None? && attempt.Ok? ==> ClaimOk(st, u, None, attempt.value)
    requires attempt == Attempt(st, u, p, c.config)
    ensures Good(st, u, c, p, (c, AfterReadConfig(u, p, See(x, c.config), attempt)))
  {
    ConfigExitOk(st, u, p, ERROR);
    if attempt.Ok? {
      KeptOk(st, u, p, attempt.value);
      if c.config != Some(attempt.value) && Free(u, c.config) { ToWriteOk(st, u, p, c.config, attempt.value); }
    }
    ReadLogged(st, u, c, p, x, attempt);
  }

  lemma ReadLogged(st: Settings, u: Uid, c: Cluster, p: Pass, x: Input, attempt: Result<OLSConfig>)
    requires p.stage.ReadConfig? && attempt == Attempt(st, u, p, c.config) && p.spec == WithDefaults(st, p.base.spec)
    ensures Logged(st, u, p, AfterReadConfig(u, p, See(x, c.config), attempt), c, c)
  {
    if attempt.Ok? && Free(u, c.config) {
      if c.config == Some(attempt.value) {
        KeptFact(st, u, c, p, attempt.value);
      } else {
        assert Fact(st, u, p, ConfigRead(c.config), c, c);
      }
    }
  }

  lemma KeptFact(st: Settings, u: Uid, c: Cluster, p: Pass, cfg: OLSConfig)
    requires p.stage.ReadConfig? && p.spec == WithDefaults(st, p.base.spec)
    requires c.config == Some(cfg) && Free(u, c.config) && Attempt(st, u, p, c.config) == Ok(cfg)
    ensures Fact(st, u, p, ConfigKept(cfg), c, c)
  {
  }

  lemma KeptOk(st: Settings, u: Uid, p: Pass, cfg: OLSConfig)
    requires PassOk(st, u, p) && p.stage.ReadConfig?
    ensures PassOk(st, u, p.Note(ConfigKept(cfg)).To(CheckReady))
  {
  }

  lemma ToWriteOk(st: Settings, u: Uid, p: Pass, read: Option<OLSConfig>, patched: OLSConfig)
    requires PassOk(st, u, p) && p.stage.ReadConfig?
    requires ClaimOk(st, u, read, patched) && Computed(st, u, p, read, patched)
    ensures PassOk(st, u, p.Note(ConfigRead(read)).To(WriteConfig(read, patched)))
  {
  }

  lemma WrittenOk(st: Settings, u: Uid, p: Pass)
    requires PassOk(st, u, p) && p.stage.WriteConfig?
    ensures PassOk(st, u, p.Note(ConfigWritten(p.stage.read, p.stage.patched)).To(CheckReady))
  {
  }

  lemma WriteConfigOk(st: Settings, u: Uid, c: Cluster, p: Pass, merged: OLSConfig, x: Input)
    requires PassOk(st, u, p) && p.stage.WriteConfig?
    requires merged == Merged(st, u, p, p.stage.read, p.stage.patched, c.config)
    ensures Good(st, u, c, p, WriteConfigStep(c, p, p.stage.read, p.stage.patched, merged, x))
  {
    ConfigExitOk(st, u, p, ERROR);
    WrittenOk(st, u, p);
  }

  lemma CheckReadyOk(st: Settings, u: Uid, c: Cluster, p: Pass, x: Input)
    requires PassOk(st, u, p) && p.stage.CheckReady?
    ensures Good(st, u, c, p, (c, AfterCheckReady(p, See(x, c.config))))
  {
    ConfigExitOk(st, u, p, ERROR);
    if c.config.Some? { SaysReadyExactly(c.config.value.body); }
  }

  lemma ReadPingOk(st: Settings, u: Uid, c: Cluster, p: Pass, seen: Result<Option<OLSConfig>>)
    requires PassOk(st, u, p) && p.stage.ReadPing?
    ensures Good(st, u, c, p, (c, AfterReadPing(p, seen)))
  {
    ConfigExitOk(st, u, p, ERROR);
  }

  lemma WritePingOk(st: Settings, u: Uid, c: Cluster, p: Pass, x: Input)
    requires PassOk(st, u, p) && p.stage.WritePing?
    ensures Good(st, u, c, p, WritePingStep(c, p, p.stage.cfg, x))
  {
    ConfigExitOk(st, u, p, ERROR);
    ConfigExitOk(st, u, p, LATER);
  }

  lemma ConfigOk(st: Settings, u: Uid, c: Cluster, p: Pass, x: Input)
    requires PassOk(st, u, p) && Configuring(p.stage)
    ensures Good(st, u, c, p, ConfigStep(st, u, c, p, x))
  {
    match p.stage
    case ReadConfig =>
      NewConfigClaimed(st, u, p);
      ReadConfigOk(st, u, c, p, x, Attempt(st, u, p, c.config));
    case WriteConfig(read, patched) => WriteConfigOk(st, u, c, p, Merged(st, u, p, read, patched, c.config), x);
    case CheckReady => CheckReadyOk(st, u, c, p, x);
    case ReadPing => ReadPingOk(st, u, c, p, See(x, c.config));
    case WritePing(_) => WritePingOk(st, u, c, p, x);
  }

  lemma FindConfigOk(st: Settings, u: Uid, c: Cluster, p: Pass, x: Input)
    requires PassOk(st, u, p) && p.stage.FindConfig?
    ensures Good(st, u, c, p, (c, AfterFindConfig(p, See(x, c.config))))
  {
    TeardownExitOk(st, u, p, ERROR);
  }

  lemma RereadConfigOk(st: Settings, u: Uid, c: Cluster, p: Pass, seen: Result<Option<OLSConfig>>)
    requires PassOk(st, u, p) && p.stage.RereadConfig?
    ensures Good(st, u, c, p, (c, AfterReread(st, u, p, seen)))
  {
    TeardownExitOk(st, u, p, ERROR);
  }

  lemma ReleaseConfigOk(st: Settings, u: Uid, c: Cluster, p: Pass, x: Input)
    requires PassOk(st, u, p) && p.stage.ReleaseConfig?
    ensures Good(st, u, c, p, ReleaseStep(st, c, p, p.stage.cfg, x))
  {
    TeardownExitOk(st, u, p, ERROR);
  }

  lemma DropConfigOk(st: Settings, u: Uid, c: Cluster, p: Pass, x: Input)
    requires PassOk(st, u, p) && p.stage.DropConfig?
    ensures Good(st, u, c, p, DropConfigStep(c, p, x))
  {
    TeardownExitOk(st, u, p, ERROR);
  }

  lemma ConfirmNoConfigOk(st: Settings, u: Uid, c: Cluster, p: Pass, x: Input)
    requires PassOk(st, u, p) && p.stage.ConfirmNoConfig?
    ensures Good(st, u, c, p, (c, AfterConfirmNoConfig(p, See(x, c.config))))
  {
    TeardownExitOk(st, u, p, ERROR);
    TeardownExitOk(st, u, p, LATER);
  }

  lemma RemoveOk(st: Settings, u: Uid, c: Cluster, p: Pass, x: Input)
    requires PassOk(st, u, p) && Removing(p.stage)
    ensures Good(st, u, c, p, RemoveStep(st, u, c, p, x))
  {
    match p.stage
    case FindConfig => FindConfigOk(st, u, c, p, x);
    case RereadConfig => RereadConfigOk(st, u, c, p, See(x, c.config));
    case ReleaseConfig(_) => ReleaseConfigOk(st, u, c, p, x);
    case DropConfig => DropConfigOk(st, u, c, p, x);
    case ConfirmNoConfig => ConfirmNoConfigOk(st, u, c, p, x);
  }

  lemma ReleasedOk(st: Settings, u: Uid, p: Pass)
    requires Leaving(p) && Legal(p.log) && p.log.Then? && p.log.event.CsvClear?
    ensures PassOk(st, u, Released(p))
  {
  }

  lemma UninstallTo(st: Settings, u: Uid, p: Pass, s: Stage)
    requires Leaving(p) && Legal(p.log) && Uninstalling(s) && UninstallStageOk(st, u, p.To(s))
    ensures PassOk(st, u, p.To(s))
  {
  }

  lemma FindOwnCsvOk(st: Settings, u: Uid, c: Cluster, p: Pass, x: Input)
    requires PassOk(st, u, p) && p.stage.FindOwnCsv?
    ensures Good(st, u, c, p, (c, AfterFindOwnCsv(u, p, See(x, FirstCsv(c.csvs)))))
  {
    var first := FirstCsv(c.csvs);
    if x.fault != NoFault {
      TeardownExitOk(st, u, p, ERROR);
    } else if first.Some? && OwnedBy(first.value.owners, u) {
      UninstallTo(st, u, p, FindOldPlan(first.value));
    } else {
      ReleasedOk(st, u, p.Note(CsvClear(first)));
    }
  }

  lemma FindOldPlanOk(st: Settings, u: Uid, c: Cluster, p: Pass, x: Input)
    requires PassOk(st, u, p) && p.stage.FindOldPlan?
    ensures Good(st, u, c, p, (c, AfterFindOldPlan(p, p.stage.csv, SelectPlan(st, c, p, x))))
  {
    var seen := SelectPlan(st, c, p, x);
    if seen.Err? {
      TeardownExitOk(st, u, p, ERROR);
    } else if seen.value.None? {
      UninstallTo(st, u, p, DropCsv(p.stage.csv));
    } else {
      UninstallTo(st, u, p.Note(PlanSelected(seen.value.value)), DropPlan(p.stage.csv, seen.value.value));
    }
  }

  lemma DropPlanOk(st: Settings, u: Uid, c: Cluster, p: Pass, x: Input)
    requires PassOk(st, u, p) && p.stage.DropPlan?
    ensures Good(st, u, c, p, DropPlanStep(c, p, p.stage.csv, p.stage.plan, x))
  {
    if x.fault != NoFault {
      TeardownExitOk(st, u, p, ERROR);
    } else if DeletePlan(c.plans, p.stage.plan.key).None? {
      UninstallTo(st, u, p, DropCsv(p.stage.csv));
    } else {
      UninstallTo(st, u, p.Note(PlanDropped(p.stage.plan)), DropCsv(p.stage.csv));
    }
  }

  lemma DropCsvOk(st: Settings, u: Uid, c: Cluster, p: Pass, x: Input)
    requires PassOk(st, u, p) && p.stage.DropCsv?
    ensures Good(st, u, c, p, DropCsvStep(c, p, p.stage.csv, x))
  {
    if x.fault != NoFault || DeleteCsv(c.csvs, p.stage.csv.key).None? {
      TeardownExitOk(st, u, p, ERROR);
    } else {
      UninstallTo(st, u, p.Note(CsvDropped(p.stage.csv)), ConfirmNoCsv);
    }
  }

  lemma ConfirmNoCsvOk(st: Settings, u: Uid, c: Cluster, p: Pass, x: Input)
    requires PassOk(st, u, p) && p.stage.ConfirmNoCsv?
    ensures Good(st, u, c, p, (c, AfterConfirmNoCsv(p, See(x, FirstCsv(c.csvs)))))
  {
    if x.fault != NoFault {
      TeardownExitOk(st, u, p, ERROR);
    } else if FirstCsv(c.csvs).Some? {
      TeardownExitOk(st, u, p, LATER);
    } else {
      UninstallTo(st, u, p.Note(CsvClear(None)), ConfirmNoPlan);
    }
  }

  lemma ConfirmNoPlanOk(st: Settings, u: Uid, c: Cluster, p: Pass, seen: Result<Option<InstallPlan>>)
    requires PassOk(st, u, p) && p.stage.ConfirmNoPlan?
    ensures Good(st, u, c, p, (c, AfterConfirmNoPlan(p, seen)))
  {
    TeardownExitOk(st, u, p, ERROR);
    TeardownExitOk(st, u, p, LATER);
  }

  lemma UninstallOk(st: Settings, u: Uid, c: Cluster, p: Pass, x: Input)
    requires PassOk(st, u, p) && Uninstalling(p.stage)
    ensures Good(st, u, c, p, UninstallStep(st, u, c, p, x))
  {
    match p.stage
    case FindOwnCsv => FindOwnCsvOk(st, u, c, p, x);
    case FindOldPlan(_) => FindOldPlanOk(st, u, c, p, x);
    case DropPlan(_, _) => DropPlanOk(st, u, c, p, x);
    case DropCsv(_) => DropCsvOk(st, u, c, p, x);
    case ConfirmNoCsv => ConfirmNoCsvOk(st, u, c, p, x);
    case ConfirmNoPlan => ConfirmNoPlanOk(st, u, c, p, SelectPlan(st, c, p, x));
  }

  /** Every step of a pass keeps PassOk and logs only what is true. */
  lemma StepOk(st: Settings, u: Uid, c: Cluster, p: Pass, x: Input)
    requires PassOk(st, u, p)
    ensures Good(st, u, c, p, PassStep(st, u, c, p, x))
  {
    if Installing(p.stage) {
      InstallOk(st, u, c, p, x);
    } else if Configuring(p.stage) {
      ConfigOk(st, u, c, p, x);
    } else if Removing(p.stage) {
      RemoveOk(st, u, c, p, x);
    } else if Uninstalling(p.stage) {
      UninstallOk(st, u, c, p, x);
    }
  }
}
