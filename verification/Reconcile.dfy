/** One reconcile pass as a machine that makes one API call per step
    (openstacklightspeed_controller.go, ols_install.go, funcs.go).  Between two
    steps anybody else may change the cluster; what the pass has read is kept
    in its stage. */
module Reconcile {
  import opened Wrappers
  import opened Json
  import opened Cluster
  import opened OcpVersion
  import opened Install
  import opened OlsConfig

  const MAX_TOKENS_DEFAULT := 2048

  /** What the caller of Reconcile is told: requeue later, or an error. */
  datatype Outcome = Outcome(requeue: bool, failed: bool)

  const DONE := Outcome(false, false)
  const LATER := Outcome(true, false)
  const ERROR := Outcome(false, true)

  /** The next API call of a pass, with the copies it will compare or write. */
  datatype Stage =
    | Idle
    // EnsureOLSOperatorInstalled
    | FindForeign
    | CheckSub(csv: Csv)
    | ReadSub
    | WriteSub(sub: Option<Subscription>)
    | FindPlan
    | ApprovePlan(plan: InstallPlan)
    | FindCsv
    | AdoptCsv(csv: Csv)
    | ConfirmCsv
    // the OLSConfig
    | ReadConfig
    | WriteConfig(read: Option<OLSConfig>, patched: OLSConfig)
    | CheckReady
    | ReadPing
    | WritePing(cfg: OLSConfig)
    // RemoveOLSConfig
    | FindConfig
    | RereadConfig
    | ReleaseConfig(cfg: OLSConfig)
    | DropConfig
    | ConfirmNoConfig
    // UninstallInstanceOwnedOLSOperator
    | FindOwnCsv
    | FindOldPlan(csv: Csv)
    | DropPlan(csv: Csv, plan: InstallPlan)
    | DropCsv(csv: Csv)
    | ConfirmNoCsv
    | ConfirmNoPlan
    // the deferred PatchInstance
    | Finish(outcome: Outcome)

  /** What a pass saw or did, in order; a write is logged with the copy that
      was read. */
  datatype Event =
    | SubKept(sub: Subscription)
    | SubWritten
    | PlanSelected(plan: InstallPlan)
    | PlanApproved(plan: InstallPlan)
    | CsvFound(csv: Csv)
    | CsvAdopted(csv: Csv)
    | OperatorComplete(csv: Csv)
    | ConfigKept(cfg: OLSConfig)
    | ConfigRead(read: Option<OLSConfig>)
    | ConfigWritten(read: Option<OLSConfig>, patched: OLSConfig)
    | ReadySeen
    | NoConfigSeen
    | PlanDropped(plan: InstallPlan)
    | CsvDropped(csv: Csv)
    | CsvClear(first: Option<Csv>)

  /** The events of a pass, the latest one outermost. */
  datatype Log = Nothing | Then(before: Log, event: Event)

  /** A pass works on its own copy of the instance, read as `base`: it may
      change the spec, the finalizer and the status of that copy.  `result` is
      what the caller was told when the last pass ended. */
  datatype Pass = Pass(
    stage: Stage, base: Instance, spec: Spec, finalizer: bool,
    conditions: map<Condition, Truth>, active: string, log: Log, result: Outcome)
  {
    function To(next: Stage): Pass {
      this.(stage := next)
    }

    function Note(e: Event): Pass {
      this.(log := Then(log, e))
    }

    function Set(k: Condition, t: Truth): Pass {
      this.(conditions := conditions[k := t])
    }

    /** The copy as it stands. */
    function Inst(): Instance {
      base.(spec := spec, finalizer := finalizer, status := Status(conditions, active))
    }

    /** The final patch will take the operator's finalizer off the instance. */
    predicate Releasing() {
      stage.Finish? && base.finalizer && !finalizer
    }
  }

  /** How an API call went: as the cluster decides, or with an error. */
  datatype Fault = NoFault | Conflict | ServerError

  datatype Input = Input(fault: Fault, ping: string)

  function See<T>(x: Input, v: T): Result<T> {
    if x.fault == NoFault then Ok(v) else Err("API error")
  }

  // ----------------------------------------------------------- leaving a pass

  function InstallFailed(p: Pass): Pass {
    p.Set(OperatorReady, IsFalse).To(Finish(DONE))
  }

  function InstallWait(p: Pass): Pass {
    p.Set(OperatorReady, IsFalse).To(Finish(LATER))
  }

  function ConfigFailed(p: Pass): Pass {
    p.Set(LightspeedReady, IsFalse).To(Finish(ERROR))
  }

  function Released(p: Pass): Pass {
    p.(finalizer := false).To(Finish(DONE))
  }

  // --------------------------------------------------------- the install stages

  function AfterFindForeign(p: Pass, seen: Result<Option<Csv>>): Pass {
    match seen
    case Err(_) => InstallFailed(p)
    case Ok(None) => p.To(ReadSub)
    case Ok(Some(csv)) => p.To(CheckSub(csv))
  }

  predicate Foreign(u: Uid, csv: Csv, sub: Option<Subscription>) {
    !OwnedBy(csv.owners, u) && (sub.Some? ==> !OwnedBy(sub.value.owners, u))
  }

  function AfterCheckSub(u: Uid, p: Pass, csv: Csv, seen: Result<Option<Subscription>>): Pass {
    match seen
    case Err(_) => InstallFailed(p)
    case Ok(sub) => if Foreign(u, csv, sub) then InstallFailed(p) else p.To(ReadSub)
  }

  function AfterReadSub(st: Settings, u: Uid, p: Pass, seen: Result<Option<Subscription>>): Pass {
    match (seen, GetRecommendedOLSVersion(st.olsVersion))
    case (Ok(sub), Ok(version)) =>
      if sub != Some(DesiredSubscription(version, u, p.base, sub)) then p.To(WriteSub(sub))
      else if sub.value.installPlanRef.None? then InstallWait(p)
      else p.Note(SubKept(sub.value)).To(FindPlan)
    case (_, _) => InstallFailed(p)
  }

  /** Create, or Update with the copy that was read. */
  predicate SubWriteAccepted(u: Uid, c: Cluster, p: Pass, sub: Option<Subscription>, x: Input) {
    var key := SubscriptionKey(u, p.base);
    && x.fault == NoFault
    && (if sub.None? then key !in c.subscriptions else key in c.subscriptions && c.subscriptions[key] == sub.value)
  }

  function WriteSubStep(st: Settings, u: Uid, c: Cluster, p: Pass, sub: Option<Subscription>, x: Input): (Cluster, Pass) {
    match GetRecommendedOLSVersion(st.olsVersion)
    case Ok(version) =>
      if SubWriteAccepted(u, c, p, sub, x) then
        (c.(subscriptions := c.subscriptions[SubscriptionKey(u, p.base) := DesiredSubscription(version, u, p.base, sub)]),
         InstallWait(p.Note(SubWritten)))
      else (c, InstallFailed(p))
    case Err(_) => (c, InstallFailed(p))
  }

  function SelectPlan(st: Settings, c: Cluster, p: Pass, x: Input): Result<Option<InstallPlan>> {
    var plans :- See(x, c.plans);
    var version :- GetRecommendedOLSVersion(st.olsVersion);
    Ok(FirstPlan(plans, p.base.namespace, version))
  }

  function AfterFindPlan(p: Pass, seen: Result<Option<InstallPlan>>): Pass {
    match seen
    case Err(_) => InstallFailed(p)
    case Ok(None) => InstallWait(p)
    case Ok(Some(plan)) => p.Note(PlanSelected(plan)).To(ApprovePlan(plan))
  }

  function ApproveStep(c: Cluster, p: Pass, plan: InstallPlan, x: Input): (Cluster, Pass) {
    if x.fault == NoFault && plan in c.plans then
      var approved := plan.(approved := true);
      (c.(plans := Replace(c.plans, plan, approved)), p.Note(PlanApproved(plan)).To(FindCsv))
    else (c, InstallFailed(p))
  }

  function AfterFindCsv(p: Pass, seen: Result<Option<Csv>>): Pass {
    match seen
    case Err(_) => InstallFailed(p)
    case Ok(None) => InstallWait(p)
    case Ok(Some(csv)) => p.Note(CsvFound(csv)).To(AdoptCsv(csv))
  }

  /** A conflict ends the pass with a requeue, any other error without one. */
  function AdoptStep(u: Uid, c: Cluster, p: Pass, csv: Csv, x: Input): (Cluster, Pass) {
    if x.fault == NoFault && csv in c.csvs then
      var owned := csv.(owners := InstanceOwner(u, p.base));
      (c.(csvs := Replace(c.csvs, csv, owned)), p.Note(CsvAdopted(csv)).To(ConfirmCsv))
    else if x.fault == Conflict || (x.fault == NoFault && exists i :: 0 <= i < |c.csvs| && c.csvs[i].key == csv.key)
    then (c, InstallWait(p))
    else (c, InstallFailed(p))
  }

  predicate Complete(u: Uid, csv: Csv) {
    OwnedBy(csv.owners, u) && csv.phase == PHASE_SUCCEEDED
  }

  function AfterConfirmCsv(u: Uid, p: Pass, seen: Result<Option<Csv>>): Pass {
    match seen
    case Err(_) => InstallFailed(p)
    case Ok(None) => InstallWait(p)
    case Ok(Some(csv)) =>
      if Complete(u, csv) then p.Set(OperatorReady, IsTrue).Note(OperatorComplete(csv)).To(ReadConfig)
      else InstallWait(p)
  }

  // ------------------------------------------------------- the OLSConfig stages

  /** PatchOLSConfig on the copy that was read, or on a new object. */
  function Attempt(st: Settings, u: Uid, p: Pass, read: Option<OLSConfig>): Result<OLSConfig> {
    PatchOLSConfig(st, u, p.Inst(), if read.Some? then read.value else EMPTY_CONFIG)
  }

  /** The ownership guard, then the attempt; nothing is sent if the copy did
      not change. */
  function AfterReadConfig(u: Uid, p: Pass, seen: Result<Option<OLSConfig>>, attempt: Result<OLSConfig>): Pass {
    match seen
    case Err(_) => ConfigFailed(p)
    case Ok(read) =>
      if read.Some? && read.value.Owner() != "" && read.value.Owner() != u then ConfigFailed(p)
      else match attempt
        case Err(_) => ConfigFailed(p)
        case Ok(patched) =>
          if read == Some(patched) then p.Note(ConfigKept(patched)).To(CheckReady)
          else p.Note(ConfigRead(read)).To(WriteConfig(read, patched))
  }

  /** What the write leaves in place of the server's object: the new object,
      or the merge patch applied to whatever is there by then. */
  function Merged(st: Settings, u: Uid, p: Pass, read: Option<OLSConfig>, patched: OLSConfig, cur: Option<OLSConfig>): OLSConfig {
    if read.None? || cur.None? then patched else MergeOLSConfig(st, u, p.Inst(), read.value, cur.value)
  }

  function WriteConfigStep(c: Cluster, p: Pass, read: Option<OLSConfig>, patched: OLSConfig, merged: OLSConfig, x: Input): (Cluster, Pass) {
    if x.fault != NoFault || read.None? != c.config.None? then (c, ConfigFailed(p))
    else if c.config.Some? && !MayWriteFinalizers(c.config.value, merged) then (c, ConfigFailed(p))
    else (c.(config := Settle(merged)), p.Note(ConfigWritten(read, patched)).To(CheckReady))
  }

  function AfterCheckReady(p: Pass, seen: Result<Option<OLSConfig>>): Pass {
    match seen
    case Ok(Some(cfg)) =>
      (match OverallStatus(cfg.body)
       case Err(_) => p.To(Finish(ERROR))
       case Ok(s) =>
         if s == Some("Ready") then p.Set(LightspeedReady, IsTrue).Note(ReadySeen).To(Finish(DONE))
         else p.To(ReadPing))
    case _ => p.To(Finish(ERROR))
  }

  function AfterReadPing(p: Pass, seen: Result<Option<OLSConfig>>): Pass {
    match seen
    case Ok(Some(cfg)) => p.To(WritePing(cfg))
    case _ => p.To(Finish(ERROR))
  }

  function WritePingStep(c: Cluster, p: Pass, cfg: OLSConfig, x: Input): (Cluster, Pass) {
    if x.fault == NoFault && c.config == Some(cfg) then
      (c.(config := Some(PingOLSConfig(cfg, x.ping))), p.To(Finish(LATER)))
    else (c, p.To(Finish(ERROR)))
  }

  // -------------------------------------------------------- the teardown stages

  function AfterFindConfig(p: Pass, seen: Result<Option<OLSConfig>>): Pass {
    match seen
    case Err(_) => p.To(Finish(ERROR))
    case Ok(None) => p.Note(NoConfigSeen).To(FindOwnCsv)
    case Ok(Some(_)) => p.To(RereadConfig)
  }

  /** The closure leaves a foreign OLSConfig alone, but the Delete that follows
      is issued all the same.  If the object vanished since it was listed,
      CreateOrPatch tries to create a copy that carries a resource version,
      which the API server refuses. */
  function AfterReread(st: Settings, u: Uid, p: Pass, seen: Result<Option<OLSConfig>>): Pass {
    match seen
    case Ok(Some(cfg)) =>
      if cfg.Owner() != u then p.To(DropConfig)
      else if st.finalizer in cfg.finalizers then p.To(ReleaseConfig(cfg))
      else p.To(Finish(ERROR))
    case _ => p.To(Finish(ERROR))
  }

  function Without(fs: seq<string>, f: string): (r: seq<string>)
    ensures f !in r && forall g :: g in r ==> g in fs
    ensures forall g :: g in fs && g != f ==> g in r
  {
    if fs == [] then [] else if fs[0] == f then Without(fs[1..], f) else [fs[0]] + Without(fs[1..], f)
  }

  /** Only f is taken out, wherever it stands, and the others keep their order. */
  lemma {:induction false} WithoutExactly(a: seq<string>, b: seq<string>, f: string)
    ensures Without(a + b, f) == Without(a, f) + Without(b, f)
    ensures Without([f], f) == []
    ensures f !in a ==> Without(a, f) == a
  {
    if a == [] {
      assert a + b == b;
    } else {
      assert (a + b)[1..] == a[1..] + b;
      WithoutExactly(a[1..], b, f);
      assert a == [a[0]] + a[1..];
    }
  }

  function ReleaseStep(st: Settings, c: Cluster, p: Pass, cfg: OLSConfig, x: Input): (Cluster, Pass) {
    if x.fault != NoFault || c.config.None? then (c, p.To(Finish(ERROR)))
    else
      var released := c.config.value.(finalizers := Without(cfg.finalizers, st.finalizer));
      if MayWriteFinalizers(c.config.value, released) then (c.(config := Settle(released)), p.To(DropConfig))
      else (c, p.To(Finish(ERROR)))
  }

  function DropConfigStep(c: Cluster, p: Pass, x: Input): (Cluster, Pass) {
    if x.fault != NoFault || c.config.None? then (c, p.To(Finish(ERROR)))
    else (c.(config := DeleteConfig(c.config.value)), p.To(ConfirmNoConfig))
  }

  function AfterConfirmNoConfig(p: Pass, seen: Result<Option<OLSConfig>>): Pass {
    match seen
    case Err(_) => p.To(Finish(ERROR))
    case Ok(None) => p.Note(NoConfigSeen).To(FindOwnCsv)
    case Ok(Some(_)) => p.To(Finish(LATER))
  }

  function AfterFindOwnCsv(u: Uid, p: Pass, seen: Result<Option<Csv>>): Pass {
    match seen
    case Err(_) => p.To(Finish(ERROR))
    case Ok(None) => Released(p.Note(CsvClear(None)))
    case Ok(Some(csv)) =>
      if OwnedBy(csv.owners, u) then p.To(FindOldPlan(csv)) else Released(p.Note(CsvClear(Some(csv))))
  }

  function AfterFindOldPlan(p: Pass, csv: Csv, seen: Result<Option<InstallPlan>>): Pass {
    match seen
    case Err(_) => p.To(Finish(ERROR))
    case Ok(None) => p.To(DropCsv(csv))
    case Ok(Some(plan)) => p.Note(PlanSelected(plan)).To(DropPlan(csv, plan))
  }

  /** NotFound counts as deleted. */
  function DropPlanStep(c: Cluster, p: Pass, csv: Csv, plan: InstallPlan, x: Input): (Cluster, Pass) {
    if x.fault != NoFault then (c, p.To(Finish(ERROR)))
    else match DeletePlan(c.plans, plan.key)
      case None => (c, p.To(DropCsv(csv)))
      case Some(plans) => (c.(plans := plans), p.Note(PlanDropped(plan)).To(DropCsv(csv)))
  }

  function DropCsvStep(c: Cluster, p: Pass, csv: Csv, x: Input): (Cluster, Pass) {
    if x.fault != NoFault then (c, p.To(Finish(ERROR)))
    else match DeleteCsv(c.csvs, csv.key)
      case None => (c, p.To(Finish(ERROR)))
      case Some(csvs) => (c.(csvs := csvs), p.Note(CsvDropped(csv)).To(ConfirmNoCsv))
  }

  function AfterConfirmNoCsv(p: Pass, seen: Result<Option<Csv>>): Pass {
    match seen
    case Err(_) => p.To(Finish(ERROR))
    case Ok(None) => p.Note(CsvClear(None)).To(ConfirmNoPlan)
    case Ok(Some(_)) => p.To(Finish(LATER))
  }

  function AfterConfirmNoPlan(p: Pass, seen: Result<Option<InstallPlan>>): Pass {
    match seen
    case Err(_) => p.To(Finish(ERROR))
    case Ok(None) => Released(p)
    case Ok(Some(_)) => p.To(Finish(LATER))
  }

  // ------------------------------------------------------------- start and finish

  predicate AllSubConditionsTrue(m: map<Condition, Truth>) {
    forall k :: k in m && k != Ready ==> m[k] == IsTrue
  }

  /** The deferred step's value of the Ready condition. */
  function ReadyOf(m: map<Condition, Truth>): Truth {
    if AllSubConditionsTrue(m) then IsTrue
    else if exists k :: k in m && k != Ready && m[k] == IsFalse then IsFalse
    else IsUnknown
  }

  function WithDefaults(st: Settings, s: Spec): Spec {
    s.(ragImage := if s.ragImage == "" then st.ragImage else s.ragImage,
       maxTokensForResponse := if s.maxTokensForResponse == 0 then MAX_TOKENS_DEFAULT else s.maxTokensForResponse)
  }

  /** Conditions.Init, resolveOCPVersion and the choice of path; `fetched` is
      the cluster version string, None if it could not be read. */
  function Begin(st: Settings, i: Instance, fetched: Option<string>): Pass {
    var r := Resolve(fetched, i.spec.ocpVersionOverride, i.spec.enableOcpRag);
    var conditions := i.status.conditions[LightspeedReady := IsUnknown]
                                         [OcpRagReady := if r.RagTrue() then IsTrue else IsFalse];
    if i.deleting then Pass(FindConfig, i, i.spec, i.finalizer, conditions, r.active, Nothing, DONE)
    else if !i.finalizer then Pass(Finish(DONE), i, i.spec, true, conditions, r.active, Nothing, DONE)
    else Pass(FindForeign, i, WithDefaults(st, i.spec), true, conditions, r.active, Nothing, DONE)
  }

  function Pick<T(==)>(base: T, mine: T, cur: T): T {
    if mine == base then cur else mine
  }

  /** The deferred step recomputes the Ready condition. */
  function Final(p: Pass): Pass {
    p.Set(Ready, ReadyOf(p.conditions))
  }

  /** The pass is over, and its caller is told the outcome. */
  function Over(p: Pass): Pass
    requires p.stage.Finish?
  {
    Final(p).To(Idle).(result := p.stage.outcome)
  }

  /** helper.PatchInstance: the difference between the copy as read and the
      copy as it is, applied to the server's object. */
  function PatchedInstance(before: Instance, after: Instance, cur: Instance): Instance {
    cur.(finalizer := Pick(before.finalizer, after.finalizer, cur.finalizer),
         spec := cur.spec.(
           ragImage := Pick(before.spec.ragImage, after.spec.ragImage, cur.spec.ragImage),
           maxTokensForResponse := Pick(before.spec.maxTokensForResponse, after.spec.maxTokensForResponse,
                                        cur.spec.maxTokensForResponse)),
         status := Status(
           Pick(before.status.conditions, after.status.conditions, cur.status.conditions),
           Pick(before.status.activeOcpVersion, after.status.activeOcpVersion, cur.status.activeOcpVersion)))
  }

  /** What the pass changed since it read the instance. */
  function MergeInstance(p: Pass, cur: Instance): Instance {
    PatchedInstance(p.base, p.Inst(), cur)
  }

  /** An error of this last call is swallowed. */
  function FinishStep(u: Uid, c: Cluster, p: Pass, x: Input): (Cluster, Pass)
    requires p.stage.Finish?
  {
    var done := Over(p);
    if x.fault != NoFault || u !in c.instances then (c, done)
    else
      var cur := c.instances[u];
      var next := MergeInstance(Final(p), cur);
      if cur.deleting && next.finalizer && !cur.finalizer then (c, done)
      else if next.deleting && !next.finalizer && !next.held then (c.(instances := c.instances - {u}), done)
      else (c.(instances := c.instances[u := next]), done)
  }

  // ---------------------------------------------- start and finish, field by field

  /** Which spec a pass works with: a RAG image or token limit that is given
      stays, one that is not becomes the default, and nothing else changes. */
  predicate Defaulted(st: Settings, s: Spec, s': Spec) {
    && (s.ragImage != "" ==> s'.ragImage == s.ragImage) && (s.ragImage == "" ==> s'.ragImage == st.ragImage)
    && (s.maxTokensForResponse != 0 ==> s'.maxTokensForResponse == s.maxTokensForResponse)
    && (s.maxTokensForResponse == 0 ==> s'.maxTokensForResponse == 2048)
    && s' == s.(ragImage := s'.ragImage, maxTokensForResponse := s'.maxTokensForResponse)
  }

  lemma DefaultsExactly(st: Settings, s: Spec, s': Spec)
    ensures Defaulted(st, s, s') <==> s' == WithDefaults(st, s)
  {
  }

  /** The copy i' with which a pass over i begins, field by field: the spec with
      its defaults if the pass is to install; the finalizer unless the instance
      is being deleted; its own condition undecided, the OCP RAG condition and
      the version as resolved, and all else as it was. */
  predicate BegunFrom(st: Settings, i: Instance, fetched: Option<string>, i': Instance) {
    var r := Resolve(fetched, i.spec.ocpVersionOverride, i.spec.enableOcpRag);
    && (if i.deleting || !i.finalizer then i'.spec == i.spec else Defaulted(st, i.spec, i'.spec))
    && i'.finalizer == (i.finalizer || !i.deleting)
    && i'.status.activeOcpVersion == r.active
    && i'.status.conditions.Keys == i.status.conditions.Keys + {LightspeedReady, OcpRagReady}
    && i'.status.conditions[LightspeedReady] == IsUnknown
    && (i'.status.conditions[OcpRagReady] == IsTrue <==> r.RagTrue()) && i'.status.conditions[OcpRagReady] != IsUnknown
    && (forall k :: k in i.status.conditions && k != LightspeedReady && k != OcpRagReady ==>
          i'.status.conditions[k] == i.status.conditions[k])
    && i' == i.(spec := i'.spec, finalizer := i'.finalizer, status := i'.status)
  }

  lemma BeginExactly(st: Settings, i: Instance, fetched: Option<string>)
    ensures var p := Begin(st, i, fetched);
            && BegunFrom(st, i, fetched, p.Inst()) && p.base == i && p.log.Nothing?
            && (if i.deleting then p.stage.FindConfig?
                else if i.finalizer then p.stage.FindForeign?
                else p.stage == Finish(Outcome(false, false)))
  {
  }

  /** The Ready condition in terms of the other three. */
  lemma ReadyOfExactly(m: map<Condition, Truth>)
    ensures ReadyOf(m) == IsFalse <==>
              || (OperatorReady in m && m[OperatorReady] == IsFalse)
              || (LightspeedReady in m && m[LightspeedReady] == IsFalse)
              || (OcpRagReady in m && m[OcpRagReady] == IsFalse)
    ensures ReadyOf(m) == IsTrue <==>
              && (OperatorReady in m ==> m[OperatorReady] == IsTrue)
              && (LightspeedReady in m ==> m[LightspeedReady] == IsTrue)
              && (OcpRagReady in m ==> m[OcpRagReady] == IsTrue)
  {
    forall k | k in m && k != Ready ensures k == OperatorReady || k == LightspeedReady || k == OcpRagReady { }
  }

  /** What PatchInstance leaves of an instance that has become `cur`: of the
      finalizer, the two defaulted fields, the conditions and the active version
      each is the pass's if the pass changed it and the server's if not; all
      else is the server's. */
  lemma PatchedInstanceExactly(before: Instance, after: Instance, cur: Instance)
    ensures var r := PatchedInstance(before, after, cur);
            && (after.finalizer != before.finalizer ==> r.finalizer == after.finalizer)
            && (after.finalizer == before.finalizer ==> r.finalizer == cur.finalizer)
            && (after.spec.ragImage != before.spec.ragImage ==> r.spec.ragImage == after.spec.ragImage)
            && (after.spec.ragImage == before.spec.ragImage ==> r.spec.ragImage == cur.spec.ragImage)
            && (after.spec.maxTokensForResponse != before.spec.maxTokensForResponse ==>
                  r.spec.maxTokensForResponse == after.spec.maxTokensForResponse)
            && (after.spec.maxTokensForResponse == before.spec.maxTokensForResponse ==>
                  r.spec.maxTokensForResponse == cur.spec.maxTokensForResponse)
            && (after.status.conditions != before.status.conditions ==> r.status.conditions == after.status.conditions)
            && (after.status.conditions == before.status.conditions ==> r.status.conditions == cur.status.conditions)
            && (after.status.activeOcpVersion != before.status.activeOcpVersion ==>
                  r.status.activeOcpVersion == after.status.activeOcpVersion)
            && (after.status.activeOcpVersion == before.status.activeOcpVersion ==>
                  r.status.activeOcpVersion == cur.status.activeOcpVersion)
            && r == cur.(finalizer := r.finalizer, status := r.status,
                         spec := cur.spec.(ragImage := r.spec.ragImage, maxTokensForResponse := r.spec.maxTokensForResponse))
  {
  }

  /** The end of a pass: nothing happens on a fault or if the instance is gone,
      nor if the finalizer would be added to one that is being deleted; an
      instance disappears when it is being deleted and no finalizer is left;
      else it becomes what PatchInstance makes of it.  The caller is told the
      outcome in any case. */
  lemma FinishExactly(u: Uid, c: Cluster, p: Pass, x: Input)
    requires p.stage.Finish?
    ensures var (c', p') := FinishStep(u, c, p, x);
            && p'.stage.Idle? && p'.result == p.stage.outcome
            && c' == c.(instances := c'.instances) && c'.instances - {u} == c.instances - {u}
            && (x.fault != NoFault || u !in c.instances ==> c' == c)
            && (x.fault == NoFault && u in c.instances ==>
                  var cur, next := c.instances[u], MergeInstance(Final(p), c.instances[u]);
                  if cur.deleting && !cur.finalizer && next.finalizer then c' == c
                  else if cur.deleting && !next.finalizer && !cur.held then u !in c'.instances
                  else u in c'.instances && c'.instances[u] == next)
  {
  }

  // ------------------------------------------------------------------- one step

  predicate Installing(s: Stage) {
    || s.FindForeign? || s.CheckSub? || s.ReadSub? || s.WriteSub? || s.FindPlan?
    || s.ApprovePlan? || s.FindCsv? || s.AdoptCsv? || s.ConfirmCsv?
  }

  predicate Configuring(s: Stage) {
    s.ReadConfig? || s.WriteConfig? || s.CheckReady? || s.ReadPing? || s.WritePing?
  }

  predicate Removing(s: Stage) {
    s.FindConfig? || s.RereadConfig? || s.ReleaseConfig? || s.DropConfig? || s.ConfirmNoConfig?
  }

  predicate Uninstalling(s: Stage) {
    s.FindOwnCsv? || s.FindOldPlan? || s.DropPlan? || s.DropCsv? || s.ConfirmNoCsv? || s.ConfirmNoPlan?
  }

  function InstallStep(st: Settings, u: Uid, c: Cluster, p: Pass, x: Input): (Cluster, Pass)
    requires Installing(p.stage)
  {
    match p.stage
    case FindForeign => (c, AfterFindForeign(p, See(x, FirstCsv(c.csvs))))
    case CheckSub(csv) => (c, AfterCheckSub(u, p, csv, See(x, GetSub(c, SubscriptionKey(u, p.base)))))
    case ReadSub => (c, AfterReadSub(st, u, p, See(x, GetSub(c, SubscriptionKey(u, p.base)))))
    case WriteSub(sub) => WriteSubStep(st, u, c, p, sub, x)
    case FindPlan => (c, AfterFindPlan(p, SelectPlan(st, c, p, x)))
    case ApprovePlan(plan) => ApproveStep(c, p, plan, x)
    case FindCsv => (c, AfterFindCsv(p, See(x, FirstCsv(c.csvs))))
    case AdoptCsv(csv) => AdoptStep(u, c, p, csv, x)
    case ConfirmCsv => (c, AfterConfirmCsv(u, p, See(x, FirstCsv(c.csvs))))
  }

  function ConfigStep(st: Settings, u: Uid, c: Cluster, p: Pass, x: Input): (Cluster, Pass)
    requires Configuring(p.stage)
  {
    match p.stage
    case ReadConfig => (c, AfterReadConfig(u, p, See(x, c.config), Attempt(st, u, p, c.config)))
    case WriteConfig(read, patched) => WriteConfigStep(c, p, read, patched, Merged(st, u, p, read, patched, c.config), x)
    case CheckReady => (c, AfterCheckReady(p, See(x, c.config)))
    case ReadPing => (c, AfterReadPing(p, See(x, c.config)))
    case WritePing(cfg) => WritePingStep(c, p, cfg, x)
  }

  function RemoveStep(st: Settings, u: Uid, c: Cluster, p: Pass, x: Input): (Cluster, Pass)
    requires Removing(p.stage)
  {
    match p.stage
    case FindConfig => (c, AfterFindConfig(p, See(x, c.config)))
    case RereadConfig => (c, AfterReread(st, u, p, See(x, c.config)))
    case ReleaseConfig(cfg) => ReleaseStep(st, c, p, cfg, x)
    case DropConfig => DropConfigStep(c, p, x)
    case ConfirmNoConfig => (c, AfterConfirmNoConfig(p, See(x, c.config)))
  }

  function UninstallStep(st: Settings, u: Uid, c: Cluster, p: Pass, x: Input): (Cluster, Pass)
    requires Uninstalling(p.stage)
  {
    match p.stage
    case FindOwnCsv => (c, AfterFindOwnCsv(u, p, See(x, FirstCsv(c.csvs))))
    case FindOldPlan(csv) => (c, AfterFindOldPlan(p, csv, SelectPlan(st, c, p, x)))
    case DropPlan(csv, plan) => DropPlanStep(c, p, csv, plan, x)
    case DropCsv(csv) => DropCsvStep(c, p, csv, x)
    case ConfirmNoCsv => (c, AfterConfirmNoCsv(p, See(x, FirstCsv(c.csvs))))
    case ConfirmNoPlan => (c, AfterConfirmNoPlan(p, SelectPlan(st, c, p, x)))
  }

  function PassStep(st: Settings, u: Uid, c: Cluster, p: Pass, x: Input): (Cluster, Pass) {
    if p.stage.Idle? then (c, p)
    else if p.stage.Finish? then FinishStep(u, c, p, x)
    else if Installing(p.stage) then InstallStep(st, u, c, p, x)
    else if Configuring(p.stage) then ConfigStep(st, u, c, p, x)
    else if Removing(p.stage) then RemoveStep(st, u, c, p, x)
    else UninstallStep(st, u, c, p, x)
  }

  function GetSub(c: Cluster, key: Key): Option<Subscription> {
    if key in c.subscriptions then Some(c.subscriptions[key]) else None
  }

  /** An upper bound on the API calls left in a pass. */
  function CallsLeft(s: Stage): nat {
    match s
    case Idle => 0
    case Finish(_) => 1
    case WritePing(_) | ConfirmNoPlan => 2
    case ReadPing | ConfirmNoCsv => 3
    case CheckReady | DropCsv(_) => 4
    case WriteConfig(_, _) | DropPlan(_, _) => 5
    case ReadConfig | FindOldPlan(_) => 6
    case ConfirmCsv | FindOwnCsv => 7
    case AdoptCsv(_) | ConfirmNoConfig => 8
    case FindCsv | DropConfig => 9
    case ApprovePlan(_) | ReleaseConfig(_) => 10
    case FindPlan | RereadConfig => 11
    case WriteSub(_) | FindConfig => 12
    case ReadSub => 13
    case CheckSub(_) => 14
    case FindForeign => 15
  }

  lemma InstallTerminates(st: Settings, u: Uid, c: Cluster, p: Pass, x: Input)
    requires Installing(p.stage)
    ensures CallsLeft(InstallStep(st, u, c, p, x).1.stage) < CallsLeft(p.stage)
  {
    var q := InstallStep(st, u, c, p, x).1.stage;
    match p.stage
    case FindForeign => assert q.CheckSub? || q.ReadSub? || q.Finish?;
    case CheckSub(_) => assert q.ReadSub? || q.Finish?;
    case ReadSub => assert q.WriteSub? || q.FindPlan? || q.Finish?;
    case WriteSub(_) => assert q.Finish?;
    case FindPlan => assert q.ApprovePlan? || q.Finish?;
    case ApprovePlan(_) => assert q.FindCsv? || q.Finish?;
    case FindCsv => assert q.AdoptCsv? || q.Finish?;
    case AdoptCsv(_) => assert q.ConfirmCsv? || q.Finish?;
    case ConfirmCsv => assert q.ReadConfig? || q.Finish?;
  }

  lemma ReadConfigTerminates(u: Uid, p: Pass, seen: Result<Option<OLSConfig>>, attempt: Result<OLSConfig>)
    requires p.stage.ReadConfig?
    ensures CallsLeft(AfterReadConfig(u, p, seen, attempt).stage) < CallsLeft(p.stage)
  {
    var q := AfterReadConfig(u, p, seen, attempt).stage;
    assert q.WriteConfig? || q.CheckReady? || q.Finish?;
  }

  lemma WriteConfigTerminates(c: Cluster, p: Pass, read: Option<OLSConfig>, patched: OLSConfig, merged: OLSConfig, x: Input)
    requires p.stage.WriteConfig?
    ensures CallsLeft(WriteConfigStep(c, p, read, patched, merged, x).1.stage) < CallsLeft(p.stage)
  {
    var q := WriteConfigStep(c, p, read, patched, merged, x).1.stage;
    assert q.CheckReady? || q.Finish?;
  }

  lemma CheckReadyTerminates(p: Pass, seen: Result<Option<OLSConfig>>)
    requires p.stage.CheckReady?
    ensures CallsLeft(AfterCheckReady(p, seen).stage) < CallsLeft(p.stage)
  {
    var q := AfterCheckReady(p, seen).stage;
    assert q.ReadPing? || q.Finish?;
  }

  lemma ConfigTerminates(st: Settings, u: Uid, c: Cluster, p: Pass, x: Input)
    requires Configuring(p.stage)
    ensures CallsLeft(ConfigStep(st, u, c, p, x).1.stage) < CallsLeft(p.stage)
  {
    match p.stage
    case ReadConfig => ReadConfigTerminates(u, p, See(x, c.config), Attempt(st, u, p, c.config));
    case WriteConfig(read, patched) => WriteConfigTerminates(c, p, read, patched, Merged(st, u, p, read, patched, c.config), x);
    case CheckReady => CheckReadyTerminates(p, See(x, c.config));
    case ReadPing =>
    case WritePing(_) =>
  }

  lemma RemoveTerminates(st: Settings, u: Uid, c: Cluster, p: Pass, x: Input)
    requires Removing(p.stage)
    ensures CallsLeft(RemoveStep(st, u, c, p, x).1.stage) < CallsLeft(p.stage)
  {
    var q := RemoveStep(st, u, c, p, x).1.stage;
    match p.stage
    case FindConfig => assert q.RereadConfig? || q.FindOwnCsv? || q.Finish?;
    case RereadConfig => assert q.ReleaseConfig? || q.DropConfig? || q.Finish?;
    case ReleaseConfig(_) => assert q.DropConfig? || q.Finish?;
    case DropConfig => assert q.ConfirmNoConfig? || q.Finish?;
    case ConfirmNoConfig => assert q.FindOwnCsv? || q.Finish?;
  }

  lemma FindOldPlanTerminates(p: Pass, csv: Csv, seen: Result<Option<InstallPlan>>)
    requires p.stage.FindOldPlan?
    ensures CallsLeft(AfterFindOldPlan(p, csv, seen).stage) < CallsLeft(p.stage)
  {
    var q := AfterFindOldPlan(p, csv, seen).stage;
    assert q.DropPlan? || q.DropCsv? || q.Finish?;
  }

  lemma ConfirmNoPlanTerminates(p: Pass, seen: Result<Option<InstallPlan>>)
    requires p.stage.ConfirmNoPlan?
    ensures CallsLeft(AfterConfirmNoPlan(p, seen).stage) < CallsLeft(p.stage)
  {
    assert AfterConfirmNoPlan(p, seen).stage.Finish?;
  }

  lemma DropPlanTerminates(c: Cluster, p: Pass, csv: Csv, plan: InstallPlan, x: Input)
    requires p.stage.DropPlan?
    ensures CallsLeft(DropPlanStep(c, p, csv, plan, x).1.stage) < CallsLeft(p.stage)
  {
    var q := DropPlanStep(c, p, csv, plan, x).1.stage;
    assert q.DropCsv? || q.Finish?;
  }

  lemma DropCsvTerminates(c: Cluster, p: Pass, csv: Csv, x: Input)
    requires p.stage.DropCsv?
    ensures CallsLeft(DropCsvStep(c, p, csv, x).1.stage) < CallsLeft(p.stage)
  {
    var q := DropCsvStep(c, p, csv, x).1.stage;
    assert q.ConfirmNoCsv? || q.Finish?;
  }

  lemma OwnCsvTerminates(u: Uid, p: Pass, seen: Result<Option<Csv>>)
    requires p.stage.FindOwnCsv? || p.stage.ConfirmNoCsv?
    ensures p.stage.FindOwnCsv? ==> CallsLeft(AfterFindOwnCsv(u, p, seen).stage) < CallsLeft(p.stage)
    ensures p.stage.ConfirmNoCsv? ==> CallsLeft(AfterConfirmNoCsv(p, seen).stage) < CallsLeft(p.stage)
  {
    var q, r := AfterFindOwnCsv(u, p, seen).stage, AfterConfirmNoCsv(p, seen).stage;
    assert q.FindOldPlan? || q.Finish?;
    assert r.ConfirmNoPlan? || r.Finish?;
  }

  lemma UninstallTerminates(st: Settings, u: Uid, c: Cluster, p: Pass, x: Input)
    requires Uninstalling(p.stage)
    ensures CallsLeft(UninstallStep(st, u, c, p, x).1.stage) < CallsLeft(p.stage)
  {
    match p.stage
    case FindOwnCsv => OwnCsvTerminates(u, p, See(x, FirstCsv(c.csvs)));
    case FindOldPlan(csv) => FindOldPlanTerminates(p, csv, SelectPlan(st, c, p, x));
    case DropPlan(csv, plan) => DropPlanTerminates(c, p, csv, plan, x);
    case DropCsv(csv) => DropCsvTerminates(c, p, csv, x);
    case ConfirmNoCsv => OwnCsvTerminates(u, p, See(x, FirstCsv(c.csvs)));
    case ConfirmNoPlan => ConfirmNoPlanTerminates(p, SelectPlan(st, c, p, x));
  }

  /** Every pass ends, after at most fifteen API calls from its start. */
  lemma PassTerminates(st: Settings, u: Uid, c: Cluster, p: Pass, x: Input)
    requires !p.stage.Idle?
    ensures CallsLeft(PassStep(st, u, c, p, x).1.stage) < CallsLeft(p.stage)
  {
    if Installing(p.stage) {
      InstallTerminates(st, u, c, p, x);
    } else if Configuring(p.stage) {
      ConfigTerminates(st, u, c, p, x);
    } else if Removing(p.stage) {
      RemoveTerminates(st, u, c, p, x);
    } else if Uninstalling(p.stage) {
      UninstallTerminates(st, u, c, p, x);
    }
  }
}
