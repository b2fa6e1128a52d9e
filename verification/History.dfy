/** What a pass's log says about the run it is part of: the install gate, the
    order of teardown, the Ready condition and the approval of plans. */
module History {
  import opened Wrappers
  import opened Json
  import opened OcpVersion
  import opened Cluster
  import opened Install
  import opened OlsConfig
  import opened Reconcile
  import opened Runs
  import opened Orphans

  // ------------------------------------------------------------ run invariants

  lemma {:induction false} RunOk(st: Settings, u: Uid, ls: seq<Local>, ms: seq<Move>, n: nat)
    requires IsRun(st, u, ls, ms) && n < |ls|
    ensures PassOk(st, u, ls[n].pass)
  {
    if n > 0 {
      RunOk(st, u, ls, ms, n - 1);
      var l, m, l' := ls[n - 1], ms[n - 1], ls[n];
      assert NextAt(st, u, ls, ms, n - 1);
      match m
      case Others =>
      case Start(fetched) => BeginOk(st, u, l.cluster.instances[u], fetched);
      case Call(x) => StepOk(st, u, l.cluster, l.pass, x);
      case Crash =>
    }
  }

  lemma NextNoOrphan(st: Settings, u: Uid, l: Local, m: Move, l': Local)
    requires Next(st, u, l, m, l') && PassOk(st, u, l.pass) && NoOrphan(u, l.cluster, l.pass)
    ensures NoOrphan(u, l'.cluster, l'.pass)
  {
    match m
    case Others =>
    case Start(_) =>
    case Call(x) => OwnStepNoOrphan(st, u, l.cluster, l.pass, x);
    case Crash =>
  }

  /** No orphaned OLSConfig in any state of any run. */
  lemma {:induction false} RunNoOrphan(st: Settings, u: Uid, ls: seq<Local>, ms: seq<Move>, n: nat)
    requires IsRun(st, u, ls, ms) && n < |ls|
    ensures NoOrphan(u, ls[n].cluster, ls[n].pass)
  {
    if n > 0 {
      RunNoOrphan(st, u, ls, ms, n - 1);
      RunOk(st, u, ls, ms, n - 1);
      assert NextAt(st, u, ls, ms, n - 1);
      NextNoOrphan(st, u, ls[n - 1], ms[n - 1], ls[n]);
    }
  }

  lemma NextNoOrphanCsv(st: Settings, u: Uid, l: Local, m: Move, l': Local)
    requires Next(st, u, l, m, l') && PassOk(st, u, l.pass) && OwnedFirst(l.cluster, u)
    requires NoOrphan(u, l.cluster, l.pass) && NoOrphanCsv(u, l.cluster, l.pass)
    ensures NoOrphanCsv(u, l'.cluster, l'.pass)
  {
    match m
    case Others =>
    case Start(_) =>
    case Call(x) =>
      if !l.pass.stage.Idle? { OwnStepNoOrphanCsv(st, u, l.cluster, l.pass, x); }
    case Crash =>
  }

  /** No orphaned CSV in any state of a run in which an owned CSV is never
      hidden behind a matching CSV that is not owned. */
  lemma {:induction false} RunNoOrphanCsv(st: Settings, u: Uid, ls: seq<Local>, ms: seq<Move>, n: nat)
    requires IsRun(st, u, ls, ms) && n < |ls|
    requires forall i :: 0 <= i < |ls| ==> OwnedFirst(ls[i].cluster, u)
    ensures NoOrphanCsv(u, ls[n].cluster, ls[n].pass)
  {
    if n > 0 {
      RunNoOrphanCsv(st, u, ls, ms, n - 1);
      RunNoOrphan(st, u, ls, ms, n - 1);
      RunOk(st, u, ls, ms, n - 1);
      assert NextAt(st, u, ls, ms, n - 1);
      NextNoOrphanCsv(st, u, ls[n - 1], ms[n - 1], ls[n]);
    }
  }

  // ------------------------------------------------------- the log is a history

  lemma {:induction false} RunOwnsOnly(st: Settings, u: Uid, ls: seq<Local>, ms: seq<Move>, n: nat)
    requires IsRun(st, u, ls, ms) && n < |ls|
    ensures OwnsOnlyMatches(ls[n].cluster.csvs, u)
  {
    if n > 0 {
      RunOwnsOnly(st, u, ls, ms, n - 1);
      RunOk(st, u, ls, ms, n - 1);
      assert NextAt(st, u, ls, ms, n - 1);
      if ms[n - 1].Call? {
        StepOwnsOnly(st, u, ls[n - 1].cluster, ls[n - 1].pass, ms[n - 1].input);
      } else if ms[n - 1].Others? {
        CsvsFromOwns(u, ls[n - 1].cluster, ls[n].cluster);
      }
    }
  }

  /** No new pass began in steps i up to j. */
  ghost predicate SamePass(ms: seq<Move>, i: nat, j: nat) {
    forall k :: i <= k < j && k < |ms| ==> !ms[k].Start?
  }

  /** Step k of the run is the call of u's pass by which e happened. */
  ghost predicate At(st: Settings, u: Uid, base: Instance, e: Event, ls: seq<Local>, ms: seq<Move>, k: nat) {
    && k < |ms| && k + 1 < |ls| && ms[k].Call? && ls[k].pass.base == base
    && Fact(st, u, ls[k].pass, e, ls[k].cluster, ls[k + 1].cluster)
  }

  /** The events of the log happened one after the other, before step t and in
      the same pass. */
  ghost predicate Happened(st: Settings, u: Uid, base: Instance, log: Log, ls: seq<Local>, ms: seq<Move>, t: nat) {
    match log
    case Nothing => true
    case Then(before, e) =>
      exists k: nat :: k < t && SamePass(ms, k, t) && At(st, u, base, e, ls, ms, k) && Happened(st, u, base, before, ls, ms, k)
  }

  lemma HappenedLater(st: Settings, u: Uid, base: Instance, log: Log, ls: seq<Local>, ms: seq<Move>, t: nat)
    requires Happened(st, u, base, log, ls, ms, t) && (t < |ms| ==> !ms[t].Start?)
    ensures Happened(st, u, base, log, ls, ms, t + 1)
  {
    if log.Then? {
      var k: nat :| k < t && SamePass(ms, k, t) && At(st, u, base, log.event, ls, ms, k) && Happened(st, u, base, log.before, ls, ms, k);
      assert SamePass(ms, k, t + 1);
    }
  }

  lemma CallLogged(st: Settings, u: Uid, ls: seq<Local>, ms: seq<Move>, n: nat)
    requires IsRun(st, u, ls, ms) && n < |ms| && ms[n].Call?
    ensures Logged(st, u, ls[n].pass, ls[n + 1].pass, ls[n].cluster, ls[n + 1].cluster)
  {
    RunOk(st, u, ls, ms, n);
    assert NextAt(st, u, ls, ms, n);
    StepOk(st, u, ls[n].cluster, ls[n].pass, ms[n].input);
  }

  lemma LoggedHappened(st: Settings, u: Uid, ls: seq<Local>, ms: seq<Move>, n: nat)
    requires n < |ms| && n + 1 < |ls| && ms[n].Call?
    requires Logged(st, u, ls[n].pass, ls[n + 1].pass, ls[n].cluster, ls[n + 1].cluster)
    requires Happened(st, u, ls[n].pass.base, ls[n].pass.log, ls, ms, n)
    ensures Happened(st, u, ls[n + 1].pass.base, ls[n + 1].pass.log, ls, ms, n + 1)
  {
    var p, p' := ls[n].pass, ls[n + 1].pass;
    if p'.log == p.log {
      HappenedLater(st, u, p.base, p.log, ls, ms, n);
    } else {
      assert At(st, u, p.base, p'.log.event, ls, ms, n) && SamePass(ms, n, n + 1);
    }
  }

  /** What a move does to the log of the pass. */
  ghost predicate LogMoves(st: Settings, u: Uid, l: Local, m: Move, l': Local) {
    match m
    case Start(_) => l'.pass.log.Nothing?
    case Call(_) => Logged(st, u, l.pass, l'.pass, l.cluster, l'.cluster)
    case _ => l'.pass.base == l.pass.base && l'.pass.log == l.pass.log
  }

  lemma MoveLogged(st: Settings, u: Uid, ls: seq<Local>, ms: seq<Move>, n: nat)
    requires IsRun(st, u, ls, ms) && n < |ms|
    ensures LogMoves(st, u, ls[n], ms[n], ls[n + 1])
  {
    assert NextAt(st, u, ls, ms, n);
    if ms[n].Call? { CallLogged(st, u, ls, ms, n); }
  }

  lemma HappenedNext(st: Settings, u: Uid, ls: seq<Local>, ms: seq<Move>, n: nat)
    requires n < |ms| && n + 1 < |ls| && LogMoves(st, u, ls[n], ms[n], ls[n + 1])
    requires Happened(st, u, ls[n].pass.base, ls[n].pass.log, ls, ms, n)
    ensures Happened(st, u, ls[n + 1].pass.base, ls[n + 1].pass.log, ls, ms, n + 1)
  {
    if ms[n].Call? {
      LoggedHappened(st, u, ls, ms, n);
    } else if !ms[n].Start? {
      HappenedLater(st, u, ls[n].pass.base, ls[n].pass.log, ls, ms, n);
    }
  }

  /** In every state of every run, the log of the current pass is a true and
      ordered account of what that pass saw and did. */
  lemma {:induction false} LogIsHistory(st: Settings, u: Uid, ls: seq<Local>, ms: seq<Move>, n: nat)
    requires IsRun(st, u, ls, ms) && n < |ls|
    ensures Happened(st, u, ls[n].pass.base, ls[n].pass.log, ls, ms, n)
  {
    if n > 0 {
      LogIsHistory(st, u, ls, ms, n - 1);
      MoveLogged(st, u, ls, ms, n - 1);
      HappenedNext(st, u, ls, ms, n - 1);
    }
  }

  /** When the last entry of a log happened. */
  lemma LastTime(st: Settings, u: Uid, base: Instance, log: Log, ls: seq<Local>, ms: seq<Move>, n: nat) returns (t: nat)
    requires log.Then? && Happened(st, u, base, log, ls, ms, n)
    ensures t < n && SamePass(ms, t, n) && At(st, u, base, log.event, ls, ms, t) && Happened(st, u, base, log.before, ls, ms, t)
  {
    t :| t < n && SamePass(ms, t, n) && At(st, u, base, log.event, ls, ms, t) && Happened(st, u, base, log.before, ls, ms, t);
  }

  /** What a move does to the pass's copy of the instance. */
  ghost predicate CopyMoves(u: Uid, l: Local, m: Move, l': Local) {
    if m.Start? then
      && u in l.cluster.instances && l'.pass.base == l.cluster.instances[u]
      && l'.pass.active == ActiveFor(l'.pass.base, m.fetched)
    else
      && l'.pass.base == l.pass.base && l'.pass.active == l.pass.active
      && (l.pass.stage.Idle? ==> l'.pass.stage.Idle?)
  }

  lemma MoveKeepsCopy(st: Settings, u: Uid, ls: seq<Local>, ms: seq<Move>, n: nat)
    requires IsRun(st, u, ls, ms) && n < |ms|
    ensures CopyMoves(u, ls[n], ms[n], ls[n + 1])
  {
    assert NextAt(st, u, ls, ms, n);
    if ms[n].Call? {
      RunOk(st, u, ls, ms, n);
      StepOk(st, u, ls[n].cluster, ls[n].pass, ms[n].input);
    }
  }

  /** When the current pass began, and what it works with. */
  lemma {:induction false} PassBegan(st: Settings, u: Uid, ls: seq<Local>, ms: seq<Move>, n: nat) returns (s: nat)
    requires IsRun(st, u, ls, ms) && n < |ls| && !ls[n].pass.stage.Idle?
    ensures s < n && ms[s].Start? && SamePass(ms, s + 1, n)
    ensures u in ls[s].cluster.instances && ls[n].pass.base == ls[s].cluster.instances[u]
    ensures ls[n].pass.active == ActiveFor(ls[n].pass.base, ms[s].fetched)
  {
    assert n > 0;
    MoveKeepsCopy(st, u, ls, ms, n - 1);
    s := n - 1;
    if !ms[n - 1].Start? { s := PassBegan(st, u, ls, ms, n - 1); }
  }

  /** The active OCP version of a pass over instance i. */
  function ActiveFor(i: Instance, fetched: Option<string>): string {
    Resolve(fetched, i.spec.ocpVersionOverride, i.spec.enableOcpRag).active
  }

  /** Within a pass the copy of the instance stays the one it began with. */
  lemma {:induction false} CopyKept(st: Settings, u: Uid, ls: seq<Local>, ms: seq<Move>, k: nat, n: nat)
    requires IsRun(st, u, ls, ms) && k <= n < |ls| && SamePass(ms, k, n)
    ensures ls[n].pass.base == ls[k].pass.base && ls[n].pass.active == ls[k].pass.active
  {
    if k < n {
      CopyKept(st, u, ls, ms, k, n - 1);
      MoveKeepsCopy(st, u, ls, ms, n - 1);
    }
  }

  // --------------------------------------------------------------- install gate

  /** Step t is a call. */
  predicate Called(ms: seq<Move>, t: nat) {
    t < |ms| && ms[t].Call?
  }

  /** The first half of the gate, with the calls: at t1 the Subscription needed
      no change and was linked to an InstallPlan, at t2 the first matching plan
      was selected, and at t3 that plan was rewritten as approved. */
  ghost predicate PlanGate(st: Settings, u: Uid, base: Instance, ls: seq<Local>, ms: seq<Move>, n: nat,
                           t1: nat, t2: nat, t3: nat) {
    var version := GetRecommendedOLSVersion(st.olsVersion);
    && t1 < t2 < t3 < n < |ls| && SamePass(ms, t1, n) && version.Ok?
    && Called(ms, t1) && Called(ms, t2) && Called(ms, t3)
    && GetSub(ls[t1].cluster, OrderKey(u, base)).Some?
    && (var sub := GetSub(ls[t1].cluster, OrderKey(u, base)).value;
        Ordered(st.olsVersion, u, base, sub) && sub.installPlanRef.Some?)
    && FirstPlan(ls[t2].cluster.plans, base.namespace, version.value).Some?
    && (var plan := FirstPlan(ls[t2].cluster.plans, base.namespace, version.value).value;
        && ls[t3].pass.stage == ApprovePlan(plan) && plan in ls[t3].cluster.plans
        && ls[t3 + 1].cluster.plans == Replace(ls[t3].cluster.plans, plan, plan.(approved := true)))
  }

  /** The call in state l rewrites this CSV with u as its owner. */
  ghost predicate Adopts(u: Uid, base: Instance, csv: Csv, l: Local, csvs': seq<Csv>) {
    && l.pass.stage == AdoptCsv(csv) && csv in l.cluster.csvs
    && csvs' == Replace(l.cluster.csvs, csv, csv.(owners := InstanceOwner(u, base)))
  }

  /** The whole gate: after the first half, at t4 the first matching CSV was
      found, at t5 that CSV was rewritten with u as its owner, and at t6 the
      first matching CSV was read owned and Succeeded. */
  ghost predicate Gate(st: Settings, u: Uid, base: Instance, ls: seq<Local>, ms: seq<Move>, n: nat,
                       t1: nat, t2: nat, t3: nat, t4: nat, t5: nat, t6: nat) {
    && t4 < t5 < t6 < n < |ls| && SamePass(ms, t1, n) && PlanGate(st, u, base, ls, ms, t4, t1, t2, t3)
    && Called(ms, t4) && Called(ms, t5) && Called(ms, t6)
    && FirstCsv(ls[t4].cluster.csvs).Some?
    && Adopts(u, base, FirstCsv(ls[t4].cluster.csvs).value, ls[t5], ls[t5 + 1].cluster.csvs)
    && FirstCsv(ls[t6].cluster.csvs).Some? && Complete(u, FirstCsv(ls[t6].cluster.csvs).value)
  }

  /** The gate was passed in this pass, before step n. */
  ghost predicate GatePassed(st: Settings, u: Uid, base: Instance, ls: seq<Local>, ms: seq<Move>, n: nat) {
    exists t1: nat, t2: nat, t3: nat, t4: nat, t5: nat, t6: nat :: Gate(st, u, base, ls, ms, n, t1, t2, t3, t4, t5, t6)
  }

  lemma PlanGateFromLog(st: Settings, u: Uid, base: Instance, log: Log, ls: seq<Local>, ms: seq<Move>, n: nat)
    returns (t1: nat, t2: nat, t3: nat)
    requires Legal(log) && log.Then? && log.event.PlanApproved? && n < |ls|
    requires Happened(st, u, base, log, ls, ms, n)
    ensures PlanGate(st, u, base, ls, ms, n, t1, t2, t3)
  {
    assert Legal(log.before);
    t3 := LastTime(st, u, base, log, ls, ms, n);
    t2 := LastTime(st, u, base, log.before, ls, ms, t3);
    t1 := LastTime(st, u, base, log.before.before, ls, ms, t2);
  }

  lemma GateFromLog(st: Settings, u: Uid, base: Instance, log: Log, ls: seq<Local>, ms: seq<Move>, n: nat)
    requires Legal(log) && log.Then? && log.event.OperatorComplete? && n < |ls|
    requires Happened(st, u, base, log, ls, ms, n)
    ensures GatePassed(st, u, base, ls, ms, n)
  {
    assert Legal(log.before);
    assert Legal(log.before.before);
    assert Legal(log.before.before.before);
    var t6 := LastTime(st, u, base, log, ls, ms, n);
    var t5 := LastTime(st, u, base, log.before, ls, ms, t6);
    var t4 := LastTime(st, u, base, log.before.before, ls, ms, t5);
    var t1, t2, t3 := PlanGateFromLog(st, u, base, log.before.before.before, ls, ms, t4);
    assert SamePass(ms, t1, n);
    assert Gate(st, u, base, ls, ms, n, t1, t2, t3, t4, t5, t6);
  }

  lemma GateLater(st: Settings, u: Uid, base: Instance, ls: seq<Local>, ms: seq<Move>, k: nat, n: nat)
    requires GatePassed(st, u, base, ls, ms, k) && k <= n < |ls| && SamePass(ms, k, n)
    ensures GatePassed(st, u, base, ls, ms, n)
  {
    var t1: nat, t2: nat, t3: nat, t4: nat, t5: nat, t6: nat :| Gate(st, u, base, ls, ms, k, t1, t2, t3, t4, t5, t6);
    assert SamePass(ms, t1, n);
    assert Gate(st, u, base, ls, ms, n, t1, t2, t3, t4, t5, t6);
  }

  /** Install gate: whenever a pass has got past the installation, all of it
      happened in this pass and in order. */
  lemma {:induction false} InstallGate(st: Settings, u: Uid, ls: seq<Local>, ms: seq<Move>, n: nat)
    requires IsRun(st, u, ls, ms) && n < |ls| && Configuring(ls[n].pass.stage)
    ensures GatePassed(st, u, ls[n].pass.base, ls, ms, n)
  {
    RunOk(st, u, ls, ms, n);
    LogIsHistory(st, u, ls, ms, n);
    GateBehind(st, u, ls[n].pass.base, ls[n].pass.log, ls, ms, n);
  }

  lemma {:induction false} GateBehind(st: Settings, u: Uid, base: Instance, log: Log, ls: seq<Local>, ms: seq<Move>, n: nat)
    requires Legal(log) && log.Then? && n < |ls| && Happened(st, u, base, log, ls, ms, n)
    requires log.event.OperatorComplete? || log.event.ConfigKept? || log.event.ConfigRead? || log.event.ConfigWritten?
    ensures GatePassed(st, u, base, ls, ms, n)
  {
    if log.event.OperatorComplete? {
      GateFromLog(st, u, base, log, ls, ms, n);
    } else {
      var k := LastTime(st, u, base, log, ls, ms, n);
      GateBehind(st, u, base, log.before, ls, ms, k);
      GateLater(st, u, base, ls, ms, k, n);
    }
  }

  predicate WroteSub(log: Log) {
    log.Then? && (log.event.SubWritten? || WroteSub(log.before))
  }

  /** How many plans the pass approved or deleted. */
  function PlanWrites(log: Log): nat {
    if log.Nothing? then 0
    else PlanWrites(log.before) + if log.event.PlanApproved? || log.event.PlanDropped? then 1 else 0
  }

  /** A pass that created or changed the Subscription did nothing else, and no
      pass writes more than one plan. */
  lemma {:induction false} LegalLogs(log: Log)
    requires Legal(log)
    ensures WroteSub(log) ==> log == Then(Nothing, SubWritten)
    ensures PlanWrites(log) <= 1
    ensures log.Then? && (log.event.SubKept? || log.event.SubWritten? || log.event.NoConfigSeen? || log.event.PlanSelected?)
            ==> PlanWrites(log) == 0
  {
    if log.Then? {
      LegalLogs(log.before);
    }
  }

  /** A pass that creates or changes the Subscription ends right there: all
      that is left is the patch of the instance itself. */
  lemma SubWriteEndsPass(st: Settings, u: Uid, ls: seq<Local>, ms: seq<Move>, n: nat)
    requires IsRun(st, u, ls, ms) && n < |ms| && ms[n].Call?
    requires ls[n + 1].cluster.subscriptions != ls[n].cluster.subscriptions
    ensures ls[n + 1].pass.stage == Finish(LATER) && ls[n + 1].pass.log == Then(Nothing, SubWritten)
  {
    RunOk(st, u, ls, ms, n);
    assert NextAt(st, u, ls, ms, n);
    if !ls[n].pass.stage.WriteSub? { SubsFramed(st, u, ls[n].cluster, ls[n].pass, ms[n].input); }
  }

  lemma SubsFramed(st: Settings, u: Uid, c: Cluster, p: Pass, x: Input)
    requires !p.stage.WriteSub?
    ensures PassStep(st, u, c, p, x).0.subscriptions == c.subscriptions
  {
    if !Writes(p.stage) { ReadsOnly(st, u, c, p, x); }
  }

  // ------------------------------------------------------------- teardown order

  /** A call of this pass, at k, saw that there is no OLSConfig. */
  ghost predicate SawNoConfig(ls: seq<Local>, ms: seq<Move>, k: nat, n: nat) {
    k < n && k < |ls| && SamePass(ms, k, n) && Called(ms, k) && ls[k].cluster.config.None?
  }

  lemma {:induction false} FirstOfDelete(st: Settings, u: Uid, base: Instance, log: Log, ls: seq<Local>, ms: seq<Move>, n: nat)
    returns (k: nat)
    requires Legal(log) && log.Then? && n < |ls|
    requires log.event.NoConfigSeen? || log.event.PlanDropped? || log.event.CsvDropped? || SelectedToDrop(log)
    requires Happened(st, u, base, log, ls, ms, n)
    ensures SawNoConfig(ls, ms, k, n)
  {
    k := LastTime(st, u, base, log, ls, ms, n);
    if !log.event.NoConfigSeen? {
      k := FirstOfDelete(st, u, base, log.before, ls, ms, k);
    }
  }

  /** The same plans and the same CSVs, none of them newly marked. */
  predicate NoneDeleted(c: Cluster, c': Cluster) {
    && |c'.plans| == |c.plans| && |c'.csvs| == |c.csvs|
    && (forall i :: 0 <= i < |c.plans| ==> c'.plans[i].key == c.plans[i].key && c'.plans[i].deleting == c.plans[i].deleting)
    && (forall i :: 0 <= i < |c.csvs| ==> c'.csvs[i].key == c.csvs[i].key && c'.csvs[i].deleting == c.csvs[i].deleting)
  }

  lemma {:induction false} ReplacePointwise<T>(s: seq<T>, x: T, y: T)
    requires x in s
    ensures |Replace(s, x, y)| == |s|
    ensures forall i :: 0 <= i < |s| ==> Replace(s, x, y)[i] == s[i] || (s[i] == x && Replace(s, x, y)[i] == y)
  {
    if s[0] != x { ReplacePointwise(s[1..], x, y); }
  }

  lemma ApproveDeletesNone(c: Cluster, p: Pass, plan: InstallPlan, x: Input)
    ensures NoneDeleted(c, ApproveStep(c, p, plan, x).0)
  {
    if plan in c.plans { ReplacePointwise(c.plans, plan, plan.(approved := true)); }
  }

  lemma AdoptDeletesNone(u: Uid, c: Cluster, p: Pass, csv: Csv, x: Input)
    ensures NoneDeleted(c, AdoptStep(u, c, p, csv, x).0)
  {
    if csv in c.csvs { ReplacePointwise(c.csvs, csv, csv.(owners := InstanceOwner(u, p.base))); }
  }

  /** Only two calls delete plans or CSVs. */
  lemma DeletesAt(st: Settings, u: Uid, c: Cluster, p: Pass, x: Input)
    ensures p.stage.DropPlan? || p.stage.DropCsv? || NoneDeleted(c, PassStep(st, u, c, p, x).0)
  {
    PlansAndCsvsFramed(st, u, c, p, x);
    if p.stage.ApprovePlan? {
      assert PassStep(st, u, c, p, x) == ApproveStep(c, p, p.stage.plan, x);
      ApproveDeletesNone(c, p, p.stage.plan, x);
    } else if p.stage.AdoptCsv? {
      assert PassStep(st, u, c, p, x) == AdoptStep(u, c, p, p.stage.csv, x);
      AdoptDeletesNone(u, c, p, p.stage.csv, x);
    }
  }

  lemma DeletingLog(st: Settings, u: Uid, p: Pass)
    requires PassOk(st, u, p) && (p.stage.DropPlan? || p.stage.DropCsv?)
    ensures p.base.deleting && p.log.Then?
    ensures p.log.event.NoConfigSeen? || p.log.event.PlanDropped? || SelectedToDrop(p.log)
  {
  }

  /** Teardown order: every call that removes or marks a plan or a CSV belongs
      to a delete pass that saw before, in the same pass, that no OLSConfig
      exists; and the operator's finalizer leaves the instance only in such a
      pass, after that and after the first matching CSV was seen absent or not
      owned. */
  lemma TeardownOrder(st: Settings, u: Uid, ls: seq<Local>, ms: seq<Move>, n: nat)
    requires IsRun(st, u, ls, ms) && Called(ms, n)
    ensures !NoneDeleted(ls[n].cluster, ls[n + 1].cluster) ==>
              ls[n].pass.base.deleting && exists k: nat :: SawNoConfig(ls, ms, k, n)
    ensures Held(ls[n].cluster, u) && !Held(ls[n + 1].cluster, u) ==>
              ls[n].pass.base.deleting && exists k1: nat, k2: nat :: ReleaseSeen(u, ls, ms, k1, k2, n)
  {
    RunOk(st, u, ls, ms, n);
    LogIsHistory(st, u, ls, ms, n);
    var l, l' := ls[n], ls[n + 1];
    assert NextAt(st, u, ls, ms, n);
    if !NoneDeleted(l.cluster, l'.cluster) {
      DeletesAt(st, u, l.cluster, l.pass, ms[n].input);
      DeletingLog(st, u, l.pass);
      var k := FirstOfDelete(st, u, l.pass.base, l.pass.log, ls, ms, n);
    }
    if Held(l.cluster, u) && !Held(l'.cluster, u) {
      StepGuarantee(st, u, u, l.cluster, l.pass, ms[n].input);
      ReleaseWasSeen(st, u, ls, ms, n);
    }
  }

  /** Calls of this pass saw no OLSConfig at k1, and the first matching CSV
      absent or not owned at k2. */
  ghost predicate ReleaseSeen(u: Uid, ls: seq<Local>, ms: seq<Move>, k1: nat, k2: nat, n: nat) {
    && k1 < k2 < n < |ls| && SawNoConfig(ls, ms, k1, n) && Called(ms, k2)
    && (var first := FirstCsv(ls[k2].cluster.csvs); first.Some? ==> !OwnedBy(first.value.owners, u))
  }

  lemma ReleaseWasSeen(st: Settings, u: Uid, ls: seq<Local>, ms: seq<Move>, n: nat)
    requires n < |ls| && PassOk(st, u, ls[n].pass) && ls[n].pass.Releasing()
    requires Happened(st, u, ls[n].pass.base, ls[n].pass.log, ls, ms, n)
    ensures ls[n].pass.base.deleting && exists k1: nat, k2: nat :: ReleaseSeen(u, ls, ms, k1, k2, n)
  {
    var base, log := ls[n].pass.base, ls[n].pass.log;
    var k2 := LastTime(st, u, base, log, ls, ms, n);
    assert Legal(log.before);
    var k1 := FirstOfDelete(st, u, base, log.before, ls, ms, k2);
    assert ReleaseSeen(u, ls, ms, k1, k2, n);
  }

  lemma PlansAndCsvsFramed(st: Settings, u: Uid, c: Cluster, p: Pass, x: Input)
    ensures PassStep(st, u, c, p, x).0.plans == c.plans || p.stage.ApprovePlan? || p.stage.DropPlan?
    ensures PassStep(st, u, c, p, x).0.csvs == c.csvs || p.stage.AdoptCsv? || p.stage.DropCsv?
  {
    if !Writes(p.stage) { ReadsOnly(st, u, c, p, x); }
  }

  // --------------------------------------------------------- the Ready condition

  /** At the end of a pass, Ready is True exactly when this pass read the
      OLSConfig as ready (which takes all events before it) and the OCP RAG
      condition is True. */
  lemma ReadyExactly(st: Settings, u: Uid, p: Pass)
    requires PassOk(st, u, p) && p.stage.Finish?
    ensures ReadyOf(p.conditions) == IsTrue <==>
              p.log.Then? && p.log.event.ReadySeen? && p.conditions[OcpRagReady] == IsTrue
  {
    forall k | k in p.conditions && k != Ready
      ensures k == LightspeedReady || k == OperatorReady || k == OcpRagReady {}
  }

  /** What a pass over instance i writes into the OLSConfig. */
  function WantedBy(st: Settings, i: Instance, fetched: Option<string>): seq<Write> {
    Writings(st, WithDefaults(st, i.spec), ActiveFor(i, fetched))
  }

  /** The OLSConfig became one in which the writes ws of u are delivered. */
  ghost predicate Delivers(st: Settings, u: Uid, ws: seq<Write>, read: Option<OLSConfig>, c: Cluster, c': Cluster) {
    exists m :: c'.config == Settle(m) && Delivered(st.finalizer, u, ws, read, c.config, m)
  }

  lemma KeptDelivers(st: Settings, u: Uid, p: Pass, cfg: OLSConfig, c: Cluster, c': Cluster)
    requires Fact(st, u, p, ConfigKept(cfg), c, c')
    ensures Delivers(st, u, Managed(st, p.Inst()), c.config, c, c')
  {
    PatchDelivers(st, u, p.Inst(), Some(cfg), cfg);
    assert c'.config == Settle(cfg);
  }

  lemma WrittenDelivers(st: Settings, u: Uid, p: Pass, read: Option<OLSConfig>, patched: OLSConfig, c: Cluster, c': Cluster)
    requires Fact(st, u, p, ConfigWritten(read, patched), c, c')
    ensures Delivers(st, u, Managed(st, p.Inst()), read, c, c')
  {
    if read.None? {
      PatchDelivers(st, u, p.Inst(), read, patched);
      assert c'.config == Settle(patched);
    } else {
      MergeDelivers(st, u, p.Inst(), read.value, patched, c.config.value);
      assert c'.config == Settle(MergeOLSConfig(st, u, p.Inst(), read.value, c.config.value));
    }
  }

  /** In this pass the OLSConfig was read at r without another owner, and after
      the call at t everything instance i wants was delivered. */
  ghost predicate PatchedBy(st: Settings, u: Uid, i: Instance, fetched: Option<string>, ls: seq<Local>, ms: seq<Move>, r: nat, t: nat) {
    && r <= t && t + 1 < |ls| && Called(ms, r) && Called(ms, t) && Free(u, ls[r].cluster.config)
    && ls[r].pass.stage.ReadConfig?
    && (r < t ==> ls[t].pass.stage.WriteConfig? && ls[t].pass.stage.read == ls[r].cluster.config)
    && Delivers(st, u, WantedBy(st, i, fetched), ls[r].cluster.config, ls[t].cluster, ls[t + 1].cluster)
  }

  /** The instance's copy at a step of its pass asks for what the pass began with. */
  lemma CopyWants(st: Settings, p: Pass, fetched: Option<string>)
    requires p.spec == WithDefaults(st, p.base.spec) && p.active == ActiveFor(p.base, fetched)
    ensures Managed(st, p.Inst()) == WantedBy(st, p.base, fetched)
  {
  }

  lemma PatchFromLog(st: Settings, u: Uid, base: Instance, log: Log, fetched: Option<string>, ls: seq<Local>, ms: seq<Move>, t: nat)
    returns (r: nat)
    requires Legal(log) && log.Then? && (log.event.ConfigKept? || log.event.ConfigWritten?)
    requires At(st, u, base, log.event, ls, ms, t) && Happened(st, u, base, log.before, ls, ms, t)
    requires ls[t].pass.active == ActiveFor(base, fetched)
    ensures SamePass(ms, r, t) && PatchedBy(st, u, base, fetched, ls, ms, r, t) && GatePassed(st, u, base, ls, ms, r)
  {
    var p, c, c' := ls[t].pass, ls[t].cluster, ls[t + 1].cluster;
    CopyWants(st, p, fetched);
    if log.event.ConfigKept? {
      r := t;
      KeptDelivers(st, u, p, log.event.cfg, c, c');
      GateBehind(st, u, base, log.before, ls, ms, t);
    } else {
      r := LastTime(st, u, base, log.before, ls, ms, t);
      WrittenDelivers(st, u, p, log.event.read, log.event.patched, c, c');
      assert Legal(log.before);
      GateBehind(st, u, base, log.before.before, ls, ms, r);
    }
  }

  /** What stands behind Ready: the pass that began at s, with the instance as
      it was then, passed the install gate, read the OLSConfig at r without
      another owner, delivered at t everything the instance wants, and read it
      at t' with the overall status Ready. */
  lemma ReadyMeans(st: Settings, u: Uid, ls: seq<Local>, ms: seq<Move>, n: nat) returns (s: nat, r: nat, t: nat, t': nat)
    requires IsRun(st, u, ls, ms) && n < |ls| && ls[n].pass.stage.Finish?
    requires ReadyOf(ls[n].pass.conditions) == IsTrue
    ensures s < r <= t < t' < n && SamePass(ms, s + 1, n) && ms[s].Start? && Called(ms, t')
    ensures u in ls[s].cluster.instances && GatePassed(st, u, ls[s].cluster.instances[u], ls, ms, r)
    ensures PatchedBy(st, u, ls[s].cluster.instances[u], ms[s].fetched, ls, ms, r, t)
    ensures ReportedReady(ls[t'].cluster)
  {
    RunOk(st, u, ls, ms, n);
    LogIsHistory(st, u, ls, ms, n);
    ReadyExactly(st, u, ls[n].pass);
    var base, log := ls[n].pass.base, ls[n].pass.log;
    s := PassBegan(st, u, ls, ms, n);
    t' := LastTime(st, u, base, log, ls, ms, n);
    t := LastTime(st, u, base, log.before, ls, ms, t');
    assert Legal(log.before) && SamePass(ms, t, n);
    CopyKept(st, u, ls, ms, t, n);
    r := PatchFromLog(st, u, base, log.before, ms[s].fetched, ls, ms, t);
    assert SamePass(ms, r, n);
  }

  /** A call of this pass, at k, listed the CSVs and found this one first. */
  ghost predicate ListedFirst(csv: Csv, ls: seq<Local>, ms: seq<Move>, k: nat, n: nat) {
    k < n && k < |ls| && SamePass(ms, k, n) && Called(ms, k) && FirstCsv(ls[k].cluster.csvs) == Some(csv)
  }

  ghost predicate WasListed(csv: Csv, ls: seq<Local>, ms: seq<Move>, n: nat) {
    exists k: nat :: ListedFirst(csv, ls, ms, k, n)
  }

  lemma ToCheckSub(st: Settings, u: Uid, c: Cluster, p: Pass, x: Input)
    requires !p.stage.Idle? && PassStep(st, u, c, p, x).1.stage.CheckSub?
    ensures FirstCsv(c.csvs) == Some(PassStep(st, u, c, p, x).1.stage.csv)
  {
    PassTerminates(st, u, c, p, x);
    OnlyFirst(p.stage);
    assert PassStep(st, u, c, p, x) == (c, AfterFindForeign(p, See(x, FirstCsv(c.csvs))));
  }

  lemma OnlyFirst(s: Stage)
    requires CallsLeft(s) > 14
    ensures s.FindForeign?
  {
  }

  /** The CSV the foreign-installation check looks at was the first match when
      this pass listed the CSVs. */
  lemma {:induction false} CheckedWasFirst(st: Settings, u: Uid, ls: seq<Local>, ms: seq<Move>, n: nat) returns (k: nat)
    requires IsRun(st, u, ls, ms) && n < |ls| && ls[n].pass.stage.CheckSub?
    ensures ListedFirst(ls[n].pass.stage.csv, ls, ms, k, n)
  {
    assert n > 0;
    k := n - 1;
    assert NextAt(st, u, ls, ms, n - 1);
    if ms[n - 1].Call? {
      ToCheckSub(st, u, ls[n - 1].cluster, ls[n - 1].pass, ms[n - 1].input);
    } else {
      k := CheckedWasFirst(st, u, ls, ms, n - 1);
    }
  }

  predicate ReportedReady(c: Cluster) {
    c.config.Some? && SaysReady(c.config.value.body)
  }

  // -------------------------------------------------------------- plan approval

  function FirstIndex<T(==)>(s: seq<T>, x: T): nat
    requires x in s
  {
    if s[0] == x then 0 else 1 + FirstIndex(s[1..], x)
  }

  /** Replace changes one position, the first that holds x. */
  lemma {:induction false} ReplaceIsUpdate<T>(s: seq<T>, x: T, y: T)
    requires x in s
    ensures |Replace(s, x, y)| == |s| && FirstIndex(s, x) < |s| && s[FirstIndex(s, x)] == x
    ensures forall j :: 0 <= j < |s| ==> Replace(s, x, y)[j] == if j == FirstIndex(s, x) then y else s[j]
  {
    if s[0] != x {
      var t := s[1..];
      ReplaceIsUpdate(t, x, y);
      forall j | 0 < j < |s| ensures Replace(s, x, y)[j] == if j == FirstIndex(s, x) then y else s[j] {
        assert Replace(s, x, y)[j] == Replace(t, x, y)[j - 1] && s[j] == t[j - 1];
      }
    }
  }

  lemma {:induction false} DeletePlanElements(s: seq<InstallPlan>, key: Key)
    ensures DeletePlan(s, key).Some? ==>
              forall q :: q in DeletePlan(s, key).value ==>
                q in s || exists q0 :: q0 in s && q == q0.(deleting := true)
  {
    if s != [] && s[0].key != key { DeletePlanElements(s[1..], key); }
  }

  lemma ApproveFramed(c: Cluster, p: Pass, plan: InstallPlan, x: Input)
    ensures var plans' := ApproveStep(c, p, plan, x).0.plans;
            && (plans' == c.plans || exists i :: 0 <= i < |c.plans| && c.plans[i] == plan && plans' == c.plans[i := plan.(approved := true)])
            && forall q :: q in plans' ==> q in c.plans || (plan in c.plans && q == plan.(approved := true))
  {
    if plan in c.plans {
      var i := FirstIndex(c.plans, plan);
      ReplaceIsUpdate(c.plans, plan, plan.(approved := true));
      ReplaceElements(c.plans, plan, plan.(approved := true));
      assert Replace(c.plans, plan, plan.(approved := true)) == c.plans[i := plan.(approved := true)];
    }
  }

  /** A step of a pass changes at most one plan: it approves a plan that names
      a matching CSV and was the first match when it was listed, or it deletes
      such a plan; no approval is ever withdrawn. */
  lemma PlanWritesFramed(st: Settings, u: Uid, c: Cluster, p: Pass, x: Input)
    requires PassOk(st, u, p)
    ensures var plans' := PassStep(st, u, c, p, x).0.plans;
            || plans' == c.plans
            || (&& p.stage.ApprovePlan? && PlanOk(st, p.base, p.stage.plan)
                && exists i :: 0 <= i < |c.plans| && c.plans[i] == p.stage.plan
                               && plans' == c.plans[i := c.plans[i].(approved := true)])
            || (&& p.stage.DropPlan? && PlanOk(st, p.base, p.stage.plan)
                && DeletePlan(c.plans, p.stage.plan.key) == Some(plans'))
    ensures forall q :: q in PassStep(st, u, c, p, x).0.plans ==>
              exists q0 :: q0 in c.plans && q0.key == q.key && q0.csvNames == q.csvNames && (q0.approved ==> q.approved)
  {
    PlansAndCsvsFramed(st, u, c, p, x);
    if p.stage.ApprovePlan? {
      assert PassStep(st, u, c, p, x) == ApproveStep(c, p, p.stage.plan, x);
      ApproveFramed(c, p, p.stage.plan, x);
    } else if p.stage.DropPlan? {
      assert PassStep(st, u, c, p, x) == DropPlanStep(c, p, p.stage.csv, p.stage.plan, x);
      DropFramed(c, p, p.stage.csv, p.stage.plan, x);
    }
  }

  lemma DropFramed(c: Cluster, p: Pass, csv: Csv, plan: InstallPlan, x: Input)
    ensures var plans' := DropPlanStep(c, p, csv, plan, x).0.plans;
            && (plans' == c.plans || DeletePlan(c.plans, plan.key) == Some(plans'))
            && forall q :: q in plans' ==>
                 exists q0 :: q0 in c.plans && q0.key == q.key && q0.csvNames == q.csvNames && (q0.approved ==> q.approved)
  {
    DeletePlanElements(c.plans, plan.key);
  }

  /** Nothing is written behind the log: a call that changes Subscriptions,
      plans or CSVs adds the entry that says so. */
  lemma WritesLogged(st: Settings, u: Uid, c: Cluster, p: Pass, x: Input)
    ensures var (c', p') := PassStep(st, u, c, p, x);
            && (c'.subscriptions != c.subscriptions ==> p'.log == Then(p.log, SubWritten))
            && (c'.plans != c.plans ==> p'.log.Then? && p'.log.before == p.log && (p'.log.event.PlanApproved? || p'.log.event.PlanDropped?))
            && (c'.csvs != c.csvs ==> p'.log.Then? && p'.log.before == p.log && (p'.log.event.CsvAdopted? || p'.log.event.CsvDropped?))
  {
    PlansAndCsvsFramed(st, u, c, p, x);
    if !p.stage.WriteSub? { SubsFramed(st, u, c, p, x); }
  }

  /** Within a pass the count of plan writes only grows. */
  lemma {:induction false} PlanWritesGrow(st: Settings, u: Uid, ls: seq<Local>, ms: seq<Move>, i: nat, j: nat)
    requires IsRun(st, u, ls, ms) && i <= j < |ls| && SamePass(ms, i, j)
    ensures PlanWrites(ls[i].pass.log) <= PlanWrites(ls[j].pass.log)
  {
    if i < j {
      PlanWritesGrow(st, u, ls, ms, i, j - 1);
      MoveLogged(st, u, ls, ms, j - 1);
    }
  }

  lemma PlanWriteCounts(st: Settings, u: Uid, ls: seq<Local>, ms: seq<Move>, n: nat)
    requires IsRun(st, u, ls, ms) && Called(ms, n)
    ensures ls[n + 1].cluster.plans != ls[n].cluster.plans ==>
              PlanWrites(ls[n + 1].pass.log) == PlanWrites(ls[n].pass.log) + 1
  {
    assert NextAt(st, u, ls, ms, n);
    WritesLogged(st, u, ls[n].cluster, ls[n].pass, ms[n].input);
  }

  /** Each pass changes at most one plan: of two calls of the same pass at
      most one changes the plans. */
  lemma OnePlanPerPass(st: Settings, u: Uid, ls: seq<Local>, ms: seq<Move>, i: nat, j: nat)
    requires IsRun(st, u, ls, ms) && i < j && Called(ms, i) && Called(ms, j) && SamePass(ms, i, j)
    requires ls[i + 1].cluster.plans != ls[i].cluster.plans
    ensures ls[j + 1].cluster.plans == ls[j].cluster.plans
  {
    PlanWriteCounts(st, u, ls, ms, i);
    PlanWriteCounts(st, u, ls, ms, j);
    PlanWritesGrow(st, u, ls, ms, i + 1, j);
    RunOk(st, u, ls, ms, j + 1);
    LegalLogs(ls[j + 1].pass.log);
  }

  /** The plan a pass approves or deletes is the one the nested loops returned:
      the first match in the namespace when it was listed, in the same pass. */
  lemma WrittenPlanWasFirst(st: Settings, u: Uid, ls: seq<Local>, ms: seq<Move>, n: nat)
    requires IsRun(st, u, ls, ms) && Called(ms, n)
    requires ls[n + 1].cluster.plans != ls[n].cluster.plans
    ensures ls[n].pass.stage.ApprovePlan? || ls[n].pass.stage.DropPlan?
    ensures GetRecommendedOLSVersion(st.olsVersion).Ok?
    ensures exists k: nat :: k < n && SamePass(ms, k, n) && Called(ms, k) &&
              FirstPlan(ls[k].cluster.plans, ls[n].pass.base.namespace, GetRecommendedOLSVersion(st.olsVersion).value)
                == Some(ls[n].pass.stage.plan)
  {
    RunOk(st, u, ls, ms, n);
    LogIsHistory(st, u, ls, ms, n);
    var p := ls[n].pass;
    assert NextAt(st, u, ls, ms, n);
    PlansAndCsvsFramed(st, u, ls[n].cluster, p, ms[n].input);
    SelectedLog(st, u, p);
    var k := SelectedAt(st, u, p.base, p.log, ls, ms, n);
  }

  lemma SelectedLog(st: Settings, u: Uid, p: Pass)
    requires PassOk(st, u, p) && (p.stage.ApprovePlan? || p.stage.DropPlan?)
    ensures p.log.Then? && p.log.event == PlanSelected(p.stage.plan)
  {
  }

  lemma SelectedAt(st: Settings, u: Uid, base: Instance, log: Log, ls: seq<Local>, ms: seq<Move>, n: nat) returns (k: nat)
    requires log.Then? && log.event.PlanSelected? && Happened(st, u, base, log, ls, ms, n)
    ensures k < n && SamePass(ms, k, n) && Called(ms, k) && k < |ls| && GetRecommendedOLSVersion(st.olsVersion).Ok?
    ensures FirstPlan(ls[k].cluster.plans, base.namespace, GetRecommendedOLSVersion(st.olsVersion).value) == Some(log.event.plan)
  {
    k := LastTime(st, u, base, log, ls, ms, n);
  }
}
