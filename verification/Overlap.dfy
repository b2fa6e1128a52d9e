/** Why the single worker matters: two passes that overlap can take the
    OLSConfig from each other. */
module Overlap {
  import opened Wrappers
  import opened Cluster
  import opened Install
  import opened OlsConfig
  import opened Reconcile
  import opened Runs
  import opened Orphans
  import opened Worlds
  import opened Lock
  import opened Solo
  import opened Convergence

  // ------------------------------------------------------ several calls of a pass

  /** One call of u's pass, without a fault. */
  predicate OneCall(st: Settings, u: Uid, l: Local, l': Local) {
    !l.pass.stage.Idle? && PassStep(st, u, l.cluster, l.pass, Fine("")) == (l'.cluster, l'.pass)
  }

  /** k steps of a relation, one after the other. */
  ghost predicate Steps<T(!new)>(r: (T, T) -> bool, x: T, k: nat, y: T)
    decreases k
  {
    if k == 0 then y == x else exists z :: r(x, z) && Steps(r, z, k - 1, y)
  }

  lemma {:induction false} StepsThen<T(!new)>(r: (T, T) -> bool, x: T, j: nat, y: T, k: nat, z: T)
    requires Steps(r, x, j, y) && Steps(r, y, k, z)
    ensures Steps(r, x, j + k, z)
    decreases j
  {
    if j > 0 {
      var x1 :| r(x, x1) && Steps(r, x1, j - 1, y);
      StepsThen(r, x1, j - 1, y, k, z);
    }
  }

  function Calling(st: Settings, u: Uid): (Local, Local) -> bool {
    (l, l') => OneCall(st, u, l, l')
  }

  /** Some number of calls leads there. */
  ghost predicate Reaches(st: Settings, u: Uid, c: Cluster, p: Pass, c': Cluster, p': Pass) {
    exists k: nat :: Steps(Calling(st, u), Local(c, p), k, Local(c', p'))
  }

  lemma ReachesOne(st: Settings, u: Uid, c: Cluster, p: Pass, c': Cluster, p': Pass)
    requires !p.stage.Idle? && PassStep(st, u, c, p, Fine("")) == (c', p')
    ensures Reaches(st, u, c, p, c', p')
  {
    var r := Calling(st, u);
    assert r(Local(c, p), Local(c', p')) && Steps(r, Local(c', p'), 0, Local(c', p'));
    assert Steps(r, Local(c, p), 1, Local(c', p'));
  }

  lemma ReachesThen(st: Settings, u: Uid, c: Cluster, p: Pass, c1: Cluster, p1: Pass, c2: Cluster, p2: Pass)
    requires Reaches(st, u, c, p, c1, p1) && Reaches(st, u, c1, p1, c2, p2)
    ensures Reaches(st, u, c, p, c2, p2)
  {
    var r := Calling(st, u);
    var j: nat :| Steps(r, Local(c, p), j, Local(c1, p1));
    var k: nat :| Steps(r, Local(c1, p1), k, Local(c2, p2));
    StepsThen(r, Local(c, p), j, Local(c1, p1), k, Local(c2, p2));
  }

  // ---------------------------------------------------- from the start to the OLSConfig

  /** Nothing stands between a pass of u and the OLSConfig. */
  predicate Fit(st: Settings, u: Uid, c: Cluster, version: string) {
    && Held(c, u) && !c.instances[u].deleting && GetRecommendedOLSVersion(st.olsVersion) == Ok(version)
    && SubInPlace(u, c, version) && SubLinked(u, c) && FirstPlan(c.plans, c.instances[u].namespace, version).Some?
    && FirstCsv(c.csvs).Some? && FirstCsv(c.csvs).value.phase == PHASE_SUCCEEDED
  }

  lemma ToReadSub(st: Settings, u: Uid, c: Cluster, p: Pass, version: string)
    requires Fit(st, u, c, version) && p.stage.FindForeign? && p.base == c.instances[u]
    ensures Reaches(st, u, c, p, c, p.To(ReadSub))
  {
    var x, csv := Fine(""), FirstCsv(c.csvs).value;
    var sub := GetSub(c, SubscriptionKey(u, p.base));
    assert sub.value.owners[0].uid == u;
    ReachesOne(st, u, c, p, c, p.To(CheckSub(csv)));
    ReachesOne(st, u, c, p.To(CheckSub(csv)), c, p.To(ReadSub));
    ReachesThen(st, u, c, p, c, p.To(CheckSub(csv)), c, p.To(ReadSub));
  }

  lemma ToFindCsv(st: Settings, u: Uid, c: Cluster, p: Pass, version: string) returns (p': Pass)
    requires Fit(st, u, c, version) && p.stage.ReadSub? && p.base == c.instances[u]
    ensures Reaches(st, u, c, p, c.(plans := Approved(p.base.namespace, version, c.plans)), p')
    ensures p' == p.(log := p'.log).To(FindCsv)
  {
    var sub := GetSub(c, SubscriptionKey(u, p.base)).value;
    var p1 := p.Note(SubKept(sub)).To(FindPlan);
    ReachesOne(st, u, c, p, c, p1);
    var plan := FirstPlan(c.plans, p.base.namespace, version).value;
    p' := p1.Note(PlanSelected(plan)).Note(PlanApproved(plan)).To(FindCsv);
    ThroughPlan(st, u, c, p1, version, plan);
    ReachesThen(st, u, c, p, c, p1, c.(plans := Approved(p.base.namespace, version, c.plans)), p');
  }

  lemma ThroughPlan(st: Settings, u: Uid, c: Cluster, p: Pass, version: string, plan: InstallPlan)
    requires p.stage.FindPlan? && GetRecommendedOLSVersion(st.olsVersion) == Ok(version)
    requires FirstPlan(c.plans, p.base.namespace, version) == Some(plan)
    ensures Reaches(st, u, c, p, c.(plans := Approved(p.base.namespace, version, c.plans)),
                    p.Note(PlanSelected(plan)).Note(PlanApproved(plan)).To(FindCsv))
  {
    var p1 := p.Note(PlanSelected(plan)).To(ApprovePlan(plan));
    var c' := c.(plans := Replace(c.plans, plan, plan.(approved := true)));
    assert SelectPlan(st, c, p, Fine("")) == Ok(Some(plan));
    assert PassStep(st, u, c, p, Fine("")) == (c, AfterFindPlan(p, Ok(Some(plan))));
    ReachesOne(st, u, c, p, c, p1);
    ThroughApproval(st, u, c, p1, plan);
    ReachesThen(st, u, c, p, c, p1, c', p1.Note(PlanApproved(plan)).To(FindCsv));
  }

  lemma ThroughApproval(st: Settings, u: Uid, c: Cluster, p: Pass, plan: InstallPlan)
    requires p.stage == ApprovePlan(plan) && plan in c.plans
    ensures Reaches(st, u, c, p, c.(plans := Replace(c.plans, plan, plan.(approved := true))), p.Note(PlanApproved(plan)).To(FindCsv))
  {
    assert PassStep(st, u, c, p, Fine("")) == ApproveStep(c, p, plan, Fine(""));
    ReachesOne(st, u, c, p, c.(plans := Replace(c.plans, plan, plan.(approved := true))), p.Note(PlanApproved(plan)).To(FindCsv));
  }

  lemma ToReadConfig(st: Settings, u: Uid, c: Cluster, p: Pass, i: Instance) returns (p': Pass)
    requires p.stage.FindCsv? && p.base == i && FirstCsv(c.csvs).Some? && FirstCsv(c.csvs).value.phase == PHASE_SUCCEEDED
    ensures Reaches(st, u, c, p, c.(csvs := Adopted(u, i, c.csvs)), p')
    ensures p' == p.(log := p'.log, conditions := p.conditions[OperatorReady := IsTrue]).To(ReadConfig)
  {
    var csv := FirstCsv(c.csvs).value;
    var c' := c.(csvs := Adopted(u, i, c.csvs));
    var p1 := p.Note(CsvFound(csv)).To(AdoptCsv(csv));
    var p2 := p1.Note(CsvAdopted(csv)).To(ConfirmCsv);
    ReachesOne(st, u, c, p, c, p1);
    assert PassStep(st, u, c, p1, Fine("")) == AdoptStep(u, c, p1, csv, Fine(""));
    ReachesOne(st, u, c, p1, c', p2);
    ReachesThen(st, u, c, p, c, p1, c', p2);
    AdoptedFirst(u, i, c.csvs);
    p' := AfterConfirmCsv(u, p2, See(Fine(""), FirstCsv(c'.csvs)));
    ReachesOne(st, u, c', p2, c', p');
    ReachesThen(st, u, c, p, c', p2, c', p');
  }

  /** What a pass has changed by the time it reaches the OLSConfig. */
  function Prepared(u: Uid, c: Cluster, version: string): Cluster
    requires u in c.instances && FirstCsv(c.csvs).Some?
  {
    c.(plans := Approved(c.instances[u].namespace, version, c.plans), csvs := Adopted(u, c.instances[u], c.csvs))
  }

  /** The pass of an instance that is fit gets to the OLSConfig. */
  lemma ToConfig(st: Settings, u: Uid, c: Cluster, p: Pass, version: string) returns (p': Pass)
    requires Fit(st, u, c, version) && p.stage.FindForeign? && p.base == c.instances[u]
    ensures Reaches(st, u, c, p, Prepared(u, c, version), p')
    ensures p' == p.(log := p'.log, conditions := p.conditions[OperatorReady := IsTrue]).To(ReadConfig)
  {
    var i := c.instances[u];
    ToReadSub(st, u, c, p, version);
    var p1 := ToFindCsv(st, u, c, p.To(ReadSub), version);
    var c1 := c.(plans := Approved(i.namespace, version, c.plans));
    ReachesThen(st, u, c, p, c, p.To(ReadSub), c1, p1);
    p' := ToReadConfig(st, u, c1, p1, i);
    assert Prepared(u, c, version) == c1.(csvs := Adopted(u, i, c1.csvs));
    ReachesThen(st, u, c, p, c1, p1, Prepared(u, c, version), p');
  }

  /** And on to the write of an OLSConfig that nobody owns. */
  lemma ToWriteConfig(st: Settings, u: Uid, c: Cluster, fetched: Option<string>, version: string) returns (p': Pass)
    requires Fit(st, u, c, version) && Wants(st, u, c.instances[u], fetched, c.config).Ok?
    requires c.config.Some? && OWNER_LABEL !in c.config.value.labels
    ensures Reaches(st, u, c, Begin(st, c.instances[u], fetched), Prepared(u, c, version), p')
    ensures p'.stage.WriteConfig? && p'.stage.read == c.config
  {
    var p, c1 := Begin(st, c.instances[u], fetched), Prepared(u, c, version);
    var p1 := ToConfig(st, u, c, p, version);
    assert OperatorReady in p1.conditions;
    AttemptIsWant(st, u, p1, fetched, c1.config);
    p' := ReadsUnowned(st, u, c1, p1);
    ReachesThen(st, u, c, p, c1, p1, c1, p');
  }

  lemma ReadsUnowned(st: Settings, u: Uid, c: Cluster, p: Pass) returns (p': Pass)
    requires p.stage.ReadConfig? && c.config.Some? && OWNER_LABEL !in c.config.value.labels && Attempt(st, u, p, c.config).Ok?
    ensures Reaches(st, u, c, p, c, p') && p'.stage.WriteConfig? && p'.stage.read == c.config
  {
    var x, attempt := Fine(""), Attempt(st, u, p, c.config);
    PatchFrame(st, u, p.Inst(), c.config.value);
    p' := AfterReadConfig(u, p, See(x, c.config), attempt);
    assert PassStep(st, u, c, p, x) == (c, p');
    ReachesOne(st, u, c, p, c, p');
  }

  lemma WritesOwner(st: Settings, u: Uid, c: Cluster, p: Pass, x: Input)
    requires p.stage.WriteConfig? && x.fault == NoFault
    requires p.stage.read.Some? && OWNER_LABEL !in p.stage.read.value.labels
    requires c.config.Some? && !c.config.value.deleting
    ensures PassStep(st, u, c, p, x).0.config.Some? && !PassStep(st, u, c, p, x).0.config.value.deleting
    ensures Labelled(PassStep(st, u, c, p, x).0, u)
  {
    var merged := Merged(st, u, p, p.stage.read, p.stage.patched, c.config);
    assert PassStep(st, u, c, p, x) == WriteConfigStep(c, p, p.stage.read, p.stage.patched, merged, x);
    MergedParts(st, u, p, p.stage.read.value, p.stage.patched, c.config.value);
  }

  // ------------------------------------------------------------------ the two passes

  /** Preparing the way of one instance keeps the other fit. */
  lemma StaysFit(st: Settings, u: Uid, v: Uid, c: Cluster, version: string)
    requires Fit(st, u, c, version) && Fit(st, v, c, version)
    ensures Fit(st, v, Prepared(u, c, version), version)
  {
    var plan := FirstPlan(c.plans, c.instances[u].namespace, version).value;
    ReplaceElements(c.plans, plan, plan.(approved := true));
    var mine := FirstPlan(c.plans, c.instances[v].namespace, version).value;
    var plans := Approved(c.instances[u].namespace, version, c.plans);
    assert IsOlsPlan(if mine == plan then plan.(approved := true) else mine, c.instances[v].namespace, version);
    assert FirstPlan(plans, c.instances[v].namespace, version).Some?;
    AdoptedFirst(u, c.instances[u], c.csvs);
    assert GetSub(Prepared(u, c, version), SubscriptionKey(v, c.instances[v])) == GetSub(c, SubscriptionKey(v, c.instances[v]));
  }

  lemma Extend(st: Settings, ws: seq<World>, acts: seq<Action>, a: Action, w: World)
    requires IsWorldRun(st, ws, acts) && Step(st, ws[|acts|], a, w)
    ensures IsWorldRun(st, ws + [w], acts + [a])
  {
    var ws', acts' := ws + [w], acts + [a];
    forall i | 0 <= i < |acts'| ensures Step(st, ws'[i], acts'[i], ws'[i + 1]) {
      if i < |acts| { assert ws'[i] == ws[i] && ws'[i + 1] == ws[i + 1] && acts'[i] == acts[i]; }
    }
  }

  /** Only passes move. */
  ghost predicate PassesOnly(acts: seq<Action>) {
    forall i :: 0 <= i < |acts| ==> !acts[i].Env?
  }

  lemma StepOnce(st: Settings, ws: seq<World>, acts: seq<Action>, u: Uid, c': Cluster, p': Pass)
    returns (ws': seq<World>, acts': seq<Action>)
    requires IsWorldRun(st, ws, acts) && PassesOnly(acts)
    requires var w := ws[|acts|];
             u in w.passes && !w.passes[u].stage.Idle? && PassStep(st, u, w.cluster, w.passes[u], Fine("")) == (c', p')
    ensures IsWorldRun(st, ws', acts') && PassesOnly(acts') && ws <= ws' && |acts'| == |acts| + 1
    ensures ws'[|acts'|] == World(c', ws[|acts|].passes[u := p'])
  {
    var w1 := World(c', ws[|acts|].passes[u := p']);
    Extend(st, ws, acts, Calls(u, Fine("")), w1);
    ws', acts' := ws + [w1], acts + [Calls(u, Fine(""))];
  }

  lemma {:induction false} Drive(st: Settings, ws: seq<World>, acts: seq<Action>, u: Uid, k: nat, c': Cluster, p': Pass)
    returns (ws': seq<World>, acts': seq<Action>)
    requires IsWorldRun(st, ws, acts) && PassesOnly(acts)
    requires var w := ws[|acts|]; u in w.passes && Steps(Calling(st, u), Local(w.cluster, w.passes[u]), k, Local(c', p'))
    ensures IsWorldRun(st, ws', acts') && PassesOnly(acts') && ws <= ws'
    ensures ws'[|acts'|] == World(c', ws[|acts|].passes[u := p'])
    decreases k
  {
    var w := ws[|acts|];
    if k == 0 {
      ws', acts' := ws, acts;
      assert w.passes[u := p'] == w.passes;
    } else {
      var r := Calling(st, u);
      var l1 :| r(Local(w.cluster, w.passes[u]), l1) && Steps(r, l1, k - 1, Local(c', p'));
      ws', acts' := StepOnce(st, ws, acts, u, l1.cluster, l1.pass);
      ws', acts' := Drive(st, ws', acts', u, k - 1, c', p');
      assert w.passes[u := l1.pass][u := p'] == w.passes[u := p'];
    }
  }

  lemma Launch(st: Settings, ws: seq<World>, acts: seq<Action>, u: Uid, fetched: Option<string>, version: string)
    returns (ws': seq<World>, acts': seq<Action>, p': Pass)
    requires IsWorldRun(st, ws, acts) && PassesOnly(acts)
    requires var w := ws[|acts|];
             && u in w.passes && w.passes[u].stage.Idle? && Fit(st, u, w.cluster, version)
             && Wants(st, u, w.cluster.instances[u], fetched, w.cluster.config).Ok?
             && w.cluster.config.Some? && OWNER_LABEL !in w.cluster.config.value.labels
    ensures IsWorldRun(st, ws', acts') && PassesOnly(acts') && ws <= ws'
    ensures ws'[|acts'|] == World(Prepared(u, ws[|acts|].cluster, version), ws[|acts|].passes[u := p'])
    ensures p'.stage.WriteConfig? && p'.stage.read == ws[|acts|].cluster.config
  {
    var w := ws[|acts|];
    p' := ToWriteConfig(st, u, w.cluster, fetched, version);
    ws', acts' := StartAndDrive(st, ws, acts, u, fetched, Prepared(u, w.cluster, version), p');
  }

  lemma StartAndDrive(st: Settings, ws: seq<World>, acts: seq<Action>, u: Uid, fetched: Option<string>, c': Cluster, p': Pass)
    returns (ws': seq<World>, acts': seq<Action>)
    requires IsWorldRun(st, ws, acts) && PassesOnly(acts)
    requires var w := ws[|acts|];
             && u in w.passes && w.passes[u].stage.Idle? && u in w.cluster.instances
             && Reaches(st, u, w.cluster, Begin(st, w.cluster.instances[u], fetched), c', p')
    ensures IsWorldRun(st, ws', acts') && PassesOnly(acts') && ws <= ws'
    ensures ws'[|acts'|] == World(c', ws[|acts|].passes[u := p'])
  {
    var w := ws[|acts|];
    var p := Begin(st, w.cluster.instances[u], fetched);
    var w1 := World(w.cluster, w.passes[u := p]);
    Extend(st, ws, acts, Begins(u, fetched), w1);
    var k: nat :| Steps(Calling(st, u), Local(w.cluster, p), k, Local(c', p'));
    ws', acts' := Drive(st, ws + [w1], acts + [Begins(u, fetched)], u, k, c', p');
    assert w1.passes[u := p'] == w.passes[u := p'];
  }

  /** Two instances that are both fit, in front of an OLSConfig nobody owns. */
  ghost predicate Contested(st: Settings, w: World, u1: Uid, u2: Uid, fetched: Option<string>, version: string) {
    && Init(w) && u1 != u2 && u1 in w.passes && u2 in w.passes
    && Fit(st, u1, w.cluster, version) && Fit(st, u2, w.cluster, version)
    && w.cluster.config.Some? && OWNER_LABEL !in w.cluster.config.value.labels && !w.cluster.config.value.deleting
    && Wants(st, u1, w.cluster.instances[u1], fetched, w.cluster.config).Ok?
    && Wants(st, u2, w.cluster.instances[u2], fetched, w.cluster.config).Ok?
  }

  /** From every such world there is a run of the two passes alone, without a
      fault or a move of the environment, in which the OLSConfig first carries
      the label of the one and in the end that of the other. */
  lemma OverlapSteals(st: Settings, w: World, u1: Uid, u2: Uid, fetched: Option<string>, version: string)
    returns (ws: seq<World>, acts: seq<Action>, n: nat)
    requires Contested(st, w, u1, u2, fetched, version)
    ensures IsWorldRun(st, ws, acts) && ws[0] == w && PassesOnly(acts) && n < |acts|
    ensures Labelled(ws[n].cluster, u1) && Labelled(ws[|acts|].cluster, u2)
  {
    var c := w.cluster;
    var p1: Pass, p2: Pass;
    assert Initial(u1, Local(c, w.passes[u1])) && Initial(u2, Local(c, w.passes[u2]));
    ws, acts, p1 := Launch(st, [w], [], u1, fetched, version);
    var c1 := Prepared(u1, c, version);
    StaysFit(st, u1, u2, c, version);
    ws, acts, p2 := Launch(st, ws, acts, u2, fetched, version);
    var c2 := Prepared(u2, c1, version);
    WritesOwner(st, u1, c2, p1, Fine(""));
    var r1 := PassStep(st, u1, c2, p1, Fine(""));
    ws, acts := StepOnce(st, ws, acts, u1, r1.0, r1.1);
    n := |acts|;
    WritesOwner(st, u2, r1.0, p2, Fine(""));
    var r2 := PassStep(st, u2, r1.0, p2, Fine(""));
    ws, acts := StepOnce(st, ws, acts, u2, r2.0, r2.1);
  }

  lemma FitHere(st: Settings, u: Uid, c: Cluster, version: string, read: Subscription)
    requires Held(c, u) && !c.instances[u].deleting && GetRecommendedOLSVersion(st.olsVersion) == Ok(version)
    requires GetSub(c, SubscriptionKey(u, c.instances[u])) == Some(DesiredSubscription(version, u, c.instances[u], Some(read)))
    requires read.installPlanRef.Some? && FirstPlan(c.plans, c.instances[u].namespace, version).Some?
    requires FirstCsv(c.csvs).Some? && FirstCsv(c.csvs).value.phase == PHASE_SUCCEEDED
    ensures Fit(st, u, c, version)
  {
  }

  lemma NamesPlan(plan: InstallPlan, version: string)
    requires plan.csvNames == [OLS_OPERATOR_NAME + version]
    ensures FirstPlan([plan], plan.key.0, version) == Some(plan)
  {
    SuffixOfConcat(OLS_OPERATOR_NAME, version);
    assert IsOlsName(plan.csvNames[0], version);
  }

  lemma NamesDiffer(u1: Uid, u2: Uid)
    requires u1[0] != u2[0]
    ensures GetOLSSubscriptionName(u1) != GetOLSSubscriptionName(u2)
  {
    var k := |OLS_OPERATOR_NAME| + 1;
    assert GetOLSSubscriptionName(u1)[k] == u1[0] && GetOLSSubscriptionName(u2)[k] == u2[0];
  }

  /** A world of two instances whose Subscriptions are in place and linked, a
      plan, a succeeded CSV that nobody owns and an empty OLSConfig. */
  function SomeWorld(u1: Uid, u2: Uid, i1: Instance, i2: Instance, version: string): World {
    var read := Some(Subscription(SubscriptionSpec("", true, "", "", "", ""), [], Some("plan")));
    var idle := Pass(Idle, i1, i1.spec, true, map[], "", Nothing, DONE);
    World(
      Objects(map[u1 := i1, u2 := i2],
              map[SubscriptionKey(u1, i1) := DesiredSubscription(version, u1, i1, read),
                  SubscriptionKey(u2, i2) := DesiredSubscription(version, u2, i2, read)],
              [InstallPlan((i1.namespace, "plan"), [OLS_OPERATOR_NAME + version], false, false, false)],
              [Csv((i1.namespace, OLS_OPERATOR_NAME), [], PHASE_SUCCEEDED, false, false)],
              Some(EMPTY_CONFIG)),
      map[u1 := idle, u2 := idle])
  }

  /** Contested worlds exist, whatever two instances of one namespace ask for. */
  lemma SomeContested(st: Settings, u1: Uid, u2: Uid, i1: Instance, i2: Instance, version: string)
    requires GetRecommendedOLSVersion(st.olsVersion) == Ok(version) && u1[0] != u2[0] && i1.namespace == i2.namespace
    requires i1.finalizer && i2.finalizer && !i1.deleting && !i2.deleting
    ensures Contested(st, SomeWorld(u1, u2, i1, i2, version), u1, u2, None, version)
  {
    var w := SomeWorld(u1, u2, i1, i2, version);
    var read := Subscription(SubscriptionSpec("", true, "", "", "", ""), [], Some("plan"));
    NamesDiffer(u1, u2);
    NamesPlan(w.cluster.plans[0], version);
    assert FirstCsv(w.cluster.csvs) == Some(w.cluster.csvs[0]);
    FitHere(st, u1, w.cluster, version, read);
    FitHere(st, u2, w.cluster, version, read);
    EmptyIsOpen(st, u1, Asker(st, i1, None));
    EmptyIsOpen(st, u2, Asker(st, i2, None));
    SomeInit(u1, u2, i1, i2, version);
  }

  lemma SomeInit(u1: Uid, u2: Uid, i1: Instance, i2: Instance, version: string)
    requires i1.finalizer && i2.finalizer && u1 != u2
    ensures Init(SomeWorld(u1, u2, i1, i2, version))
  {
  }
}
