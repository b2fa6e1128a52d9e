/** Convergence over every interleaving: calls of u's passes, with whatever
    faults, and moves of a cooperating environment between any two of them. */
module Courses {
  import opened Wrappers
  import opened Json
  import opened Cluster
  import opened OcpVersion
  import opened Install
  import opened OlsConfig
  import opened Reconcile
  import opened Runs
  import opened Orphans
  import opened Lock
  import opened Solo
  import opened Convergence
  import opened Stranded

  // ------------------------------------------------------------------ the invariant

  /** The same OLSConfig up to its status. */
  ghost predicate SameUpToStatus(read: Option<OLSConfig>, cur: Option<OLSConfig>) {
    || cur == read
    || (read.Some? && exists status :: cur == Some(WithStatus(read.value, status)))
  }

  /** The copy of a pass under way is the instance as it stands, and a copy of
      the OLSConfig it holds differs from the server's in the status only. */
  ghost predicate InStep(st: Settings, u: Uid, c: Cluster, p: Pass, fetched: Option<string>) {
    && Current(st, u, c, p) && p.active == Resolve(fetched, p.base.spec.ocpVersionOverride, p.base.spec.enableOcpRag).active
    && (Installing(p.stage) || Configuring(p.stage) || p.stage.Finish?)
    && (p.stage.WriteConfig? ==> SameUpToStatus(p.stage.read, c.config))
  }

  /** Convergence is promised, and a pass under way is in step. */
  ghost predicate Steady(st: Settings, u: Uid, l: Local, version: string, fetched: Option<string>) {
    && Promising(st, u, l.cluster, version, fetched) && PassOk(st, u, l.pass)
    && (!l.pass.stage.Idle? ==> InStep(st, u, l.cluster, l.pass, fetched))
  }

  /** Still promised, and no farther from Ready. */
  ghost predicate NoFarther(st: Settings, u: Uid, c: Cluster, c': Cluster, version: string, fetched: Option<string>)
    requires u in c.instances
  {
    Promising(st, u, c', version, fetched) && Rank(st, u, c', version, fetched) <= Rank(st, u, c, version, fetched)
  }

  // ------------------------------------------------------- the calls that write

  lemma WriteSubNoFarther(st: Settings, u: Uid, c: Cluster, p: Pass, x: Input, version: string, fetched: Option<string>)
    requires Promising(st, u, c, version, fetched) && InStep(st, u, c, p, fetched) && p.stage.WriteSub? && Held(c, u)
    ensures var c' := WriteSubStep(st, u, c, p, p.stage.sub, x).0;
            c'.instances == c.instances && NoFarther(st, u, c, c', version, fetched)
  {
    var key := SubscriptionKey(u, p.base);
    var c' := WriteSubStep(st, u, c, p, p.stage.sub, x).0;
    if c' != c && !SubInPlace(u, c, version) {
      assert p.stage.sub == GetSub(c, key);
      SubRank(st, u, c, c', version, fetched);
    }
  }

  lemma GatesOfPlans(st: Settings, u: Uid, c: Cluster, plans: seq<InstallPlan>, version: string, fetched: Option<string>)
    requires Promising(st, u, c, version, fetched)
    ensures Promising(st, u, c.(plans := plans), version, fetched)
    ensures var first := FirstPlan(plans, c.instances[u].namespace, version);
            GatesOf(st, u, c.(plans := plans), version, fetched) ==
              GatesOf(st, u, c, version, fetched).(plan := SubLinked(u, c) && first.Some?, approved := first.Some? && first.value.approved)
  {
  }

  lemma GatesOfCsvs(st: Settings, u: Uid, c: Cluster, csvs: seq<Csv>, version: string, fetched: Option<string>)
    requires Promising(st, u, c, version, fetched)
    requires FirstCsv(csvs).Some? && (FirstCsv(csvs) == FirstCsv(c.csvs) || OwnedBy(FirstCsv(csvs).value.owners, u))
    ensures Promising(st, u, c.(csvs := csvs), version, fetched)
    ensures var first := FirstCsv(csvs).value;
            GatesOf(st, u, c.(csvs := csvs), version, fetched) ==
              GatesOf(st, u, c, version, fetched).(csv := true, owned := first.owners == InstanceOwner(u, c.instances[u]),
                                                   succeeded := first.phase == PHASE_SUCCEEDED)
  {
  }

  lemma ApproveNoFarther(st: Settings, u: Uid, c: Cluster, p: Pass, plan: InstallPlan, x: Input, version: string, fetched: Option<string>)
    requires Promising(st, u, c, version, fetched) && IsOlsPlan(plan, c.instances[u].namespace, version)
    ensures var c' := ApproveStep(c, p, plan, x).0;
            c'.instances == c.instances && NoFarther(st, u, c, c', version, fetched)
  {
    if plan in c.plans {
      FirstPlanReplaced(c.plans, c.instances[u].namespace, version, plan, plan.(approved := true));
      GatesOfPlans(st, u, c, Replace(c.plans, plan, plan.(approved := true)), version, fetched);
    }
  }

  lemma AdoptNoFarther(st: Settings, u: Uid, c: Cluster, p: Pass, csv: Csv, x: Input, version: string, fetched: Option<string>)
    requires Promising(st, u, c, version, fetched) && IsOlsCsv(csv) && p.base == c.instances[u]
    ensures var c' := AdoptStep(u, c, p, csv, x).0;
            c'.instances == c.instances && NoFarther(st, u, c, c', version, fetched)
  {
    if csv in c.csvs { AdoptedNoFarther(st, u, c, csv, version, fetched); }
  }

  lemma AdoptedNoFarther(st: Settings, u: Uid, c: Cluster, csv: Csv, version: string, fetched: Option<string>)
    requires Promising(st, u, c, version, fetched) && IsOlsCsv(csv) && csv in c.csvs
    ensures var owned := csv.(owners := InstanceOwner(u, c.instances[u]));
            NoFarther(st, u, c, c.(csvs := Replace(c.csvs, csv, owned)), version, fetched)
  {
    var owned := csv.(owners := InstanceOwner(u, c.instances[u]));
    assert owned.owners[0].uid == u;
    FirstCsvReplaced(c.csvs, csv, owned);
    GatesOfCsvs(st, u, c, Replace(c.csvs, csv, owned), version, fetched);
  }

  /** The merge patch is what u wants of the server's object. */
  lemma MergedOverStatus(st: Settings, u: Uid, p: Pass, read: Option<OLSConfig>, patched: OLSConfig, cur: Option<OLSConfig>)
    requires Attempt(st, u, p, read) == Ok(patched) && SameUpToStatus(read, cur)
    ensures Attempt(st, u, p, cur) == Ok(Merged(st, u, p, read, patched, cur))
  {
    if read == cur {
      MergedIsWant(st, u, p, read, patched);
    } else {
      var status :| cur == Some(WithStatus(read.value, status));
      MergeOverStatus(st, u, p.Inst(), read.value, status);
    }
  }

  /** The OLSConfig becoming what u wants of it brings Ready no farther. */
  lemma WantNoFarther(st: Settings, u: Uid, c: Cluster, c': Cluster, version: string, fetched: Option<string>, ping: string)
    requires Promising(st, u, c, version, fetched) && c' == c.(config := c'.config)
    requires Became(Wants(st, u, c.instances[u], fetched, c.config).value, ping, c'.config)
    ensures NoFarther(st, u, c, c', version, fetched)
  {
    WantIsFixed(st, u, c.instances[u], fetched, c.config, ping, c'.config);
  }

  lemma WriteConfigNoFarther(st: Settings, u: Uid, c: Cluster, p: Pass, merged: OLSConfig, x: Input, version: string, fetched: Option<string>)
    requires Promising(st, u, c, version, fetched) && p.stage.WriteConfig?
    requires Wants(st, u, c.instances[u], fetched, c.config) == Ok(merged) && !merged.deleting
    ensures var c' := WriteConfigStep(c, p, p.stage.read, p.stage.patched, merged, x).0;
            c'.instances == c.instances && NoFarther(st, u, c, c', version, fetched)
  {
    var c' := WriteConfigStep(c, p, p.stage.read, p.stage.patched, merged, x).0;
    if c'.config != c.config { WantNoFarther(st, u, c, c', version, fetched, ""); }
  }

  lemma WritePingNoFarther(st: Settings, u: Uid, c: Cluster, p: Pass, x: Input, version: string, fetched: Option<string>)
    requires Promising(st, u, c, version, fetched) && p.stage.WritePing?
    ensures var c' := WritePingStep(c, p, p.stage.cfg, x).0;
            c'.instances == c.instances && NoFarther(st, u, c, c', version, fetched)
  {
    if c.config == Some(p.stage.cfg) { PingNoFarther(st, u, c, p.stage.cfg, x.ping, version, fetched); }
  }

  lemma PingNoFarther(st: Settings, u: Uid, c: Cluster, cfg: OLSConfig, ping: string, version: string, fetched: Option<string>)
    requires Promising(st, u, c, version, fetched) && c.config == Some(cfg)
    ensures NoFarther(st, u, c, c.(config := Some(PingOLSConfig(cfg, ping))), version, fetched)
  {
    PingOwner(cfg, ping);
    PingCommutes(st, u, Asker(st, c.instances[u], fetched), cfg, ping);
  }

  lemma FinishNoFarther(st: Settings, u: Uid, c: Cluster, p: Pass, x: Input, version: string, fetched: Option<string>)
    requires Promising(st, u, c, version, fetched) && Current(st, u, c, p) && p.stage.Finish?
    ensures NoFarther(st, u, c, FinishStep(u, c, p, x).0, version, fetched)
  {
    var c' := FinishStep(u, c, p, x).0;
    if c' != c {
      assert SameWish(st, c.instances[u], c'.instances[u]) && c'.instances[u].finalizer;
      assert c' == c.(instances := c.instances[u := c'.instances[u]]);
      GatesOfWish(st, u, c, c'.instances[u], version, fetched);
    }
  }

  lemma GatesOfWish(st: Settings, u: Uid, c: Cluster, i: Instance, version: string, fetched: Option<string>)
    requires Promising(st, u, c, version, fetched) && SameWish(st, c.instances[u], i) && i.finalizer
    ensures NoFarther(st, u, c, c.(instances := c.instances[u := i]), version, fetched)
  {
    RankOfWish(st, u, c, i, version, fetched);
  }

  // ------------------------------------------------------------------- every call

  /** Instances are as they were, and Ready is no farther. */
  ghost predicate Calmly(st: Settings, u: Uid, c: Cluster, c': Cluster, version: string, fetched: Option<string>)
    requires u in c.instances
  {
    c'.instances == c.instances && NoFarther(st, u, c, c', version, fetched)
  }

  lemma InstallCall(st: Settings, u: Uid, c: Cluster, p: Pass, x: Input, version: string, fetched: Option<string>)
    requires Promising(st, u, c, version, fetched) && InStep(st, u, c, p, fetched) && PassOk(st, u, p) && Installing(p.stage)
    ensures Calmly(st, u, c, InstallStep(st, u, c, p, x).0, version, fetched)
  {
    match p.stage
    case WriteSub(_) => WriteSubNoFarther(st, u, c, p, x, version, fetched);
    case ApprovePlan(plan) => ApproveNoFarther(st, u, c, p, plan, x, version, fetched);
    case AdoptCsv(csv) => AdoptNoFarther(st, u, c, p, csv, x, version, fetched);
    case _ =>
  }

  lemma ConfigCall(st: Settings, u: Uid, c: Cluster, p: Pass, x: Input, version: string, fetched: Option<string>)
    requires Promising(st, u, c, version, fetched) && InStep(st, u, c, p, fetched) && PassOk(st, u, p) && Configuring(p.stage)
    ensures Calmly(st, u, c, ConfigStep(st, u, c, p, x).0, version, fetched)
  {
    match p.stage
    case WriteConfig(read, patched) =>
      WriteIsWant(st, u, c, p, version, fetched);
      WriteConfigNoFarther(st, u, c, p, Merged(st, u, p, read, patched, c.config), x, version, fetched);
    case WritePing(_) => WritePingNoFarther(st, u, c, p, x, version, fetched);
    case _ =>
  }

  lemma WriteIsWant(st: Settings, u: Uid, c: Cluster, p: Pass, version: string, fetched: Option<string>)
    requires Promising(st, u, c, version, fetched) && InStep(st, u, c, p, fetched) && PassOk(st, u, p) && p.stage.WriteConfig?
    ensures var merged := Merged(st, u, p, p.stage.read, p.stage.patched, c.config);
            Wants(st, u, c.instances[u], fetched, c.config) == Ok(merged) && !merged.deleting
  {
    var read, patched := p.stage.read, p.stage.patched;
    CopyAsks(st, u, p, fetched);
    MergedOverStatus(st, u, p, read, patched, c.config);
    AttemptIsWant(st, u, p, fetched, c.config);
    MergedIsWant(st, u, p, c.config, Merged(st, u, p, read, patched, c.config));
  }

  lemma CopyAsks(st: Settings, u: Uid, p: Pass, fetched: Option<string>)
    requires PassOk(st, u, p) && p.stage.WriteConfig?
    requires p.active == Resolve(fetched, p.base.spec.ocpVersionOverride, p.base.spec.enableOcpRag).active
    ensures Asking(st, p, fetched) && Attempt(st, u, p, p.stage.read) == Ok(p.stage.patched)
  {
    assert LightspeedReady in p.conditions;
  }

  /** A pass that installs or configures changes neither the spec nor the
      finalizer of its copy, and goes on with that or to its end. */
  lemma InstallKeepsCopy(st: Settings, u: Uid, c: Cluster, p: Pass, x: Input)
    requires Installing(p.stage)
    ensures var q := InstallStep(st, u, c, p, x).1; q.spec == p.spec && q.finalizer == p.finalizer
  {
  }

  lemma ConfigKeepsCopy(st: Settings, u: Uid, c: Cluster, p: Pass, x: Input)
    requires Configuring(p.stage)
    ensures var q := ConfigStep(st, u, c, p, x).1; q.spec == p.spec && q.finalizer == p.finalizer
  {
  }

  lemma CallKeepsStep(st: Settings, u: Uid, c: Cluster, p: Pass, x: Input)
    requires Installing(p.stage) || Configuring(p.stage)
    ensures var q := PassStep(st, u, c, p, x).1;
            && q.spec == p.spec && q.finalizer == p.finalizer
            && (Installing(q.stage) || Configuring(q.stage) || q.stage.Finish?)
  {
    if Installing(p.stage) {
      InstallKeepsCopy(st, u, c, p, x);
      InstallFlow(st, u, c, p, x);
    } else {
      ConfigKeepsCopy(st, u, c, p, x);
      ConfigStays(st, u, c, p, x);
    }
  }

  /** Every call, whatever its fault, keeps the pass in step and brings Ready
      no farther. */
  lemma CallSteady(st: Settings, u: Uid, c: Cluster, p: Pass, x: Input, version: string, fetched: Option<string>)
    requires Steady(st, u, Local(c, p), version, fetched) && !p.stage.Idle?
    ensures var r := PassStep(st, u, c, p, x);
            Steady(st, u, Local(r.0, r.1), version, fetched) && NoFarther(st, u, c, r.0, version, fetched)
  {
    var r := PassStep(st, u, c, p, x);
    StepOk(st, u, c, p, x);
    if p.stage.Finish? {
      FinishNoFarther(st, u, c, p, x, version, fetched);
    } else {
      if Installing(p.stage) {
        InstallCall(st, u, c, p, x, version, fetched);
      } else {
        ConfigCall(st, u, c, p, x, version, fetched);
      }
      CallKeepsStep(st, u, c, p, x);
      StepClaims(st, u, c, p, x);
      StepInStep(st, u, c, p, r.0, r.1, fetched);
    }
  }

  lemma StepInStep(st: Settings, u: Uid, c: Cluster, p: Pass, c': Cluster, p': Pass, fetched: Option<string>)
    requires InStep(st, u, c, p, fetched) && c'.instances == c.instances
    requires p'.base == p.base && p'.active == p.active && p'.spec == p.spec && p'.finalizer == p.finalizer
    requires Installing(p'.stage) || Configuring(p'.stage) || p'.stage.Finish?
    requires p'.stage.WriteConfig? ==> p'.stage.read == c.config && c' == c
    ensures InStep(st, u, c', p', fetched)
  {
  }

  // --------------------------------------------------------------- the other moves

  lemma PatienceInStep(st: Settings, u: Uid, c: Cluster, c': Cluster, p: Pass, version: string, fetched: Option<string>)
    requires u in c.instances && InStep(st, u, c, p, fetched) && Patient(u, c, c', version)
    ensures InStep(st, u, c', p, fetched)
  {
    if p.stage.WriteConfig? && c'.config != c.config {
      var read := p.stage.read;
      var status :| Reports(c.config.value, status, c'.config);
      if c.config != read {
        var before :| c.config == Some(WithStatus(read.value, before));
        assert WithStatus(WithStatus(read.value, before), status) == WithStatus(read.value, status);
      }
    }
  }

  /** What happens next: u's pass begins, makes a call with whatever answer, or
      stops; the environment moves, and sometimes does its part; or a whole
      pass runs without being disturbed. */
  datatype Beat = Starts | Does(input: Input) | Stops | Waits | Helps | Reconciles(ping: string)

  ghost predicate Happens(st: Settings, u: Uid, l: Local, b: Beat, l': Local, version: string, fetched: Option<string>) {
    && u in l.cluster.instances
    && match b
       case Starts => l.pass.stage.Idle? && l' == Local(l.cluster, Begin(st, l.cluster.instances[u], fetched))
       case Does(x) => !l.pass.stage.Idle? && (l'.cluster, l'.pass) == PassStep(st, u, l.cluster, l.pass, x)
       case Stops => l' == l.(pass := l.pass.To(Idle))
       case Waits => l'.pass == l.pass && Patient(u, l.cluster, l'.cluster, version)
       case Helps => l'.pass == l.pass && Helpful(u, l.cluster, l'.cluster, version)
       case Reconciles(ping) =>
         l.pass.stage.Idle? && l'.pass == l.pass && l'.cluster == WholePass(st, u, l.cluster, fetched, ping).0
  }

  lemma BeginSteady(st: Settings, u: Uid, c: Cluster, version: string, fetched: Option<string>)
    requires Promising(st, u, c, version, fetched)
    ensures Steady(st, u, Local(c, Begin(st, c.instances[u], fetched)), version, fetched)
  {
    BeginOk(st, u, c.instances[u], fetched);
  }

  /** No beat loses step or brings Ready farther; the undisturbed passes and
      the environment's part each open their gates. */
  lemma BeatRank(st: Settings, u: Uid, l: Local, b: Beat, l': Local, version: string, fetched: Option<string>)
    requires Steady(st, u, l, version, fetched) && Happens(st, u, l, b, l', version, fetched)
    ensures Steady(st, u, l', version, fetched)
    ensures var r, r' := Rank(st, u, l.cluster, version, fetched), Rank(st, u, l'.cluster, version, fetched);
            && r' <= r
            && (b.Reconciles? && r > 0 && r' == r ==> r == 7 || r == 5 || r == 3 || r == 1)
            && (b.Helps? && (r == 7 || r == 5 || r == 3 || r == 1) ==> r' < r)
  {
    match b
    case Starts => BeginSteady(st, u, l.cluster, version, fetched);
    case Does(x) => CallSteady(st, u, l.cluster, l.pass, x, version, fetched);
    case Stops =>
    case Reconciles(ping) => PassRank(st, u, l.cluster, version, fetched, ping);
    case _ =>
      PatienceKeeps(st, u, l.cluster, l'.cluster, version, fetched);
      EnvironmentRank(st, u, l.cluster, l'.cluster, version, fetched);
      if !l.pass.stage.Idle? { PatienceInStep(st, u, l.cluster, l'.cluster, l.pass, version, fetched); }
  }

  // -------------------------------------------------------------------- convergence

  /** A finite course of beats, the latest one outermost. */
  datatype Course = From(at: Local) | After(before: Course, beat: Beat, at: Local)

  function Origin(h: Course): Local {
    if h.From? then h.at else Origin(h.before)
  }

  /** Every beat of the course happens as it says. */
  ghost predicate Possible(st: Settings, u: Uid, h: Course, version: string, fetched: Option<string>) {
    h.After? ==>
      Possible(st, u, h.before, version, fetched) && Happens(st, u, h.before.at, h.beat, h.at, version, fetched)
  }

  /** A pass has run undisturbed since the environment last did its part. */
  predicate Tried(h: Course) {
    h.After? && (h.beat.Reconciles? || (!h.beat.Helps? && Tried(h.before)))
  }

  /** How often an undisturbed pass was followed by the environment's part. */
  function Rounds(h: Course): nat {
    if h.From? then 0 else Rounds(h.before) + if h.beat.Helps? && Tried(h.before) then 1 else 0
  }

  /** How close to Ready a course that began at rank `from` must have come. */
  predicate CloseEnough(from: nat, r: nat, rounds: nat, tried: bool) {
    && r <= from && (r > 0 ==> r + rounds <= from)
    && (tried && r > 0 && r + rounds == from ==> r == 7 || r == 5 || r == 3 || r == 1)
  }

  lemma {:induction false} CourseCloser(st: Settings, u: Uid, h: Course, from: nat, version: string, fetched: Option<string>)
    requires Steady(st, u, Origin(h), version, fetched) && Possible(st, u, h, version, fetched)
    requires from == Rank(st, u, Origin(h).cluster, version, fetched)
    ensures Steady(st, u, h.at, version, fetched)
    ensures CloseEnough(from, Rank(st, u, h.at.cluster, version, fetched), Rounds(h), Tried(h))
  {
    if h.After? {
      CourseCloser(st, u, h.before, from, version, fetched);
      BeatRank(st, u, h.before.at, h.beat, h.at, version, fetched);
    }
  }

  /** Convergence: from every cluster in which it is promised, whatever passes
      are disturbed, fail or stop in between, Ready never moves away, and each
      round brings it closer, so that at most nine rounds settle the cluster. */
  lemma Converges(st: Settings, u: Uid, h: Course, version: string, fetched: Option<string>)
    requires Steady(st, u, Origin(h), version, fetched) && Possible(st, u, h, version, fetched)
    ensures u in h.at.cluster.instances
    ensures Rank(st, u, h.at.cluster, version, fetched) <= Rank(st, u, Origin(h).cluster, version, fetched) <= 9
    ensures Rounds(h) >= Rank(st, u, Origin(h).cluster, version, fetched) ==> Settled(st, u, h.at.cluster, version, fetched)
  {
    CourseCloser(st, u, h, Rank(st, u, Origin(h).cluster, version, fetched), version, fetched);
  }
}
