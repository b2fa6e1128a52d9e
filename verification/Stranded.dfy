/** The two ways in which a teardown gets stuck: how long they last, and what
    ends them. */
module Stranded {
  import opened Wrappers
  import opened Cluster
  import opened Install
  import opened OlsConfig
  import opened Reconcile
  import opened Runs
  import opened Orphans
  import opened Worlds
  import opened Lock
  import opened Solo
  import opened Teardown

  // ------------------------------------------- an own OLSConfig without the finalizer

  /** If the Delete that follows the removal of the finalizer fails (or the
      operator stops in between), u's OLSConfig is bereft. */
  lemma FailedDeleteStrands(st: Settings, u: Uid, c: Cluster, p: Pass, ping: string)
    requires p.stage.ReleaseConfig? && c.config == Some(p.stage.cfg) && p.stage.cfg.Owner() == u && !p.stage.cfg.deleting
    ensures var r := PassStep(st, u, c, p, Fine(ping));
            var c' := PassStep(st, u, r.0, r.1, Input(ServerError, ping)).0;
            c'.config.Some? && Bereft(st, u, c'.config.value)
  {
    var r := ReleaseStep(st, c, p, p.stage.cfg, Fine(ping));
    assert PassStep(st, u, c, p, Fine(ping)) == r;
    assert PassStep(st, u, r.0, r.1, Input(ServerError, ping)) == DropConfigStep(r.0, r.1, Input(ServerError, ping));
  }

  /** Instance u is being deleted, and its OLSConfig is bereft. */
  predicate Grieving(st: Settings, u: Uid, c: Cluster, cfg: OLSConfig) {
    Held(c, u) && c.instances[u].deleting && c.config == Some(cfg) && Bereft(st, u, cfg)
  }

  /** The stages such an instance's passes visit. */
  predicate Turning(p: Pass) {
    p.stage.Idle? || p.stage.FindConfig? || p.stage.RereadConfig? || (p.stage.Finish? && !p.Releasing())
  }

  /** u's own passes never change it. */
  lemma TurningStep(st: Settings, u: Uid, c: Cluster, p: Pass, x: Input, cfg: OLSConfig)
    requires PassOk(st, u, p) && Grieving(st, u, c, cfg) && Turning(p)
    ensures Grieving(st, u, PassStep(st, u, c, p, x).0, cfg) && Turning(PassStep(st, u, c, p, x).1)
  {
    if p.stage.FindConfig? {
      assert PassStep(st, u, c, p, x) == (c, AfterFindConfig(p, See(x, c.config)));
    } else if p.stage.RereadConfig? {
      assert PassStep(st, u, c, p, x) == (c, AfterReread(st, u, p, See(x, c.config)));
      StaysHeld(st, u, p);
    } else if p.stage.Finish? {
      assert PassStep(st, u, c, p, x) == FinishStep(u, c, p, x);
    }
  }

  lemma StaysHeld(st: Settings, u: Uid, p: Pass)
    requires PassOk(st, u, p) && Removing(p.stage)
    ensures !p.To(Finish(ERROR)).Releasing()
  {
  }

  /** A call of this pass is a Delete of the OLSConfig that goes through. */
  predicate Deletes(p: Pass, x: Input) {
    p.stage.DropConfig? && x.fault == NoFault
  }

  /** A call of another instance changes it exactly if it is the Delete that is
      issued for foreign OLSConfigs too; that marks it, or removes it if no
      finalizer is left. */
  lemma ForeignDeleteExactly(st: Settings, ids: set<Uid>, u: Uid, v: Uid, c: Cluster, p: Pass, x: Input, cfg: OLSConfig)
    requires u != v && u in ids && PassOk(st, v, p) && HoldOk(st, ids, c, v, p)
    requires c.config == Some(cfg) && Bereft(st, u, cfg)
    ensures var config' := PassStep(st, v, c, p, x).0.config;
            && (config' != c.config <==> Deletes(p, x))
            && (Deletes(p, x) ==> config' == DeleteConfig(cfg))
  {
    var c' := PassStep(st, v, c, p, x).0;
    if p.stage.DropConfig? {
      assert PassStep(st, v, c, p, x) == DropConfigStep(c, p, x);
    } else {
      ConfigCalls(st, v, c, p, x);
      LockedStep(st, ids, u, v, c, p, x, c');
      NoOtherMark(st, ids, u, v, c, p, x, c', cfg);
    }
  }

  lemma NoOtherMark(st: Settings, ids: set<Uid>, u: Uid, v: Uid, c: Cluster, p: Pass, x: Input, c': Cluster, cfg: OLSConfig)
    requires u != v && u in ids && HoldOk(st, ids, c, v, p) && ConfigEffect(st, v, c, p, x, c') && !p.stage.DropConfig?
    requires PassOk(st, v, p) && c.config == Some(cfg) && Bereft(st, u, cfg)
    requires c'.config == c.config || c'.config == DeleteConfig(cfg)
    ensures c'.config == c.config
  {
    assert Labelled(c, u);
  }

  lemma GrievingCall(st: Settings, w: World, v: Uid, x: Input, w': World, u: Uid, cfg: OLSConfig)
    requires HoldInv(st, w) && Step(st, w, Calls(v, x), w') && u in w.passes
    requires Grieving(st, u, w.cluster, cfg) && Turning(w.passes[u])
    ensures w'.cluster.config != w.cluster.config <==> v != u && Deletes(w.passes[v], x)
    ensures w'.cluster.config == w.cluster.config ==> Grieving(st, u, w'.cluster, cfg) && Turning(w'.passes[u])
  {
    var c, p := w.cluster, w.passes[v];
    if v == u {
      TurningStep(st, u, c, p, x, cfg);
    } else {
      ForeignDeleteExactly(st, w.passes.Keys, u, v, c, p, x, cfg);
      StepGuarantee(st, u, v, c, p, x);
      InstancesWritten(st, v, c, p, x);
    }
  }

  /** The move is not the way out: not a Delete by another instance's pass, and
      not a change from outside the operator. */
  ghost predicate NoWayOut(w: World, a: Action, w': World, u: Uid) {
    && (a.Calls? && a.u in w.passes ==> a.u == u || !Deletes(w.passes[a.u], a.input))
    && (a.Env? ==> w'.cluster.config == w.cluster.config)
  }

  lemma GrievingMove(st: Settings, w: World, a: Action, w': World, u: Uid, cfg: OLSConfig)
    requires HoldInv(st, w) && Step(st, w, a, w') && u in w.passes && NoWayOut(w, a, w', u)
    requires Grieving(st, u, w.cluster, cfg) && Turning(w.passes[u])
    ensures u in w'.passes && Grieving(st, u, w'.cluster, cfg) && Turning(w'.passes[u])
  {
    match a
    case Env => assert Rely(u, w.cluster, w'.cluster);
    case Begins(v, fetched) =>
    case Calls(v, x) => GrievingCall(st, w, v, x, w', u, cfg);
    case Crashes(v) =>
  }

  lemma {:induction false} GrievingKept(st: Settings, ws: seq<World>, acts: seq<Action>, k: nat, n: nat, u: Uid, cfg: OLSConfig)
    requires k <= n < |ws| <= |acts| + 1
    requires forall i :: k <= i < n ==> HoldInv(st, ws[i]) && Step(st, ws[i], acts[i], ws[i + 1]) && NoWayOut(ws[i], acts[i], ws[i + 1], u)
    requires u in ws[k].passes && Grieving(st, u, ws[k].cluster, cfg) && Turning(ws[k].passes[u])
    ensures u in ws[n].passes && Grieving(st, u, ws[n].cluster, cfg) && Turning(ws[n].passes[u])
    decreases n
  {
    if k < n {
      GrievingKept(st, ws, acts, k, n - 1, u, cfg);
      GrievingMove(st, ws[n - 1], acts[n - 1], ws[n], u, cfg);
    }
  }

  /** A bereft OLSConfig over whole runs of the controller as it is set up: for
      as long as no other instance's pass gets its Delete through and nobody
      outside the operator touches it, it stays exactly as it is, and u, whose
      delete passes all end in the same error, is never let go. */
  lemma BereftUntilDelete(st: Settings, ws: seq<World>, acts: seq<Action>, k: nat, n: nat, u: Uid, cfg: OLSConfig)
    requires IsWorldRun(st, ws, acts) && ClaimsHeld(st, ws[0]) && u in ws[0].passes && k <= n < |ws|
    requires forall i :: 0 <= i < |ws| ==> Serial(ws[i])
    requires forall i :: k <= i < n ==> NoWayOut(ws[i], acts[i], ws[i + 1], u)
    requires u in ws[k].passes && Grieving(st, u, ws[k].cluster, cfg) && Turning(ws[k].passes[u])
    ensures u in ws[n].passes && Grieving(st, u, ws[n].cluster, cfg)
  {
    forall i | k <= i < n
      ensures HoldInv(st, ws[i]) && Step(st, ws[i], acts[i], ws[i + 1]) && NoWayOut(ws[i], acts[i], ws[i + 1], u)
    {
      SerialRunHolds(st, ws, acts, i);
    }
    GrievingKept(st, ws, acts, k, n, u, cfg);
  }

  /** The way out inside the operator: the delete pass of another instance
      marks the bereft OLSConfig, or removes it if no finalizer is left; once
      it is gone, u's next delete pass lets go of u unless the first matching
      CSV is its own. */
  lemma Rescue(st: Settings, u: Uid, v: Uid, c: Cluster, cfg: OLSConfig, fetched: Option<string>, ping: string)
    requires u != v && Grieving(st, u, c, cfg) && Held(c, v) && c.instances[v].deleting
    ensures var c' := WholePass(st, v, c, fetched, ping).0;
            && c'.config == DeleteConfig(cfg) && Held(c', u) && c'.instances[u].deleting
            && (cfg.finalizers == [] && (FirstCsv(c'.csvs).Some? ==> !OwnedBy(FirstCsv(c'.csvs).value.owners, u)) ==>
                  !Held(WholePass(st, u, c', fetched, ping).0, u))
  {
    var c' := WholePass(st, v, c, fetched, ping).0;
    DeletePass(st, v, c, fetched, ping);
    OthersKept(u, v, c, c');
    if c'.config.None? { DeletePass(st, u, c', fetched, ping); }
  }

  lemma OthersKept(u: Uid, v: Uid, c: Cluster, c': Cluster)
    requires u != v && c'.instances - {v} == c.instances - {v} && u in c.instances
    ensures u in c'.instances && c'.instances[u] == c.instances[u]
  {
    assert u in c.instances - {v} && u in c'.instances - {v};
    assert (c'.instances - {v})[u] == (c.instances - {v})[u];
  }

  // ------------------------------------------------ an OLSConfig that is nobody's

  /** The owner label is present but names none of the instances of the run,
      as an empty one does, and the finalizer is on. */
  ghost predicate Nobodys(st: Settings, ids: set<Uid>, c: Cluster) {
    && c.config.Some? && OWNER_LABEL in c.config.value.labels && st.finalizer in c.config.value.finalizers
    && forall v :: v in ids ==> !Labelled(c, v)
  }

  /** A pass that reads an empty owner label gets past the guard and patches;
      the label stays empty, so nobody becomes the owner, but the finalizer is
      added. */
  lemma PatchLeavesOwnerless(st: Settings, ids: set<Uid>, u: Uid, c: Cluster, p: Pass, x: Input, cfg: OLSConfig)
    requires p.stage == WriteConfig(c.config, cfg) && Attempt(st, u, p, c.config) == Ok(cfg) && x.fault == NoFault
    requires c.config.Some? && OWNER_LABEL in c.config.value.labels && c.config.value.Owner() == "" && !c.config.value.deleting
    ensures Free(u, c.config) && Nobodys(st, ids, PassStep(st, u, c, p, x).0)
  {
    OwnerAfterPatch(st, u, p.Inst(), c.config.value);
    MergeIsPatch(st, u, p.Inst(), c.config.value);
    PatchFrame(st, u, p.Inst(), c.config.value);
    var merged := Merged(st, u, p, c.config, cfg, c.config);
    assert merged == cfg && !cfg.deleting;
    assert PassStep(st, u, c, p, x) == WriteConfigStep(c, p, c.config, cfg, merged, x);
  }

  /** A pass that has not got past the OLSConfig and holds no older copy of it. */
  predicate Calm(st: Settings, p: Pass) {
    && !Uninstalling(p.stage) && !p.Releasing() && !p.stage.ReleaseConfig?
    && (p.stage.WriteConfig? ==>
          p.stage.read.Some? && OWNER_LABEL in p.stage.read.value.labels && st.finalizer in p.stage.read.value.finalizers)
  }

  /** The owner label as it stands. */
  function OwnerLabel(c: Cluster): string {
    if c.config.Some? then c.config.value.Owner() else ""
  }

  /** No call takes the finalizer off, or changes the label of, an OLSConfig
      that is nobody's. */
  lemma NobodysKept(st: Settings, ids: set<Uid>, v: Uid, c: Cluster, p: Pass, x: Input, c': Cluster)
    requires Nobodys(st, ids, c) && Calm(st, p) && ConfigEffect(st, v, c, p, x, c')
    ensures Nobodys(st, ids, c') && OwnerLabel(c') == OwnerLabel(c)
  {
    if p.stage.WriteConfig? && c'.config != c.config {
      MergedParts(st, v, p, p.stage.read.value, p.stage.patched, c.config.value);
    } else if p.stage.WritePing? && c'.config != c.config {
      PingOwner(p.stage.cfg, x.ping);
    }
  }

  lemma ReleaseFlow(st: Settings, v: Uid, c: Cluster, p: Pass, x: Input)
    requires Removing(p.stage)
    ensures RemoveStep(st, v, c, p, x).1.stage.ReleaseConfig? ==> Labelled(c, v)
  {
  }

  lemma NoRelease(st: Settings, v: Uid, c: Cluster, p: Pass, x: Input)
    requires !Labelled(c, v) && Calm(st, p) && !p.stage.Idle?
    ensures !PassStep(st, v, c, p, x).1.stage.ReleaseConfig?
  {
    if Removing(p.stage) {
      ReleaseFlow(st, v, c, p, x);
    } else if Installing(p.stage) {
      InstallFlow(st, v, c, p, x);
    } else if Configuring(p.stage) {
      ConfigStays(st, v, c, p, x);
    }
  }

  lemma ConfigStays(st: Settings, v: Uid, c: Cluster, p: Pass, x: Input)
    requires Configuring(p.stage)
    ensures var q := ConfigStep(st, v, c, p, x).1.stage; Configuring(q) || q.Finish?
  {
    if p.stage.ReadConfig? {
      ReadConfigTerminates(v, p, See(x, c.config), Attempt(st, v, p, c.config));
    }
  }

  lemma CalmFrom(st: Settings, ids: set<Uid>, v: Uid, c: Cluster, p: Pass, c': Cluster, p': Pass)
    requires Nobodys(st, ids, c) && Calm(st, p) && PassOk(st, v, p) && Good(st, v, c, p, (c', p'))
    requires !p.stage.Idle? && (p.stage.Finish? ==> p'.stage.Idle?)
    requires !p'.stage.ReleaseConfig? && ClaimFlow(st, v, c, p, c', p')
    ensures Calm(st, p')
  {
    Flow(st, v, c, p, c', p');
  }

  lemma CalmStep(st: Settings, ids: set<Uid>, v: Uid, c: Cluster, p: Pass, x: Input)
    requires Nobodys(st, ids, c) && v in ids && Calm(st, p) && PassOk(st, v, p) && !p.stage.Idle?
    ensures Calm(st, PassStep(st, v, c, p, x).1)
  {
    var r := PassStep(st, v, c, p, x);
    StepOk(st, v, c, p, x);
    StepClaims(st, v, c, p, x);
    NoRelease(st, v, c, p, x);
    CalmFrom(st, ids, v, c, p, r.0, r.1);
  }

  lemma CalmCall(st: Settings, ids: set<Uid>, u: Uid, v: Uid, c: Cluster, p: Pass, x: Input)
    requires Nobodys(st, ids, c) && v in ids && Calm(st, p) && PassOk(st, v, p) && !p.stage.Idle?
    ensures var r := PassStep(st, v, c, p, x);
            Calm(st, r.1) && Nobodys(st, ids, r.0) && OwnerLabel(r.0) == OwnerLabel(c) && (Held(c, u) ==> Held(r.0, u))
  {
    CalmStep(st, ids, v, c, p, x);
    ConfigCalls(st, v, c, p, x);
    NobodysKept(st, ids, v, c, p, x, PassStep(st, v, c, p, x).0);
    StepGuarantee(st, u, v, c, p, x);
  }

  ghost predicate AllCalm(st: Settings, w: World) {
    forall v :: v in w.passes ==> Calm(st, w.passes[v])
  }

  lemma CalmBegin(st: Settings, i: Instance, fetched: Option<string>)
    ensures Calm(st, Begin(st, i, fetched))
  {
  }

  /** What stays so from one world to the next, for instance u. */
  ghost predicate StaysNobodys(st: Settings, w: World, w': World, u: Uid) {
    && AllCalm(st, w') && Nobodys(st, w'.passes.Keys, w'.cluster) && OwnerLabel(w'.cluster) == OwnerLabel(w.cluster)
    && (Held(w.cluster, u) ==> Held(w'.cluster, u))
  }

  /** Someone outside the operator moves, but leaves the owner label as it is. */
  ghost predicate LeavesLabel(w: World, a: Action, w': World) {
    a.Env? ==>
      w'.cluster.config.Some? && OWNER_LABEL in w'.cluster.config.value.labels && OwnerLabel(w'.cluster) == OwnerLabel(w.cluster)
  }

  lemma CalmEnv(st: Settings, w: World, w': World, u: Uid)
    requires AllCalm(st, w) && Nobodys(st, w.passes.Keys, w.cluster) && u in w.passes
    requires Step(st, w, Env, w') && LeavesLabel(w, Env, w')
    ensures StaysNobodys(st, w, w', u)
  {
    assert Rely(u, w.cluster, w'.cluster);
  }

  lemma CalmAction(st: Settings, w: World, a: Action, w': World, u: Uid)
    requires AllCalm(st, w) && Nobodys(st, w.passes.Keys, w.cluster) && WorldOk(st, w) && u in w.passes
    requires Step(st, w, a, w') && LeavesLabel(w, a, w') && w'.passes.Keys == w.passes.Keys
    ensures StaysNobodys(st, w, w', u)
  {
    match a
    case Env => CalmEnv(st, w, w', u);
    case Begins(v, fetched) => CalmBegin(st, w.cluster.instances[v], fetched);
    case Calls(v, x) => CalmCall(st, w.passes.Keys, u, v, w.cluster, w.passes[v], x);
    case Crashes(v) =>
  }

  lemma {:induction false} NobodysForever(st: Settings, ws: seq<World>, acts: seq<Action>, k: nat, n: nat, u: Uid)
    requires IsWorldRun(st, ws, acts) && k <= n < |ws| && u in ws[0].passes
    requires AllCalm(st, ws[k]) && Nobodys(st, ws[k].passes.Keys, ws[k].cluster)
    requires forall i :: k <= i < n ==> LeavesLabel(ws[i], acts[i], ws[i + 1])
    ensures StaysNobodys(st, ws[k], ws[n], u)
    decreases n
  {
    if k < n {
      NobodysForever(st, ws, acts, k, n - 1, u);
      WorldRunOk(st, ws, acts, n - 1);
      WorldRunOk(st, ws, acts, n);
      CalmAction(st, ws[n - 1], acts[n - 1], ws[n], u);
    }
  }

  /** In a state of a run, a label that names no held instance is nobody's. */
  lemma LostIsNobodys(st: Settings, ws: seq<World>, acts: seq<Action>, k: nat)
    requires IsWorldRun(st, ws, acts) && k < |ws| && ws[k].cluster.config.Some?
    requires var cfg := ws[k].cluster.config.value;
             OWNER_LABEL in cfg.labels && st.finalizer in cfg.finalizers && !OwnerHeld(ws[k].cluster, cfg)
    ensures Nobodys(st, ws[k].passes.Keys, ws[k].cluster)
  {
    var c := ws[k].cluster;
    WorldRunOk(st, ws, acts, k);
    forall v | v in ws[k].passes ensures !Labelled(c, v) {
      NoOrphans(st, ws, acts, k, v);
      HeldOwner(c, v);
    }
  }

  lemma HeldOwner(c: Cluster, v: Uid)
    requires c.config.Some?
    ensures Labelled(c, v) && Held(c, v) ==> OwnerHeld(c, c.config.value)
  {
  }

  /** A lost OLSConfig is there for good: over every run of any number of
      instances, from a state in which no pass is past it or holds an older
      copy, and as long as nobody outside the operator changes the label, no
      pass takes the finalizer off or changes the label, so it never
      disappears; and no instance, deleted or not, is ever let go. */
  lemma LostForever(st: Settings, ws: seq<World>, acts: seq<Action>, k: nat, n: nat, u: Uid)
    requires IsWorldRun(st, ws, acts) && k <= n < |ws| && u in ws[0].passes && AllCalm(st, ws[k])
    requires ws[k].cluster.config.Some? && Lost(st, ws[k].cluster, ws[k].cluster.config.value)
    requires forall i :: k <= i < n ==> LeavesLabel(ws[i], acts[i], ws[i + 1])
    ensures ws[n].cluster.config.Some? && st.finalizer in ws[n].cluster.config.value.finalizers
    ensures ws[n].cluster.config.value.Owner() == ws[k].cluster.config.value.Owner()
    ensures Held(ws[k].cluster, u) ==> Held(ws[n].cluster, u)
  {
    LostIsNobodys(st, ws, acts, k);
    NobodysForever(st, ws, acts, k, n, u);
  }
}
