/** The owner label as a lock on the OLSConfig and the finalizer as a hold. */
module Lock {
  import opened Wrappers
  import opened Cluster
  import opened Install
  import opened OlsConfig
  import opened Reconcile
  import opened Runs
  import opened Orphans
  import opened History
  import opened Worlds

  /** The controller runs one pass at a time: it is set up without options, so
      it has a single worker. */
  ghost predicate Serial(w: World) {
    forall u, v :: u in w.passes && v in w.passes && !w.passes[u].stage.Idle? && !w.passes[v].stage.Idle? ==> u == v
  }

  predicate HasHold(st: Settings, c: Cluster) {
    c.config.Some? && st.finalizer in c.config.value.finalizers
  }

  predicate Going(c: Cluster, u: Uid) {
    u in c.instances && c.instances[u].deleting
  }

  /** Stages in which a pass acts on an OLSConfig it took for its own. */
  predicate Claiming(s: Stage) {
    (s.WriteConfig? && s.read.Some?) || s.CheckReady? || s.ReadPing? || s.WritePing? || s.ReleaseConfig?
  }

  /** An OLSConfig labelled with v carries the finalizer unless v itself is
      being deleted; and a pass of v that acts on the OLSConfig as its own is
      not looking at one labelled with another instance. */
  ghost predicate HoldOk(st: Settings, ids: set<Uid>, c: Cluster, v: Uid, p: Pass) {
    && (Labelled(c, v) ==> HasHold(st, c) || Going(c, v))
    && (Removing(p.stage) || Uninstalling(p.stage) ==> Labelled(c, v) ==> Going(c, v))
    && (p.stage.WriteConfig? && p.stage.read.Some? && st.finalizer in p.stage.read.value.finalizers ==> HasHold(st, c))
    && (Claiming(p.stage) ==> forall u :: u in ids && Labelled(c, u) ==> u == v)
  }

  /** What the calls that write the OLSConfig make of it. */
  ghost predicate ConfigEffect(st: Settings, v: Uid, c: Cluster, p: Pass, x: Input, c': Cluster) {
    || c'.config == c.config
    || (p.stage.WriteConfig? && p.stage.read.None? == c.config.None?
        && c'.config == Settle(Merged(st, v, p, p.stage.read, p.stage.patched, c.config)))
    || (p.stage.WritePing? && c.config == Some(p.stage.cfg) && c'.config == Some(PingOLSConfig(p.stage.cfg, x.ping)))
    || (p.stage.ReleaseConfig? && c.config.Some?
        && c'.config == Settle(c.config.value.(finalizers := Without(p.stage.cfg.finalizers, st.finalizer))))
    || (p.stage.DropConfig? && c.config.Some? && c'.config == DeleteConfig(c.config.value))
  }

  lemma ConfigCalls(st: Settings, v: Uid, c: Cluster, p: Pass, x: Input)
    requires PassOk(st, v, p)
    ensures ConfigEffect(st, v, c, p, x, PassStep(st, v, c, p, x).0)
  {
    if !Writes(p.stage) {
      ReadsOnly(st, v, c, p, x);
    } else if p.stage.WriteConfig? {
      var merged := Merged(st, v, p, p.stage.read, p.stage.patched, c.config);
      assert PassStep(st, v, c, p, x) == WriteConfigStep(c, p, p.stage.read, p.stage.patched, merged, x);
    } else {
      OtherConfigCalls(st, v, c, p, x);
    }
  }

  lemma OtherConfigCalls(st: Settings, v: Uid, c: Cluster, p: Pass, x: Input)
    requires Writes(p.stage) && !p.stage.WriteConfig?
    ensures ConfigEffect(st, v, c, p, x, PassStep(st, v, c, p, x).0)
  {
  }

  /** A pass touches no other instance, and no deletion mark. */
  ghost predicate InstancesEffect(v: Uid, p: Pass, c: Cluster, c': Cluster) {
    && (forall u :: u != v ==> (u in c'.instances <==> u in c.instances))
    && (forall u :: u != v && u in c.instances ==> c'.instances[u] == c.instances[u])
    && (v in c'.instances ==> v in c.instances && c'.instances[v].deleting == c.instances[v].deleting)
    && (v in c.instances && v !in c'.instances ==> p.stage.Finish?)
  }

  lemma InstancesWritten(st: Settings, v: Uid, c: Cluster, p: Pass, x: Input)
    ensures InstancesEffect(v, p, c, PassStep(st, v, c, p, x).0)
  {
    if !Writes(p.stage) { ReadsOnly(st, v, c, p, x); }
  }

  lemma MergedHold(st: Settings, v: Uid, p: Pass, read: Option<OLSConfig>, patched: OLSConfig, cur: Option<OLSConfig>)
    requires ClaimOk(st, v, read, patched) && read.None? == cur.None?
    requires read.Some? && st.finalizer in read.value.finalizers ==> st.finalizer in cur.value.finalizers
    ensures st.finalizer in Merged(st, v, p, read, patched, cur).finalizers
  {
  }

  /** The lock: a step of v that does not claim wrongly leaves an OLSConfig
      labelled with u exactly as it is, or marks it deleted. */
  lemma LockedStep(st: Settings, ids: set<Uid>, u: Uid, v: Uid, c: Cluster, p: Pass, x: Input, c': Cluster)
    requires u != v && u in ids && Labelled(c, u)
    requires PassOk(st, v, p) && HoldOk(st, ids, c, v, p) && ConfigEffect(st, v, c, p, x, c')
    ensures c'.config == c.config || c'.config == DeleteConfig(c.config.value)
  {
  }

  lemma OthersHold(st: Settings, ids: set<Uid>, u: Uid, v: Uid, c: Cluster, p: Pass, x: Input, c': Cluster)
    requires u != v && u in ids && PassOk(st, v, p) && HoldOk(st, ids, c, v, p)
    requires ConfigEffect(st, v, c, p, x, c') && InstancesEffect(v, p, c, c') && Guarantee(u, v, p, c, c')
    requires Labelled(c, u) ==> HasHold(st, c) || Going(c, u)
    ensures Labelled(c', u) ==> HasHold(st, c') || Going(c', u)
  {
    if Labelled(c', u) {
      LockedStep(st, ids, u, v, c, p, x, c');
    }
  }

  lemma OwnHold(st: Settings, v: Uid, c: Cluster, p: Pass, x: Input, c': Cluster, ids: set<Uid>)
    requires PassOk(st, v, p) && HoldOk(st, ids, c, v, p) && NoOrphan(v, c, p) && v in ids
    requires ConfigEffect(st, v, c, p, x, c') && InstancesEffect(v, p, c, c') && Guarantee(v, v, p, c, c')
    requires Labelled(c', v) ==> Held(c', v)
    ensures Labelled(c', v) ==> HasHold(st, c') || Going(c', v)
  {
    if Labelled(c', v) {
      if p.stage.WriteConfig? && c'.config != c.config {
        MergedHold(st, v, p, p.stage.read, p.stage.patched, c.config);
      } else if p.stage.WritePing? && c'.config != c.config {
        PingOwner(p.stage.cfg, x.ping);
      }
    }
  }

  /** How a pass comes to act on the OLSConfig as its own. */
  ghost predicate ClaimFlow(st: Settings, v: Uid, c: Cluster, p: Pass, c': Cluster, p': Pass) {
    && (p'.stage.WriteConfig? ==> p.stage.ReadConfig? && p'.stage.read == c.config && c' == c)
    && (Claiming(p'.stage) ==>
          || (p.stage.WriteConfig? && p.stage.read.None? == c.config.None?
              && c'.config == Settle(Merged(st, v, p, p.stage.read, p.stage.patched, c.config)))
          || (c' == c && (Claiming(p.stage) || (c.config.Some? && (c.config.value.Owner() == "" || c.config.value.Owner() == v)))))
  }

  lemma ReadConfigFlow(st: Settings, v: Uid, c: Cluster, p: Pass, x: Input, attempt: Result<OLSConfig>)
    requires p.stage.ReadConfig?
    ensures ClaimFlow(st, v, c, p, c, AfterReadConfig(v, p, See(x, c.config), attempt))
  {
  }

  lemma RemoveFlow(st: Settings, v: Uid, c: Cluster, p: Pass, x: Input)
    requires Removing(p.stage)
    ensures ClaimFlow(st, v, c, p, RemoveStep(st, v, c, p, x).0, RemoveStep(st, v, c, p, x).1)
  {
  }

  lemma ConfigFlow(st: Settings, v: Uid, c: Cluster, p: Pass, x: Input)
    requires Configuring(p.stage)
    ensures ClaimFlow(st, v, c, p, ConfigStep(st, v, c, p, x).0, ConfigStep(st, v, c, p, x).1)
  {
    if p.stage.ReadConfig? { ReadConfigFlow(st, v, c, p, x, Attempt(st, v, p, c.config)); }
  }

  lemma InstallFlow(st: Settings, v: Uid, c: Cluster, p: Pass, x: Input)
    requires Installing(p.stage)
    ensures var q := InstallStep(st, v, c, p, x).1.stage; Installing(q) || q.ReadConfig? || q.Finish?
  {
  }

  lemma UninstallFlow(st: Settings, v: Uid, c: Cluster, p: Pass, x: Input)
    requires Uninstalling(p.stage)
    ensures var q := UninstallStep(st, v, c, p, x).1.stage; Uninstalling(q) || q.Finish?
  {
  }

  lemma StepClaims(st: Settings, v: Uid, c: Cluster, p: Pass, x: Input)
    requires !p.stage.Idle?
    ensures ClaimFlow(st, v, c, p, PassStep(st, v, c, p, x).0, PassStep(st, v, c, p, x).1)
  {
    if Configuring(p.stage) {
      ConfigFlow(st, v, c, p, x);
    } else if Removing(p.stage) {
      RemoveFlow(st, v, c, p, x);
    } else if Installing(p.stage) {
      InstallFlow(st, v, c, p, x);
    } else if Uninstalling(p.stage) {
      UninstallFlow(st, v, c, p, x);
    }
  }

  lemma OwnClaims(st: Settings, ids: set<Uid>, v: Uid, c: Cluster, p: Pass, x: Input, c': Cluster, p': Pass)
    requires PassOk(st, v, p) && HoldOk(st, ids, c, v, p) && !p.stage.Idle?
    requires ClaimFlow(st, v, c, p, c', p') && ConfigEffect(st, v, c, p, x, c')
    ensures Claiming(p'.stage) ==> forall u :: u in ids && Labelled(c', u) ==> u == v
    ensures p'.stage.WriteConfig? && p'.stage.read.Some? && st.finalizer in p'.stage.read.value.finalizers ==> HasHold(st, c')
  {
    if p.stage.WriteConfig? && p.stage.read.None? == c.config.None? {
      MergedOwner(st, v, p, p.stage.read, p.stage.patched, c.config);
    }
  }

  /** A step of v's pass keeps HoldOk for v. */
  lemma OwnStepHold(st: Settings, ids: set<Uid>, v: Uid, c: Cluster, p: Pass, x: Input)
    requires PassOk(st, v, p) && HoldOk(st, ids, c, v, p) && NoOrphan(v, c, p) && v in ids && !p.stage.Idle?
    ensures HoldOk(st, ids, PassStep(st, v, c, p, x).0, v, PassStep(st, v, c, p, x).1)
  {
    var r := PassStep(st, v, c, p, x);
    StepOk(st, v, c, p, x);
    StepGuarantee(st, v, v, c, p, x);
    StepNoOrphan(st, v, c, p, r.0, r.1);
    ConfigCalls(st, v, c, p, x);
    InstancesWritten(st, v, c, p, x);
    StepClaims(st, v, c, p, x);
    OwnStepHoldFrom(st, ids, v, c, p, x, r.0, r.1);
  }

  lemma OwnStepHoldFrom(st: Settings, ids: set<Uid>, v: Uid, c: Cluster, p: Pass, x: Input, c': Cluster, p': Pass)
    requires PassOk(st, v, p) && HoldOk(st, ids, c, v, p) && NoOrphan(v, c, p) && v in ids && !p.stage.Idle?
    requires (p.stage.Finish? ==> p'.stage.Idle?) && Good(st, v, c, p, (c', p')) && Guarantee(v, v, p, c, c')
    requires NoOrphan(v, c', p') && ConfigEffect(st, v, c, p, x, c') && InstancesEffect(v, p, c, c')
    requires ClaimFlow(st, v, c, p, c', p')
    ensures HoldOk(st, ids, c', v, p')
  {
    OwnHold(st, v, c, p, x, c', ids);
    OwnClaims(st, ids, v, c, p, x, c', p');
    StaysGoing(st, v, c, p, c', p');
  }

  lemma StaysGoing(st: Settings, v: Uid, c: Cluster, p: Pass, c': Cluster, p': Pass)
    requires PassOk(st, v, p) && PassOk(st, v, p') && p'.base == p.base && !p.stage.Idle? && (p.stage.Finish? ==> p'.stage.Idle?)
    requires Removing(p.stage) || Uninstalling(p.stage) ==> Labelled(c, v) ==> Going(c, v)
    requires Guarantee(v, v, p, c, c') && InstancesEffect(v, p, c, c') && (Labelled(c', v) ==> Held(c', v))
    ensures Removing(p'.stage) || Uninstalling(p'.stage) ==> Labelled(c', v) ==> Going(c', v)
  {
    StaysLeaving(st, v, p, p');
  }

  /** The path of a pass shows in its copy of the instance. */
  lemma LeavingPath(st: Settings, v: Uid, p: Pass)
    requires PassOk(st, v, p)
    ensures Removing(p.stage) || Uninstalling(p.stage) ==> p.base.deleting
  {
  }

  lemma WorkingPath(st: Settings, v: Uid, p: Pass)
    requires PassOk(st, v, p)
    ensures Installing(p.stage) || Configuring(p.stage) ==> !p.base.deleting
  {
  }

  lemma StaysLeaving(st: Settings, v: Uid, p: Pass, p': Pass)
    requires PassOk(st, v, p) && PassOk(st, v, p') && p'.base == p.base
    requires !p.stage.Idle? && (p.stage.Finish? ==> p'.stage.Idle?)
    ensures Removing(p'.stage) || Uninstalling(p'.stage) ==> Removing(p.stage) || Uninstalling(p.stage)
  {
    LeavingPath(st, v, p');
    WorkingPath(st, v, p);
    Paths(p.stage);
  }

  lemma Paths(s: Stage)
    ensures s.Idle? || s.Finish? || Installing(s) || Configuring(s) || Removing(s) || Uninstalling(s)
  {
  }

  // --------------------------------------------------------------- serial runs

  ghost predicate HoldInv(st: Settings, w: World) {
    && WorldOk(st, w)
    && forall u :: u in w.passes ==>
         NoOrphan(u, w.cluster, w.passes[u]) && HoldOk(st, w.passes.Keys, w.cluster, u, w.passes[u])
  }

  lemma CallKeepsHold(st: Settings, w: World, v: Uid, x: Input, u: Uid, w': World)
    requires HoldInv(st, w) && Serial(w) && Step(st, w, Calls(v, x), w') && u in w.passes
    ensures HoldOk(st, w.passes.Keys, w'.cluster, u, w'.passes[u])
  {
    var p := w.passes[v];
    if u == v {
      OwnStepHold(st, w.passes.Keys, v, w.cluster, p, x);
    } else {
      assert w.passes[u].stage.Idle?;
      OthersStepHold(st, w.passes.Keys, u, v, w.cluster, p, w.passes[u], x);
    }
  }

  /** A step of v's pass keeps HoldOk for an instance without a pass. */
  lemma OthersStepHold(st: Settings, ids: set<Uid>, u: Uid, v: Uid, c: Cluster, p: Pass, idle: Pass, x: Input)
    requires u != v && u in ids && PassOk(st, v, p) && HoldOk(st, ids, c, v, p)
    requires idle.stage.Idle? && HoldOk(st, ids, c, u, idle)
    ensures HoldOk(st, ids, PassStep(st, v, c, p, x).0, u, idle)
  {
    ConfigCalls(st, v, c, p, x);
    InstancesWritten(st, v, c, p, x);
    StepGuarantee(st, u, v, c, p, x);
    OthersHold(st, ids, u, v, c, p, x, PassStep(st, v, c, p, x).0);
  }

  lemma EnvKeepsHold(st: Settings, ids: set<Uid>, c: Cluster, c': Cluster, u: Uid, p: Pass)
    requires EnvOk(st, ids, c, c') && u in ids && NoOrphan(u, c, p) && HoldOk(st, ids, c, u, p)
    ensures HoldOk(st, ids, c', u, p)
  {
    assert Rely(u, c, c');
    if Claiming(p.stage) {
      forall v | v in ids && Labelled(c', v) ensures v == u {
        assert Rely(v, c, c');
      }
    }
  }

  lemma StepKeepsHold(st: Settings, w: World, a: Action, w': World)
    requires HoldInv(st, w) && Serial(w) && Step(st, w, a, w')
    ensures HoldInv(st, w')
  {
    StepKeepsOk(st, w, a, w');
    forall u | u in w'.passes
      ensures NoOrphan(u, w'.cluster, w'.passes[u]) && HoldOk(st, w'.passes.Keys, w'.cluster, u, w'.passes[u])
    {
      ProjectStep(st, u, w, a, w');
      NextNoOrphan(st, u, Local(w.cluster, w.passes[u]), MoveFor(u, a), Local(w'.cluster, w'.passes[u]));
      ActionKeepsHold(st, w, a, u, w');
    }
  }

  lemma BeginHold(st: Settings, ids: set<Uid>, c: Cluster, u: Uid, p: Pass, fetched: Option<string>)
    requires u in c.instances && HoldOk(st, ids, c, u, p)
    ensures HoldOk(st, ids, c, u, Begin(st, c.instances[u], fetched))
  {
  }

  lemma ActionKeepsHold(st: Settings, w: World, a: Action, u: Uid, w': World)
    requires HoldInv(st, w) && Serial(w) && Step(st, w, a, w') && u in w.passes && u in w'.passes
    requires w'.passes.Keys == w.passes.Keys
    ensures HoldOk(st, w'.passes.Keys, w'.cluster, u, w'.passes[u])
  {
    if a.Calls? {
      CallKeepsHold(st, w, a.u, a.input, u, w');
    } else if a.Env? {
      EnvKeepsHold(st, w.passes.Keys, w.cluster, w'.cluster, u, w.passes[u]);
    } else if a.Begins? && a.u == u {
      BeginHold(st, w.passes.Keys, w.cluster, u, w.passes[u], a.fetched);
    }
  }

  /** At the start an OLSConfig that is claimed already carries the finalizer,
      unless its owner is being deleted. */
  ghost predicate ClaimsHeld(st: Settings, w: World) {
    forall u :: u in w.passes && Labelled(w.cluster, u) ==> HasHold(st, w.cluster) || Going(w.cluster, u)
  }

  lemma {:induction false} SerialRunHolds(st: Settings, ws: seq<World>, acts: seq<Action>, n: nat)
    requires IsWorldRun(st, ws, acts) && ClaimsHeld(st, ws[0]) && n < |ws|
    requires forall i :: 0 <= i < |ws| ==> Serial(ws[i])
    ensures HoldInv(st, ws[n])
  {
    if n == 0 {
      WorldRunOk(st, ws, acts, 0);
      forall u | u in ws[0].passes ensures NoOrphan(u, ws[0].cluster, ws[0].passes[u]) {
        assert Initial(u, Local(ws[0].cluster, ws[0].passes[u]));
      }
      forall u | u in ws[0].passes ensures HoldOk(st, ws[0].passes.Keys, ws[0].cluster, u, ws[0].passes[u]) {
        assert Initial(u, Local(ws[0].cluster, ws[0].passes[u]));
      }
    } else {
      SerialRunHolds(st, ws, acts, n - 1);
      StepKeepsHold(st, ws[n - 1], acts[n - 1], ws[n]);
    }
  }

  /** Owner lock with finalizer hold, for the controller as it is set up: once
      the OLSConfig carries owner u, another instance's pass leaves its tree,
      labels and finalizers alone and at most marks it deleted; and as long as
      u is not being deleted the finalizer keeps it from disappearing. */
  lemma OwnerLock(st: Settings, ws: seq<World>, acts: seq<Action>, n: nat, u: Uid, v: Uid)
    requires IsWorldRun(st, ws, acts) && ClaimsHeld(st, ws[0])
    requires forall i :: 0 <= i < |ws| ==> Serial(ws[i])
    requires n < |acts| && acts[n].Calls? && acts[n].u == v && v != u && u in ws[0].passes
    requires Labelled(ws[n].cluster, u)
    ensures var cfg := ws[n].cluster.config.value;
            && (ws[n + 1].cluster.config == Some(cfg) || ws[n + 1].cluster.config == DeleteConfig(cfg))
            && (st.finalizer in cfg.finalizers ==>
                  || ws[n + 1].cluster.config == Some(cfg)
                  || ws[n + 1].cluster.config == Some(cfg.(deleting := true)))
            && (!Going(ws[n].cluster, u) ==> st.finalizer in cfg.finalizers)
  {
    SerialRunHolds(st, ws, acts, n);
    WorldRunOk(st, ws, acts, n);
    var w := ws[n];
    assert Step(st, w, acts[n], ws[n + 1]);
    ConfigCalls(st, v, w.cluster, w.passes[v], acts[n].input);
    LockedStep(st, w.passes.Keys, u, v, w.cluster, w.passes[v], acts[n].input, ws[n + 1].cluster);
  }

  /** u's own calls keep its label and its hold, the release excepted. */
  lemma OwnStepKeepsClaim(st: Settings, u: Uid, c: Cluster, p: Pass, x: Input, c': Cluster)
    requires PassOk(st, u, p) && ConfigEffect(st, u, c, p, x, c') && Labelled(c, u) && HasHold(st, c)
    requires !p.stage.ReleaseConfig?
    ensures Labelled(c', u) && HasHold(st, c')
  {
    if c'.config != c.config {
      if p.stage.WriteConfig? {
        MergedHold(st, u, p, p.stage.read, p.stage.patched, c.config);
        MergedOwner(st, u, p, p.stage.read, p.stage.patched, c.config);
      } else if p.stage.WritePing? {
        PingOwner(p.stage.cfg, x.ping);
      }
    }
  }

  lemma CallKeepsClaim(st: Settings, w: World, v: Uid, x: Input, w': World, u: Uid)
    requires HoldInv(st, w) && Step(st, w, Calls(v, x), w') && u in w.passes
    requires Labelled(w.cluster, u) && HasHold(st, w.cluster) && !(v == u && w.passes[u].stage.ReleaseConfig?)
    ensures Labelled(w'.cluster, u) && HasHold(st, w'.cluster)
  {
    ConfigCalls(st, v, w.cluster, w.passes[v], x);
    if v == u {
      OwnStepKeepsClaim(st, u, w.cluster, w.passes[u], x, w'.cluster);
    } else {
      LockedStep(st, w.passes.Keys, u, v, w.cluster, w.passes[v], x, w'.cluster);
    }
  }

  /** The step is neither u's own release of the OLSConfig nor a move of
      someone outside the operator that takes the label away. */
  ghost predicate LeavesClaim(w: World, a: Action, w': World, u: Uid) {
    && (a.Calls? && a.u == u ==> u in w.passes && !w.passes[u].stage.ReleaseConfig?)
    && (a.Env? ==> Labelled(w'.cluster, u))
  }

  lemma StepKeepsClaim(st: Settings, w: World, a: Action, w': World, u: Uid)
    requires HoldInv(st, w) && Step(st, w, a, w') && u in w.passes && LeavesClaim(w, a, w', u)
    requires Labelled(w.cluster, u) && HasHold(st, w.cluster)
    ensures Labelled(w'.cluster, u) && HasHold(st, w'.cluster)
  {
    if a.Calls? { CallKeepsClaim(st, w, a.u, a.input, w', u); }
  }

  lemma {:induction false} ClaimKept(st: Settings, ws: seq<World>, acts: seq<Action>, k: nat, m: nat, u: Uid)
    requires k <= m < |ws| <= |acts| + 1 && Labelled(ws[k].cluster, u) && HasHold(st, ws[k].cluster)
    requires forall i :: k <= i < m ==> HoldInv(st, ws[i]) && u in ws[i].passes && KeepsClaim(st, ws[i], acts[i], ws[i + 1], u)
    ensures Labelled(ws[m].cluster, u) && HasHold(st, ws[m].cluster)
    decreases m
  {
    if m > k {
      ClaimKept(st, ws, acts, k, m - 1, u);
      StepKeepsClaim(st, ws[m - 1], acts[m - 1], ws[m], u);
    }
  }

  ghost predicate KeepsClaim(st: Settings, w: World, a: Action, w': World, u: Uid) {
    Step(st, w, a, w') && LeavesClaim(w, a, w', u)
  }

  /** The hold over whole runs: from a state in which the OLSConfig carries the
      label of u and the finalizer, it keeps both, whatever the passes of all
      instances do, until u's own pass releases it or someone outside the
      operator takes the label away. */
  lemma HoldUntilRelease(st: Settings, ws: seq<World>, acts: seq<Action>, k: nat, m: nat, u: Uid)
    requires IsWorldRun(st, ws, acts) && ClaimsHeld(st, ws[0]) && u in ws[0].passes && k <= m < |ws|
    requires forall i :: 0 <= i < |ws| ==> Serial(ws[i])
    requires forall i :: k <= i < m ==> LeavesClaim(ws[i], acts[i], ws[i + 1], u)
    requires Labelled(ws[k].cluster, u) && HasHold(st, ws[k].cluster)
    ensures Labelled(ws[m].cluster, u) && HasHold(st, ws[m].cluster)
  {
    forall i | k <= i < m ensures HoldInv(st, ws[i]) && u in ws[i].passes && KeepsClaim(st, ws[i], acts[i], ws[i + 1], u) {
      SerialRunHolds(st, ws, acts, i);
      WorldRunOk(st, ws, acts, i);
    }
    ClaimKept(st, ws, acts, k, m, u);
  }

  // ------------------------------------------------------------ overlapping passes

  /** Without the single worker the lock can be broken, in one way only: an
      OLSConfig labelled with u becomes labelled with v exactly when v's pass
      sends a merge patch computed from a copy without the label. */
  lemma OwnerChangesExactly(st: Settings, u: Uid, v: Uid, c: Cluster, p: Pass, x: Input)
    requires PassOk(st, v, p) && u != v && Labelled(c, u) && Settle(c.config.value).Some?
    ensures Labelled(PassStep(st, v, c, p, x).0, v) <==>
              && p.stage.WriteConfig? && p.stage.read.Some? && OWNER_LABEL !in p.stage.read.value.labels
              && x.fault == NoFault
              && MayWriteFinalizers(c.config.value, Merged(st, v, p, p.stage.read, p.stage.patched, c.config))
  {
    if p.stage.WriteConfig? {
      WriteChangesOwner(st, u, v, c, p, x);
    } else {
      ConfigCalls(st, v, c, p, x);
      if p.stage.WritePing? { PingOwner(p.stage.cfg, x.ping); }
    }
  }

  lemma WriteChangesOwner(st: Settings, u: Uid, v: Uid, c: Cluster, p: Pass, x: Input)
    requires PassOk(st, v, p) && p.stage.WriteConfig? && u != v && Labelled(c, u) && Settle(c.config.value).Some?
    ensures Labelled(PassStep(st, v, c, p, x).0, v) <==>
              && p.stage.read.Some? && OWNER_LABEL !in p.stage.read.value.labels && x.fault == NoFault
              && MayWriteFinalizers(c.config.value, Merged(st, v, p, p.stage.read, p.stage.patched, c.config))
  {
    var merged := Merged(st, v, p, p.stage.read, p.stage.patched, c.config);
    assert PassStep(st, v, c, p, x) == WriteConfigStep(c, p, p.stage.read, p.stage.patched, merged, x);
    if p.stage.read.Some? {
      MergedParts(st, v, p, p.stage.read.value, p.stage.patched, c.config.value);
    }
  }

  lemma MergedParts(st: Settings, v: Uid, p: Pass, read: OLSConfig, patched: OLSConfig, cur: OLSConfig)
    ensures var m := Merged(st, v, p, Some(read), patched, Some(cur));
            && m.labels == (if OWNER_LABEL in read.labels then cur.labels else cur.labels[OWNER_LABEL := v])
            && m.finalizers == (if st.finalizer in read.finalizers then cur.finalizers else read.finalizers + [st.finalizer])
            && m.deleting == cur.deleting
  {
  }
}
