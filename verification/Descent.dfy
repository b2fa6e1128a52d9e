/** Teardown over every interleaving: calls of u's delete passes, with whatever
    faults, and moves of others that add nothing, between any two of them. */
module Descent {
  import opened Wrappers
  import opened Cluster
  import opened Install
  import opened OlsConfig
  import opened Reconcile
  import opened Runs
  import opened Orphans
  import opened Lock
  import opened Solo
  import opened Teardown

  // ------------------------------------------------------------- no call adds weight

  lemma ReleaseNoHeavier(st: Settings, u: Uid, c: Cluster, p: Pass, cfg: OLSConfig, x: Input)
    ensures Weight(st, u, ReleaseStep(st, c, p, cfg, x).0) <= Weight(st, u, c)
  {
  }

  lemma DropConfigNoHeavier(st: Settings, u: Uid, c: Cluster, p: Pass, x: Input)
    ensures Weight(st, u, DropConfigStep(c, p, x).0) <= Weight(st, u, c)
  {
  }

  lemma RemoveNoHeavier(st: Settings, u: Uid, c: Cluster, p: Pass, x: Input)
    requires Removing(p.stage)
    ensures Weight(st, u, RemoveStep(st, u, c, p, x).0) <= Weight(st, u, c)
  {
    match p.stage
    case ReleaseConfig(cfg) => ReleaseNoHeavier(st, u, c, p, cfg, x);
    case DropConfig => DropConfigNoHeavier(st, u, c, p, x);
    case _ =>
  }

  lemma DropPlanNoHeavier(st: Settings, u: Uid, c: Cluster, p: Pass, csv: Csv, plan: InstallPlan, x: Input)
    ensures Weight(st, u, DropPlanStep(c, p, csv, plan, x).0) <= Weight(st, u, c)
  {
    DeletePlanWeight(c.plans, plan.key);
  }

  lemma DropCsvNoHeavier(st: Settings, u: Uid, c: Cluster, p: Pass, csv: Csv, x: Input)
    ensures Weight(st, u, DropCsvStep(c, p, csv, x).0) <= Weight(st, u, c)
  {
    DeleteCsvWeight(c.csvs, csv.key);
  }

  lemma UninstallNoHeavier(st: Settings, u: Uid, c: Cluster, p: Pass, x: Input)
    requires Uninstalling(p.stage)
    ensures Weight(st, u, UninstallStep(st, u, c, p, x).0) <= Weight(st, u, c)
  {
    match p.stage
    case DropPlan(csv, plan) => DropPlanNoHeavier(st, u, c, p, csv, plan, x);
    case DropCsv(csv) => DropCsvNoHeavier(st, u, c, p, csv, x);
    case _ =>
  }

  /** No call of a delete pass adds weight, whatever its fault and however old
      the copies it works with. */
  lemma CallNoHeavier(st: Settings, u: Uid, c: Cluster, p: Pass, x: Input)
    requires PassOk(st, u, p) && p.base.deleting
    ensures Weight(st, u, PassStep(st, u, c, p, x).0) <= Weight(st, u, c)
  {
    WorkingPath(st, u, p);
    Paths(p.stage);
    if Removing(p.stage) {
      RemoveNoHeavier(st, u, c, p, x);
    } else if Uninstalling(p.stage) {
      UninstallNoHeavier(st, u, c, p, x);
    } else if p.stage.Finish? {
      assert PassStep(st, u, c, p, x) == FinishStep(u, c, p, x);
    }
  }

  // ------------------------------------------------------------------- the beats

  /** Instance u is held and being deleted, and a pass under way is a delete pass. */
  ghost predicate Descending(st: Settings, u: Uid, l: Local) {
    && Held(l.cluster, u) && l.cluster.instances[u].deleting && PassOk(st, u, l.pass)
    && (l.pass.stage.Idle? || l.pass.base.deleting)
  }

  /** What happens next: u's pass begins, makes a call with whatever answer, or
      stops; others move; or a whole pass runs without being disturbed. */
  datatype Beat = Starts(fetched: Option<string>) | Does(input: Input) | Stops | Yields
                | Reconciles(fetched: Option<string>, ping: string)

  /** Others move as u relies on, and add nothing to what is left to remove. */
  ghost predicate Yielding(st: Settings, u: Uid, c: Cluster, c': Cluster) {
    && Rely(u, c, c') && Weight(st, u, c') <= Weight(st, u, c)
    && (u in c.instances && u in c'.instances && c.instances[u].deleting ==> c'.instances[u].deleting)
  }

  ghost predicate Happens(st: Settings, u: Uid, l: Local, b: Beat, l': Local) {
    && u in l.cluster.instances
    && match b
       case Starts(fetched) => l.pass.stage.Idle? && l' == Local(l.cluster, Begin(st, l.cluster.instances[u], fetched))
       case Does(x) => !l.pass.stage.Idle? && (l'.cluster, l'.pass) == PassStep(st, u, l.cluster, l.pass, x)
       case Stops => l' == l.(pass := l.pass.To(Idle))
       case Yields => l'.pass == l.pass && Yielding(st, u, l.cluster, l'.cluster)
       case Reconciles(fetched, ping) =>
         l.pass.stage.Idle? && l'.pass == l.pass && l'.cluster == WholePass(st, u, l.cluster, fetched, ping).0
  }

  lemma {:induction false} RestKeepsMark(st: Settings, u: Uid, c: Cluster, p: Pass, ping: string)
    ensures var c' := Rest(st, u, c, p, ping).0;
            u in c'.instances ==> u in c.instances && c'.instances[u].deleting == c.instances[u].deleting
    decreases CallsLeft(p.stage)
  {
    if !p.stage.Idle? {
      var r := PassStep(st, u, c, p, Fine(ping));
      PassTerminates(st, u, c, p, Fine(ping));
      InstancesWritten(st, u, c, p, Fine(ping));
      RestKeepsMark(st, u, r.0, r.1, ping);
    }
  }

  /** The beat is an undisturbed pass that is not stalled. */
  predicate Counts(st: Settings, u: Uid, l: Local, b: Beat) {
    b.Reconciles? && u in l.cluster.instances && !Stalled(st, u, l.cluster)
  }

  lemma CallDescends(st: Settings, u: Uid, c: Cluster, p: Pass, x: Input)
    requires Descending(st, u, Local(c, p)) && !p.stage.Idle?
    ensures var r := PassStep(st, u, c, p, x);
            Weight(st, u, r.0) <= Weight(st, u, c) && (Held(r.0, u) ==> Descending(st, u, Local(r.0, r.1)))
  {
    CallNoHeavier(st, u, c, p, x);
    StepOk(st, u, c, p, x);
    InstancesWritten(st, u, c, p, x);
  }

  /** No beat adds weight, and the ones that count take some off or let go. */
  lemma BeatWeight(st: Settings, u: Uid, l: Local, b: Beat, l': Local)
    requires Descending(st, u, l) && Happens(st, u, l, b, l')
    ensures Weight(st, u, l'.cluster) <= Weight(st, u, l.cluster)
    ensures Held(l'.cluster, u) ==> Descending(st, u, l')
    ensures Held(l'.cluster, u) && Counts(st, u, l, b) ==> Weight(st, u, l'.cluster) < Weight(st, u, l.cluster)
  {
    match b
    case Starts(fetched) => BeginOk(st, u, l.cluster.instances[u], fetched);
    case Does(x) => CallDescends(st, u, l.cluster, l.pass, x);
    case Stops =>
    case Yields =>
    case Reconciles(fetched, ping) =>
      TeardownProgress(st, u, l.cluster, fetched, ping);
      RestKeepsMark(st, u, l.cluster, Begin(st, l.cluster.instances[u], fetched), ping);
  }

  // ---------------------------------------------------------------------- the course

  /** A finite course of beats, the latest one outermost. */
  datatype Course = Top(at: Local) | Down(before: Course, beat: Beat, at: Local)

  function Origin(h: Course): Local {
    if h.Top? then h.at else Origin(h.before)
  }

  /** Every beat happens as it says, while the instance is held. */
  ghost predicate Possible(st: Settings, u: Uid, h: Course) {
    h.Down? ==> Possible(st, u, h.before) && Held(h.before.at.cluster, u) && Happens(st, u, h.before.at, h.beat, h.at)
  }

  /** How many undisturbed passes that were not stalled it contains. */
  function Rounds(st: Settings, u: Uid, h: Course): nat {
    if h.Top? then 0 else Rounds(st, u, h.before) + if Counts(st, u, h.before.at, h.beat) then 1 else 0
  }

  /** Teardown over every interleaving: while u is held, the weight and the
      rounds together never exceed the weight at the start, whatever passes
      are disturbed, fail or stop in between; so after at most weight plus one
      undisturbed passes that are not stalled, u is let go. */
  lemma {:induction false} Descends(st: Settings, u: Uid, h: Course)
    requires Possible(st, u, h) && Descending(st, u, Origin(h))
    ensures Held(h.at.cluster, u) ==>
              Descending(st, u, h.at) && Weight(st, u, h.at.cluster) + Rounds(st, u, h) <= Weight(st, u, Origin(h).cluster)
    ensures Rounds(st, u, h) <= Weight(st, u, Origin(h).cluster) + 1
  {
    if h.Down? {
      Descends(st, u, h.before);
      BeatWeight(st, u, h.before.at, h.beat, h.at);
    }
  }
}
