/** A user's own OLS installation is left alone. */
module Foreign {
  import opened Wrappers
  import opened Cluster
  import opened Install
  import opened OlsConfig
  import opened Reconcile
  import opened Runs
  import opened Orphans
  import opened History

  /** The first matching CSV and the Subscription u would use are somebody
      else's; ns is the namespace of u. */
  predicate ForeignTo(c: Cluster, u: Uid, ns: string) {
    && (u in c.instances ==> c.instances[u].namespace == ns)
    && FirstCsv(c.csvs).Some? && !OwnedBy(FirstCsv(c.csvs).value.owners, u)
    && (var sub := GetSub(c, (ns, GetOLSSubscriptionName(u))); sub.Some? ==> !OwnedBy(sub.value.owners, u))
  }

  /** The stages a pass of u visits in front of a foreign installation. */
  predicate Bystander(u: Uid, ns: string, p: Pass) {
    && (!p.stage.Idle? ==> p.base.namespace == ns)
    && (p.stage.Idle? || p.stage.FindForeign? || (p.stage.CheckSub? && !OwnedBy(p.stage.csv.owners, u))
        || Removing(p.stage) || p.stage.FindOwnCsv? || p.stage.Finish?)
  }

  /** Nothing of the installation differs, nor the OLSConfig unless the pass is
      a delete pass. */
  predicate Untouched(p: Pass, c: Cluster, c': Cluster) {
    && c'.subscriptions == c.subscriptions && c'.plans == c.plans && c'.csvs == c.csvs
    && (!p.base.deleting ==> c'.config == c.config)
  }

  lemma InstallStaysOut(st: Settings, u: Uid, ns: string, c: Cluster, p: Pass, x: Input)
    requires ForeignTo(c, u, ns) && Bystander(u, ns, p) && Installing(p.stage)
    ensures var r := InstallStep(st, u, c, p, x); Bystander(u, ns, r.1) && r.0 == c
  {
    assert SubscriptionKey(u, p.base) == (ns, GetOLSSubscriptionName(u));
  }

  lemma RemoveStaysOut(st: Settings, u: Uid, ns: string, c: Cluster, p: Pass, x: Input)
    requires Bystander(u, ns, p) && Removing(p.stage)
    ensures var r := RemoveStep(st, u, c, p, x);
            Bystander(u, ns, r.1) && r.0.subscriptions == c.subscriptions && r.0.plans == c.plans && r.0.csvs == c.csvs
  {
  }

  lemma StepStaysOut(st: Settings, u: Uid, ns: string, c: Cluster, p: Pass, x: Input)
    requires PassOk(st, u, p) && ForeignTo(c, u, ns) && Bystander(u, ns, p)
    ensures var r := PassStep(st, u, c, p, x); Bystander(u, ns, r.1) && Untouched(p, c, r.0)
  {
    if Installing(p.stage) {
      InstallStaysOut(st, u, ns, c, p, x);
    } else if Removing(p.stage) {
      RemoveStaysOut(st, u, ns, c, p, x);
    } else if p.stage.FindOwnCsv? {
      assert PassStep(st, u, c, p, x) == (c, AfterFindOwnCsv(u, p, See(x, FirstCsv(c.csvs))));
    }
  }

  lemma {:induction false} RunStaysOut(st: Settings, u: Uid, ns: string, ls: seq<Local>, ms: seq<Move>, n: nat)
    requires IsRun(st, u, ls, ms) && n < |ls|
    requires forall i :: 0 <= i < |ls| ==> ForeignTo(ls[i].cluster, u, ns)
    ensures Bystander(u, ns, ls[n].pass)
  {
    if n > 0 {
      RunStaysOut(st, u, ns, ls, ms, n - 1);
      RunOk(st, u, ls, ms, n - 1);
      assert NextAt(st, u, ls, ms, n - 1);
      if ms[n - 1].Call? {
        StepStaysOut(st, u, ns, ls[n - 1].cluster, ls[n - 1].pass, ms[n - 1].input);
      }
    }
  }

  /** While an installation stays foreign, no call of u's passes, delete passes
      included, writes a Subscription, an InstallPlan or a CSV, and no call of
      a pass that is not a delete pass writes the OLSConfig. */
  lemma ForeignUntouched(st: Settings, u: Uid, ns: string, ls: seq<Local>, ms: seq<Move>, n: nat)
    requires IsRun(st, u, ls, ms) && n < |ms| && ms[n].Call?
    requires forall i :: 0 <= i < |ls| ==> ForeignTo(ls[i].cluster, u, ns)
    ensures Untouched(ls[n].pass, ls[n].cluster, ls[n + 1].cluster)
  {
    RunStaysOut(st, u, ns, ls, ms, n);
    RunOk(st, u, ls, ms, n);
    assert NextAt(st, u, ls, ms, n);
    StepStaysOut(st, u, ns, ls[n].cluster, ls[n].pass, ms[n].input);
  }
}
