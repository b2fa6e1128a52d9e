/** A pass that nobody disturbs and no API call of which fails. */
module Solo {
  import opened Wrappers
  import opened Cluster
  import opened Install
  import opened OlsConfig
  import opened Reconcile
  import opened Runs
  import opened Orphans

  /** The rest of a pass, call after call. */
  function Rest(st: Settings, u: Uid, c: Cluster, p: Pass, ping: string): (Cluster, Pass)
    decreases CallsLeft(p.stage)
  {
    if p.stage.Idle? then (c, p)
    else
      var x := Input(NoFault, ping);
      var r := PassStep(st, u, c, p, x);
      PassTerminates(st, u, c, p, x);
      Rest(st, u, r.0, r.1, ping)
  }

  /** A whole pass of instance u: the cluster and the pass's records after it. */
  function WholePass(st: Settings, u: Uid, c: Cluster, fetched: Option<string>, ping: string): (Cluster, Pass)
    requires u in c.instances
  {
    Rest(st, u, c, Begin(st, c.instances[u], fetched), ping)
  }

  function Fine(ping: string): Input {
    Input(NoFault, ping)
  }

  /** Only instance u differs. */
  predicate OnlyInstance(u: Uid, c: Cluster, c': Cluster) {
    && c'.subscriptions == c.subscriptions && c'.plans == c.plans && c'.csvs == c.csvs && c'.config == c.config
    && c'.instances - {u} == c.instances - {u}
  }

  lemma RestFinish(st: Settings, u: Uid, c: Cluster, p: Pass, ping: string)
    requires p.stage.Finish?
    ensures Rest(st, u, c, p, ping) == FinishStep(u, c, p, Fine(ping))
    ensures OnlyInstance(u, c, Rest(st, u, c, p, ping).0)
  {
    var r := FinishStep(u, c, p, Fine(ping));
    assert PassStep(st, u, c, p, Fine(ping)) == r;
    assert Rest(st, u, r.0, r.1, ping) == r;
  }

  /** A pass that ends without releasing leaves the instance held. */
  lemma FinishKeeps(u: Uid, c: Cluster, p: Pass, x: Input)
    requires p.stage.Finish? && Held(c, u) && !p.Releasing()
    ensures var c' := FinishStep(u, c, p, x).0;
            Held(c', u) && c'.instances[u].deleting == c.instances[u].deleting
            && c'.instances[u].namespace == c.instances[u].namespace
  {
  }

  /** A pass that ends with a release does let go. */
  lemma FinishReleases(u: Uid, c: Cluster, p: Pass, ping: string)
    requires p.Releasing()
    ensures !Held(FinishStep(u, c, p, Fine(ping)).0, u)
  {
  }
}
