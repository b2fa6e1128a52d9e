/** The whole system: any number of instances, each with at most one pass in
    progress, and an environment of OLM, users and the garbage collector. */
module Worlds {
  import opened Wrappers
  import opened Cluster
  import opened Install
  import opened OlsConfig
  import opened Reconcile
  import opened Runs
  import opened Orphans
  import opened History

  /** The keys of `passes` are the UIDs the run is about: all UIDs instances
      have, had or will have. */
  datatype World = World(cluster: Cluster, passes: map<Uid, Pass>)

  datatype Action = Env | Begins(u: Uid, fetched: Option<string>) | Calls(u: Uid, input: Input) | Crashes(u: Uid)

  /** The environment changes the cluster as it likes, except that it forges no
      owner label or owner reference of an instance, leaves the operator's
      finalizers alone and never takes a deletion mark back. */
  ghost predicate EnvOk(st: Settings, ids: set<Uid>, c: Cluster, c': Cluster) {
    && (forall u :: u in ids ==> Rely(u, c, c'))
    && (c.config.Some? && st.finalizer in c.config.value.finalizers ==>
          c'.config.Some? && st.finalizer in c'.config.value.finalizers)
    && (forall u :: u in ids && u in c.instances && u in c'.instances && c.instances[u].deleting ==> c'.instances[u].deleting)
  }

  ghost predicate Step(st: Settings, w: World, a: Action, w': World) {
    match a
    case Env => w'.passes == w.passes && EnvOk(st, w.passes.Keys, w.cluster, w'.cluster)
    case Begins(u, fetched) =>
      && u in w.passes && w.passes[u].stage.Idle? && u in w.cluster.instances
      && w' == World(w.cluster, w.passes[u := Begin(st, w.cluster.instances[u], fetched)])
    case Calls(u, x) =>
      && u in w.passes && !w.passes[u].stage.Idle?
      && (var r := PassStep(st, u, w.cluster, w.passes[u], x); w' == World(r.0, w.passes[u := r.1]))
    case Crashes(u) => u in w.passes && w' == w.(passes := w.passes[u := w.passes[u].To(Idle)])
  }

  ghost predicate Init(w: World) {
    forall u :: u in w.passes ==> Initial(u, Local(w.cluster, w.passes[u]))
  }

  ghost predicate IsWorldRun(st: Settings, ws: seq<World>, acts: seq<Action>) {
    && |ws| == |acts| + 1 && Init(ws[0])
    && forall i {:trigger acts[i]} :: 0 <= i < |acts| ==> Step(st, ws[i], acts[i], ws[i + 1])
  }

  ghost predicate WorldOk(st: Settings, w: World) {
    forall u :: u in w.passes ==> PassOk(st, u, w.passes[u])
  }

  // ---------------------------------------------------------------- projection

  function MoveFor(u: Uid, a: Action): Move {
    match a
    case Begins(v, fetched) => if v == u then Start(fetched) else Others
    case Calls(v, x) => if v == u then Call(x) else Others
    case Crashes(v) => if v == u then Crash else Others
    case Env => Others
  }

  /** To instance u, a step of anybody else is a move it relies on. */
  lemma ProjectStep(st: Settings, u: Uid, w: World, a: Action, w': World)
    requires Step(st, w, a, w') && WorldOk(st, w) && u in w.passes
    ensures u in w'.passes
    ensures Next(st, u, Local(w.cluster, w.passes[u]), MoveFor(u, a), Local(w'.cluster, w'.passes[u]))
  {
    if a.Calls? && a.u != u {
      StepGuarantee(st, u, a.u, w.cluster, w.passes[a.u], a.input);
    }
  }

  lemma StepKeepsOk(st: Settings, w: World, a: Action, w': World)
    requires Step(st, w, a, w') && WorldOk(st, w)
    ensures WorldOk(st, w') && w'.passes.Keys == w.passes.Keys
  {
    match a
    case Env =>
    case Begins(u, fetched) => BeginOk(st, u, w.cluster.instances[u], fetched);
    case Calls(u, x) => StepOk(st, u, w.cluster, w.passes[u], x);
    case Crashes(u) =>
  }

  lemma {:induction false} WorldRunOk(st: Settings, ws: seq<World>, acts: seq<Action>, n: nat)
    requires IsWorldRun(st, ws, acts) && n < |ws|
    ensures WorldOk(st, ws[n]) && ws[n].passes.Keys == ws[0].passes.Keys
  {
    if n == 0 {
      assert Init(ws[0]);
    } else {
      WorldRunOk(st, ws, acts, n - 1);
      StepKeepsOk(st, ws[n - 1], acts[n - 1], ws[n]);
    }
  }

  function Locals(ws: seq<World>, u: Uid): seq<Local>
    requires forall i :: 0 <= i < |ws| ==> u in ws[i].passes
  {
    seq(|ws|, i requires 0 <= i < |ws| => Local(ws[i].cluster, ws[i].passes[u]))
  }

  function Moves(acts: seq<Action>, u: Uid): seq<Move> {
    seq(|acts|, i requires 0 <= i < |acts| => MoveFor(u, acts[i]))
  }

  /** Every run of the whole system is, seen from each instance, a run of its
      own passes among moves of others; so whatever holds of those runs holds
      here for all instances at once. */
  lemma ProjectRun(st: Settings, ws: seq<World>, acts: seq<Action>, u: Uid)
    requires IsWorldRun(st, ws, acts) && u in ws[0].passes
    ensures forall i :: 0 <= i < |ws| ==> u in ws[i].passes
    ensures IsRun(st, u, Locals(ws, u), Moves(acts, u))
  {
    forall i | 0 <= i < |ws| ensures u in ws[i].passes { WorldRunOk(st, ws, acts, i); }
    forall i: nat | i < |acts| ensures NextAt(st, u, Locals(ws, u), Moves(acts, u), i) {
      WorldRunOk(st, ws, acts, i);
      ProjectStep(st, u, ws[i], acts[i], ws[i + 1]);
    }
    assert Initial(u, Local(ws[0].cluster, ws[0].passes[u]));
  }

  /** No orphans, with any number of instances and any interleaving: an
      OLSConfig labelled with u implies that u exists and holds its finalizer. */
  lemma NoOrphans(st: Settings, ws: seq<World>, acts: seq<Action>, n: nat, u: Uid)
    requires IsWorldRun(st, ws, acts) && n < |ws| && u in ws[0].passes
    ensures Labelled(ws[n].cluster, u) ==> Held(ws[n].cluster, u)
  {
    ProjectRun(st, ws, acts, u);
    RunNoOrphan(st, u, Locals(ws, u), Moves(acts, u), n);
  }

  predicate AtMostOneMatch(csvs: seq<Csv>) {
    forall i, j :: 0 <= i < j < |csvs| ==> !(IsOlsCsv(csvs[i]) && IsOlsCsv(csvs[j]))
  }

  /** With at most one matching CSV nothing can be hidden. */
  lemma OneMatchHidesNothing(c: Cluster, u: Uid)
    requires AtMostOneMatch(c.csvs)
    requires OwnsOnlyMatches(c.csvs, u)
    ensures OwnedFirst(c, u)
  {
    if OwnsCsv(c, u) {
      var i :| 0 <= i < |c.csvs| && OwnedBy(c.csvs[i].owners, u);
      assert c.csvs[i] in c.csvs;
      var first := FirstCsv(c.csvs).value;
      assert IsOlsCsv(first) && first in c.csvs;
      var j :| 0 <= j < |c.csvs| && c.csvs[j] == first;
      assert !(i < j) && !(j < i);
    }
  }

  /** A delete pass that finds the first matching CSV absent or not owned lets
      go of the instance; that orphans a CSV exactly when one was hidden. */
  lemma ReleaseOrphansExactly(st: Settings, u: Uid, c: Cluster, p: Pass, x: Input)
    requires PassOk(st, u, p) && p.stage.FindOwnCsv? && p.base.finalizer && x.fault == NoFault
    requires FirstCsv(c.csvs).Some? ==> !OwnedBy(FirstCsv(c.csvs).value.owners, u)
    ensures var r := PassStep(st, u, c, p, x);
            var c' := PassStep(st, u, r.0, r.1, x).0;
            OwnsCsv(c', u) && !Held(c', u) <==> !OwnedFirst(c, u)
  {
    var r := PassStep(st, u, c, p, x);
    assert r == (c, Released(p.Note(CsvClear(FirstCsv(c.csvs)))));
    assert PassStep(st, u, c, r.1, x) == FinishStep(u, c, r.1, x);
  }

  /** The same for CSVs, in runs that never hide an owned CSV behind a matching
      one that is not owned. */
  lemma NoOrphanCsvs(st: Settings, ws: seq<World>, acts: seq<Action>, n: nat, u: Uid)
    requires IsWorldRun(st, ws, acts) && n < |ws| && u in ws[0].passes
    requires forall i :: 0 <= i < |ws| ==> OwnedFirst(ws[i].cluster, u)
    ensures OwnsCsv(ws[n].cluster, u) ==> Held(ws[n].cluster, u)
  {
    ProjectRun(st, ws, acts, u);
    RunNoOrphanCsv(st, u, Locals(ws, u), Moves(acts, u), n);
  }

  /** No orphaned CSV in any state if at most one CSV matches in each: a CSV
      owned by u implies that u exists and holds its finalizer. */
  lemma NoOrphanCsvsOneMatch(st: Settings, ws: seq<World>, acts: seq<Action>, n: nat, u: Uid)
    requires IsWorldRun(st, ws, acts) && n < |ws| && u in ws[0].passes
    requires forall i :: 0 <= i < |ws| ==> AtMostOneMatch(ws[i].cluster.csvs)
    ensures OwnsCsv(ws[n].cluster, u) ==> Held(ws[n].cluster, u)
  {
    ProjectRun(st, ws, acts, u);
    forall i | 0 <= i < |ws| ensures OwnedFirst(ws[i].cluster, u) {
      RunOwnsOnly(st, u, Locals(ws, u), Moves(acts, u), i);
      OneMatchHidesNothing(ws[i].cluster, u);
    }
    NoOrphanCsvs(st, ws, acts, n, u);
  }
}
