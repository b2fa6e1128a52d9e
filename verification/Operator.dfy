/** The operator's own functions, in the shape in which the source has them:
    methods that read and write the cluster call by call while others move.
    Every method extends a run of Runs.Next, so what is proved of all runs
    holds of the code. */
module Operator {
  import opened Wrappers
  import opened Json
  import opened Cluster
  import opened OcpVersion
  import opened Install
  import opened OlsConfig
  import opened Patching
  import opened Reconcile
  import opened Runs
  import Orphans
  import History

  // ---------------------------------------------------------- the search loops

  /** IsOwnedBy. */
  method IsOwnedBy(owners: seq<OwnerRef>, u: string) returns (r: bool)
    ensures r <==> OwnedBy(owners, u)
  {
    for i := 0 to |owners|
      invariant forall j :: 0 <= j < i ==> owners[j].uid != u
    {
      if owners[i].uid == u { return true; }
    }
    return false;
  }

  /** The loop of GetOLSOperatorCSV. */
  method SearchCsv(csvs: seq<Csv>) returns (r: Option<Csv>)
    ensures r == FirstCsv(csvs)
  {
    for i := 0 to |csvs|
      invariant FirstCsv(csvs) == FirstCsv(csvs[i..])
    {
      if HasPrefix(csvs[i].key.1, OLS_OPERATOR_NAME) { return Some(csvs[i]); }
    }
    return None;
  }

  /** The nested loops of GetOLSOperatorInstallPlan, over the plans of one
      namespace. */
  method SearchPlan(plans: seq<InstallPlan>, ns: string, version: string) returns (r: Option<InstallPlan>)
    ensures r == FirstPlan(plans, ns, version)
  {
    for i := 0 to |plans|
      invariant FirstPlan(plans, ns, version) == FirstPlan(plans[i..], ns, version)
    {
      var plan := plans[i];
      if plan.key.0 == ns {
        var isOlsCsv := false;
        for j := 0 to |plan.csvNames|
          invariant !isOlsCsv && forall k :: 0 <= k < j ==> !IsOlsName(plan.csvNames[k], version)
        {
          var name := plan.csvNames[j];
          if HasPrefix(name, OLS_OPERATOR_NAME) && HasSuffix(name, version) {
            isOlsCsv := true;
            break;
          }
        }
        if isOlsCsv { return Some(plan); }
      }
    }
    return None;
  }

  // ------------------------------------------------------------- the instance

  /** Conditions.Set on the copy of the instance. */
  function Marked(i: Instance, k: Condition, t: Truth): Instance {
    i.(status := i.status.(conditions := i.status.conditions[k := t]))
  }

  lemma RunExtends(st: Settings, u: Uid, ls: seq<Local>, ms: seq<Move>, m: Move, l: Local)
    requires IsRun(st, u, ls, ms) && Next(st, u, ls[|ms|], m, l)
    ensures IsRun(st, u, ls + [l], ms + [m])
  {
    var ls', ms' := ls + [l], ms + [m];
    forall i: nat | i < |ms'| ensures NextAt(st, u, ls', ms', i) {
      if i < |ms| {
        assert NextAt(st, u, ls, ms, i);
        assert ls'[i] == ls[i] && ls'[i + 1] == ls[i + 1] && ms'[i] == ms[i];
      }
    }
  }

  lemma CallExtends(st: Settings, u: Uid, ls: seq<Local>, ms: seq<Move>, x: Input, l: Local)
    requires IsRun(st, u, ls, ms) && !ls[|ms|].pass.stage.Idle?
    requires PassStep(st, u, ls[|ms|].cluster, ls[|ms|].pass, x) == (l.cluster, l.pass)
    ensures IsRun(st, u, ls + [l], ms + [Call(x)])
  {
    RunExtends(st, u, ls, ms, Call(x), l);
  }

  class Operator {
    const st: Settings
    const uid: Uid

    /** The shared cluster. */
    var cluster: Cluster

    /** The copy of the instance as it was read, and as the pass changed it. */
    var before: Instance
    var instance: Instance

    /** The run so far. */
    ghost var pass: Pass
    ghost var states: seq<Local>
    ghost var moves: seq<Move>

    /** The run when the pass began: it has only grown since. */
    ghost var began: (seq<Local>, seq<Move>)

    ghost predicate Valid()
      reads this
    {
      && IsRun(st, uid, states, moves) && states[|moves|] == Local(cluster, pass)
      && began.0 <= states && began.1 <= moves
    }

    /** The state before the last move. */
    ghost function Prior(): Local
      reads this
    {
      if 0 < |moves| <= |states| then states[|moves| - 1] else Local(cluster, pass)
    }

    /** The last move was a call, made in cluster c. */
    ghost predicate CalledIn(c: Cluster)
      reads this
    {
      |moves| > 0 && moves[|moves| - 1].Call? && Prior().cluster == c
    }

    /** How the last call went. */
    ghost function Answered(): Fault
      reads this
    {
      if |moves| > 0 && moves[|moves| - 1].Call? then moves[|moves| - 1].input.fault else NoFault
    }

    /** The last call was answered without a fault, in the cluster as it is,
        and wrote nothing. */
    ghost predicate Saw()
      reads this
    {
      WroteNothing() && Answered() == NoFault
    }

    /** The recommended version. */
    ghost function Version(): string
      reads this
    {
      if st.olsVersion == "latest" then "" else st.olsVersion
    }

    /** The last move was a call that wrote nothing. */
    ghost predicate WroteNothing()
      reads this
    {
      CalledIn(cluster)
    }

    /** The last move was a call, and the last entry of the log says what it
        did to the cluster. */
    ghost predicate JustLogged()
      reads this
    {
      && CalledIn(Prior().cluster) && pass.log.Then?
      && Fact(st, uid, Prior().pass, pass.log.event, Prior().cluster, cluster)
    }

    /** A pass is under way that, once the copy has become i, is at stage s. */
    ghost predicate Heading(s: Stage, i: Instance)
      reads this
    {
      && Valid() && pass.stage == s && before == pass.base && pass.Inst() == i
      && i.spec.catalogSourceName == before.spec.catalogSourceName
      && i.spec.catalogSourceNamespace == before.spec.catalogSourceNamespace
    }

    ghost predicate At(s: Stage)
      reads this
    {
      Heading(s, instance)
    }

    /** An install function returned: an error or "not yet" leads to a False
        condition and the end of the pass. */
    ghost predicate Returned(r: Result<bool>, onTrue: Stage)
      reads this
    {
      match r
      case Err(_) => Heading(Finish(DONE), Marked(instance, OperatorReady, IsFalse))
      case Ok(false) => Heading(Finish(LATER), Marked(instance, OperatorReady, IsFalse))
      case Ok(true) => At(onTrue)
    }

    /** The whole installation returned: true means that the pass goes on to
        the OLSConfig with a True condition. */
    ghost predicate Installed(r: Result<bool>)
      reads this
    {
      if r == Ok(true) then Heading(ReadConfig, Marked(instance, OperatorReady, IsTrue))
      else Returned(r, ReadConfig)
    }

    /** A teardown function returned. */
    ghost predicate TornDown(r: Result<bool>, onTrue: Stage, i: Instance)
      reads this
    {
      match r
      case Err(_) => At(Finish(ERROR))
      case Ok(false) => At(Finish(LATER))
      case Ok(true) => Heading(onTrue, i)
    }

    constructor (st: Settings, uid: Uid, cluster: Cluster, i: Instance)
      requires Labelled(cluster, uid) || OwnsCsv(cluster, uid) ==> Held(cluster, uid)
      requires OwnsOnlyMatches(cluster.csvs, uid)
      ensures Valid() && pass.stage.Idle? && this.cluster == cluster && this.st == st && this.uid == uid
    {
      this.st, this.uid, this.cluster, this.before, this.instance := st, uid, cluster, i, i;
      pass := Pass(Idle, i, i.spec, i.finalizer, map[], "", Nothing, DONE);
      states, moves := [Local(cluster, Pass(Idle, i, i.spec, i.finalizer, map[], "", Nothing, DONE))], [];
      began := ([], []);
    }

    // ---------------------------------------------------------------- the client

    /** The others move, and then an API call of this operator is answered. */
    method Listen() returns (x: Input)
      requires Valid()
      modifies this`cluster, this`states, this`moves
      ensures Valid()
    {
      var next: Cluster := *;
      if Rely(uid, cluster, next) {
        RunExtends(st, uid, states, moves, Others, Local(next, pass));
        states, moves := states + [Local(next, pass)], moves + [Others];
        cluster := next;
      }
      x := *;
    }

    /** The answered call becomes part of the run. */
    method Store(next: Cluster, ghost x: Input, ghost q: Pass)
      requires Valid() && !pass.stage.Idle? && PassStep(st, uid, cluster, pass, x) == (next, q)
      modifies this`cluster, this`pass, this`states, this`moves
      ensures Valid() && cluster == next && pass == q
      ensures states == old(states) + [Local(next, q)] && moves == old(moves) + [Call(x)]
      ensures CalledIn(old(cluster)) && Prior().pass == old(pass) && Answered() == x.fault && moves[|moves| - 1] == Call(x)
    {
      CallExtends(st, uid, states, moves, x, Local(next, q));
      ghost var states', moves' := states + [Local(next, q)], moves + [Call(x)];
      assert IsRun(st, uid, states', moves') && states'[|moves'|] == Local(next, q);
      assert began.0 <= states' && began.1 <= moves' && states'[|moves'| - 1] == Local(cluster, pass);
      cluster, pass, states, moves := next, q, states', moves';
    }

    /** The call was answered and the pass goes on with the copy unchanged. */
    method Goes(next: Cluster, ghost x: Input, ghost q: Pass)
      requires Heading(pass.stage, instance) && !pass.stage.Idle? && PassStep(st, uid, cluster, pass, x) == (next, q)
      requires q.base == pass.base && q.Inst() == pass.Inst()
      modifies this`cluster, this`pass, this`states, this`moves
      ensures At(q.stage) && cluster == next && pass == q && CalledIn(old(cluster)) && Prior().pass == old(pass) && Answered() == x.fault
      ensures |moves| > 0 && moves[|moves| - 1] == Call(x)
    {
      Store(next, x, q);
    }

    // -------------------------------------------------------------------- install

    /** The call failed and so does the installation. */
    method Fails(ghost x: Input)
      requires At(pass.stage) && Installing(pass.stage) && InstallStep(st, uid, cluster, pass, x) == (cluster, InstallFailed(pass))
      modifies this`cluster, this`pass, this`states, this`moves
      ensures Heading(Finish(DONE), Marked(instance, OperatorReady, IsFalse)) && cluster == old(cluster) && WroteNothing()
      ensures Prior().pass == old(pass) && Answered() == x.fault
    {
      ghost var q := InstallFailed(pass);
      assert q.Inst() == Marked(pass.Inst(), OperatorReady, IsFalse);
      Store(cluster, x, q);
    }

    /** The installation has to wait; q is the pass with what it logged. */
    method Waits(next: Cluster, ghost x: Input, ghost q: Pass)
      requires At(pass.stage) && Installing(pass.stage) && InstallStep(st, uid, cluster, pass, x) == (next, InstallWait(q))
      requires q == pass.(log := q.log)
      modifies this`cluster, this`pass, this`states, this`moves
      ensures Heading(Finish(LATER), Marked(instance, OperatorReady, IsFalse)) && cluster == next && CalledIn(old(cluster))
      ensures Prior().pass == old(pass) && Answered() == x.fault
    {
      Store(next, x, InstallWait(q));
    }

    method GetOLSOperatorCSV() returns (r: Result<Option<Csv>>, ghost x: Input)
      requires Valid()
      modifies this`cluster, this`states, this`moves
      ensures Valid() && r == See(x, FirstCsv(cluster.csvs))
    {
      var y := Listen();
      x := y;
      if y.fault != NoFault { return Err("API error"), x; }
      var csv := SearchCsv(cluster.csvs);
      return Ok(csv), x;
    }

    method GetOLSOperatorInstallPlan() returns (r: Result<Option<InstallPlan>>, ghost x: Input)
      requires Valid() && pass.base.namespace == instance.namespace
      modifies this`cluster, this`states, this`moves
      ensures Valid() && r == SelectPlan(st, cluster, pass, x)
      ensures r.Ok? <==> x.fault == NoFault && st.olsVersion != ""
      ensures r.Ok? ==> r.value == FirstPlan(cluster.plans, instance.namespace, Version())
    {
      var y := Listen();
      x := y;
      if y.fault != NoFault { return Err("API error"), x; }
      var version := GetRecommendedOLSVersion(st.olsVersion);
      if version.Err? { return Err(version.error), x; }
      var plan := SearchPlan(cluster.plans, instance.namespace, version.value);
      return Ok(plan), x;
    }

    /** The last call read the Subscription to compare it with this CSV. */
    ghost predicate Checks(csv: Csv, foreign: bool)
      reads this
    {
      && WroteNothing() && Prior().pass.stage == CheckSub(csv)
      && (foreign <==>
            && !NamesOwner(csv.owners, uid)
            && (var sub := GetSub(cluster, OrderKey(uid, instance)); sub.Some? ==> !NamesOwner(sub.value.owners, uid)))
    }

    /** The same, with the CSV that was the first match when this pass listed
        the CSVs. */
    ghost predicate SeesForeign(foreign: bool)
      reads this
    {
      && Prior().pass.stage.CheckSub? && Checks(Prior().pass.stage.csv, foreign)
      && History.WasListed(Prior().pass.stage.csv, states, moves, |moves| - 1)
    }

    /** True means that the first matching CSV and the Subscription were read
        and are not owned; false, that there is no CSV or one is owned. */
    method IsUserInstalledOLSOperatorMode() returns (r: Result<bool>)
      requires At(FindForeign)
      modifies this`cluster, this`pass, this`states, this`moves
      ensures r == Ok(false) ==> At(ReadSub) && ((WroteNothing() && FirstCsv(cluster.csvs).None?) || SeesForeign(false))
      ensures r != Ok(false) ==> Heading(Finish(DONE), Marked(instance, OperatorReady, IsFalse))
      ensures r == Ok(true) ==> SeesForeign(true)
      ensures r.Err? ==> Answered() != NoFault
    {
      var csv, x := GetOLSOperatorCSV();
      if csv.Err? { Fails(x); return Err(csv.error); }
      if csv.value.None? { Goes(cluster, x, pass.To(ReadSub)); return Ok(false); }
      Goes(cluster, x, pass.To(CheckSub(csv.value.value)));
      r := CheckSubscription(csv.value.value);
      if r.Ok? { WasListed(); }
    }

    method CheckSubscription(csv: Csv) returns (r: Result<bool>)
      requires At(CheckSub(csv))
      modifies this`cluster, this`pass, this`states, this`moves
      ensures r == Ok(false) ==> At(ReadSub)
      ensures r != Ok(false) ==> Heading(Finish(DONE), Marked(instance, OperatorReady, IsFalse))
      ensures r.Ok? ==> Checks(csv, r.value)
      ensures r.Err? ==> Answered() != NoFault
    {
      NameIsKey();
      var x := Listen();
      var sub := See(x, GetSub(cluster, SubscriptionKey(uid, instance)));
      if sub.Err? { Fails(x); return Err(sub.error); }
      var foreign := OwnsNeither(csv, sub.value);
      if foreign {
        Fails(x);
      } else {
        Goes(cluster, x, pass.To(ReadSub));
      }
      return Ok(foreign);
    }

    /** Neither the CSV nor the Subscription, if there is one, names the instance. */
    method OwnsNeither(csv: Csv, sub: Option<Subscription>) returns (foreign: bool)
      ensures foreign <==> Foreign(uid, csv, sub)
      ensures foreign <==> !NamesOwner(csv.owners, uid) && (sub.Some? ==> !NamesOwner(sub.value.owners, uid))
    {
      var csvOwned := IsOwnedBy(csv.owners, uid);
      var subOwned := IsOwnedBy(if sub.Some? then sub.value.owners else [], uid);
      return !csvOwned && !subOwned;
    }

    lemma NameIsKey()
      ensures SubscriptionKey(uid, instance) == OrderKey(uid, instance)
    {
      assert GetOLSSubscriptionName(uid) == "lightspeed-operator-" + uid[..5];
    }

    lemma WasListed()
      requires Valid() && |moves| > 0 && Prior().pass.stage.CheckSub?
      ensures History.WasListed(Prior().pass.stage.csv, states, moves, |moves| - 1)
    {
      var k := History.CheckedWasFirst(st, uid, states, moves, |moves| - 1);
    }

    /** The Subscription is there under its name, ordered as u wants it field by
        field, and this is its link; the last call wrote it exactly if it was
        missing or different. */
    ghost predicate Subscribed(written: bool, ref: Option<string>)
      reads this
    {
      var key, c := OrderKey(uid, instance), Prior().cluster;
      && CalledIn(c) && Answered() == NoFault && key in cluster.subscriptions
      && cluster == c.(subscriptions := c.subscriptions[key := cluster.subscriptions[key]])
      && Ordered(st.olsVersion, uid, instance, cluster.subscriptions[key]) && ref == cluster.subscriptions[key].installPlanRef
      && (written <==> !(key in c.subscriptions && Ordered(st.olsVersion, uid, instance, c.subscriptions[key])))
    }

    /** It could not be read, or no version is configured, or it changed
        between the read and the write. */
    ghost predicate Unsubscribed()
      reads this
    {
      && WroteNothing()
      && (|| Answered() != NoFault || st.olsVersion == ""
          || (Prior().pass.stage.WriteSub? && GetSub(cluster, OrderKey(uid, instance)) != Prior().pass.stage.sub))
    }

    /** CreateOrUpdate on the Subscription: whether it was written, and the
        plan it is linked to. */
    method CreateOrUpdateSubscription() returns (r: Result<(bool, Option<string>)>)
      requires At(ReadSub)
      modifies this`cluster, this`pass, this`states, this`moves
      ensures Returned(if r.Err? then Err(r.error) else Ok(!r.value.0 && r.value.1.Some?), FindPlan)
      ensures if r.Ok? then Subscribed(r.value.0, r.value.1) else Unsubscribed()
    {
      NameIsKey();
      var x := Listen();
      var key := SubscriptionKey(uid, instance);
      var sub := See(x, GetSub(cluster, key));
      if sub.Err? { ReadSubFails(x); return Err(sub.error); }
      var version := GetRecommendedOLSVersion(st.olsVersion);
      if version.Err? { ReadSubFails(x); return Err(version.error); }
      r := MutateSubscription(key, sub.value, version.value, x);
    }

    /** Without an answer, or without a version, nothing is sent either. */
    method ReadSubFails(ghost x: Input)
      requires At(ReadSub) && (x.fault != NoFault || st.olsVersion == "")
      modifies this`cluster, this`pass, this`states, this`moves
      ensures Returned(Err(""), FindPlan) && Unsubscribed()
    {
      Fails(x);
    }

    /** Nothing is sent if the mutation changed nothing. */
    method MutateSubscription(key: Key, read: Option<Subscription>, version: string, ghost x: Input)
      returns (r: Result<(bool, Option<string>)>)
      requires At(ReadSub) && x.fault == NoFault && key == SubscriptionKey(uid, before) && read == GetSub(cluster, key)
      requires GetRecommendedOLSVersion(st.olsVersion) == Ok(version)
      modifies this`cluster, this`pass, this`states, this`moves
      ensures Returned(if r.Err? then Err(r.error) else Ok(!r.value.0 && r.value.1.Some?), FindPlan)
      ensures if r.Ok? then Subscribed(r.value.0, r.value.1) else Unsubscribed()
    {
      var desired := DesiredSubscription(version, uid, instance, read);
      if read == Some(desired) {
        KeepSubscription(desired, x);
        return Ok((false, desired.installPlanRef));
      }
      Goes(cluster, x, pass.To(WriteSub(read)));
      var ok := WriteSubscription(key, read, desired);
      return if ok then Ok((true, desired.installPlanRef)) else Err("API error");
    }

    method KeepSubscription(sub: Subscription, ghost x: Input)
      requires At(ReadSub) && GetRecommendedOLSVersion(st.olsVersion).Ok? && x.fault == NoFault
      requires GetSub(cluster, SubscriptionKey(uid, before)) == Some(sub)
      requires sub == DesiredSubscription(GetRecommendedOLSVersion(st.olsVersion).value, uid, before, Some(sub))
      modifies this`cluster, this`pass, this`states, this`moves
      ensures Returned(Ok(sub.installPlanRef.Some?), FindPlan) && Subscribed(false, sub.installPlanRef)
    {
      OrderIs(sub, Some(sub));
      if sub.installPlanRef.None? {
        Waits(cluster, x, pass);
      } else {
        Goes(cluster, x, pass.Note(SubKept(sub)).To(FindPlan));
      }
      assert cluster.subscriptions[OrderKey(uid, instance) := sub] == cluster.subscriptions;
    }

    method WriteSubscription(key: Key, read: Option<Subscription>, desired: Subscription) returns (ok: bool)
      requires At(WriteSub(read)) && key == SubscriptionKey(uid, before) && GetRecommendedOLSVersion(st.olsVersion).Ok?
      requires desired == DesiredSubscription(GetRecommendedOLSVersion(st.olsVersion).value, uid, before, read) && read != Some(desired)
      modifies this`cluster, this`pass, this`states, this`moves
      ensures Returned(if ok then Ok(false) else Err(""), Idle)
      ensures if ok then Subscribed(true, desired.installPlanRef) else Unsubscribed()
    {
      OrderIs(desired, read);
      var x := Listen();
      if x.fault != NoFault || GetSub(cluster, key) != read { Fails(x); return false; }
      Waits(cluster.(subscriptions := cluster.subscriptions[key := desired]), x, pass.Note(SubWritten));
      return true;
    }

    /** What is desired is what is ordered. */
    lemma OrderIs(desired: Subscription, read: Option<Subscription>)
      requires Heading(pass.stage, instance) && GetRecommendedOLSVersion(st.olsVersion).Ok?
      requires desired == DesiredSubscription(GetRecommendedOLSVersion(st.olsVersion).value, uid, before, read)
      ensures Ordered(st.olsVersion, uid, instance, desired)
      ensures read.Some? ==> (Ordered(st.olsVersion, uid, instance, read.value) <==> read.value == desired)
      ensures SubscriptionKey(uid, before) == OrderKey(uid, instance)
    {
      NameIsKey();
      OrderedExactly(st.olsVersion, uid, instance, if read.Some? then read.value else desired, read);
      OrderedExactly(st.olsVersion, uid, instance, desired, read);
    }

    /** The last call rewrote exactly this plan, as approved. */
    ghost predicate Approves(plan: InstallPlan)
      reads this
    {
      var c := Prior().cluster;
      CalledIn(c) && Answered() == NoFault && plan in c.plans && cluster == c.(plans := Replace(c.plans, plan, plan.(approved := true)))
    }

    /** The plan changed between the read and the write. */
    ghost predicate PlanMoved()
      reads this
    {
      Prior().pass.stage.ApprovePlan? && Prior().pass.stage.plan !in cluster.plans
    }

    /** True means that the plan selected by this pass was rewritten as
        approved, and nothing else; false, that there is none. */
    method ApproveOLSOperatorInstallPlan() returns (r: Result<bool>)
      requires At(FindPlan)
      modifies this`cluster, this`pass, this`states, this`moves
      ensures Returned(r, FindCsv)
      ensures r == Ok(true) ==> pass.log.Then? && pass.log.event.PlanApproved? && Approves(pass.log.event.plan)
      ensures r == Ok(true) ==> pass.log.before == Then(old(pass).log, PlanSelected(pass.log.event.plan))
      ensures r == Ok(false) ==> Saw() && FirstPlan(cluster.plans, instance.namespace, Version()).None?
      ensures r.Err? ==> WroteNothing() && (Answered() != NoFault || st.olsVersion == "" || PlanMoved())
    {
      var plan, x := GetOLSOperatorInstallPlan();
      if plan.Err? { FindPlanFails(x); return Err(plan.error); }
      if plan.value.None? { Waits(cluster, x, pass); return Ok(false); }
      var ok := ApproveSelected(plan.value.value, x);
      return if ok then Ok(true) else Err("API error");
    }

    /** Without an answer, or without a version, there is no selection. */
    method FindPlanFails(ghost x: Input)
      requires At(FindPlan) && SelectPlan(st, cluster, pass, x).Err? && (x.fault != NoFault || st.olsVersion == "")
      modifies this`cluster, this`pass, this`states, this`moves
      ensures Returned(Err(""), FindCsv) && WroteNothing() && (Answered() != NoFault || st.olsVersion == "")
    {
      Fails(x);
    }

    /** The part after the selection. */
    method ApproveSelected(plan: InstallPlan, ghost x: Input) returns (ok: bool)
      requires At(FindPlan) && SelectPlan(st, cluster, pass, x) == Ok(Some(plan))
      modifies this`cluster, this`pass, this`states, this`moves
      ensures Returned(if ok then Ok(true) else Err(""), FindCsv)
      ensures if ok then Approves(plan) && pass.log == Then(Then(old(pass).log, PlanSelected(plan)), PlanApproved(plan))
              else WroteNothing() && (Answered() != NoFault || PlanMoved())
    {
      Goes(cluster, x, pass.Note(PlanSelected(plan)).To(ApprovePlan(plan)));
      ok := UpdatePlan(plan);
    }

    /** Update of the plan, with the approval set on the copy that was read. */
    method UpdatePlan(read: InstallPlan) returns (ok: bool)
      requires At(ApprovePlan(read))
      modifies this`cluster, this`pass, this`states, this`moves
      ensures Returned(if ok then Ok(true) else Err(""), FindCsv)
      ensures if ok then Approves(read) && pass.log == Then(old(pass).log, PlanApproved(read))
              else WroteNothing() && (Answered() != NoFault || PlanMoved())
    {
      var x := Listen();
      if x.fault != NoFault || read !in cluster.plans { Fails(x); return false; }
      var plan := read.(approved := true);
      Goes(cluster.(plans := Replace(cluster.plans, read, plan)), x, pass.Note(PlanApproved(read)).To(FindCsv));
      return true;
    }

    predicate Named(csv: Csv)
      reads this
    {
      exists i :: 0 <= i < |cluster.csvs| && cluster.csvs[i].key == csv.key
    }

    /** What the update of this CSV did: rewrote exactly it; or wrote nothing
        because it changed between the read and the write, which means waiting;
        or because of another error or since it is gone. */
    ghost predicate Updated(r: Result<bool>, csv: Csv)
      reads this
    {
      match r
      case Ok(true) => Adopts(csv)
      case Ok(false) => WroteNothing() && (Answered() == Conflict || (Answered() == NoFault && csv !in cluster.csvs && Named(csv)))
      case Err(_) => WroteNothing() && (Answered() == ServerError || (Answered() == NoFault && !Named(csv)))
    }

    /** Update of the CSV, with the owner set on the copy that was read. */
    method UpdateCsv(read: Csv) returns (r: Result<bool>)
      requires At(AdoptCsv(read))
      modifies this`cluster, this`pass, this`states, this`moves
      ensures Returned(r, ConfirmCsv) && Updated(r, read) && Prior().pass == old(pass)
    {
      var x := Listen();
      if x.fault != NoFault || read !in cluster.csvs {
        r := CsvMoved(read, x);
        return;
      }
      var csv := read.(owners := InstanceOwner(uid, instance));
      Goes(cluster.(csvs := Replace(cluster.csvs, read, csv)), x, pass.Note(CsvAdopted(read)).To(ConfirmCsv));
      return Ok(true);
    }

    method CsvMoved(read: Csv, x: Input) returns (r: Result<bool>)
      requires At(AdoptCsv(read)) && (x.fault != NoFault || read !in cluster.csvs)
      modifies this`cluster, this`pass, this`states, this`moves
      ensures r != Ok(true) && Returned(r, ConfirmCsv) && Updated(r, read) && Prior().pass == old(pass)
    {
      if x.fault == Conflict || (x.fault == NoFault && Named(read)) {
        Waits(cluster, x, pass);
        return Ok(false);
      }
      Fails(x);
      return Err("API error");
    }

    /** The last call rewrote exactly this CSV, with the instance as its owner. */
    ghost predicate Adopts(csv: Csv)
      reads this
    {
      var c := Prior().cluster;
      && CalledIn(c) && Answered() == NoFault && csv in c.csvs
      && cluster == c.(csvs := Replace(c.csvs, csv, csv.(owners := InstanceOwner(uid, instance))))
    }

    /** True means that the first matching CSV was rewritten with the instance
        as its owner; false, that there is none or it changed meanwhile. */
    method AdoptOLSOperatorCSV() returns (r: Result<bool>)
      requires At(FindCsv)
      modifies this`cluster, this`pass, this`states, this`moves
      ensures Returned(r, ConfirmCsv)
      ensures || (Prior().pass.stage.AdoptCsv? && Updated(r, Prior().pass.stage.csv))
              || (r == Ok(false) && Saw() && FirstCsv(cluster.csvs).None?)
              || (r.Err? && Answered() != NoFault)
    {
      var csv, x := GetOLSOperatorCSV();
      if csv.Err? { Fails(x); return Err(csv.error); }
      if csv.value.None? { Waits(cluster, x, pass); return Ok(false); }
      Goes(cluster, x, pass.Note(CsvFound(csv.value.value)).To(AdoptCsv(csv.value.value)));
      r := UpdateCsv(csv.value.value);
    }

    method InstanceOwnedOLSOperatorComplete() returns (r: Result<bool>)
      requires At(ConfirmCsv)
      modifies this`cluster, this`pass, this`states, this`moves
      ensures Installed(r)
      ensures r.Ok? ==> Saw() && (r.value <==> Done(uid, FirstCsv(cluster.csvs)))
      ensures r.Err? ==> Answered() != NoFault
    {
      var csv, x := GetOLSOperatorCSV();
      if csv.Err? { Fails(x); return Err(csv.error); }
      if csv.value.None? { Waits(cluster, x, pass); return Ok(false); }
      var owned := IsOwnedBy(csv.value.value.owners, uid);
      if !owned || csv.value.value.phase != PHASE_SUCCEEDED { Waits(cluster, x, pass); return Ok(false); }
      Store(cluster, x, pass.Set(OperatorReady, IsTrue).Note(OperatorComplete(csv.value.value)).To(ReadConfig));
      return Ok(true);
    }

    method InstallInstanceOwnedOLSOperator() returns (r: Result<bool>)
      requires At(ReadSub)
      modifies this`cluster, this`pass, this`states, this`moves
      ensures Installed(r)
    {
      var sub := CreateOrUpdateSubscription();
      if sub.Err? { return Err(sub.error); }
      if sub.value.0 || sub.value.1.None? { return Ok(false); }
      r := ApproveOLSOperatorInstallPlan();
      if r != Ok(true) { return; }
      r := AdoptOLSOperatorCSV();
      if r != Ok(true) { return; }
      r := InstanceOwnedOLSOperatorComplete();
    }

    method EnsureOLSOperatorInstalled() returns (r: Result<bool>)
      requires At(FindForeign)
      modifies this`cluster, this`pass, this`states, this`moves
      ensures Installed(r)
    {
      var foreign := IsUserInstalledOLSOperatorMode();
      if foreign.Err? { return Err(foreign.error); }
      if foreign.value { return Err("detected an existing OpenShift Lightspeed operator installation"); }
      r := InstallInstanceOwnedOLSOperator();
    }

    // -------------------------------------------------------------- the OLSConfig

    method GetOLSConfig() returns (r: Result<Option<OLSConfig>>, ghost x: Input)
      requires Valid()
      modifies this`cluster, this`states, this`moves
      ensures Valid() && r == See(x, cluster.config)
    {
      var y := Listen();
      return if y.fault == NoFault then Ok(cluster.config) else Err("API error"), y;
    }

    /** Success: the last call found the OLSConfig as this instance wants it,
        or patched it, as the log says.  Failure: it wrote nothing. */
    ghost predicate ConfigResult(ok: bool)
      reads this
    {
      if ok then At(CheckReady) && Answered() == NoFault && JustLogged() && (pass.log.event.ConfigKept? || pass.log.event.ConfigWritten?)
      else Heading(Finish(ERROR), Marked(instance, LightspeedReady, IsFalse)) && WroteNothing() && Refuses(Prior().pass.stage, Answered())
    }

    /** Why nothing is written at stage s: a fault; another owner, or a tree that
        cannot be patched; or an object that came or went since it was read, or
        is being deleted and would get the finalizer. */
    ghost predicate Refuses(s: Stage, fault: Fault)
      reads this
    {
      || fault != NoFault
      || (s.ReadConfig? && cluster.config.Some? && cluster.config.value.Owner() != "" && cluster.config.value.Owner() != uid)
      || (s.ReadConfig? && PatchOLSConfig(st, uid, instance, if cluster.config.Some? then cluster.config.value else EMPTY_CONFIG).Err?)
      || (s.WriteConfig? && s.read.None? != cluster.config.None?)
      || (s.WriteConfig? && s.read.Some? && st.finalizer !in s.read.value.finalizers
          && cluster.config.Some? && cluster.config.value.deleting)
    }

    method ConfigFails(ghost x: Input)
      requires At(pass.stage) && Configuring(pass.stage) && ConfigStep(st, uid, cluster, pass, x) == (cluster, ConfigFailed(pass))
      requires Refuses(pass.stage, x.fault)
      modifies this`cluster, this`pass, this`states, this`moves
      ensures ConfigResult(false)
    {
      ghost var q := ConfigFailed(pass);
      assert q.Inst() == Marked(pass.Inst(), LightspeedReady, IsFalse);
      Store(cluster, x, q);
    }

    /** CreateOrPatch with the ownership guard and PatchOLSConfig. */
    method CreateOrPatchOLSConfig() returns (ok: bool)
      requires At(ReadConfig)
      modifies this`cluster, this`pass, this`states, this`moves
      ensures ConfigResult(ok)
    {
      var read, x := GetOLSConfig();
      if read.Err? { ConfigFails(x); return false; }
      if read.value.Some? && read.value.value.Owner() != "" && read.value.value.Owner() != uid { ConfigFails(x); return false; }
      var patched := PatchCopy(st, uid, instance, if read.value.Some? then read.value.value else EMPTY_CONFIG);
      if patched.Err? { ConfigFails(x); return false; }
      ok := SendOLSConfig(read.value, patched.value, x);
    }

    /** What the last call added to the log is true. */
    lemma LogsTruly()
      requires Valid() && CalledIn(Prior().cluster) && pass.log.Then? && pass.log != Prior().pass.log
      ensures JustLogged()
    {
      History.CallLogged(st, uid, states, moves, |moves| - 1);
    }

    /** Nothing is sent if the copy did not change. */
    method SendOLSConfig(read: Option<OLSConfig>, patched: OLSConfig, ghost x: Input) returns (ok: bool)
      requires At(ReadConfig)
      requires cluster.config == read && x.fault == NoFault && Attempt(st, uid, pass, read) == Ok(patched)
      requires read.Some? ==> read.value.Owner() == "" || read.value.Owner() == uid
      modifies this`cluster, this`pass, this`states, this`moves
      ensures ConfigResult(ok)
    {
      if read == Some(patched) {
        Goes(cluster, x, pass.Note(ConfigKept(patched)).To(CheckReady));
        LogsTruly();
        return true;
      }
      Goes(cluster, x, pass.Note(ConfigRead(read)).To(WriteConfig(read, patched)));
      ok := WriteOLSConfig(read, patched);
    }

    /** Create, or the merge patch from the copy that was read. */
    method WriteOLSConfig(read: Option<OLSConfig>, patched: OLSConfig) returns (ok: bool)
      requires At(WriteConfig(read, patched))
      modifies this`cluster, this`pass, this`states, this`moves
      ensures ConfigResult(ok)
    {
      var x := Listen();
      if x.fault != NoFault || read.None? != cluster.config.None? { ConfigFails(x); return false; }
      var merged := if read.None? then patched else MergeOLSConfig(st, uid, instance, read.value, cluster.config.value);
      assert merged == Merged(st, uid, pass, read, patched, cluster.config);
      assert ConfigStep(st, uid, cluster, pass, x) == WriteConfigStep(cluster, pass, read, patched, merged, x);
      if cluster.config.Some? && !MayWriteFinalizers(cluster.config.value, merged) { ConfigFails(x); return false; }
      Goes(cluster.(config := Settle(merged)), x, pass.Note(ConfigWritten(read, patched)).To(CheckReady));
      LogsTruly();
      return true;
    }

    /** True means that the OLSConfig was just read as ready; false, that it was
        not and has been pinged. */
    method IsOLSConfigReady() returns (r: Result<bool>)
      requires At(CheckReady)
      modifies this`cluster, this`pass, this`states, this`moves
      ensures TornDown(r, Finish(DONE), Marked(instance, LightspeedReady, IsTrue))
      ensures r == Ok(true) ==> Saw() && cluster.config.Some? && SaysReady(cluster.config.value.body)
      ensures r == Ok(false) ==> Pings()
    {
      r := CheckOLSConfig();
      if r != Ok(false) { return; }
      var ok := OLSConfigPing();
      return if ok then Ok(false) else Err("API error");
    }

    /** The part before the ping, decided by status.overallStatus. */
    method CheckOLSConfig() returns (r: Result<bool>)
      requires At(CheckReady)
      modifies this`cluster, this`pass, this`states, this`moves
      ensures if r == Ok(false) then At(ReadPing) else TornDown(r, Finish(DONE), Marked(instance, LightspeedReady, IsTrue))
      ensures r.Ok? ==> Saw() && cluster.config.Some? && !Malformed(cluster.config.value.body)
      ensures r.Ok? ==> (r.value <==> SaysReady(cluster.config.value.body))
      ensures r.Err? ==> Answered() != NoFault || cluster.config.None? || Malformed(cluster.config.value.body)
    {
      var cfg, x := GetOLSConfig();
      if cfg.Err? || cfg.value.None? { Goes(cluster, x, pass.To(Finish(ERROR))); return Err("API error"); }
      var status := OverallStatus(cfg.value.value.body);
      OverallStatusExactly(cfg.value.value.body, "Ready");
      if status.Err? { Goes(cluster, x, pass.To(Finish(ERROR))); return Err(status.error); }
      if status.value != Some("Ready") { Goes(cluster, x, pass.To(ReadPing)); return Ok(false); }
      Store(cluster, x, pass.Set(LightspeedReady, IsTrue).Note(ReadySeen).To(Finish(DONE)));
      return Ok(true);
    }

    /** The last call set the ping label to its random value, and nothing else. */
    ghost predicate Pings()
      reads this
    {
      var c := Prior().cluster;
      && CalledIn(c) && Answered() == NoFault && c.config.Some? && cluster.config.Some? && cluster == c.(config := cluster.config)
      && cluster.config.value == c.config.value.(labels := cluster.config.value.labels)
      && cluster.config.value.labels == c.config.value.labels["openstack-lightspeed/ping" := moves[|moves| - 1].input.ping]
    }

    method OLSConfigPing() returns (ok: bool)
      requires At(ReadPing)
      modifies this`cluster, this`pass, this`states, this`moves
      ensures At(Finish(if ok then LATER else ERROR))
      ensures if ok then Pings() else WroteNothing()
    {
      var cfg, x := GetOLSConfig();
      if cfg.Err? || cfg.value.None? { Goes(cluster, x, pass.To(Finish(ERROR))); return false; }
      Goes(cluster, x, pass.To(WritePing(cfg.value.value)));
      ok := UpdateOLSConfig(cfg.value.value);
    }

    /** Update of the OLSConfig, with the random label on the copy that was read;
        it fails exactly on a fault or if the object changed meanwhile. */
    method UpdateOLSConfig(read: OLSConfig) returns (ok: bool)
      requires At(WritePing(read))
      modifies this`cluster, this`pass, this`states, this`moves
      ensures At(Finish(if ok then LATER else ERROR))
      ensures if ok then Pings() else WroteNothing() && (Answered() != NoFault || cluster.config != Some(read))
    {
      var x := Listen();
      var pinged := PingCopy(read, x.ping);
      if x.fault != NoFault || cluster.config != Some(read) { Goes(cluster, x, pass.To(Finish(ERROR))); return false; }
      Goes(cluster.(config := Some(pinged)), x, pass.To(Finish(LATER)));
      return true;
    }

    /** The copy of the instance catches up with the pass. */
    method Become(i: Instance, ghost s: Stage)
      requires Heading(s, i)
      modifies this`instance
      ensures At(s) && instance == i
    {
      instance := i;
    }

    // ------------------------------------------------------------------- teardown

    /** RemoveOLSConfig: true once the OLSConfig was seen absent. */
    method RemoveOLSConfig() returns (r: Result<bool>)
      requires At(FindConfig)
      modifies this`cluster, this`pass, this`states, this`moves
      ensures TornDown(r, FindOwnCsv, instance)
      ensures r.Ok? ==> Saw() && (r.value <==> cluster.config.None?)
    {
      var cfg, x := GetOLSConfig();
      if cfg.Err? { Goes(cluster, x, pass.To(Finish(ERROR))); return Err(cfg.error); }
      if cfg.value.None? { Goes(cluster, x, pass.Note(NoConfigSeen).To(FindOwnCsv)); return Ok(true); }
      Goes(cluster, x, pass.To(RereadConfig));
      var ok := ReleaseOLSConfig();
      if !ok { return Err("API error"); }
      ok := DeleteOLSConfig();
      if !ok { return Err("API error"); }
      r := OLSConfigGone();
    }

    /** What a successful CreateOrPatch with the releasing closure did: nothing
        to an OLSConfig of another, or the finalizer is off and the rest of an
        own one is as it was. */
    ghost predicate Releases()
      reads this
    {
      var c := Prior().cluster;
      && CalledIn(c) && Answered() == NoFault && c.config.Some?
      && (if c == cluster then c.config.value.Owner() != uid || st.finalizer !in c.config.value.finalizers
          else cluster == c.(config := cluster.config)
               && (cluster.config.None? ==> c.config.value.deleting)
               && (cluster.config.Some? ==>
                     && st.finalizer !in cluster.config.value.finalizers
                     && cluster.config.value == c.config.value.(finalizers := cluster.config.value.finalizers)))
    }

    /** Why nothing was released: a fault, no OLSConfig, or when it was read, an
        own one without the finalizer; or one whose finalizers may not be
        written like that any more. */
    ghost predicate Unreleased()
      reads this
    {
      || Answered() != NoFault || cluster.config.None?
      || (Prior().pass.stage.RereadConfig? && cluster.config.value.Owner() == uid && st.finalizer !in cluster.config.value.finalizers)
      || (Prior().pass.stage.ReleaseConfig? && cluster.config.value.deleting && cluster.config.value != Prior().pass.stage.cfg)
    }

    /** CreateOrPatch with the closure that takes off the finalizer: an own
        OLSConfig without the finalizer is an error. */
    method ReleaseOLSConfig() returns (ok: bool)
      requires At(RereadConfig)
      modifies this`cluster, this`pass, this`states, this`moves
      ensures At(if ok then DropConfig else Finish(ERROR))
      ensures if ok then Releases() else WroteNothing() && Unreleased()
    {
      var cfg, x := GetOLSConfig();
      if cfg.Err? || cfg.value.None? { Goes(cluster, x, pass.To(Finish(ERROR))); return false; }
      var read := cfg.value.value;
      if read.Owner() == "" || read.Owner() != uid { Goes(cluster, x, pass.To(DropConfig)); return true; }
      if st.finalizer !in read.finalizers { Goes(cluster, x, pass.To(Finish(ERROR))); return false; }
      Goes(cluster, x, pass.To(ReleaseConfig(read)));
      ok := WriteRelease(read);
    }

    method WriteRelease(read: OLSConfig) returns (ok: bool)
      requires At(ReleaseConfig(read))
      modifies this`cluster, this`pass, this`states, this`moves
      ensures At(if ok then DropConfig else Finish(ERROR))
      ensures if ok then Releases() else WroteNothing() && Unreleased()
    {
      var x := Listen();
      if x.fault != NoFault || cluster.config.None? { Goes(cluster, x, pass.To(Finish(ERROR))); return false; }
      var released := cluster.config.value.(finalizers := Without(read.finalizers, st.finalizer));
      if !MayWriteFinalizers(cluster.config.value, released) { Goes(cluster, x, pass.To(Finish(ERROR))); return false; }
      Goes(cluster.(config := Settle(released)), x, pass.To(DropConfig));
      return true;
    }

    /** The last call removed the OLSConfig, or marked it if a finalizer holds it. */
    ghost predicate Removes()
      reads this
    {
      var c := Prior().cluster;
      && CalledIn(c) && Answered() == NoFault && c.config.Some?
      && cluster == c.(config := if c.config.value.finalizers == [] then None else Some(c.config.value.(deleting := true)))
    }

    /** The Delete, issued whoever owns the OLSConfig. */
    method DeleteOLSConfig() returns (ok: bool)
      requires At(DropConfig)
      modifies this`cluster, this`pass, this`states, this`moves
      ensures At(if ok then ConfirmNoConfig else Finish(ERROR))
      ensures if ok then Removes() else WroteNothing() && (Answered() != NoFault || cluster.config.None?)
    {
      var x := Listen();
      if x.fault != NoFault || cluster.config.None? { Goes(cluster, x, pass.To(Finish(ERROR))); return false; }
      Goes(cluster.(config := DeleteConfig(cluster.config.value)), x, pass.To(ConfirmNoConfig));
      return true;
    }

    method OLSConfigGone() returns (r: Result<bool>)
      requires At(ConfirmNoConfig)
      modifies this`cluster, this`pass, this`states, this`moves
      ensures TornDown(r, FindOwnCsv, instance)
      ensures r.Ok? ==> Saw() && (r.value <==> cluster.config.None?)
      ensures r.Err? ==> Answered() != NoFault
    {
      var cfg, x := GetOLSConfig();
      if cfg.Err? { Goes(cluster, x, pass.To(Finish(ERROR))); return Err(cfg.error); }
      if cfg.value.Some? { Goes(cluster, x, pass.To(Finish(LATER))); return Ok(false); }
      Goes(cluster, x, pass.Note(NoConfigSeen).To(FindOwnCsv));
      return Ok(true);
    }

    /** The last call deleted exactly the plan with this key, or found none. */
    ghost predicate Deletes(key: Key)
      reads this
    {
      var c := Prior().cluster;
      && CalledIn(c) && Answered() == NoFault
      && match DeletePlan(c.plans, key)
         case None => cluster == c
         case Some(left) => cluster == c.(plans := left)
    }

    /** DeleteOLSOperatorInstallPlan: the plan selected by this pass was
        deleted; one that is not there counts as deleted. */
    method DeleteOLSOperatorInstallPlan(csv: Csv) returns (ok: bool)
      requires At(FindOldPlan(csv))
      modifies this`cluster, this`pass, this`states, this`moves
      ensures At(if ok then DropCsv(csv) else Finish(ERROR))
      ensures !ok ==> WroteNothing() && (Answered() != NoFault || st.olsVersion == "")
      ensures ok && pass.log == old(pass).log ==> Saw() && FirstPlan(cluster.plans, instance.namespace, Version()).None?
      ensures ok && pass.log != old(pass).log ==>
                && pass.log.Then? && (pass.log.event.PlanSelected? || pass.log.event.PlanDropped?)
                && (var plan := pass.log.event.plan;
                    && Deletes(plan.key)
                    && (pass.log == Then(old(pass).log, PlanSelected(plan))
                        || pass.log == Then(Then(old(pass).log, PlanSelected(plan)), PlanDropped(plan))))
    {
      var plan, x := GetOLSOperatorInstallPlan();
      if plan.Err? { Goes(cluster, x, pass.To(Finish(ERROR))); return false; }
      if plan.value.None? { Goes(cluster, x, pass.To(DropCsv(csv))); return true; }
      Goes(cluster, x, pass.Note(PlanSelected(plan.value.value)).To(DropPlan(csv, plan.value.value)));
      ok := RemovePlan(csv, plan.value.value);
    }

    method RemovePlan(csv: Csv, plan: InstallPlan) returns (ok: bool)
      requires At(DropPlan(csv, plan))
      modifies this`cluster, this`pass, this`states, this`moves
      ensures At(if ok then DropCsv(csv) else Finish(ERROR))
      ensures if ok then Deletes(plan.key) else WroteNothing() && Answered() != NoFault
      ensures ok ==> pass.log == old(pass).log || pass.log == Then(old(pass).log, PlanDropped(plan))
    {
      var x := Listen();
      if x.fault != NoFault { Goes(cluster, x, pass.To(Finish(ERROR))); return false; }
      var left := DeletePlan(cluster.plans, plan.key);
      if left.None? {
        Goes(cluster, x, pass.To(DropCsv(csv)));
      } else {
        Goes(cluster.(plans := left.value), x, pass.Note(PlanDropped(plan)).To(DropCsv(csv)));
      }
      return true;
    }

    /** The last call deleted exactly the CSV with this key. */
    ghost predicate DeletesCsv(key: Key)
      reads this
    {
      var c := Prior().cluster;
      && CalledIn(c) && Answered() == NoFault && DeleteCsv(c.csvs, key).Some?
      && cluster == c.(csvs := DeleteCsv(c.csvs, key).value)
    }

    method RemoveCsv(csv: Csv) returns (ok: bool)
      requires At(DropCsv(csv))
      modifies this`cluster, this`pass, this`states, this`moves
      ensures At(if ok then ConfirmNoCsv else Finish(ERROR))
      ensures if ok then DeletesCsv(csv.key) else WroteNothing() && (Answered() != NoFault || !Named(csv))
    {
      var x := Listen();
      var left := DeleteCsv(cluster.csvs, csv.key);
      DeleteCsvElements(cluster.csvs, csv.key);
      if x.fault != NoFault || left.None? { Goes(cluster, x, pass.To(Finish(ERROR))); return false; }
      Goes(cluster.(csvs := left.value), x, pass.Note(CsvDropped(csv)).To(ConfirmNoCsv));
      return true;
    }

    /** The installation is gone, or was never this instance's: the instance
        may let go of its finalizer. */
    method MayRelease(ghost x: Input, ghost q: Pass)
      requires At(pass.stage) && Uninstalling(pass.stage) && q == pass.(log := q.log)
      requires UninstallStep(st, uid, cluster, pass, x) == (cluster, Released(q))
      modifies this`cluster, this`pass, this`states, this`moves
      ensures Heading(Finish(DONE), instance.(finalizer := false)) && cluster == old(cluster) && WroteNothing() && Answered() == x.fault
    {
      Store(cluster, x, Released(q));
    }

    /** UninstallInstanceOwnedOLSOperator. */
    method UninstallInstanceOwnedOLSOperator() returns (r: Result<bool>)
      requires At(FindOwnCsv)
      modifies this`cluster, this`pass, this`states, this`moves
      ensures TornDown(r, Finish(DONE), instance.(finalizer := false))
    {
      var csv, x := GetOLSOperatorCSV();
      if csv.Err? { Goes(cluster, x, pass.To(Finish(ERROR))); return Err(csv.error); }
      if csv.value.None? { MayRelease(x, pass.Note(CsvClear(None))); return Ok(true); }
      var owned := IsOwnedBy(csv.value.value.owners, uid);
      if !owned { MayRelease(x, pass.Note(CsvClear(csv.value))); return Ok(true); }
      Goes(cluster, x, pass.To(FindOldPlan(csv.value.value)));
      var ok := DeleteOLSOperatorInstallPlan(csv.value.value);
      if !ok { return Err("API error"); }
      ok := RemoveCsv(csv.value.value);
      if !ok { return Err("API error"); }
      r := OLSOperatorGone();
    }

    method OLSOperatorGone() returns (r: Result<bool>)
      requires At(ConfirmNoCsv)
      modifies this`cluster, this`pass, this`states, this`moves
      ensures TornDown(r, Finish(DONE), instance.(finalizer := false))
      ensures r == Ok(true) ==> Saw() && FirstPlan(cluster.plans, instance.namespace, Version()).None?
      ensures r == Ok(false) ==> Saw() && (FirstCsv(cluster.csvs).Some? || FirstPlan(cluster.plans, instance.namespace, Version()).Some?)
      ensures r.Err? ==> Answered() != NoFault || st.olsVersion == ""
    {
      var csv, x := GetOLSOperatorCSV();
      if csv.Err? { Goes(cluster, x, pass.To(Finish(ERROR))); return Err(csv.error); }
      if csv.value.Some? { Goes(cluster, x, pass.To(Finish(LATER))); return Ok(false); }
      Goes(cluster, x, pass.Note(CsvClear(None)).To(ConfirmNoPlan));
      r := InstallPlanGone();
    }

    method InstallPlanGone() returns (r: Result<bool>)
      requires At(ConfirmNoPlan)
      modifies this`cluster, this`pass, this`states, this`moves
      ensures TornDown(r, Finish(DONE), instance.(finalizer := false))
      ensures r.Ok? ==> Saw() && (r.value <==> FirstPlan(cluster.plans, instance.namespace, Version()).None?)
      ensures r.Err? ==> Answered() != NoFault || st.olsVersion == ""
    {
      var plan, x := GetOLSOperatorInstallPlan();
      assert UninstallStep(st, uid, cluster, pass, x) == (cluster, AfterConfirmNoPlan(pass, plan));
      if plan.Err? { Goes(cluster, x, pass.To(Finish(ERROR))); return Err(plan.error); }
      if plan.value.Some? { Goes(cluster, x, pass.To(Finish(LATER))); return Ok(false); }
      MayRelease(x, pass);
      return Ok(true);
    }

    method ReconcileDelete() returns (outcome: Outcome)
      requires At(FindConfig)
      modifies this`cluster, this`pass, this`states, this`moves, this`instance
      ensures At(Finish(outcome))
    {
      var removed := RemoveOLSConfig();
      if removed.Err? { return ERROR; }
      if !removed.value { return LATER; }
      var uninstalled := UninstallInstanceOwnedOLSOperator();
      if uninstalled.Err? { return ERROR; }
      if !uninstalled.value { return LATER; }
      Become(instance.(finalizer := false), Finish(DONE));
      return DONE;
    }

    // ------------------------------------------------------------------ Reconcile

    /** resolveOCPVersion, `fetched` being status.desired.version of the
        ClusterVersion, None if it cannot be read. */
    method ResolveOcp(fetched: Option<string>)
      modifies this`instance
      ensures var r := Resolve(fetched, old(instance).spec.ocpVersionOverride, old(instance).spec.enableOcpRag);
              instance == old(instance).(status :=
                Status(old(instance).status.conditions[OcpRagReady := if r.RagTrue() then IsTrue else IsFalse], r.active))
    {
      if !instance.spec.enableOcpRag {
        instance := Marked(instance, OcpRagReady, IsTrue);
        instance := instance.(status := instance.status.(activeOcpVersion := ""));
        return;
      }
      var detected := DetectOCPVersion(fetched);
      if detected.Err? {
        instance := Marked(instance, OcpRagReady, IsFalse);
        instance := instance.(status := instance.status.(activeOcpVersion := ""));
        return;
      }
      var active := ResolveOCPVersion(detected.value, instance.spec.ocpVersionOverride, instance.spec.enableOcpRag);
      if active.Err? {
        instance := Marked(instance, OcpRagReady, IsFalse);
        instance := instance.(status := instance.status.(activeOcpVersion := ""));
        return;
      }
      instance := instance.(status := instance.status.(activeOcpVersion := active.value.0));
      instance := Marked(instance, OcpRagReady, IsTrue);
    }

    /** The body of Reconcile after the finalizer has been added earlier. */
    method ReconcileNormal() returns (outcome: Outcome)
      requires At(FindForeign)
      modifies this`cluster, this`pass, this`states, this`moves, this`instance
      ensures At(Finish(outcome))
    {
      var installed := EnsureOLSOperatorInstalled();
      if installed != Ok(true) {
        outcome := if installed.Err? then DONE else LATER;
        Become(Marked(instance, OperatorReady, IsFalse), Finish(outcome));
        return;
      }
      Become(Marked(instance, OperatorReady, IsTrue), ReadConfig);
      outcome := ReconcileConfig();
    }

    method ReconcileConfig() returns (outcome: Outcome)
      requires At(ReadConfig)
      modifies this`cluster, this`pass, this`states, this`moves, this`instance
      ensures At(Finish(outcome))
    {
      var ok := CreateOrPatchOLSConfig();
      if !ok {
        Become(Marked(instance, LightspeedReady, IsFalse), Finish(ERROR));
        return ERROR;
      }
      var ready := IsOLSConfigReady();
      if ready.Err? { return ERROR; }
      if !ready.value { return LATER; }
      Become(Marked(instance, LightspeedReady, IsTrue), Finish(DONE));
      return DONE;
    }

    /** The deferred step: the Ready condition, then PatchInstance, the error
        of which is dropped. */
    method Deferred(ghost outcome: Outcome)
      requires At(Finish(outcome))
      modifies this`cluster, this`pass, this`states, this`moves, this`instance
      ensures Valid() && pass.stage.Idle? && Ended(outcome, old(instance))
      ensures instance == Marked(old(instance), Ready, ReadyOf(old(instance).status.conditions))
    {
      ghost var i := instance;
      if AllSubConditionsTrue(instance.status.conditions) {
        instance := Marked(instance, Ready, IsTrue);
      } else {
        instance := Marked(instance, Ready, ReadyOf(instance.status.conditions));
      }
      PatchInstance(outcome, i);
    }

    method PatchInstance(ghost outcome: Outcome, ghost i: Instance)
      requires Heading(Finish(outcome), i) && instance == Marked(i, Ready, ReadyOf(i.status.conditions))
      modifies this`cluster, this`pass, this`states, this`moves
      ensures Valid() && pass.stage.Idle? && Ended(outcome, i)
    {
      var x := Listen();
      if x.fault != NoFault || uid !in cluster.instances { Ends(cluster, x, outcome, i); return; }
      var cur := cluster.instances[uid];
      var next := PatchedInstance(before, instance, cur);
      assert next == MergeInstance(Final(pass), cur);
      if cur.deleting && next.finalizer && !cur.finalizer {
        Ends(cluster, x, outcome, i);
      } else if next.deleting && !next.finalizer && !next.held {
        Ends(cluster.(instances := cluster.instances - {uid}), x, outcome, i);
      } else {
        Ends(cluster.(instances := cluster.instances[uid := next]), x, outcome, i);
      }
    }

    method Ends(next: Cluster, ghost x: Input, ghost outcome: Outcome, ghost i: Instance)
      requires Heading(Finish(outcome), i) && FinishStep(uid, cluster, pass, x) == (next, Over(pass))
      modifies this`cluster, this`pass, this`states, this`moves
      ensures Valid() && pass.stage.Idle? && Ended(outcome, i)
    {
      Store(next, x, Over(pass));
    }

    /** The last move of the run was the end of a pass with this outcome and
        this copy of the instance. */
    ghost predicate Ended(outcome: Outcome, i: Instance)
      reads this
    {
      && |moves| > 0 && |states| == |moves| + 1 && moves[|moves| - 1].Call?
      && var p := states[|moves| - 1].pass;
         p.stage == Finish(outcome) && p.Inst() == i && p.log == pass.log && pass.result == outcome
    }

    /** One pass over the instance, from the read to the deferred patch,
        with `fetched` as the cluster version.  Whatever others do meanwhile and
        whichever calls fail, the run stays a legal one, no OLSConfig is left
        behind, and Ready is reported exactly when this pass has seen the
        OLSConfig ready and the OCP RAG condition holds. */
    method Reconcile(fetched: Option<string>) returns (outcome: Outcome, started: bool)
      requires Valid() && pass.stage.Idle?
      modifies this
      ensures Valid() && pass.stage.Idle? && old(states) <= states && old(moves) <= moves
      ensures Labelled(cluster, uid) ==> Held(cluster, uid)
      ensures !started ==> pass == old(pass) && (outcome == DONE || outcome == ERROR)
      ensures started ==> Reported(outcome)
    {
      began := (states, moves);
      var x := Listen();
      started := x.fault == NoFault && uid in cluster.instances;
      outcome := if x.fault != NoFault then ERROR else DONE;
      if started {
        instance := cluster.instances[uid];
        before := instance;
        outcome := RunPass(fetched);
      }
      History.RunNoOrphan(st, uid, states, moves, |moves|);
    }

    /** The pass ended with this outcome; its copy of the instance says Ready
        exactly when it may. */
    ghost predicate Reported(outcome: Outcome)
      reads this
    {
      && |moves| > 0 && |states| == |moves| + 1 && moves[|moves| - 1].Call?
      && states[|moves| - 1].pass.stage == Finish(outcome) && pass.result == outcome
      && Ready in instance.status.conditions && OcpRagReady in instance.status.conditions
      && (instance.status.conditions[Ready] == IsTrue <==>
            pass.log.Then? && pass.log.event.ReadySeen? && instance.status.conditions[OcpRagReady] == IsTrue)
    }

    method RunPass(fetched: Option<string>) returns (outcome: Outcome)
      requires Valid() && pass.stage.Idle? && uid in cluster.instances && before == instance == cluster.instances[uid]
      modifies this`cluster, this`pass, this`states, this`moves, this`instance
      ensures Valid() && pass.stage.Idle? && Reported(outcome)
    {
      BeginPass(fetched);
      if before.deleting {
        outcome := ReconcileDelete();
      } else if !before.finalizer {
        outcome := DONE;
      } else {
        outcome := ReconcileNormal();
      }
      Deferred(outcome);
      EndedIsReported(outcome);
    }

    lemma EndedIsReported(outcome: Outcome)
      requires Valid() && |moves| > 0 && Ended(outcome, states[|moves| - 1].pass.Inst())
      requires instance == Marked(states[|moves| - 1].pass.Inst(), Ready, ReadyOf(states[|moves| - 1].pass.conditions))
      ensures Reported(outcome)
    {
      var p := states[|moves| - 1].pass;
      History.RunOk(st, uid, states, moves, |moves| - 1);
      History.ReadyExactly(st, uid, p);
    }

    /** Conditions.Init, resolveOCPVersion, AddFinalizer and the defaults. */
    method Prepare(fetched: Option<string>)
      requires before == instance
      modifies this`instance
      ensures instance == Begin(st, before, fetched).Inst() && BegunFrom(st, before, fetched, instance)
    {
      PrepareCopy(fetched);
      BeginExactly(st, before, fetched);
    }

    method PrepareCopy(fetched: Option<string>)
      requires before == instance
      modifies this`instance
      ensures instance == Begin(st, before, fetched).Inst()
    {
      instance := Marked(instance, LightspeedReady, IsUnknown);
      ResolveOcp(fetched);
      if before.deleting { return; }
      if !instance.finalizer {
        instance := instance.(finalizer := true);
        return;
      }
      if instance.spec.ragImage == "" {
        instance := instance.(spec := instance.spec.(ragImage := st.ragImage));
      }
      if instance.spec.maxTokensForResponse == 0 {
        instance := instance.(spec := instance.spec.(maxTokensForResponse := MAX_TOKENS_DEFAULT));
      }
    }

    method BeginPass(fetched: Option<string>)
      requires Valid() && pass.stage.Idle? && uid in cluster.instances && before == instance == cluster.instances[uid]
      modifies this`pass, this`states, this`moves, this`instance
      ensures At(if before.deleting then FindConfig else if before.finalizer then FindForeign else Finish(DONE))
    {
      Prepare(fetched);
      ghost var q := Begin(st, before, fetched);
      RunExtends(st, uid, states, moves, Start(fetched), Local(cluster, q));
      states, moves, pass := states + [Local(cluster, q)], moves + [Start(fetched)], q;
    }
  }
}
