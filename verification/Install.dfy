/** Names and selectors of the OLS operator installation (ols_install.go). */
module Install {
  import opened Wrappers
  import opened Cluster

  const CHANNEL := "stable"

  /** GetRecommendedOLSVersion for a value of the environment variable:
      unset is an error, "latest" stands for no particular version. */
  function GetRecommendedOLSVersion(env: string): Result<string> {
    if env == "" then Err("environment variable OPENSHIFT_LIGHTSPEED_OPERATOR_VERSION is not set")
    else if env == "latest" then Ok("")
    else Ok(env)
  }

  function GetOLSSubscriptionName(u: Uid): string {
    OLS_OPERATOR_NAME + "-" + u[..5]
  }

  function SubscriptionKey(u: Uid, i: Instance): Key {
    (i.namespace, GetOLSSubscriptionName(u))
  }

  /** SetStartingCSV; empty means the field is not set. */
  function StartingCSV(version: string): string {
    if version == "" then "" else OLS_OPERATOR_NAME + ".v" + version
  }

  function InstanceOwner(u: Uid, i: Instance): seq<OwnerRef> {
    [OwnerRef(i.name, u)]
  }

  /** What CreateOrUpdate turns a Subscription into; the status is kept. */
  function DesiredSubscription(version: string, u: Uid, i: Instance, read: Option<Subscription>): Subscription {
    Subscription(
      SubscriptionSpec(CHANNEL, true, i.spec.catalogSourceName, i.spec.catalogSourceNamespace,
                       OLS_OPERATOR_NAME, StartingCSV(version)),
      InstanceOwner(u, i),
      if read.Some? then read.value.installPlanRef else None)
  }

  // ---------------------------------------------------------------- selectors

  predicate IsOlsCsv(csv: Csv) {
    HasPrefix(csv.key.1, OLS_OPERATOR_NAME)
  }

  /** GetOLSOperatorCSV: the first CSV whose name has the operator's prefix. */
  function FirstCsv(csvs: seq<Csv>): (r: Option<Csv>)
    ensures r.Some? ==> r.value in csvs && IsOlsCsv(r.value)
    ensures r.None? ==> forall csv :: csv in csvs ==> !IsOlsCsv(csv)
  {
    if csvs == [] then None
    else if IsOlsCsv(csvs[0]) then Some(csvs[0])
    else FirstCsv(csvs[1..])
  }

  predicate NamesOwner(owners: seq<OwnerRef>, u: Uid) {
    exists k :: 0 <= k < |owners| && owners[k].uid == u
  }

  /** The CSV is owned by u and has succeeded. */
  predicate Done(u: Uid, csv: Option<Csv>) {
    csv.Some? && csv.value.phase == "Succeeded" && NamesOwner(csv.value.owners, u)
  }

  predicate IsOlsName(name: string, version: string) {
    HasPrefix(name, OLS_OPERATOR_NAME) && HasSuffix(name, version)
  }

  predicate PlanMatches(plan: InstallPlan, version: string) {
    exists i :: 0 <= i < |plan.csvNames| && IsOlsName(plan.csvNames[i], version)
  }

  predicate IsOlsPlan(plan: InstallPlan, ns: string, version: string) {
    plan.key.0 == ns && PlanMatches(plan, version)
  }

  /** GetOLSOperatorInstallPlan: the first plan of the namespace that names a
      CSV with the operator's prefix and the recommended version as suffix. */
  function FirstPlan(plans: seq<InstallPlan>, ns: string, version: string): (r: Option<InstallPlan>)
    ensures r.Some? ==> r.value in plans && IsOlsPlan(r.value, ns, version)
    ensures r.None? ==> forall plan :: plan in plans ==> !IsOlsPlan(plan, ns, version)
  {
    if plans == [] then None
    else if IsOlsPlan(plans[0], ns, version) then Some(plans[0])
    else FirstPlan(plans[1..], ns, version)
  }

  /** The selected CSV is the one with the least index. */
  lemma {:induction false} FirstCsvIsLeast(csvs: seq<Csv>, i: nat)
    requires i < |csvs| && IsOlsCsv(csvs[i]) && forall j :: 0 <= j < i ==> !IsOlsCsv(csvs[j])
    ensures FirstCsv(csvs) == Some(csvs[i])
  {
    if i > 0 {
      assert !IsOlsCsv(csvs[0]);
      FirstCsvIsLeast(csvs[1..], i - 1);
    }
  }

  /** The selected plan is the matching one with the least index. */
  lemma {:induction false} FirstPlanIsLeast(plans: seq<InstallPlan>, ns: string, version: string, i: nat)
    requires i < |plans| && IsOlsPlan(plans[i], ns, version) && forall j :: 0 <= j < i ==> !IsOlsPlan(plans[j], ns, version)
    ensures FirstPlan(plans, ns, version) == Some(plans[i])
  {
    if i > 0 {
      assert !IsOlsPlan(plans[0], ns, version);
      FirstPlanIsLeast(plans[1..], ns, version, i - 1);
    }
  }

  /** The same in the source's terms: the first CSV whose name begins with
      "lightspeed-operator", whatever its namespace. */
  lemma CsvSelection(csvs: seq<Csv>)
    ensures FirstCsv(csvs).None? <==> forall i :: 0 <= i < |csvs| ==> !("lightspeed-operator" <= csvs[i].key.1)
    ensures forall i :: 0 <= i < |csvs| ==>
              "lightspeed-operator" <= csvs[i].key.1 && (forall j :: 0 <= j < i ==> !("lightspeed-operator" <= csvs[j].key.1)) ==>
                FirstCsv(csvs) == Some(csvs[i])
  {
    assert forall i :: 0 <= i < |csvs| ==> csvs[i] in csvs;
    assert forall i :: 0 <= i < |csvs| ==> (IsOlsCsv(csvs[i]) <==> "lightspeed-operator" <= csvs[i].key.1);
    forall i | 0 <= i < |csvs| && IsOlsCsv(csvs[i]) && forall j :: 0 <= j < i ==> !IsOlsCsv(csvs[j])
      ensures FirstCsv(csvs) == Some(csvs[i])
    {
      FirstCsvIsLeast(csvs, i);
    }
    if FirstCsv(csvs).Some? { assert exists i :: 0 <= i < |csvs| && csvs[i] == FirstCsv(csvs).value; }
  }

  /** The plan is in the instance's namespace and names a CSV that begins with
      "lightspeed-operator" and ends with the version. */
  predicate NamesVersion(plan: InstallPlan, ns: string, version: string) {
    && plan.key.0 == ns
    && exists i :: 0 <= i < |plan.csvNames| && "lightspeed-operator" <= plan.csvNames[i] && EndsWith(plan.csvNames[i], version)
  }

  predicate EndsWith(name: string, end: string) {
    exists k :: 0 <= k <= |name| && name[k..] == end
  }

  lemma SuffixIsEnd(name: string, end: string)
    ensures HasSuffix(name, end) <==> EndsWith(name, end)
  {
    if HasSuffix(name, end) { assert name[|name| - |end|..] == end; }
  }

  lemma PlanMatchExactly(plan: InstallPlan, ns: string, version: string)
    ensures IsOlsPlan(plan, ns, version) <==> NamesVersion(plan, ns, version)
  {
    forall i | 0 <= i < |plan.csvNames|
      ensures IsOlsName(plan.csvNames[i], version) <==>
                "lightspeed-operator" <= plan.csvNames[i] && EndsWith(plan.csvNames[i], version)
    {
      SuffixIsEnd(plan.csvNames[i], version);
    }
  }

  /** The first such plan in the source's terms. */
  lemma PlanSelection(plans: seq<InstallPlan>, ns: string, version: string)
    ensures FirstPlan(plans, ns, version).None? <==> forall i :: 0 <= i < |plans| ==> !NamesVersion(plans[i], ns, version)
    ensures forall i :: 0 <= i < |plans| ==>
              NamesVersion(plans[i], ns, version) && (forall j :: 0 <= j < i ==> !NamesVersion(plans[j], ns, version)) ==>
                FirstPlan(plans, ns, version) == Some(plans[i])
  {
    forall i | 0 <= i < |plans| ensures IsOlsPlan(plans[i], ns, version) <==> NamesVersion(plans[i], ns, version) {
      PlanMatchExactly(plans[i], ns, version);
    }
    assert forall i :: 0 <= i < |plans| ==> plans[i] in plans;
    forall i | 0 <= i < |plans| && IsOlsPlan(plans[i], ns, version) && forall j :: 0 <= j < i ==> !IsOlsPlan(plans[j], ns, version)
      ensures FirstPlan(plans, ns, version) == Some(plans[i])
    {
      FirstPlanIsLeast(plans, ns, version, i);
    }
    if FirstPlan(plans, ns, version).Some? {
      assert exists i :: 0 <= i < |plans| && plans[i] == FirstPlan(plans, ns, version).value;
    }
  }

  // ------------------------------------------------------ what is ordered from OLM

  /** The value of the environment variable as the recommended version. */
  lemma RecommendedExactly(env: string)
    ensures env == "" <==> GetRecommendedOLSVersion(env).Err?
    ensures env == "latest" ==> GetRecommendedOLSVersion(env) == Ok("")
    ensures env != "" && env != "latest" ==> GetRecommendedOLSVersion(env) == Ok(env)
  {
  }

  /** What u orders with its Subscription, field by field. */
  predicate Ordered(env: string, u: Uid, i: Instance, sub: Subscription) {
    && sub.spec.channel == "stable" && sub.spec.manualApproval && sub.spec.package == "lightspeed-operator"
    && sub.spec.catalogSource == i.spec.catalogSourceName
    && sub.spec.catalogSourceNamespace == i.spec.catalogSourceNamespace
    && sub.spec.startingCSV == (if env == "latest" then "" else "lightspeed-operator.v" + env)
    && |sub.owners| == 1 && sub.owners[0].name == i.name && sub.owners[0].uid == u
  }

  /** Where it is kept: a name of its own in the instance's namespace. */
  function OrderKey(u: Uid, i: Instance): Key {
    (i.namespace, "lightspeed-operator-" + u[..5])
  }

  /** A Subscription is as u wants it exactly if it is ordered so, under that
      name; and what CreateOrUpdate writes is, whatever was there before. */
  lemma OrderedExactly(env: string, u: Uid, i: Instance, sub: Subscription, read: Option<Subscription>)
    requires GetRecommendedOLSVersion(env).Ok?
    ensures var v := GetRecommendedOLSVersion(env).value;
            && (sub == DesiredSubscription(v, u, i, Some(sub)) <==> Ordered(env, u, i, sub))
            && Ordered(env, u, i, DesiredSubscription(v, u, i, read))
            && DesiredSubscription(v, u, i, read).installPlanRef == (if read.Some? then read.value.installPlanRef else None)
    ensures SubscriptionKey(u, i) == OrderKey(u, i)
  {
    var v := GetRecommendedOLSVersion(env).value;
    assert StartingCSV(v) == if env == "latest" then "" else "lightspeed-operator.v" + env;
    if Ordered(env, u, i, sub) { assert sub.owners == [sub.owners[0]]; }
    assert GetOLSSubscriptionName(u) == "lightspeed-operator-" + u[..5];
  }

  // ------------------------------------------------- the writer and the selector

  lemma SuffixOfConcat(a: string, b: string)
    ensures HasSuffix(a + b, b)
  {
    assert (a + b)[|a|..] == b;
  }

  /** For every value of the environment variable: a plan of the namespace that
      names the startingCSV u ordered is selected; under "latest" none is
      ordered, and exactly the names with the operator's prefix are selected. */
  lemma WriterSelectorAgree(env: string, u: Uid, i: Instance, sub: Subscription, name: string, plan: InstallPlan)
    requires GetRecommendedOLSVersion(env).Ok? && Ordered(env, u, i, sub)
    ensures var v := GetRecommendedOLSVersion(env).value;
            && (sub.spec.startingCSV == "" <==> env == "latest")
            && (env != "latest" && plan.key.0 == i.namespace && sub.spec.startingCSV in plan.csvNames ==> IsOlsPlan(plan, i.namespace, v))
            && (env == "latest" ==> (IsOlsName(name, v) <==> "lightspeed-operator" <= name))
  {
    var v := GetRecommendedOLSVersion(env).value;
    if env != "latest" {
      SuffixOfConcat("lightspeed-operator.v", env);
      assert HasPrefix(sub.spec.startingCSV, OLS_OPERATOR_NAME);
    }
    assert name[|name|..] == "";
  }

  const CSV_STEM := OLS_OPERATOR_NAME + ".v"

  lemma SuffixOfSum(a: string, v: string, w: string)
    ensures HasSuffix(a + v, w) <==> HasSuffix(v, w) || exists k :: 0 <= k < |a| && w == a[k..] + v
  {
    if |w| <= |v| {
      assert (a + v)[|a + v| - |w|..] == v[|v| - |w|..];
    } else if |w| <= |a + v| {
      var k := |a| + |v| - |w|;
      assert (a + v)[k..] == a[k..] + v;
    }
    forall k | 0 <= k < |a| && w == a[k..] + v ensures HasSuffix(a + v, w) {
      assert (a + v)[k..] == a[k..] + v;
    }
  }

  /** The selector for version w takes the CSV of version v exactly when w is a
      suffix of v, or is v preceded by an end of the CSV's stem; without the
      letter v in w only the former is possible.  Equality is not required:
      1.0.0 also selects 11.0.0. */
  lemma SelectorConfusesSuffixes(v: string, w: string)
    requires v != ""
    ensures IsOlsName(StartingCSV(v), w) <==> HasSuffix(v, w) || exists k :: 0 <= k < |CSV_STEM| && w == CSV_STEM[k..] + v
    ensures 'v' !in w ==> (IsOlsName(StartingCSV(v), w) <==> HasSuffix(v, w))
    ensures IsOlsName(StartingCSV("11.0.0"), "1.0.0")
  {
    SuffixOfSum(CSV_STEM, v, w);
    assert HasPrefix(StartingCSV(v), OLS_OPERATOR_NAME);
    forall k | 0 <= k < |CSV_STEM| && w == CSV_STEM[k..] + v ensures 'v' in w {
      assert w[|CSV_STEM| - 1 - k] == 'v';
    }
    assert "11.0.0"[1..] == "1.0.0";
    SuffixOfConcat(CSV_STEM + "1", "1.0.0");
    assert StartingCSV("11.0.0") == CSV_STEM + "1" + "1.0.0";
  }

  // ------------------------------------------------------- selectors and writes

  /** Rewriting any matching plan in place changes the selection only if it was
      the selected one. */
  lemma {:induction false} FirstPlanReplaced(plans: seq<InstallPlan>, ns: string, version: string, plan: InstallPlan, plan': InstallPlan)
    requires plan in plans && IsOlsPlan(plan, ns, version) && IsOlsPlan(plan', ns, version)
    ensures FirstPlan(plans, ns, version).Some?
    ensures FirstPlan(Replace(plans, plan, plan'), ns, version)
            == if FirstPlan(plans, ns, version) == Some(plan) then Some(plan') else FirstPlan(plans, ns, version)
  {
    if plans[0] != plan && !IsOlsPlan(plans[0], ns, version) {
      FirstPlanReplaced(plans[1..], ns, version, plan, plan');
    }
  }

  lemma {:induction false} FirstCsvReplaced(csvs: seq<Csv>, csv: Csv, csv': Csv)
    requires csv in csvs && IsOlsCsv(csv) && IsOlsCsv(csv')
    ensures FirstCsv(csvs).Some?
    ensures FirstCsv(Replace(csvs, csv, csv')) == if FirstCsv(csvs) == Some(csv) then Some(csv') else FirstCsv(csvs)
  {
    if csvs[0] != csv && !IsOlsCsv(csvs[0]) {
      FirstCsvReplaced(csvs[1..], csv, csv');
    }
  }
}
