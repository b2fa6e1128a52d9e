/** The objects the operator shares with OLM, users and the garbage collector,
    and what the API server does with them. */
module Cluster {
  import opened Wrappers
  import opened Json

  /** Object UIDs; GetOLSSubscriptionName slices the first five characters. */
  type Uid = s: string | |s| >= 5 witness "00000"

  const OLS_OPERATOR_NAME := "lightspeed-operator"
  const OWNER_LABEL := "openstack.org/lightspeed-owner-id"
  const PHASE_SUCCEEDED := "Succeeded"

  /** What the process is configured with: the raw value of
      OPENSHIFT_LIGHTSPEED_OPERATOR_VERSION, the default RAG image, the system
      prompt and the finalizer, which is the same for all instances. */
  datatype Settings = Settings(olsVersion: string, ragImage: string, systemPrompt: string, finalizer: string)

  datatype Truth = IsTrue | IsFalse | IsUnknown

  datatype Condition = OperatorReady | LightspeedReady | OcpRagReady | Ready

  datatype Status = Status(conditions: map<Condition, Truth>, activeOcpVersion: string)

  datatype Spec = Spec(
    llmEndpoint: string, llmEndpointType: string, modelName: string, llmCredentials: string,
    tlsCACertBundle: string, maxTokensForResponse: int,
    catalogSourceNamespace: string, catalogSourceName: string,
    llmProjectID: string, llmDeploymentName: string, llmAPIVersion: string,
    feedbackDisabled: bool, transcriptsDisabled: bool,
    ragImage: string, enableOcpRag: bool, ocpVersionOverride: string)

  /** An OpenStackLightspeed resource; `finalizer` is the operator's own
      finalizer, `held` says that someone else's finalizer is present. */
  datatype Instance = Instance(
    name: string, namespace: string, spec: Spec,
    finalizer: bool, held: bool, deleting: bool, status: Status)

  datatype OwnerRef = OwnerRef(name: string, uid: string)

  datatype SubscriptionSpec = SubscriptionSpec(
    channel: string, manualApproval: bool, catalogSource: string,
    catalogSourceNamespace: string, package: string, startingCSV: string)

  datatype Subscription = Subscription(spec: SubscriptionSpec, owners: seq<OwnerRef>, installPlanRef: Option<string>)

  /** Namespace and name. */
  type Key = (string, string)

  datatype InstallPlan = InstallPlan(key: Key, csvNames: seq<string>, approved: bool, held: bool, deleting: bool)

  datatype Csv = Csv(key: Key, owners: seq<OwnerRef>, phase: string, held: bool, deleting: bool)

  /** The OLSConfig named "cluster": labels, finalizers and the deletion mark
      of its metadata, and everything outside metadata as a JSON tree. */
  datatype OLSConfig = OLSConfig(body: Object, labels: map<string, string>, finalizers: seq<string>, deleting: bool) {
    /** GetLabels()[OWNER_LABEL], empty if the label is missing. */
    function Owner(): string {
      if OWNER_LABEL in labels then labels[OWNER_LABEL] else ""
    }
  }

  datatype Cluster = Objects(
    instances: map<Uid, Instance>, subscriptions: map<Key, Subscription>,
    plans: seq<InstallPlan>, csvs: seq<Csv>, config: Option<OLSConfig>)

  // ------------------------------------------------------------------ owners

  predicate OwnedBy(owners: seq<OwnerRef>, u: string) {
    exists i :: 0 <= i < |owners| && owners[i].uid == u
  }

  /** Instance u exists and still carries the operator's finalizer. */
  predicate Held(c: Cluster, u: Uid) {
    u in c.instances && c.instances[u].finalizer
  }

  /** The OLSConfig exists and its owner label names u. */
  predicate Labelled(c: Cluster, u: Uid) {
    c.config.Some? && c.config.value.Owner() == u
  }

  predicate OwnsCsv(c: Cluster, u: Uid) {
    exists i :: 0 <= i < |c.csvs| && OwnedBy(c.csvs[i].owners, u)
  }

  // ----------------------------------------------------------- string matching

  predicate HasPrefix(s: string, p: string) {
    p <= s
  }

  predicate HasSuffix(s: string, t: string) {
    |t| <= |s| && s[|s| - |t|..] == t
  }

  // ------------------------------------------------------ API server semantics

  /** Update of a list element whose copy was read as x and changed to y. */
  function Replace<T(==)>(s: seq<T>, x: T, y: T): seq<T>
    requires x in s
  {
    if s[0] == x then [y] + s[1..] else [s[0]] + Replace(s[1..], x, y)
  }

  /** Delete removes the object, or marks it while a finalizer holds it.
      None is a NotFound error. */
  function DeletePlan(s: seq<InstallPlan>, key: Key): Option<seq<InstallPlan>> {
    if s == [] then None
    else if s[0].key == key then Some(if s[0].held then [s[0].(deleting := true)] + s[1..] else s[1..])
    else match DeletePlan(s[1..], key)
      case None => None
      case Some(rest) => Some([s[0]] + rest)
  }

  function DeleteCsv(s: seq<Csv>, key: Key): Option<seq<Csv>> {
    if s == [] then None
    else if s[0].key == key then Some(if s[0].held then [s[0].(deleting := true)] + s[1..] else s[1..])
    else match DeleteCsv(s[1..], key)
      case None => None
      case Some(rest) => Some([s[0]] + rest)
  }

  /** A marked object disappears with its last finalizer. */
  function Settle(cfg: OLSConfig): Option<OLSConfig> {
    if cfg.deleting && cfg.finalizers == [] then None else Some(cfg)
  }

  function DeleteConfig(cfg: OLSConfig): Option<OLSConfig> {
    Settle(cfg.(deleting := true))
  }

  /** A write may not add finalizers to an object that is being deleted. */
  predicate MayWriteFinalizers(before: OLSConfig, after: OLSConfig) {
    before.deleting ==> forall f :: f in after.finalizers ==> f in before.finalizers
  }

  lemma {:induction false} ReplaceElements<T>(s: seq<T>, x: T, y: T)
    requires x in s
    ensures |Replace(s, x, y)| == |s|
    ensures y in Replace(s, x, y)
    ensures forall z :: z in Replace(s, x, y) ==> z == y || z in s
    ensures forall z :: z in s && z != x ==> z in Replace(s, x, y)
  {
    if s[0] != x { ReplaceElements(s[1..], x, y); }
  }

  lemma {:induction false} DeleteCsvElements(s: seq<Csv>, key: Key)
    ensures DeleteCsv(s, key).None? <==> forall i :: 0 <= i < |s| ==> s[i].key != key
    ensures DeleteCsv(s, key).Some? ==>
              var r := DeleteCsv(s, key).value;
              forall z :: z in r ==> z in s || (z.key == key && z.held && exists x :: x in s && z == x.(deleting := true))
  {
    if s != [] && s[0].key != key { DeleteCsvElements(s[1..], key); }
  }

  /** Element i is taken out. */
  function TakenOut<T>(s: seq<T>, i: nat): seq<T>
    requires i < |s|
  {
    s[..i] + s[i + 1..]
  }

  lemma BelowHead<T>(s: seq<T>, i: nat, x: T)
    requires 0 < i < |s|
    ensures [s[0]] + TakenOut(s[1..], i - 1) == TakenOut(s, i)
    ensures [s[0]] + s[1..][i - 1 := x] == s[i := x]
  {
    assert [s[0]] + s[1..][..i - 1] == s[..i] && s[1..][i..] == s[i + 1..];
  }

  lemma AtHead<T>(s: seq<T>, x: T)
    requires s != []
    ensures TakenOut(s, 0) == s[1..] && s[0 := x] == [x] + s[1..]
  {
  }

  /** The Delete of a list element: it meets the first object of that name, which
      is removed, or marked where it is if a finalizer holds it. */
  lemma {:induction false} DeletePlanExactly(s: seq<InstallPlan>, key: Key, i: nat)
    requires i < |s| && s[i].key == key && forall j :: 0 <= j < i ==> s[j].key != key
    ensures DeletePlan(s, key) == Some(if s[i].held then s[i := s[i].(deleting := true)] else TakenOut(s, i))
  {
    if i > 0 {
      assert s[0].key != key;
      DeletePlanExactly(s[1..], key, i - 1);
      BelowHead(s, i, s[i].(deleting := true));
    } else {
      AtHead(s, s[0].(deleting := true));
    }
  }

  lemma {:induction false} DeleteCsvExactly(s: seq<Csv>, key: Key, i: nat)
    requires i < |s| && s[i].key == key && forall j :: 0 <= j < i ==> s[j].key != key
    ensures DeleteCsv(s, key) == Some(if s[i].held then s[i := s[i].(deleting := true)] else TakenOut(s, i))
  {
    if i > 0 {
      assert s[0].key != key;
      DeleteCsvExactly(s[1..], key, i - 1);
      BelowHead(s, i, s[i].(deleting := true));
    } else {
      AtHead(s, s[0].(deleting := true));
    }
  }

  lemma {:induction false} DeletePlanMissing(s: seq<InstallPlan>, key: Key)
    ensures DeletePlan(s, key).None? <==> forall i :: 0 <= i < |s| ==> s[i].key != key
  {
    if s != [] && s[0].key != key {
      DeletePlanMissing(s[1..], key);
      assert forall i :: 0 < i < |s| ==> s[i] == s[1..][i - 1];
    }
  }

  /** An OLSConfig goes at once if nothing holds it; else it is only marked. */
  lemma DeleteConfigExactly(cfg: OLSConfig)
    ensures DeleteConfig(cfg).None? <==> cfg.finalizers == []
    ensures cfg.finalizers != [] ==> DeleteConfig(cfg) == Some(OLSConfig(cfg.body, cfg.labels, cfg.finalizers, true))
  {
  }
}
