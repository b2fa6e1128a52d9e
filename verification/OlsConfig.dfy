/** PatchOLSConfig and OLSConfigPing: how an instance is written into the
    OLSConfig tree, and what that leaves alone (funcs.go). */
module OlsConfig {
  import opened Wrappers
  import opened Json
  import opened Cluster
  import opened OcpVersion

  const DEFAULT_PROVIDER := "openstack-lightspeed-provider"
  const VECTOR_DB_PATH := "/rag/vector_db/os_product_docs"
  const PING_LABEL := "openstack-lightspeed/ping"

  // ------------------------------------------------------------- the tree part

  /** BuildRAGConfigs: the OpenStack documentation first, then the OCP one. */
  function BuildRAGConfigs(image: string, ocpVersion: string): (rags: seq<Json>)
    ensures |rags| == if ocpVersion == "" then 1 else 2
  {
    [JObj(map["image" := JStr(image), "indexPath" := JStr(VECTOR_DB_PATH)])] +
    if ocpVersion == "" then [] else
      [JObj(map["image" := JStr(image),
                "indexPath" := JStr(GetOCPVectorDBPath(ocpVersion)),
                "indexID" := JStr(GetOCPIndexName(ocpVersion))])]
  }

  function Provider(spec: Spec): Object {
    var base := map[
      "credentialsSecretRef" := JObj(map["name" := JStr(spec.llmCredentials)]),
      "models" := JArr([JObj(map[
        "name" := JStr(spec.modelName),
        "parameters" := JObj(map["maxTokensForResponse" := JNum(spec.maxTokensForResponse)])])]),
      "name" := JStr(DEFAULT_PROVIDER),
      "type" := JStr(spec.llmEndpointType),
      "url" := JStr(spec.llmEndpoint)];
    var p1 := if spec.llmProjectID == "" then base else base["projectID" := JStr(spec.llmProjectID)];
    var p2 := if spec.llmDeploymentName == "" then p1 else p1["deploymentName" := JStr(spec.llmDeploymentName)];
    if spec.llmAPIVersion == "" then p2 else p2["apiVersion" := JStr(spec.llmAPIVersion)]
  }

  /** The text field k of an entry, empty if it is missing. */
  function Text(o: Object, k: string): string {
    if k in o && o[k].JStr? then o[k].s else ""
  }

  /** The model of a provider entry: its name and its token limit. */
  function ModelOf(o: Object): Option<(string, int)> {
    if "models" in o && o["models"].JArr? && |o["models"].items| == 1 && o["models"].items[0].JObj? then
      var m := o["models"].items[0].fields;
      var limit := Lookup(m, ["parameters", "maxTokensForResponse"]);
      if limit.Some? && limit.value.JNum? then Some((Text(m, "name"), limit.value.n)) else None
    else None
  }

  /** An entry from which all the instance says about its provider reads back;
      an optional field is present exactly when it is not empty, and there are
      no fields beyond these. */
  predicate IsProvider(p: Object, spec: Spec) {
    && Text(p, "name") == "openstack-lightspeed-provider" && Text(p, "type") == spec.llmEndpointType
    && Text(p, "url") == spec.llmEndpoint && Text(Child(p, "credentialsSecretRef"), "name") == spec.llmCredentials
    && ModelOf(p) == Some((spec.modelName, spec.maxTokensForResponse))
    && Text(p, "projectID") == spec.llmProjectID && Text(p, "deploymentName") == spec.llmDeploymentName
    && Text(p, "apiVersion") == spec.llmAPIVersion
    && ("projectID" in p <==> spec.llmProjectID != "")
    && ("deploymentName" in p <==> spec.llmDeploymentName != "")
    && ("apiVersion" in p <==> spec.llmAPIVersion != "")
    && p.Keys <= {"credentialsSecretRef", "models", "name", "type", "url", "projectID", "deploymentName", "apiVersion"}
  }

  lemma ProviderValues(spec: Spec)
    ensures var p := Provider(spec);
            && Text(p, "name") == "openstack-lightspeed-provider" && Text(p, "type") == spec.llmEndpointType
            && Text(p, "url") == spec.llmEndpoint && Text(Child(p, "credentialsSecretRef"), "name") == spec.llmCredentials
            && ModelOf(p) == Some((spec.modelName, spec.maxTokensForResponse))
            && Text(p, "projectID") == spec.llmProjectID && Text(p, "deploymentName") == spec.llmDeploymentName
            && Text(p, "apiVersion") == spec.llmAPIVersion
  {
    var p := Provider(spec);
    assert "name" in p && "type" in p && "url" in p && "models" in p && "credentialsSecretRef" in p;
    var m := p["models"].items[0].fields;
    assert "name" in m && "parameters" in m && "maxTokensForResponse" in m["parameters"].fields;
    assert ["parameters", "maxTokensForResponse"][1..] == ["maxTokensForResponse"];
  }

  lemma ProviderFields(spec: Spec)
    ensures var p := Provider(spec);
            && ("projectID" in p <==> spec.llmProjectID != "")
            && ("deploymentName" in p <==> spec.llmDeploymentName != "")
            && ("apiVersion" in p <==> spec.llmAPIVersion != "")
            && p.Keys <= {"credentialsSecretRef", "models", "name", "type", "url", "projectID", "deploymentName", "apiVersion"}
  {
  }

  /** The entry's inner maps hold nothing else. */
  predicate InnerFields(p: Object) {
    && Child(p, "credentialsSecretRef").Keys == {"name"}
    && "models" in p && p["models"].JArr? && |p["models"].items| == 1 && p["models"].items[0].JObj?
    && p["models"].items[0].fields.Keys == {"name", "parameters"}
    && Child(p["models"].items[0].fields, "parameters").Keys == {"maxTokensForResponse"}
  }

  lemma ProviderInner(spec: Spec)
    ensures InnerFields(Provider(spec))
  {
  }

  /** The provider entry loses nothing, and says nothing more. */
  lemma ProviderRoundTrip(spec: Spec)
    ensures IsProvider(Provider(spec), spec) && InnerFields(Provider(spec))
  {
    ProviderValues(spec);
    ProviderFields(spec);
    ProviderInner(spec);
  }

  const PROVIDERS_PATH: Path := ["spec", "llm", "providers"]
  const RAG_PATH: Path := ["spec", "ols", "rag"]
  const CA_PATH: Path := ["spec", "ols", "additionalCAConfigMapRef", "name"]
  const MODEL_PATH: Path := ["spec", "ols", "defaultModel"]
  const PROVIDER_PATH: Path := ["spec", "ols", "defaultProvider"]
  const BYOK_PATH: Path := ["spec", "ols", "byokRAGOnly"]
  const FEEDBACK_PATH: Path := ["spec", "ols", "userDataCollection", "feedbackDisabled"]
  const TRANSCRIPTS_PATH: Path := ["spec", "ols", "userDataCollection", "transcriptsDisabled"]
  const PROMPT_PATH: Path := ["spec", "ols", "querySystemPrompt"]

  function CaWrites(spec: Spec): seq<Write> {
    if spec.tlsCACertBundle == "" then [] else [Write(CA_PATH, JStr(spec.tlsCACertBundle))]
  }

  /** The assignments PatchOLSConfig makes to the tree, in order. */
  function Writings(st: Settings, spec: Spec, ocpVersion: string): seq<Write> {
    [Write(PROVIDERS_PATH, JArr([JObj(Provider(spec))])),
     Write(RAG_PATH, JArr(BuildRAGConfigs(spec.ragImage, ocpVersion)))] +
    CaWrites(spec) +
    [Write(MODEL_PATH, JStr(spec.modelName)),
     Write(PROVIDER_PATH, JStr(DEFAULT_PROVIDER)),
     Write(BYOK_PATH, JBool(true)),
     Write(FEEDBACK_PATH, JBool(spec.feedbackDisabled)),
     Write(TRANSCRIPTS_PATH, JBool(spec.transcriptsDisabled)),
     Write(PROMPT_PATH, JStr(st.systemPrompt))]
  }

  function Managed(st: Settings, i: Instance): seq<Write> {
    Writings(st, i.spec, i.status.activeOcpVersion)
  }

  lemma ApartAt(p: Path, q: Path, k: nat)
    requires k < |p| && k < |q| && p[k] != q[k]
    ensures Apart(p, q)
  {
  }

  lemma ManagedApart(st: Settings, i: Instance)
    ensures PathsApart(Managed(st, i))
  {
    var ws := Managed(st, i);
    forall j, k | 0 <= j < k < |ws| ensures Apart(ws[j].path, ws[k].path) {
      var p, q := ws[j].path, ws[k].path;
      ApartAt(p, q, if p[1] != q[1] then 1 else if p[2] != q[2] then 2 else 3);
    }
  }

  // --------------------------------------------------------- the whole object

  /** Existing labels win over the new owner label. */
  function WithOwner(labels: map<string, string>, u: Uid): map<string, string> {
    map[OWNER_LABEL := u] + labels
  }

  function WithFinalizer(fs: seq<string>, f: string): seq<string> {
    if f in fs then fs else fs + [f]
  }

  /** The patch for a list of tree writes; `noConditions` says that the
      instance's conditions are nil. */
  function PatchWith(f: string, u: Uid, noConditions: bool, ws: seq<Write>, cfg: OLSConfig): Result<OLSConfig> {
    var body :- WriteAll(cfg.body, ws);
    if f in cfg.finalizers && noConditions then Err("cannot add finalizer")
    else Ok(OLSConfig(body, WithOwner(cfg.labels, u), WithFinalizer(cfg.finalizers, f), cfg.deleting))
  }

  function PatchOLSConfig(st: Settings, u: Uid, i: Instance, cfg: OLSConfig): Result<OLSConfig> {
    PatchWith(st.finalizer, u, i.status.conditions == map[], Managed(st, i), cfg)
  }

  /** The merge patch from `read` to its patched copy, applied to `cur`. */
  function MergeWith(f: string, u: Uid, ws: seq<Write>, read: OLSConfig, cur: OLSConfig): OLSConfig {
    OLSConfig(
      MergeAll(read.body, cur.body, ws),
      if OWNER_LABEL in read.labels then cur.labels else cur.labels[OWNER_LABEL := u],
      if f in read.finalizers then cur.finalizers else read.finalizers + [f],
      cur.deleting)
  }

  function MergeOLSConfig(st: Settings, u: Uid, i: Instance, read: OLSConfig, cur: OLSConfig): OLSConfig {
    MergeWith(st.finalizer, u, Managed(st, i), read, cur)
  }

  function PingOLSConfig(cfg: OLSConfig, value: string): OLSConfig {
    cfg.(labels := cfg.labels[PING_LABEL := value])
  }

  function WithStatus(cfg: OLSConfig, status: Json): OLSConfig {
    cfg.(body := cfg.body["status" := status])
  }

  /** uns.NestedString(status.overallStatus): an error, not found, or a string. */
  function OverallStatus(body: Object): Result<Option<string>> {
    if "status" !in body || body["status"].JNull? then Ok(None)
    else match body["status"]
      case JObj(m) =>
        if "overallStatus" !in m then Ok(None)
        else (match m["overallStatus"]
          case JStr(s) => Ok(Some(s))
          case _ => Err("not a string"))
      case _ => Err("not a map")
  }

  /** The OLSConfig reports itself ready. */
  predicate SaysReady(body: Object) {
    Lookup(body, ["status", "overallStatus"]) == Some(JStr("Ready"))
  }

  /** status is there but no map, or status.overallStatus is there but no text. */
  predicate Malformed(body: Object) {
    var top, full := Lookup(body, ["status"]), Lookup(body, ["status", "overallStatus"]);
    (top.Some? && !top.value.JNull? && !top.value.JObj?) || (full.Some? && !full.value.JStr?)
  }

  // ------------------------------------------------------------------- lemmas

  /** What the status says, for every tree: the text at status.overallStatus;
      nothing if one of the two is missing (or status is null); an error if the
      status is something else than a map, or the field than a text. */
  lemma OverallStatusExactly(o: Object, s: string)
    ensures var top, full := Lookup(o, ["status"]), Lookup(o, ["status", "overallStatus"]);
            && (OverallStatus(o) == Ok(Some(s)) <==> full == Some(JStr(s)))
            && (OverallStatus(o) == Ok(None) <==> full.None? && (top.Some? ==> top.value.JNull? || top.value.JObj?))
            && (OverallStatus(o).Err? <==> Malformed(o))
  {
    assert ["status", "overallStatus"][1..] == ["overallStatus"];
  }

  lemma SaysReadyExactly(o: Object)
    ensures OverallStatus(o) == Ok(Some("Ready")) <==> SaysReady(o)
  {
    OverallStatusExactly(o, "Ready");
  }

  /** A ping sets one label and touches nothing else. */
  lemma PingExactly(cfg: OLSConfig, value: string)
    ensures var r := PingOLSConfig(cfg, value);
            && "openstack-lightspeed/ping" in r.labels && r.labels["openstack-lightspeed/ping"] == value
            && r.labels.Keys == cfg.labels.Keys + {"openstack-lightspeed/ping"}
            && (forall l :: l in cfg.labels && l != "openstack-lightspeed/ping" ==> r.labels[l] == cfg.labels[l])
            && r.body == cfg.body && r.finalizers == cfg.finalizers && r.deleting == cfg.deleting
  {
  }

  /** Every path i1 writes is written by i2 too, exactly when i2 writes the
      CA reference or i1 does not. */
  lemma ManagedCovers(st: Settings, i1: Instance, i2: Instance, k: nat)
    requires i2.spec.tlsCACertBundle != "" || i1.spec.tlsCACertBundle == ""
    requires k < |Managed(st, i1)|
    ensures Touches(Managed(st, i2), Managed(st, i1)[k].path)
  {
    var off1, off2 := |CaWrites(i1.spec)|, |CaWrites(i2.spec)|;
    var j := if k < 2 + off1 then k else k - off1 + off2;
    assert Managed(st, i2)[j].path == Managed(st, i1)[k].path;
  }

  lemma TreeAbsorption(st: Settings, i1: Instance, i2: Instance, o: Object)
    requires i2.spec.tlsCACertBundle != "" || i1.spec.tlsCACertBundle == ""
    requires WriteAll(o, Managed(st, i1)).Ok?
    ensures WriteAll(WriteAll(o, Managed(st, i1)).value, Managed(st, i2)) == WriteAll(o, Managed(st, i2))
  {
    ManagedApart(st, i2);
    var ws1 := Managed(st, i1);
    forall k | 0 <= k < |ws1| ensures Touches(Managed(st, i2), ws1[k].path) {
      ManagedCovers(st, i1, i2, k);
    }
    Absorption(o, ws1, Managed(st, i2));
  }

  /** Patching with i1 and then with i2 equals patching with i2 alone on every
      object exactly when i2 writes the CA reference or i1 does not. */
  lemma PatchAbsorption(st: Settings, u: Uid, i1: Instance, i2: Instance, cfg: OLSConfig)
    requires i2.spec.tlsCACertBundle != "" || i1.spec.tlsCACertBundle == ""
    requires PatchOLSConfig(st, u, i1, cfg).Ok?
    requires i2.status.conditions != map[] || PatchOLSConfig(st, u, i2, PatchOLSConfig(st, u, i1, cfg).value).Ok?
    ensures PatchOLSConfig(st, u, i2, PatchOLSConfig(st, u, i1, cfg).value) == PatchOLSConfig(st, u, i2, cfg)
  {
    TreeAbsorption(st, i1, i2, cfg.body);
    assert WithOwner(WithOwner(cfg.labels, u), u) == WithOwner(cfg.labels, u);
  }

  const EMPTY_CONFIG := OLSConfig(map[], map[], [], false)

  lemma EmptyIsOpen(st: Settings, u: Uid, i: Instance)
    ensures PatchOLSConfig(st, u, i, EMPTY_CONFIG).Ok?
  {
    ManagedApart(st, i);
    WriteAllIffOpen(map[], Managed(st, i));
  }

  /** The CA reference is apart from every other managed path. */
  lemma CaApart(st: Settings, i: Instance, k: nat)
    requires i.spec.tlsCACertBundle == "" && k < |Managed(st, i)|
    ensures Apart(Managed(st, i)[k].path, CA_PATH)
  {
    var p := Managed(st, i)[k].path;
    assert p[1] != CA_PATH[1] || p[2] != CA_PATH[2];
  }

  /** Absorption holds on all objects only under that condition: an instance
      without a bundle never clears the reference an earlier one set. */
  lemma AbsorptionExactly(st: Settings, u: Uid, i1: Instance, i2: Instance)
    requires i1.status.conditions != map[] && i2.status.conditions != map[]
    ensures (forall cfg :: PatchOLSConfig(st, u, i1, cfg).Ok? ==>
               PatchOLSConfig(st, u, i2, PatchOLSConfig(st, u, i1, cfg).value) == PatchOLSConfig(st, u, i2, cfg))
            <==> i2.spec.tlsCACertBundle != "" || i1.spec.tlsCACertBundle == ""
  {
    if i2.spec.tlsCACertBundle != "" || i1.spec.tlsCACertBundle == "" {
      forall cfg | PatchOLSConfig(st, u, i1, cfg).Ok?
        ensures PatchOLSConfig(st, u, i2, PatchOLSConfig(st, u, i1, cfg).value) == PatchOLSConfig(st, u, i2, cfg)
      {
        PatchAbsorption(st, u, i1, i2, cfg);
      }
    } else {
      CaSurvives(st, u, i1, i2);
    }
  }

  lemma CaSurvives(st: Settings, u: Uid, i1: Instance, i2: Instance)
    requires i2.spec.tlsCACertBundle == "" && i1.spec.tlsCACertBundle != ""
    requires i2.status.conditions != map[]
    ensures PatchOLSConfig(st, u, i1, EMPTY_CONFIG).Ok?
    ensures PatchOLSConfig(st, u, i2, PatchOLSConfig(st, u, i1, EMPTY_CONFIG).value)
            != PatchOLSConfig(st, u, i2, EMPTY_CONFIG)
  {
    EmptyIsOpen(st, u, i1);
    EmptyIsOpen(st, u, i2);
    var first := PatchOLSConfig(st, u, i1, EMPTY_CONFIG).value;
    ManagedApart(st, i1);
    assert Managed(st, i1)[2].path == CA_PATH;
    WriteAllReadsBack(map[], Managed(st, i1), 2);
    forall k | 0 <= k < |Managed(st, i2)| ensures Apart(Managed(st, i2)[k].path, CA_PATH) {
      CaApart(st, i2, k);
    }
    WriteAllFrame(map[], Managed(st, i2), CA_PATH);
    if PatchOLSConfig(st, u, i2, first).Ok? {
      WriteAllFrame(first.body, Managed(st, i2), CA_PATH);
    }
  }

  /** A patch succeeds exactly when no value blocks a managed path (and the
      finalizer is new or conditions were initialised); it then leaves every
      path apart from the managed ones, every label and every finalizer
      alone, and every managed path holds a value of the instance. */
  lemma PatchFrame(st: Settings, u: Uid, i: Instance, cfg: OLSConfig)
    ensures PatchOLSConfig(st, u, i, cfg).Ok? <==>
              && (forall k :: 0 <= k < |Managed(st, i)| ==> Open(cfg.body, Managed(st, i)[k].path))
              && (st.finalizer in cfg.finalizers ==> i.status.conditions != map[])
    ensures PatchOLSConfig(st, u, i, cfg).Ok? ==>
              var r := PatchOLSConfig(st, u, i, cfg).value;
              && (forall k :: 0 <= k < |Managed(st, i)| ==>
                    Lookup(r.body, Managed(st, i)[k].path) == Some(Managed(st, i)[k].value))
              && (forall q: Path :: (forall k :: 0 <= k < |Managed(st, i)| ==> Apart(Managed(st, i)[k].path, q)) ==>
                    Lookup(r.body, q) == Lookup(cfg.body, q))
              && (i.spec.tlsCACertBundle == "" ==> Lookup(r.body, CA_PATH) == Lookup(cfg.body, CA_PATH))
              && r.labels.Keys == cfg.labels.Keys + {OWNER_LABEL}
              && (forall l :: l in cfg.labels ==> r.labels[l] == cfg.labels[l])
              && (OWNER_LABEL !in cfg.labels ==> r.Owner() == u)
              && cfg.finalizers <= r.finalizers && st.finalizer in r.finalizers
              && (forall f :: f in r.finalizers ==> f == st.finalizer || f in cfg.finalizers)
              && r.deleting == cfg.deleting
  {
    ManagedApart(st, i);
    WriteAllIffOpen(cfg.body, Managed(st, i));
    if PatchOLSConfig(st, u, i, cfg).Ok? {
      forall k | 0 <= k < |Managed(st, i)|
        ensures Lookup(WriteAll(cfg.body, Managed(st, i)).value, Managed(st, i)[k].path) == Some(Managed(st, i)[k].value)
      {
        WriteAllReadsBack(cfg.body, Managed(st, i), k);
      }
      forall q: Path | forall k :: 0 <= k < |Managed(st, i)| ==> Apart(Managed(st, i)[k].path, q)
        ensures Lookup(WriteAll(cfg.body, Managed(st, i)).value, q) == Lookup(cfg.body, q)
      {
        WriteAllFrame(cfg.body, Managed(st, i), q);
      }
      if i.spec.tlsCACertBundle == "" {
        forall k | 0 <= k < |Managed(st, i)| ensures Apart(Managed(st, i)[k].path, CA_PATH) {
          CaApart(st, i, k);
        }
        WriteAllFrame(cfg.body, Managed(st, i), CA_PATH);
      }
    }
  }

  /** A text field of a RAG entry. */
  function Field(entry: Json, k: string): Option<string> {
    if entry.JObj? && k in entry.fields && entry.fields[k].JStr? then Some(entry.fields[k].s) else None
  }

  predicate IsOpenStackEntry(entry: Json, image: string) {
    && Field(entry, "image") == Some(image) && Field(entry, "indexPath") == Some("/rag/vector_db/os_product_docs")
    && entry.fields.Keys == {"image", "indexPath"}
  }

  /** An OCP entry; `version` is what its index name is meant to encode. */
  predicate IsOcpEntry(entry: Json, image: string, version: string) {
    && Field(entry, "image") == Some(image)
    && Field(entry, "indexPath") == Some("/rag/ocp_vector_db/ocp_" + version)
    && Field(entry, "indexID") == Some(GetOCPIndexName(version))
    && entry.fields.Keys == {"image", "indexPath", "indexID"}
  }

  lemma RagEntries(image: string, version: string)
    ensures var rags := BuildRAGConfigs(image, version);
            && IsOpenStackEntry(rags[0], image)
            && (version != "" ==> IsOcpEntry(rags[1], image, version))
  {
    var rags := BuildRAGConfigs(image, version);
    NamesExactly(version);
    assert "image" in rags[0].fields && "indexPath" in rags[0].fields;
    assert version != "" ==> "image" in rags[1].fields && "indexPath" in rags[1].fields && "indexID" in rags[1].fields;
  }

  /** An underscore in the active version comes from an override. */
  lemma ActiveUnderscore(fetched: Option<string>, override: string, enabled: bool)
    requires Resolve(fetched, override, enabled).active != ""
    ensures '_' in Resolve(fetched, override, enabled).active <==> '_' in override
  {
    ResolutionEndToEnd(fetched, override, enabled);
  }

  /** The RAG list a patch leaves in the tree, from the fetched version string
      on: the OpenStack documentation first, an OCP entry after it exactly when
      OCP RAG is enabled and a version was detected, and the version can be
      read back from that entry's index name exactly when no override hides it
      with an underscore. */
  lemma RagListEndToEnd(st: Settings, u: Uid, i: Instance, cfg: OLSConfig, fetched: Option<string>)
    requires i.status.activeOcpVersion == Resolve(fetched, i.spec.ocpVersionOverride, i.spec.enableOcpRag).active
    requires PatchOLSConfig(st, u, i, cfg).Ok?
    ensures var entry := Lookup(PatchOLSConfig(st, u, i, cfg).value.body, ["spec", "ols", "rag"]);
            entry.Some? && entry.value.JArr? && RagListOk(entry.value.items, i, fetched)
  {
    var v := i.status.activeOcpVersion;
    ManagedApart(st, i);
    assert Managed(st, i)[1].path == RAG_PATH;
    WriteAllReadsBack(cfg.body, Managed(st, i), 1);
    RagListResolved(i, fetched);
  }

  predicate RagListOk(rags: seq<Json>, i: Instance, fetched: Option<string>) {
    && (|rags| == 1 || |rags| == 2) && IsOpenStackEntry(rags[0], i.spec.ragImage)
    && (|rags| == 2 <==> i.spec.enableOcpRag && DetectOCPVersion(fetched).Ok?)
    && (|rags| == 2 ==>
          && IsOcpEntry(rags[1], i.spec.ragImage, i.status.activeOcpVersion)
          && |Field(rags[1], "indexID").value| > |OCP_INDEX_PREFIX|
          && (VersionOfIndex(Field(rags[1], "indexID").value) == i.status.activeOcpVersion
              <==> '_' !in i.spec.ocpVersionOverride))
  }

  lemma RagListResolved(i: Instance, fetched: Option<string>)
    requires i.status.activeOcpVersion == Resolve(fetched, i.spec.ocpVersionOverride, i.spec.enableOcpRag).active
    ensures RagListOk(BuildRAGConfigs(i.spec.ragImage, i.status.activeOcpVersion), i, fetched)
  {
    var v := i.status.activeOcpVersion;
    RagEntries(i.spec.ragImage, v);
    ResolutionEndToEnd(fetched, i.spec.ocpVersionOverride, i.spec.enableOcpRag);
    IndexNameRoundTrip(v);
    if v != "" { ActiveUnderscore(fetched, i.spec.ocpVersionOverride, i.spec.enableOcpRag); }
  }

  lemma MergeIsPatchWith(f: string, u: Uid, noConditions: bool, ws: seq<Write>, cfg: OLSConfig)
    requires PathsApart(ws) && PatchWith(f, u, noConditions, ws, cfg).Ok?
    ensures MergeWith(f, u, ws, cfg, cfg) == PatchWith(f, u, noConditions, ws, cfg).value
  {
    MergeIsWrite(cfg.body, cfg.body, ws);
    assert WithOwner(cfg.labels, u) == if OWNER_LABEL in cfg.labels then cfg.labels else cfg.labels[OWNER_LABEL := u];
  }

  /** Without interference the merge patch writes what was computed locally. */
  lemma MergeIsPatch(st: Settings, u: Uid, i: Instance, cfg: OLSConfig)
    requires PatchOLSConfig(st, u, i, cfg).Ok?
    ensures MergeOLSConfig(st, u, i, cfg, cfg) == PatchOLSConfig(st, u, i, cfg).value
  {
    ManagedApart(st, i);
    MergeIsPatchWith(st.finalizer, u, i.status.conditions == map[], Managed(st, i), cfg);
  }

  /** The tree as the instance wants it, at the paths of the OLSConfig API. */
  predicate Configured(st: Settings, spec: Spec, body: Object) {
    && HoldsProvider(spec, Lookup(body, ["spec", "llm", "providers"]))
    && CaReference(spec, body) && Defaults(st, spec, body) && DataCollection(spec, body)
  }

  predicate CaReference(spec: Spec, body: Object) {
    spec.tlsCACertBundle != "" ==>
      Lookup(body, ["spec", "ols", "additionalCAConfigMapRef", "name"]) == Some(JStr(spec.tlsCACertBundle))
  }

  predicate Defaults(st: Settings, spec: Spec, body: Object) {
    && Lookup(body, ["spec", "ols", "defaultModel"]) == Some(JStr(spec.modelName))
    && Lookup(body, ["spec", "ols", "defaultProvider"]) == Some(JStr("openstack-lightspeed-provider"))
    && Lookup(body, ["spec", "ols", "byokRAGOnly"]) == Some(JBool(true))
    && Lookup(body, ["spec", "ols", "querySystemPrompt"]) == Some(JStr(st.systemPrompt))
  }

  predicate DataCollection(spec: Spec, body: Object) {
    && Lookup(body, ["spec", "ols", "userDataCollection", "feedbackDisabled"]) == Some(JBool(spec.feedbackDisabled))
    && Lookup(body, ["spec", "ols", "userDataCollection", "transcriptsDisabled"]) == Some(JBool(spec.transcriptsDisabled))
  }

  /** A list of exactly one provider, the instance's. */
  predicate HoldsProvider(spec: Spec, entry: Option<Json>) {
    && entry.Some? && entry.value.JArr? && |entry.value.items| == 1 && entry.value.items[0].JObj?
    && IsProvider(entry.value.items[0].fields, spec) && InnerFields(entry.value.items[0].fields)
  }

  /** A successful patch configures the tree. */
  lemma PatchedExactly(st: Settings, u: Uid, i: Instance, cfg: OLSConfig)
    requires PatchOLSConfig(st, u, i, cfg).Ok?
    ensures Configured(st, i.spec, PatchOLSConfig(st, u, i, cfg).value.body)
  {
    PatchFrame(st, u, i, cfg);
    WritesConfigure(st, i, PatchOLSConfig(st, u, i, cfg).value.body);
  }

  lemma WritesConfigure(st: Settings, i: Instance, body: Object)
    requires forall k :: 0 <= k < |Managed(st, i)| ==> Lookup(body, Managed(st, i)[k].path) == Some(Managed(st, i)[k].value)
    ensures Configured(st, i.spec, body)
  {
    var ws := Managed(st, i);
    ProviderRoundTrip(i.spec);
    var n := 2 + |CaWrites(i.spec)|;
    assert ws[0] == Write(PROVIDERS_PATH, JArr([JObj(Provider(i.spec))]));
    if i.spec.tlsCACertBundle != "" { assert ws[2] == Write(CA_PATH, JStr(i.spec.tlsCACertBundle)); }
    assert ws[n] == Write(MODEL_PATH, JStr(i.spec.modelName)) && ws[n + 1] == Write(PROVIDER_PATH, JStr(DEFAULT_PROVIDER));
    assert ws[n + 2] == Write(BYOK_PATH, JBool(true)) && ws[n + 3] == Write(FEEDBACK_PATH, JBool(i.spec.feedbackDisabled));
    assert ws[n + 4] == Write(TRANSCRIPTS_PATH, JBool(i.spec.transcriptsDisabled)) && ws[n + 5] == Write(PROMPT_PATH, JStr(st.systemPrompt));
  }

  /** What an instance has reached with its patch: `read` is the copy it was
      computed from, `cur` the server's object by the time of the write, m the
      result.  Every managed path holds the instance's value in m, or held it
      in the copy; the same for the owner label and the finalizer; and all of
      it holds in m if nobody moved in between. */
  predicate Delivered(f: string, u: Uid, ws: seq<Write>, read: Option<OLSConfig>, cur: Option<OLSConfig>, m: OLSConfig) {
    && (forall k :: 0 <= k < |ws| ==>
          Lookup(m.body, ws[k].path) == Some(ws[k].value) || (read.Some? && Lookup(read.value.body, ws[k].path) == Some(ws[k].value)))
    && (m.Owner() == u || (read.Some? && OWNER_LABEL in read.value.labels))
    && (f in m.finalizers || (read.Some? && f in read.value.finalizers))
    && (read == cur ==>
          && (forall k :: 0 <= k < |ws| ==> Lookup(m.body, ws[k].path) == Some(ws[k].value)) && f in m.finalizers)
  }

  lemma PatchDelivers(st: Settings, u: Uid, i: Instance, read: Option<OLSConfig>, patched: OLSConfig)
    requires PatchOLSConfig(st, u, i, if read.Some? then read.value else EMPTY_CONFIG) == Ok(patched)
    ensures Delivered(st.finalizer, u, Managed(st, i), read, read, patched)
  {
    PatchFrame(st, u, i, if read.Some? then read.value else EMPTY_CONFIG);
  }

  lemma MergeDelivers(st: Settings, u: Uid, i: Instance, read: OLSConfig, patched: OLSConfig, cur: OLSConfig)
    requires PatchOLSConfig(st, u, i, read) == Ok(patched)
    ensures Delivered(st.finalizer, u, Managed(st, i), Some(read), Some(cur), MergeOLSConfig(st, u, i, read, cur))
  {
    if read == cur {
      MergeIsPatch(st, u, i, read);
      PatchDelivers(st, u, i, Some(read), patched);
    } else {
      MergeWithDelivers(st.finalizer, u, Managed(st, i), read, cur) by { ManagedApart(st, i); }
    }
  }

  lemma MergeWithDelivers(f: string, u: Uid, ws: seq<Write>, read: OLSConfig, cur: OLSConfig)
    requires PathsApart(ws) && read != cur
    ensures Delivered(f, u, ws, Some(read), Some(cur), MergeWith(f, u, ws, read, cur))
  {
    forall k | 0 <= k < |ws|
      ensures Lookup(MergeAll(read.body, cur.body, ws), ws[k].path) == Some(ws[k].value) || Lookup(read.body, ws[k].path) == Some(ws[k].value)
    {
      MergeAllReadsBack(read.body, cur.body, ws, k);
    }
  }

  /** Who owns an OLSConfig after a patch: the patching instance exactly when
      the label was absent or its own; a label that is there but empty stays
      empty, although the finalizer is added. */
  lemma OwnerAfterPatch(st: Settings, u: Uid, i: Instance, cfg: OLSConfig)
    requires PatchOLSConfig(st, u, i, cfg).Ok?
    ensures var r := PatchOLSConfig(st, u, i, cfg).value;
            && (r.Owner() == u <==> OWNER_LABEL !in cfg.labels || cfg.Owner() == u)
            && (OWNER_LABEL in cfg.labels ==> r.Owner() == cfg.Owner())
            && "openstack.org/lightspeed-owner-id" in r.labels && r.labels["openstack.org/lightspeed-owner-id"] == r.Owner()
            && st.finalizer in r.finalizers
  {
    PatchFrame(st, u, i, cfg);
  }

  /** Pinging and patching commute, errors included. */
  lemma PingCommutes(st: Settings, u: Uid, i: Instance, cfg: OLSConfig, x: string)
    ensures PatchOLSConfig(st, u, i, cfg).Ok? <==> PatchOLSConfig(st, u, i, PingOLSConfig(cfg, x)).Ok?
    ensures PatchOLSConfig(st, u, i, cfg).Ok? ==>
              PatchOLSConfig(st, u, i, PingOLSConfig(cfg, x)).value == PingOLSConfig(PatchOLSConfig(st, u, i, cfg).value, x)
  {
    assert OWNER_LABEL[0..10] == "openstack." && PING_LABEL[0..10] == "openstack-";
    assert WithOwner(cfg.labels[PING_LABEL := x], u) == WithOwner(cfg.labels, u)[PING_LABEL := x];
  }

  lemma PingOwner(cfg: OLSConfig, x: string)
    ensures PingOLSConfig(cfg, x).Owner() == cfg.Owner()
  {
    assert OWNER_LABEL[0..10] == "openstack." && PING_LABEL[0..10] == "openstack-";
  }

  /** A change of the status part commutes with a patch. */
  lemma StatusCommutes(st: Settings, u: Uid, i: Instance, cfg: OLSConfig, status: Json)
    requires PatchOLSConfig(st, u, i, cfg).Ok?
    ensures var r := PatchOLSConfig(st, u, i, cfg).value;
            PatchOLSConfig(st, u, i, WithStatus(cfg, status)) == Ok(WithStatus(r, status))
  {
    forall k | 0 <= k < |Managed(st, i)| ensures Managed(st, i)[k].path[0] != "status" {
      assert Managed(st, i)[k].path[0] == "spec";
    }
    WriteAllBeside(cfg.body, "status", status, Managed(st, i));
  }

  /** The merge patch computed from `read` and applied to the same object with
      another status gives what patching that object gives. */
  lemma MergeOverStatus(st: Settings, u: Uid, i: Instance, read: OLSConfig, status: Json)
    requires PatchOLSConfig(st, u, i, read).Ok?
    ensures var cur := WithStatus(read, status);
            Ok(MergeOLSConfig(st, u, i, read, cur)) == PatchOLSConfig(st, u, i, cur)
  {
    var cur, ws := WithStatus(read, status), Managed(st, i);
    StatusCommutes(st, u, i, read, status);
    ManagedApart(st, i);
    forall k | 0 <= k < |ws| ensures Lookup(cur.body, ws[k].path) == Lookup(read.body, ws[k].path) {
      assert ws[k].path[0] == "spec";
    }
    MergeWithOver(st.finalizer, u, i.status.conditions == map[], ws, read, cur);
  }

  lemma MergeWithOver(f: string, u: Uid, noConditions: bool, ws: seq<Write>, read: OLSConfig, cur: OLSConfig)
    requires PathsApart(ws) && PatchWith(f, u, noConditions, ws, cur).Ok?
    requires cur.labels == read.labels && cur.finalizers == read.finalizers
    requires forall k :: 0 <= k < |ws| ==> Lookup(cur.body, ws[k].path) == Lookup(read.body, ws[k].path)
    ensures Ok(MergeWith(f, u, ws, read, cur)) == PatchWith(f, u, noConditions, ws, cur)
  {
    MergeIsWrite(read.body, cur.body, ws);
    assert WithOwner(cur.labels, u) == if OWNER_LABEL in cur.labels then cur.labels else cur.labels[OWNER_LABEL := u];
  }

  datatype Op = Ping(value: string) | Patch(inst: Instance)

  /** A history of pings and patches of one instance. */
  function Replay(st: Settings, u: Uid, cfg: OLSConfig, ops: seq<Op>): Result<OLSConfig>
    decreases |ops|
  {
    if ops == [] then Ok(cfg)
    else match ops[0]
      case Ping(x) => Replay(st, u, PingOLSConfig(cfg, x), ops[1..])
      case Patch(i) =>
        var next :- PatchOLSConfig(st, u, i, cfg);
        Replay(st, u, next, ops[1..])
  }

  function WithoutPings(ops: seq<Op>): seq<Op> {
    if ops == [] then []
    else if ops[0].Ping? then WithoutPings(ops[1..])
    else [ops[0]] + WithoutPings(ops[1..])
  }

  ghost predicate SameButPing(a: OLSConfig, b: OLSConfig) {
    && a.body == b.body && a.finalizers == b.finalizers && a.deleting == b.deleting
    && a.labels - {PING_LABEL} == b.labels - {PING_LABEL}
  }

  /** However pings are interleaved with patches, the tree, the finalizers, the
      owner and all other labels are those of the patches alone. */
  lemma {:induction false} PingsAlterNothing(st: Settings, u: Uid, a: OLSConfig, b: OLSConfig, ops: seq<Op>)
    requires SameButPing(a, b)
    ensures Replay(st, u, a, ops).Ok? <==> Replay(st, u, b, WithoutPings(ops)).Ok?
    ensures Replay(st, u, a, ops).Ok? ==>
              SameButPing(Replay(st, u, a, ops).value, Replay(st, u, b, WithoutPings(ops)).value)
    decreases |ops|
  {
    if ops != [] {
      var rest := ops[1..];
      match ops[0]
      case Ping(x) =>
        assert (a.labels[PING_LABEL := x]) - {PING_LABEL} == a.labels - {PING_LABEL};
        PingsAlterNothing(st, u, PingOLSConfig(a, x), b, rest);
      case Patch(i) =>
        assert WithoutPings(ops)[0] == ops[0] && WithoutPings(ops)[1..] == WithoutPings(rest);
        PatchSameButPing(st, u, i, a, b);
        if PatchOLSConfig(st, u, i, a).Ok? {
          PingsAlterNothing(st, u, PatchOLSConfig(st, u, i, a).value, PatchOLSConfig(st, u, i, b).value, rest);
        }
    }
  }

  lemma PatchSameButPing(st: Settings, u: Uid, i: Instance, a: OLSConfig, b: OLSConfig)
    requires SameButPing(a, b)
    ensures PatchOLSConfig(st, u, i, a).Ok? <==> PatchOLSConfig(st, u, i, b).Ok?
    ensures PatchOLSConfig(st, u, i, a).Ok? ==>
              SameButPing(PatchOLSConfig(st, u, i, a).value, PatchOLSConfig(st, u, i, b).value)
  {
    assert OWNER_LABEL[0..10] == "openstack." && PING_LABEL[0..10] == "openstack-";
    var base := map[OWNER_LABEL := u];
    assert WithOwner(a.labels, u) - {PING_LABEL} == base + (a.labels - {PING_LABEL});
    assert WithOwner(b.labels, u) - {PING_LABEL} == base + (b.labels - {PING_LABEL});
  }
}
