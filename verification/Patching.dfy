/** PatchOLSConfig and OLSConfigPing as the source writes them: a mutable
    object, one nested field after the other (funcs.go). */
module Patching {
  import opened Wrappers
  import opened Json
  import opened Cluster
  import opened OlsConfig

  lemma {:induction false} WriteAllSplit(o: Object, ws1: seq<Write>, ws2: seq<Write>)
    ensures WriteAll(o, ws1).Err? ==> WriteAll(o, ws1 + ws2) == WriteAll(o, ws1)
    ensures WriteAll(o, ws1).Ok? ==> WriteAll(o, ws1 + ws2) == WriteAll(WriteAll(o, ws1).value, ws2)
    decreases |ws1|
  {
    if ws1 == [] {
      assert ws1 + ws2 == ws2;
    } else {
      assert (ws1 + ws2)[0] == ws1[0] && (ws1 + ws2)[1..] == ws1[1..] + ws2;
      var first := SetNested(o, ws1[0].path, ws1[0].value);
      if first.Ok? { WriteAllSplit(first.value, ws1[1..], ws2); }
    }
  }

  /** Write number n extends the writes before it, or the list cannot be
      written at all. */
  lemma OneMore(o: Object, ws: seq<Write>, n: nat, body: Object)
    requires n < |ws| && WriteAll(o, ws[..n]) == Ok(body)
    ensures SetNested(body, ws[n].path, ws[n].value).Ok? ==> WriteAll(o, ws[..n + 1]) == SetNested(body, ws[n].path, ws[n].value)
    ensures SetNested(body, ws[n].path, ws[n].value).Err? ==> WriteAll(o, ws) == Err(BLOCKED)
  {
    assert ws[..n] + [ws[n]] == ws[..n + 1] && ws[..n + 1] + ws[n + 1..] == ws;
    WriteAllSplit(o, ws[..n], [ws[n]]);
    WriteAllSplit(o, ws[..n + 1], ws[n + 1..]);
    assert [ws[n]][1..] == [];
  }

  /** The copy of the OLSConfig a pass works on. */
  class Unstructured {
    var body: Object
    var labels: map<string, string>
    var finalizers: seq<string>
    const deleting: bool

    constructor (cfg: OLSConfig)
      ensures Value() == cfg
    {
      body, labels, finalizers, deleting := cfg.body, cfg.labels, cfg.finalizers, cfg.deleting;
    }

    function Value(): OLSConfig
      reads this
    {
      OLSConfig(body, labels, finalizers, deleting)
    }

    /** uns.SetNestedField and uns.SetNestedSlice, as write number n of the
        list ws that is applied to the tree `start`. */
    method Set(path: Path, value: Json, ghost start: Object, ghost ws: seq<Write>, ghost n: nat) returns (ok: bool)
      requires n < |ws| && ws[n] == Write(path, value) && WriteAll(start, ws[..n]) == Ok(body)
      modifies this`body
      ensures ok ==> WriteAll(start, ws[..n + 1]) == Ok(body)
      ensures !ok ==> WriteAll(start, ws) == Err(BLOCKED)
    {
      OneMore(start, ws, n, body);
      var r := SetNested(body, path, value);
      ok := r.Ok?;
      if ok { body := r.value; }
    }

    /** The provider entry, with the optional fields that are not empty. */
    static method BuildProvider(spec: Spec) returns (provider: Object)
      ensures provider == Provider(spec)
    {
      provider := map[
        "credentialsSecretRef" := JObj(map["name" := JStr(spec.llmCredentials)]),
        "models" := JArr([JObj(map[
          "name" := JStr(spec.modelName),
          "parameters" := JObj(map["maxTokensForResponse" := JNum(spec.maxTokensForResponse)])])]),
        "name" := JStr(DEFAULT_PROVIDER),
        "type" := JStr(spec.llmEndpointType),
        "url" := JStr(spec.llmEndpoint)];
      if spec.llmProjectID != "" { provider := provider["projectID" := JStr(spec.llmProjectID)]; }
      if spec.llmDeploymentName != "" { provider := provider["deploymentName" := JStr(spec.llmDeploymentName)]; }
      if spec.llmAPIVersion != "" { provider := provider["apiVersion" := JStr(spec.llmAPIVersion)]; }
    }

    /** The tree part of PatchOLSConfig: one write after the other, the rest
        being skipped after an error. */
    method PatchTree(st: Settings, i: Instance) returns (ok: bool)
      modifies this`body
      ensures ok ==> WriteAll(old(body), Managed(st, i)) == Ok(body)
      ensures !ok ==> WriteAll(old(body), Managed(st, i)) == Err(BLOCKED)
    {
      ghost var start := body;
      ghost var ws := Managed(st, i);
      var provider := BuildProvider(i.spec);
      ok := Set(PROVIDERS_PATH, JArr([JObj(provider)]), start, ws, 0);
      if !ok { return; }
      ok := Set(RAG_PATH, JArr(BuildRAGConfigs(i.spec.ragImage, i.status.activeOcpVersion)), start, ws, 1);
      if !ok { return; }
      if i.spec.tlsCACertBundle != "" {
        ok := Set(CA_PATH, JStr(i.spec.tlsCACertBundle), start, ws, 2);
        if !ok { return; }
      }
      ok := PatchOptions(st, i, start, ws, 2 + |CaWrites(i.spec)|);
    }

    /** The writes after the CA reference. */
    method PatchOptions(st: Settings, i: Instance, ghost start: Object, ghost ws: seq<Write>, ghost n: nat) returns (ok: bool)
      requires n + 6 == |ws| && WriteAll(start, ws[..n]) == Ok(body)
      requires ws[n..] == [Write(MODEL_PATH, JStr(i.spec.modelName)), Write(PROVIDER_PATH, JStr(DEFAULT_PROVIDER)),
                           Write(BYOK_PATH, JBool(true)), Write(FEEDBACK_PATH, JBool(i.spec.feedbackDisabled)),
                           Write(TRANSCRIPTS_PATH, JBool(i.spec.transcriptsDisabled)), Write(PROMPT_PATH, JStr(st.systemPrompt))]
      modifies this`body
      ensures ok ==> WriteAll(start, ws) == Ok(body)
      ensures !ok ==> WriteAll(start, ws) == Err(BLOCKED)
    {
      assert forall k :: 0 <= k < 6 ==> ws[n + k] == ws[n..][k];
      ok := Set(MODEL_PATH, JStr(i.spec.modelName), start, ws, n);
      if !ok { return; }
      ok := Set(PROVIDER_PATH, JStr(DEFAULT_PROVIDER), start, ws, n + 1);
      if !ok { return; }
      ok := Set(BYOK_PATH, JBool(true), start, ws, n + 2);
      if !ok { return; }
      ok := Set(FEEDBACK_PATH, JBool(i.spec.feedbackDisabled), start, ws, n + 3);
      if !ok { return; }
      ok := Set(TRANSCRIPTS_PATH, JBool(i.spec.transcriptsDisabled), start, ws, n + 4);
      if !ok { return; }
      ok := Set(PROMPT_PATH, JStr(st.systemPrompt), start, ws, n + 5);
      assert ws[..n + 6] == ws;
    }

    /** The loop that merges the existing labels over the owner key, in
        whatever order the map yields them. */
    static method MergeLabels(labels: map<string, string>, key: string, value: string) returns (updated: map<string, string>)
      ensures updated == map[key := value] + labels
    {
      updated := map[key := value];
      var todo := labels.Keys;
      while todo != {}
        invariant forall k :: k in todo ==> k in labels
        invariant forall k :: k in labels && k !in todo ==> k in updated && updated[k] == labels[k]
        invariant forall k :: k in updated ==> k == key || k in labels
        invariant key in updated && (key !in labels ==> updated[key] == value)
        decreases |todo|
      {
        var k :| k in todo;
        updated := updated[k := labels[k]];
        todo := todo - {k};
      }
    }

    /** PatchOLSConfig. */
    method Patch(st: Settings, u: Uid, i: Instance) returns (err: Option<string>)
      modifies this
      ensures err.None? ==> PatchOLSConfig(st, u, i, old(Value())) == Ok(Value())
      ensures err.Some? ==> PatchOLSConfig(st, u, i, old(Value())) == Err(err.value)
    {
      var ok := PatchTree(st, i);
      if !ok { return Some(BLOCKED); }
      labels := MergeLabels(labels, OWNER_LABEL, u);
      var added := st.finalizer !in finalizers;
      if added { finalizers := finalizers + [st.finalizer]; }
      if !added && i.status.conditions == map[] { return Some("cannot add finalizer"); }
      return None;
    }

    /** The part of OLSConfigPing between the read and the update. */
    method Ping(value: string)
      modifies this`labels
      ensures Value() == PingOLSConfig(old(Value()), value)
    {
      labels := labels[PING_LABEL := value];
    }
  }

  /** A copy of cfg is patched. */
  method PatchCopy(st: Settings, u: Uid, i: Instance, cfg: OLSConfig) returns (r: Result<OLSConfig>)
    ensures r == PatchOLSConfig(st, u, i, cfg)
  {
    var copy := new Unstructured(cfg);
    var err := copy.Patch(st, u, i);
    return if err.Some? then Err(err.value) else Ok(copy.Value());
  }

  /** A copy of cfg is pinged. */
  method PingCopy(cfg: OLSConfig, value: string) returns (r: OLSConfig)
    ensures r == PingOLSConfig(cfg, value)
  {
    var copy := new Unstructured(cfg);
    copy.Ping(value);
    return copy.Value();
  }
}
