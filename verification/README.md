# OpenStack Lightspeed operator: verified reconcile protocol

The operator watches OpenStackLightspeed instances. For each of them it installs the
OpenShift Lightspeed (OLS) operator through OLM, claims and patches the one OLSConfig of
the cluster, reports Ready, and takes all of it down again in the opposite order. It
shares the cluster with OLM, users, the garbage collector and with its own passes over
other instances. This project models that protocol in Dafny and proves what it keeps over
whole runs.

Verify everything with `dafny verify dfyconfig.toml`.

## How the model is built

| file | content |
|---|---|
| `Json.dfy` | JSON trees, nested fields, lists of writes, merge patches |
| `OcpVersion.dfy` | version scanner, fallback, index names |
| `Cluster.dfy` | the shared objects and the API server's rules for them |
| `OlsConfig.dfy` | PatchOLSConfig, the ping, and the algebra of patches |
| `Patching.dfy` | the same patch as the source writes it: one mutable object, field after field |
| `Install.dfy` | names and selectors of the OLS installation |
| `Reconcile.dfy` | one pass as a machine with 27 stages, one API call per step |
| `Runs.dfy`, `Orphans.dfy`, `History.dfy` | runs of one instance's passes among arbitrary moves of others |
| `Worlds.dfy`, `Lock.dfy`, `Foreign.dfy` | any number of instances and an environment; the owner lock; foreign installations |
| `Overlap.dfy` | what two overlapping passes could do to each other |
| `Solo.dfy`, `Teardown.dfy`, `Convergence.dfy` | undisturbed passes: teardown progress, the gates on the way to Ready, stability |
| `Outcomes.dfy` | what an undisturbed pass reports, for every cluster: outcome, conditions, ping |
| `Stranded.dfy` | the two ways in which a teardown gets stuck, how long they last and what ends them |
| `Courses.dfy`, `Descent.dfy` | convergence and teardown over every interleaving of calls, faults and moves of others |
| `Operator.dfy` | the source's functions as methods of a class that reads and writes the cluster call by call; each of them extends a run of `Runs.Next` |

Between any two API calls of a pass everybody else may change the cluster, any call may
fail, and the operator may stop at any point. A pass keeps what it has read in its stage,
so a write is checked against the copy it was computed from. Each pass also keeps a log;
`History.LogIsHistory` shows that the log is a true, ordered account of the pass's own
calls, `History.WritesLogged` that no write of a Subscription, a plan or a CSV is missing
from it, and the order properties are read off it. (Of the writes of the OLSConfig only the
patch is logged; its release, Delete and ping are followed in `Lock.dfy` and `Stranded.dfy`.)

In `Operator.dfy` the moves of others and the answers of the API server are nondeterministic
assignments, and the ghost fields hold the run so far; `Valid()` says that it is a legal run
ending in the current cluster. So every theorem about runs applies to the methods.

### Assumptions

- Reads of the API are current. UIDs of distinct instances differ and have at least five
  characters (internal/controller/ols_install.go:410 slices them).
- The environment may change anything, but it does not write an instance's UID into an owner
  label or an owner reference, does not take the operator's finalizer off an instance or
  off the OLSConfig, and does not take deletion marks back (`Runs.Rely`, `Worlds.EnvOk`).
  Before its first pass an instance owns no CSV of another product (`Runs.Initial`).
- One finalizer string is shared by all instances; it is derived from the kind.
- Update and Create compare against the copy that was read. CreateOrPatch reads and then
  sends a JSON merge patch without a resource version, so it is applied to whatever is
  there by then; CreateOrUpdate sends nothing when the mutation changed nothing. A delete
  marks an object that has finalizers, a marked object disappears with its last finalizer,
  and no finalizer can be added to a marked object.
- `SetupWithManager` passes no options, hence one worker: `Lock.Serial`. Only
  `Lock.OwnerLock`, `Lock.HoldUntilRelease` and `Stranded.BereftUntilDelete` need it; what
  overlapping passes could do is stated in `Lock.OwnerChangesExactly` and
  `Overlap.OverlapSteals`.
- Conditions: Set replaces by type, Init sets the listed ones to Unknown,
  AllSubConditionIsTrue means that all conditions other than Ready are True, and Mirror
  gives False if one of them is False and Unknown otherwise.
- A NotFound error when listing CSVs means that there are none.

### Where the code differs from its comments

- RemoveOLSConfig "skips" a foreign OLSConfig only inside the closure; the Delete is
  still issued (internal/controller/funcs.go:94-109). `Lock.OwnerLock` shows why
  the owner's finalizer still protects it.
- If the Delete after the removal of the finalizer fails, or the operator stops between
  the two calls, every later delete pass of the owner fails with "remove finalizer failed"
  and changes nothing: `Stranded.FailedDeleteStrands` and `Stranded.BereftUntilDelete`. The one
  way out inside the operator is the Delete that another instance's delete pass issues for a
  foreign OLSConfig: `Stranded.ForeignDeleteExactly` and `Stranded.Rescue`.
- Existing labels win over the new owner label (internal/controller/funcs.go:275-280), so an
  owner label that is present but empty stays empty: `OlsConfig.OwnerAfterPatch` says exactly
  who owns an OLSConfig after a patch. The patch adds the operator's finalizer all the same
  (`Stranded.PatchLeavesOwnerless`), and with such a label, or one that names no instance, no
  pass of any instance ever takes it off again, so no instance that is deleted is ever let go
  unless someone outside the operator steps in: `Stranded.LostForever`.
- `Teardown.TeardownProgress` says exactly when a delete pass makes no progress, and
  `Teardown.StallsExactly` tells the stalls that wait for somebody from these two.
- A plan is deleted "to prevent leftovers", but an instance is let go with matching plans
  left behind; `Teardown.PlanLeftExactly` says when.
- The CA reference is never cleared, so one patch absorbs another exactly under the condition in
  `OlsConfig.AbsorptionExactly`.
- Versions are matched by suffix, so 1.0.0 also selects 11.0.0: `Install.SelectorConfusesSuffixes`.
- Only the first matching CSV is considered; `Worlds.ReleaseOrphansExactly` says when
  that leaves an owned CSV behind.
- The documentation of activeOCPRAGVersion promises "4.16", "4.18", "latest" or empty, but an
  override is taken as it is (api/v1beta1/openstacklightspeed_types.go:125-127); the exact
  condition is in `OcpVersion.ResolutionEndToEnd`.
- An owner label can be overwritten if two passes overlap: `Lock.OwnerChangesExactly`,
  `Overlap.OverlapSteals`. One worker rules that out.

## Model

| member | source | states |
|---|---|---|
| `Json.OpenIffSettable` | internal/controller/funcs.go:217-272 | setting a nested field succeeds exactly when every proper prefix of the path is missing or a map |
| `Json.SetThenLookup` | internal/controller/funcs.go:217-272 | a written value is read back, and every path neither above nor below is unchanged |
| `Json.SetTwice` | internal/controller/funcs.go:217-272 | the second of two writes to a path wins on every tree |
| `Json.SetCommutes` | internal/controller/funcs.go:217-272 | writes to paths that are apart commute on every tree, errors included |
| `Json.OverwrittenLater` | internal/controller/funcs.go:217-272 | a write whose path is written again by a later list leaves no trace |
| `Json.Absorption` | internal/controller/funcs.go:217-272 | a list of writes whose paths are all written again makes no difference, on every tree |
| `Json.WriteAllIffOpen` | internal/controller/funcs.go:217-272 | a list of writes succeeds exactly when the original tree blocks none of its paths |
| `Json.MergeIsWrite` | internal/controller/openstacklightspeed_controller.go:211-231 | the merge patch CreateOrPatch sends reproduces the locally written tree if nothing moved meanwhile |
| `Json.MergeAllReadsBack` | internal/controller/openstacklightspeed_controller.go:211-231 | what a merge patch leaves at a written path of whatever the object has become: the value, or what is there if the copy had the value already |
| `OcpVersion.ScannerRefinesLanguage` | internal/controller/ocp_version.go:93-103 | parsing succeeds exactly when some prefix is digits-dot-digits and returns the longest one |
| `OcpVersion.ParseIdempotent` | internal/controller/ocp_version.go:93-103 | parsing a parsed version returns it |
| `OcpVersion.ResolutionEndToEnd` | internal/controller/openstacklightspeed_controller.go:271-346 | invalid-override branch unreachable; active version empty iff disabled or undetected; fallback exactly for unsupported detected versions without override; documented values exactly when no other override is honoured |
| `OcpVersion.ResolvedExactly` | internal/controller/ocp_version.go:82-154 | the active version for every fetched string, override and switch: the override, else the longest digits-dot-digits prefix if that is 4.16 or 4.18, else "latest"; none if disabled or nothing matches |
| `OcpVersion.NamesExactly` | internal/controller/ocp_version.go:105-121 | index name and vector DB path in full, character by character |
| `OcpVersion.IndexNameRoundTrip` | internal/controller/ocp_version.go:109-113 | the version is recovered from its index name exactly when it has no underscore |
| `OcpVersion.ActiveVersionsRoundTrip` | internal/controller/ocp_version.go:133-154 | every version resolved without an override is recovered from its index name |
| `OcpVersion.NamesInjective` | internal/controller/ocp_version.go:93-121 | index names injective over parsed versions and "latest", vector DB paths over all strings |
| `OlsConfig.ManagedApart` | internal/controller/funcs.go:217-272 | no managed path is above or below another |
| `OlsConfig.ProviderRoundTrip` | internal/controller/funcs.go:179-215 | every field of the instance can be read back from the provider entry |
| `OlsConfig.ProviderFields` | internal/controller/funcs.go:197-215 | an optional field is present exactly when it is not empty, and there are no other fields |
| `OlsConfig.PatchAbsorption` | internal/controller/funcs.go:173-293 | patching with i1 then i2 equals patching with i2 alone if i2 sets a CA bundle or i1 does not; idempotence is i1 = i2 |
| `OlsConfig.AbsorptionExactly` | internal/controller/funcs.go:229-235 | that condition is necessary: absorption on all objects holds if and only if it does |
| `OlsConfig.CaSurvives` | internal/controller/funcs.go:229-235 | the concrete object on which a CA reference set before is never cleared |
| `OlsConfig.PatchFrame` | internal/controller/funcs.go:178-290 | success exactly when nothing blocks; all paths apart from the managed ones, the CA reference without a bundle, all labels and finalizers are kept; owner and finalizer are added |
| `OlsConfig.PatchedExactly` | internal/controller/funcs.go:179-272 | a successful patch leaves, at the paths of the OLSConfig API by name, exactly one provider with the instance's fields, the CA reference if there is a bundle, default model and provider, byokRAGOnly, both data collection flags and the system prompt |
| `OlsConfig.OverallStatusExactly` | internal/controller/funcs.go:302-309 | for every tree: the text at status.overallStatus, nothing if it is missing, an error exactly if status is no map or the field no text |
| `OlsConfig.PingExactly` | internal/controller/funcs.go:354-363 | one label is set, nothing else changes |
| `OlsConfig.OwnerAfterPatch` | internal/controller/funcs.go:274-290 | the patching instance owns the result exactly when the owner label was absent or its own; an empty label stays empty, the finalizer is added |
| `OlsConfig.MergeDelivers` | internal/controller/openstacklightspeed_controller.go:211-231 | after the merge patch every managed path holds the instance's value or held it in the copy that was read, and all of them hold if nobody moved |
| `OlsConfig.RagListEndToEnd` | internal/controller/funcs.go:151-170 | from the fetched version string to the RAG list in the patched tree: OpenStack entry first, OCP entry iff enabled and detected, version recoverable from its index name iff the override has no underscore |
| `OlsConfig.MergeIsPatch` | internal/controller/openstacklightspeed_controller.go:211-231 | without interference CreateOrPatch stores what PatchOLSConfig computed |
| `OlsConfig.PingCommutes` | internal/controller/funcs.go:346-370 | pinging and patching commute on every object, errors included |
| `OlsConfig.PingsAlterNothing` | internal/controller/funcs.go:346-370 | any interleaving of pings with patches gives the tree, finalizers and other labels of the patches alone |
| `OlsConfig.StatusCommutes` | internal/controller/funcs.go:296-312 | a change of the status part commutes with a patch |
| `OlsConfig.MergeOverStatus` | internal/controller/openstacklightspeed_controller.go:211-231 | a status change between read and write makes no difference to what CreateOrPatch stores |
| `Patching.Unstructured.Set` | internal/controller/funcs.go:217-272 | one nested write extends the writes so far, or the whole list cannot be written |
| `Patching.Unstructured.PatchTree` | internal/controller/funcs.go:217-272 | the sequence of writes with early returns makes exactly the managed writes (whose values `OlsConfig.PatchedExactly` gives path by path), or fails exactly when one of them is blocked |
| `Patching.Unstructured.MergeLabels` | internal/controller/funcs.go:275-280 | the loop over the labels, in any order, gives the owner label overridden by existing labels |
| `Patching.Unstructured.Patch` | internal/controller/funcs.go:173-293 | the in-place patch equals the specification, with the same errors |
| `Patching.Unstructured.Ping` | internal/controller/funcs.go:354-363 | sets the ping label and nothing else |
| `Patching.PatchCopy` | internal/controller/funcs.go:173-293 | patching a copy in place yields PatchOLSConfig of the original |
| `Install.FirstCsvIsLeast` | internal/controller/ols_install.go:222-228 | the selected CSV is the matching one with the least index |
| `Install.FirstPlanIsLeast` | internal/controller/ols_install.go:338-352 | the selected plan is the one with the least index among those of the namespace that name a matching CSV |
| `Install.CsvSelection` | internal/controller/ols_install.go:222-228 | the selection by name: the first CSV whose name begins with "lightspeed-operator", none exactly if there is none |
| `Install.PlanSelection` | internal/controller/ols_install.go:338-352 | the first plan of the namespace naming a CSV that begins with "lightspeed-operator" and ends with the version |
| `Install.RecommendedExactly` | internal/controller/ols_install.go:187-197 | unset is an error, "latest" no particular version, any other value itself |
| `Install.OrderedExactly` | internal/controller/ols_install.go:84-121 | a Subscription is as desired exactly if every field is as ordered: channel, manual approval, package, catalog source and namespace, startingCSV, owner, under the instance's own name |
| `Install.WriterSelectorAgree` | internal/controller/ols_install.go:187-197 | a plan of the namespace naming the startingCSV of the ordered Subscription is selected; under "latest" none is ordered and exactly the names that begin with "lightspeed-operator" are selected |
| `Install.SelectorConfusesSuffixes` | internal/controller/ols_install.go:341 | for all versions: the selector takes the CSV of another version exactly when the recommended one is a suffix of it or is it with an end of the name's stem in front; 1.0.0 takes 11.0.0 |
| `Reconcile.PassTerminates` | internal/controller/openstacklightspeed_controller.go:77-259 | every call brings the end of the pass nearer; at most fifteen calls |
| `Reconcile.DefaultsExactly` | internal/controller/openstacklightspeed_controller.go:157-163 | a given RAG image or token limit stays, a missing one becomes the default (2048), nothing else changes |
| `Reconcile.BeginExactly` | internal/controller/openstacklightspeed_controller.go:138-163 | which path a pass takes and with which copy, field by field |
| `Reconcile.WithoutExactly` | internal/controller/funcs.go:99-106 | taking the finalizer off a list takes out that entry wherever it stands and keeps the order of the others |
| `Reconcile.ReadyOfExactly` | internal/controller/openstacklightspeed_controller.go:115-128 | Ready is False exactly if another condition is, True exactly if all others are |
| `Reconcile.PatchedInstanceExactly` | internal/controller/openstacklightspeed_controller.go:130-133 | of an instance that changed meanwhile, what the pass changed is the pass's and all else the server's |
| `Reconcile.FinishExactly` | internal/controller/openstacklightspeed_controller.go:130-136 | when the last call changes or removes the instance, and that its error is swallowed |
| `Outcomes.ForwardOutcome` | internal/controller/openstacklightspeed_controller.go:165-258 | for every cluster, what an undisturbed pass reports and leaves of the OLSConfig: stops in front of a foreign installation, waits at a shut gate, error, done, or ping and wait |
| `Outcomes.LaterExactly` | internal/controller/openstacklightspeed_controller.go:179-188 | it asks for a requeue exactly while a gate is shut or the OLSConfig is not ready |
| `Outcomes.DeleteOutcome` | internal/controller/openstacklightspeed_controller.go:350-378 | for every cluster, the outcome of an undisturbed delete pass |
| `Outcomes.FirstPass` | internal/controller/openstacklightspeed_controller.go:153-155 | the pass that adds the finalizer changes nothing else and asks for nothing |
| `Outcomes.VanishedPlan` | internal/controller/ols_install.go:395-398 | a plan that is gone counts as deleted |
| `Runs.StepOk` | internal/controller/openstacklightspeed_controller.go:77-259 | every step of every stage keeps the pass invariant and logs only what its own call saw or wrote, with the copy that was read and the instance with its defaults |
| `Runs.WriteConfigOk` | internal/controller/openstacklightspeed_controller.go:211-239 | what the write leaves is the new object or the merge patch of the copy that was read |
| `Orphans.StepGuarantee` | internal/controller/openstacklightspeed_controller.go:77-259 | what a step of one instance can do to another's finalizer, label and CSV ownership |
| `Orphans.StepNoOrphan` | internal/controller/openstacklightspeed_controller.go:149-155 | each step keeps: a labelled OLSConfig has a held owner, and who lets go is not an owner |
| `Orphans.StepNoOrphanCsv` | internal/controller/ols_install.go:274-315 | the same for CSVs while no owned CSV is hidden |
| `History.RunNoOrphan` | internal/controller/openstacklightspeed_controller.go:350-378 | no orphaned OLSConfig in any state of any run of one instance |
| `History.RunNoOrphanCsv` | internal/controller/ols_install.go:269-315 | no orphaned CSV in runs that never hide an owned CSV |
| `History.LogIsHistory` | internal/controller/openstacklightspeed_controller.go:77-259 | each entry of a pass's log is a call of this pass in the run, at the stage that makes it and with the effect it names, in the order of the log |
| `History.WritesLogged` | internal/controller/openstacklightspeed_controller.go:77-259 | conversely, every call that changes Subscriptions, plans or CSVs adds the entry that says so |
| `History.PassBegan` | internal/controller/openstacklightspeed_controller.go:81-146 | a pass under way works on the instance as read at its start, with the version resolved from what was fetched then |
| `History.InstallGate` | internal/controller/ols_install.go:101-159 | past the installation, by calls of this pass and in order: Subscription found unchanged and linked, first plan selected, that plan rewritten as approved, first CSV found, that CSV rewritten with the instance as its owner, the first CSV read owned and Succeeded |
| `History.CheckedWasFirst` | internal/controller/ols_install.go:240-258 | the CSV the foreign-installation check looks at was the first match when this pass listed the CSVs |
| `History.SubWriteEndsPass` | internal/controller/ols_install.go:123-125 | a call that writes a Subscription ends the pass with a requeue, so that pass approves nothing |
| `History.OnePlanPerPass` | internal/controller/ols_install.go:359-404 | over every run, of two calls of the same pass at most one changes the plans |
| `History.TeardownOrder` | internal/controller/openstacklightspeed_controller.go:350-378 | every call that removes or marks a plan or CSV belongs to a delete pass that saw before, in the same pass, that no OLSConfig exists; the finalizer goes only after that and after the first matching CSV was seen absent or not owned |
| `History.ReadyExactly` | internal/controller/openstacklightspeed_controller.go:107-136 | at the end of a pass Ready is True exactly when this pass saw the OLSConfig ready and the OCP RAG condition is True |
| `History.ReadyMeans` | internal/controller/openstacklightspeed_controller.go:167-255 | behind Ready stand calls of this pass, in order: the install gate, a read of the OLSConfig without another owner, a patch after which everything the instance as read at the start wants is delivered, and a read of the overall status Ready |
| `History.PlanWritesFramed` | internal/controller/ols_install.go:359-378 | a call changes at most one plan, a matching one, and never withdraws an approval |
| `History.WrittenPlanWasFirst` | internal/controller/ols_install.go:322-353 | the plan written or deleted was the first match when this pass listed the plans |
| `Worlds.ProjectRun` | internal/controller/openstacklightspeed_controller.go:381-406 | a run with any number of instances is, seen from each one, a run of its own passes among moves it relies on |
| `Worlds.NoOrphans` | internal/controller/openstacklightspeed_controller.go:149-155 | in every reachable state of every interleaving, an OLSConfig labelled u implies that u exists and holds its finalizer |
| `Worlds.NoOrphanCsvs` | internal/controller/ols_install.go:274-305 | the same for CSVs if no state of the run hides an owned CSV |
| `Worlds.NoOrphanCsvsOneMatch` | internal/controller/ols_install.go:274-305 | in every run in which at most one CSV matches in each state, a CSV owned by u implies that u exists and holds its finalizer |
| `Worlds.ReleaseOrphansExactly` | internal/controller/ols_install.go:274-283 | letting go orphans a CSV exactly when an owned CSV was hidden behind a matching one |
| `Lock.SerialRunHolds` | internal/controller/openstacklightspeed_controller.go:211-239 | with one worker, in every state: a labelled OLSConfig carries the finalizer unless its owner is being deleted, and no pass acts on another's OLSConfig as its own |
| `Lock.OwnerLock` | internal/controller/funcs.go:90-112 | another instance's call leaves tree, labels and finalizers of an owned OLSConfig alone; it may mark it, and while the finalizer is on cannot make it disappear |
| `Lock.HoldUntilRelease` | internal/controller/funcs.go:274-290 | over whole runs label and finalizer stay until the owner's own pass releases them or someone outside takes the label |
| `Lock.OwnerChangesExactly` | internal/controller/openstacklightspeed_controller.go:211-231 | with overlapping passes the owner changes exactly when a merge patch computed from an unlabelled copy is accepted |
| `Overlap.OverlapSteals` | internal/controller/openstacklightspeed_controller.go:211-231 | from every initial world with two instances in front of an unowned OLSConfig there is a run of their two passes, without faults or other moves, that labels it for the one and then for the other |
| `Overlap.SomeContested` | internal/controller/openstacklightspeed_controller.go:211-231 | such worlds exist for any two held instances of a namespace whose UIDs begin differently |
| `Foreign.ForeignUntouched` | internal/controller/ols_install.go:52-62 | while the first matching CSV and the Subscription are foreign, no pass writes Subscriptions, plans or CSVs, and no pass other than a delete pass writes the OLSConfig |
| `Teardown.DeletePass` | internal/controller/openstacklightspeed_controller.go:350-378 | the cluster after a whole delete pass: OLSConfig released and deleted, or installation removed, or instance let go, or nothing for want of a configured version |
| `Teardown.TeardownProgress` | internal/controller/funcs.go:83-121 | a delete pass finishes or reduces the measure, except exactly when it is stalled, which is decided by the objects as they stand |
| `Teardown.StallsExactly` | internal/controller/ols_install.go:274-312 | a stalled delete pass is exactly one of: waiting for another finalizer, a held owner, a claim, or the holder of the CSV and plan; its OLSConfig is bereft of the finalizer; the OLSConfig is lost to a label that names no held instance; no version is configured |
| `Teardown.OwnerEndsWait` | internal/controller/funcs.go:90-121 | the delete pass of the held owner removes the marked OLSConfig others wait for |
| `Teardown.ClaimEndsWait` | internal/controller/funcs.go:274-290 | an accepted patch of a working instance claims a marked OLSConfig without an owner label |
| `Teardown.PlanLeftExactly` | internal/controller/ols_install.go:277-290 | a delete pass that lets go leaves a matching plan behind exactly when there was one and the pass found no CSV of its own |
| `Teardown.CsvStuckExactly` | internal/controller/ols_install.go:295-305 | deleting the first matching CSV changes nothing exactly when it is marked and held |
| `Teardown.PlanStuckExactly` | internal/controller/ols_install.go:384-404 | deleting the selected plan changes nothing exactly when there is none or the plan of that name is marked and held |
| `Descent.CallNoHeavier` | internal/controller/ols_install.go:274-314 | no single call of a delete pass, whatever its fault and however old its copies, adds to what is left to remove |
| `Descent.Descends` | internal/controller/openstacklightspeed_controller.go:350-378 | over every interleaving of calls, faults, stops and moves of others that add nothing, at most measure plus one undisturbed passes that are not stalled let go of the instance |
| `Stranded.FailedDeleteStrands` | internal/controller/funcs.go:99-112 | a failed Delete leaves an OLSConfig that is labelled, unmarked and without the finalizer |
| `Stranded.BereftUntilDelete` | internal/controller/funcs.go:99-101 | over runs of any number of instances with one worker, such an OLSConfig stays as it is and its owner is never let go until another instance's Delete goes through or someone outside touches it |
| `Stranded.ForeignDeleteExactly` | internal/controller/funcs.go:94-112 | a call of another instance changes it if and only if it is that Delete, which marks or removes it |
| `Stranded.Rescue` | internal/controller/funcs.go:94-121 | the delete pass of another instance is that way out, after which the owner's next delete pass lets go unless the first matching CSV is its own |
| `Stranded.PatchLeavesOwnerless` | internal/controller/funcs.go:275-290 | an empty owner label passes the guard and stays empty, while the finalizer is added |
| `Stranded.LostForever` | internal/controller/funcs.go:94-101 | over every run of any number of instances, a lost OLSConfig keeps label and finalizer and no instance is ever let go, as long as nobody outside the operator changes the label |
| `Convergence.ForwardPass` | internal/controller/openstacklightspeed_controller.go:153-258 | the cluster after a whole pass, by the first gate that is shut |
| `Convergence.PassRank` | internal/controller/ols_install.go:101-159 | an undisturbed pass never moves away from Ready and opens the gates that are the operator's own |
| `Convergence.EnvironmentRank` | internal/controller/ols_install.go:123-141 | a cooperating OLM and OLS operator never move away from Ready and open the gates that are theirs |
| `Courses.CallSteady` | internal/controller/openstacklightspeed_controller.go:153-258 | every single call of a pass, whatever its fault and whatever cooperating moves came before it, moves Ready no farther away |
| `Courses.Converges` | internal/controller/openstacklightspeed_controller.go:153-258 | over every interleaving of calls, faults, stops and cooperating moves the rank never rises, and each undisturbed pass followed by the environment's part lowers it, so at most nine such rounds settle the cluster |
| `Convergence.ReadyAndStable` | internal/controller/openstacklightspeed_controller.go:234-258 | from a settled cluster the pass reports Ready exactly when the OCP RAG condition holds, and a further pass leaves the whole cluster unchanged |
| `Operator.IsOwnedBy` | internal/controller/funcs.go:315-322 | the loop finds an owner reference exactly when there is one |
| `Operator.SearchCsv` | internal/controller/ols_install.go:222-228 | the loop returns the first matching CSV |
| `Operator.SearchPlan` | internal/controller/ols_install.go:338-352 | the nested loops with flag and break return the first matching plan |
| `Operator.Operator.IsUserInstalledOLSOperatorMode` | internal/controller/ols_install.go:235-260 | true means that the CSV this pass listed first and the Subscription just read are not owned, false that there is none or one is; only false leads on to the Subscription |
| `Operator.Operator.CreateOrUpdateSubscription` | internal/controller/ols_install.go:101-125 | on success the Subscription is stored under its name with every field as ordered, written exactly if it was missing or different; the pass goes on only if it was not written and is linked; an error means a fault, no version, or a change between read and write |
| `Operator.Operator.ApproveOLSOperatorInstallPlan` | internal/controller/ols_install.go:359-378 | true: the last call rewrote exactly the plan this pass selected, as approved; false: no plan matched; an error: a fault, no version, or the plan changed |
| `Operator.Operator.AdoptOLSOperatorCSV` | internal/controller/ols_install.go:143-157 | true: the last call rewrote exactly the CSV that was found first, with the instance as its owner; false: there is none, or it changed meanwhile; an error otherwise |
| `Operator.Operator.UpdateCsv` | internal/controller/ols_install.go:150-157 | the same for the update alone: a conflict makes the pass wait, any other error does not |
| `Operator.Operator.InstanceOwnedOLSOperatorComplete` | internal/controller/ols_install.go:164-179 | without a fault the answer is true exactly if the first CSV is owned and Succeeded, else false; an error only on a fault; only true leads to the OLSConfig |
| `Operator.Operator.InstallInstanceOwnedOLSOperator` | internal/controller/ols_install.go:79-160 | each result leads to the outcome and condition Reconcile derives from it, along a legal run |
| `Operator.Operator.EnsureOLSOperatorInstalled` | internal/controller/ols_install.go:47-70 | the same from the foreign-installation check on |
| `Operator.Operator.CreateOrPatchOLSConfig` | internal/controller/openstacklightspeed_controller.go:211-239 | success: the last call found the OLSConfig as this instance wants it or wrote its patch; failure: a False condition, nothing written, and one of the reasons for that |
| `Operator.Operator.IsOLSConfigReady` | internal/controller/funcs.go:296-312 | true: status.overallStatus was just read as "Ready"; false: a ping was written; each with its outcome |
| `Operator.Operator.CheckOLSConfig` | internal/controller/funcs.go:297-309 | without a fault true exactly if status.overallStatus is "Ready", false if it says something else or nothing, an error if it is malformed or there is no OLSConfig |
| `Operator.Operator.OLSConfigPing` | internal/controller/funcs.go:346-370 | success: the last call set the label openstack-lightspeed/ping to the random value and changed nothing else; failure: nothing written |
| `Operator.Operator.RemoveOLSConfig` | internal/controller/funcs.go:78-122 | true exactly if the last look found no OLSConfig, false if it is still there |
| `Operator.Operator.DeleteOLSConfig` | internal/controller/funcs.go:109-112 | the last call removed the OLSConfig, or marked it if a finalizer holds it; it fails only on a fault or if there is none |
| `Operator.Operator.ReleaseOLSConfig` | internal/controller/funcs.go:90-107 | success leaves another's OLSConfig as it is and takes only the finalizer off an own one; an own one without it is an error, and nothing is written |
| `Operator.Operator.DeleteOLSOperatorInstallPlan` | internal/controller/ols_install.go:384-404 | success: no plan matched, or the last call deleted exactly the selected plan or found it gone; failure: only on a fault or without a version |
| `Operator.Operator.UninstallInstanceOwnedOLSOperator` | internal/controller/ols_install.go:269-315 | true means that the instance may let go, false that it has to wait |
| `Operator.Operator.OLSOperatorGone` | internal/controller/ols_install.go:299-314 | after the deletion: true exactly if no matching CSV and no matching plan is left, false if one is |
| `Operator.Operator.ReconcileDelete` | internal/controller/openstacklightspeed_controller.go:350-378 | the outcome of a delete pass, the finalizer taken off only on success |
| `Operator.Operator.ResolveOcp` | internal/controller/openstacklightspeed_controller.go:263-347 | the in-place updates set the version that `OcpVersion.ResolvedExactly` gives and the condition that goes with it, and nothing else |
| `Operator.Operator.Prepare` | internal/controller/openstacklightspeed_controller.go:138-163 | the copy a pass works on, field by field: defaults only where nothing is given, the finalizer unless the instance is being deleted, initial conditions, resolved version, all else as it was |
| `Operator.Operator.Deferred` | internal/controller/openstacklightspeed_controller.go:107-136 | the Ready condition computed from the others, then the patch of the instance |
| `Operator.Operator.Reconcile` | internal/controller/openstacklightspeed_controller.go:77-259 | whatever others do and whichever calls fail: the run only grows and stays legal, no OLSConfig is orphaned, and Ready is reported exactly when it may be |

## Left out

- `cmd/main.go`, flags, TLS, WATCH_NAMESPACE, leader election, metrics: start-up plumbing with only easy claims.
- `GetRawClient`, the fetch in `DetectOCPVersion`, watches and `NotifyAllOpenStackLightspeeds`: client I/O; fetched data are inputs, and a pass may start at any time.
- Stale caches: reads are current, as said above.
- Transition times, reasons, severities and messages of conditions, `ObservedGeneration`: only the three-valued status of each condition is kept.
- Resource versions: an Update is accepted when the object still equals the copy that was read, which admits a change that was undone in between.
- `PatchInstance` writes the object and its status in two requests; the model sends one, so a failure between the two is not captured.
- JSON null in merge patches: the operator writes no null, and a null already in the tree is a value like any other.
- Float64 for maxTokensForResponse: the number is kept as an integer.
- The random ping value and the system prompt are arbitrary strings.
- Garbage collection of the Subscription and InstallPlans by owner reference is a move of the environment.
- `Courses.Converges`: assumes one fetched cluster version throughout, because another version is another goal.
