# OpenTelemetry operator service provider: a verified model

The provider installs an OpenTelemetry operator for each `OtelOperator` instance. It is spread
over three clusters: the control plane gets a namespace, a service account and a role binding; the
workload cluster a namespace, an access token and copies of pull secrets and of a CA bundle; the
platform cluster the Flux objects that install the chart twice, once for the CRDs and once for the
operator. The controller calls the same engine again and again until the clusters look as wanted, or
until everything is gone.

This project models that behaviour in Dafny and proves what it keeps over all inputs, all runs and
all interleavings with failing calls, finalizers and third parties.
`dafny verify dfyconfig.toml` checks all of it.

## How the model is built

**Clusters.** `Cluster.dfy` keeps the objects of all clusters in one map from (cluster, kind,
namespace, name) to labels, finalizer, deletion mark, readiness and content. Each API call consumes
one turn of a *script*. The turn fixes what the provider does not control: whether the call is served,
refused, or served with the answer lost; an arbitrary change of the store just before the call; the
order of a listing; the clock; the token that would be granted. A theorem for all scripts is a
theorem for all environments; where one needs a tamer environment it says so (`NeverCreates`,
`NoForeignDeletes`, `Adversary`, `OnlyWanes`, `ActsOnlyOn`, `LeavesAlone`, `Silent`, `Quiet`). The world also keeps a trail of every moment,
so that safety is stated at every instant and not only between passes.

**Engine.** `Managed.dfy` holds managed objects. An object contains its dependencies, as they are fixed
when it is constructed, so dependency cycles cannot be expressed. `Manager.dfy` describes a pass by
functions (`CheckForDependents`, `Visit`, `Visits`, `Cleanup`, `Pass`) and performs it with classes whose methods are
loops over their fields; each method is proved to do what its function says, so the theorems about
the functions are theorems about the loops. `PassRelations.dfy` lifts facts about single calls to
passes; `TeardownRuns.dfy` strings passes together, each with a script of its own and with finalizers completing in
between. The results are in `TeardownSafety.dfy`, `TeardownRounds.dfy`, `TeardownProgress.dfy`, `ApplyConvergence.dfy` and
`ApplyOutcome.dfy`; `TeardownSightings.dfy` and `EngineReports.dfy` say what passes come to know and report.

**Helm values.** `HelmEntries.dfy` and `HelmValues.dfy` edit JSON trees: maps written in place, lists
changed by removing what conflicts and appending. `HelmTheorems.dfy` gives the composed edits a closed form
and derives idempotence, what is enforced and what is left alone. `HelmContents.dfy` spells the results out as JSON.

**Tokens, instances, guard.** `TokenRuns.dfy` is the timed machine of token renewal, in nanoseconds.
`TokenStore.dfy` finds it in the store, through passes that fail or succeed.
`Instance.dfy` writes identifiers in base 32. `Guard.dfy` is the check for user resources before a deletion.

**Controller.** `Graph.dfy` builds the objects and cleaners of an instance for every configuration;
`GraphTheorems.dfy` shows that they meet what the engine theorems ask for. `Isolation.dfy` and `NonInterference.dfy` treat
several instances, pass by pass and call by call. `Controller.dfy` is the controller with its status;
`ControllerTheorems.dfy` has the results about readiness, deletion and whole lives of an instance, `InstanceTheorems.dfy`
those about several instances and several configurations. `PlanContents.dfy` says when a manager can be built and from
what, `InstalledContents.dfy` what then lies in the clusters, and `ControllerPaths.dfy` how every path of an operation
ends. `StrandedNamespace.dfy` has two lives in which teardown leaves something behind. Lemmas without a row below are steps of the proofs; among them `ControllerTheorems.ReadyIff`,
`ControllerTheorems.EventRecords` and `TokenRuns.EngineTakesATick` unfold definitions for the results that use them.

## What the proofs found

- Teardown completes if and only if no orphaned object depends on another one (`TeardownRounds.TeardownFinishesIff`);
  such an orphan blocks it for good, whatever calls fail (`TeardownRounds.OrphanBlocksForever`). The objects the
  controller builds are never orphaned, so every run completes in which passes whose calls succeed keep coming and
  awaited finalizers complete, also amid other instances (`GraphTheorems.FairTeardownCompletes`,
  `NonInterference.OthersAddNoWeight`). If calls succeed and finalizers complete before the next pass, it does so on pass
  four (`GraphTheorems.TeardownTakesFourPasses`).
- An undisturbed Apply succeeds exactly when the chart URL is set, the sources of all copies exist and a due token can be
  written (`ApplyOutcome.CleanApplyIff`).
- Apply neither looks at dependencies nor stops after an error
  (`ApplyConvergence.CreationOutrunsItsDependency`); only the insertion order puts dependencies first, and it does
  so for every configuration (`GraphTheorems.GraphIsDependencyFirst`).
- Managed objects have distinct keys exactly when no pull secret is named
  `kube-api-access-otel-operator-server` (`GraphTheorems.GraphIsKeyedApartIff`).
- A `null` under `opentelemetry-operator` makes the workload edit write to a nil map, which is a panic in Go,
  and nothing else does (`HelmTheorems.WorkloadPanicsIff`). The model returns the error `NilMapWrite` there.
- The edits always discard the user's `defaultCRConfig`: it is reset before it is refilled
  (`HelmTheorems.PipelineForm`).
- Complete teardown across configuration changes holds exactly as long as the control-plane namespace stays the same
  (`Isolation.EarlierObjectsAreReachedIff`, `InstanceTheorems.DeletionReachesEarlierIff`). Versions, pull secrets and CA
  bundles may change (`InstanceTheorems.FinishedDeletionLeavesNothingEarlier`). After an edit of `namespaceOverride`,
  no pass ever reaches the earlier namespace or the service account in it (`Isolation.EarlierAccessOutlives`), and a
  deletion finishes with them still there (`StrandedNamespace.FinishedDeletionStrandsNamespace`).
- A deletion finishes without building a manager when the version is no longer offered and none was recorded
  (`ControllerTheorems.DeletionFinishesIff`), and then leaves everything behind
  (`ControllerTheorems.UnplannedDeletionLeavesAll`, `StrandedNamespace.FinishedDeletionWithoutPlan`). A finished
  deletion had a manager exactly if the version was offered or recorded (`ControllerTheorems.FinishedDeletionHasPlanIff`),
  and with one it leaves nothing (`ControllerTheorems.FinishedDeletionLeavesNothing`).
- Delete uses the instance label as it finds it, and works in the generated namespace exactly if the label still
  holds the generated identifier (`ControllerTheorems.WorksInGeneratedNamespace`). Two reconciles of different instances
  are disjoint exactly if their labels or workload clusters differ (`InstanceTheorems.PlansAreDisjointIff`). So Apply
  touches another instance on its workload cluster only if the digests of their two names collide
  (`InstanceTheorems.OwnLabelsKeepApartIff`), while a deletion under an edited label deletes the other's namespace
  (`InstanceTheorems.EditedLabelInvades`, `InstanceTheorems.EditedLabelDeletes`).
- One-hour tokens suffice exactly up to a poll interval of 59 minutes (`TokenRuns.OneHourTokensSufficeIff`).

## What is assumed

- Control plane, workload and platform cluster are three clusters, and the tenant namespace is not the provider's
  own namespace, where they matter (`Separate`, `Sane`). Two instances have control planes of their own
  (`Neighbours`).
- SHA-1 and the tenant namespace function are parameters: the digest has 20 bytes, and nothing else is assumed of it;
  the tenant namespace is injective. Kubernetes namespaces contain no slash.
- The library mutators set data and type and keep labels.
- Two managed objects built from the same key, content function and dependencies are one value here, while the
  source compares pointers. The graph never gives such duplicates a dependency or a dependent.
- A token secret's annotation is read as the number it stands for.

## Model

| member | source | states |
|---|---|---|
| Manager.Manager.ReconcileObjects | pkg/oteloperator/resources/manager.go:72-90 | one engine pass: the world, the results and the cleaner error are exactly those of the reference pass (every object of every cluster visited in insertion order, then every cleaner), whatever calls fail |
| Manager.Manager.Apply | pkg/oteloperator/resources/manager.go:64-66 | Apply is that pass without deletion |
| Manager.Manager.Delete | pkg/oteloperator/resources/manager.go:68-70 | Delete is that pass with deletion |
| Manager.Manager.VisitAll | pkg/oteloperator/resources/manager.go:75-80 | the nested loops over clusters visit the flattened object list in order and collect one result each |
| Manager.Manager.VisitCluster | pkg/oteloperator/resources/manager.go:76-79 | the objects of one cluster continue the visits where the previous cluster stopped |
| Manager.Manager.RunCleaners | pkg/oteloperator/resources/manager.go:81-88 | all cleaners are called even after one failed; results are appended in order and errors joined |
| Manager.Manager.ReconcileObject | pkg/oteloperator/resources/manager.go:92-115 | deletion: dependents first, whose errors are joined, then the orphan policy, then the delete call, with the operation result of each outcome; otherwise create or update |
| Manager.Manager.CheckDependents | pkg/oteloperator/resources/manager.go:117-132 | every recorded dependent is looked up; a dependent that exists and a lookup that fails both count as errors, a missing one does not; the state of each one found is remembered |
| Manager.SightedAreDependents | pkg/oteloperator/resources/manager.go:117-132 | in a deletion only objects that depend on a visited one are read, so only theirs is a state to show |
| Manager.Manager.CreateOrUpdate | pkg/oteloperator/resources/manager.go:110-114 | reads the object, labels it, reconciles its content, then creates it, updates it, or does nothing when it is already as wanted |
| Manager.Manager.ReconcileContent | pkg/oteloperator/authn/serviceaccount.go:151-173 | the content functions: leave, overwrite, copy from a source, refresh a token that is due, reject |
| Manager.Manager.GetDependents | pkg/oteloperator/resources/manager.go:134-147 | the map filled by the nested loops is the reverse dependency map of the flattened list |
| Manager.Manager.RecordCluster | pkg/oteloperator/resources/manager.go:137-145 | adds the objects of one cluster to the reverse map |
| Manager.Manager.RecordDependencies | pkg/oteloperator/resources/manager.go:138-143 | adds one object to the dependents of each of its dependencies, creating missing entries |
| Manager.Manager.RunCleaner | pkg/oteloperator/secret/secret.go:121-140 | lists the labelled objects of its namespace and deletes those not to be kept; objects already gone are no failure, every other failure becomes a result |
| Manager.Manager.AddCluster | pkg/oteloperator/resources/manager.go:56-58 | appends the cluster and changes nothing else |
| Manager.Manager.AddCleaner | pkg/oteloperator/resources/manager.go:60-62 | appends the cleaner and changes nothing else |
| Manager.ManagedCluster.AddObject | pkg/oteloperator/resources/managedcluster.go:78-80 | appends the object, so objects are kept in insertion order |
| Cluster.SetManagedBy | pkg/oteloperator/meta/labels.go:12-19 | the label the cleaners look for is set; the other labels and the rest of the object stay |
| Manager.DependentsAreReverseEdges | pkg/oteloperator/resources/manager.go:134-147 | an object is among the dependents of another if and only if it is listed and names it as a dependency |
| Manager.DependentsMapRecords | pkg/oteloperator/resources/manager.go:134-147 | looking an object up in the filled map gives its dependents, in order and with multiplicity, for every object list |
| PassRelations.PassAdmits | pkg/oteloperator/resources/manager.go:72-90 | whatever relation holds across every single call holds across a whole pass; the induction principle behind the invariants below |
| TeardownSafety.NoDeleteUnderDependents | pkg/oteloperator/resources/manager.go:92-132 | over every run of Delete passes from any store, with any failing calls, any third-party deletes, and anything at all happening elsewhere, as long as nobody else creates managed objects: at no moment does an object exist on whose direct dependency a delete call has been issued |
| TeardownSafety.DependenciesOutlive | pkg/oteloperator/resources/manager.go:92-132 | when everything is installed at the start and nobody else creates or deletes managed objects: at every moment all transitive dependencies of an existing object exist and none has received a delete call |
| TeardownRounds.RemainingAfter | pkg/oteloperator/resources/manager.go:72-115 | when pass k + 1 of a fault-free run starts, at most the objects with a chain of k dependents above them remain, in any insertion order; exactly those with dependencies first; objects may carry finalizers that complete before the next pass |
| TeardownRounds.CompletionReport | pkg/oteloperator/resources/manager.go:162-170 | pass k + 1 reports everything deleted if, and with dependencies first only if, nothing holds out after k passes |
| TeardownRounds.UnheldIsPrompt | pkg/oteloperator/resources/manager.go:96-115 | if no managed object carries a finalizer, every fault-free run is one whose finalizers complete in time |
| TeardownRounds.TeardownFinishesIff | pkg/oteloperator/resources/manager.go:96-115 | with everything installed and finalizers completing in time, fault-free teardown completes if and only if no orphaned object depends on another, in whatever order objects are visited; it then completes within H + 2 passes, H being the longest dependency chain |
| TeardownRounds.OrphanBlocksForever | pkg/oteloperator/resources/manager.go:96-102 | an orphaned object that depends on another keeps every pass of every run from reporting completion, in any order and whatever calls fail, as long as nobody else deletes it |
| TeardownRounds.ExactNumberOfPasses | pkg/oteloperator/resources/manager.go:162-170 | with dependencies first, nothing orphaned and finalizers completing before the next pass, completion is reported from pass H + 2 on and never before |
| TeardownProgress.PassNeverAddsWeight | pkg/oteloperator/resources/manager.go:92-115 | no Delete pass undoes progress on any key on which nobody else does, whatever fails and whatever happens elsewhere |
| TeardownProgress.TeardownNeverStuck | pkg/oteloperator/resources/manager.go:96-147 | while something deletable remains, the next pass whose calls succeed lowers the rank, whatever others do meanwhile, or an object waits for its finalizer and its completion lowers it |
| TeardownProgress.FairRunsFinish | pkg/oteloperator/resources/manager.go:96-147 | every infinite run in which passes whose calls succeed keep coming and each awaited finalizer completes some time, however many passes later, removes everything deletable for good; in between anything may fail, anyone may delete, and elsewhere anything may happen at any time (others do not create or revive managed objects) |
| TeardownProgress.AllDeletedIsErrorFree | pkg/oteloperator/resources/manager.go:162-170 | a pass that reports everything deleted carries no object error, whatever went wrong |
| TeardownProgress.CompletionReportedIff | pkg/oteloperator/resources/manager.go:96-115 | a fault-free pass reports clean completion if and only if nothing deletable was left before it |
| TeardownProgress.FairRunsReportCompletion | pkg/oteloperator/resources/manager.go:162-170 | in every such run, from some pass on, every pass whose calls succeed reports clean completion, and one comes |
| TeardownProgress.NothingLeftCompletes | pkg/oteloperator/resources/manager.go:96-115 | when nothing deletable is left, a pass whose calls succeed reports clean completion, whatever others do meanwhile |
| TeardownProgress.CompletionMeansClean | internal/controller/oteloperator_controller.go:126-140 | when a pass reports completion and no cleaner failed, every deletable object is gone, and of labelled objects in swept namespaces, whatever configuration they stem from, only held and terminating ones remain; others may meanwhile delete and update as they like, and do anything elsewhere |
| ApplyConvergence.ApplyConverges | pkg/oteloperator/resources/manager.go:72-90 | an error-free Apply from any store leaves each managed object labelled and with its wanted content and otherwise as it was, removes exactly the labelled objects the cleaners do not keep, and changes nothing else |
| ApplyConvergence.ConvergedIsStable | pkg/oteloperator/secret/secret.go:40-73 | what an error-free Apply leaves is a fixed point: nothing it wrote is swept by the same pass, copies hold the data of their sources, nothing sweepable is left |
| ApplyConvergence.ApplyIsIdempotent | pkg/oteloperator/resources/manager.go:72-90 | a second Apply without a due token changes nothing: same store, no error, no operation |
| ApplyConvergence.ReportsShowTheStore | pkg/oteloperator/resources/manager.go:72-90 | a clean Apply has one result per object, in order, and each shows the state the object has in the store after the pass |
| ApplyConvergence.CreatedAfterDependencies | pkg/oteloperator/resources/manager.go:75-80 | with dependencies first, an error-free Apply visits each object only when everything it depends on is stored |
| ApplyConvergence.CreationOutrunsItsDependency | pkg/oteloperator/resources/manager.go:75-80 | Apply neither checks dependencies nor stops: when the creation of a dependency is refused, its dependent is created all the same |
| EngineReports.DeletionReport | pkg/oteloperator/resources/manager.go:96-109 | without faults a visit of a Delete pass names exactly the dependents that still exist, and without any says deleted for a missing or orphaned object and requested otherwise |
| EngineReports.DeletionReportAnyway | pkg/oteloperator/resources/manager.go:96-109 | whatever fails: a delete call is an error exactly if it was not served, a reported deletion rests on a served call or the orphan policy, and an object that was not attempted carries errors and no call |
| EngineReports.ApplyReport | pkg/oteloperator/resources/manager.go:110-114 | without faults a visit of an Apply pass reports either the very reason why the content could not be made and writes nothing, or whether the object was created, updated or left alone, with the state it is now stored in |
| EngineReports.ApplyReportAnyway | pkg/oteloperator/resources/manager.go:110-114 | whatever fails: an object that cannot be read is reported with that error alone; any other error shows the state read and counts nothing as done; without an error the operation follows from the state read and the state written |
| TeardownSightings.DeletionSees | pkg/oteloperator/resources/manager.go:117-132 | an undisturbed Delete pass knows the state of exactly the stored objects that depend on something, and knows it as it was before the pass |
| HelmEntries.RemoveConflictingAndAppend | pkg/oteloperator/helm/helm.go:366-394 | the three loops: conflicting entries (same name, for mounts also same path) are dropped, the others kept in order, the new one appended |
| HelmEntries.EntryRoundTrip | pkg/oteloperator/helm/helm.go:221-229 | a list entry that is marshalled is unmarshalled to itself |
| HelmEntries.ListRoundTrip | pkg/oteloperator/helm/helm.go:221-229 | so is a whole list |
| HelmEntries.InjectForm | pkg/oteloperator/helm/helm.go:366-374 | injecting entries one after the other amounts to dropping all conflicting ones and appending the injected ones in order |
| HelmEntries.InjectTwice | pkg/oteloperator/helm/helm.go:366-394 | injecting the same entries again changes nothing, not even the order |
| HelmEntries.InjectOverrides | pkg/oteloperator/helm/helm.go:366-374 | read as a name-to-variable map, the result is the user map updated with the injected variables |
| HelmEntries.InjectedOnce | pkg/oteloperator/helm/helm.go:366-394 | each injected name occurs exactly once, with the injected entry |
| HelmEntries.KeptInOrder | pkg/oteloperator/helm/helm.go:366-394 | the surviving entries are exactly the non-conflicting ones of the user, in order and with multiplicity |
| HelmEntries.ReplaceKeepsApart | pkg/oteloperator/helm/helm.go:376-394 | the volume and mount edits keep names, and mount paths, unique |
| HelmContents.DisplacedIff | pkg/oteloperator/helm/helm.go:366-394 | adding an entry removes exactly the entries of its name and, among mounts, those at its path; the new entry comes last |
| HelmValues.RawObject.SetRawValue | pkg/oteloperator/helm/helm.go:353-356 | writes one member and no other |
| HelmValues.UnmarshalIfPresent | pkg/oteloperator/helm/helm.go:328-337 | a missing member leaves the target, null makes it nil, an object is read, anything else is an error |
| HelmValues.UnmarshalOrMake | pkg/oteloperator/helm/helm.go:140-146 | as above, with an empty map in place of nil |
| HelmValues.UnmarshalRoot | pkg/oteloperator/helm/helm.go:315-326 | absent values and null are an empty object, anything but an object is an error |
| HelmValues.SetKubeStackDisabledDefaults | pkg/oteloperator/helm/helm.go:339-351 | the loop in unspecified map order adds exactly the disabled defaults |
| HelmValues.WorkloadHelmValues | pkg/oteloperator/helm/helm.go:65-108 | the in-place edits give exactly the workload values, including each error and the write to a nil map |
| HelmValues.CRDHelmValues | pkg/oteloperator/helm/helm.go:112-123 | the in-place edits give exactly the CRD values |
| HelmValues.InjectEntries | pkg/oteloperator/helm/helm.go:277-282 | replaces entries of one list member in place, or fails and leaves the rest |
| HelmValues.InjectIntoManager | pkg/oteloperator/helm/helm.go:212-266 | adds environment variables to the manager member in place, or fails |
| HelmValues.InjectKubeconfigIntoDefaultCRConfig | pkg/oteloperator/helm/helm.go:268-313 | adds variable, mount and volume to the collector configuration in place, or fails |
| HelmValues.AddAuthToHelmValues | pkg/oteloperator/helm/helm.go:132-163 | the in-place edits give exactly the values with access to the control plane |
| HelmValues.AddCAHelmValues | pkg/oteloperator/helm/helm.go:169-210 | the in-place edits give exactly the values with the CA directory, after the three reference checks |
| HelmTheorems.WorkloadPanicsIff | pkg/oteloperator/helm/helm.go:75-79 | the edit writes to a nil map exactly when the user values hold a null under opentelemetry-operator |
| HelmTheorems.PipelineForm | pkg/oteloperator/helm/helm.go:65-210 | the composed edits succeed exactly on the well-shaped inputs, and their result is the closed form Final: the user tree overridden at named places, with the variables injected |
| HelmTheorems.PipelineIsIdempotent | pkg/oteloperator/helm/helm.go:65-210 | CA after Auth after Workload is idempotent on every input it accepts, including the order of the variables and the reset and refill of the collector configuration |
| HelmTheorems.PipelineEnforces | pkg/oteloperator/helm/helm.go:65-108 | for all user values: operator on, CRDs and token automount off, every listed component off, also after the access is injected |
| HelmTheorems.CrdValuesEnforce | pkg/oteloperator/helm/helm.go:110-123 | for all user values: OpenTelemetry CRDs on, everything else off |
| HelmTheorems.PipelineKeepsTheRest | pkg/oteloperator/helm/helm.go:65-210 | every path that neither lies on nor leads to an edited place keeps the user value, or stays absent |
| HelmTheorems.ExtractionCommutes | pkg/oteloperator/helm/helm.go:43-53 | reading the namespace override and the pull secrets gives the same before and after the edits |
| HelmTheorems.PipelineOverridesEnvs | pkg/oteloperator/helm/helm.go:239-266 | in the final values the manager variables are the user settings updated with the injected ones, each injected name once |
| HelmTheorems.DefaultsInAnyOrder | pkg/oteloperator/helm/helm.go:339-351 | every permutation of the default writes, from every starting object, gives the same object |
| HelmContents.PipelineAcceptsIff | pkg/oteloperator/helm/helm.go:65-210 | the edits succeed exactly on these JSON shapes: an object or nothing at each place that is entered (the operator may be missing but not null), readable variables in the list, and a CA reference with name and key |
| HelmContents.PipelineFailure | pkg/oteloperator/helm/helm.go:65-210 | and otherwise report the first thing that is wrong, by the member it concerns |
| HelmContents.ExtractionIsExact | pkg/oteloperator/helm/helm.go:43-53 | the values the controller reads are exactly the JSON they stand for: one name for each entry of imagePullSecrets, in order, nothing for a missing or null list, and the namespaceOverride; which shapes fail is exact |
| HelmContents.ExtractionFailure | pkg/oteloperator/helm/helm.go:43-53 | reading reports the first thing that is wrong |
| HelmContents.ManagerEnvironment | pkg/oteloperator/helm/helm.go:212-266 | the final extraEnvs as JSON: the user variables of other names in order, plain ones unchanged, then host, port and kubeconfig variables and, with a CA bundle, the certificate directories |
| HelmContents.OperatorReachesControlPlane | pkg/oteloperator/helm/helm.go:239-266 | each injected variable, written out as a JSON object with its literal name and the host or port given, is in the final list |
| HelmContents.CollectorConfiguration | pkg/oteloperator/helm/helm.go:268-313 | the final defaultCRConfig, written out as JSON: kubeconfig variable, read-only mount and volume of the access secret, or only the switch that is off |
| HelmContents.CrdValuesAre | pkg/oteloperator/helm/helm.go:110-123 | the values of the CRD release, written out as JSON, whatever the user wrote |
| Token.TruncatedToSecond | pkg/oteloperator/authn/serviceaccount.go:212-217 | the noted expiry is a whole second, the last one not after the token expiry |
| TokenRuns.NoteStaysHonest | pkg/oteloperator/authn/serviceaccount.go:151-217 | over every run of the timed machine the annotation is the second-truncated expiry of the token beside it, and the kubeconfig carries that token |
| TokenRuns.TokenNeverExpires | pkg/oteloperator/authn/serviceaccount.go:151-173 | in the timed machine, with lifetimes of at least poll interval plus one minute and reconciles at most that far apart, the token is unexpired at every instant from the first reconcile on |
| TokenRuns.OneHourTokensSufficeIff | api/v1alpha1/providerconfig_types.go:112-118 | one-hour tokens cover every such schedule if and only if the poll interval is at most 59 minutes |
| TokenRuns.MintsAreSpaced | pkg/oteloperator/authn/serviceaccount.go:153-170 | successive mints of one-hour tokens are more than 59 minutes less the poll interval apart, up to one second |
| TokenStore.PassStaysHonest | pkg/oteloperator/authn/serviceaccount.go:151-217 | every pass, Apply or Delete, with whatever failures, keeps the stored annotation the truncated expiry of the token stored beside it, unless somebody else falsifies it |
| TokenStore.TokenVisit | pkg/oteloperator/authn/serviceaccount.go:151-173 | one visit to the token secret, with whatever failures, leaves it as it is or renews a due token; without an error it leaves only a token that is not due |
| TokenStore.ErrorFreeVisitTicks | pkg/oteloperator/authn/serviceaccount.go:151-173 | an error-free visit leaves in the store what one step of the timed machine gives |
| TokenStore.RenewedSecretHolds | pkg/oteloperator/authn/serviceaccount.go:56-96 | field by field: unless the stored token lasts until a minute after the next poll, an error-free visit stores the granted token, the namespace, the address of the control plane and its CA data (those of the CA file if there is one) in secret and kubeconfig, and the truncated expiry |
| TokenStore.PassTakesATokenStep | pkg/oteloperator/authn/serviceaccount.go:151-173 | and so for a whole Apply pass of the controller: nothing else in it touches the secret |
| TokenStore.PassStoresAccess | pkg/oteloperator/authn/serviceaccount.go:151-173 | and so does a whole Apply pass, for the secret kube-api-access-otel-operator-server of the instance namespace |
| TokenStore.StoredTokenIsValid | pkg/oteloperator/authn/serviceaccount.go:151-173 | over every series of Apply passes with whatever failures in between: after each error-free visit the secret in the store holds a token valid until one minute after the next poll |
| Instance.DigitsRoundTrip | pkg/oteloperator/instance/instance.go:50-55 | the base32 digits of any whole number of five-byte groups decode to the bytes |
| Instance.PrintIsInjective | pkg/oteloperator/instance/instance.go:53 | namespace and name can be recovered from the printed pair |
| Instance.NamespacesAgreeIff | pkg/oteloperator/instance/instance.go:50-60 | two instances share a workload namespace if and only if their prints, which differ if the instances do, have the same digest |
| Instance.NamespaceShape | pkg/oteloperator/instance/instance.go:57-60 | an instance namespace is otel-operator- followed by the identifier: a 46-character label of a-z, 2-7 and hyphen |
| Instance.LetterOfAlphabet | pkg/oteloperator/instance/instance.go:29-32 | digits are written in the alphabet of the source, letter by letter |
| Instance.KnownAnswer | pkg/oteloperator/instance/instance.go:51-55 | a known answer of RFC 4648 in lower case |
| Guard.BlockingKinds | pkg/oteloperator/cpresources/checker.go:47-67 | the loop computes the reference result, stopping at the first failing listing |
| Guard.BlockingIsExact | pkg/oteloperator/cpresources/checker.go:47-67 | for any list of kinds: failure exactly when a listing fails; otherwise, without duplicates and in first-seen order, exactly the kinds with instances in some served version |
| ControllerPaths.GuardNames | pkg/oteloperator/cpresources/checker.go:36-67 | for the three listings of the controller: the kinds named are OpenTelemetryCollector and Instrumentation, each once and where first seen, exactly if they have instances in a served version |
| ControllerPaths.GuardFails | pkg/oteloperator/cpresources/checker.go:47-67 | a listing that fails otherwise than for an unknown kind is the error, the first one by the kind it asked for |
| Graph.ConfigureServiceAccount | pkg/oteloperator/authn/serviceaccount.go:110-177 | adds namespace and service account to the control plane, namespace and token secret to the workload cluster, with their dependencies |
| Graph.ManagePullSecrets | pkg/oteloperator/secret/secret.go:40-73 | adds one copy per pull secret, in order |
| Graph.ManageFluxResources | pkg/oteloperator/flux/flux.go:52-163 | adds repository, CRD release and workload release with their dependencies and specifications |
| Graph.FillClusters | internal/controller/oteloperator_controller.go:168-216 | fills the three clusters in the order of the controller |
| Graph.BuildClusters | internal/controller/oteloperator_controller.go:159-166 | control plane, workload and platform cluster, in this order, flatten to the object list |
| Graph.Assemble | internal/controller/oteloperator_controller.go:143-219 | the manager holds exactly that object list and the three cleaners |
| GraphTheorems.Members | internal/controller/oteloperator_controller.go:168-216 | what is managed, for every configuration: eight fixed objects, and the configured copies |
| GraphTheorems.GraphIsDependencyFirst | internal/controller/oteloperator_controller.go:163-216 | for every configuration the flattened list is a topological order of the dependency graph |
| GraphTheorems.GraphIsKeyedApartIff | internal/controller/oteloperator_controller.go:197-200 | managed objects have distinct keys if and only if no pull secret is named like the token secret |
| GraphTheorems.GraphIsWellPosed | internal/controller/oteloperator_controller.go:192-201 | dependencies are managed, keys are distinct and no cleaner removes a managed object |
| GraphTheorems.GraphKeepsManaged | internal/controller/oteloperator_controller.go:192-201 | every name a cleaner keeps is the name of a managed object that teardown deletes |
| GraphTheorems.GraphHasDepthTwo | pkg/oteloperator/flux/flux.go:80-120 | the longest dependency chain has two edges, whatever is configured |
| GraphTheorems.TeardownTakesFourPasses | internal/controller/oteloperator_controller.go:126-140 | for every configuration, fault-free teardown whose finalizers complete before the next pass reports completion on pass four and not before |
| GraphTheorems.FairTeardownCompletes | internal/controller/oteloperator_controller.go:126-140 | for every configuration and from every store, every fair run of the teardown comes to report completion |
| GraphTheorems.CompletedTeardownLeavesNothing | internal/controller/oteloperator_controller.go:126-140 | after a completed teardown nothing managed is left, and no labelled Secret or ConfigMap of any earlier configuration in the swept namespaces |
| GraphTheorems.ApplyLeavesExactlyTheWanted | internal/controller/oteloperator_controller.go:192-201 | after an error-free Apply the labelled Secrets and ConfigMaps of the swept namespaces are exactly the wanted ones, up to held and terminating leftovers |
| ApplyOutcome.ErrorFreeIffFeasible | pkg/oteloperator/resources/manager.go:75-80 | the visits of a fault-free Apply are error-free if and only if each finds what its content is made from |
| ApplyOutcome.CleanApplyIff | internal/controller/oteloperator_controller.go:143-219 | for every configuration, a fault-free Apply is clean if and only if the chart URL is set, every source of a copy is stored and, should the token be due, the address and CA data of the control plane are known |
| ApplyOutcome.CleanApplyByTheClock | internal/controller/oteloperator_controller.go:143-219 | the same with bounds on the clock in place of the reading itself |
| Isolation.PassStaysInFootprint | internal/controller/oteloperator_controller.go:157-201 | no pass of an instance, Apply or Delete, changes a key outside its footprint |
| Isolation.FootprintsAreDisjointIff | internal/controller/oteloperator_controller.go:157-201 | two instances with their own control planes and tenants have no key in common that either may write or delete if and only if they do not share a namespace on a workload cluster |
| Isolation.UntouchedStays | internal/controller/oteloperator_controller.go:157-201 | a key outside the footprints of any series of passes stays as it was |
| Isolation.OthersDoNotInterfere | internal/controller/oteloperator_controller.go:157-201 | after any number of passes of other instances an instance finds its keys as it left them |
| Isolation.EarlierNamespaceIsReachedIff | internal/controller/oteloperator_controller.go:153-161 | teardown reaches a control-plane namespace if and only if it is the one of the current configuration |
| Isolation.EarlierAccountIsReachedIff | internal/controller/oteloperator_controller.go:168-175 | and the same holds of the service account in it |
| Isolation.EarlierObjectsAreReachedIff | internal/controller/oteloperator_controller.go:153-201 | teardown reaches everything an earlier configuration of the instance installed, with whatever version, pull secrets or CA bundle, if and only if the control-plane namespace is the same |
| Isolation.EarlierAccessOutlives | internal/controller/oteloperator_controller.go:153-175 | the namespace of an earlier override and its service account outlive any number of passes, Apply or Delete, of configurations that name another one |
| Isolation.EarlierConfigurationsAreGone | internal/controller/oteloperator_controller.go:126-140 | if the control-plane namespace did not change, a completed teardown leaves nothing that any earlier configuration installed |
| NonInterference.PassSeesOnlyItsScope | pkg/oteloperator/resources/manager.go:72-90 | a pass depends on nothing but the keys it may touch: environments alike on these give equal results and equal stores on these, call by call |
| NonInterference.SameAsAlone | internal/controller/oteloperator_controller.go:157-201 | calls of other instances falling anywhere between the calls of a pass change neither its results nor what it leaves under its own keys |
| NonInterference.WantedAmidOthers | internal/controller/oteloperator_controller.go:192-201 | so an error-free Apply leaves exactly the wanted copies also amid other instances |
| NonInterference.FootprintIsOutOfView | internal/controller/oteloperator_controller.go:157-201 | what one instance may write, another one does not read, unless they share a namespace on a workload cluster |
| NonInterference.OthersOnlyWane | internal/controller/oteloperator_controller.go:126-140 | others who keep to keys an instance does not look at meet what its completed teardown asks of the environment |
| NonInterference.OthersAddNoWeight | internal/controller/oteloperator_controller.go:126-140 | and what its fair teardown asks of it: other instances may be installed, changed and removed at any time |
| NonInterference.NothingLeftAmidOthers | internal/controller/oteloperator_controller.go:126-140 | so a completed teardown leaves nothing also amid other instances |
| Controller.Reconciler.CreateOrUpdate | internal/controller/oteloperator_controller.go:66-98 | world, labels, status and return value are exactly those of the reference transition, on every path |
| Controller.Reconciler.RecordApply | internal/controller/oteloperator_controller.go:78-97 | writes resources, error, installed version and readiness from the outcome of an Apply |
| Controller.Reconciler.Delete | internal/controller/oteloperator_controller.go:101-141 | world, status and return value are exactly those of the reference transition: guard error, user resources, removal |
| Controller.Reconciler.RemoveResources | internal/controller/oteloperator_controller.go:120-140 | builds the manager from the current or recorded version, deletes, and finishes, fails or requeues |
| Controller.Reconciler.Prepare | internal/controller/oteloperator_controller.go:143-236 | the plan for the object manager, with each error of selection, extraction, values and secret name in the order of the source |
| Controller.Reconciler.PrepareHelmValues | internal/controller/oteloperator_controller.go:238-252 | the methods of the Helm model called in turn give the workload values with the control plane access and the CRD values, or the first error |
| Controller.Reconciler.PrepareValues | internal/controller/oteloperator_controller.go:178-186 | with the CA bundle added, both values are the composed edits |
| Controller.Reconciler.SelectKubeStackVersion | internal/controller/oteloperator_controller.go:304-311 | the loop finds the first offered version with the requested name |
| Controller.Reconciler.ResultsToResources | internal/controller/oteloperator_controller.go:313-336 | one resource per result, in order, and whether any result carries an error |
| Controller.Reconciler.PendingResourcesMessage | internal/controller/oteloperator_controller.go:354-366 | the message for the first resource that is not ready |
| Controller.Reconciler.EnsureInstanceId | internal/controller/oteloperator_controller.go:368-377 | the label holds the generated identifier afterwards; success unless it had to be saved and could not |
| Controller.OtelOperator.SetId | pkg/oteloperator/instance/instance.go:43-48 | sets the label and nothing else |
| Controller.ResourcesOf | internal/controller/oteloperator_controller.go:313-336 | the resource list follows the results, position by position |
| Controller.HostAndPortIsExact | pkg/oteloperator/resources/managedcluster.go:62-72 | the host holds no colon, host and port make up the address, the port defaults to 443 |
| PlanContents.AddressIsSplit | pkg/oteloperator/resources/managedcluster.go:62-72 | for every host without a colon and every port: with or without the scheme, with or without the port, the address is split into these two, and without an address the host is empty |
| ControllerTheorems.ReadyMeansUp | internal/controller/oteloperator_controller.go:66-98 | after an undisturbed clean Apply, Ready is reported if and only if every managed object is stored, not terminating and, for Flux objects, ready |
| ControllerTheorems.UndisturbedApplyIff | internal/controller/oteloperator_controller.go:66-98 | an undisturbed CreateOrUpdate with a plan succeeds if and only if its supplies are there, and reports Ready if and only if besides every managed object is up |
| ControllerTheorems.PendingNamesTheFirst | internal/controller/oteloperator_controller.go:354-366 | otherwise the message names the first resource that is not ready |
| ControllerPaths.IdIsNotSaved | internal/controller/oteloperator_controller.go:67-72 | path by path, CreateOrUpdate: an identifier that cannot be saved leaves it in the label, Progressing and that error, returned before any call |
| ControllerPaths.ApplyIsNotPlanned | internal/controller/oteloperator_controller.go:73-77 | without a plan the status is Progressing with the planning error, which is returned unless it is that the version is not available; no call is made |
| ControllerPaths.ApplyIsReported | internal/controller/oteloperator_controller.go:78-98 | after the manager ran: with any error Progressing and the error, returned, and the record stays; otherwise the version is recorded and the status is Ready if every listed resource is, else it names the first that is not; resources are listed as in a deletion, each in the state its own visit left |
| ControllerPaths.ApplyShows | internal/controller/oteloperator_controller.go:313-336 | in an undisturbed Apply without errors every object is listed in the state it is stored in afterwards |
| ControllerTheorems.ResourcesFollowObjects | internal/controller/oteloperator_controller.go:313-336 | the listed resources are the managed objects in order, with kind, name, namespace, phase and cluster, followed by what cleaners failed to delete |
| ControllerTheorems.GuardStopsDeletion | internal/controller/oteloperator_controller.go:101-119 | a deletion whose guard found user resources, or could not look, makes no cluster call and does not finish |
| ControllerPaths.DeletionCannotLook | internal/controller/oteloperator_controller.go:102-106 | path by path, Delete: a failed listing leaves Progressing with its error and returns it, and changes nothing else |
| ControllerPaths.DeletionIsHeldBack | internal/controller/oteloperator_controller.go:107-119 | user resources leave Terminating with a message naming exactly the kinds found, and a requeue; no call is made |
| ControllerPaths.DeletionIsNotPlanned | internal/controller/oteloperator_controller.go:121-125 | without a plan the status is Progressing with the planning error, which is returned unless it is that the version is not available; no call is made |
| ControllerPaths.DeletionIsReported | internal/controller/oteloperator_controller.go:126-141 | after the manager ran: with any error Progressing and the error, returned; otherwise Terminating, and finished exactly if every result says deleted, else a requeue; in both cases the listed resources are the objects in order with the state last read, then the leftovers that could not be deleted, by kind, name and phase |
| ControllerPaths.DeletionShows | internal/controller/oteloperator_controller.go:313-336 | in an undisturbed deletion the service account, the token secret and the two releases are listed in the state they were in before it, everything else as not created yet |
| ControllerTheorems.DeletionFinishesIff | internal/controller/oteloperator_controller.go:101-141 | a deletion finishes exactly when the guard is clear and either the manager completed cleanly or there was no version to build it from |
| ControllerTheorems.LacksVersionIff | internal/controller/oteloperator_controller.go:221-236 | there is no version to build from exactly when it is neither offered nor recorded, given a tenant namespace |
| ControllerTheorems.UnplannedDeletionLeavesAll | internal/controller/oteloperator_controller.go:120-125 | then a deletion with a clear guard finishes at once and leaves everything as it is |
| ControllerTheorems.FinishedDeletionHasPlanIff | internal/controller/oteloperator_controller.go:120-140 | a finished deletion had its manager if and only if the version was offered or recorded |
| ControllerTheorems.UndisturbedDeletionFinishesIff | internal/controller/oteloperator_controller.go:126-140 | an undisturbed deletion with a clear guard finishes if and only if no managed object was left |
| ControllerTheorems.FinishedDeletionLeavesNothing | internal/controller/oteloperator_controller.go:126-140 | a finished deletion that could build its manager leaves no managed object and no labelled copy, whatever was configured before |
| ControllerTheorems.PullSecretsAgree | internal/controller/oteloperator_controller.go:197-200 | the pull secrets named by the imagePullSecrets of the final values, those copied and those kept beside the token secret are one list, name by name; the control-plane namespace is the one those values name |
| PlanContents.PlannedIff | internal/controller/oteloperator_controller.go:143-236 | when a manager can be built, and the first reason why not: no tenant namespace, no version offered under the name or recorded, unacceptable values or CA reference, an unusable chart secret name |
| PlanContents.WorksWithOne | internal/controller/oteloperator_controller.go:221-236 | there is only one version to work with |
| PlanContents.PlanHolds | internal/controller/oteloperator_controller.go:143-219 | the plan takes clusters, names, poll interval (one minute by default), CA reference, chart and access secrets from the context, the instance and the configuration, each from its own place |
| PlanContents.PlanReadsValues | internal/controller/oteloperator_controller.go:148-156 | the pull secrets and the control-plane namespace of a plan, in terms of the JSON the user wrote |
| PlanContents.PlanCopiesEveryName | internal/controller/oteloperator_controller.go:254-261 | a list of plain references is copied name by name |
| PlanContents.PlanReachesControlPlane | internal/controller/oteloperator_controller.go:178-181 | for a control plane at https://host:port the final values set exactly this host and this port for the operator |
| PlanContents.PlanMountsToken | internal/controller/oteloperator_controller.go:178-181 | the collectors mount the secret the token is kept in |
| ControllerTheorems.WorksInGeneratedNamespace | internal/controller/oteloperator_controller.go:157 | CreateOrUpdate works in the generated namespace; Delete does if and only if the label still holds the generated identifier |
| ControllerTheorems.SelectFindsTheFirst | internal/controller/oteloperator_controller.go:304-311 | selection returns the first matching version, and nothing exactly if there is none |
| ControllerTheorems.RecordedIsLastInstalled | internal/controller/oteloperator_controller.go:89-91 | over every interleaving of edits, applies and deletions the recorded version is the configuration of the last error-free Apply |
| ControllerTheorems.DeletionAlwaysFindsAVersion | internal/controller/oteloperator_controller.go:221-236 | once an Apply succeeded, selection for deletion never fails for want of a version; selection for Apply never uses the record |
| ControllerTheorems.CleanApplyInstalls | internal/controller/oteloperator_controller.go:143-219 | after an undisturbed clean Apply both releases are stored with their values, and everything they name is in place: namespaces, every pull secret named in the values with the data of its source, token secret, CA bundle, the CRD release, and a chart source with the configured URL, tag, interval and secret |
| InstalledContents.ObjectsAreInOrder | internal/controller/oteloperator_controller.go:157-216 | the managed objects in the order of every pass, key by key: control plane, workload cluster with CA bundle and pull secrets in their order, platform cluster |
| InstalledContents.ManagedKeysAre | internal/controller/oteloperator_controller.go:157-216 | where the managed objects of a configuration are stored, key by key |
| InstalledContents.SweptKeysAre | internal/controller/oteloperator_controller.go:199-201 | and what the three cleaners remove: Secrets and ConfigMaps of the instance namespace and Secrets of the tenant namespace, but for the managed ones |
| InstalledContents.ApplyWritesItsKeysOnly | internal/controller/oteloperator_controller.go:157-216 | after an undisturbed clean Apply exactly these keys are stored and labelled, other labelled objects in the swept places are gone or held and terminating, and everything else is as it was |
| InstalledContents.CopiesHoldTheirSources | pkg/oteloperator/secret/secret.go:49-68 | for every object list: each copy holds the data of its source and the type asked for |
| InstalledContents.CopiesAreInstalled | internal/controller/oteloperator_controller.go:254-302 | so do the pull secrets, the chart pull secret and the CA bundle of the controller, each from its source in the namespace of the provider |
| InstalledContents.AccountIsBound | pkg/oteloperator/authz/clusterrolebinding.go:33-58 | the service account is bound to cluster-admin |
| InstalledContents.FluxIsInstalled | pkg/oteloperator/flux/flux.go:52-163 | the chart source and the two releases are stored with every modelled field: URL, tag without the leading v, interval, secret; values, namespaces, names, access secrets, dependency, CRD and uninstall policy, post-renderers |
| InstalledContents.InstanceIsInstalled | internal/controller/oteloperator_controller.go:143-219 | the same for an instance, in terms of the chart values and the configuration: every named pull secret is copied into the generated namespace, so are CA bundle and chart secret, and the chart source is the one offered |
| InstanceTheorems.PlansAreDisjointIff | internal/controller/oteloperator_controller.go:143-219 | what two reconciles of different instances, Apply or Delete, may write or delete is disjoint if and only if they work on different workload clusters or under different labels |
| InstanceTheorems.OwnLabelsKeepApartIff | internal/controller/oteloperator_controller.go:368-377 | under labels that hold the generated identifiers, as Apply sees to and Delete does not, different instances are disjoint if and only if their workload clusters or the digests of their two different prints differ |
| InstanceTheorems.EditedLabelInvades | internal/controller/oteloperator_controller.go:120-126 | a deletion whose label was edited to the identifier of another instance on the workload cluster reaches the namespace of that instance |
| InstanceTheorems.EditedLabelDeletes | internal/controller/oteloperator_controller.go:120-140 | and one pass of it whose calls succeed leaves that namespace gone or terminating, whatever others do meanwhile |
| InstanceTheorems.NeighboursAreOutOfView | internal/controller/oteloperator_controller.go:143-219 | unless they work in one namespace, what one reconcile may write another one does not read |
| InstanceTheorems.DeleteSameAsAlone | internal/controller/oteloperator_controller.go:120-140 | calls of others outside the view, falling anywhere between its own, change neither the status nor the return value of Delete |
| InstanceTheorems.ApplySameAsAlone | internal/controller/oteloperator_controller.go:66-98 | nor of CreateOrUpdate |
| InstanceTheorems.DeletionReachesEarlierIff | internal/controller/oteloperator_controller.go:153-201 | a deletion reaches everything an earlier reconcile of the instance under the same label installed if and only if the control-plane namespace did not change |
| InstanceTheorems.FinishedDeletionLeavesNothingEarlier | internal/controller/oteloperator_controller.go:126-140 | then a finished deletion leaves nothing of it |
| StrandedNamespace.FinishedDeletionStrandsNamespace | internal/controller/oteloperator_controller.go:153-161 | the counterexample to complete teardown across configurations: for every instance in sound surroundings, install, edit the override, delete four times; the last deletion finishes, and the first namespace and its service account are still stored |
| StrandedNamespace.FinishedDeletionWithoutPlan | internal/controller/oteloperator_controller.go:120-125 | the counterexample to finished implies clean: for every instance in sound surroundings on which nothing is recorded, an Apply of a version without chart URL fails after creating the namespace, the version is withdrawn, the deletion finishes, and namespace and service account are still stored |

## Left out

- Controller.Reconciler.EnsureInstanceId: the update of the instance object is one success flag; conflicts and what else that update writes are not modelled.
- Manager.Manager.CreateOrUpdate: an update is refused when the object is no longer as it was read; resource versions as such are not modelled, and neither is the server's rule that a namespace must exist before objects in it, nor the cascade when a namespace is deleted.
- Manager.Manager.ReconcileContent: the kubeconfig is a record of address, CA data, token and namespace; its text, its constant entry names, and the two checks on constants (account name, requested hour) that cannot fail are left out.
- HelmEntries.EntryRoundTrip: of a variable, mount or volume only the fields the edits look at are typed; the rest is kept as it is, without the normalisation, unknown-field and letter-case rules of the JSON library.
- HelmValues.WorkloadHelmValues: marshalling errors cannot occur on trees and have no case.
- Graph.ManageFluxResources: constant parts of the Flux specifications (retries, layer selector, schema flags) and the text of the post-renderer patches; a patch is represented by what it mounts.
- ControllerTheorems.RecordedIsLastInstalled: the status is taken to be saved after every event; the runtime library that does so is not part of this model.
- TokenStore.StoredTokenIsValid: time zones and the text of RFC 3339 timestamps, and clock differences between clusters.
- Status message texts: messages are values that say what they name.
- Shortening of prefixed secret names: done by a library; here a parameter that may fail.
- Logging, metrics, caches, client set-up, flags and wiring in `cmd/service-provider-otel-operator/main.go`.
- Generated deep-copy code, CRD manifests, accessors and the end-to-end suites.
