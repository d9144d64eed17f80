# DataLogger operator — a Dafny model

This project models a Kubernetes operator for the `DataLogger` custom resource (group `app.stackit.cloud`, version `v1`). The operator watches DataLoggers and Namespaces. The Namespace controller provisions the namespaces that a Namespace's labels name. The repository also has a Deployment operator, which would run an httpbin Deployment for a DataLogger, and a Service operator, which would put a NodePort Service in front of it. Neither is wired in: the DataLogger reconciler's child section is still empty. A hash utility for a "last-applied-hash" annotation exists too, but no reconciler calls it.

The model covers these pieces. Each is written in the source's own form.

- **The API client** (`Store`). `Store.Cluster` is a pure value: an object table keyed by kind, namespace and name; the log of every call made so far; and an error oracle that can make any call fail. `Store.Client` is a class over that state. Its `Get`, `Create`, `Update`, `Delete` and `Scheme` methods are proved against the pure step functions. Get overwrites its target object only on success. Create of a taken key fails with "already exists". Update or Delete of a missing key fails with NotFound.
- **The API type** (`ApiV1`). It holds the DataLogger record and its accessors. `GetLabels` is a copy loop.
- **Hash utilities** (`Hash`). `ComputeToAnnotation` and `Equal` cover both ways the desired hash is obtained, the aliasing of a nil annotation map, and failure handling. The hash function is a caller-supplied function that may fail.
- **Namespace fan-out** (`Namespaces`). A Namespace's labels name further namespaces, and each is created if missing. The Go `range` over a map has no fixed order, so the loop is proved for every enumeration order of the label map.
- **Deployment convergence** (`Deployments`). Builds the Deployment a DataLogger asks for, then creates it or updates it. The pass is modelled twice: as written (`ReconcileAsWrittenSpec`) and with the corrected update (`ReconcileSpec`); see Findings.
- **Service convergence** (`Services`). A Create when the Service cannot be read. An Update, gated on ownership, when the Deployment does not control it.
- **The top-level DataLogger reconciler** (`DataLoggers`). It is still a stub.
- **The two controllers** (`Controllers`). Their requeue policy, NotFound suppression and error logging.
- **Cross-operator convergence** (`Convergence`). A Deployment pass followed by a Service pass.

Each operator is modelled twice:

- a pure specification function (`ReconcileSpec`, `FanOut`, `Converge`);
- the imperative method that does the calls on a `Store.Client`. The method's `ensures` ties the client's new state and the returned error to that function.

The lemmas about the functions carry the properties.

In these places the code behaves in ways a reader might not expect; the model follows the code:

- The DataLogger controller requeues after 30 seconds even on NotFound, returning no error (`controllers/datalogger_controller.go:46-54`).
- The Service operator creates a Service after *any* failed Service read, not only after NotFound (`pkg/service/service.go:59-71`).
- The finalizer step and the child reconciliation of the top-level reconciler are stubs (`pkg/datalogger/datalogger.go:21-55`).
- The owner reference a new Service gets uses API version `apps/v1` and kind `dataLogger` (`pkg/service/service.go:131`). It is modelled as written.
- Nothing in the reconcilers compares hashes before writing. The hash utilities are modelled as the library they are.

## Model

| member | source | states |
|---|---|---|
| Meta.Lookup | pkg/deployment/deployment.go:84-88 | a Go map read of labels: the stored value when the key is present, the empty string when it is absent or the map is nil |
| Meta.ApiVersion | pkg/service/service.go:95-99 | the apiVersion of a group version is group/version, and the bare version for the core group |
| Meta.NewControllerRef | pkg/service/service.go:95-100 | the new reference names the owner (name, uid), carries the kind's apiVersion and kind, is the controller and blocks owner deletion |
| ApiV1.SetResourceVersion | api/v1/datalogger_types.go:63-65 | the resource version is the new one and every other field of the DataLogger is unchanged |
| ApiV1.SetNamespace | api/v1/datalogger_types.go:96-98 | only the namespace changes |
| ApiV1.GetLabels | api/v1/datalogger_types.go:77-88 | nil for nil labels; otherwise a map with exactly the same keys and the same value for every key |
| ApiV1.SetThenGetNamespace | api/v1/datalogger_types.go:91-98 | Get after Set returns what was set, and setting back the old namespace restores the record |
| Resources.WithMeta | pkg/utils/hash/hash.go:22-23 | replacing an object's metadata keeps its kind and installs exactly the new metadata; installing the metadata it already has gives back the object |
| Store.GetStep | pkg/ports.go:12 | a Get is logged; without an injected fault it succeeds iff the key is stored, yielding the stored object, and a missing key is NotFound; an injected fault is the error returned; on failure the target is untouched |
| Store.CreateStep | pkg/ports.go:14 | a Create is logged; it succeeds iff no fault is injected and the key is free, and only then files the object; an injected fault is the error returned, and a taken key gives "already exists" |
| Store.UpdateStep | pkg/ports.go:15 | an Update is logged; it succeeds iff no fault is injected and the key is stored, and only then replaces the object; an injected fault is the error returned, and a missing key gives NotFound |
| Store.DeleteStep | pkg/ports.go:16 | a Delete is logged; it succeeds iff no fault is injected and the key is stored, and only then removes it; an injected fault is the error returned, and a missing key gives NotFound |
| Store.SchemeStep | pkg/ports.go:13 | reading the scheme is logged and changes nothing else |
| Store.Client.constructor | pkg/ports.go:11-17 | a new client holds the given table and fault oracle with an empty call log |
| Store.Client.Get | pkg/ports.go:12 | the new client state and the returned error and object are those of GetStep |
| Store.Client.Create | pkg/ports.go:14 | the new state and error are those of CreateStep |
| Store.Client.Update | pkg/ports.go:15 | the new state and error are those of UpdateStep |
| Store.Client.Delete | pkg/ports.go:16 | the new state and error are those of DeleteStep |
| Store.Client.Scheme | pkg/ports.go:13 | the new state is that of SchemeStep |
| Hash.WithAnnotations | pkg/utils/hash/hash.go:22-23 | setting annotations installs exactly the given map and keeps the kind and every other metadata field; restoring the old metadata gives back the object |
| Hash.Stripped | pkg/utils/hash/hash.go:22-27 | the object as hashed: a non-nil annotation map without the hash key, keeping every other annotation; putting the old annotations back gives back the object |
| Hash.StoredHash | pkg/utils/hash/hash.go:56 | Go's two-valued map read: present iff the annotations are non-nil and hold the hash key, and then its value |
| Hash.ComputeToAnnotation | pkg/utils/hash/hash.go:18-36 | succeeds iff hashing the object without its hash annotation succeeds; then returns a one-entry map holding that hash, and otherwise the hash error; of the object only the annotations change, losing exactly the hash key; nil annotations become the returned buffer, which is empty on failure |
| Hash.Equal | pkg/utils/hash/hash.go:51-76 | with a stored desired hash the answer is whether the current object stores the same hash (empty when absent); without one, false on a hashing failure, and otherwise whether the freshly computed hash equals the current one |
| Hash.AnnotationKey | pkg/utils/hash/hash.go:15 | the annotation key is app.stackit.cloud/last-applied-hash |
| Hash.StrippedIdempotent | pkg/utils/hash/hash.go:27 | removing the hash annotation twice is removing it once |
| Hash.HashIgnoresStoredHash | pkg/utils/hash/hash.go:26-29 | two objects that differ only in their stored hash get the same computed annotation |
| Hash.EqualRepeatable | pkg/utils/hash/hash.go:51-76 | asking again with the desired object as Equal left it gives the same verdict, whether or not the first call changed its annotations |
| Hash.EqualSeesNoDrift | pkg/utils/hash/hash.go:56-75 | a desired object without a stored hash equals a current object that stores the hash computed for it |
| Hash.EqualSeesDrift | pkg/utils/hash/hash.go:56-75 | a desired object without a stored hash compares unequal when hashing it fails or gives a hash other than the current object's |
| Namespaces.Logger.constructor | pkg/ports.go:19-22 | a new logger has received no errors |
| Namespaces.Logger.Error | pkg/ports.go:21 | the error is appended to what the logger received |
| Namespaces.NewNamespace | pkg/namespace/namespace.go:59-63 | the namespace created for a label value is cluster-scoped and named by that value, with all other metadata empty |
| Namespaces.IsCandidate | pkg/namespace/namespace.go:51 | a key is a candidate iff it starts with "namespaces"; the key "name" never is one |
| Namespaces.EnsureNamespace | pkg/namespace/namespace.go:52-75 | one Get, then at most one Create of the namespace the value names; on success that namespace is stored; the table is unchanged or gains just that namespace |
| Namespaces.FanOut | pkg/namespace/namespace.go:46-79 | the pass appends its calls to the log, at most a Get and a Create per label, and keeps the fault oracle |
| Namespaces.ReconcileSpec | pkg/namespace/namespace.go:24-44 | the first call fetches the trigger namespace; at most a Get and a Create per label follow; the injected logger receives at most the returned error, never NotFound |
| Namespaces.Enumerate | pkg/namespace/namespace.go:49 | the visit order lists every key of the label map exactly once with its value |
| Namespaces.CreateNamespaces | pkg/namespace/namespace.go:46-79 | for the order it visited the labels in, the new client state and error are those of FanOut |
| Namespaces.Reconcile | pkg/namespace/namespace.go:24-44 | the new client state, the error and the errors given to the injected logger are those of ReconcileSpec, with the labels visited in some enumeration order of the fetched namespace's labels |
| Namespaces.FetchFailureReturned | pkg/namespace/namespace.go:27-34 | a failed fetch of the trigger namespace is returned after that one Get; it is logged unless it is NotFound |
| Namespaces.LabelTriggersCallsIff | pkg/namespace/namespace.go:49-51 | a label causes calls iff its key is not "name" and starts with "namespaces"; any other label is skipped |
| Namespaces.NotFoundCreatesOnce | pkg/namespace/namespace.go:56-69 | a NotFound check makes exactly one Create of a namespace named by the label value; a failed Create ends the pass with its error |
| Namespaces.CheckErrorAborts | pkg/namespace/namespace.go:72-75 | a check that fails other than NotFound ends the pass with that error, without a Create and without visiting later labels |
| Namespaces.ExistingNamespaceNoWrite | pkg/namespace/namespace.go:56-57 | an existing namespace causes only its Get |
| Namespaces.FanOutOnlyProvisions | pkg/namespace/namespace.go:46-79 | every call of the fan-out reads or creates a namespace named by a candidate label; nothing is updated or deleted; nothing stored before changes; whatever faults occur, every key the table gains is a cluster-scoped namespace named by a candidate label, stored as NewNamespace builds it |
| Namespaces.FanOutSuccessProvisions | pkg/namespace/namespace.go:46-79 | after a successful fan-out every namespace a candidate label names exists |
| Namespaces.FanOutWithoutFaults | pkg/namespace/namespace.go:46-79 | with no injected fault the fan-out succeeds and adds exactly the missing candidate namespaces |
| Namespaces.FanOutWhenProvisioned | pkg/namespace/namespace.go:54-57 | when every candidate namespace exists, the fan-out writes nothing and leaves the table unchanged |
| Namespaces.FanOutIdempotent | pkg/namespace/namespace.go:46-79 | after a fault-free fan-out a second one over the same labels succeeds, writes nothing and leaves the table as the first left it |
| Namespaces.EnumeratedCandidates | pkg/namespace/namespace.go:49-52 | a visit of every label of a map once asks for exactly the values of its candidate labels |
| Namespaces.ReconcileOnlyProvisions | pkg/namespace/namespace.go:24-79 | a whole namespace pass never updates or deletes and changes nothing stored before; every call after the trigger fetch reads or creates a namespace named by a candidate label; every key the table gains is such a namespace, and for an enumeration of the fetched labels, one named by a candidate label of the trigger namespace |
| Namespaces.ExampleCandidates | pkg/namespace/namespace.go:49-51 | of the labels namespaces/a, namespaces/b and name, exactly the first two are candidates, in any order |
| Namespaces.FanOutExample | pkg/namespace/namespace.go:46-79 | a fault-free fan-out over those labels, in any order, succeeds, leaves exactly ns-a and ns-b provisioned on top of the old table, and never reads or creates a namespace named ignored |
| Deployments.CreateDeployment | pkg/deployment/deployment.go:83-135 | the Deployment is named by the custom name in the DataLogger's namespace with otherwise empty metadata; it has the DataLogger's replicas, a selector equal to the pod labels, whose three keys copy the name and instance labels and set app to the custom name; it has one container datalogger-container running kennethreitz/httpbin on port 8080 with CUSTOM_NAME set |
| Deployments.Converge | pkg/deployment/deployment.go:51-81 | corrected: one Get, then at most one write, which carries the desired Deployment; the table is unchanged or holds the desired Deployment under its key |
| Deployments.ConvergeAsWritten | pkg/deployment/deployment.go:51-81 | as written: one Get, then a Create of the object on a missing key, or an Update that sends back the stored Deployment; so a stored Deployment is never changed and only a missing one is filed |
| Deployments.ReconcileSpec | pkg/deployment/deployment.go:27-48 | the pass with the corrected update: at most four calls, a DataLogger fetch error returned, no delete, and no object but a Deployment changed |
| Deployments.ReconcileAsWrittenSpec | pkg/deployment/deployment.go:27-48 | the pass as written: at most four calls, a DataLogger fetch error returned, no delete, and no object already stored ever changed |
| Deployments.ReconcileAsWritten | pkg/deployment/deployment.go:27-48 | the new client state and error are those of ReconcileAsWrittenSpec |
| Deployments.AsWrittenAgreesWhenAbsent | pkg/deployment/deployment.go:54-70 | for a Deployment not yet stored, the as-written and corrected convergence are the same |
| Deployments.CreateOrUpdate | pkg/deployment/deployment.go:51-81 | the new client state and error are those of Converge with the desired Deployment |
| Deployments.CreateOrUpdateAsWritten | pkg/deployment/deployment.go:51-81 | the new client state and error are those of ConvergeAsWritten, where the Get overwrites the object that is then updated |
| Deployments.Reconcile | pkg/deployment/deployment.go:27-48 | the new client state and error are those of ReconcileSpec, the pass with the corrected CreateOrUpdate |
| Deployments.DataLoggerFetchFailure | pkg/deployment/deployment.go:28-31 | a failed DataLogger fetch, NotFound included, is returned after that one Get |
| Deployments.OwnerCallbackFailure | pkg/deployment/deployment.go:33-39 | a failing owner callback ends the pass with its error after the Get and the scheme read, before any read or write of the Deployment |
| Deployments.NotFoundCreates | pkg/deployment/deployment.go:54-70 | a missing Deployment leads to exactly one Create of the desired Deployment, whose error is returned |
| Deployments.GetErrorReturned | pkg/deployment/deployment.go:55-59 | any other read error is returned with no write; AsWrittenAgreesOnGetFailure carries this to the code as written |
| Deployments.FoundUpdates | pkg/deployment/deployment.go:73-80 | corrected Converge: an existing Deployment leads to exactly one Update of the desired Deployment, whose error is returned, and success stores the desired Deployment |
| Deployments.FoundUpdatesAsWritten | pkg/deployment/deployment.go:54-80 | as written: an existing Deployment leads to exactly one Update carrying the stored object, whose error is returned, and the table is unchanged either way |
| Deployments.AsWrittenAgreesOnGetFailure | pkg/deployment/deployment.go:54-70 | when the Get fails, NotFound included, the as-written and corrected convergence are the same |
| Deployments.AsWrittenAgreesBeforeConverge | pkg/deployment/deployment.go:27-39 | on a DataLogger fetch failure or an owner-callback failure the as-written and corrected passes are the same, so DataLoggerFetchFailure and OwnerCallbackFailure hold of the code as written |
| Deployments.ConvergeStoresDesired | pkg/deployment/deployment.go:51-81 | a successful convergence leaves the desired Deployment stored under its key and nothing else changed |
| Deployments.SecondPassStillUpdates | pkg/deployment/deployment.go:73-80 | corrected Converge: with no faults, after a successful convergence a second one also succeeds and again ends with an Update of the desired Deployment: nothing gates the write |
| Deployments.SecondPassStillUpdatesAsWritten | pkg/deployment/deployment.go:54-80 | as written: with no faults, after a successful convergence a second one also succeeds and ends with an Update that sends back what the first left stored, so the table is unchanged |
| Deployments.AsWrittenKeepsStoredDeployment | pkg/deployment/deployment.go:54-80 | as written, converging onto an existing Deployment sends back the stored object and leaves the table unchanged |
| Deployments.AsWrittenReplicasNeverChange | pkg/deployment/deployment.go:54-80 | for a stored Deployment with 1 replica and a desired one with 2, the as-written pass keeps 1 while Converge stores 2 |
| Services.NewServiceForDataLogger | pkg/service/service.go:119-146 | the Service is named by the custom name in the DataLogger's namespace, labelled and selecting app set to the custom name, with one port carrying the DataLogger's port, target port and node port, type NodePort, and one controller reference to the DataLogger with kind dataLogger and apiVersion apps/v1 |
| Services.UpdateService | pkg/service/service.go:88-117 | of the metadata only labels and owner references change, to app set to the custom name and a single controller reference to the Deployment; the spec becomes the one a new Service for the DataLogger gets |
| Services.UpdateServiceIdempotent | pkg/service/service.go:88-117 | rebuilding a rebuilt Service changes nothing |
| Services.ReconcileSpec | pkg/service/service.go:29-86 | the pass appends its calls to the log; a NotFound DataLogger gives no error; every call is a Get or a Create or Update of a Service, and no other kind of object changes |
| Services.Reconcile | pkg/service/service.go:29-86 | the new client state and error are those of ReconcileSpec |
| Services.DataLoggerNotFoundIgnored | pkg/service/service.go:34-38 | a NotFound DataLogger ends the pass with no error after that one Get |
| Services.DataLoggerErrorReturned | pkg/service/service.go:40-42 | any other DataLogger fetch error is returned after that one Get |
| Services.DeploymentRequired | pkg/service/service.go:45-50 | a Deployment that cannot be read ends the pass with that error, before the Service is read, with nothing written |
| Services.ServiceErrorCreates | pkg/service/service.go:55-71 | any Service read error leads to exactly one Create of the Service for the DataLogger, whose error is returned |
| Services.OwnershipGatesUpdate | pkg/service/service.go:73-85 | a found Service is updated iff the Deployment does not control it, with exactly the rebuilt Service, and the Update's error is returned; a controlled one ends with no write and no error |
| Services.AtMostOneWrite | pkg/service/service.go:29-86 | a Service pass makes at most four calls; all but the last are reads, and none is a delete |
| DataLoggers.HandleFinalizer | pkg/datalogger/datalogger.go:49-55 | the finalizer step returns no error and changes nothing |
| DataLoggers.Reconcile | pkg/datalogger/datalogger.go:21-47 | a pass returns no error, changes neither the client nor the DataLogger, and reaches the child section iff the deletion timestamp is zero |
| Controllers.IgnoreNotFound | controllers/datalogger_controller.go:53 | NotFound becomes no error and any other error is kept |
| Controllers.Logged | controllers/datalogger_controller.go:46-49 | a controller logs an error iff it is not NotFound |
| Controllers.DataLoggerOutcome | controllers/datalogger_controller.go:41-74 | the controller requeues after 30 seconds iff the Get or the reconciler failed, and otherwise returns an empty result; the only error hidden from the manager is a NotFound Get |
| Controllers.NamespaceOutcome | controllers/namespace_controller.go:31-46 | the controller requeues after 30 seconds iff the operator failed; a NotFound is hidden from the manager and any other error returned |
| Controllers.DataLoggerReconcile | controllers/datalogger_controller.go:41-74 | one Get, then the outcome DataLoggerOutcome gives for that Get and the top-level reconciler's pass, with the non-NotFound errors logged |
| Controllers.NamespaceReconcile | controllers/namespace_controller.go:31-46 | the namespace operator's pass, then the outcome NamespaceOutcome gives for its error; the log receives the operator's messages followed by the controller's |
| Controllers.FetchedDataLoggerIsDone | controllers/datalogger_controller.go:56-74 | with the reconciler as it stands, a readable DataLogger is done with no requeue, no error and nothing logged |
| Controllers.FetchFailureRequeues | controllers/datalogger_controller.go:45-54 | a failed DataLogger fetch requeues after RequeueTime whatever the reason, and the reconciler is not consulted |
| Controllers.NamespaceFetchFailureLoggedTwice | controllers/namespace_controller.go:34-43 | a failed trigger-namespace fetch is logged twice, by the operator and by the controller, unless it is NotFound, which neither logs |
| Controllers.ProvisioningFailureLoggedByController | controllers/namespace_controller.go:34-43 | a provisioning failure never reaches the operator's injected logger; the controller logs it unless it is NotFound |
| Convergence.FirstPassesProvision | pkg/service/service.go:29-86 | on a fault-free store with neither child, a Deployment pass (which is the same as written) then a Service pass both succeed, with exactly one Deployment Create and one Service Create, and leave exactly those two objects added |
| Convergence.SteadyStateWritesNothingNew | pkg/deployment/deployment.go:27-81 | once the owned Deployment is stored and controls the Service, the two passes succeed, leave the table unchanged and make seven calls |

## Findings

| source | as written | input that shows it | evidently intended | confidence | as-written member | corrected member |
|---|---|---|---|---|---|---|
| pkg/deployment/deployment.go:54-80 | `CreateOrUpdate` reads the existing Deployment into the same object that holds the desired one, then sends that object to Update, so the stored Deployment is written back unchanged | a stored Deployment with 1 replica and a DataLogger asking for 2: the pass keeps 1 replica | read into a separate object and update with the desired Deployment, so a changed spec is stored | high (not executed) | Deployments.AsWrittenReplicasNeverChange | Deployments.ConvergeStoresDesired |

`Deployments.ConvergeAsWritten`, `Deployments.CreateOrUpdateAsWritten`, `Deployments.ReconcileAsWrittenSpec` and `Deployments.ReconcileAsWritten` model the code as written, and `Deployments.FoundUpdatesAsWritten`, `Deployments.SecondPassStillUpdatesAsWritten` and `Deployments.AsWrittenKeepsStoredDeployment` state what it does for a stored Deployment. `Deployments.Converge` and `Deployments.CreateOrUpdate` read into an empty Deployment; `Deployments.ReconcileSpec` and `Deployments.Reconcile` use them, and so do `Deployments.FoundUpdates`, `Deployments.ConvergeStoresDesired`, `Deployments.SecondPassStillUpdates` and the `Convergence` lemmas about a stored Deployment.

## Left out

- Deployments.FoundUpdates: states the corrected Update; as written the Update carries the stored object and a successful one leaves the table unchanged (`Deployments.FoundUpdatesAsWritten`).
- Deployments.SecondPassStillUpdates: states the corrected second pass; as written its Update sends back what is stored, not the desired Deployment (`Deployments.SecondPassStillUpdatesAsWritten`).
- Deployments.Reconcile: composes the corrected CreateOrUpdate, so for a stored Deployment it writes the desired one where the code as written sends the stored one back; `Deployments.ReconcileAsWritten` is the pass as written.
- Logging beyond errors: Info messages and the error messages' text and key/value arguments are not modelled. Only the errors the namespace operator's injected logger and the two controllers log are kept: the namespace operator's, then the controller's, in one `Namespaces.Logger`.
- The namespace walk's and `CreateOrUpdate`'s own error logging through the request context's logger is not modelled.
- `context.Context`, cancellation and deadlines are not modelled. `time.Duration` is modelled as a whole number of seconds.
- JSON encoding and SHA-256 are not modelled. The hash is a caller-supplied function `Hash.Hasher` that may fail. The model assumes nothing about collisions.
- The owner callback (`controllerutil.SetControllerReference` in the application) and the `IsControlledBy` predicate are parameters. Their logic is not modelled.
- Pointers are replaced by values. Setters, `UpdateService` and `ComputeToAnnotation` return the updated record instead of changing it in place. The aliasing of a nil annotation map with the returned buffer is modelled explicitly.
- Kubernetes object fields beyond those the core reads or writes are not modelled: status, type metadata, and Service fields the update would clear, such as the cluster IP.
- Errors are modelled as NotFound or a failure with a reason. The API server's other error types are folded into the latter.
- `DataLoggers.Reconcile`: the finalizer step and the child reconciliation are stubs in the source, so the model has nothing more to say. The unreachable error branch in `Controllers.DataLoggerReconcile` is marked as such.
- Concurrency, watches, the manager's scheduling and `SetupWithManager` are not modelled. Nor are `main.go`, the typed reference helpers in `internal/reference.go` and the JSON diff utility, which lie outside the core.
- `DataLogger.GetCreationTimestamp` and the other plain getters are modelled as field reads without contracts of their own.
