# simple-app-operator: a Dafny model of the SimpleApp reconciler

This project models the controller of simple-app-operator. A `SimpleApp` declares an application by its image, replica count, container port and service port. For each declaration, the reconciler keeps three dependents in step with it:

- a Deployment;
- a ClusterIP Service;
- optionally an Ingress.

It also mirrors the Deployment's ready-replica count back into the declaration's status.

The cluster is a finite store `map<Key, Obj>`, keyed by (kind, namespace, name). Every API call the reconciler makes (`Get`, `Create`, `Update`, `Status().Update`) is a pure function on that store. API errors, transient or not, are injected: a `Faults` map names the calls that fail and the message each one fails with. A call that fails changes nothing. The `INGRESS_CLASS_NAME` environment variable becomes a string parameter, where `""` means unset.

Modules, following the program's structure:

- `Meta` (`meta.dfy`): `int32`, `Option`, `Result` and object metadata.
- `AppTypes` (`app_types.dfy`): the declaration record, and admission by its kubebuilder markers (`Admit`, `ValidSpec`).
- `Objects` (`objects.dfy`): Deployment, Service, Ingress, keys, and the platform guarantees on stored objects.
- `Cluster` (`cluster.dfy`): the store, the API calls, and what one step did (`Touch`: skipped, read only, or read then wrote).
- `Desired` (`desired.dfy`): the objects `ensureDeployment`, `ensureService` and `ensureIngress` build, and the names and keys they live under.
- `Ensure` (`ensure.dfy`): the three create-or-patch operations.
- `Reconciler` (`reconciler.dfy`): one `Reconcile` pass, as a chain of stages matching the early returns of the Go function, plus the flat call sequence of a pass (`Trace`).
- `Requeue` (`requeue.dfy`): repeated passes on one key, as the work queue drives them.

Operations are methods over immutable values, so each caller sees only the contract of what it calls.

Every ensure operation has the following partners:

- the "settled" predicate it establishes;
- the frame it keeps (nothing outside its own key changes);
- the "only these fields changed" relation to the live object;
- a `...Twice` method proving that a second run writes nothing.

`Reconcile` has the following partners:

- `Converged`, which a successful pass establishes and which makes any later pass a no-op;
- the `Trace` lemmas, which relate a pass's step summary to the ordered call list it stands for. `Trace` lists the fetch, the Deployment, Service and Ingress steps and the status write in the order of the Go function's body by definition; which steps a pass reaches, and that it stops at the first failure, is stated by `Reconcile`'s contract.

One behaviour follows from the code as written. When `ensureIngress` patches a drifted class, it changes only `IngressClassName`. The legacy `kubernetes.io/ingress.class` annotation keeps the class the object was created with. `OnlyClassChanged` in the contract of `Ensure.EnsureIngress` states exactly that.

## Model

| member | source | states |
|---|---|---|
| AppTypes.Admit | api/v1/simpleapp_types.go:24-43 | A manifest is admitted exactly when the image and container port are present, the replicas (if given) are at least 1, and the container port is in [1, 65535]. The admitted spec satisfies `ValidSpec`, keeps every given field, and defaults replicas to 1 and the service port to 80. |
| AppTypes.AdmitSubmitted | api/v1/simpleapp_types.go:24-43 | A fully written-out spec is admitted iff it is valid, and is then returned unchanged. |
| AppTypes.AdmitIdempotent | api/v1/simpleapp_types.go:29-42 | Re-admitting an admitted spec is a no-op: defaulting is applied once. |
| Desired.KeyForInjective | internal/controller/simpleapp_controller.go:216 | Within one kind, dependent keys determine the namespace and declaration name, including the `-ingress` suffixed names. |
| Desired.ManagedDisjoint | internal/controller/simpleapp_controller.go:96-217 | Two different declarations never share a managed key, so their passes cannot interfere. |
| Desired.DesiredDeploymentShape | internal/controller/simpleapp_controller.go:93-125 | The desired Deployment is named and namespaced like the declaration and owned by it. Selector and pod labels are exactly `{app: name}`. It has one container `app` with the declared image and one port, replicas equal to the spec, and a zero ready count. Under `ValidSpec`, replicas are at least 1 and the port is in range. |
| Desired.DesiredObjectsWired | internal/controller/simpleapp_controller.go:160-251 | The desired Service selects the Deployment's pod labels, has type ClusterIP, and has one port mapping the service port to the container's port. The desired Ingress is named `<name>-ingress`, routes `<name>.local/` with a Prefix path to that Service on that port, and carries the class in both the spec and the legacy annotation. |
| Ensure.EnsureDeployment | internal/controller/simpleapp_controller.go:92-156 | Only the Deployment key changes. A non-not-found read error is returned with no write. An absent Deployment is created as the desired one. A present one is updated (replicas and first image only) exactly when it is not settled, and otherwise left alone. Success implies it is settled and stored. The ready count returned is the live one, or 0 on create. Errors are exactly the injected fault of the last call. Under its key the store then holds the desired Deployment where there was none, or the live one, as it was or with replicas and first image set to the desired ones (`StepAsBuilt`, `PatchedAs`). |
| Ensure.EnsureService | internal/controller/simpleapp_controller.go:159-200 | Only the Service key changes. An absent Service is created as the desired one. A present one whose first port or target port drifted has its whole port list replaced by the desired list; selector and type are never patched. It writes exactly when a read went through and the Service was not settled. Under its key the store then holds the desired Service, or the live one as it was or with its port list replaced by the desired list. |
| Ensure.EnsureIngress | internal/controller/simpleapp_controller.go:203-281 | With class `""` there is no call and no change, and the result is `None`. Otherwise the desired Ingress is created when absent. A present one is patched, and only in its class, exactly when its class is set and differs; the patched class is the configured one, and a nil class is never patched. Errors are the injected fault of the last call. Under its key the store then holds the desired Ingress, or the live one as it was or with its class set to the configured one. |
| Ensure.EnsureDeploymentTwice | internal/controller/simpleapp_controller.go:139-155 | After a successful run, a second run on the same declaration never writes, leaves the store unchanged, and on success returns the same Deployment, whatever fails in it. |
| Ensure.EnsureServiceTwice | internal/controller/simpleapp_controller.go:191-199 | The same idempotence for the Service. |
| Ensure.EnsureIngressTwice | internal/controller/simpleapp_controller.go:273-280 | The same idempotence for the Ingress under one class. |
| Reconciler.SyncStatus | internal/controller/simpleapp_controller.go:79-85 | The status is written exactly when the stored ready count differs from the observed one. After success they are equal. Only the declaration's ready count changes; `serviceStatus` is never written. A failed write changes nothing. |
| Reconciler.FromIngress | internal/controller/simpleapp_controller.go:73-85 | The Ingress step then the status step. With class `""` the Ingress is skipped and untouched. The status is written only after the Ingress step succeeded and settled. A failure is the last call's fault and leaves the declaration untouched. A settled store with matching status gives a quiet pass. `WroteAsBuilt`: the Ingress is the desired one where there was none, or the live one as it was or with its class set to the configured one; it is written only when it was not settled, and left exactly as it was when not written; the Deployment and Service are left exactly as they were. |
| Reconciler.FromService | internal/controller/simpleapp_controller.go:67-85 | The Service step, then the rest. Later steps run only after the Service step succeeded and left the Service settled. Writes fit what each read saw. `WroteAsBuilt`: each of the Service and Ingress is the desired object where there was none, or the live one as it was or patched to Go's values (the desired port list; the configured class), written only when it was not settled before the pass, and exactly as it was when not written; the Deployment is left exactly as it was. |
| Reconciler.FromDeployment | internal/controller/simpleapp_controller.go:61-85 | The whole pass after the fetch. Each later step runs only after the earlier ones succeeded and settled their objects. Success means all three dependents are settled and the stored ready count equals the Deployment's. The status is written iff it differed from the count `ensureDeployment` returned. Only the four managed keys change. `WroteAsBuilt` holds for all three dependents. |
| Reconciler.Reconcile | internal/controller/simpleapp_controller.go:52-89 | A missing declaration gives a successful pass with no other call. A fetch fault is returned unchanged. Steps run in order and stop at the first failure, which is the last call's injected error; objects of earlier steps stay settled. A successful pass on a declared key ran the Service step and, when a class is set, the Ingress step, and leaves the key converged. A pass on a converged store writes nothing. Without faults, the pass succeeds. Nothing outside the key's four objects changes. On a declared key (`WroteAsBuilt`), each dependent the pass leaves is the desired object where there was none, or the live one as it was or patched to the desired values where its ensure step patches (replicas and first image, the port list, the class), and none is removed; a step wrote only an object that was not settled in the store the pass started from; a step that did not write left its object exactly as it was. |
| Reconciler.TraceLast | internal/controller/simpleapp_controller.go:57-84 | `LastCall` is the last element of the pass's call sequence. |
| Reconciler.TraceQuiet | internal/controller/simpleapp_controller.go:52-89 | A pass whose writes fit its reads wrote nothing exactly when all its calls were reads. |
| Reconciler.TraceStopsAtFault | internal/controller/simpleapp_controller.go:57-84 | For a pass as `Reconcile` returns it, every call before the last went through. A failed pass failed at its last call with that call's error. A successful pass had no failing call. |
| Requeue.Passes | internal/controller/simpleapp_controller.go:58-88 | Over any schedule of faulty passes, with no other writer between them, only the key's four objects change. Every fault-free pass succeeds. Once any pass has succeeded, the key stays converged. A converged store is never changed. The declaration's metadata and spec are never changed. |
| Requeue.ReconcileTwice | internal/controller/simpleapp_controller.go:52-89 | After a successful pass, the next pass on the same key writes nothing and leaves the store unchanged, whatever fails in it. |

## Left out

- `SetupWithManager`, the RBAC markers, logging and `context` cancellation are left out. They wire the controller to the manager and carry no logic of the pass.
- The error branches of `ctrl.SetControllerReference` (internal/controller/simpleapp_controller.go:123-125, 175-177, 254-256) are left out. Its effect is modelled as stamping an owner reference `(SimpleApp, name)`. It cannot fail for a freshly built object whose owner type is registered.
- The client's Create, Update and status Update are modelled as plain map writes. Resource-version conflicts, server-side defaulting and the object the server echoes back are not modelled. Every failing call, transient or not, is an injected fault.
- The declaration's image marker (api/v1/simpleapp_types.go:26) only requires the field to be present. `Admit` therefore accepts an empty image string, as the code does, although a reading of the marker as "non-empty" would reject it.
- Admission reports one violated marker (a missing required field first, then minimum and maximum violations in field order), while the API server reports all of them. Only acceptance and the admitted value are stated in full.
- Nil and empty dereferences (`*existing.Spec.Replicas`, `Containers[0]`, `Ports[0]` at internal/controller/simpleapp_controller.go:140, 143, 191) are assumed away. The store invariant `WellFormed` requires every stored Deployment to have a container and every Service a port. Replicas are never nil in the model.
- A declaration submitted without any `spec` is not modelled. The field is optional (`json:"spec,omitempty"` with no Required marker, api/v1/simpleapp_types.go:65), so the API server admits it, the markers and defaults do not apply, and the code reconciles a zero spec (replicas 0, empty image, ports 0) whose Deployment the server rejects on every pass. The store invariant `WellFormed` requires every stored declaration to satisfy `ValidSpec`, and `Manifest` cannot express a missing spec.
- A failing call has no effect on the store. A write that times out on the client but was applied by the server is not modelled.
- `Get` reads the store itself, not the controller's informer cache. A stale cache that reports NotFound for an object that exists, so that the following Create fails with AlreadyExists, is not modelled.
- `INGRESS_CLASS_NAME` is read once per pass as a parameter, not from the process environment.
- Garbage collection of dependents when a declaration is deleted is left out. The platform does it, not this code.
- The concurrent worker pool is left out; passes for one key run one at a time.
- `dashboard/main.go` is not part of this model.
- `SimpleAppList` and scheme registration (api/v1/simpleapp_types.go:70-81) are left out.
- Reconciler.Reconcile: the API server's validation of the dependents it creates is not modelled. The store accepts any object. The schema leaves `servicePort` unconstrained (api/v1/simpleapp_types.go:41-42), so a declaration with service port 0 or above 65535 gets a Service the server would reject on every pass. So does a declaration whose name is not a valid Service name. Such rejections count as faults here, and `Clean(faults) ==> r.outcome.Done?` says nothing about those declarations.
- Reconciler.Reconcile: that the step at which a pass failed wrote nothing is stated by each ensure operation (`r.result.Err? ==> r.store == s`) but not carried to the pass, since `Pass` does not record which step failed. At the pass level a failed update could only have stored the patch the step would have stored (`WroteAsBuilt`).
- Requeue.Passes: between passes nothing else writes the store. There is no Deployment controller changing `readyReplicas`, no user edit of the declaration and no drift of the dependents. "Once a pass succeeded, the key stays converged" holds only for such a schedule; the events that would enqueue the key again are not modelled.
