# VirtualRobot operator: a Dafny model

This project models the controller of a Kubernetes operator that manages one
custom resource kind: `VirtualRobot` (group `robots.ludusrusso.dev`, version
`v1alpha1`). A robot declares a `robotName` and a `baseURL`. For each robot,
the controller keeps three dependents in the cluster:

- a Pod running the `ludusrusso/vbot:v2` image on port 9090;
- a Service selecting that Pod by the robot's UID;
- an Ingress that routes `<metadata name>.<baseURL>` to the Service, with TLS
  certificates issued through cert-manager.

After applying all three, the controller publishes the host in
`status.url`.

The model has two parts:

- **Desired-state builders** (`builders.dfy`, module `Builders`). `DesiredPod`,
  `DesiredService`, `DesiredIngress` and `BuildName` are pure functions from a
  robot to records. Each builder ends with the owner-reference step
  (`SetControllerReference`). This step is abstract. The runtime scheme is
  over-approximated by the dependent kinds it refuses (`Scheme.refusals`). A refused
  kind makes the builder return the scheme's error, with no reference
  attached. Otherwise the robot becomes the dependent's sole controller.
  `builder_properties.dfy` proves what the three objects agree on:
  - the Service selector equals the Pod labels;
  - port 9090 is used everywhere;
  - the Ingress backend names the Service;
  - one host string is used for the rule, the TLS host and the secret name.
- **Reconcile** (`reconciler.dfy`, module `Reconciler`). The reconciler is a
  class, `VirtualRobotReconciler`, over a fake API client class, `FakeClient`.
  The fake client holds:
  - a store of robots keyed by namespace/name;
  - the failures it injects (`Faults`): for Get, for the Patch of each kind,
    and for the status update;
  - the trace of every write issued to it.

  `Reconcile` follows the source's straight-line, fail-fast sequence. It
  fetches the robot, builds the three dependents, patches the Pod, the
  Service and the Ingress (forced server-side apply as field manager
  `virtualrobot`), then updates the status. It is proved equal to the pure
  function `Reconciled`. `reconcile_properties.dfy` proves these properties of
  `Reconciled`:
  - the NotFound short-circuit;
  - the fixed order of the writes;
  - the error returned on each early exit, and the status update's own error when that write fails;
  - the status is written exactly when every apply succeeded;
  - idempotence after a success.

Points to note about the code:

- The host is built from the robot's metadata `Name`, not from
  `spec.robotName` (controllers/virtualrobot_controller.go:177). The dependents'
  names do come from `spec.robotName` (line 235). `HostIgnoresRobotName` and
  `MetadataNameExample` state this.
- Nothing validates `robotName`. An empty one is accepted, and the builders
  fail only when the owner reference cannot be attached
  (`EmptyRobotNameAccepted`, `BuildersFailOnlyOnOwnerReference`).
- Dependents are named after `robotName` alone. Two robots in one namespace
  with equal `robotName` therefore write the same objects
  (`SameRobotNameCollides`). This latent collision is modelled as written.

## Model

| member | source | states |
|---|---|---|
| Apimachinery.IgnoreNotFound | controllers/virtualrobot_controller.go:52-54 | a NotFound Get error becomes nil; any other error is returned unchanged |
| Builders.DesiredPod | controllers/virtualrobot_controller.go:108-141 | the Pod has key (robot namespace, robotName) and label `robot` = UID; it has one container `bot` with image `ludusrusso/vbot:v2` and one TCP port `ws` = 9090; it fails exactly when the owner reference is refused, and then carries no owner reference; otherwise the robot is its sole controller |
| Builders.DesiredService | controllers/virtualrobot_controller.go:144-172 | the Service has key (robot namespace, robotName) and selector `robot` = UID; its one TCP port `ws` has port 9090 and target port 9090; its owner-reference outcome is as for the Pod |
| Builders.DesiredIngress | controllers/virtualrobot_controller.go:175-223 | the Ingress has key (robot namespace, robotName) and exactly the three fixed annotations; it has one rule for metadata name + "." + baseURL with the single path `/` to (robotName, 9090); its TLS entry uses that host as the only host and as the secret name; the returned host is that host on success and "" on failure |
| Builders.BuildName | controllers/virtualrobot_controller.go:234-236 | the dependents' name is spec.robotName verbatim |
| Builders.SetControllerReference | controllers/virtualrobot_controller.go:137-139 | the owner-reference step fails exactly when the scheme refuses the kind, returning the scheme's error with the metadata unchanged; otherwise only the owner references change, gaining the robot's controller reference at the end |
| BuilderProperties.SelectorMatchesPodLabels | controllers/virtualrobot_controller.go:117-157 | the Service selector equals the Pod's label map, and the label `robot` is the robot's UID |
| BuilderProperties.OnePortEverywhere | controllers/virtualrobot_controller.go:126-203 | the container port, the Service port, the target port and the Ingress backend port are all 9090, and the two protocols are TCP |
| BuilderProperties.IngressRoutesToService | controllers/virtualrobot_controller.go:198-205 | the Ingress has one rule with the single path `/`; its backend is the Service's name, in the same namespace |
| BuilderProperties.HostAgreement | controllers/virtualrobot_controller.go:177-222 | the rule host, the sole TLS host and the TLS secret name are all metadata name + "." + baseURL; the returned host equals it on success and is "" on failure |
| BuilderProperties.DependentsNamedAfterRobotName | controllers/virtualrobot_controller.go:234-236 | all three dependents have key (robot namespace, robotName), whatever the owner-reference step does |
| BuilderProperties.SameRobotNameCollides | controllers/virtualrobot_controller.go:234-236 | two robots with the same namespace and robotName get dependents under identical keys; if their UIDs differ, their Pods differ |
| BuilderProperties.HostIgnoresRobotName | controllers/virtualrobot_controller.go:176-177 | changing only robotName renames the Ingress and leaves the host unchanged |
| BuilderProperties.MetadataNameExample | controllers/virtualrobot_controller.go:177 | metadata name "arm-sample" with robotName "r2d2" and baseURL "bots.io" gives host "arm-sample.bots.io", not "r2d2.bots.io", and a Pod named "r2d2" |
| BuilderProperties.EmptyRobotNameAccepted | controllers/virtualrobot_controller.go:234-236 | an empty robotName builds all three dependents, named "", when the owner reference is not refused |
| BuilderProperties.BuildersFailOnlyOnOwnerReference | controllers/virtualrobot_controller.go:137-222 | all three builders succeed iff the scheme refuses none of the three kinds; each successful dependent is controlled by the robot alone |
| Reconciler.FakeClient.Get | controllers/virtualrobot_controller.go:52 | Get returns the injected failure if there is one; otherwise the stored robot; otherwise NotFound with the zero robot |
| Reconciler.FakeClient.Patch | controllers/virtualrobot_controller.go:76-90 | each Patch call is appended to the trace with its options and answers the injected failure for its kind |
| Reconciler.FakeClient.UpdateStatus | controllers/virtualrobot_controller.go:95 | the status update is appended to the trace; on success it replaces only the stored robot's status; on failure the store is unchanged |
| Reconciler.VirtualRobotReconciler.Reconcile | controllers/virtualrobot_controller.go:46-105 | every exit returns the empty ctrl.Result; the returned error, the writes appended to the trace and the new store are those of `Reconciled` |
| ReconcileProperties.NotFoundShortCircuit | controllers/virtualrobot_controller.go:52-54 | when Get answers NotFound: nil error, no write, store unchanged |
| ReconcileProperties.GetErrorReturned | controllers/virtualrobot_controller.go:52-54 | any other Get error is returned unchanged, with no write |
| ReconcileProperties.OwnerReferenceFailureBeforeWrites | controllers/virtualrobot_controller.go:58-74 | a refused owner reference returns the first refusal (Pod, then Service, then Ingress) before any Patch or status write |
| ReconcileProperties.WritesFollowPlan | controllers/virtualrobot_controller.go:76-95 | the writes are a prefix of [Patch Pod, Patch Service, Patch Ingress, status update with the built host]; every Patch uses Apply with ForceOwnership and field owner "virtualrobot" |
| ReconcileProperties.EarlyStopReturnsLastPatchError | controllers/virtualrobot_controller.go:77-90 | every write before the last is a Patch that succeeded; a fetched and linked robot always gets its Pod Patch issued; when some Patch fails, the error is the first failing kind's (Pod, then Service, then Ingress), the writes are the plan cut just after that Patch, and the store is unchanged |
| ReconcileProperties.StatusWrittenIffAllApplied | controllers/virtualrobot_controller.go:76-100 | the status is written iff Get succeeded, all owner references were attached and all three Patches succeeded; it is then written once, as the fourth and last write |
| ReconcileProperties.SucceedsIff | controllers/virtualrobot_controller.go:46-105 | the error is nil exactly on the NotFound short-circuit or when every step, including the status update, succeeded; once the status update is issued, its error is returned unchanged |
| ReconcileProperties.FailureKeepsStatus | controllers/virtualrobot_controller.go:92-100 | a failed reconciliation leaves the stored robots, and so the published URL, unchanged |
| ReconcileProperties.SuccessPublishesHost | controllers/virtualrobot_controller.go:92-95 | after a successful reconciliation, the stored robot's status URL is metadata name + "." + baseURL and nothing else has changed |
| ReconcileProperties.ReconcileIdempotent | controllers/virtualrobot_controller.go:46-105 | after a success, reconciling again issues the same writes, leaves the same store and succeeds |
| ReconcileProperties.EndToEndExample | controllers/virtualrobot_controller.go:46-223 | robot "r2d2" with base URL "bots.io": four writes; Pod, Service and Ingress named "r2d2" on port 9090; host and TLS secret "r2d2.bots.io"; stored status URL "r2d2.bots.io" |

## Left out

- Logging and `fmt.Printf` (controllers/virtualrobot_controller.go:48, 56, 94, 97, 102): they have no effect on the result.
- `SetupWithManager` (controllers/virtualrobot_controller.go:225-232): this is watch registration with the framework. The framework's work queue, requeue backoff and concurrent workers are outside the model.
- Server-side apply: the field-manager merge happens in the API server. Each Patch is an opaque call that succeeds or fails; its object and options are recorded in the trace.
- `ctrl.SetControllerReference`: scheme lookup and existing-controller conflicts are not modelled. The scheme is over-approximated by a per-kind refusal map. In the source, all three calls (controllers/virtualrobot_controller.go:137, 168, 219) pass the same owner and the same scheme, so a real scheme refuses all three or none. The model also admits runs where only the Service or only the Ingress is refused; the lemmas hold for those runs too, but such runs cannot happen in the program. The reference carries the owner's kind, name, UID and the controller and block-owner-deletion flags; its API version is left out.
- `TypeMeta` (Kind and APIVersion strings), JSON tags, kubebuilder markers, scheme registration and `VirtualRobotList` (api/v1alpha1/virtualrobot_types.go): serialisation metadata only.
- `context.TODO()` and cancellation: one reconcile is modelled as a sequential run with no deadline.
- The API server is a fake. Get reads an in-memory store. A status update replaces only the stored robot's status. Resource versions and optimistic-concurrency conflicts appear only as injected failures.
