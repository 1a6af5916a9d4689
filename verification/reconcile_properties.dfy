/** Properties of one reconciliation: the NotFound short-circuit, the fixed order
    of the writes, fail-fast error reporting, and the status written exactly
    when every apply succeeded. */
module ReconcileProperties {
  import opened Apimachinery
  import opened RobotsV1alpha1
  import opened Resources
  import opened Builders
  import opened Reconciler

  /** The full sequence of writes for a robot: apply the Pod, the Service and the
      Ingress, then update the status with the built host. */
  function Plan(robot: VirtualRobot, scheme: Scheme): seq<Call> {
    var ing := DesiredIngress(robot, scheme);
    [ Call.Patch(PodObject(DesiredPod(robot, scheme).obj), ApplyOptions),
      Call.Patch(ServiceObject(DesiredService(robot, scheme).obj), ApplyOptions),
      Call.Patch(IngressObject(ing.ing), ApplyOptions),
      Call.UpdateStatus(robot.(status := VirtualRobotStatus(ing.host))) ]
  }

  /** The Get returned the robot stored under key. */
  predicate Fetches(robots: map<NamespacedName, VirtualRobot>, faults: Faults, key: NamespacedName) {
    faults.get.None? && key in robots
  }

  /** The scheme lets the owner reference be attached to all three dependents. */
  predicate AllLinked(scheme: Scheme) {
    PodKind !in scheme.refusals && ServiceKind !in scheme.refusals && IngressKind !in scheme.refusals
  }

  /** None of the three Patches is failed by the server. */
  predicate AllApplied(faults: Faults) {
    PodKind !in faults.patch && ServiceKind !in faults.patch && IngressKind !in faults.patch
  }

  predicate StatusWritten(writes: seq<Call>) {
    exists i :: 0 <= i < |writes| && writes[i].UpdateStatus?
  }

  /** A robot that is gone (Get answers NotFound) is a no-op success: nil error,
      no write, store untouched. */
  lemma NotFoundShortCircuit(robots: map<NamespacedName, VirtualRobot>, faults: Faults, scheme: Scheme, key: NamespacedName)
    requires (faults.get.None? && key !in robots) || (faults.get.Some? && faults.get.value.NotFound?)
    ensures var run := Reconciled(robots, faults, scheme, key);
            run.err.None? && run.writes == [] && run.robots == robots
  {
  }

  /** Any other Get error is returned unchanged, with no write. */
  lemma GetErrorReturned(robots: map<NamespacedName, VirtualRobot>, faults: Faults, scheme: Scheme, key: NamespacedName)
    requires faults.get.Some? && !faults.get.value.NotFound?
    ensures var run := Reconciled(robots, faults, scheme, key);
            run.err == faults.get && run.writes == [] && run.robots == robots
  {
  }

  /** When the owner reference cannot be attached, the first refusal (Pod, then
      Service, then Ingress) is returned before any Patch or status write. */
  lemma OwnerReferenceFailureBeforeWrites(robots: map<NamespacedName, VirtualRobot>, faults: Faults, scheme: Scheme, key: NamespacedName)
    requires Fetches(robots, faults, key) && !AllLinked(scheme)
    ensures var run := Reconciled(robots, faults, scheme, key);
            && run.writes == [] && run.robots == robots
            && run.err == Some(
                 if PodKind in scheme.refusals then scheme.refusals[PodKind]
                 else if ServiceKind in scheme.refusals then scheme.refusals[ServiceKind]
                 else scheme.refusals[IngressKind])
  {
  }

  /** The writes issued are always a prefix of the plan: Pod, Service, Ingress,
      status, each Patch a forced apply as field manager "virtualrobot". */
  lemma WritesFollowPlan(robots: map<NamespacedName, VirtualRobot>, faults: Faults, scheme: Scheme, key: NamespacedName)
    ensures var run := Reconciled(robots, faults, scheme, key);
            && (key in robots ==> run.writes <= Plan(robots[key], scheme))
            && (key !in robots ==> run.writes == [])
            && forall i :: 0 <= i < |run.writes| && run.writes[i].Patch? ==> run.writes[i].opts == ApplyOptions
  {
  }

  /** Fail-fast applies: every write before the last is a Patch that succeeded,
      and when the writes stop short of the status update, the error returned is
      the failure of the last Patch issued, so later Patches are skipped. */
  lemma EarlyStopReturnsLastPatchError(robots: map<NamespacedName, VirtualRobot>, faults: Faults, scheme: Scheme, key: NamespacedName)
    ensures var run := Reconciled(robots, faults, scheme, key);
            0 < |run.writes| && !StatusWritten(run.writes) ==>
              && run.writes[|run.writes| - 1].Patch?
              && run.err.Some?
              && run.err == PatchFault(faults, run.writes[|run.writes| - 1].obj.KindOf())
    ensures var run := Reconciled(robots, faults, scheme, key);
            forall i :: 0 <= i < |run.writes| - 1 ==>
              run.writes[i].Patch? && PatchFault(faults, run.writes[i].obj.KindOf()).None?
    ensures var run := Reconciled(robots, faults, scheme, key);
            Fetches(robots, faults, key) && AllLinked(scheme) ==> 0 < |run.writes|
    ensures var run := Reconciled(robots, faults, scheme, key);
            Fetches(robots, faults, key) && AllLinked(scheme) && !AllApplied(faults) ==>
              var plan := Plan(robots[key], scheme);
              && run.robots == robots
              && (PodKind in faults.patch ==>
                    run.err == Some(faults.patch[PodKind]) && run.writes == plan[..1])
              && (PodKind !in faults.patch && ServiceKind in faults.patch ==>
                    run.err == Some(faults.patch[ServiceKind]) && run.writes == plan[..2])
              && (PodKind !in faults.patch && ServiceKind !in faults.patch ==>
                    run.err == Some(faults.patch[IngressKind]) && run.writes == plan[..3])
  {
  }

  /** The status is written if and only if the robot was fetched, linked and all
      three applies succeeded; it is then written once, as the last call. */
  lemma StatusWrittenIffAllApplied(robots: map<NamespacedName, VirtualRobot>, faults: Faults, scheme: Scheme, key: NamespacedName)
    ensures var run := Reconciled(robots, faults, scheme, key);
            StatusWritten(run.writes) <==> Fetches(robots, faults, key) && AllLinked(scheme) && AllApplied(faults)
    ensures var run := Reconciled(robots, faults, scheme, key);
            forall i :: 0 <= i < |run.writes| && run.writes[i].UpdateStatus? ==> i == |run.writes| - 1 == 3
  {
    var run := Reconciled(robots, faults, scheme, key);
    if Fetches(robots, faults, key) && AllLinked(scheme) && AllApplied(faults) {
      assert run.writes[3].UpdateStatus?;
    }
  }

  /** Nil error exactly on the NotFound short-circuit or on full success,
      status write included. */
  lemma SucceedsIff(robots: map<NamespacedName, VirtualRobot>, faults: Faults, scheme: Scheme, key: NamespacedName)
    requires StoreKeyed(robots)
    ensures var run := Reconciled(robots, faults, scheme, key);
            run.err.None? <==>
              || (faults.get.Some? && faults.get.value.NotFound?)
              || (faults.get.None? && key !in robots)
              || (Fetches(robots, faults, key) && AllLinked(scheme) && AllApplied(faults) && faults.status.None?)
    ensures var run := Reconciled(robots, faults, scheme, key);
            StatusWritten(run.writes) ==> run.err == faults.status
  {
  }

  /** A failed reconciliation leaves every stored robot, and so the published
      URL, as it was. */
  lemma FailureKeepsStatus(robots: map<NamespacedName, VirtualRobot>, faults: Faults, scheme: Scheme, key: NamespacedName)
    ensures var run := Reconciled(robots, faults, scheme, key);
            run.err.Some? ==> run.robots == robots
  {
  }

  /** A successful reconciliation of a stored robot publishes its host, metadata
      name dot base URL, in the status and changes nothing else. */
  lemma SuccessPublishesHost(robots: map<NamespacedName, VirtualRobot>, faults: Faults, scheme: Scheme, key: NamespacedName)
    requires StoreKeyed(robots) && Fetches(robots, faults, key)
    ensures var run := Reconciled(robots, faults, scheme, key);
            var robot := robots[key];
            run.err.None? ==>
              run.robots == robots[key := robot.(status := VirtualRobotStatus(robot.meta.name + "." + robot.spec.baseURL))]
  {
  }

  /** Re-running after a success issues the same writes again, stores the same
      robots and succeeds again. */
  lemma ReconcileIdempotent(robots: map<NamespacedName, VirtualRobot>, faults: Faults, scheme: Scheme, key: NamespacedName)
    requires StoreKeyed(robots) && key in robots
    ensures var first := Reconciled(robots, faults, scheme, key);
            var second := Reconciled(first.robots, faults, scheme, key);
            first.err.None? ==> second == first
  {
  }

  /** A robot "r2d2" in namespace "default" with base URL "bots.io", on a server
      that fails nothing: four writes, Pod, Service and Ingress named "r2d2" on
      port 9090, TLS secret "r2d2.bots.io", and that URL in the stored status. */
  lemma EndToEndExample(uid: string)
    ensures var key := NamespacedName("default", "r2d2");
            var robot := VirtualRobot(ObjectMeta("r2d2", "default", uid, map[], map[], []),
                                      VirtualRobotSpec("r2d2", "bots.io"), VirtualRobotStatus(""));
            var run := Reconciled(map[key := robot], Faults(None, map[], None), Scheme(map[]), key);
            && run.err.None?
            && |run.writes| == 4
            && run.writes[0].obj.pod.meta.name == "r2d2"
            && run.writes[0].obj.pod.containers[0].ports[0].containerPort == 9090
            && run.writes[1].obj.service.meta.name == "r2d2"
            && run.writes[1].obj.service.ports[0].targetPort == IntVal(9090)
            && run.writes[2].obj.ingress.meta.name == "r2d2"
            && run.writes[2].obj.ingress.rules[0].host == "r2d2.bots.io"
            && run.writes[2].obj.ingress.tls[0].secretName == "r2d2.bots.io"
            && run.robots[key].status.url == "r2d2.bots.io"
  {
  }
}
