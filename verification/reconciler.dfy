/** The reconcile loop of the VirtualRobot controller over an abstract API
    client: fetch the robot, build the three dependents, server-side apply them
    in order, then write the status. Every step fails fast. */
module Reconciler {
  import opened Apimachinery
  import opened RobotsV1alpha1
  import opened Resources
  import opened Builders

  datatype PatchType = Apply

  /** The options of a Patch call: its type, whether ownership of conflicting
      fields is forced, and the field manager it writes as. */
  datatype PatchOptions = PatchOptions(patchType: PatchType, force: bool, fieldManager: string)

  /** client.Apply with client.ForceOwnership and client.FieldOwner("virtualrobot"). */
  const ApplyOptions := PatchOptions(Apply, true, "virtualrobot")

  /** A write the controller issues: a Patch of a dependent, or an update of
      the robot's status sub-resource. */
  datatype Call = Patch(obj: Dependent, opts: PatchOptions) | UpdateStatus(robot: VirtualRobot)

  /** Failures the fake API server injects: for Get, for the Patch of each
      kind, and for the status update. */
  datatype Faults = Faults(get: Option<Error>, patch: map<Kind, Error>, status: Option<Error>)

  /** ctrl.Result: whether, and after how long, to requeue. */
  datatype CtrlResult = CtrlResult(requeue: bool, requeueAfter: nat)

  const EmptyResult := CtrlResult(false, 0)

  /** The zero VirtualRobot, which a failed Get leaves in place. */
  const ZeroRobot := VirtualRobot(
    ObjectMeta("", "", "", map[], map[], []), VirtualRobotSpec("", ""), VirtualRobotStatus(""))

  /** Every stored robot sits under its own namespace/name key. */
  ghost predicate StoreKeyed(robots: map<NamespacedName, VirtualRobot>) {
    forall k :: k in robots ==> robots[k].meta.Key() == k
  }

  datatype Fetched = Got(robot: VirtualRobot) | GetFailed(err: Error)

  /** What Get answers: the injected failure, else the stored robot, else NotFound. */
  function Fetch(robots: map<NamespacedName, VirtualRobot>, faults: Faults, key: NamespacedName): (r: Fetched)
    ensures r.Got? <==> faults.get.None? && key in robots
    ensures r.Got? ==> r.robot == robots[key]
    ensures faults.get.Some? ==> r == GetFailed(faults.get.value)
    ensures faults.get.None? && key !in robots ==> r.GetFailed? && r.err.NotFound?
  {
    if faults.get.Some? then GetFailed(faults.get.value)
    else if key in robots then Got(robots[key])
    else GetFailed(NotFound("virtualrobots \"" + key.name + "\" not found"))
  }

  /** What a Patch of a dependent of this kind answers. */
  function PatchFault(faults: Faults, kind: Kind): Option<Error> {
    if kind in faults.patch then Some(faults.patch[kind]) else None
  }

  datatype StatusOutcome = StatusOutcome(err: Option<Error>, robots: map<NamespacedName, VirtualRobot>)

  /** A status update replaces the stored robot's status with the one sent,
      unless it is failed by the server or the robot is gone. */
  function StatusUpdated(robots: map<NamespacedName, VirtualRobot>, faults: Faults, robot: VirtualRobot): (r: StatusOutcome)
    ensures r.err.None? <==> faults.status.None? && robot.meta.Key() in robots
    ensures r.err.Some? ==> r.robots == robots
    ensures r.err.None? ==> r.robots == robots[robot.meta.Key() := robots[robot.meta.Key()].(status := robot.status)]
  {
    var key := robot.meta.Key();
    if faults.status.Some? then StatusOutcome(faults.status, robots)
    else if key !in robots then StatusOutcome(Some(NotFound("virtualrobots \"" + key.name + "\" not found")), robots)
    else StatusOutcome(None, robots[key := robots[key].(status := robot.status)])
  }

  /** A fake API client: a store of robots, the failures it injects, and the
      trace of every write issued to it. */
  class FakeClient {
    const faults: Faults
    var robots: map<NamespacedName, VirtualRobot>
    var writes: seq<Call>

    ghost predicate Valid()
      reads this
    {
      StoreKeyed(robots)
    }

    constructor (robots: map<NamespacedName, VirtualRobot>, faults: Faults)
      requires StoreKeyed(robots)
      ensures Valid()
      ensures this.robots == robots && this.faults == faults && writes == []
    {
      this.robots := robots;
      this.faults := faults;
      writes := [];
    }

    method Get(key: NamespacedName) returns (robot: VirtualRobot, err: Option<Error>)
      ensures err.None? <==> Fetch(robots, faults, key).Got?
      ensures err.None? ==> robot == robots[key]
      ensures err.Some? ==> err.value == Fetch(robots, faults, key).err && robot == ZeroRobot
    {
      match Fetch(robots, faults, key)
      case Got(r) =>
        robot, err := r, None;
      case GetFailed(e) =>
        robot, err := ZeroRobot, Some(e);
    }

    method Patch(obj: Dependent, opts: PatchOptions) returns (err: Option<Error>)
      modifies this`writes
      ensures writes == old(writes) + [Call.Patch(obj, opts)]
      ensures err == PatchFault(faults, obj.KindOf())
    {
      writes := writes + [Call.Patch(obj, opts)];
      err := PatchFault(faults, obj.KindOf());
    }

    method UpdateStatus(robot: VirtualRobot) returns (err: Option<Error>)
      requires Valid()
      modifies this`writes, this`robots
      ensures Valid()
      ensures writes == old(writes) + [Call.UpdateStatus(robot)]
      ensures StatusOutcome(err, robots) == StatusUpdated(old(robots), faults, robot)
    {
      writes := writes + [Call.UpdateStatus(robot)];
      var outcome := StatusUpdated(robots, faults, robot);
      err, robots := outcome.err, outcome.robots;
    }
  }

  /** The outcome of one reconciliation: the error returned, the writes issued
      in order, and the robots stored afterwards. */
  datatype Run = Run(err: Option<Error>, writes: seq<Call>, robots: map<NamespacedName, VirtualRobot>)

  /** The three server-side applies and the status write, once every builder
      has succeeded. */
  function ApplyAndReport(robots: map<NamespacedName, VirtualRobot>, faults: Faults, robot: VirtualRobot,
                          pod: Pod, svc: Service, ing: Ingress, host: string): Run
  {
    var p := [Call.Patch(PodObject(pod), ApplyOptions)];
    var s := [Call.Patch(ServiceObject(svc), ApplyOptions)];
    var i := [Call.Patch(IngressObject(ing), ApplyOptions)];
    if PatchFault(faults, PodKind).Some? then Run(PatchFault(faults, PodKind), p, robots)
    else if PatchFault(faults, ServiceKind).Some? then Run(PatchFault(faults, ServiceKind), p + s, robots)
    else if PatchFault(faults, IngressKind).Some? then Run(PatchFault(faults, IngressKind), p + s + i, robots)
    else
      var reported := robot.(status := VirtualRobotStatus(host));
      var outcome := StatusUpdated(robots, faults, reported);
      Run(outcome.err, p + s + i + [Call.UpdateStatus(reported)], outcome.robots)
  }

  /** One reconciliation of the robot stored under key, as a function of the
      store, the injected failures and the scheme. */
  function Reconciled(robots: map<NamespacedName, VirtualRobot>, faults: Faults, scheme: Scheme, key: NamespacedName): Run {
    match Fetch(robots, faults, key)
    case GetFailed(e) => Run(IgnoreNotFound(e), [], robots)
    case Got(robot) =>
      var pod := DesiredPod(robot, scheme);
      var svc := DesiredService(robot, scheme);
      var ing := DesiredIngress(robot, scheme);
      if pod.err.Some? then Run(pod.err, [], robots)
      else if svc.err.Some? then Run(svc.err, [], robots)
      else if ing.err.Some? then Run(ing.err, [], robots)
      else ApplyAndReport(robots, faults, robot, pod.obj, svc.obj, ing.ing, ing.host)
  }

  class VirtualRobotReconciler {
    const client: FakeClient
    const scheme: Scheme

    constructor (client: FakeClient, scheme: Scheme)
      ensures this.client == client && this.scheme == scheme
    {
      this.client := client;
      this.scheme := scheme;
    }

    /** Reconcile the robot under req: every exit returns the empty result; the
        error, the writes appended to the client's trace and the new store are
        those of Reconciled. */
    method Reconcile(req: NamespacedName) returns (res: CtrlResult, err: Option<Error>)
      requires client.Valid()
      modifies client
      ensures client.Valid()
      ensures res == EmptyResult
      ensures var run := Reconciled(old(client.robots), client.faults, scheme, req);
              && err == run.err
              && client.writes == old(client.writes) + run.writes
              && client.robots == run.robots
    {
      res := EmptyResult;
      var robot, getErr := client.Get(req);
      if getErr.Some? {
        err := IgnoreNotFound(getErr.value);
        return;
      }

      var pod := DesiredPod(robot, scheme);
      if pod.err.Some? {
        err := pod.err;
        return;
      }

      var svc := DesiredService(robot, scheme);
      if svc.err.Some? {
        err := svc.err;
        return;
      }

      var ing := DesiredIngress(robot, scheme);
      if ing.err.Some? {
        err := ing.err;
        return;
      }

      err := client.Patch(PodObject(pod.obj), ApplyOptions);
      if err.Some? {
        return;
      }

      err := client.Patch(ServiceObject(svc.obj), ApplyOptions);
      if err.Some? {
        return;
      }

      err := client.Patch(IngressObject(ing.ing), ApplyOptions);
      if err.Some? {
        return;
      }

      robot := robot.(status := robot.status.(url := ing.host));
      err := client.UpdateStatus(robot);
    }
  }
}
