/** The desired-state builders of the VirtualRobot controller: from one robot
    they compute the Pod, the Service and the Ingress it should own, and the
    external hostname. Each builder ends by attaching a controller owner
    reference to the robot, the only step that can fail. */
module Builders {
  import opened Apimachinery
  import opened RobotsV1alpha1
  import opened Resources

  /** The one port used by every dependent. */
  const RobotPort: int := 9090
  const PortName := "ws"
  const ContainerName := "bot"
  const BotImage := "ludusrusso/vbot:v2"
  /** The label key binding the Pod to the Service's selector. */
  const RobotLabel := "robot"

  /** The fixed annotations of the Ingress: the ingress class and the
      certificate issuer settings. */
  const IngressAnnotations: map<string, string> := map[
    "kubernetes.io/ingress.class" := "traefik",
    "certmanager.k8s.io/acme-challenge-type" := "http01",
    "certmanager.k8s.io/cluster-issuer" := "letsencrypt-prod"]

  /** The runtime scheme, reduced to what the owner-reference step needs of it:
      for each kind of dependent, whether attaching a controller reference is
      refused, and with which error. Refusals per kind over-approximate the
      real scheme, which refuses all three kinds or none. */
  datatype Scheme = Scheme(refusals: map<Kind, Error>)

  /** The controller owner reference that points at a robot. */
  function ControllerRef(owner: VirtualRobot): OwnerReference {
    OwnerReference(VirtualRobotKind, owner.meta.name, owner.meta.uid, true, true)
  }

  /** The owner reference list of a dependent names this robot, and only it,
      as its controlling owner. */
  predicate SolelyControlledBy(meta: ObjectMeta, owner: VirtualRobot) {
    meta.ownerReferences == [ControllerRef(owner)]
  }

  datatype Linked = Linked(meta: ObjectMeta, err: Option<Error>)

  /** ctrl.SetControllerReference: either refused by the scheme (metadata left
      as it was) or the robot's controller reference is appended. */
  function SetControllerReference(owner: VirtualRobot, meta: ObjectMeta, kind: Kind, scheme: Scheme): (r: Linked)
    ensures r.err.Some? <==> kind in scheme.refusals
    ensures r.err.Some? ==> r.err.value == scheme.refusals[kind] && r.meta == meta
    ensures r.err.None? ==> r.meta == meta.(ownerReferences := r.meta.ownerReferences)
    ensures r.err.None? ==> r.meta.ownerReferences == meta.ownerReferences + [ControllerRef(owner)]
  {
    if kind in scheme.refusals then Linked(meta, Some(scheme.refusals[kind]))
    else Linked(meta.(ownerReferences := meta.ownerReferences + [ControllerRef(owner)]), None)
  }

  /** buildName: the name shared by all three dependents, spec.robotName
      verbatim; it depends on nothing else of the robot. */
  function BuildName(robot: VirtualRobot): (name: string)
    ensures name == robot.spec.robotName
  {
    robot.spec.robotName
  }

  /** Labels for the Pod, and the selector of the Service. */
  function RobotSelector(robot: VirtualRobot): map<string, string> {
    map[RobotLabel := robot.meta.uid]
  }

  /** The metadata a dependent starts from: name, namespace, labels, annotations
      and no owner references yet. */
  function DependentMeta(robot: VirtualRobot, labels: map<string, string>, annotations: map<string, string>): ObjectMeta {
    ObjectMeta(BuildName(robot), robot.meta.namespace, "", labels, annotations, [])
  }

  /** A builder's result: the object (returned also on failure) and the error. */
  datatype Built<T> = Built(obj: T, err: Option<Error>)

  /** What DesiredIngress returns: the Ingress, the host ("" on failure) and the error. */
  datatype BuiltIngress = BuiltIngress(ing: Ingress, host: string, err: Option<Error>)

  /** The owner-reference outcome of a builder: it fails exactly when the scheme
      refuses the kind, with the scheme's error and no reference attached;
      otherwise the robot is the dependent's sole controller. */
  predicate LinkOutcome(robot: VirtualRobot, scheme: Scheme, kind: Kind, meta: ObjectMeta, err: Option<Error>) {
    && (err.None? <==> kind !in scheme.refusals)
    && (err.Some? ==> err.value == scheme.refusals[kind] && meta.ownerReferences == [])
    && (err.None? ==> SolelyControlledBy(meta, robot))
  }

  function DesiredPod(robot: VirtualRobot, scheme: Scheme): (r: Built<Pod>)
    ensures r.obj.meta.Key() == NamespacedName(robot.meta.namespace, robot.spec.robotName)
    ensures r.obj.meta.labels == map[RobotLabel := robot.meta.uid]
    ensures |r.obj.containers| == 1
    ensures r.obj.containers[0].name == ContainerName && r.obj.containers[0].image == BotImage
    ensures r.obj.containers[0].ports == [ContainerPort(PortName, RobotPort, TCP)]
    ensures LinkOutcome(robot, scheme, PodKind, r.obj.meta, r.err)
  {
    var pod := Pod(
      DependentMeta(robot, RobotSelector(robot), map[]),
      [Container(ContainerName, BotImage, [ContainerPort(PortName, RobotPort, TCP)])]);
    var linked := SetControllerReference(robot, pod.meta, PodKind, scheme);
    Built(pod.(meta := linked.meta), linked.err)
  }

  function DesiredService(robot: VirtualRobot, scheme: Scheme): (r: Built<Service>)
    ensures r.obj.meta.Key() == NamespacedName(robot.meta.namespace, robot.spec.robotName)
    ensures r.obj.selector == map[RobotLabel := robot.meta.uid]
    ensures r.obj.ports == [ServicePort(PortName, RobotPort, IntVal(RobotPort), TCP)]
    ensures LinkOutcome(robot, scheme, ServiceKind, r.obj.meta, r.err)
  {
    var svc := Service(
      DependentMeta(robot, map[], map[]),
      RobotSelector(robot),
      [ServicePort(PortName, RobotPort, IntVal(RobotPort), TCP)]);
    var linked := SetControllerReference(robot, svc.meta, ServiceKind, scheme);
    Built(svc.(meta := linked.meta), linked.err)
  }

  /** The external hostname: the robot's metadata name, a dot, and the base URL. */
  function Host(robot: VirtualRobot): string {
    robot.meta.name + "." + robot.spec.baseURL
  }

  function DesiredIngress(robot: VirtualRobot, scheme: Scheme): (r: BuiltIngress)
    ensures r.ing.meta.Key() == NamespacedName(robot.meta.namespace, robot.spec.robotName)
    ensures r.ing.meta.annotations == IngressAnnotations
    ensures |r.ing.rules| == 1 && r.ing.rules[0].host == robot.meta.name + "." + robot.spec.baseURL
    ensures r.ing.rules[0].paths == [HTTPIngressPath("/", IngressBackend(robot.spec.robotName, IntVal(RobotPort)))]
    ensures r.ing.tls == [IngressTLS([r.ing.rules[0].host], r.ing.rules[0].host)]
    ensures r.host == if r.err.None? then r.ing.rules[0].host else ""
    ensures LinkOutcome(robot, scheme, IngressKind, r.ing.meta, r.err)
  {
    var name := BuildName(robot);
    var host := Host(robot);
    var ing := Ingress(
      DependentMeta(robot, map[], IngressAnnotations),
      [IngressRule(host, [HTTPIngressPath("/", IngressBackend(name, IntVal(RobotPort)))])],
      [IngressTLS([host], host)]);
    var linked := SetControllerReference(robot, ing.meta, IngressKind, scheme);
    if linked.err.Some? then BuiltIngress(ing.(meta := linked.meta), "", linked.err)
    else BuiltIngress(ing.(meta := linked.meta), host, None)
  }
}
