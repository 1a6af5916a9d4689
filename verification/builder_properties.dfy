/** What the three dependents of one robot agree on, and what two robots'
    dependents share. */
module BuilderProperties {
  import opened Apimachinery
  import opened RobotsV1alpha1
  import opened Resources
  import opened Builders

  /** The Service selects exactly the Pod's labels, keyed by the robot's UID. */
  lemma SelectorMatchesPodLabels(robot: VirtualRobot, scheme: Scheme)
    ensures DesiredService(robot, scheme).obj.selector == DesiredPod(robot, scheme).obj.meta.labels
    ensures RobotLabel in DesiredPod(robot, scheme).obj.meta.labels
    ensures DesiredPod(robot, scheme).obj.meta.labels[RobotLabel] == robot.meta.uid
  {
  }

  /** Port 9090 everywhere: the container port, the Service port and target
      port, and the Ingress backend port. */
  lemma OnePortEverywhere(robot: VirtualRobot, scheme: Scheme)
    ensures var pod := DesiredPod(robot, scheme).obj;
            var svc := DesiredService(robot, scheme).obj;
            var ing := DesiredIngress(robot, scheme).ing;
            && pod.containers[0].ports[0].containerPort == RobotPort
            && svc.ports[0].port == RobotPort
            && svc.ports[0].targetPort == IntVal(pod.containers[0].ports[0].containerPort)
            && ing.rules[0].paths[0].backend.servicePort == IntVal(svc.ports[0].port)
            && pod.containers[0].ports[0].protocol == svc.ports[0].protocol == TCP
  {
  }

  /** The Ingress's single backend is the Service, in the same namespace. */
  lemma IngressRoutesToService(robot: VirtualRobot, scheme: Scheme)
    ensures var svc := DesiredService(robot, scheme).obj;
            var ing := DesiredIngress(robot, scheme).ing;
            && |ing.rules| == 1 && |ing.rules[0].paths| == 1
            && ing.rules[0].paths[0].path == "/"
            && ing.rules[0].paths[0].backend.serviceName == svc.meta.name
            && ing.meta.namespace == svc.meta.namespace
  {
  }

  /** One hostname, metadata name dot base URL, is the rule's host, the sole TLS
      host, the TLS secret name and, on success, the host the builder returns. */
  lemma HostAgreement(robot: VirtualRobot, scheme: Scheme)
    ensures var b := DesiredIngress(robot, scheme);
            var host := robot.meta.name + "." + robot.spec.baseURL;
            && b.ing.rules[0].host == host
            && |b.ing.tls| == 1 && b.ing.tls[0].hosts == [host]
            && b.ing.tls[0].secretName == host
            && (b.err.None? ==> b.host == host)
            && (b.err.Some? ==> b.host == "")
  {
  }

  /** Every dependent carries the robot's namespace and its robotName, whatever
      the owner-reference step does. */
  lemma DependentsNamedAfterRobotName(robot: VirtualRobot, scheme: Scheme)
    ensures var key := NamespacedName(robot.meta.namespace, robot.spec.robotName);
            && DesiredPod(robot, scheme).obj.meta.Key() == key
            && DesiredService(robot, scheme).obj.meta.Key() == key
            && DesiredIngress(robot, scheme).ing.meta.Key() == key
  {
  }

  /** Names come from spec.robotName alone: two robots in one namespace with
      equal robotName get dependents under identical keys, even when they are
      different robots (different UIDs), whose Pods then differ. */
  lemma SameRobotNameCollides(a: VirtualRobot, b: VirtualRobot, scheme: Scheme)
    requires a.meta.namespace == b.meta.namespace
    requires a.spec.robotName == b.spec.robotName
    ensures DesiredPod(a, scheme).obj.meta.Key() == DesiredPod(b, scheme).obj.meta.Key()
    ensures DesiredService(a, scheme).obj.meta.Key() == DesiredService(b, scheme).obj.meta.Key()
    ensures DesiredIngress(a, scheme).ing.meta.Key() == DesiredIngress(b, scheme).ing.meta.Key()
    ensures a.meta.uid != b.meta.uid ==> DesiredPod(a, scheme).obj != DesiredPod(b, scheme).obj
  {
    if a.meta.uid != b.meta.uid {
      var la := DesiredPod(a, scheme).obj.meta.labels;
      var lb := DesiredPod(b, scheme).obj.meta.labels;
      assert la[RobotLabel] != lb[RobotLabel];
    }
  }

  /** The hostname follows the metadata name, not spec.robotName: changing only
      robotName renames the dependents and leaves the host as it was. */
  lemma HostIgnoresRobotName(robot: VirtualRobot, scheme: Scheme, other: string)
    ensures var renamed := robot.(spec := robot.spec.(robotName := other));
            && DesiredIngress(renamed, scheme).host == DesiredIngress(robot, scheme).host
            && DesiredIngress(renamed, scheme).ing.rules[0].host == DesiredIngress(robot, scheme).ing.rules[0].host
            && DesiredIngress(renamed, scheme).ing.meta.name == other
  {
  }

  /** A robot whose metadata name is "arm-sample" and whose robotName is "r2d2"
      publishes "arm-sample.bots.io", while its dependents are named "r2d2". */
  lemma MetadataNameExample(scheme: Scheme)
    requires scheme.refusals == map[]
    ensures var robot := VirtualRobot(
              ObjectMeta("arm-sample", "default", "uid-1", map[], map[], []),
              VirtualRobotSpec("r2d2", "bots.io"),
              VirtualRobotStatus(""));
            && DesiredIngress(robot, scheme).host == "arm-sample.bots.io"
            && DesiredIngress(robot, scheme).host != "r2d2.bots.io"
            && DesiredPod(robot, scheme).obj.meta.name == "r2d2"
  {
  }

  /** robotName is not validated: an empty one builds all three dependents,
      named "", as long as the owner-reference step succeeds. */
  lemma EmptyRobotNameAccepted(robot: VirtualRobot, scheme: Scheme)
    requires robot.spec.robotName == ""
    requires scheme.refusals == map[]
    ensures DesiredPod(robot, scheme).err.None? && DesiredPod(robot, scheme).obj.meta.name == ""
    ensures DesiredService(robot, scheme).err.None? && DesiredService(robot, scheme).obj.meta.name == ""
    ensures DesiredIngress(robot, scheme).err.None? && DesiredIngress(robot, scheme).ing.meta.name == ""
  {
  }

  /** The builders fail only through the owner-reference step: all three
      succeed exactly when the scheme refuses none of the kinds, and then each
      dependent is controlled by the robot alone. */
  lemma BuildersFailOnlyOnOwnerReference(robot: VirtualRobot, scheme: Scheme)
    ensures (DesiredPod(robot, scheme).err.None? && DesiredService(robot, scheme).err.None?
             && DesiredIngress(robot, scheme).err.None?)
            <==> scheme.refusals.Keys !! {PodKind, ServiceKind, IngressKind}
    ensures DesiredPod(robot, scheme).err.None? ==> SolelyControlledBy(DesiredPod(robot, scheme).obj.meta, robot)
    ensures DesiredService(robot, scheme).err.None? ==> SolelyControlledBy(DesiredService(robot, scheme).obj.meta, robot)
    ensures DesiredIngress(robot, scheme).err.None? ==> SolelyControlledBy(DesiredIngress(robot, scheme).ing.meta, robot)
  {
  }
}
