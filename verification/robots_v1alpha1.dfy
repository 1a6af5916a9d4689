/** The VirtualRobot custom resource (group robots.ludusrusso.dev, version v1alpha1). */
module RobotsV1alpha1 {
  import opened Apimachinery

  /** Desired state: the name given to every dependent object and the DNS suffix
      of the external hostname. */
  datatype VirtualRobotSpec = VirtualRobotSpec(robotName: string, baseURL: string)

  /** Observed state: the URL the controller last published. */
  datatype VirtualRobotStatus = VirtualRobotStatus(url: string)

  datatype VirtualRobot = VirtualRobot(
    meta: ObjectMeta,
    spec: VirtualRobotSpec,
    status: VirtualRobotStatus)

  /** The kind name the controller's owner references carry. */
  const VirtualRobotKind := "VirtualRobot"
}
