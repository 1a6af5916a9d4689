/** The three dependent objects a VirtualRobot owns: a Pod (core/v1), a Service
    (core/v1) and an Ingress (extensions/v1beta1), reduced to the fields the
    controller sets. */
module Resources {
  import opened Apimachinery

  datatype Protocol = TCP | UDP | SCTP

  datatype ContainerPort = ContainerPort(name: string, containerPort: int, protocol: Protocol)

  datatype Container = Container(name: string, image: string, ports: seq<ContainerPort>)

  datatype Pod = Pod(meta: ObjectMeta, containers: seq<Container>)

  datatype ServicePort = ServicePort(
    name: string,
    port: int,
    targetPort: IntOrString,
    protocol: Protocol)

  datatype Service = Service(
    meta: ObjectMeta,
    selector: map<string, string>,
    ports: seq<ServicePort>)

  datatype IngressBackend = IngressBackend(serviceName: string, servicePort: IntOrString)

  datatype HTTPIngressPath = HTTPIngressPath(path: string, backend: IngressBackend)

  /** One host rule; its HTTP rule value is kept as the list of paths. */
  datatype IngressRule = IngressRule(host: string, paths: seq<HTTPIngressPath>)

  datatype IngressTLS = IngressTLS(hosts: seq<string>, secretName: string)

  datatype Ingress = Ingress(
    meta: ObjectMeta,
    rules: seq<IngressRule>,
    tls: seq<IngressTLS>)

  datatype Kind = PodKind | ServiceKind | IngressKind

  /** Any one of the dependents, as handed to the client's Patch. */
  datatype Dependent =
    | PodObject(pod: Pod)
    | ServiceObject(service: Service)
    | IngressObject(ingress: Ingress)
  {
    function KindOf(): Kind {
      match this
      case PodObject(_) => PodKind
      case ServiceObject(_) => ServiceKind
      case IngressObject(_) => IngressKind
    }
  }
}
