/**
 * The child resources the reconcilers manage (apps/v1 Deployment, core/v1
 * Service and Namespace), the DataLogger, and the store keys they live under.
 */
module Resources {
  import opened Wrappers
  import opened Meta
  import opened ApiV1

  datatype EnvVar = EnvVar(name: string, value: string)

  datatype ContainerPort = ContainerPort(containerPort: Int32)

  datatype Container = Container(name: string, image: string, env: seq<EnvVar>, ports: seq<ContainerPort>)

  datatype PodTemplateSpec = PodTemplateSpec(labels: StringMap, containers: seq<Container>)

  datatype LabelSelector = LabelSelector(matchLabels: StringMap)

  /** `replicas` and `selector` are pointers in Go: None is nil. */
  datatype DeploymentSpec = DeploymentSpec(
    replicas: Option<Int32>,
    selector: Option<LabelSelector>,
    template: PodTemplateSpec)

  datatype Deployment = Deployment(meta: ObjectMeta, spec: DeploymentSpec)

  /** `targetPort` holds the integer form of the IntOrString. */
  datatype ServicePort = ServicePort(port: Int32, targetPort: Int32, nodePort: Int32)

  datatype ServiceSpec = ServiceSpec(selector: StringMap, ports: seq<ServicePort>, serviceType: string)

  datatype Service = Service(meta: ObjectMeta, spec: ServiceSpec)

  datatype Namespace = Namespace(meta: ObjectMeta)

  const EmptyDeployment := Deployment(EmptyMeta, DeploymentSpec(None, None, PodTemplateSpec(None, [])))
  const EmptyService := Service(EmptyMeta, ServiceSpec(None, [], ""))
  const EmptyNamespace := Namespace(EmptyMeta)

  /** A stored object of any of the four kinds the operator touches. */
  datatype Object =
    | DataLoggerObject(dataLogger: DataLogger)
    | DeploymentObject(deployment: Deployment)
    | ServiceObject(service: Service)
    | NamespaceObject(namespace: Namespace)

  datatype Kind = DataLoggerKind | DeploymentKind | ServiceKind | NamespaceKind

  /** A store key: the kind (Go picks it from the type of the object) and the object key. */
  datatype Key = Key(kind: Kind, namespace: string, name: string)

  /** ctrl.Request: the namespaced name of the object that changed. */
  datatype Request = Request(namespace: string, name: string)

  function KindOf(o: Object): Kind {
    match o
    case DataLoggerObject(_) => DataLoggerKind
    case DeploymentObject(_) => DeploymentKind
    case ServiceObject(_) => ServiceKind
    case NamespaceObject(_) => NamespaceKind
  }

  function MetaOf(o: Object): ObjectMeta {
    match o
    case DataLoggerObject(d) => d.meta
    case DeploymentObject(d) => d.meta
    case ServiceObject(s) => s.meta
    case NamespaceObject(n) => n.meta
  }

  /** The object with its metadata replaced and everything else kept. */
  function WithMeta(o: Object, m: ObjectMeta): (r: Object)
    ensures KindOf(r) == KindOf(o) && MetaOf(r) == m
    // nothing but the metadata changes: the same metadata gives back the object
    ensures m == MetaOf(o) ==> r == o
  {
    match o
    case DataLoggerObject(d) => DataLoggerObject(d.(meta := m))
    case DeploymentObject(d) => DeploymentObject(d.(meta := m))
    case ServiceObject(s) => ServiceObject(s.(meta := m))
    case NamespaceObject(n) => NamespaceObject(n.(meta := m))
  }

  /** Where the store files an object: its kind, namespace and name. */
  function KeyOf(o: Object): Key {
    Key(KindOf(o), MetaOf(o).namespace, MetaOf(o).name)
  }

  /** The record a Get into a DataLogger yields; any other kind decodes to the zero record. */
  function AsDataLogger(o: Object): DataLogger {
    if o.DataLoggerObject? then o.dataLogger else EmptyDataLogger
  }

  function AsDeployment(o: Object): Deployment {
    if o.DeploymentObject? then o.deployment else EmptyDeployment
  }

  function AsService(o: Object): Service {
    if o.ServiceObject? then o.service else EmptyService
  }

  function AsNamespace(o: Object): Namespace {
    if o.NamespaceObject? then o.namespace else EmptyNamespace
  }
}
