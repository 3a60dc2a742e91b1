/** The dependent objects the reconciler manages (Deployment, Service,
    Ingress), reduced to the fields it builds, compares or patches, and the
    keys under which the cluster stores every object. */
module Objects {
  import opened Meta
  import opened AppTypes

  // ---- apps/v1 Deployment ----

  datatype PullPolicy = Always | IfNotPresent | Never

  datatype Container = Container(name: string, image: string, pullPolicy: PullPolicy, ports: seq<Int32>)

  datatype PodTemplate = PodTemplate(labels: StringMap, containers: seq<Container>)

  datatype DeploymentSpec = DeploymentSpec(replicas: Int32, selector: StringMap, template: PodTemplate)

  datatype DeploymentStatus = DeploymentStatus(readyReplicas: Int32)

  datatype Deployment = Deployment(meta: ObjectMeta, spec: DeploymentSpec, status: DeploymentStatus)

  // ---- core/v1 Service ----

  /** `intstr.IntOrString`; equality is Go's struct equality. */
  datatype IntOrString = IntVal(intVal: Int32) | StrVal(strVal: string)

  datatype ServicePort = ServicePort(name: string, port: Int32, targetPort: IntOrString)

  datatype ServiceType = ClusterIP | NodePort | LoadBalancer | ExternalName

  datatype ServiceSpec = ServiceSpec(selector: StringMap, ports: seq<ServicePort>, serviceType: ServiceType)

  datatype Service = Service(meta: ObjectMeta, spec: ServiceSpec)

  // ---- networking/v1 Ingress ----

  datatype PathType = Prefix | Exact | ImplementationSpecific

  /** An `IngressServiceBackend`: a service name and a port number. */
  datatype Backend = Backend(service: string, port: Int32)

  datatype HttpPath = HttpPath(path: string, pathType: PathType, backend: Backend)

  datatype IngressRule = IngressRule(host: string, paths: seq<HttpPath>)

  /** `className` is the nil-able `*string` `IngressClassName`. */
  datatype IngressSpec = IngressSpec(className: Option<string>, rules: seq<IngressRule>)

  datatype Ingress = Ingress(meta: ObjectMeta, spec: IngressSpec)

  // ---- the object store's vocabulary ----

  datatype Kind = SimpleAppKind | DeploymentKind | ServiceKind | IngressKind

  /** Objects are addressed by kind, namespace and name. */
  datatype Key = Key(kind: Kind, namespace: string, name: string)

  /** Any stored object. */
  datatype Obj = App(app: SimpleApp) | Dep(dep: Deployment) | Svc(svc: Service) | Ing(ing: Ingress)

  function KindOf(o: Obj): Kind {
    match o
    case App(_) => SimpleAppKind
    case Dep(_) => DeploymentKind
    case Svc(_) => ServiceKind
    case Ing(_) => IngressKind
  }

  function MetaOf(o: Obj): ObjectMeta {
    match o
    case App(a) => a.meta
    case Dep(d) => d.meta
    case Svc(v) => v.meta
    case Ing(i) => i.meta
  }

  /** The key an object is stored under. */
  function KeyOf(o: Obj): Key {
    Key(KindOf(o), MetaOf(o).namespace, MetaOf(o).name)
  }

  /** What the platform guarantees of every stored object the reconciler
      dereferences: declarations carry a spec that passed the markers' checks
      (a declaration without a spec is not modelled), deployments have a
      first container and services a first port. */
  predicate ObjectWellFormed(o: Obj) {
    match o
    case App(a) => ValidSpec(a.spec)
    case Dep(d) => |d.spec.template.containers| > 0
    case Svc(v) => |v.spec.ports| > 0
    case Ing(_) => true
  }
}
