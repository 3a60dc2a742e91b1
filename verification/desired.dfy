/** Desired-state generation: the target shape of each dependent, computed
    from a declaration alone (`ensureDeployment`, `ensureService` and
    `ensureIngress` before their first API call), and the names and keys
    the dependents live under. */
module Desired {
  import opened Meta
  import opened AppTypes
  import opened Objects

  const AppLabelKey := "app"
  const ContainerName := "app"
  const IngressSuffix := "-ingress"
  const HostSuffix := ".local"
  const RootPath := "/"
  const LegacyClassAnnotation := "kubernetes.io/ingress.class"
  const OwnerKind := "SimpleApp"

  /** `{app: name}`: the selector and pod labels of a declaration's pods. */
  function AppLabels(name: string): StringMap {
    map[AppLabelKey := name]
  }

  /** The name of the dependent of kind `kind` of the declaration `appName`. */
  function NameFor(kind: Kind, appName: string): string {
    if kind == IngressKind then appName + IngressSuffix else appName
  }

  /** Where the object of kind `kind` belonging to declaration
      (`namespace`, `appName`) is stored; for `SimpleAppKind`, the
      declaration itself. */
  function KeyFor(kind: Kind, namespace: string, appName: string): Key {
    Key(kind, namespace, NameFor(kind, appName))
  }

  /** Every key a pass for declaration (`namespace`, `name`) may touch. */
  function Managed(namespace: string, name: string): set<Key> {
    {KeyFor(SimpleAppKind, namespace, name), KeyFor(DeploymentKind, namespace, name),
     KeyFor(ServiceKind, namespace, name), KeyFor(IngressKind, namespace, name)}
  }

  function DeploymentKey(cr: SimpleApp): Key { KeyFor(DeploymentKind, cr.meta.namespace, cr.meta.name) }
  function ServiceKey(cr: SimpleApp): Key { KeyFor(ServiceKind, cr.meta.namespace, cr.meta.name) }
  function IngressKey(cr: SimpleApp): Key { KeyFor(IngressKind, cr.meta.namespace, cr.meta.name) }

  /** `SetControllerReference` applied to a freshly built object: its owner
      is the declaration. */
  function OwnerOf(cr: SimpleApp): OwnerRef {
    OwnerRef(OwnerKind, cr.meta.name)
  }

  function DependentMeta(cr: SimpleApp, kind: Kind, annotations: StringMap): ObjectMeta {
    ObjectMeta(NameFor(kind, cr.meta.name), cr.meta.namespace, map[], annotations, Some(OwnerOf(cr)))
  }

  /** The Deployment `ensureDeployment` builds, owner reference included. */
  function DesiredDeployment(cr: SimpleApp): Deployment {
    var container := Container(ContainerName, cr.spec.image, IfNotPresent, [cr.spec.containerPort]);
    Deployment(
      DependentMeta(cr, DeploymentKind, map[]),
      DeploymentSpec(cr.spec.replicas, AppLabels(cr.meta.name), PodTemplate(AppLabels(cr.meta.name), [container])),
      DeploymentStatus(0))
  }

  /** The Service `ensureService` builds, owner reference included. */
  function DesiredService(cr: SimpleApp): Service {
    Service(
      DependentMeta(cr, ServiceKind, map[]),
      ServiceSpec(AppLabels(cr.meta.name), DesiredServicePorts(cr), ClusterIP))
  }

  /** The single port mapping `servicePort` -> `containerPort`. */
  function DesiredServicePorts(cr: SimpleApp): seq<ServicePort> {
    [ServicePort("", cr.spec.servicePort, IntVal(cr.spec.containerPort))]
  }

  /** The Ingress `ensureIngress` builds for route class `ingressClass`,
      owner reference included. */
  function DesiredIngress(cr: SimpleApp, ingressClass: string): Ingress {
    var backend := Backend(cr.meta.name, cr.spec.servicePort);
    Ingress(
      DependentMeta(cr, IngressKind, map[LegacyClassAnnotation := ingressClass]),
      IngressSpec(Some(ingressClass), [IngressRule(cr.meta.name + HostSuffix, [HttpPath(RootPath, Prefix, backend)])]))
  }

  /** Appending a fixed suffix is injective. */
  lemma {:induction false} SuffixInjective(a: string, b: string, suffix: string)
    requires a + suffix == b + suffix
    ensures a == b
  {
    assert |a| == |b|;
    assert a == (a + suffix)[..|a|];
    assert b == (b + suffix)[..|b|];
  }

  /** Dependent names never collide: within one kind, distinct declarations
      own distinct keys. */
  lemma KeyForInjective(kind: Kind, ns1: string, n1: string, ns2: string, n2: string)
    requires KeyFor(kind, ns1, n1) == KeyFor(kind, ns2, n2)
    ensures ns1 == ns2 && n1 == n2
  {
    if kind == IngressKind {
      SuffixInjective(n1, n2, IngressSuffix);
    }
  }

  /** Two different declarations never share a managed object, so passes
      for different keys cannot interfere. */
  lemma ManagedDisjoint(ns1: string, n1: string, ns2: string, n2: string)
    requires ns1 != ns2 || n1 != n2
    ensures Managed(ns1, n1) !! Managed(ns2, n2)
  {
    forall k | k in Managed(ns1, n1) && k in Managed(ns2, n2)
      ensures false
    {
      assert k == KeyFor(k.kind, ns1, n1);
      assert k == KeyFor(k.kind, ns2, n2);
      KeyForInjective(k.kind, ns1, n1, ns2, n2);
    }
  }

  /** The desired Deployment: named like the declaration in its namespace,
      owned by it, selecting exactly the pods its template labels, one
      container `app` running the declared image on the declared port, at
      the declared width, with nothing observed yet. */
  lemma DesiredDeploymentShape(cr: SimpleApp)
    ensures var d := DesiredDeployment(cr);
      && KeyOf(Dep(d)) == DeploymentKey(cr)
      && d.meta.owner == Some(OwnerOf(cr))
      && d.spec.selector == d.spec.template.labels == AppLabels(cr.meta.name)
      && |d.spec.template.containers| == 1
      && d.spec.template.containers[0].name == ContainerName
      && d.spec.template.containers[0].image == cr.spec.image
      && d.spec.template.containers[0].ports == [cr.spec.containerPort]
      && d.spec.replicas == cr.spec.replicas
      && d.status.readyReplicas == 0
    ensures ValidSpec(cr.spec) ==>
      && 1 <= DesiredDeployment(cr).spec.replicas
      && forall p | p in DesiredDeployment(cr).spec.template.containers[0].ports :: 1 <= p <= 65535
  {
  }

  /** The desired Service and Ingress route traffic to the desired
      Deployment's pods: the Service selects the pod labels and forwards
      `servicePort` to the container's port, cluster-internally; the Ingress
      sends `<name>.local/` to that Service on that port, and names its
      class both in the spec and in the legacy annotation. */
  lemma DesiredObjectsWired(cr: SimpleApp, ingressClass: string)
    ensures var d := DesiredDeployment(cr);
      var v := DesiredService(cr);
      var i := DesiredIngress(cr, ingressClass);
      && KeyOf(Svc(v)) == ServiceKey(cr) && KeyOf(Ing(i)) == IngressKey(cr)
      && v.meta.owner == i.meta.owner == d.meta.owner
      && v.spec.selector == d.spec.template.labels
      && v.spec.serviceType == ClusterIP
      && |v.spec.ports| == 1
      && v.spec.ports[0].targetPort == IntVal(d.spec.template.containers[0].ports[0])
      && v.spec.ports[0].port == cr.spec.servicePort
      && i.meta.name == cr.meta.name + IngressSuffix
      && i.spec.className == Some(ingressClass)
      && i.meta.annotations[LegacyClassAnnotation] == ingressClass
      && |i.spec.rules| == 1 && i.spec.rules[0].host == cr.meta.name + HostSuffix
      && i.spec.rules[0].paths == [HttpPath(RootPath, Prefix, Backend(v.meta.name, v.spec.ports[0].port))]
  {
  }
}
