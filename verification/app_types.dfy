/** The SimpleApp declaration record (`api/v1/simpleapp_types.go`) and the
    schema its validation and default markers impose on it. */
module AppTypes {
  import opened Meta

  /** `SimpleAppSpec`: the author's desired shape of the application. */
  datatype SimpleAppSpec = SimpleAppSpec(
    image: string,
    replicas: Int32,
    containerPort: Int32,
    servicePort: Int32)

  /** `SimpleAppStatus`: written back by the reconciler (`readyReplicas`) or
      reserved (`serviceStatus`, which no code path writes). */
  datatype SimpleAppStatus = SimpleAppStatus(readyReplicas: Int32, serviceStatus: string)

  /** `SimpleApp`: metadata, spec and status of one declaration. */
  datatype SimpleApp = SimpleApp(meta: ObjectMeta, spec: SimpleAppSpec, status: SimpleAppStatus)

  // Constants of the kubebuilder markers.
  const DefaultReplicas: Int32 := 1
  const MinReplicas: Int32 := 1
  const MinContainerPort: Int32 := 1
  const MaxContainerPort: Int32 := 65535
  const DefaultServicePort: Int32 := 80

  /** What the markers guarantee of a spec that is present: at least one replica
      and a container port in [1, 65535]. The image is only required to be
      present, which a string field always is once admitted; the service
      port is unconstrained beyond its `int32` width. */
  predicate ValidSpec(spec: SimpleAppSpec) {
    && MinReplicas <= spec.replicas
    && MinContainerPort <= spec.containerPort <= MaxContainerPort
  }

  /** A spec as its author submits it: every field may be left out. */
  datatype Manifest = Manifest(
    image: Option<string>,
    replicas: Option<Int32>,
    containerPort: Option<Int32>,
    servicePort: Option<Int32>)

  datatype SchemaError =
    | Missing(field: string)
    | BelowMinimum(field: string, minimum: Int32)
    | AboveMaximum(field: string, maximum: Int32)

  /** The manifest an author would write to obtain `spec` verbatim. */
  function Submitted(spec: SimpleAppSpec): Manifest {
    Manifest(Some(spec.image), Some(spec.replicas), Some(spec.containerPort), Some(spec.servicePort))
  }

  /** Admission of a submitted spec: apply the `default` markers, then check
      the `Required`, `Minimum` and `Maximum` markers. One violation is
      reported: a missing required field first, then a `Minimum` or
      `Maximum` violation in field order. */
  function Admit(m: Manifest): (r: Result<SimpleAppSpec, SchemaError>)
    ensures r.Ok? <==>
      && m.image.Some?
      && m.containerPort.Some?
      && (m.replicas.Some? ==> MinReplicas <= m.replicas.value)
      && MinContainerPort <= m.containerPort.value <= MaxContainerPort
    ensures r.Ok? ==> ValidSpec(r.value)
    ensures r.Ok? ==> r.value.image == m.image.value && r.value.containerPort == m.containerPort.value
    ensures r.Ok? && m.replicas.None? ==> r.value.replicas == DefaultReplicas
    ensures r.Ok? && m.replicas.Some? ==> r.value.replicas == m.replicas.value
    ensures r.Ok? && m.servicePort.None? ==> r.value.servicePort == DefaultServicePort
    ensures r.Ok? && m.servicePort.Some? ==> r.value.servicePort == m.servicePort.value
  {
    if m.image.None? then Err(Missing("image"))
    else if m.containerPort.None? then Err(Missing("containerPort"))
    else
      var replicas := if m.replicas.Some? then m.replicas.value else DefaultReplicas;
      var servicePort := if m.servicePort.Some? then m.servicePort.value else DefaultServicePort;
      if replicas < MinReplicas then Err(BelowMinimum("replicas", MinReplicas))
      else if m.containerPort.value < MinContainerPort then Err(BelowMinimum("containerPort", MinContainerPort))
      else if MaxContainerPort < m.containerPort.value then Err(AboveMaximum("containerPort", MaxContainerPort))
      else Ok(SimpleAppSpec(m.image.value, replicas, m.containerPort.value, servicePort))
  }

  /** Admission accepts exactly the valid specs written out in full, and
      returns them unchanged. */
  lemma AdmitSubmitted(spec: SimpleAppSpec)
    ensures Admit(Submitted(spec)).Ok? <==> ValidSpec(spec)
    ensures ValidSpec(spec) ==> Admit(Submitted(spec)) == Ok(spec)
  {
  }

  /** Admitting an already admitted spec, written out in full, is a no-op. */
  lemma AdmitIdempotent(m: Manifest)
    requires Admit(m).Ok?
    ensures Admit(Submitted(Admit(m).value)) == Admit(m)
  {
    AdmitSubmitted(Admit(m).value);
  }
}
