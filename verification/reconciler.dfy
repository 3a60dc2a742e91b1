/** `Reconcile`: one reconciliation pass for one declaration key. Fetch the
    declaration, then ensure the Deployment, the Service and the Ingress in
    that order, then mirror the Deployment's ready count into the
    declaration's status, stopping at the first error. Each stage below is
    "the rest of the pass from this step on", as the early returns of the
    Go function make it. */
module Reconciler {
  import opened Meta
  import opened AppTypes
  import opened Objects
  import opened Cluster
  import opened Desired
  import opened Ensure

  /** The queued key: namespace and name of a declaration. */
  datatype Request = Request(namespace: string, name: string)

  /** What a pass reports to the work queue; a failure makes it requeue the key. */
  datatype Outcome = Done | Failed(error: ApiError)

  /** What one pass did: the store it leaves, what each ensure step did to
      its object, whether it wrote the declaration's status, and how it
      ended. The fetch of the declaration always comes first. */
  datatype Pass = Pass(
    store: Store,
    deployment: Touch,
    service: Touch,
    ingress: Touch,
    statusWritten: bool,
    outcome: Outcome)

  // ---- keys ----

  /** Where the object of kind `kind` for the queued key is stored. */
  function KeyIn(req: Request, kind: Kind): Key { KeyFor(kind, req.namespace, req.name) }

  function AppKey(req: Request): Key { KeyIn(req, SimpleAppKind) }

  /** The keys a pass for `req` may touch: the declaration and its three dependents. */
  function ManagedBy(req: Request): set<Key> { Managed(req.namespace, req.name) }

  /** The queued key a declaration is reconciled under. */
  function RequestFor(cr: SimpleApp): Request { Request(cr.meta.namespace, cr.meta.name) }

  // ---- the calls of a pass ----

  /** Every call of the pass, in the order it made them: the fetch of the
      declaration, then the calls of the Deployment, Service and Ingress
      steps, then the status write. The order is that of the Go function's
      body; `Reconcile`'s contract says which steps a pass reaches. */
  function Trace(p: Pass, req: Request): seq<Call> {
    [Call(Get, AppKey(req))]
    + CallsOf(KeyIn(req, DeploymentKind), p.deployment)
    + CallsOf(KeyIn(req, ServiceKind), p.service)
    + CallsOf(KeyIn(req, IngressKind), p.ingress)
    + (if p.statusWritten then [Call(UpdateStatus, AppKey(req))] else [])
  }

  /** The last call of the pass, read off its steps. */
  function LastCall(p: Pass, req: Request): Call {
    if p.statusWritten then Call(UpdateStatus, AppKey(req))
    else if p.ingress != Skipped then LastCallOf(KeyIn(req, IngressKind), p.ingress)
    else if p.service != Skipped then LastCallOf(KeyIn(req, ServiceKind), p.service)
    else if p.deployment != Skipped then LastCallOf(KeyIn(req, DeploymentKind), p.deployment)
    else Call(Get, AppKey(req))
  }

  /** No step wrote anything. */
  predicate Quiet(p: Pass) {
    !p.deployment.Wrote? && !p.service.Wrote? && !p.ingress.Wrote? && !p.statusWritten
  }

  /** A failed pass failed at its last call, with that call's injected error. */
  predicate FailsAtLast(p: Pass, req: Request, faults: Faults) {
    p.outcome.Failed? ==>
      && LastCall(p, req) in faults
      && p.outcome.error == ServerError(faults[LastCall(p, req)])
  }

  /** Every call of the ensure steps and of the status write went through. */
  predicate NoneFailed(p: Pass, req: Request, faults: Faults) {
    && Succeeded(KeyIn(req, DeploymentKind), p.deployment, faults)
    && Succeeded(KeyIn(req, ServiceKind), p.service, faults)
    && Succeeded(KeyIn(req, IngressKind), p.ingress, faults)
    && (p.statusWritten ==> Call(UpdateStatus, AppKey(req)) !in faults)
  }

  /** Each write went to a key whose read went through, and created the
      object when `s` lacked it and updated it otherwise. */
  predicate WritesFit(p: Pass, s: Store, req: Request, faults: Faults) {
    && WritesFitting(s, KeyIn(req, DeploymentKind), p.deployment)
    && WritesFitting(s, KeyIn(req, ServiceKind), p.service)
    && WritesFitting(s, KeyIn(req, IngressKind), p.ingress)
    && (p.deployment.Wrote? ==> Call(Get, KeyIn(req, DeploymentKind)) !in faults)
    && (p.service.Wrote? ==> Call(Get, KeyIn(req, ServiceKind)) !in faults)
    && (p.ingress.Wrote? ==> Call(Get, KeyIn(req, IngressKind)) !in faults)
  }

  /** The steps are reached in order: a step runs only after the step before
      it, and the status write only after the Service step. */
  predicate InOrder(p: Pass) {
    && (p.service != Skipped ==> p.deployment != Skipped)
    && (p.ingress != Skipped || p.statusWritten ==> p.service != Skipped)
  }

  /** A step runs only when every call before it went through. */
  predicate EarlierSucceeded(p: Pass, req: Request, faults: Faults) {
    && (p.deployment != Skipped ==> Call(Get, AppKey(req)) !in faults)
    && (p.service != Skipped ==> Succeeded(KeyIn(req, DeploymentKind), p.deployment, faults))
    && (p.ingress != Skipped || p.statusWritten ==> Succeeded(KeyIn(req, ServiceKind), p.service, faults))
    && (p.statusWritten ==> Succeeded(KeyIn(req, IngressKind), p.ingress, faults))
  }

  // ---- states of the store ----

  /** `cr` is the declaration stored under its key. */
  predicate Holds(s: Store, cr: SimpleApp) {
    KeyOf(App(cr)) in s && s[KeyOf(App(cr))] == App(cr)
  }

  /** The stored declaration is `cr`, except possibly its ready count. */
  predicate StatusOnlyChanged(s: Store, cr: SimpleApp) {
    && KeyOf(App(cr)) in s && s[KeyOf(App(cr))].App?
    && s[KeyOf(App(cr))].app
       == cr.(status := cr.status.(readyReplicas := s[KeyOf(App(cr))].app.status.readyReplicas))
  }

  function StoredReady(s: Store, cr: SimpleApp): Int32
    requires StatusOnlyChanged(s, cr)
  {
    s[KeyOf(App(cr))].app.status.readyReplicas
  }

  /** All three dependents of `cr` are settled in `s`. */
  predicate Settled(s: Store, ingressClass: string, cr: SimpleApp) {
    DeploymentSettledIn(s, cr) && ServiceSettledIn(s, cr) && IngressSettledIn(s, ingressClass, cr)
  }

  // ---- the stages of a pass ----

  /** Step 5: write the Deployment's ready count `observed` into the
      declaration's status when they differ. */
  method SyncStatus(s: Store, faults: Faults, cr: SimpleApp, observed: Int32) returns (r: Pass)
    requires WellFormed(s) && Holds(s, cr)
    ensures WellFormed(r.store)
    ensures r.store - {KeyOf(App(cr))} == s - {KeyOf(App(cr))}
    ensures StatusOnlyChanged(r.store, cr)
    ensures r.deployment == Skipped && r.service == Skipped && r.ingress == Skipped
    ensures r.statusWritten <==> cr.status.readyReplicas != observed
    ensures FailsAtLast(r, RequestFor(cr), faults)
    ensures r.outcome.Failed? ==> r.store == s
    ensures r.outcome.Done? ==> StoredReady(r.store, cr) == observed && NoneFailed(r, RequestFor(cr), faults)
    ensures !r.statusWritten ==> r.store == s && r.outcome.Done?
  {
    if cr.status.readyReplicas == observed {
      return Pass(s, Skipped, Skipped, Skipped, false, Done);
    }
    var updated := cr.(status := cr.status.(readyReplicas := observed));
    var written := UpdateAppStatus(s, faults, updated);
    if written.Err? {
      return Pass(s, Skipped, Skipped, Skipped, true, Failed(written.error));
    }
    WrittenAtFrame(s, written.value, KeyOf(App(cr)), {KeyOf(App(cr))});
    return Pass(written.value, Skipped, Skipped, Skipped, true, Done);
  }

  /** Steps 4 and 5: ensure the Ingress, then mirror `observed`. */
  method FromIngress(s: Store, faults: Faults, ingressClass: string, cr: SimpleApp, observed: Int32)
    returns (r: Pass)
    requires WellFormed(s) && Holds(s, cr)
    ensures WellFormed(r.store)
    ensures r.store - {IngressKey(cr), KeyOf(App(cr))} == s - {IngressKey(cr), KeyOf(App(cr))}
    ensures StatusOnlyChanged(r.store, cr)
    ensures r.deployment == Skipped && r.service == Skipped
    ensures WritesFit(r, s, RequestFor(cr), faults)
    ensures WroteAsBuilt(r, s, ingressClass, cr)
    ensures FailsAtLast(r, RequestFor(cr), faults)
    ensures r.outcome.Failed? ==> Untouched(s, r.store, KeyOf(App(cr))) && (r.ingress != Skipped || r.statusWritten)
    ensures ingressClass == "" <==> r.ingress == Skipped
    ensures ingressClass == "" ==> Untouched(s, r.store, IngressKey(cr))
    ensures r.statusWritten ==>
      && Succeeded(IngressKey(cr), r.ingress, faults)
      && IngressSettledIn(r.store, ingressClass, cr)
      && cr.status.readyReplicas != observed
    ensures r.outcome.Done? ==>
      && NoneFailed(r, RequestFor(cr), faults)
      && IngressSettledIn(r.store, ingressClass, cr)
      && StoredReady(r.store, cr) == observed
      && (r.statusWritten <==> cr.status.readyReplicas != observed)
    ensures IngressSettledIn(s, ingressClass, cr) && cr.status.readyReplicas == observed ==>
      r.store == s && Quiet(r)
  {
    var g := EnsureIngress(s, faults, cr, ingressClass);
    var dk, sk, ik := DeploymentKey(cr), ServiceKey(cr), IngressKey(cr);
    var depBuilt, svcBuilt := Dep(DesiredDeployment(cr)), Svc(DesiredService(cr));
    if g.result.Err? {
      FrameAt(s, g.store, {ik}, dk);
      FrameAt(s, g.store, {ik}, sk);
      StepKept(s, g.store, Skipped, dk, depBuilt, DeploymentSettledIn(s, cr));
      StepKept(s, g.store, Skipped, sk, svcBuilt, ServiceSettledIn(s, cr));
      return Pass(g.store, Skipped, Skipped, g.touch, false, Failed(g.result.error));
    }
    var appKey := KeyOf(App(cr));
    FrameAt(s, g.store, {ik}, appKey);
    var st := SyncStatus(g.store, faults, cr, observed);
    FrameAt(g.store, st.store, {appKey}, ik);
    FrameWiden(s, g.store, {ik}, {ik, appKey});
    FrameWiden(g.store, st.store, {appKey}, {ik, appKey});
    FrameAt(s, st.store, {ik, appKey}, dk);
    FrameAt(s, st.store, {ik, appKey}, sk);
    StepKept(s, st.store, Skipped, dk, depBuilt, DeploymentSettledIn(s, cr));
    StepKept(s, st.store, Skipped, sk, svcBuilt, ServiceSettledIn(s, cr));
    StepThen(s, g.store, st.store, g.touch, ik, Ing(DesiredIngress(cr, ingressClass)),
             IngressSettledIn(s, ingressClass, cr));
    r := Pass(st.store, Skipped, Skipped, g.touch, st.statusWritten, st.outcome);
  }

  /** Steps 3 to 5: ensure the Service, then continue with the Ingress. */
  method FromService(s: Store, faults: Faults, ingressClass: string, cr: SimpleApp, observed: Int32)
    returns (r: Pass)
    requires WellFormed(s) && Holds(s, cr)
    ensures WellFormed(r.store)
    ensures r.store - {ServiceKey(cr), IngressKey(cr), KeyOf(App(cr))}
         == s - {ServiceKey(cr), IngressKey(cr), KeyOf(App(cr))}
    ensures StatusOnlyChanged(r.store, cr)
    ensures r.deployment == Skipped && r.service != Skipped
    ensures WritesFit(r, s, RequestFor(cr), faults)
    ensures WroteAsBuilt(r, s, ingressClass, cr)
    ensures FailsAtLast(r, RequestFor(cr), faults)
    ensures r.outcome.Failed? ==> Untouched(s, r.store, KeyOf(App(cr)))
    ensures ingressClass == "" ==> r.ingress == Skipped && Untouched(s, r.store, IngressKey(cr))
    ensures r.ingress != Skipped || r.statusWritten ==>
      Succeeded(ServiceKey(cr), r.service, faults) && ServiceSettledIn(r.store, cr)
    ensures r.statusWritten ==>
      && Succeeded(IngressKey(cr), r.ingress, faults)
      && IngressSettledIn(r.store, ingressClass, cr)
      && cr.status.readyReplicas != observed
    ensures r.outcome.Done? ==>
      && NoneFailed(r, RequestFor(cr), faults)
      && (ingressClass != "" ==> r.ingress != Skipped)
      && ServiceSettledIn(r.store, cr)
      && IngressSettledIn(r.store, ingressClass, cr)
      && StoredReady(r.store, cr) == observed
      && (r.statusWritten <==> cr.status.readyReplicas != observed)
    ensures
      && ServiceSettledIn(s, cr) && IngressSettledIn(s, ingressClass, cr)
      && cr.status.readyReplicas == observed
      ==> r.store == s && Quiet(r)
  {
    var v := EnsureService(s, faults, cr);
    var dk, sk, ik := DeploymentKey(cr), ServiceKey(cr), IngressKey(cr);
    var depBuilt, ingBuilt := Dep(DesiredDeployment(cr)), Ing(DesiredIngress(cr, ingressClass));
    FrameAt(s, v.store, {sk}, dk);
    FrameAt(s, v.store, {sk}, ik);
    if v.result.Err? {
      StepKept(s, v.store, Skipped, dk, depBuilt, DeploymentSettledIn(s, cr));
      StepKept(s, v.store, Skipped, ik, ingBuilt, IngressSettledIn(s, ingressClass, cr));
      return Pass(v.store, Skipped, v.touch, Skipped, false, Failed(v.result.error));
    }
    var appKey := KeyOf(App(cr));
    FrameAt(s, v.store, {sk}, appKey);
    var f := FromIngress(v.store, faults, ingressClass, cr, observed);
    FrameAt(v.store, f.store, {ik, appKey}, sk);
    FrameWiden(s, v.store, {sk}, {sk, ik, appKey});
    FrameWiden(v.store, f.store, {ik, appKey}, {sk, ik, appKey});
    ServiceThenRest(s, v.store, v.touch, f, ingressClass, cr);
    r := Pass(f.store, Skipped, v.touch, f.ingress, f.statusWritten, f.outcome);
  }

  /** Steps 2 to 5: ensure the Deployment, then continue with the Service,
      mirroring the ready count of the Deployment `ensureDeployment`
      returned. */
  method FromDeployment(s: Store, faults: Faults, ingressClass: string, cr: SimpleApp) returns (r: Pass)
    requires WellFormed(s) && Holds(s, cr)
    ensures WellFormed(r.store)
    ensures r.store - ManagedBy(RequestFor(cr)) == s - ManagedBy(RequestFor(cr))
    ensures StatusOnlyChanged(r.store, cr)
    ensures r.deployment != Skipped
    ensures WritesFit(r, s, RequestFor(cr), faults)
    ensures WroteAsBuilt(r, s, ingressClass, cr)
    ensures FailsAtLast(r, RequestFor(cr), faults)
    ensures r.outcome.Failed? ==> Untouched(s, r.store, KeyOf(App(cr)))
    ensures ingressClass == "" ==> r.ingress == Skipped && Untouched(s, r.store, IngressKey(cr))
    ensures r.service != Skipped ==>
      Succeeded(DeploymentKey(cr), r.deployment, faults) && DeploymentSettledIn(r.store, cr)
    ensures r.ingress != Skipped || r.statusWritten ==>
      r.service != Skipped && Succeeded(ServiceKey(cr), r.service, faults) && ServiceSettledIn(r.store, cr)
    ensures r.statusWritten ==>
      && Succeeded(IngressKey(cr), r.ingress, faults)
      && IngressSettledIn(r.store, ingressClass, cr)
      && cr.status.readyReplicas != ObservedReady(s, cr)
    ensures r.outcome.Done? ==>
      && NoneFailed(r, RequestFor(cr), faults)
      && r.service != Skipped
      && (ingressClass != "" ==> r.ingress != Skipped)
      && Settled(r.store, ingressClass, cr)
      && StoredReady(r.store, cr) == ObservedReady(r.store, cr) == ObservedReady(s, cr)
      && (r.statusWritten <==> cr.status.readyReplicas != ObservedReady(s, cr))
    ensures Settled(s, ingressClass, cr) && cr.status.readyReplicas == ObservedReady(s, cr) ==>
      r.store == s && Quiet(r)
  {
    var d := EnsureDeployment(s, faults, cr);
    var keys := ManagedBy(RequestFor(cr));
    FrameWiden(s, d.store, {DeploymentKey(cr)}, keys);
    if d.result.Err? {
      DeploymentOnly(s, d.store, d.touch, Failed(d.result.error), ingressClass, cr);
      return Pass(d.store, d.touch, Skipped, Skipped, false, Failed(d.result.error));
    }
    var rest := {ServiceKey(cr), IngressKey(cr), KeyOf(App(cr))};
    FrameAt(s, d.store, {DeploymentKey(cr)}, KeyOf(App(cr)));
    FrameAt(s, d.store, {DeploymentKey(cr)}, ServiceKey(cr));
    FrameAt(s, d.store, {DeploymentKey(cr)}, IngressKey(cr));
    var f := FromService(d.store, faults, ingressClass, cr, d.result.value.status.readyReplicas);
    FrameAt(d.store, f.store, rest, DeploymentKey(cr));
    FrameWiden(d.store, f.store, rest, keys);
    DeploymentThenRest(s, d.store, d.touch, f, ingressClass, cr);
    r := Pass(f.store, d.touch, f.service, f.ingress, f.statusWritten, f.outcome);
  }

  /** The Service step's account, followed by the account of the rest of
      the pass, is the account of the stage. */
  lemma ServiceThenRest(s: Store, m: Store, t: Touch, rest: Pass, ingressClass: string, cr: SimpleApp)
    requires WellFormed(s)
    requires m - {ServiceKey(cr)} == s - {ServiceKey(cr)}
    requires rest.store - {IngressKey(cr), KeyOf(App(cr))} == m - {IngressKey(cr), KeyOf(App(cr))}
    requires StepAsBuilt(s, m, t, ServiceKey(cr), Svc(DesiredService(cr)), ServiceSettledIn(s, cr))
    requires rest.deployment == Skipped && WroteAsBuilt(rest, m, ingressClass, cr)
    ensures WroteAsBuilt(Pass(rest.store, Skipped, t, rest.ingress, rest.statusWritten, rest.outcome),
                         s, ingressClass, cr)
  {
    var dk, sk, ik, appKey := DeploymentKey(cr), ServiceKey(cr), IngressKey(cr), KeyOf(App(cr));
    FrameAt(s, m, {sk}, dk);
    FrameAt(s, m, {sk}, ik);
    FrameAt(m, rest.store, {ik, appKey}, dk);
    FrameAt(m, rest.store, {ik, appKey}, sk);
    StepKept(s, rest.store, Skipped, dk, Dep(DesiredDeployment(cr)), DeploymentSettledIn(s, cr));
    StepThen(s, m, rest.store, t, sk, Svc(DesiredService(cr)), ServiceSettledIn(s, cr));
    StepAfter(s, m, rest.store, rest.ingress, ik, Ing(DesiredIngress(cr, ingressClass)),
              IngressSettledIn(m, ingressClass, cr), IngressSettledIn(s, ingressClass, cr));
  }

  /** A pass that stopped after the Deployment step: its account is that
      step's, and the other dependents are kept. */
  lemma DeploymentOnly(s: Store, m: Store, t: Touch, outcome: Outcome, ingressClass: string, cr: SimpleApp)
    requires WellFormed(s)
    requires m - {DeploymentKey(cr)} == s - {DeploymentKey(cr)}
    requires StepAsBuilt(s, m, t, DeploymentKey(cr), Dep(DesiredDeployment(cr)), DeploymentSettledIn(s, cr))
    ensures WroteAsBuilt(Pass(m, t, Skipped, Skipped, false, outcome), s, ingressClass, cr)
  {
    FrameAt(s, m, {DeploymentKey(cr)}, ServiceKey(cr));
    FrameAt(s, m, {DeploymentKey(cr)}, IngressKey(cr));
    StepKept(s, m, Skipped, ServiceKey(cr), Svc(DesiredService(cr)), ServiceSettledIn(s, cr));
    StepKept(s, m, Skipped, IngressKey(cr), Ing(DesiredIngress(cr, ingressClass)),
             IngressSettledIn(s, ingressClass, cr));
  }

  /** The same composition for the Deployment step and the stages after it. */
  lemma DeploymentThenRest(s: Store, m: Store, t: Touch, rest: Pass, ingressClass: string, cr: SimpleApp)
    requires WellFormed(s)
    requires m - {DeploymentKey(cr)} == s - {DeploymentKey(cr)}
    requires rest.store - {ServiceKey(cr), IngressKey(cr), KeyOf(App(cr))}
          == m - {ServiceKey(cr), IngressKey(cr), KeyOf(App(cr))}
    requires StepAsBuilt(s, m, t, DeploymentKey(cr), Dep(DesiredDeployment(cr)), DeploymentSettledIn(s, cr))
    requires WroteAsBuilt(rest, m, ingressClass, cr)
    ensures WroteAsBuilt(Pass(rest.store, t, rest.service, rest.ingress, rest.statusWritten, rest.outcome),
                         s, ingressClass, cr)
  {
    var dk, sk, ik, appKey := DeploymentKey(cr), ServiceKey(cr), IngressKey(cr), KeyOf(App(cr));
    FrameAt(s, m, {dk}, sk);
    FrameAt(s, m, {dk}, ik);
    FrameAt(m, rest.store, {sk, ik, appKey}, dk);
    StepThen(s, m, rest.store, t, dk, Dep(DesiredDeployment(cr)), DeploymentSettledIn(s, cr));
    StepAfter(s, m, rest.store, rest.service, sk, Svc(DesiredService(cr)),
              ServiceSettledIn(m, cr), ServiceSettledIn(s, cr));
    StepAfter(s, m, rest.store, rest.ingress, ik, Ing(DesiredIngress(cr, ingressClass)),
              IngressSettledIn(m, ingressClass, cr), IngressSettledIn(s, ingressClass, cr));
  }

  // ---- the whole pass ----

  /** The objects of the steps that went through stay settled in the store
      a pass leaves, even when a later step fails. */
  predicate SettledSoFar(p: Pass, ingressClass: string, cr: SimpleApp) {
    && (p.service != Skipped ==> DeploymentSettledIn(p.store, cr))
    && (p.ingress != Skipped || p.statusWritten ==> ServiceSettledIn(p.store, cr))
    && (p.statusWritten ==> IngressSettledIn(p.store, ingressClass, cr))
  }

  /** What a pass that started from `s` did to the dependents of `cr`: each
      is as `ensure…` builds it or patched only where `ensure…` patches it, a
      step wrote only an object that was not settled in `s`, and a step that
      did not write left its object exactly as it was. */
  predicate WroteAsBuilt(p: Pass, s: Store, ingressClass: string, cr: SimpleApp) {
    && StepAsBuilt(s, p.store, p.deployment, DeploymentKey(cr), Dep(DesiredDeployment(cr)), DeploymentSettledIn(s, cr))
    && StepAsBuilt(s, p.store, p.service, ServiceKey(cr), Svc(DesiredService(cr)), ServiceSettledIn(s, cr))
    && StepAsBuilt(s, p.store, p.ingress, IngressKey(cr), Ing(DesiredIngress(cr, ingressClass)),
                   IngressSettledIn(s, ingressClass, cr))
  }

  /** A declaration is stored under the queued key. */
  predicate Declared(s: Store, req: Request) {
    AppKey(req) in s && s[AppKey(req)].App?
  }

  /** Nothing is left to do for the queued key: it is not declared, or its
      dependents are settled and its status shows the Deployment's ready count. */
  predicate Converged(s: Store, ingressClass: string, req: Request) {
    Declared(s, req) ==>
      var cr := s[AppKey(req)].app;
      Settled(s, ingressClass, cr) && cr.status.readyReplicas == ObservedReady(s, cr)
  }

  /** A declaration stored under the queued key is reconciled under that key. */
  lemma DeclaredUnderItsKey(s: Store, req: Request)
    requires WellFormed(s) && Declared(s, req)
    ensures Holds(s, s[AppKey(req)].app)
    ensures RequestFor(s[AppKey(req)].app) == req
  {
    assert KeyOf(s[AppKey(req)]) == AppKey(req);
  }

  /** One pass of `Reconcile` for the key `req`, with `faults` failing and the
      Ingress class `ingressClass` read from the environment. */
  method Reconcile(s: Store, faults: Faults, ingressClass: string, req: Request) returns (r: Pass)
    requires WellFormed(s)
    ensures WellFormed(r.store)
    ensures r.store - ManagedBy(req) == s - ManagedBy(req)
    ensures InOrder(r) && EarlierSucceeded(r, req, faults) && WritesFit(r, s, req, faults)
    ensures FailsAtLast(r, req, faults)
    ensures r.outcome.Done? ==> Call(Get, AppKey(req)) !in faults && NoneFailed(r, req, faults)
    ensures r.deployment != Skipped <==> Call(Get, AppKey(req)) !in faults && AppKey(req) in s
    ensures AppKey(req) !in s && Call(Get, AppKey(req)) !in faults ==>
      r == Pass(s, Skipped, Skipped, Skipped, false, Done)
    ensures Call(Get, AppKey(req)) in faults ==>
      r == Pass(s, Skipped, Skipped, Skipped, false, Failed(ServerError(faults[Call(Get, AppKey(req))])))
    ensures Declared(s, req) ==> StatusOnlyChanged(r.store, s[AppKey(req)].app)
    ensures Declared(s, req) ==> SettledSoFar(r, ingressClass, s[AppKey(req)].app)
    ensures Declared(s, req) ==> WroteAsBuilt(r, s, ingressClass, s[AppKey(req)].app)
    ensures r.outcome.Failed? ==> Untouched(s, r.store, AppKey(req))
    ensures ingressClass == "" ==> r.ingress == Skipped && Untouched(s, r.store, KeyIn(req, IngressKind))
    ensures r.outcome.Done? ==> Converged(r.store, ingressClass, req)
    ensures Converged(s, ingressClass, req) ==> r.store == s && Quiet(r)
    ensures Declared(s, req) && r.statusWritten ==>
      s[AppKey(req)].app.status.readyReplicas != ObservedReady(s, s[AppKey(req)].app)
    ensures Declared(s, req) && r.outcome.Done? ==>
      r.service != Skipped && (ingressClass != "" ==> r.ingress != Skipped)
    ensures Declared(s, req) && r.outcome.Done? ==>
      (r.statusWritten <==> s[AppKey(req)].app.status.readyReplicas != ObservedReady(s, s[AppKey(req)].app))
    ensures Clean(faults) ==> r.outcome.Done?
  {
    var got := GetObject(s, faults, AppKey(req));
    if got.Err? {
      if got.error == NotFound {
        return Pass(s, Skipped, Skipped, Skipped, false, Done);
      }
      return Pass(s, Skipped, Skipped, Skipped, false, Failed(got.error));
    }
    DeclaredUnderItsKey(s, req);
    r := FromDeployment(s, faults, ingressClass, s[AppKey(req)].app);
  }

  /** `LastCall` is the last call of the pass. */
  lemma TraceLast(p: Pass, req: Request)
    ensures Last(Trace(p, req)) == LastCall(p, req)
  {
  }

  /** A pass whose writes fit the store wrote nothing exactly when it made
      only reads. */
  lemma TraceQuiet(p: Pass, s: Store, req: Request, faults: Faults)
    requires WritesFit(p, s, req, faults)
    ensures Quiet(p) <==> forall c | c in Trace(p, req) :: c.verb == Get
  {
    var t := Trace(p, req);
    if p.deployment.Wrote? { assert Call(p.deployment.verb, KeyIn(req, DeploymentKind)) in t; }
    if p.service.Wrote? { assert Call(p.service.verb, KeyIn(req, ServiceKind)) in t; }
    if p.ingress.Wrote? { assert Call(p.ingress.verb, KeyIn(req, IngressKind)) in t; }
    if p.statusWritten { assert Call(UpdateStatus, AppKey(req)) in t; }
  }

  /** The calls of a pass went through up to the failing one: every call
      before the last went through, a failed pass failed at its last call with
      that call's error, and a pass that is done had no call fail. */
  lemma TraceStopsAtFault(p: Pass, s: Store, req: Request, faults: Faults)
    requires WritesFit(p, s, req, faults) && InOrder(p) && EarlierSucceeded(p, req, faults)
    requires FailsAtLast(p, req, faults)
    requires p.outcome.Done? ==> Call(Get, AppKey(req)) !in faults && NoneFailed(p, req, faults)
    ensures forall i | 0 <= i < |Trace(p, req)| - 1 :: Trace(p, req)[i] !in faults
    ensures p.outcome.Failed? ==>
      && Last(Trace(p, req)) in faults
      && p.outcome.error == ServerError(faults[Last(Trace(p, req))])
    ensures p.outcome.Done? ==> forall c | c in Trace(p, req) :: c !in faults
  {
  }
}
