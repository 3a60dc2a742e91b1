/** The three create-or-patch operations `ensureDeployment`,
    `ensureService` and `ensureIngress`. Each reads its dependent, creates
    the desired object when it is absent, and otherwise patches only the
    fields it deliberately compares. */
module Ensure {
  import opened Meta
  import opened AppTypes
  import opened Objects
  import opened Cluster
  import opened Desired

  // ---- what "in sync" means, stated against the declaration ----

  /** The live Deployment runs the declared width and image. */
  predicate DeploymentMatches(live: Deployment, cr: SimpleApp) {
    && |live.spec.template.containers| > 0
    && live.spec.replicas == cr.spec.replicas
    && live.spec.template.containers[0].image == cr.spec.image
  }

  /** `after` differs from `before` at most in the replica count and the
      first container's image. */
  predicate OnlyReplicasAndImageChanged(before: Deployment, after: Deployment) {
    && after.meta == before.meta
    && after.status == before.status
    && after.spec.selector == before.spec.selector
    && after.spec.template.labels == before.spec.template.labels
    && |after.spec.template.containers| == |before.spec.template.containers| > 0
    && after.spec.template.containers[0]
       == before.spec.template.containers[0].(image := after.spec.template.containers[0].image)
    && after.spec.template.containers[1..] == before.spec.template.containers[1..]
  }

  /** The live Service's first port forwards the declared service port to
      the declared container port. */
  predicate ServiceMatches(live: Service, cr: SimpleApp) {
    && |live.spec.ports| > 0
    && live.spec.ports[0].port == cr.spec.servicePort
    && live.spec.ports[0].targetPort == IntVal(cr.spec.containerPort)
  }

  /** `after` differs from `before` at most in its port list. */
  predicate OnlyPortsChanged(before: Service, after: Service) {
    after == before.(spec := before.spec.(ports := after.spec.ports))
  }

  /** The live Ingress needs no patch for route class `ingressClass`: its
      class is that class, or it has none (a nil class is never patched). */
  predicate IngressSettled(live: Ingress, ingressClass: string) {
    live.spec.className.None? || live.spec.className == Some(ingressClass)
  }

  /** `after` differs from `before` at most in its class name: the legacy
      annotation, host and paths stay. */
  predicate OnlyClassChanged(before: Ingress, after: Ingress) {
    after == before.(spec := before.spec.(className := after.spec.className))
  }

  // ---- the same, read off a store ----

  predicate DeploymentSettledIn(s: Store, cr: SimpleApp) {
    DeploymentKey(cr) in s && s[DeploymentKey(cr)].Dep? && DeploymentMatches(s[DeploymentKey(cr)].dep, cr)
  }

  predicate ServiceSettledIn(s: Store, cr: SimpleApp) {
    ServiceKey(cr) in s && s[ServiceKey(cr)].Svc? && ServiceMatches(s[ServiceKey(cr)].svc, cr)
  }

  /** With no route class there is nothing to settle. */
  predicate IngressSettledIn(s: Store, ingressClass: string, cr: SimpleApp) {
    ingressClass != "" ==>
      IngressKey(cr) in s && s[IngressKey(cr)].Ing? && IngressSettled(s[IngressKey(cr)].ing, ingressClass)
  }

  // ---- what a step may leave under its key ----

  /** `live` patched as `ensure…` patches an object of its kind towards
      `built`: a Deployment takes the replicas and first image of `built`, a
      Service its port list, an Ingress its class; nothing else changes. */
  function PatchedAs(live: Obj, built: Obj): Obj {
    match live
    case Dep(d) =>
      var containers := d.spec.template.containers;
      if built.Dep? && |containers| > 0 && |built.dep.spec.template.containers| > 0 then
        Dep(d.(spec := d.spec.(
          replicas := built.dep.spec.replicas,
          template := d.spec.template.(containers := containers[0 := containers[0].(
            image := built.dep.spec.template.containers[0].image)]))))
      else live
    case Svc(v) => if built.Svc? then Svc(v.(spec := v.spec.(ports := built.svc.spec.ports))) else live
    case Ing(i) => if built.Ing? then Ing(i.(spec := i.spec.(className := built.ing.spec.className))) else live
    case App(_) => live
  }

  /** Whatever `s'` holds under `k` is `built` where `s` held nothing, and
      otherwise the object of `s`, as it was or patched towards `built`. An
      object of `s` is never removed. */
  predicate AsBuilt(s: Store, s': Store, k: Key, built: Obj) {
    && (k in s ==> k in s')
    && (k in s' ==> if k in s then s'[k] == s[k] || s'[k] == PatchedAs(s[k], built) else s'[k] == built)
  }

  /** What one ensure step that started from `s` did to its key `k`: left
      it as built, wrote only when its object was not `settled` in `s`, and
      left it exactly as it was when it did not write. */
  predicate StepAsBuilt(s: Store, s': Store, t: Touch, k: Key, built: Obj, settled: bool) {
    && AsBuilt(s, s', k, built)
    && (t.Wrote? ==> !settled)
    && (!t.Wrote? ==> Untouched(s, s', k))
  }

  /** A step that did not write and whose key nobody else wrote. */
  lemma StepKept(s: Store, s': Store, t: Touch, k: Key, built: Obj, settled: bool)
    requires !t.Wrote? && Untouched(s, s', k)
    ensures StepAsBuilt(s, s', t, k, built, settled)
  {
  }

  /** A step's account survives later writes elsewhere. */
  lemma StepThen(s: Store, m: Store, s': Store, t: Touch, k: Key, built: Obj, settled: bool)
    requires StepAsBuilt(s, m, t, k, built, settled) && Untouched(m, s', k)
    ensures StepAsBuilt(s, s', t, k, built, settled)
  {
  }

  /** A step's account holds from before earlier writes elsewhere. */
  lemma StepAfter(s: Store, m: Store, s': Store, t: Touch, k: Key, built: Obj, settledThen: bool, settled: bool)
    requires Untouched(s, m, k) && StepAsBuilt(m, s', t, k, built, settledThen)
    requires settledThen == settled
    ensures StepAsBuilt(s, s', t, k, built, settled)
  {
  }

  // ---- ensureDeployment ----

  /** The ready count `ensureDeployment` reports for `cr`: that of the live
      Deployment, or zero for the one it is about to create. */
  function ObservedReady(s: Store, cr: SimpleApp): Int32 {
    if DeploymentKey(cr) in s && s[DeploymentKey(cr)].Dep? then s[DeploymentKey(cr)].dep.status.readyReplicas else 0
  }

  /** `ensureDeployment`: create the desired Deployment if absent, else
      update replicas and image together when either drifted. */
  method EnsureDeployment(s: Store, faults: Faults, cr: SimpleApp) returns (r: Step<Deployment>)
    requires WellFormed(s)
    ensures WellFormed(r.store)
    ensures r.store - {DeploymentKey(cr)} == s - {DeploymentKey(cr)}
    ensures StepAsBuilt(s, r.store, r.touch, DeploymentKey(cr), Dep(DesiredDeployment(cr)), DeploymentSettledIn(s, cr))
    ensures r.touch != Skipped && WritesFitting(s, DeploymentKey(cr), r.touch)
    ensures FailsOnlyByFault(r, DeploymentKey(cr), faults)
    ensures r.result.Ok? <==> Succeeded(DeploymentKey(cr), r.touch, faults)
    ensures r.result.Err? || !r.touch.Wrote? ==> r.store == s
    ensures r.result.Ok? ==>
      && DeploymentSettledIn(r.store, cr)
      && r.store[DeploymentKey(cr)] == Dep(r.result.value)
    ensures r.result.Ok? ==>
      r.result.value.status.readyReplicas == ObservedReady(s, cr) == ObservedReady(r.store, cr)
    ensures r.result.Ok? && DeploymentKey(cr) !in s ==> r.result.value == DesiredDeployment(cr)
    ensures r.result.Ok? && DeploymentKey(cr) in s ==>
      OnlyReplicasAndImageChanged(s[DeploymentKey(cr)].dep, r.result.value)
    ensures r.touch.Wrote? <==>
      Call(Get, DeploymentKey(cr)) !in faults && !DeploymentSettledIn(s, cr)
  {
    var desired := DesiredDeployment(cr);
    var key := DeploymentKey(cr);
    var read := GetObject(s, faults, key);
    if read.Err? {
      if read.error != NotFound {
        return Step(s, Read, Err(read.error));
      }
      var created := CreateObject(s, faults, Dep(desired));
      if created.Err? {
        return Step(s, Wrote(Create), Err(created.error));
      }
      WrittenAtFrame(s, created.value, key, {key});
      return Step(created.value, Wrote(Create), Ok(desired));
    }
    var existing := read.value.dep;
    var want := desired.spec.template.containers[0].image;
    var needsUpdate := false;
    if existing.spec.replicas != desired.spec.replicas {
      needsUpdate := true;
    }
    if existing.spec.template.containers[0].image != want {
      needsUpdate := true;
    }
    if !needsUpdate {
      return Step(s, Read, Ok(existing));
    }
    var containers := existing.spec.template.containers;
    var patched := existing.(spec := existing.spec.(
      replicas := desired.spec.replicas,
      template := existing.spec.template.(containers := containers[0 := containers[0].(image := want)])));
    var updated := UpdateObject(s, faults, Dep(patched));
    if updated.Err? {
      return Step(s, Wrote(Update), Err(updated.error));
    }
    WrittenAtFrame(s, updated.value, key, {key});
    return Step(updated.value, Wrote(Update), Ok(patched));
  }

  // ---- ensureService ----

  /** `ensureService`: create the desired Service if absent, else replace
      the whole port list when the first port's port or target drifted. */
  method EnsureService(s: Store, faults: Faults, cr: SimpleApp) returns (r: Step<Service>)
    requires WellFormed(s)
    ensures WellFormed(r.store)
    ensures r.store - {ServiceKey(cr)} == s - {ServiceKey(cr)}
    ensures StepAsBuilt(s, r.store, r.touch, ServiceKey(cr), Svc(DesiredService(cr)), ServiceSettledIn(s, cr))
    ensures r.touch != Skipped && WritesFitting(s, ServiceKey(cr), r.touch)
    ensures FailsOnlyByFault(r, ServiceKey(cr), faults)
    ensures r.result.Ok? <==> Succeeded(ServiceKey(cr), r.touch, faults)
    ensures r.result.Err? || !r.touch.Wrote? ==> r.store == s
    ensures r.result.Ok? ==>
      && ServiceSettledIn(r.store, cr)
      && r.store[ServiceKey(cr)] == Svc(r.result.value)
    ensures r.result.Ok? && ServiceKey(cr) !in s ==> r.result.value == DesiredService(cr)
    ensures r.result.Ok? && ServiceKey(cr) in s ==>
      && OnlyPortsChanged(s[ServiceKey(cr)].svc, r.result.value)
      && (r.result.value.spec.ports == s[ServiceKey(cr)].svc.spec.ports
          || r.result.value.spec.ports == DesiredServicePorts(cr))
    ensures r.touch.Wrote? <==>
      Call(Get, ServiceKey(cr)) !in faults && !ServiceSettledIn(s, cr)
  {
    var desired := DesiredService(cr);
    var key := ServiceKey(cr);
    var read := GetObject(s, faults, key);
    if read.Err? {
      if read.error != NotFound {
        return Step(s, Read, Err(read.error));
      }
      var created := CreateObject(s, faults, Svc(desired));
      if created.Err? {
        return Step(s, Wrote(Create), Err(created.error));
      }
      WrittenAtFrame(s, created.value, key, {key});
      return Step(created.value, Wrote(Create), Ok(desired));
    }
    var existing := read.value.svc;
    if || existing.spec.ports[0].port != desired.spec.ports[0].port
       || existing.spec.ports[0].targetPort != desired.spec.ports[0].targetPort
    {
      var patched := existing.(spec := existing.spec.(ports := desired.spec.ports));
      var updated := UpdateObject(s, faults, Svc(patched));
      if updated.Err? {
        return Step(s, Wrote(Update), Err(updated.error));
      }
      WrittenAtFrame(s, updated.value, key, {key});
      return Step(updated.value, Wrote(Update), Ok(patched));
    }
    return Step(s, Read, Ok(existing));
  }

  // ---- ensureIngress ----

  /** `ensureIngress` with the route class read from the process
      configuration (`""` when unset). Unset: nothing at all happens, and an
      Ingress created earlier stays as it is. Set: create the desired
      Ingress if absent, or set the class of a live Ingress whose class is
      set to another value. */
  method EnsureIngress(s: Store, faults: Faults, cr: SimpleApp, ingressClass: string) returns (r: Step<Option<Ingress>>)
    requires WellFormed(s)
    ensures WellFormed(r.store)
    ensures r.store - {IngressKey(cr)} == s - {IngressKey(cr)}
    ensures StepAsBuilt(s, r.store, r.touch, IngressKey(cr), Ing(DesiredIngress(cr, ingressClass)), IngressSettledIn(s, ingressClass, cr))
    ensures FailsOnlyByFault(r, IngressKey(cr), faults)
    ensures r.result.Ok? <==> Succeeded(IngressKey(cr), r.touch, faults)
    ensures r.result.Err? || !r.touch.Wrote? ==> r.store == s
    ensures ingressClass == "" <==> r.touch == Skipped
    ensures ingressClass == "" ==> r.store == s && r.result == Ok(None)
    ensures WritesFitting(s, IngressKey(cr), r.touch)
    ensures r.result.Ok? && ingressClass != "" ==>
      && r.result.value.Some?
      && IngressSettledIn(r.store, ingressClass, cr)
      && r.store[IngressKey(cr)] == Ing(r.result.value.value)
    ensures r.result.Ok? && ingressClass != "" && IngressKey(cr) !in s ==>
      r.result.value.value == DesiredIngress(cr, ingressClass)
    ensures r.result.Ok? && ingressClass != "" && IngressKey(cr) in s ==>
      OnlyClassChanged(s[IngressKey(cr)].ing, r.result.value.value)
    ensures r.result.Ok? && ingressClass != "" && IngressKey(cr) in s && s[IngressKey(cr)].ing.spec.className.Some? ==>
      r.result.value.value.spec.className == Some(ingressClass)
    ensures r.touch.Wrote? <==>
      ingressClass != "" && Call(Get, IngressKey(cr)) !in faults && !IngressSettledIn(s, ingressClass, cr)
  {
    if ingressClass == "" {
      return Step(s, Skipped, Ok(None));
    }
    var desired := DesiredIngress(cr, ingressClass);
    var key := IngressKey(cr);
    var read := GetObject(s, faults, key);
    if read.Err? {
      if read.error != NotFound {
        return Step(s, Read, Err(read.error));
      }
      var created := CreateObject(s, faults, Ing(desired));
      if created.Err? {
        return Step(s, Wrote(Create), Err(created.error));
      }
      WrittenAtFrame(s, created.value, key, {key});
      return Step(created.value, Wrote(Create), Ok(Some(desired)));
    }
    var existing := read.value.ing;
    if existing.spec.className.Some? && existing.spec.className.value != ingressClass {
      var patched := existing.(spec := existing.spec.(className := Some(ingressClass)));
      var updated := UpdateObject(s, faults, Ing(patched));
      if updated.Err? {
        return Step(s, Wrote(Update), Err(updated.error));
      }
      WrittenAtFrame(s, updated.value, key, {key});
      return Step(updated.value, Wrote(Update), Ok(Some(patched)));
    }
    return Step(s, Read, Ok(Some(existing)));
  }

  // ---- idempotence ----

  /** Running `ensureDeployment` again after it succeeded, on the same
      declaration, makes no write whatever fails the second time, and
      returns what the first run left. */
  method EnsureDeploymentTwice(s: Store, first: Faults, second: Faults, cr: SimpleApp)
    returns (r1: Step<Deployment>, r2: Step<Deployment>)
    requires WellFormed(s)
    ensures r1.result.Ok? ==>
      && !r2.touch.Wrote?
      && r2.store == r1.store
      && (r2.result.Ok? ==> r2.result == r1.result)
  {
    r1 := EnsureDeployment(s, first, cr);
    r2 := EnsureDeployment(r1.store, second, cr);
  }

  /** The same for `ensureService`. */
  method EnsureServiceTwice(s: Store, first: Faults, second: Faults, cr: SimpleApp)
    returns (r1: Step<Service>, r2: Step<Service>)
    requires WellFormed(s)
    ensures r1.result.Ok? ==>
      && !r2.touch.Wrote?
      && r2.store == r1.store
      && (r2.result.Ok? ==> r2.result == r1.result)
  {
    r1 := EnsureService(s, first, cr);
    r2 := EnsureService(r1.store, second, cr);
  }

  /** The same for `ensureIngress`, with the route class unchanged. */
  method EnsureIngressTwice(s: Store, first: Faults, second: Faults, cr: SimpleApp, ingressClass: string)
    returns (r1: Step<Option<Ingress>>, r2: Step<Option<Ingress>>)
    requires WellFormed(s)
    ensures r1.result.Ok? ==>
      && !r2.touch.Wrote?
      && r2.store == r1.store
      && (r2.result.Ok? ==> r2.result == r1.result)
  {
    r1 := EnsureIngress(s, first, cr, ingressClass);
    r2 := EnsureIngress(r1.store, second, cr, ingressClass);
  }
}
