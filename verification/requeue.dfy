/** The work queue driving `Reconcile` for one key: a failed pass requeues
    the key. Each pass meets its own injected failures, and nothing but the
    passes writes the store between them. */
module Requeue {
  import opened Meta
  import opened AppTypes
  import opened Objects
  import opened Cluster
  import opened Reconciler

  /** Run one pass per entry of `schedule`, pass `i` under the failures
      `schedule[i]`, each on the store the previous one left. */
  method Passes(s: Store, ingressClass: string, req: Request, schedule: seq<Faults>)
    returns (final: Store, outcomes: seq<Outcome>)
    requires WellFormed(s)
    ensures WellFormed(final)
    ensures |outcomes| == |schedule|
    ensures final - ManagedBy(req) == s - ManagedBy(req)
    ensures forall i | 0 <= i < |schedule| && Clean(schedule[i]) :: outcomes[i] == Done
    ensures Done in outcomes ==> Converged(final, ingressClass, req)
    ensures Converged(s, ingressClass, req) ==> final == s
    ensures Declared(s, req) ==>
      && Declared(final, req)
      && final[AppKey(req)].app.meta == s[AppKey(req)].app.meta
      && final[AppKey(req)].app.spec == s[AppKey(req)].app.spec
  {
    final := s;
    outcomes := [];
    var i := 0;
    while i < |schedule|
      invariant 0 <= i <= |schedule| && |outcomes| == i
      invariant WellFormed(final)
      invariant final - ManagedBy(req) == s - ManagedBy(req)
      invariant forall j | 0 <= j < i && Clean(schedule[j]) :: outcomes[j] == Done
      invariant Done in outcomes ==> Converged(final, ingressClass, req)
      invariant Converged(s, ingressClass, req) ==> final == s
      invariant Declared(s, req) ==>
        && Declared(final, req)
        && final[AppKey(req)].app.meta == s[AppKey(req)].app.meta
        && final[AppKey(req)].app.spec == s[AppKey(req)].app.spec
    {
      var r := Reconcile(final, schedule[i], ingressClass, req);
      final := r.store;
      outcomes := outcomes + [r.outcome];
      i := i + 1;
    }
  }

  /** A pass that is done leaves nothing for the next pass on the same key
      to write, whatever fails in it. */
  method ReconcileTwice(s: Store, first: Faults, second: Faults, ingressClass: string, req: Request)
    returns (r1: Pass, r2: Pass)
    requires WellFormed(s)
    ensures r1.outcome.Done? ==> r2.store == r1.store && Quiet(r2)
  {
    r1 := Reconcile(s, first, ingressClass, req);
    r2 := Reconcile(r1.store, second, ingressClass, req);
  }
}
