/** What plans depend on, and what passes over all bindings add up to. */
module BindingLaws {
  import opened BindingPlans
  import opened Bindings
  import opened Cloudflare
  import opened Kube
  import opened Planner

  // ----- What a plan depends on -----

  lemma SameHosts(c: Cluster, b: Binding, d: Binding, p: Provider)
    requires SameInputs(b, d)
    ensures HostsOf(c, b, p) == HostsOf(c, d, p)
  {
    assert forall k | k in c.httpRoutes :: Contributes(k, c.httpRoutes[k], b) <==> Contributes(k, c.httpRoutes[k], d);
    assert RouteHostnames(c, b) == RouteHostnames(c, d);
  }

  /** Every binding has changed at most in status, version and finalizer; those other than `u` claim the
      same host names. */
  ghost predicate SameClaims(c: Cluster, bs: map<UID, Binding>, ds: map<UID, Binding>, u: UID) {
    && bs.Keys == ds.Keys
    && forall x | x in bs ::
         && SameInputs(bs[x], ds[x])
         && (bs[x].uid != u ==> ClaimedHosts(c, bs[x]) == ClaimedHosts(c, ds[x]))
  }

  lemma SameRivals(c: Cluster, bs: map<UID, Binding>, ds: map<UID, Binding>, b: Binding, d: Binding, hosts: set<string>)
    requires SameInputs(b, d) && SameClaims(c, bs, ds, b.uid)
    ensures HostsTaken(c, bs, b, hosts) <==> HostsTaken(c, ds, d, hosts)
  {}

  lemma SameChecks(c: Cluster, bs: map<UID, Binding>, ds: map<UID, Binding>, b: Binding, d: Binding,
      controllerClass: string)
    requires bs.Keys == ds.Keys && (forall x | x in bs :: SameInputs(bs[x], ds[x])) && SameInputs(b, d)
    ensures ValidateClusterProvider(c, bs, b, controllerClass) == ValidateClusterProvider(c, ds, d, controllerClass)
    ensures ValidateOriginService(c, b) == ValidateOriginService(c, d)
  {}

  /** Whether a tunnel is on record decides only what becomes of a binding without host names. */
  predicate SamePlan(p: Plan, q: Plan) {
    p == q || (p == Refused(NoEligibleHostnames, false) && q.Planned? && q.hosts == {})
  }

  lemma PlanStable(c: Cluster, bs: map<UID, Binding>, ds: map<UID, Binding>, b: Binding, d: Binding,
      controllerClass: string)
    requires SameInputs(b, d) && SameClaims(c, bs, ds, b.uid)
    ensures SamePlan(PlanFor(c, bs, b, controllerClass), PlanFor(c, ds, d, controllerClass))
  {
    SameChecks(c, bs, ds, b, d, controllerClass);
    var check := ValidateClusterProvider(c, bs, b, controllerClass);
    if check.Yes? {
      PlanHostsStable(c, bs, ds, b, d, check.value);
    }
  }

  lemma PlanHostsStable(c: Cluster, bs: map<UID, Binding>, ds: map<UID, Binding>, b: Binding, d: Binding, p: Provider)
    requires SameInputs(b, d) && SameClaims(c, bs, ds, b.uid)
    ensures SamePlan(PlanForOrigin(c, bs, b, p), PlanForOrigin(c, ds, d, p))
  {
    assert ValidateOriginService(c, b) == ValidateOriginService(c, d);
    SameHosts(c, b, d, p);
    SameRivals(c, bs, ds, b, d, HostsOf(c, b, p));
  }

  // ----- Repeated passes -----

  /** The host names a configuration publishes. */
  function HostsIn(rules: seq<IngressRule>): set<string> {
    set r | r in rules && r.hostname != "" :: r.hostname
  }

  lemma {:induction false} HostsOfRules(hostnames: seq<string>, origin: string)
    requires "" !in hostnames
    ensures HostsIn(Rules(hostnames, origin)) == Elements(hostnames)
  {
    if hostnames != [] {
      var rule := IngressRule(hostnames[0], origin, "");
      var rest := Rules(hostnames[1..], origin);
      HostsOfRules(hostnames[1..], origin);
      assert Rules(hostnames, origin) == [rule] + rest;
      assert forall r :: r in Rules(hostnames, origin) <==> r == rule || r in rest;
      assert HostsIn(Rules(hostnames, origin)) == {hostnames[0]} + HostsIn(rest);
      assert hostnames == [hostnames[0]] + hostnames[1..];
    } else {
      assert forall r | r in Rules(hostnames, origin) :: r == CATCH_ALL;
    }
  }

  lemma PlannedRules(hosts: set<string>, origin: string, p: Provider)
    requires WithinZones(hosts, p)
    ensures HostsIn(Rules(Sorted(hosts), origin)) == hosts
  {
    assert forall h | h in Sorted(hosts) :: h in Elements(Sorted(hosts));
    assert forall h | h in hosts :: Eligible(h, Zones(p)) && h != "";
    HostsOfRules(Sorted(hosts), origin);
  }

  /** Every provider in use is there, of the class, currently accepted, and has valid zones. */
  ghost predicate Healthy(c: Cluster, bs: map<UID, Binding>, controllerClass: string) {
    forall x | x in bs ::
      && bs[x].uid == x && !bs[x].deleting && Wellformed(bs[x]) && bs[x].spec.controller == controllerClass
      && Evaluable(c, bs[x]) && ZonesOk(c.providers[bs[x].spec.provider])
      && c.providers[bs[x].spec.provider].controller == controllerClass
  }

  /** `ds` is `bs` but for status, version and finalizer. */
  predicate SameInputsOf(bs: map<UID, Binding>, ds: map<UID, Binding>) {
    bs.Keys == ds.Keys && forall x | x in bs :: SameInputs(bs[x], ds[x])
  }

  lemma HealthyClaims(c: Cluster, bs: map<UID, Binding>, ds: map<UID, Binding>, u: UID, controllerClass: string)
    requires Healthy(c, bs, controllerClass) && SameInputsOf(bs, ds)
    ensures SameClaims(c, bs, ds, u)
  {
    forall x | x in bs ensures ClaimedHosts(c, bs[x]) == ClaimedHosts(c, ds[x]) {
      SameHosts(c, bs[x], ds[x], c.providers[bs[x].spec.provider]);
    }
  }

  /** Every tunnel of `u` publishes what `plan` says; if that is anything, the tunnel on record is there. */
  ghost predicate Realizes(w: Snapshot, u: UID, plan: Plan) {
    && (PublishedBy(plan) != {} ==> u in w.bindings && Named(w.account, u, w.bindings[u].status.tunnelID))
    && forall i | Named(w.account, u, i) :: RealizedAt(w.account.tunnels[i].ingress, plan)
  }

  ghost predicate RealizedAt(rules: seq<IngressRule>, plan: Plan) {
    && HostsIn(rules) == PublishedBy(plan)
    && (PublishedBy(plan) != {} ==> rules == Rules(Sorted(plan.hosts), plan.origin))
  }

  /** The binding has its finalizer if it has something to publish. */
  predicate Prepared(w: Snapshot, u: UID, plan: Plan) {
    u in w.bindings && (plan.Planned? && plan.hosts != {} ==> w.bindings[u].finalizer)
  }

  /** What a pass that reported success has done, in terms of the plan `target` made from the inputs before. */
  ghost predicate Passed(w: World, v: World, u: UID, plan: Plan, target: Plan, ready: bool)
    requires u in w.bindings
  {
    && Steady(w, v, u) && OneOfThree(w, v, u, plan) && SamePlan(target, plan)
    && Converges(w, v, u, plan, true, ready)
    && (plan.Refused? && w.bindings[u].status.tunnelID != NO_ID ==>
          Silenced(v, u, w.bindings[u].status.tunnelID))
    && (plan.Planned? ==>
          && HostsIn(Rules(Sorted(plan.hosts), plan.origin)) == plan.hosts
          && (plan.hosts == {} ==> w.bindings[u].status.tunnelID != NO_ID))
  }

  /** A second successful pass over a binding makes its tunnel what its plan says. */
  lemma PassRealizes(w: World, v: World, u: UID, plan: Plan, target: Plan, ready: bool)
    requires u in w.bindings && Passed(w, v, u, plan, target, ready)
    ensures Prepared(v, u, target)
    ensures Prepared(w, u, target) ==> Realizes(v, u, target)
  {
    BindingParts(w, u);
    BindingParts(v, u);
  }

  /** Realised plans made from one state of the inputs publish disjoint sets of names. */
  lemma RealizedExclusive(c: Cluster, bs: map<UID, Binding>, controllerClass: string, w: World, x: UID, y: UID,
      i: Id, j: Id)
    requires Live(bs, x) && Live(bs, y) && x != y
    requires Realizes(w, x, PlanFor(c, bs, bs[x], controllerClass)) && Named(w.account, x, i)
    requires Realizes(w, y, PlanFor(c, bs, bs[y], controllerClass)) && Named(w.account, y, j)
    ensures HostsIn(w.account.tunnels[i].ingress) !! HostsIn(w.account.tunnels[j].ingress)
  {
    var p, q := PlanFor(c, bs, bs[x], controllerClass), PlanFor(c, bs, bs[y], controllerClass);
    assert RealizedAt(w.account.tunnels[i].ingress, p) && RealizedAt(w.account.tunnels[j].ingress, q);
    SnapshotExclusive(c, bs, x, y, controllerClass);
  }

  /** A binding with a plan but nothing to publish has a tunnel on record. */
  lemma PlannedNothing(c: Cluster, bs: map<UID, Binding>, b: Binding, controllerClass: string)
    requires PlanFor(c, bs, b, controllerClass).Planned? && PlanFor(c, bs, b, controllerClass).hosts == {}
    ensures b.status.tunnelID != NO_ID
  {}

  // ----- Every state of every run -----

  function TunnelsOf(a: Account, u: UID): set<Id> {
    set i | i in a.tunnels && Named(a, u, i)
  }

  /** At most one live tunnel carries the name of `u`, and unless it is on record it publishes nothing. */
  ghost predicate AtMostOneTunnel(w: Snapshot, u: UID)
    requires u in w.bindings
  {
    && |TunnelsOf(w.account, u)| <= 1
    && forall i | i in TunnelsOf(w.account, u) && i != w.bindings[u].status.tunnelID ::
       w.account.tunnels[i].ingress == []
  }

  lemma OneLiveTunnel(w: World, u: UID)
    requires u in w.bindings
    ensures AtMostOneTunnel(w, u) && Honest(w.bindings[u].status.conditions)
  {
    BindingParts(w, u);
    var tunnels := TunnelsOf(w.account, u);
    if tunnels != {} {
      var i :| i in tunnels;
      assert tunnels == {i};
    }
  }
  // ----- What Ready says of a binding -----

  /** After a successful calm pass a binding is ready exactly when its connector is and it publishes some name, in
      DNS too if automation is on; and what it publishes is served by the tunnel on record. */
  lemma ReadyExactly(w: World, v: World, u: UID, plan: Plan, ready: bool)
    requires u in w.bindings && w.bindings[u].finalizer && plan.Planned? && Converges(w, v, u, plan, true, ready)
    ensures u in v.bindings && HasConnector(v, u)
    ensures var b, s := w.bindings[u], v.bindings[u].status;
            && (ConditionTrue(s.conditions.ready, b.generation) <==>
                  && ready && s.published != []
                  && (b.spec.dnsAutomation ==> v.dnsEndpoints && Publishes(v, b, s.published, s.tunnelID)))
            && Serves(v, u, Rules(s.published, plan.origin)) && Elements(s.published) == plan.hosts
  {
    Present(w, u);
  }

  // ----- Tunnels that finalization misses -----

  /** An undisturbed finalization under Delete leaves a live tunnel of the binding behind exactly when there is
      one that is not on record. */
  lemma LeakExactly(w: World, v: World, u: UID, plan: Plan, ok: bool, ready: bool)
    requires Dying(w, u) && !w.bindings[u].spec.retain && CanFinish(w, w.bindings[u])
    requires Settles(w, v, w.bindings[u], plan, ok, ready)
    ensures u !in v.bindings
    ensures (exists i :: Named(v.account, u, i)) <==>
              exists i :: Named(w.account, u, i) && i != w.bindings[u].status.tunnelID
  {
    BindingParts(w, u);
    var b := w.bindings[u];
    forall i ensures Named(v.account, u, i) <==> Named(w.account, u, i) && i != b.status.tunnelID {
      assert b.status.tunnelID == NO_ID ==> NO_ID !in w.account.tunnels;
    }
  }
}
