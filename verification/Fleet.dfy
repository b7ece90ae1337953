/** Both tunnel controllers on one account and one cluster: each one's steps are moves the other allows for,
    no tunnel is ever on record twice, and the provider controller keeps what the other two rely on. */
module Fleet {
  import opened Cloudflare
  import opened BindingPlans
  import opened Kube
  import P = PrivateRoutes
  import B = Bindings
  import Q = Providers

  /** Who has a tunnel on record. */
  datatype User = OfRoute(uid: UID) | OfBinding(uid: UID)

  /** The two controllers' states over one account. */
  ghost predicate Joint(p: P.World, b: B.World) {
    p.account == b.account
  }

  predicate Present(p: P.Snapshot, b: B.Snapshot, x: User) {
    match x
    case OfRoute(u) => u in p.objects
    case OfBinding(u) => u in b.bindings
  }

  function RecordedBy(p: P.Snapshot, b: B.Snapshot, x: User): Id
    requires Present(p, b, x)
  {
    match x
    case OfRoute(u) => p.objects[u].status.tunnelID
    case OfBinding(u) => b.bindings[u].status.tunnelID
  }

  /** The name a recorded tunnel was issued under. */
  lemma IssuedFor(p: P.World, b: B.World, x: User)
    requires Joint(p, b) && Present(p, b, x) && RecordedBy(p, b, x) != NO_ID
    ensures RecordedBy(p, b, x) in p.account.names
    ensures p.account.names[RecordedBy(p, b, x)]
         == match x case OfRoute(u) => ForPrivateRoute(u) case OfBinding(u) => ForBinding(u)
  {
    match x
    case OfRoute(u) => P.ObjectParts(p, u);
    case OfBinding(u) => B.BindingParts(b, u);
  }

  /** The tunnels on record of different bindings and private routes are different. */
  lemma DistinctTunnels(p: P.World, b: B.World, x: User, y: User)
    requires Joint(p, b) && Present(p, b, x) && Present(p, b, y) && x != y
    requires RecordedBy(p, b, x) != NO_ID
    ensures RecordedBy(p, b, x) != RecordedBy(p, b, y)
  {
    IssuedFor(p, b, x);
    if RecordedBy(p, b, y) != NO_ID {
      IssuedFor(p, b, y);
    }
  }

  // ----- Steps of the binding controller, seen by the private-route controller -----

  lemma RouteControllerTolerates(p: P.World, a: Account)
    requires Moved(p.account, a, P.TunnelNames(p), P.Comments(p))
    ensures P.Inv(p.(account := a))
  {
    P.EventKeepsInv(p, P.RemoteChanged(a));
  }

  lemma BindingTunnelMade(p: P.World, b: B.World, u: UID)
    requires Joint(p, b) && u in b.bindings && forall i :: !B.Named(b.account, u, i)
    ensures var v := B.TunnelMade(b, ForBinding(u)); B.Inv(v) && P.Inv(p.(account := v.account))
  {
    P.InvParts(p);
    B.TunnelMadeKeepsInv(b, u);
    B.InvParts(B.TunnelMade(b, ForBinding(u)));
    RouteControllerTolerates(p, B.TunnelMade(b, ForBinding(u)).account);
  }

  lemma BindingTunnelRemoved(p: P.World, b: B.World, u: UID, id: Id)
    requires Joint(p, b) && u in b.bindings && B.Recorded(b.account, u, id) && id != NO_ID
    ensures var v := B.TunnelRemoved(b, id); B.Inv(v) && P.Inv(p.(account := v.account))
  {
    P.InvParts(p);
    B.TunnelRemovedKeepsInv(b, u, id);
    RouteControllerTolerates(p, B.TunnelRemoved(b, id).account);
  }

  lemma BindingConfigured(p: P.World, b: B.World, u: UID, rules: seq<IngressRule>)
    requires Joint(p, b) && u in b.bindings && b.bindings[u].status.tunnelID != NO_ID
    ensures var v := B.Configured(b, b.bindings[u].status.tunnelID, rules);
            B.Inv(v) && P.Inv(p.(account := v.account))
  {
    P.InvParts(p);
    B.ConfiguredKeepsInv(b, u, rules);
    RouteControllerTolerates(p, B.Configured(b, b.bindings[u].status.tunnelID, rules).account);
  }

  // ----- Steps of the private-route controller, seen by the binding controller -----

  lemma BindingControllerTolerates(b: B.World, a: Account)
    requires Moved(b.account, a, B.TunnelNames(b), {})
    ensures B.Inv(b.(account := a))
  {
    B.EventKeepsInv(b, B.RemoteChanged(a));
  }

  lemma RouteTunnelMade(p: P.World, b: B.World, u: UID)
    requires Joint(p, b) && u in p.objects && p.objects[u].status.tunnelID == NO_ID
    requires forall i :: !P.Named(p.account, u, i)
    ensures var v := P.TunnelMade(p, ForPrivateRoute(u)); P.Inv(v) && B.Inv(b.(account := v.account))
  {
    B.InvParts(b);
    P.TunnelMadeKeepsInv(p, u);
    BindingControllerTolerates(b, P.TunnelMade(p, ForPrivateRoute(u)).account);
  }

  lemma RouteTunnelRemoved(p: P.World, b: B.World, u: UID, id: Id)
    requires Joint(p, b) && u in p.objects && p.objects[u].deleting && P.NoneTagged(p.account, u)
    requires id in p.account.names && p.account.names[id] == ForPrivateRoute(u)
    ensures var v := P.TunnelRemoved(p, id); P.Inv(v) && B.Inv(b.(account := v.account))
  {
    B.InvParts(b);
    P.TunnelRemovedKeepsInv(p, u, id);
    BindingControllerTolerates(b, P.TunnelRemoved(p, id).account);
  }

  lemma RouteRouteMade(p: P.World, b: B.World, u: UID)
    requires Joint(p, b) && u in p.objects && P.NoneTagged(p.account, u)
    requires var s := p.objects[u].status;
             s.network.Some? && s.routeID == NO_ID && s.tunnelID != NO_ID && s.tunnelID !in p.dropped
    ensures var s := p.objects[u].status;
            var v := P.RouteMade(p, s.network, s.tunnelID, TagOf(u));
            P.Inv(v) && B.Inv(b.(account := v.account))
  {
    var s := p.objects[u].status;
    B.InvParts(b);
    P.RouteMadeKeepsInv(p, u);
    BindingControllerTolerates(b, P.RouteMade(p, s.network, s.tunnelID, TagOf(u)).account);
  }

  lemma RouteRouteRemoved(p: P.World, b: B.World, u: UID, id: Id)
    requires Joint(p, b) && u in p.objects && id in p.account.comments && p.account.comments[id] == TagOf(u)
    ensures var v := P.RouteRemoved(p, id); P.Inv(v) && B.Inv(b.(account := v.account))
  {
    B.InvParts(b);
    P.RouteRemovedKeepsInv(p, u, id);
    BindingControllerTolerates(b, P.RouteRemoved(p, id).account);
  }

  // ----- The provider controller, seen by the other two -----

  function ProvidersIn(q: Q.Snapshot): map<string, Provider> {
    map n | n in q.providers :: q.providers[n].provider
  }

  /** The provider controller sees every private route, and knows who trusts its provider. */
  ghost predicate RoutesSeen(p: P.World, q: Q.World) {
    && p.cluster.providers == ProvidersIn(q)
    && forall u | u in p.objects ::
         && u in q.dependents
         && var d, spec := q.dependents[u], p.objects[u].spec;
            && d.kind == Q.IsPrivateRoute && d.controller == spec.controller && d.provider == spec.provider
            && (u in p.trusting ==> d.trusting)
  }

  ghost predicate BindingsSeen(b: B.World, q: Q.World) {
    && b.cluster.providers == ProvidersIn(q)
    && forall u | u in b.bindings ::
         && u in q.dependents
         && var d, spec := q.dependents[u], b.bindings[u].spec;
            && d.kind == Q.IsBinding && d.controller == spec.controller && d.provider == spec.provider
            && (u in b.trusting ==> d.trusting)
  }

  /** A new object is one more that refers to the provider, and nothing else changes for the others. */
  lemma RouteCreationSeen(p: P.World, q: Q.World, o: P.RouteObject)
    requires RoutesSeen(p, q) && P.Allowed(p, P.ObjectCreated(o)) && o.uid !in q.dependents
    ensures var e := Q.DependentCreated(o.uid, Q.IsPrivateRoute, o.spec.controller, o.spec.provider);
            && Q.Allowed(q, e) && Q.Inv(Q.Apply(q, e)) && P.Inv(P.Apply(p, P.ObjectCreated(o)))
            && RoutesSeen(P.Apply(p, P.ObjectCreated(o)), Q.Apply(q, e))
  {
    P.InvParts(p);
    P.EventKeepsInv(p, P.ObjectCreated(o));
    Q.EventKeepsInv(q, Q.DependentCreated(o.uid, Q.IsPrivateRoute, o.spec.controller, o.spec.provider));
  }

  lemma BindingCreationSeen(b: B.World, q: Q.World, n: Binding)
    requires BindingsSeen(b, q) && B.Allowed(b, B.BindingCreated(n)) && n.uid !in q.dependents
    ensures var e := Q.DependentCreated(n.uid, Q.IsBinding, n.spec.controller, n.spec.provider);
            && Q.Allowed(q, e) && Q.Inv(Q.Apply(q, e)) && B.Inv(B.Apply(b, B.BindingCreated(n)))
            && BindingsSeen(B.Apply(b, B.BindingCreated(n)), Q.Apply(q, e))
  {
    B.InvParts(b);
    B.EventKeepsInv(b, B.BindingCreated(n));
    Q.EventKeepsInv(q, Q.DependentCreated(n.uid, Q.IsBinding, n.spec.controller, n.spec.provider));
  }

  /** What the private-route reconciler does when it comes to trust a provider is what the provider
      controller allows for. */
  lemma RouteTrustSeen(p: P.World, q: Q.World, u: UID)
    requires RoutesSeen(p, q) && u in p.objects && Reliable(p.cluster, P.RefOf(p.objects[u].spec))
    ensures Q.Allowed(q, Q.DependentTrusts(u)) && P.Inv(P.Trusted(p, u)) && Q.Inv(Q.Apply(q, Q.DependentTrusts(u)))
    ensures RoutesSeen(P.Trusted(p, u), Q.Apply(q, Q.DependentTrusts(u)))
  {
    P.TrustKeepsInv(p, u);
    Q.EventKeepsInv(q, Q.DependentTrusts(u));
  }

  lemma BindingTrustSeen(b: B.World, q: Q.World, u: UID)
    requires BindingsSeen(b, q) && u in b.bindings && Reliable(b.cluster, RefOf(b.bindings[u].spec))
    ensures Q.Allowed(q, Q.DependentTrusts(u)) && B.Inv(B.Trusted(b, u)) && Q.Inv(Q.Apply(q, Q.DependentTrusts(u)))
    ensures BindingsSeen(B.Trusted(b, u), Q.Apply(q, Q.DependentTrusts(u)))
  {
    B.TrustKeepsInv(b, u);
    Q.EventKeepsInv(q, Q.DependentTrusts(u));
  }

  /** Whatever becomes of the providers, from one state that the provider controller keeps to another, is a
      change that the private-route reconciler allows for. */
  lemma ProvidersStayForRoutes(p: P.World, q: Q.World, later: Q.World)
    requires RoutesSeen(p, q) && later.dependents == q.dependents
    ensures var e := P.ClusterChanged(p.cluster.(providers := ProvidersIn(later)));
            P.Allowed(p, e) && P.Inv(P.Apply(p, e)) && RoutesSeen(P.Apply(p, e), later)
  {
    var e := P.ClusterChanged(p.cluster.(providers := ProvidersIn(later)));
    forall u | u in p.objects && u in p.trusting ensures Provided(e.cluster, P.RefOf(p.objects[u].spec)) {
      Q.ProviderOutlivesUsers(later, u);
    }
    P.EventKeepsInv(p, e);
  }

  lemma ProvidersStayForBindings(b: B.World, q: Q.World, later: Q.World)
    requires BindingsSeen(b, q) && later.dependents == q.dependents
    ensures var e := B.ClusterChanged(b.cluster.(providers := ProvidersIn(later)));
            B.Allowed(b, e) && B.Inv(B.Apply(b, e)) && BindingsSeen(B.Apply(b, e), later)
  {
    var e := B.ClusterChanged(b.cluster.(providers := ProvidersIn(later)));
    forall u | u in b.bindings && u in b.trusting ensures Provided(e.cluster, RefOf(b.bindings[u].spec)) {
      Q.ProviderOutlivesUsers(later, u);
    }
    B.EventKeepsInv(b, e);
  }

  /** Whoever has a tunnel on record has its provider, of its class and under the finalizer. */
  lemma TunnelsKeepProviders(p: P.World, b: B.World, q: Q.World, u: UID)
    requires RoutesSeen(p, q) && BindingsSeen(b, q)
    ensures u in p.objects && p.objects[u].status.tunnelID != NO_ID ==> Q.Served(q.providers, q.dependents[u])
    ensures u in b.bindings && b.bindings[u].status.tunnelID != NO_ID ==> Q.Served(q.providers, q.dependents[u])
  {
    if u in p.objects {
      P.ObjectParts(p, u);
    }
    if u in b.bindings {
      B.BindingParts(b, u);
    }
  }

  /** No binding gets a plan and no private route a network unless its provider is currently accepted, with
      valid credentials, and of its class. */
  lemma OnlyReliableProvidersPass(c: Cluster, bs: map<UID, Binding>, b: Binding, r: P.RouteObject,
      controllerClass: string)
    ensures PlanFor(c, bs, b, controllerClass).Planned? ==> Reliable(c, RefOf(b.spec))
    ensures P.Resolve(c, r).Admitted? ==> Reliable(c, P.RefOf(r.spec))
  {}
}
