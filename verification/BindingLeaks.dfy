/** Two runs after which the finalization of a binding leaves a tunnel behind. */
module BindingLeaks {
  import opened BindingLaws
  import opened BindingPlans
  import opened BindingReconciliation
  import opened Bindings
  import opened Cloudflare
  import opened Kube
  import opened Planner
  import opened Text

  const GATEWAY := ParentRef(None, None, None, "gateway", Some("web"))

  const ROUTE := HTTPRoute(1, [GATEWAY],
    [RouteParent(GATEWAY, TRAEFIK, Reported(IsTrue, 1, OtherReason), Reported(IsTrue, 1, OtherReason))], ["a"])

  /** A cluster in which a binding of class "kflared" has the name "a" to publish. */
  const SITE := Cluster(
    map["cloudflare" := Provider("kflared", 1, ["a"], Some(map[]), "token",
      Reported(IsTrue, 1, Reason.Accepted), Reported(IsTrue, 1, OtherReason))],
    map["default" := map[]],
    map[Key("default", "app") := Service(ClusterIPType, V4(1), [Port("http", 80)])],
    map[],
    map[Key("default", "gateway") := Gateway("traefik", 1, Reported(IsTrue, 1, OtherReason),
      Reported(IsTrue, 1, OtherReason), [Listener("web", true)])],
    map["traefik" := TRAEFIK],
    map[Key("default", "route") := ROUTE],
    {"token"})

  const WANTED := BindingSpec("kflared", "cloudflare", "gateway", "web", "", "app", ByNumber(80), false, false)

  function Fresh(u: UID): Binding {
    Binding(u, "default", "binding", 0, 1, 1, false, false, WANTED, UNSET)
  }

  // ----- The plan on the site -----

  lemma NameIsConcrete(name: string)
    requires |name| == 1 && name[0] == 'a'
    ensures Concrete(name) && Canonical(name) == name
  {
    assert name[1..] == "" && Labels("") == [""];
    assert Labels(name) == Extend(name[0], [""]);
    assert [name[0]] + "" == name;
    assert Labels(name) == [name];
    CanonicalId(name);
  }

  lemma OneZone(zones: seq<string>, h: string)
    requires zones == [h] && Canonical(h) == h
    ensures CanonicalSet(zones) == {h}
  {
    assert zones[0] == h;
  }

  lemma ZoneOf(p: Provider, h: string)
    requires CanonicalSet(p.zones) == {h} && Concrete(h)
    ensures ZonesOk(p) && h in Zones(p)
  {
    assert h in Elements(Zones(p));
  }

  lemma Offered(c: Cluster, b: Binding, k: Key, h: string)
    requires k in c.httpRoutes && Contributes(k, c.httpRoutes[k], b) && h in c.httpRoutes[k].hostnames
    requires Canonical(h) == h
    ensures h in CanonicalOf(RouteHostnames(c, b))
  {
    assert h in RouteHostnames(c, b);
  }

  lemma Accepted(names: set<string>, zones: seq<string>, h: string)
    requires h in names && h in zones && Concrete(h)
    ensures h in EligibleOf(names, zones)
  {
    var k :| 0 <= k < |zones| && zones[k] == h;
    assert InZone(h, zones[k]);
  }

  /** A binding that is alone, whose provider and origin pass and that wants a name, gets a plan. */
  lemma AlonePlanned(c: Cluster, bs: map<UID, Binding>, b: Binding, controllerClass: string, p: Provider,
      check: Check<string>)
    requires forall x | x in bs :: bs[x].uid == b.uid
    requires CheckProvider(c, b) == Yes(p) && CheckNamespace(c, b, p) == Yes(p)
    requires check == ValidateOriginService(c, b) && check.Yes?
    requires ZonesOk(p) && HostsOf(c, b, p) != {}
    ensures PlanFor(c, bs, b, controllerClass).Planned?
  {
    AloneVouched(c, bs, b, controllerClass, p);
    HostsPlanned(c, bs, b, p, check.value);
    OriginPlanned(c, bs, b, p, check);
  }

  lemma OriginPlanned(c: Cluster, bs: map<UID, Binding>, b: Binding, p: Provider, check: Check<string>)
    requires check == ValidateOriginService(c, b) && check.Yes? && PlanHosts(c, bs, b, p, check.value).Planned?
    ensures PlanForOrigin(c, bs, b, p).Planned?
  {}

  lemma HostsPlanned(c: Cluster, bs: map<UID, Binding>, b: Binding, p: Provider, origin: string)
    requires (forall x | x in bs :: bs[x].uid == b.uid) && ZonesOk(p) && HostsOf(c, b, p) != {}
    ensures PlanHosts(c, bs, b, p, origin).Planned?
  {
    AloneClaims(c, bs, b, HostsOf(c, b, p), origin);
  }

  lemma AloneVouched(c: Cluster, bs: map<UID, Binding>, b: Binding, controllerClass: string, p: Provider)
    requires forall x | x in bs :: bs[x].uid == b.uid
    requires CheckProvider(c, b) == Yes(p) && CheckNamespace(c, b, p) == Yes(p)
    ensures ValidateClusterProvider(c, bs, b, controllerClass) == Yes(p)
  {
    assert !GatewayTaken(bs, b, controllerClass);
  }

  lemma AloneClaims(c: Cluster, bs: map<UID, Binding>, b: Binding, hosts: set<string>, origin: string)
    requires (forall x | x in bs :: bs[x].uid == b.uid) && hosts != {}
    ensures PlanClaim(c, bs, b, hosts, origin).Planned?
  {
    assert !HostsTaken(c, bs, b, hosts);
  }

  lemma RouteContributes(b: Binding, route: HTTPRoute)
    requires b.namespace == "default" && b.spec.gateway == "gateway" && b.spec.section == "web"
    requires route == ROUTE
    ensures Contributes(Key("default", "route"), route, b) && "a" in route.hostnames
  {
    assert route.parents[0] == GATEWAY && route.status[0].ref == GATEWAY && route.hostnames[0] == "a";
    assert TargetsGateway(route.parents[0], "default", b);
    assert TargetsGateway(route.status[0].ref, "default", b);
  }

  lemma OriginOnSite(b: Binding)
    requires b.namespace == "default" && b.spec == WANTED
    ensures ValidateOriginService(SITE, b).Yes?
  {
    var gateway := SITE.gateways[Key("default", "gateway")];
    assert gateway.listeners[0] == Listener("web", true);
    assert ResolvePort([Port("http", 80)], ByNumber(80)) == Some(80);
  }

  lemma ProviderPasses(c: Cluster, b: Binding, p: Provider)
    requires b.spec.provider in c.providers && c.providers[b.spec.provider] == p
    requires p.controller == b.spec.controller && CurrentlyValid(p) && p.selector == Some(map[])
    requires b.namespace in c.namespaces
    ensures CheckProvider(c, b) == Yes(p) && CheckNamespace(c, b, p) == Yes(p)
  {}

  lemma WantedOnSite(b: Binding, p: Provider, h: string)
    requires b.namespace == "default" && b.spec == WANTED && p.zones == [h] && h == "a"
    ensures ZonesOk(p) && h in HostsOf(SITE, b, p)
  {
    NameIsConcrete(h);
    RouteContributes(b, SITE.httpRoutes[Key("default", "route")]);
    OneZone(p.zones, h);
    ZoneOf(p, h);
    Offered(SITE, b, Key("default", "route"), h);
    Accepted(CanonicalOf(RouteHostnames(SITE, b)), Zones(p), h);
  }

  lemma PlannedOnSite(bs: map<UID, Binding>, b: Binding)
    requires b.namespace == "default" && b.spec == WANTED && forall x | x in bs :: bs[x].uid == b.uid
    ensures PlanFor(SITE, bs, b, "kflared").Planned?
  {
    var p := SITE.providers["cloudflare"];
    ProviderPasses(SITE, b, p);
    WantedOnSite(b, p, "a");
    OriginOnSite(b);
    AlonePlanned(SITE, bs, b, "kflared", p, ValidateOriginService(SITE, b));
  }

  // ----- The runs -----

  /** The binding has a plan: whoever reconciles it goes on to its tunnel. */
  ghost predicate HasPlan(w: Snapshot, u: UID, controllerClass: string) {
    u in w.bindings && PlanFor(w.cluster, w.bindings, w.bindings[u], controllerClass).Planned?
  }

  /** Under the finalizer and with a token at hand, the tunnel on record is not there and no tunnel has the name,
      so that one is created next; the policy is Delete, and nothing foreign is in the way of the children. */
  ghost predicate Tunnelless(w: Snapshot, u: UID) {
    && u in w.bindings && u in w.trusting
    && var b := w.bindings[u];
       && b.finalizer && !b.deleting && !b.spec.retain && b.spec.controller != ""
       && Reachable(w.cluster, RefOf(b.spec))
       && MayRemove(w, u, Deployment) && MayRemove(w, u, Secret) && MayRemoveEndpoint(w, b)
       && b.status.tunnelID !in w.account.tunnels && forall i :: !Named(w.account, u, i)
  }

  /** From nothing: the cluster is set up, the binding is created, the controller adds its finalizer and finds
      the provider current. */
  function Ready(u: UID): Snapshot {
    var created := Apply(Apply(NOTHING, ClusterChanged(SITE)), BindingCreated(Fresh(u)));
    if u in created.bindings then Trusted(WithFinalizer(created, u), u) else created
  }

  lemma ReadyState(u: UID)
    ensures Inv(Ready(u)) && Ready(u).cluster == SITE && Ready(u).account == NOTHING.account
    ensures Ready(u).bindings == map[u := Fresh(u).(finalizer := true, version := 2)] && u in Ready(u).trusting
    ensures Ready(u).children == map[] && Ready(u).endpoints == map[]
  {
    EventKeepsInv(NOTHING, ClusterChanged(SITE));
    var ground: World := Apply(NOTHING, ClusterChanged(SITE));
    EventKeepsInv(ground, BindingCreated(Fresh(u)));
    var created: World := Apply(ground, BindingCreated(Fresh(u)));
    assert created.bindings == map[u := Fresh(u)];
    FinalizerKeepsInv(created, u);
    TrustKeepsInv(WithFinalizer(created, u), u);
  }

  lemma ReadyToCreate(u: UID)
    ensures Inv(Ready(u)) && HasPlan(Ready(u), u, "kflared") && Tunnelless(Ready(u), u)
    ensures Ready(u).bindings[u].spec.controller == "kflared" && Ready(u).bindings[u].status.tunnelID == NO_ID
  {
    ReadyState(u);
    PlannedOnSite(Ready(u).bindings, Ready(u).bindings[u]);
    assert Reachable(SITE, RefOf(WANTED));
  }

  /** The creation takes effect, its response is lost, and the binding is deleted. */
  function Abandoned(w: Snapshot, u: UID): Snapshot {
    Apply(TunnelMade(w, ForBinding(u)), DeletionRequested(u))
  }

  lemma LostResponse(w: World, u: UID)
    requires Tunnelless(w, u)
    ensures var v := Abandoned(w, u);
            && Inv(v) && Dying(v, u) && !v.bindings[u].spec.retain && CanFinish(v, v.bindings[u])
            && v.bindings[u].spec == w.bindings[u].spec && v.bindings[u].status == w.bindings[u].status
            && Named(v.account, u, w.account.next) && v.bindings[u].status.tunnelID != w.account.next
  {
    InvParts(w);
    BindingParts(w, u);
    TunnelMadeKeepsInv(w, u);
    var made: World := TunnelMade(w, ForBinding(u));
    EventKeepsInv(made, DeletionRequested(u));
  }

  /** The finalization that follows succeeds, the binding is gone, and the tunnel lives on. */
  method LostResponseLeaks(r: BindingReconciler, u: UID, ghost before: World)
    requires r.mode.Calm? && Tunnelless(before, u) && r.controllerClass == before.bindings[u].spec.controller
    requires r.world == Abandoned(before, u)
    modifies r`world, r`binding, r`writes, r`sources, r`start, r`basis
    ensures u !in r.world.bindings && exists i :: Named(r.world.account, u, i)
  {
    LostResponse(before, u);
    ghost var w := r.world;
    var ok, plan, provider;
    ghost var ready;
    ok, plan, provider, ready := r.Reconcile(u);
    LeakExactly(w, r.world, u, plan, ok, ready);
    assert Named(w.account, u, before.account.next);
  }

  /** The tunnel is created and recorded, and then deleted by someone else. */
  function Recorded(w: Snapshot, u: UID): Snapshot
    requires u in w.bindings
  {
    var s := w.bindings[u].status;
    Patched(TunnelMade(w, ForBinding(u)), u, s, s.(tunnelID := w.account.next))
  }

  function Bereft(w: Snapshot, u: UID): Snapshot
    requires u in w.bindings
  {
    var v := Recorded(w, u);
    Apply(v, RemoteChanged(DropTunnel(v.account, w.account.next)))
  }

  /** The dead tunnel is still on record when its successor is about to be created; if that response is lost,
      `LostResponse` applies with a tunnel on record. */
  lemma ReadyToReplace(w: World, u: UID, controllerClass: string)
    requires Tunnelless(w, u) && HasPlan(w, u, controllerClass) && w.bindings[u].status.tunnelID == NO_ID
    ensures Inv(Bereft(w, u)) && Tunnelless(Bereft(w, u), u) && HasPlan(Bereft(w, u), u, controllerClass)
    ensures Bereft(w, u).bindings[u].status.tunnelID == w.account.next != NO_ID
  {
    RecordedNow(w, u);
    BereftTunnelless(w, u);
    SamePlanAfter(w, Bereft(w, u), u, controllerClass);
  }

  lemma RecordedNow(w: World, u: UID)
    requires Tunnelless(w, u) && w.bindings[u].status.tunnelID == NO_ID
    ensures var v := Recorded(w, u);
            && Inv(v) && v == w.(account := v.account, bindings := v.bindings) && v.account.tunnels.Keys
                 == w.account.tunnels.Keys + {w.account.next}
            && (forall i | i != w.account.next :: Named(v.account, u, i) <==> Named(w.account, u, i))
            && v.bindings.Keys == w.bindings.Keys
            && (forall x | x in w.bindings && x != u :: v.bindings[x] == w.bindings[x])
            && v.bindings[u] == w.bindings[u].(status := v.bindings[u].status, version := v.bindings[u].version)
            && v.bindings[u].status == w.bindings[u].status.(tunnelID := w.account.next) && w.account.next != NO_ID
  {
    BindingParts(w, u);
    var s := w.bindings[u].status;
    TunnelMadeKeepsInv(w, u);
    var made: World := TunnelMade(w, ForBinding(u));
    PatchKeepsInv(made, u, s, s.(tunnelID := w.account.next));
    MergedExactly(s, s.(tunnelID := w.account.next));
  }

  lemma AnyoneDrops(a: Account, id: Id, names: set<TunnelName>)
    requires AccountOk(a)
    ensures Moved(a, DropTunnel(a, id), names, {})
  {}

  lemma BereftTunnelless(w: World, u: UID)
    requires Tunnelless(w, u) && w.bindings[u].status.tunnelID == NO_ID
    ensures var v := Bereft(w, u);
            && Inv(v) && Tunnelless(v, u) && v == w.(account := v.account, bindings := v.bindings)
            && v.bindings == Recorded(w, u).bindings
  {
    RecordedNow(w, u);
    var v: World := Recorded(w, u);
    InvParts(v);
    AnyoneDrops(v.account, w.account.next, TunnelNames(v));
    EventKeepsInv(v, RemoteChanged(DropTunnel(v.account, w.account.next)));
    forall i ensures !Named(Bereft(w, u).account, u, i) {
      assert !Named(w.account, u, i);
      assert i != w.account.next ==> !Named(v.account, u, i);
    }
  }

  lemma SamePlanAfter(w: World, v: World, u: UID, controllerClass: string)
    requires u in w.bindings && v.cluster == w.cluster && v.bindings.Keys == w.bindings.Keys
    requires forall x | x in w.bindings && x != u :: v.bindings[x] == w.bindings[x]
    requires SameInputs(w.bindings[u], v.bindings[u]) && HasPlan(w, u, controllerClass)
    ensures HasPlan(v, u, controllerClass)
  {
    forall x | x in w.bindings ensures w.bindings[x].uid == x {
      BindingParts(w, x);
    }
    assert SameClaims(w.cluster, w.bindings, v.bindings, u);
    PlanStable(w.cluster, w.bindings, v.bindings, w.bindings[u], v.bindings[u], controllerClass);
  }
}
