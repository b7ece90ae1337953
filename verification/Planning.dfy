/** What a binding's plan comes to, requirement by requirement, and the names that are in it. */
module Planning {
  import opened BindingPlans
  import opened Cloudflare
  import opened Kube
  import opened Planner
  import opened Providers
  import opened Requirements
  import opened Spellings
  import opened Text

  // ----- Names -----

  /** The reference with its defaults filled in: group, kind, namespace, name and section. */
  function Filled(ref: ParentRef, namespace: string): (string, string, string, string, Option<string>) {
    (if ref.group.None? then "gateway.networking.k8s.io" else ref.group.value,
     if ref.kind.None? then "Gateway" else ref.kind.value,
     if ref.namespace.None? then namespace else ref.namespace.value,
     ref.name,
     ref.sectionName)
  }

  /** The listener of the Gateway that the binding refers to. */
  function ListenerOf(b: Binding): (string, string, string, string, Option<string>) {
    ("gateway.networking.k8s.io", "Gateway", b.namespace, b.spec.gateway, Some(b.spec.section))
  }

  /** The route asks for the listener, and Traefik says of that very parent that it takes the route as it is. */
  ghost predicate Routed(route: HTTPRoute, namespace: string, b: Binding) {
    && (exists ref | ref in route.parents :: Filled(ref, namespace) == ListenerOf(b))
    && exists p | p in route.status ::
         && p.controllerName == "traefik.io/gateway-controller" && Filled(p.ref, namespace) == ListenerOf(b)
         && TrueNow(p.accepted, route.generation) && TrueNow(p.resolvedRefs, route.generation)
  }

  /** A routed host name of the binding's namespace spells `h`, and `h` lies in a zone that the provider allows. */
  ghost predicate Wanted(c: Cluster, b: Binding, p: Provider, h: string) {
    && Concrete(h)
    && (exists k, n | k in c.httpRoutes && n in c.httpRoutes[k].hostnames ::
          k.namespace == b.namespace && Routed(c.httpRoutes[k], b.namespace, b) && Spells(n, h))
    && exists z, zone | z in p.zones :: Concrete(zone) && Spells(z, zone) && EndsWithLabels(h, zone)
  }

  lemma RouteChecked(k: Key, route: HTTPRoute, b: Binding)
    ensures Contributes(k, route, b) <==> k.namespace == b.namespace && Routed(route, b.namespace, b)
  {
    if k.namespace == b.namespace {
      ParentsChecked(route, b);
      StatusChecked(route, b);
    }
  }

  lemma RefChecked(ref: ParentRef, b: Binding)
    ensures TargetsGateway(ref, b.namespace, b) <==> Filled(ref, b.namespace) == ListenerOf(b)
  {}

  lemma ParentsChecked(route: HTTPRoute, b: Binding)
    ensures RouteTargets(route, b.namespace, b) <==>
              exists ref | ref in route.parents :: Filled(ref, b.namespace) == ListenerOf(b)
  {
    forall i | 0 <= i < |route.parents|
      ensures TargetsGateway(route.parents[i], b.namespace, b) <==>
                Filled(route.parents[i], b.namespace) == ListenerOf(b)
    {
      RefChecked(route.parents[i], b);
    }
  }

  lemma StatusChecked(route: HTTPRoute, b: Binding)
    ensures RouteAccepted(route, b.namespace, b) <==>
              exists p | p in route.status ::
                && p.controllerName == "traefik.io/gateway-controller" && Filled(p.ref, b.namespace) == ListenerOf(b)
                && TrueNow(p.accepted, route.generation) && TrueNow(p.resolvedRefs, route.generation)
  {
    forall i | 0 <= i < |route.status|
      ensures TargetsGateway(route.status[i].ref, b.namespace, b) <==>
                Filled(route.status[i].ref, b.namespace) == ListenerOf(b)
    {
      RefChecked(route.status[i].ref, b);
    }
  }

  lemma ZonesExactly(p: Provider)
    ensures ZonesOk(p) <==> forall z | z in p.zones :: exists zone :: Concrete(zone) && Spells(z, zone)
  {
    forall z | z in p.zones ensures Concrete(Canonical(z)) <==> exists zone :: Concrete(zone) && Spells(z, zone) {
      ZoneExactly(z);
    }
    assert forall z | z in p.zones :: Canonical(z) in CanonicalSet(p.zones);
  }

  lemma ZoneExactly(z: string)
    ensures Concrete(Canonical(z)) <==> exists zone :: Concrete(zone) && Spells(z, zone)
  {
    CanonicalSpelled(z);
    if zone :| Concrete(zone) && Spells(z, zone) {
      CanonicalExactly(z, zone);
    }
  }

  /** Under valid zones the names a binding is to publish are exactly those. */
  lemma HostsExactly(c: Cluster, b: Binding, p: Provider, h: string)
    requires ZonesOk(p)
    ensures h in HostsOf(c, b, p) <==> Wanted(c, b, p, h)
  {
    if Concrete(h) {
      OfferExactly(c, b, h);
      EligibleByLabels(h, Zones(p));
      ZoneOfExactly(p, h);
    }
  }

  lemma OfferExactly(c: Cluster, b: Binding, h: string)
    requires Concrete(h)
    ensures h in CanonicalOf(RouteHostnames(c, b)) <==>
              exists k, n | k in c.httpRoutes && n in c.httpRoutes[k].hostnames ::
                k.namespace == b.namespace && Routed(c.httpRoutes[k], b.namespace, b) && Spells(n, h)
  {
    forall k | k in c.httpRoutes
      ensures Contributes(k, c.httpRoutes[k], b) <==>
                k.namespace == b.namespace && Routed(c.httpRoutes[k], b.namespace, b)
    {
      RouteChecked(k, c.httpRoutes[k], b);
    }
    forall n ensures Canonical(n) == h <==> Spells(n, h) {
      CanonicalExactly(n, h);
    }
    assert h in CanonicalOf(RouteHostnames(c, b)) <==> exists n | n in RouteHostnames(c, b) :: Canonical(n) == h;
  }

  lemma ZoneOfExactly(p: Provider, h: string)
    requires ZonesOk(p)
    ensures (exists i | 0 <= i < |Zones(p)| :: EndsWithLabels(h, Zones(p)[i])) <==>
              exists z, zone | z in p.zones :: Concrete(zone) && Spells(z, zone) && EndsWithLabels(h, zone)
  {
    var zones := Zones(p);
    assert Elements(zones) == CanonicalSet(p.zones);
    if i :| 0 <= i < |zones| && EndsWithLabels(h, zones[i]) {
      assert zones[i] in Elements(zones);
      var z :| z in p.zones && Canonical(z) == zones[i];
      CanonicalSpelled(z);
    }
    if z, zone :| z in p.zones && Concrete(zone) && Spells(z, zone) && EndsWithLabels(h, zone) {
      CanonicalExactly(z, zone);
      assert zone in Elements(zones);
    }
  }

  /** What is said of a provider: it is accepted if its selector parses and each of its zones spells a concrete
      name, and its credentials are valid if moreover the account takes its token. */
  lemma VerdictsExactly(p: Provider, secrets: map<string, Token>)
    ensures var (accepted, credentials) := Verdicts(p, secrets);
            var valid := && p.selector.Some?
                         && forall z | z in p.zones :: exists zone :: Concrete(zone) && Spells(z, zone);
            && accepted.Reported? && accepted.generation == p.generation
            && (if valid then accepted.verdict.IsTrue? else accepted.verdict.IsFalse?)
            && credentials.Reported? && credentials.generation == p.generation
            && (credentials.verdict.IsUnknown? <==> !valid)
            && (credentials.verdict.IsTrue? <==>
                  valid && p.tokenSecret in secrets && secrets[p.tokenSecret].Usable?)
  {
    ZonesExactly(p);
  }

  // ----- Requirements -----

  /** Provider and namespace are as they should be. */
  predicate Entitled(c: Cluster, b: Binding) {
    && ProviderOk(c, b.spec.controller, b.spec.provider)
    && b.namespace in c.namespaces && LabelsOk(c.providers[b.spec.provider].selector, c.namespaces[b.namespace])
  }

  /** A live binding of the class that refers to the same Gateway. */
  predicate SharesGateway(other: Binding, b: Binding, controllerClass: string) {
    && other.uid != b.uid && !other.deleting && other.spec.controller == controllerClass
    && other.namespace == b.namespace && other.spec.gateway == b.spec.gateway
  }

  /** Nobody else is in front at the Gateway: the binding is entitled and no older one shares it. */
  ghost predicate Foremost(c: Cluster, bindings: map<UID, Binding>, b: Binding, controllerClass: string) {
    && Entitled(c, b)
    && forall u | u in bindings && SharesGateway(bindings[u], b, controllerClass) :: bindings[u].created >= b.created
  }

  predicate GatewayOk(g: Gateway) {
    TrueNow(g.accepted, g.generation) && TrueNow(g.programmed, g.generation)
  }

  /** The Gateway is there, Traefik's, up, and its listener is one for HTTP. */
  predicate Listening(c: Cluster, b: Binding) {
    var key := Key(b.namespace, b.spec.gateway);
    && key in c.gateways
    && var g := c.gateways[key];
       && g.className in c.gatewayClasses && c.gatewayClasses[g.className] == "traefik.io/gateway-controller"
       && GatewayOk(g) && Listener(b.spec.section, true) in g.listeners
  }

  function Target(b: Binding): Key {
    Key(if b.spec.originNamespace == "" then b.namespace else b.spec.originNamespace, b.spec.originName)
  }

  predicate Permitted(c: Cluster, b: Binding) {
    Listening(c, b) && ReferenceOk(c, "CloudflareTunnelBinding", b.namespace, Target(b))
  }

  /** A ClusterIP Service with an address of its own. */
  predicate Serviced(c: Cluster, b: Binding) {
    && Target(b) in c.services
    && var s := c.services[Target(b)]; s.kind in {Unset, ClusterIPType} && s.address !in {NoAddress, Headless}
  }

  lemma GatewayChecked(c: Cluster, b: Binding)
    ensures var key := Key(b.namespace, b.spec.gateway);
            match CheckGateway(c, b)
            case No(GatewayNotFound, error) => !error && key !in c.gateways
            case No(GatewayClassNotFound, error) =>
              !error && key in c.gateways && c.gateways[key].className !in c.gatewayClasses
            case No(UnsupportedGatewayClass, error) =>
              && !error && key in c.gateways && c.gateways[key].className in c.gatewayClasses
              && c.gatewayClasses[c.gateways[key].className] != "traefik.io/gateway-controller"
            case No(GatewayNotReady, error) =>
              && !error && key in c.gateways && c.gateways[key].className in c.gatewayClasses
              && c.gatewayClasses[c.gateways[key].className] == "traefik.io/gateway-controller"
              && !GatewayOk(c.gateways[key])
            case No(ListenerInvalid, error) =>
              && !error && key in c.gateways && c.gateways[key].className in c.gatewayClasses
              && c.gatewayClasses[c.gateways[key].className] == "traefik.io/gateway-controller"
              && GatewayOk(c.gateways[key]) && !Listening(c, b)
            case Yes(_) => Listening(c, b)
            case _ => false
  {
    var key := Key(b.namespace, b.spec.gateway);
    if key in c.gateways {
      ListenerChecked(c.gateways[key], b.spec.section);
    }
  }

  lemma ListenerChecked(g: Gateway, section: string)
    ensures HasHTTPListener(g, section) <==> Listener(section, true) in g.listeners
  {
    if i :| 0 <= i < |g.listeners| && g.listeners[i].name == section && g.listeners[i].http {
      assert g.listeners[i] == Listener(section, true);
    }
    if Listener(section, true) in g.listeners {
      var i :| 0 <= i < |g.listeners| && g.listeners[i] == Listener(section, true);
    }
  }

  lemma ServiceChecked(c: Cluster, b: Binding)
    ensures match CheckService(c, b)
            case No(ServiceNotFound, error) => !error && Target(b) !in c.services
            case No(InvalidService, error) => !error && Target(b) in c.services && !Serviced(c, b)
            case No(ServicePortNotFound, error) =>
              !error && Serviced(c, b) && !PortOk(c.services[Target(b)], b.spec.originPort)
            case Yes(origin) =>
              Serviced(c, b) && PortOk(c.services[Target(b)], b.spec.originPort) && PointsAt(origin, c, b)
            case _ => false
  {
    ServicePointsAt(c, b);
    if Target(b) in c.services {
      PortChecked(c.services[Target(b)], b.spec.originPort);
    }
  }

  /** The verdict on the origin, by what is missing first. */
  lemma OriginExactly(c: Cluster, b: Binding)
    ensures match ValidateOriginService(c, b)
            case No(RefNotPermitted, error) => !error && Listening(c, b) && !Permitted(c, b)
            case No(ServiceNotFound, error) => !error && Permitted(c, b) && Target(b) !in c.services
            case No(InvalidService, error) => !error && Permitted(c, b) && Target(b) in c.services && !Serviced(c, b)
            case No(ServicePortNotFound, error) =>
              !error && Permitted(c, b) && Serviced(c, b) && !PortOk(c.services[Target(b)], b.spec.originPort)
            case No(reason, error) => CheckGateway(c, b) == No(reason, error) && !error && !Listening(c, b)
            case Yes(origin) =>
              && Permitted(c, b) && Serviced(c, b) && PortOk(c.services[Target(b)], b.spec.originPort)
              && PointsAt(origin, c, b)
            case _ => false
  {
    GatewayChecked(c, b);
    if CheckGateway(c, b).Yes? {
      ReferenceChecked(c, BINDING_KIND, b.namespace, Target(b));
      ServiceChecked(c, b);
    }
  }

  /** The verdict on provider, namespace and the owner of the Gateway, by what is missing first. */
  lemma ProviderExactly(c: Cluster, bindings: map<UID, Binding>, b: Binding, controllerClass: string)
    ensures match ValidateClusterProvider(c, bindings, b, controllerClass)
            case No(ProviderNotFound, error) => !error && b.spec.provider !in c.providers
            case No(ProviderControllerClassMismatch, error) =>
              !error && b.spec.provider in c.providers && c.providers[b.spec.provider].controller != b.spec.controller
            case No(ProviderNotReady, error) =>
              && !error && b.spec.provider in c.providers
              && var p := c.providers[b.spec.provider];
                 && p.controller == b.spec.controller
                 && (FalseNow(p.accepted, p.generation) || FalseNow(p.credentials, p.generation))
            case Unknown =>
              && b.spec.provider in c.providers && !ProviderOk(c, b.spec.controller, b.spec.provider)
              && var p := c.providers[b.spec.provider];
                 && p.controller == b.spec.controller
                 && !FalseNow(p.accepted, p.generation) && !FalseNow(p.credentials, p.generation)
            case Fault => ProviderOk(c, b.spec.controller, b.spec.provider) && b.namespace !in c.namespaces
            case No(NamespaceNotAllowed, error) =>
              && !error && ProviderOk(c, b.spec.controller, b.spec.provider)
              && b.namespace in c.namespaces && !Entitled(c, b)
            case No(GatewayConflict, error) =>
              && !error && Entitled(c, b)
              && exists u | u in bindings ::
                   SharesGateway(bindings[u], b, controllerClass) && bindings[u].created <= b.created
            case No(_, _) => false
            case Yes(p) => Foremost(c, bindings, b, controllerClass) && p == c.providers[b.spec.provider]
  {
    ProviderChecked(c, b.spec.controller, b.spec.provider);
    if CheckProvider(c, b).Yes? && b.namespace in c.namespaces {
      LabelsChecked(c.providers[b.spec.provider].selector, c.namespaces[b.namespace]);
      OwnerAges(bindings, b, controllerClass);
    }
  }

  /** A conflict takes another binding at the Gateway that is not younger, and one that is older is enough. */
  lemma OwnerAges(bindings: map<UID, Binding>, b: Binding, controllerClass: string)
    ensures GatewayTaken(bindings, b, controllerClass) ==>
              exists u | u in bindings ::
                SharesGateway(bindings[u], b, controllerClass) && bindings[u].created <= b.created
    ensures (exists u | u in bindings :: SharesGateway(bindings[u], b, controllerClass)
                                         && bindings[u].created < b.created) ==>
              GatewayTaken(bindings, b, controllerClass)
  {
    if u :| u in bindings && GatewayRival(bindings[u], b, controllerClass) {
      assert SharesGateway(bindings[u], b, controllerClass);
    }
    if u :| u in bindings && SharesGateway(bindings[u], b, controllerClass) && bindings[u].created < b.created {
      assert GatewayRival(bindings[u], b, controllerClass);
    }
  }

  // ----- Host names that others own -----

  /** What `other` owns: what it wants under an accepted provider with valid zones, else what it last published. */
  ghost predicate OwnsName(c: Cluster, other: Binding, h: string) {
    if other.spec.provider in c.providers
       && TrueNow(c.providers[other.spec.provider].accepted, c.providers[other.spec.provider].generation)
       && (forall z | z in c.providers[other.spec.provider].zones :: exists zone :: Concrete(zone) && Spells(z, zone))
    then Wanted(c, other, c.providers[other.spec.provider], h)
    else h in other.status.published
  }

  lemma OwnedExactly(c: Cluster, other: Binding, h: string)
    ensures h in ClaimedHosts(c, other) <==> OwnsName(c, other, h)
  {
    if Evaluable(c, other) {
      ZonesExactly(c.providers[other.spec.provider]);
      if ZonesOk(c.providers[other.spec.provider]) {
        HostsExactly(c, other, c.providers[other.spec.provider], h);
      }
    }
  }

  /** Another live binding owns the name, and is older, or at least not younger. */
  ghost predicate OwnsBefore(c: Cluster, other: Binding, b: Binding, h: string, older: bool) {
    && other.uid != b.uid && !other.deleting && OwnsName(c, other, h)
    && if older then other.created < b.created else other.created <= b.created
  }

  ghost predicate OwnedBefore(c: Cluster, bindings: map<UID, Binding>, b: Binding, hosts: set<string>, older: bool) {
    exists u, h | u in bindings && h in hosts :: OwnsBefore(c, bindings[u], b, h, older)
  }

  lemma TakenAges(c: Cluster, bindings: map<UID, Binding>, b: Binding, hosts: set<string>)
    ensures HostsTaken(c, bindings, b, hosts) ==> OwnedBefore(c, bindings, b, hosts, false)
    ensures OwnedBefore(c, bindings, b, hosts, true) ==> HostsTaken(c, bindings, b, hosts)
  {
    if u :| u in bindings && HostRival(c, bindings[u], b, hosts) {
      var h :| h in ClaimedHosts(c, bindings[u]) && h in hosts;
      OwnedExactly(c, bindings[u], h);
      assert OwnsBefore(c, bindings[u], b, h, false);
    }
    if u, h :| u in bindings && h in hosts && OwnsBefore(c, bindings[u], b, h, true) {
      OwnedExactly(c, bindings[u], h);
      assert HostRival(c, bindings[u], b, hosts);
    }
  }

  // ----- Plans -----

  /** The names of a plan are those the binding wants, no older binding owns one of them, and it points at its
      Service; a plan without names is one for a tunnel on record. */
  ghost predicate PlanOk(c: Cluster, bindings: map<UID, Binding>, b: Binding, p: Provider, hosts: set<string>,
      origin: string) {
    && (forall h :: h in hosts <==> Wanted(c, b, p, h))
    && (hosts == {} ==> b.status.tunnelID != NO_ID)
    && !OwnedBefore(c, bindings, b, hosts, true)
    && PointsAt(origin, c, b)
  }

  /** A binding that passed the checks on provider and origin gets a plan, or is refused for its zones, for want of
      names, or for names that an earlier binding owns. */
  lemma PlanExactly(c: Cluster, bindings: map<UID, Binding>, b: Binding, controllerClass: string, p: Provider,
      origin: string)
    requires ValidateClusterProvider(c, bindings, b, controllerClass) == Yes(p)
    requires ValidateOriginService(c, b) == Yes(origin)
    ensures match PlanFor(c, bindings, b, controllerClass)
            case Planned(hosts, url) => url == origin && PlanOk(c, bindings, b, p, hosts, origin)
            case Refused(ProviderInvalid, error) =>
              !error && exists z | z in p.zones :: forall zone :: !(Concrete(zone) && Spells(z, zone))
            case Refused(NoEligibleHostnames, error) =>
              !error && (forall h :: !Wanted(c, b, p, h)) && b.status.tunnelID == NO_ID
            case Refused(HostnameConflict, error) =>
              !error && exists hosts :: (forall h | h in hosts :: Wanted(c, b, p, h))
                                        && OwnedBefore(c, bindings, b, hosts, false)
            case _ => false
  {
    OriginExactly(c, b);
    ZonesExactly(p);
    if ZonesOk(p) {
      var hosts := HostsOf(c, b, p);
      forall h ensures h in hosts <==> Wanted(c, b, p, h) {
        HostsExactly(c, b, p, h);
      }
      ClaimsExactly(c, bindings, b, p, hosts, origin);
    }
  }

  /** Which bindings get a plan or a refusal, and which leave it open: a namespace that cannot be found is a fault,
      and conditions of the provider that are neither true nor false now say nothing. */
  lemma UnplannedExactly(c: Cluster, bindings: map<UID, Binding>, b: Binding, controllerClass: string)
    ensures var plan := PlanFor(c, bindings, b, controllerClass);
            && (plan.Broken? <==> ProviderOk(c, b.spec.controller, b.spec.provider) && b.namespace !in c.namespaces)
            && (plan.StatusUnknown? <==>
                  && b.spec.provider in c.providers && !ProviderOk(c, b.spec.controller, b.spec.provider)
                  && var p := c.providers[b.spec.provider];
                     && p.controller == b.spec.controller
                     && !FalseNow(p.accepted, p.generation) && !FalseNow(p.credentials, p.generation))
            && (plan.Refused? ==> !plan.error)
            && (plan.Planned? ==>
                  && Foremost(c, bindings, b, controllerClass) && Permitted(c, b) && Serviced(c, b)
                  && PortOk(c.services[Target(b)], b.spec.originPort)
                  && PlanOk(c, bindings, b, c.providers[b.spec.provider], plan.hosts, plan.origin))
  {
    ProviderExactly(c, bindings, b, controllerClass);
    var check := ValidateClusterProvider(c, bindings, b, controllerClass);
    if check.Yes? {
      OriginExactly(c, b);
      var origin := ValidateOriginService(c, b);
      if origin.Yes? {
        PlanExactly(c, bindings, b, controllerClass, check.value, origin.value);
      }
    }
  }

  lemma ClaimsExactly(c: Cluster, bindings: map<UID, Binding>, b: Binding, p: Provider, hosts: set<string>,
      origin: string)
    requires (forall h :: h in hosts <==> Wanted(c, b, p, h)) && PointsAt(origin, c, b)
    ensures match PlanClaim(c, bindings, b, hosts, origin)
            case Planned(names, url) => url == origin && PlanOk(c, bindings, b, p, names, origin)
            case Refused(NoEligibleHostnames, error) =>
              !error && (forall h :: !Wanted(c, b, p, h)) && b.status.tunnelID == NO_ID
            case Refused(HostnameConflict, error) =>
              !error && (forall h | h in hosts :: Wanted(c, b, p, h)) && OwnedBefore(c, bindings, b, hosts, false)
            case _ => false
  {
    TakenAges(c, bindings, b, hosts);
  }
}
