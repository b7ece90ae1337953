/** Which bindings and private routes a change of a watched object wakes up. */
module Watches {
  import opened BindingPlans
  import opened Cloudflare
  import opened Kube
  import Routes = PrivateRoutes

  /** A version of a watched object. */
  datatype Watched =
    | OfProvider(name: string)
    | OfGatewayClass(name: string)
    | OfGateway(key: Key)
    | OfHTTPRoute(key: Key, route: HTTPRoute)
    | OfGrant(key: Key)
    | OfService(key: Key)
    | OfNamespace(name: string)

  /** The creation, update or deletion of one object: what it is now. */
  datatype Edit =
    | ProviderEdit(name: string, provider: Option<Provider>)
    | GatewayClassEdit(name: string, controllerName: Option<string>)
    | GatewayEdit(key: Key, gateway: Option<Gateway>)
    | HTTPRouteEdit(key: Key, route: Option<HTTPRoute>)
    | GrantEdit(key: Key, grant: Option<Grant>)
    | ServiceEdit(key: Key, service: Option<Service>)
    | NamespaceEdit(name: string, labels: Option<map<string, string>>)

  function Put<K, V>(m: map<K, V>, k: K, v: Option<V>): map<K, V> {
    if v.Some? then m[k := v.value] else m - {k}
  }

  function Edited(c: Cluster, e: Edit): Cluster {
    match e
    case ProviderEdit(n, p) => c.(providers := Put(c.providers, n, p))
    case GatewayClassEdit(n, g) => c.(gatewayClasses := Put(c.gatewayClasses, n, g))
    case GatewayEdit(k, g) => c.(gateways := Put(c.gateways, k, g))
    case HTTPRouteEdit(k, r) => c.(httpRoutes := Put(c.httpRoutes, k, r))
    case GrantEdit(k, g) => c.(grants := Put(c.grants, k, g))
    case ServiceEdit(k, s) => c.(services := Put(c.services, k, s))
    case NamespaceEdit(n, l) => c.(namespaces := Put(c.namespaces, n, l))
  }

  /** `o` is the object as it was before or is after the edit; the event carries both. */
  predicate VersionOf(o: Watched, c: Cluster, e: Edit) {
    match e
    case ProviderEdit(n, _) => o == OfProvider(n)
    case GatewayClassEdit(n, _) => o == OfGatewayClass(n)
    case GatewayEdit(k, _) => o == OfGateway(k)
    case HTTPRouteEdit(k, r) =>
      || (k in c.httpRoutes && o == OfHTTPRoute(k, c.httpRoutes[k]))
      || (r.Some? && o == OfHTTPRoute(k, r.value))
    case GrantEdit(k, _) => o == OfGrant(k)
    case ServiceEdit(k, _) => o == OfService(k)
    case NamespaceEdit(n, _) => o == OfNamespace(n)
  }

  // ----- Bindings -----

  predicate Wakes(o: Watched, b: Binding) {
    match o
    case OfProvider(n) => b.spec.provider == n
    case OfGatewayClass(_) => true
    case OfGateway(k) => b.namespace == k.namespace && b.spec.gateway == k.name
    case OfHTTPRoute(k, route) => b.namespace == k.namespace && RouteTargets(route, k.namespace, b)
    case OfGrant(k) => OriginNamespace(b) != b.namespace && OriginNamespace(b) == k.namespace
    case OfService(k) => OriginNamespace(b) == k.namespace && b.spec.originName == k.name
    case OfNamespace(n) => b.namespace == n
  }

  /** The requests for the bindings of the class that the object wakes up. */
  method BindingsForObject(o: Watched, bindings: map<UID, Binding>,
      controllerClass: string) returns (requests: set<Key>)
    ensures forall k :: k in requests <==>
              exists u | u in bindings ::
                && k == Key(bindings[u].namespace, bindings[u].name)
                && controllerClass != "" && bindings[u].spec.controller == controllerClass && Wakes(o, bindings[u])
  {
    requests := {};
    var keys := bindings.Keys;
    while keys != {}
      invariant keys <= bindings.Keys
      invariant forall k :: k in requests <==>
                  exists u | u in bindings && u !in keys ::
                    && k == Key(bindings[u].namespace, bindings[u].name)
                    && controllerClass != "" && bindings[u].spec.controller == controllerClass && Wakes(o, bindings[u])
      decreases keys
    {
      var u := Any(keys);
      if controllerClass != "" && bindings[u].spec.controller == controllerClass && Wakes(o, bindings[u]) {
        requests := requests + {Key(bindings[u].namespace, bindings[u].name)};
      }
      keys := keys - {u};
    }
  }

  /** An edit that wakes `b` in neither version leaves every check on `b` and its candidates as they are. */
  lemma BindingWatchComplete(c: Cluster, e: Edit, b: Binding)
    requires forall o | VersionOf(o, c, e) :: !Wakes(o, b)
    ensures CheckProvider(Edited(c, e), b) == CheckProvider(c, b)
    ensures forall p :: CheckNamespace(Edited(c, e), b, p) == CheckNamespace(c, b, p)
    ensures ValidateOriginService(Edited(c, e), b) == ValidateOriginService(c, b)
    ensures RouteHostnames(Edited(c, e), b) == RouteHostnames(c, b)
  {
    OriginWatchComplete(c, e, b);
    match e
    case ProviderEdit(n, _) => assert !Wakes(OfProvider(n), b);
    case NamespaceEdit(n, _) => assert !Wakes(OfNamespace(n), b);
    case HTTPRouteEdit(k, r) => UnwakingRoute(c, k, r, b);
    case _ =>
  }

  lemma OriginWatchComplete(c: Cluster, e: Edit, b: Binding)
    requires forall o | VersionOf(o, c, e) :: !Wakes(o, b)
    ensures ValidateOriginService(Edited(c, e), b) == ValidateOriginService(c, b)
  {
    GatewayWatched(c, e, b);
    GrantWatched(c, e, b);
    ServiceWatched(c, e, b);
  }

  lemma GatewayWatched(c: Cluster, e: Edit, b: Binding)
    requires forall o | VersionOf(o, c, e) :: !Wakes(o, b)
    ensures CheckGateway(Edited(c, e), b) == CheckGateway(c, b)
  {
    if e.GatewayClassEdit? {
      ClassWakesAll(c, e, b);
    } else if e.GatewayEdit? {
      assert !Wakes(OfGateway(e.key), b);
    }
  }

  lemma GrantWatched(c: Cluster, e: Edit, b: Binding)
    requires forall o | VersionOf(o, c, e) :: !Wakes(o, b)
    ensures ReferencePermitted(Edited(c, e), b) <==> ReferencePermitted(c, b)
  {
    if e.GrantEdit? && OriginNamespace(b) != b.namespace {
      assert !Wakes(OfGrant(e.key), b);
      GrantElsewhere(c, e, OriginNamespace(b), BINDING_KIND, b.namespace, b.spec.originName);
    }
  }

  lemma ServiceWatched(c: Cluster, e: Edit, b: Binding)
    requires forall o | VersionOf(o, c, e) :: !Wakes(o, b)
    ensures CheckService(Edited(c, e), b) == CheckService(c, b)
  {
    if e.ServiceEdit? {
      assert !Wakes(OfService(e.key), b);
    }
  }

  lemma ClassWakesAll(c: Cluster, e: Edit, b: Binding)
    requires e.GatewayClassEdit?
    ensures exists o :: VersionOf(o, c, e) && Wakes(o, b)
  {
    assert VersionOf(OfGatewayClass(e.name), c, e);
  }

  lemma UnwakingRoute(c: Cluster, k: Key, r: Option<HTTPRoute>, b: Binding)
    requires forall o | VersionOf(o, c, HTTPRouteEdit(k, r)) :: !Wakes(o, b)
    ensures RouteHostnames(Edited(c, HTTPRouteEdit(k, r)), b) == RouteHostnames(c, b)
  {
    var d := Edited(c, HTTPRouteEdit(k, r));
    assert k in c.httpRoutes ==> !Wakes(OfHTTPRoute(k, c.httpRoutes[k]), b);
    assert r.Some? ==> !Wakes(OfHTTPRoute(k, r.value), b);
    assert k in c.httpRoutes ==> !Contributes(k, c.httpRoutes[k], b);
    assert k in d.httpRoutes ==> !Contributes(k, d.httpRoutes[k], b);
    assert forall x | x != k :: x in c.httpRoutes <==> x in d.httpRoutes;
  }

  lemma GrantElsewhere(c: Cluster, e: Edit, target: string, kind: string, namespace: string, service: string)
    requires e.GrantEdit? && e.key.namespace != target
    ensures Granted(Edited(c, e), target, kind, namespace, service) <==> Granted(c, target, kind, namespace, service)
  {}

  // ----- Private routes -----

  predicate WakesRoute(o: Watched, r: Routes.RouteObject) {
    match o
    case OfProvider(n) => r.spec.provider == n
    case OfService(k) => Routes.ServiceNamespace(r) == k.namespace && r.spec.serviceName == k.name
    case OfGrant(k) => Routes.ServiceNamespace(r) == k.namespace
    case OfNamespace(n) => r.namespace == n
    case _ => false
  }

  /** The requests for the private routes of the class that the object wakes up. */
  method RoutesForObject(o: Watched, routes: map<UID, Routes.RouteObject>,
      controllerClass: string) returns (requests: set<Key>)
    ensures forall k :: k in requests <==>
              exists u | u in routes ::
                && k == Key(routes[u].namespace, routes[u].name)
                && routes[u].spec.controller == controllerClass && WakesRoute(o, routes[u])
  {
    requests := {};
    var keys := routes.Keys;
    while keys != {}
      invariant keys <= routes.Keys
      invariant forall k :: k in requests <==>
                  exists u | u in routes && u !in keys ::
                    && k == Key(routes[u].namespace, routes[u].name)
                    && routes[u].spec.controller == controllerClass && WakesRoute(o, routes[u])
      decreases keys
    {
      var u := Any(keys);
      if routes[u].spec.controller == controllerClass && WakesRoute(o, routes[u]) {
        requests := requests + {Key(routes[u].namespace, routes[u].name)};
      }
      keys := keys - {u};
    }
  }

  /** An edit that does not wake `r` leaves its validation as it is, up to the conflict check. */
  lemma RouteWatchComplete(c: Cluster, e: Edit, r: Routes.RouteObject)
    requires forall o | VersionOf(o, c, e) :: !WakesRoute(o, r)
    ensures Routes.Resolve(Edited(c, e), r) == Routes.Resolve(c, r)
  {
    RouteReferenceWatched(c, e, r);
    match e
    case ProviderEdit(n, _) => assert !WakesRoute(OfProvider(n), r);
    case NamespaceEdit(n, _) => assert !WakesRoute(OfNamespace(n), r);
    case _ =>
  }

  lemma RouteReferenceWatched(c: Cluster, e: Edit, r: Routes.RouteObject)
    requires forall o | VersionOf(o, c, e) :: !WakesRoute(o, r)
    ensures Routes.ResolveReference(Edited(c, e), r) == Routes.ResolveReference(c, r)
  {
    match e
    case ServiceEdit(k, _) => assert !WakesRoute(OfService(k), r);
    case GrantEdit(k, _) =>
      assert !WakesRoute(OfGrant(k), r);
      GrantElsewhere(c, e, Routes.ServiceNamespace(r), Routes.KIND, r.namespace, r.spec.serviceName);
    case _ =>
  }
}
