/** What it takes for a private route to be valid, requirement by requirement. */
module Admission {
  import opened Cloudflare
  import opened Kube
  import opened PrivateRoutes
  import opened Requirements

  /** Provider and namespace are as they should be. */
  predicate Entitled(c: Cluster, r: RouteObject) {
    && ProviderOk(c, r.spec.controller, r.spec.provider)
    && r.namespace in c.namespaces && LabelsOk(c.providers[r.spec.provider].selector, c.namespaces[r.namespace])
  }

  /** The Service, in the object's own namespace unless the object names another, and permission to use it. */
  function Target(r: RouteObject): Key {
    Key(if r.spec.serviceNamespace == "" then r.namespace else r.spec.serviceNamespace, r.spec.serviceName)
  }

  predicate Permitted(c: Cluster, r: RouteObject) {
    Entitled(c, r) && ReferenceOk(c, "CloudflareTunnelPrivateRoute", r.namespace, Target(r))
  }

  /** A ClusterIP Service at the IPv4 address `a`, which is not the unspecified one. */
  predicate ServiceOk(s: Service, a: int) {
    s.kind in {Unset, ClusterIPType} && s.address == V4(a) && a != 0
  }

  predicate Serviced(c: Cluster, r: RouteObject, a: int) {
    Target(r) in c.services && ServiceOk(c.services[Target(r)], a)
  }

  /** The outcome of the checks by what is missing first; the network of a valid object is its Service's address. */
  lemma ResolvedExactly(c: Cluster, r: RouteObject)
    ensures match Resolve(c, r)
            case Rejected(ProviderNotFound) => r.spec.provider !in c.providers
            case Rejected(ProviderControllerClassMismatch) =>
              r.spec.provider in c.providers && c.providers[r.spec.provider].controller != r.spec.controller
            case Rejected(ProviderNotReady) =>
              && r.spec.provider in c.providers && c.providers[r.spec.provider].controller == r.spec.controller
              && !ProviderOk(c, r.spec.controller, r.spec.provider)
            case ReadFailed => ProviderOk(c, r.spec.controller, r.spec.provider) && r.namespace !in c.namespaces
            case Rejected(NamespaceNotAllowed) =>
              ProviderOk(c, r.spec.controller, r.spec.provider) && r.namespace in c.namespaces && !Entitled(c, r)
            case Rejected(RefNotPermitted) => Entitled(c, r) && !Permitted(c, r)
            case Rejected(ServiceNotFound) => Permitted(c, r) && Target(r) !in c.services
            case Rejected(InvalidService) =>
              Permitted(c, r) && Target(r) in c.services && forall a :: !Serviced(c, r, a)
            case Rejected(ServicePortNotFound) =>
              && Permitted(c, r) && (exists a :: Serviced(c, r, a))
              && !PortOk(c.services[Target(r)], r.spec.port)
            case Rejected(_) => false
            case Admitted(network) =>
              && Permitted(c, r) && network.Some? && Serviced(c, r, network.value)
              && PortOk(c.services[Target(r)], r.spec.port)
  {
    ProviderChecked(c, r.spec.controller, r.spec.provider);
    if ProviderOk(c, r.spec.controller, r.spec.provider) && r.namespace in c.namespaces {
      LabelsChecked(c.providers[r.spec.provider].selector, c.namespaces[r.namespace]);
      ReferenceChecked(c, KIND, r.namespace, Target(r));
      ServiceChecked(c, r);
    }
  }

  lemma ServiceChecked(c: Cluster, r: RouteObject)
    ensures match ResolveService(c, r)
            case Rejected(ServiceNotFound) => Target(r) !in c.services
            case Rejected(InvalidService) => Target(r) in c.services && forall a :: !Serviced(c, r, a)
            case Rejected(ServicePortNotFound) =>
              (exists a :: Serviced(c, r, a)) && !PortOk(c.services[Target(r)], r.spec.port)
            case Admitted(network) =>
              network.Some? && Serviced(c, r, network.value) && PortOk(c.services[Target(r)], r.spec.port)
            case _ => false
  {
    if Target(r) in c.services {
      var s := c.services[Target(r)];
      PortChecked(s, r.spec.port);
      assert s.address.V4? ==>
          (Serviced(c, r, s.address.bits) <==> s.kind in {Unset, ClusterIPType} && s.address.bits != 0);
    }
  }

  /** What a valid object needs besides: nobody older may claim the network. Claimants of its own age are told
      apart by name. */
  lemma ValidExactly(c: Cluster, objects: map<UID, RouteObject>, r: RouteObject, a: int)
    ensures Validate(c, objects, r) == Admitted(Some(a)) ==>
              && Permitted(c, r) && Serviced(c, r, a) && PortOk(c.services[Target(r)], r.spec.port)
              && forall u | u in objects && Claims(objects[u], r, Some(a)) :: objects[u].created >= r.created
    ensures Permitted(c, r) && Serviced(c, r, a) && PortOk(c.services[Target(r)], r.spec.port)
            && (forall u | u in objects && Claims(objects[u], r, Some(a)) :: objects[u].created > r.created) ==>
              Validate(c, objects, r) == Admitted(Some(a))
    ensures Validate(c, objects, r) == Rejected(RouteConflict) ==>
              exists b :: Resolve(c, r) == Admitted(Some(b))
                && exists u | u in objects :: Claims(objects[u], r, Some(b)) && objects[u].created <= r.created
  {
    ResolvedExactly(c, r);
    ConflictAges(objects, r, Some(a));
    if Validate(c, objects, r) == Rejected(RouteConflict) {
      var network := Resolve(c, r).network;
      ConflictAges(objects, r, network);
      assert Resolve(c, r) == Admitted(Some(network.value));
    }
  }
}
