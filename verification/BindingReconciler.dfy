/** The binding reconciler. Every API call may succeed, fail, or take effect and still report an error,
    and after every call the environment may move. */
module BindingReconciliation {
  import opened BindingPlans
  import opened Bindings
  import opened Cloudflare
  import opened Kube
  import opened Planner

  class BindingReconciler {
    const controllerClass: string
    /** How much can go wrong during a pass. */
    var mode: Mode
    var world: World
    /** The world at the start of the pass, and when it started to read providers. */
    ghost var start: World
    ghost var basis: World
    /** The cluster when the pass listed the HTTP routes of the binding. */
    ghost var sources: Sources
    /** The copy in memory of the binding being reconciled. */
    var binding: Binding
    /** How often a tunnel was created or configured. */
    var writes: int

    // ----- Calls -----

    /** Any number of steps of the environment. */
    method Drift()
      modifies `world
      ensures !mode.Busy? ==> world == old(world)
      ensures Drifts(old(world), world)
    {
      var steps: nat := *;
      while steps > 0 && mode.Busy?
        invariant !mode.Busy? ==> world == old(world)
        invariant Inv(old(world)) ==> Drifts(old(world), world)
      {
        var e: Event := *;
        EventKeepsInv(world, e);
        EventDrifts(world, e);
        InvParts(old(world));
        DriftTransitive(old(world), world, Apply(world, e));
        world := Apply(world, e);
        steps := steps - 1;
      }
    }

    method Interfere()
      requires Confined(mode, start, basis.cluster, world, binding.uid)
      modifies `world
      ensures Confined(mode, start, basis.cluster, world, binding.uid)
      ensures !mode.Busy? ==> world == old(world)
      ensures Moves(old(world), world, binding.uid)
    {
      Drift();
      DriftConfined(mode, start, basis.cluster, old(world), world, binding.uid);
      if binding.uid in old(world).uids {
        DriftShrinks(old(world), world, binding.uid);
      }
    }

    /** Any read from the API server. */
    method Observe() returns (ok: bool, cluster: Cluster, bindings: map<UID, Binding>)
      requires Confined(mode, start, basis.cluster, world, binding.uid)
      modifies `world
      ensures Confined(mode, start, basis.cluster, world, binding.uid)
      ensures cluster == old(world).cluster && bindings == old(world).bindings
      ensures mode.Calm? ==> ok
      ensures !mode.Busy? ==> world == old(world)
      ensures Moves(old(world), world, binding.uid)
    {
      var o := Attempt(mode);
      ok, cluster, bindings := o.Done?, world.cluster, world.bindings;
      Interfere();
    }

    method GetTunnel(id: Id) returns (ok: bool, tunnel: Option<Tunnel>)
      requires Confined(mode, start, basis.cluster, world, binding.uid)
      modifies `world
      ensures Confined(mode, start, basis.cluster, world, binding.uid)
      ensures tunnel == Lookup(old(world).account.tunnels, id)
      ensures mode.Calm? ==> ok && world == old(world)
      ensures Moves(old(world), world, binding.uid)
    {
      var o := Attempt(mode);
      ok, tunnel := o.Done?, Lookup(world.account.tunnels, id);
      Interfere();
    }

    method FindTunnelByName(name: TunnelName) returns (ok: bool, tunnel: Option<Tunnel>)
      requires Confined(mode, start, basis.cluster, world, binding.uid)
      modifies `world
      ensures Confined(mode, start, basis.cluster, world, binding.uid)
      ensures tunnel.Some? ==>
                exists i | i in old(world).account.tunnels ::
                  old(world).account.tunnels[i] == tunnel.value && tunnel.value.name == name
      ensures tunnel.None? ==>
                forall i | i in old(world).account.tunnels :: old(world).account.tunnels[i].name != name
      ensures mode.Calm? ==> ok && world == old(world)
      ensures Moves(old(world), world, binding.uid)
    {
      var o := Attempt(mode);
      ok := o.Done?;
      tunnel := FindByName(world.account.tunnels, name);
      Interfere();
    }

    /** `mid` is the world right after the call, before anyone else moves. */
    method CreateTunnel(name: TunnelName) returns (tunnel: Option<Tunnel>, ghost mid: World)
      requires name == ForBinding(binding.uid) && Inv(TunnelMade(world, name))
      requires Confined(mode, start, basis.cluster, world, binding.uid)
      modifies `world, `writes
      ensures Confined(mode, start, basis.cluster, world, binding.uid)
      ensures mid == old(world) || mid == TunnelMade(old(world), name)
      ensures tunnel.Some? ==>
                && mid == TunnelMade(old(world), name)
                && tunnel.value == Tunnel(old(world).account.next, name, Managed, [])
      ensures mode.Calm? ==> tunnel.Some? && world == mid
      ensures Moves(mid, world, binding.uid)
    {
      writes := writes + 1;
      var o := Attempt(mode);
      tunnel := if o.Done? then Some(Tunnel(world.account.next, name, Managed, [])) else None;
      if !o.Failed? {
        TunnelMadeAlone(world, binding.uid);
        StepConfined(mode, start, basis.cluster, world, TunnelMade(world, name), binding.uid);
        world := TunnelMade(world, name);
      }
      mid := world;
      Interfere();
    }

    /** Deleting a tunnel that is gone succeeds. */
    method DeleteTunnel(id: Id) returns (ok: bool, ghost mid: World)
      requires Inv(TunnelRemoved(world, id)) && (id in world.account.tunnels ==> Named(world.account, binding.uid, id))
      requires Confined(mode, start, basis.cluster, world, binding.uid)
      modifies `world
      ensures Confined(mode, start, basis.cluster, world, binding.uid)
      ensures mid == old(world) || mid == TunnelRemoved(old(world), id)
      ensures ok ==> mid == TunnelRemoved(old(world), id)
      ensures mode.Calm? ==> ok && world == mid
      ensures Moves(mid, world, binding.uid)
    {
      var o := Attempt(mode);
      ok := o.Done?;
      if !o.Failed? {
        TunnelRemovedAlone(world, binding.uid, id);
        StepConfined(mode, start, basis.cluster, world, TunnelRemoved(world, id), binding.uid);
        world := TunnelRemoved(world, id);
      }
      mid := world;
      Interfere();
    }

    /** The configuration of a tunnel that is gone cannot be read. */
    method GetConfiguration(id: Id) returns (ok: bool, rules: seq<IngressRule>)
      requires Confined(mode, start, basis.cluster, world, binding.uid)
      modifies `world
      ensures Confined(mode, start, basis.cluster, world, binding.uid)
      ensures ok ==> id in old(world).account.tunnels && rules == old(world).account.tunnels[id].ingress
      ensures mode.Calm? ==> (ok <==> id in old(world).account.tunnels) && world == old(world)
      ensures Moves(old(world), world, binding.uid)
    {
      var o := Attempt(mode);
      ok := o.Done? && id in world.account.tunnels;
      rules := if ok then world.account.tunnels[id].ingress else [];
      Interfere();
    }

    method UpdateConfiguration(id: Id, rules: seq<IngressRule>) returns (ok: bool, ghost mid: World)
      requires Inv(Configured(world, id, rules))
      requires id in world.account.tunnels ==> Named(world.account, binding.uid, id)
      requires Confined(mode, start, basis.cluster, world, binding.uid)
      modifies `world, `writes
      ensures Confined(mode, start, basis.cluster, world, binding.uid)
      ensures mid == old(world) || mid == Configured(old(world), id, rules)
      ensures ok ==> mid == Configured(old(world), id, rules)
      ensures mode.Calm? ==> (ok <==> id in old(world).account.tunnels) && world == mid
      ensures Moves(mid, world, binding.uid)
    {
      writes := writes + 1;
      var o := Attempt(mode);
      ok := o.Done? && id in world.account.tunnels;
      if !o.Failed? {
        ConfiguredAlone(world, binding.uid, id, rules);
        StepConfined(mode, start, basis.cluster, world, Configured(world, id, rules), binding.uid);
        world := Configured(world, id, rules);
      }
      mid := world;
      Interfere();
    }

    /** Patches the status by what changed since `base`; an accepted patch brings the copy in memory up to
        date. The copy has `s` in any case. */
    method PatchStatus(base: BindingStatus, s: BindingStatus) returns (ok: bool, ghost mid: World)
      requires binding.uid in world.bindings ==>
                 && Inv(Patched(world, binding.uid, base, s))
                 && Alone(world, Patched(world, binding.uid, base, s), binding.uid)
      requires Confined(mode, start, basis.cluster, world, binding.uid)
      modifies `world, `binding
      ensures Confined(mode, start, basis.cluster, world, binding.uid)
      ensures var u := old(binding).uid;
              && binding.uid == u
              && (mid == old(world) || (u in old(world).bindings && mid == Patched(old(world), u, base, s)))
              && (ok ==>
                    u in old(world).bindings && mid == Patched(old(world), u, base, s) && binding == mid.bindings[u])
              && (!ok ==> binding == old(binding).(status := s))
              && (ok ==> Honest(binding.status.conditions))
              && (mode.Calm? ==> world == mid && (ok <==> u in old(world).bindings))
              && Moves(mid, world, u)
    {
      var o := Attempt(mode);
      var copy := binding.(status := s);
      ok := o.Done? && binding.uid in world.bindings;
      if !o.Failed? && binding.uid in world.bindings {
        BindingParts(world, binding.uid);
        StepConfined(mode, start, basis.cluster, world, Patched(world, binding.uid, base, s), binding.uid);
        world := Patched(world, binding.uid, base, s);
        BindingParts(world, binding.uid);
        if ok {
          copy := world.bindings[binding.uid];
        }
      }
      mid := world;
      Interfere();
      binding := copy;
    }

    // ----- Validation -----

    /** The host names `other` counts as owning. Failing reads fall back on those it last published. */
    method OwnedHostnames(other: Binding) returns (hostnames: seq<string>)
      requires Holds(world, binding)
      requires Confined(mode, start, basis.cluster, world, binding.uid)
      modifies `world
      ensures Confined(mode, start, basis.cluster, world, binding.uid)
      ensures Holds(world, binding) && Shrunk(old(world), world, binding.uid)
      ensures !mode.Busy? ==> world == old(world) && ClaimsRead(mode, hostnames, old(world).cluster, other)
      ensures !Evaluable(old(world).cluster, other) ==> hostnames == other.status.published
    {
      hostnames := other.status.published;
      var ok, cluster, bindings := Observe();
      if ok && Evaluable(cluster, other) {
        hostnames := RecomputedHostnames(cluster, other);
      }
    }

    method RecomputedHostnames(cluster: Cluster, other: Binding) returns (hostnames: seq<string>)
      requires Holds(world, binding) && Evaluable(cluster, other)
      requires Confined(mode, start, basis.cluster, world, binding.uid)
      modifies `world
      ensures Confined(mode, start, basis.cluster, world, binding.uid)
      ensures Holds(world, binding) && Shrunk(old(world), world, binding.uid)
      ensures !mode.Busy? ==>
                && world == old(world)
                && (cluster == old(world).cluster ==> ClaimsRead(mode, hostnames, old(world).cluster, other))
      ensures Elements(hostnames) in {Elements(other.status.published),
                HostsOf(old(world).cluster, other, cluster.providers[other.spec.provider])}
    {
      hostnames := other.status.published;
      var ok, routes, bindings := Observe();
      if ok {
        hostnames := EvaluateClaims(cluster, routes, other);
      }
    }

    /** Whether `other`, which is earlier, owns one of `hostnames`. */
    method Beaten(other: Binding, hostnames: seq<string>) returns (found: bool)
      requires Holds(world, binding) && Senior(other, binding)
      requires Confined(mode, start, basis.cluster, world, binding.uid)
      modifies `world
      ensures Confined(mode, start, basis.cluster, world, binding.uid)
      ensures Holds(world, binding) && Shrunk(old(world), world, binding.uid)
      ensures !mode.Busy? ==> world == old(world)
      ensures !mode.Busy? ==> RivalRead(mode, found, old(world).cluster, other, binding, Elements(hostnames))
    {
      var owned := OwnedHostnames(other);
      found := Overlap(hostnames, owned);
    }

    /** Whether an earlier binding owns one of `hostnames`. */
    method HostnameWinner(hostnames: seq<string>) returns (ok: bool, taken: bool)
      requires Holds(world, binding)
      requires Confined(mode, start, basis.cluster, world, binding.uid)
      modifies `world
      ensures Confined(mode, start, basis.cluster, world, binding.uid)
      ensures Holds(world, binding) && Shrunk(old(world), world, binding.uid)
      ensures mode.Calm? ==> ok
      ensures !mode.Busy? ==> world == old(world)
      ensures !mode.Busy? && ok ==>
                TakenRead(mode, taken, old(world).cluster, old(world).bindings, binding, Elements(hostnames))
    {
      var cluster, bindings;
      taken := false;
      ok, cluster, bindings := Observe();
      if ok {
        taken := SearchWinner(bindings, hostnames);
      }
    }

    method SearchWinner(bindings: map<UID, Binding>, hostnames: seq<string>) returns (taken: bool)
      requires Holds(world, binding)
      requires Confined(mode, start, basis.cluster, world, binding.uid)
      modifies `world
      ensures Confined(mode, start, basis.cluster, world, binding.uid)
      ensures Holds(world, binding) && Shrunk(old(world), world, binding.uid)
      ensures !mode.Busy? ==> world == old(world)
      ensures !mode.Busy? ==> TakenRead(mode, taken, old(world).cluster, bindings, binding, Elements(hostnames))
    {
      var keys := bindings.Keys;
      while keys != {}
        invariant Confined(mode, start, basis.cluster, world, binding.uid)
        invariant Holds(world, binding) && Shrunk(old(world), world, binding.uid)
        invariant keys <= bindings.Keys
        invariant !mode.Busy? ==> world == old(world)
        invariant !mode.Busy? ==>
                    forall u | u in bindings && u !in keys ::
                      RivalRead(mode, false, old(world).cluster, bindings[u], binding, Elements(hostnames))
        decreases keys
      {
        var u := Any(keys);
        if Senior(bindings[u], binding) {
          taken := Beaten(bindings[u], hostnames);
          if taken {
            return;
          }
        }
        keys := keys - {u};
      }
      taken := false;
    }

    /** From now on the binding relies on its provider. */
    method Trust()
      requires binding.uid in world.bindings && Holds(world, binding) && basis.cluster == world.cluster
      requires Reliable(world.cluster, RefOf(binding.spec))
      requires Confined(mode, start, basis.cluster, world, binding.uid)
      modifies `world
      ensures Confined(mode, start, basis.cluster, world, binding.uid)
      ensures world == Trusted(old(world), binding.uid)
      ensures Holds(world, binding) && Shrunk(old(world), world, binding.uid)
    {
      TrustKeepsInv(world, binding.uid);
      TrustShrinks(world, binding.uid);
      BindingStepsAlone(world, binding.uid);
      StepConfined(mode, start, basis.cluster, world, Trusted(world, binding.uid), binding.uid);
      world := Trusted(world, binding.uid);
    }

    /** The provider as read, if it is there and of the right class and its conditions are current; from that
        moment the binding relies on it. A failing read is a rejection. */
    method ReadProvider() returns (check: Check<Provider>)
      requires Holds(world, binding) && basis.cluster == world.cluster
      requires Confined(mode, start, basis.cluster, world, binding.uid)
      modifies `world
      ensures Confined(mode, start, basis.cluster, world, binding.uid)
      ensures Holds(world, binding) && Shrunk(old(world), world, binding.uid)
      ensures Concludes(mode, check, CheckProvider(old(world).cluster, binding), {ProviderNotFound})
      ensures check.Yes? ==> Vouched(old(world).cluster, binding, check.value)
      ensures check.Yes? && binding.finalizer ==> binding.uid in world.trusting
      ensures !mode.Busy? ==> SameButTrust(old(world), world)
    {
      var o := Attempt(mode);
      check := if o.Done? then CheckProvider(world.cluster, binding) else No(ProviderNotFound, true);
      if check.Yes? && binding.uid in world.bindings {
        Trust();
      }
      ghost var mid := world;
      Interfere();
      ShrunkOn(old(world), mid, world, binding.uid);
    }

    method ReadNamespace(provider: Provider) returns (check: Check<Provider>)
      requires Holds(world, binding)
      requires Confined(mode, start, basis.cluster, world, binding.uid)
      modifies `world
      ensures Confined(mode, start, basis.cluster, world, binding.uid)
      ensures Holds(world, binding) && Shrunk(old(world), world, binding.uid)
      ensures check.Yes? ==> check.value == provider
      ensures Answers(mode, check, CheckNamespace(old(world).cluster, binding, provider))
      ensures !mode.Busy? ==> world == old(world)
    {
      var ok, cluster, bindings := Observe();
      check := if ok then CheckNamespace(cluster, binding, provider) else Check.Fault;
    }

    /** Whether another binding owns the Gateway. */
    method CheckOwner(provider: Provider) returns (check: Check<Provider>)
      requires Holds(world, binding)
      requires Confined(mode, start, basis.cluster, world, binding.uid)
      modifies `world
      ensures Confined(mode, start, basis.cluster, world, binding.uid)
      ensures Holds(world, binding) && Shrunk(old(world), world, binding.uid)
      ensures check.Yes? ==> check.value == provider
      ensures check.No? ==> !check.error
      ensures Answers(mode, check,
                if GatewayTaken(old(world).bindings, binding, controllerClass) then No(GatewayConflict, false)
                else Yes(provider))
      ensures !mode.Busy? ==> world == old(world)
    {
      var ok, cluster, bindings := Observe();
      if !ok {
        return Check.Fault;
      }
      var taken := GatewayWinner(bindings, binding, controllerClass);
      check := if taken then No(GatewayConflict, false) else Yes(provider);
    }

    /** The checks on the provider, the namespace and the Gateway's owner. Only the first read may fail into a
        rejection. */
    method CheckClusterProvider() returns (check: Check<Provider>)
      requires Holds(world, binding) && basis.cluster == world.cluster
      requires Confined(mode, start, basis.cluster, world, binding.uid)
      modifies `world
      ensures Confined(mode, start, basis.cluster, world, binding.uid)
      ensures Holds(world, binding) && Shrunk(old(world), world, binding.uid)
      ensures !mode.Busy? ==>
                && SameButTrust(old(world), world)
                && Concludes(mode, check,
                     ValidateClusterProvider(old(world).cluster, old(world).bindings, binding, controllerClass),
                     {ProviderNotFound})
      ensures check.No? && check.error ==> check.reason == ProviderNotFound
      ensures check.Yes? ==> Vouched(old(world).cluster, binding, check.value)
      ensures check.Yes? && binding.finalizer ==> binding.uid in world.trusting
    {
      check := ReadProvider();
      if check.Yes? {
        ghost var mid := world;
        check := CheckOthers(check.value);
        ShrunkOn(old(world), mid, world, binding.uid);
      }
    }

    method CheckOthers(provider: Provider) returns (check: Check<Provider>)
      requires Holds(world, binding)
      requires Confined(mode, start, basis.cluster, world, binding.uid)
      modifies `world
      ensures Confined(mode, start, basis.cluster, world, binding.uid)
      ensures Holds(world, binding) && Shrunk(old(world), world, binding.uid)
      ensures check.No? ==> !check.error
      ensures check.Yes? ==> check.value == provider
      ensures !mode.Busy? ==>
                && world == old(world)
                && Answers(mode, check,
                     ValidateOthers(old(world).cluster, old(world).bindings, binding, provider, controllerClass))
    {
      check := ReadNamespace(provider);
      if check.Yes? {
        ghost var mid := world;
        check := CheckOwner(provider);
        ShrunkOn(old(world), mid, world, binding.uid);
      }
    }

    /** The Gateway and its class, read one after the other. A failing read of either is a rejection. */
    method ReadGateway() returns (check: Check<Gateway>)
      requires Holds(world, binding)
      requires Confined(mode, start, basis.cluster, world, binding.uid)
      modifies `world
      ensures Confined(mode, start, basis.cluster, world, binding.uid)
      ensures Holds(world, binding) && Shrunk(old(world), world, binding.uid)
      ensures !check.Fault? && !check.Unknown?
      ensures check.No? && check.error ==> check.reason == GatewayNotFound || check.reason == GatewayClassNotFound
      ensures !mode.Busy? ==>
                && world == old(world)
                && Concludes(mode, check, CheckGateway(old(world).cluster, binding),
                     {GatewayNotFound, GatewayClassNotFound})
    {
      var key := Key(binding.namespace, binding.spec.gateway);
      var ok, cluster, bindings := Observe();
      if !ok || key !in cluster.gateways {
        return No(GatewayNotFound, !ok);
      }
      ghost var mid := world;
      check := ReadGatewayClass(cluster.gateways[key]);
      ShrunkOn(old(world), mid, world, binding.uid);
    }

    method ReadGatewayClass(gateway: Gateway) returns (check: Check<Gateway>)
      requires Holds(world, binding)
      requires Confined(mode, start, basis.cluster, world, binding.uid)
      modifies `world
      ensures Confined(mode, start, basis.cluster, world, binding.uid)
      ensures Holds(world, binding) && Shrunk(old(world), world, binding.uid)
      ensures !check.Fault? && !check.Unknown?
      ensures check.No? && check.error ==> check.reason == GatewayClassNotFound
      ensures Concludes(mode, check, CheckGatewayClass(old(world).cluster, gateway, binding), {GatewayClassNotFound})
      ensures !mode.Busy? ==> world == old(world)
    {
      var ok, cluster, bindings := Observe();
      check := if ok then CheckGatewayClass(cluster, gateway, binding) else No(GatewayClassNotFound, true);
    }

    method ReadService() returns (check: Check<string>)
      requires Holds(world, binding)
      requires Confined(mode, start, basis.cluster, world, binding.uid)
      modifies `world, `sources
      ensures Confined(mode, start, basis.cluster, world, binding.uid)
      ensures Holds(world, binding) && Shrunk(old(world), world, binding.uid)
      ensures check.No? ==> !check.error
      ensures check.Yes? ==> PointsAt(check.value, sources.services, binding)
      ensures !mode.Busy? ==>
                && world == old(world) && (check.Yes? ==> sources.services == old(world).cluster)
                && Answers(mode, check, ValidateService(old(world).cluster, binding))
    {
      check := Yes("");
      if OriginNamespace(binding) != binding.namespace {
        check := CheckGrant();
      }
      if check.Yes? {
        ghost var mid := world;
        check := FetchService();
        ShrunkOn(old(world), mid, world, binding.uid);
      }
    }

    method CheckGrant() returns (check: Check<string>)
      requires Holds(world, binding)
      requires Confined(mode, start, basis.cluster, world, binding.uid)
      modifies `world
      ensures Confined(mode, start, basis.cluster, world, binding.uid)
      ensures Holds(world, binding) && Shrunk(old(world), world, binding.uid)
      ensures check.No? ==> !check.error
      ensures Answers(mode, check,
                if GrantedTo(old(world).cluster, binding) then Yes("") else No(RefNotPermitted, false))
      ensures !mode.Busy? ==> world == old(world)
    {
      var ok, cluster, bindings := Observe();
      check := if !ok then Check.Fault else if GrantedTo(cluster, binding) then Yes("") else No(RefNotPermitted, false);
    }

    method FetchService() returns (check: Check<string>)
      requires Holds(world, binding)
      requires Confined(mode, start, basis.cluster, world, binding.uid)
      modifies `world, `sources
      ensures Confined(mode, start, basis.cluster, world, binding.uid)
      ensures Holds(world, binding) && Shrunk(old(world), world, binding.uid)
      ensures check.No? ==> !check.error
      ensures Answers(mode, check, CheckService(old(world).cluster, binding))
      ensures sources == old(sources).(services := old(world).cluster)
      ensures check.Yes? ==> PointsAt(check.value, sources.services, binding)
      ensures !mode.Busy? ==> world == old(world)
    {
      sources := sources.(services := world.cluster);
      ServicePointsAt(world.cluster, binding);
      var ok, cluster, bindings := Observe();
      check := if ok then CheckService(cluster, binding) else Check.Fault;
    }

    method CheckOriginService() returns (check: Check<string>)
      requires Holds(world, binding)
      requires Confined(mode, start, basis.cluster, world, binding.uid)
      modifies `world, `sources
      ensures Confined(mode, start, basis.cluster, world, binding.uid)
      ensures Holds(world, binding) && Shrunk(old(world), world, binding.uid)
      ensures check.No? && check.error ==> check.reason == GatewayNotFound || check.reason == GatewayClassNotFound
      ensures check.Yes? ==> PointsAt(check.value, sources.services, binding)
      ensures !mode.Busy? ==>
                && world == old(world) && (check.Yes? ==> sources.services == old(world).cluster)
                && Concludes(mode, check, ValidateOriginService(old(world).cluster, binding),
                     {GatewayNotFound, GatewayClassNotFound})
    {
      var gateway := ReadGateway();
      ghost var mid := world;
      match gateway
      case Yes(_) =>
        check := ReadService();
        ShrunkOn(old(world), mid, world, binding.uid);
      case No(reason, error) => check := No(reason, error);
      case Fault => check := Check.Fault;
      case Unknown => check := Check.Unknown;
    }

    /** The host names to publish, given the provider and the origin. */
    method CheckHostnames(provider: Provider, origin: string) returns (plan: Plan, hostnames: seq<string>)
      requires Holds(world, binding)
      requires Confined(mode, start, basis.cluster, world, binding.uid)
      modifies `world, `sources
      ensures Confined(mode, start, basis.cluster, world, binding.uid)
      ensures Holds(world, binding) && Shrunk(old(world), world, binding.uid)
      ensures plan.Planned? ==>
                hostnames == Sorted(plan.hosts) && plan.hosts == HostsOf(sources.routes, binding, provider)
      ensures sources == old(sources).(routes := old(world).cluster)
      ensures plan.Planned? ==> plan.origin == origin
      ensures !mode.Busy? ==>
                && world == old(world)
                && HostsPlanned(mode, plan, old(world).cluster, old(world).bindings, binding, provider, origin)
    {
      sources := sources.(routes := world.cluster);
      var ok, cluster, bindings := Observe();
      if !ok {
        return Broken, [];
      }
      var eligible := PlanHostnames(cluster, binding, provider);
      if eligible.None? {
        return Refused(ProviderInvalid, false), [];
      }
      ghost var mid := world;
      plan, hostnames := ClaimHostnames(HostsOf(cluster, binding, provider), eligible.value, origin);
      ShrunkOn(old(world), mid, world, binding.uid);
    }

    method ClaimHostnames(ghost hosts: set<string>, eligible: seq<string>, origin: string)
      returns (plan: Plan, hostnames: seq<string>)
      requires Holds(world, binding) && eligible == Sorted(hosts)
      requires Confined(mode, start, basis.cluster, world, binding.uid)
      modifies `world
      ensures Confined(mode, start, basis.cluster, world, binding.uid)
      ensures Holds(world, binding) && Shrunk(old(world), world, binding.uid)
      ensures plan.Planned? ==> hostnames == Sorted(plan.hosts) && plan.hosts == hosts && plan.origin == origin
      ensures !mode.Busy? ==>
                && world == old(world)
                && ClaimPlanned(mode, plan, old(world).cluster, old(world).bindings, binding, hosts, origin)
    {
      if |eligible| == 0 {
        assert hosts == Elements(eligible) == {};
        plan := if binding.status.tunnelID == NO_ID then Refused(NoEligibleHostnames, false) else Planned({}, origin);
        return plan, [];
      }
      assert eligible[0] in Elements(eligible);
      var ok, taken := HostnameWinner(eligible);
      if !ok {
        return Broken, [];
      }
      if taken {
        return Refused(HostnameConflict, false), [];
      }
      return Planned(Elements(eligible), origin), eligible;
    }

    /** The plan, and the provider it was made with. */
    method ValidateAndPlan() returns (plan: Plan, provider: Option<Provider>, hostnames: seq<string>)
      requires Holds(world, binding) && basis.cluster == world.cluster
      requires Confined(mode, start, basis.cluster, world, binding.uid)
      modifies `world, `sources
      ensures Confined(mode, start, basis.cluster, world, binding.uid)
      ensures Holds(world, binding) && Shrunk(old(world), world, binding.uid)
      ensures Grounded(plan, old(world).cluster, sources, binding, provider)
      ensures plan.Planned? ==> hostnames == Sorted(plan.hosts) && (binding.finalizer ==> binding.uid in world.trusting)
      ensures !mode.Busy? ==>
                && SameButTrust(old(world), world)
                && Plausible(mode, plan, old(world).cluster, old(world).bindings, binding, controllerClass)
    {
      var check := CheckClusterProvider();
      if check.Yes? {
        ghost var mid := world;
        plan, hostnames := PlanOrigin(check.value);
        provider := Some(check.value);
        ShrunkOn(old(world), mid, world, binding.uid);
      } else {
        plan, provider, hostnames := WithoutProvider(check), None, [];
      }
    }

    method PlanOrigin(provider: Provider) returns (plan: Plan, hostnames: seq<string>)
      requires Holds(world, binding)
      requires Confined(mode, start, basis.cluster, world, binding.uid)
      modifies `world, `sources
      ensures Confined(mode, start, basis.cluster, world, binding.uid)
      ensures Holds(world, binding) && Shrunk(old(world), world, binding.uid)
      ensures plan.Planned? ==>
                hostnames == Sorted(plan.hosts) && plan.hosts == HostsOf(sources.routes, binding, provider)
      ensures plan.Planned? ==> PointsAt(plan.origin, sources.services, binding)
      ensures !mode.Busy? ==>
                && world == old(world)
                && OriginPlanned(mode, plan, old(world).cluster, old(world).bindings, binding, provider)
    {
      var check := CheckOriginService();
      match check
      case Fault => return Broken, [];
      case Unknown => return StatusUnknown, [];
      case No(reason, error) => return Refused(reason, error), [];
      case Yes(origin) =>
        ghost var mid := world;
        plan, hostnames := CheckHostnames(provider, origin);
        ShrunkOn(old(world), mid, world, binding.uid);
    }

    /** The copy in memory is the binding on record. */
    ghost predicate Exact()
      reads `world, `binding
    {
      binding.uid in world.bindings && world.bindings[binding.uid] == binding
    }

    // ----- The tunnel and its configuration -----

    /** Afterwards the tunnel on record is the binding's own, and is there. */
    method EnsureTunnel(name: TunnelName) returns (tunnel: Option<Tunnel>)
      requires Holds(world, binding) && binding.finalizer && name == ForBinding(binding.uid)
      requires binding.uid in world.trusting
      requires Confined(mode, start, basis.cluster, world, binding.uid)
      modifies `world, `binding, `writes
      ensures Confined(mode, start, basis.cluster, world, binding.uid)
      ensures binding.uid == old(binding).uid && Follows(world, binding)
      ensures SameIngress(old(world), world, binding.uid)
      ensures tunnel.Some? ==>
                Holds(world, binding) && binding.finalizer && binding.status.tunnelID == tunnel.value.id != NO_ID
      ensures mode.Calm? ==>
                && tunnel.Some? && tunnel.value.id in world.account.tunnels && Steady(old(world), world, binding.uid)
                && (old(binding).status.tunnelID in old(world).account.tunnels ==>
                   world == old(world) && writes == old(writes))
      ensures mode.Calm? && old(Exact()) ==> Exact() && SameReport(old(binding), binding)
      ensures mode.Calm? ==> SameChildren(old(world), world)
    {
      var ok;
      ok, tunnel := RecordedTunnel(name);
      ghost var mid := world;
      ShrunkIngress(old(world), mid, binding.uid);
      if !ok {
        return None;
      }
      if tunnel.None? {
        tunnel := ObtainTunnel(name);
        SameIngressOn(old(world), mid, world, binding.uid);
      }
    }

    /** The tunnel on record, if it is there; one that is not as the controller makes them is an error. */
    method RecordedTunnel(name: TunnelName) returns (ok: bool, tunnel: Option<Tunnel>)
      requires Holds(world, binding) && binding.finalizer && name == ForBinding(binding.uid)
      requires Confined(mode, start, basis.cluster, world, binding.uid)
      modifies `world
      ensures Confined(mode, start, basis.cluster, world, binding.uid)
      ensures Holds(world, binding) && Shrunk(old(world), world, binding.uid)
      ensures tunnel.Some? ==> binding.status.tunnelID == tunnel.value.id != NO_ID
      ensures ok && tunnel.Some? ==> tunnel.value.name == name && tunnel.value.configSource == Managed
      ensures mode.Calm? ==>
                && ok && world == old(world)
                && (tunnel.Some? <==> binding.status.tunnelID in world.account.tunnels)
    {
      OnRecord(world, binding);
      ok, tunnel := true, None;
      if binding.status.tunnelID != NO_ID {
        assert binding.status.tunnelID in world.account.tunnels ==>
            Named(world.account, binding.uid, binding.status.tunnelID);
        ok, tunnel := GetTunnel(binding.status.tunnelID);
        if tunnel.Some? {
          ok := ok && tunnel.value.name == name && tunnel.value.configSource == Managed;
        }
      }
    }

    method ObtainTunnel(name: TunnelName) returns (tunnel: Option<Tunnel>)
      requires Holds(world, binding) && binding.finalizer && name == ForBinding(binding.uid)
      requires binding.uid in world.trusting
      requires Confined(mode, start, basis.cluster, world, binding.uid)
      modifies `world, `binding, `writes
      ensures Confined(mode, start, basis.cluster, world, binding.uid)
      ensures binding.uid == old(binding).uid && Follows(world, binding)
      ensures SameIngress(old(world), world, binding.uid)
      ensures tunnel.Some? ==>
                Holds(world, binding) && binding.finalizer && binding.status.tunnelID == tunnel.value.id != NO_ID
      ensures mode.Calm? ==>
                tunnel.Some? && tunnel.value.id in world.account.tunnels && Steady(old(world), world, binding.uid)
      ensures mode.Calm? && old(Exact()) ==> Exact() && SameReport(old(binding), binding)
      ensures mode.Calm? ==> SameChildren(old(world), world)
    {
      tunnel := FindOrCreate(name);
      if tunnel.Some? {
        ghost var mid := world;
        var ok := Adopt(tunnel.value);
        SameIngressOn(old(world), mid, world, binding.uid);
        if !ok {
          return None;
        }
      }
    }

    method FindOrCreate(name: TunnelName) returns (tunnel: Option<Tunnel>)
      requires Holds(world, binding) && binding.finalizer && name == ForBinding(binding.uid)
      requires Confined(mode, start, basis.cluster, world, binding.uid)
      modifies `world, `writes
      ensures Confined(mode, start, basis.cluster, world, binding.uid)
      ensures Holds(world, binding) && SameIngress(old(world), world, binding.uid)
      ensures tunnel.Some? ==> tunnel.value.id != NO_ID && Adoptable(world, binding.uid, tunnel.value.id)
      ensures binding.uid in old(world).trusting ==> binding.uid in world.trusting
      ensures mode.Calm? ==>
                && tunnel.Some? && tunnel.value.id in world.account.tunnels
                && world == old(world).(account := world.account)
    {
      var ok;
      ok, tunnel := FindIssued(name);
      ghost var mid := world;
      ShrunkIngress(old(world), mid, binding.uid);
      if !ok {
        return None;
      }
      if tunnel.None? {
        tunnel := Create(name);
        SameIngressOn(old(world), mid, world, binding.uid);
      }
    }

    method FindIssued(name: TunnelName) returns (ok: bool, tunnel: Option<Tunnel>)
      requires Holds(world, binding) && binding.finalizer && name == ForBinding(binding.uid)
      requires Confined(mode, start, basis.cluster, world, binding.uid)
      modifies `world
      ensures Confined(mode, start, basis.cluster, world, binding.uid)
      ensures Holds(world, binding) && Shrunk(old(world), world, binding.uid)
      ensures tunnel.Some? ==> tunnel.value.id != NO_ID && Adoptable(world, binding.uid, tunnel.value.id)
      ensures tunnel.None? ==> forall i :: !Named(world.account, binding.uid, i)
      ensures mode.Calm? ==>
                && ok && world == old(world) && (tunnel.Some? ==> tunnel.value.id in world.account.tunnels)
    {
      OnRecord(world, binding);
      ok, tunnel := FindTunnelByName(name);
      if tunnel.Some? {
        assert Named(old(world).account, binding.uid, tunnel.value.id);
        ok := ok && tunnel.value.configSource == Managed && tunnel.value.name == name;
      } else {
        assert forall i :: !Named(old(world).account, binding.uid, i);
      }
    }

    method Create(name: TunnelName) returns (tunnel: Option<Tunnel>)
      requires Holds(world, binding) && binding.finalizer && name == ForBinding(binding.uid)
      requires forall i :: !Named(world.account, binding.uid, i)
      requires Confined(mode, start, basis.cluster, world, binding.uid)
      modifies `world, `writes
      ensures Confined(mode, start, basis.cluster, world, binding.uid)
      ensures Holds(world, binding) && SameIngress(old(world), world, binding.uid)
      ensures tunnel.Some? ==> tunnel.value.id != NO_ID && Adoptable(world, binding.uid, tunnel.value.id)
      ensures binding.uid in old(world).trusting ==> binding.uid in world.trusting
      ensures mode.Calm? ==>
                && tunnel.Some? && tunnel.value.id in world.account.tunnels
                && world == old(world).(account := world.account)
    {
      TunnelMadeKeepsInv(world, binding.uid);
      ghost var mid;
      tunnel, mid := CreateTunnel(name);
      ShrunkIngress(mid, world, binding.uid);
      if mid != old(world) {
        SameIngressOn(old(world), mid, world, binding.uid);
      }
    }

    /** Puts the tunnel on record. */
    method Adopt(tunnel: Tunnel) returns (ok: bool)
      requires Holds(world, binding) && binding.finalizer
      requires tunnel.id != NO_ID && Adoptable(world, binding.uid, tunnel.id) && binding.uid in world.trusting
      requires Confined(mode, start, basis.cluster, world, binding.uid)
      modifies `world, `binding
      ensures Confined(mode, start, basis.cluster, world, binding.uid)
      ensures binding.uid == old(binding).uid && Follows(world, binding)
      ensures SameIngress(old(world), world, binding.uid)
      ensures ok ==> Holds(world, binding) && binding.finalizer && binding.status.tunnelID == tunnel.id
      ensures mode.Calm? ==> ok && world.account == old(world).account && Steady(old(world), world, binding.uid)
      ensures mode.Calm? && old(Exact()) ==> Exact() && SameReport(old(binding), binding)
      ensures mode.Calm? ==> SameChildren(old(world), world)
    {
      var base := binding.status;
      PatchKeepsInv(world, binding.uid, base, base.(tunnelID := tunnel.id));
      ghost var mid;
      ok, mid := PatchStatus(base, base.(tunnelID := tunnel.id));
      ShrunkIngress(mid, world, binding.uid);
      SameAccountIngress(old(world), mid, world, binding.uid);
    }

    /** Afterwards the tunnel on record has the configuration `desired`. */
    method EnsureIngress(tunnel: Tunnel, desired: seq<IngressRule>) returns (ok: bool)
      requires Holds(world, binding) && binding.finalizer && binding.status.tunnelID == tunnel.id != NO_ID
      requires Confined(mode, start, basis.cluster, world, binding.uid)
      modifies `world, `writes
      ensures Confined(mode, start, basis.cluster, world, binding.uid)
      ensures Holds(world, binding) && Reconfigured(old(world), world, binding.uid, desired)
      ensures ok ==> tunnel.id in world.account.tunnels ==> world.account.tunnels[tunnel.id].ingress == desired
      ensures mode.Calm? && tunnel.id in old(world).account.tunnels ==>
                && ok && tunnel.id in world.account.tunnels && world == old(world).(account := world.account)
                && (old(world).account.tunnels[tunnel.id].ingress == desired ==>
                   world == old(world) && writes == old(writes))
    {
      OnRecord(world, binding);
      var current;
      ok, current := GetConfiguration(tunnel.id);
      ghost var mid := world;
      ShrunkIngress(old(world), mid, binding.uid);
      NotReconfigured(old(world), mid, binding.uid, desired);
      if ok {
        var equal := EqualIngress(current, desired);
        if !equal {
          ok := Configure(tunnel.id, desired);
          ReconfiguredOn(old(world), mid, world, binding.uid, desired);
        } else {
          StaysConfigured(old(world), mid, binding.uid, tunnel.id, desired);
        }
      }
    }

    method Configure(id: Id, desired: seq<IngressRule>) returns (ok: bool)
      requires Holds(world, binding) && binding.finalizer && binding.status.tunnelID == id != NO_ID
      requires Confined(mode, start, basis.cluster, world, binding.uid)
      modifies `world, `writes
      ensures Confined(mode, start, basis.cluster, world, binding.uid)
      ensures Holds(world, binding) && Reconfigured(old(world), world, binding.uid, desired)
      ensures ok ==> id in world.account.tunnels ==> world.account.tunnels[id].ingress == desired
      ensures mode.Calm? && id in old(world).account.tunnels ==>
                && ok && id in world.account.tunnels && world == old(world).(account := world.account)
    {
      ConfiguredKeepsInv(world, binding.uid, desired);
      OnRecord(world, binding);
      ghost var mid;
      ok, mid := UpdateConfiguration(id, desired);
      ShrunkIngress(mid, world, binding.uid);
      NotReconfigured(mid, world, binding.uid, desired);
      if mid != old(world) {
        ReconfiguredOn(old(world), mid, world, binding.uid, desired);
      }
      if ok {
        StaysConfigured(mid, world, binding.uid, id, desired);
      }
    }

    // ----- Children -----

    method PutChild(k: ChildKey)
      requires Holds(world, binding) && binding.finalizer
      requires k.prefix == Prefix(binding.uid) && (k in world.children ==> world.children[k] == binding.uid)
      requires Confined(mode, start, basis.cluster, world, binding.uid)
      modifies `world
      ensures Confined(mode, start, basis.cluster, world, binding.uid)
      ensures Holds(world, binding) && world == ChildWritten(old(world), binding.uid, k)
    {
      ChildStepsKeepInv(world, binding.uid, k);
      ChildStepsAlone(world, binding.uid, k);
      StepConfined(mode, start, basis.cluster, world, ChildWritten(world, binding.uid, k), binding.uid);
      world := ChildWritten(world, binding.uid, k);
    }

    /** One `CreateOrPatch` of a child: refuses a child that is there without the binding's label. */
    method WriteChild(kind: ChildKind) returns (ok: bool)
      requires Holds(world, binding) && binding.finalizer
      requires Confined(mode, start, basis.cluster, world, binding.uid)
      modifies `world
      ensures Confined(mode, start, basis.cluster, world, binding.uid)
      ensures Holds(world, binding) && SameIngress(old(world), world, binding.uid)
      ensures mode.Calm? ==>
                && (ok <==> MayRemove(old(world), binding.uid, kind))
                && world == if ok then ChildWritten(old(world), binding.uid, ChildKey(kind, Prefix(binding.uid)))
                            else old(world)
    {
      var k := ChildKey(kind, Prefix(binding.uid));
      var o := Attempt(mode);
      ok := o.Done? && MayRemove(world, binding.uid, kind);
      if !o.Failed? && MayRemove(world, binding.uid, kind) {
        PutChild(k);
      }
      ghost var mid := world;
      Interfere();
      ShrunkIngress(mid, world, binding.uid);
      SameAccountIngress(old(world), mid, world, binding.uid);
    }

    /** The connector's Secret and Deployment. */
    method EnsureConnector() returns (ok: bool)
      requires Holds(world, binding) && binding.finalizer
      requires Confined(mode, start, basis.cluster, world, binding.uid)
      modifies `world
      ensures Confined(mode, start, basis.cluster, world, binding.uid)
      ensures Holds(world, binding) && SameIngress(old(world), world, binding.uid)
      ensures mode.Calm? ==> world == old(world).(children := world.children)
      ensures mode.Calm? && ok ==> HasConnector(world, binding.uid)
      ensures mode.Calm? ==>
                (ok <==> MayRemove(old(world), binding.uid, Secret) && MayRemove(old(world), binding.uid, Deployment))
    {
      // The connector token of the tunnel.
      var o := Attempt(mode);
      Interfere();
      ghost var mid := world;
      ShrunkIngress(old(world), mid, binding.uid);
      ok := o.Done?;
      if ok {
        ok := WriteChildren();
        SameIngressOn(old(world), mid, world, binding.uid);
      }
    }

    method WriteChildren() returns (ok: bool)
      requires Holds(world, binding) && binding.finalizer
      requires Confined(mode, start, basis.cluster, world, binding.uid)
      modifies `world
      ensures Confined(mode, start, basis.cluster, world, binding.uid)
      ensures Holds(world, binding) && SameIngress(old(world), world, binding.uid)
      ensures mode.Calm? ==> world == old(world).(children := world.children)
      ensures mode.Calm? && ok ==> HasConnector(world, binding.uid)
      ensures mode.Calm? ==>
                (ok <==> MayRemove(old(world), binding.uid, Secret) && MayRemove(old(world), binding.uid, Deployment))
    {
      ok := WriteChild(Secret);
      if ok {
        ghost var mid := world;
        ok := WriteChild(Deployment);
        SameIngressOn(old(world), mid, world, binding.uid);
      }
    }

    method DropChild(k: ChildKey)
      requires Holds(world, binding) && binding.finalizer
      requires k.prefix == Prefix(binding.uid) && (k in world.children ==> world.children[k] == binding.uid)
      requires Confined(mode, start, basis.cluster, world, binding.uid)
      modifies `world
      ensures Confined(mode, start, basis.cluster, world, binding.uid)
      ensures Holds(world, binding) && Shrunk(old(world), world, binding.uid) && world == ChildRemoved(old(world), k)
    {
      ChildStepsKeepInv(world, binding.uid, k);
      ChildStepsAlone(world, binding.uid, k);
      StepConfined(mode, start, basis.cluster, world, ChildRemoved(world, k), binding.uid);
      ChildRemovalShrinks(world, binding.uid, k);
      world := ChildRemoved(world, k);
    }

    /** Removes a child; refuses one without the binding's label. */
    method RemoveChild(kind: ChildKind) returns (ok: bool)
      requires Holds(world, binding) && binding.finalizer
      requires Confined(mode, start, basis.cluster, world, binding.uid)
      modifies `world
      ensures Confined(mode, start, basis.cluster, world, binding.uid)
      ensures Holds(world, binding) && Shrunk(old(world), world, binding.uid)
      ensures ok ==> !Owns(world, binding.uid, ChildKey(kind, Prefix(binding.uid)))
      ensures mode.Calm? ==>
                && (ok <==> MayRemove(old(world), binding.uid, kind))
                && world == if ok then ChildRemoved(old(world), ChildKey(kind, Prefix(binding.uid))) else old(world)
    {
      var k := ChildKey(kind, Prefix(binding.uid));
      var o := Attempt(mode);
      ok := o.Done? && MayRemove(world, binding.uid, kind);
      if !o.Failed? && MayRemove(world, binding.uid, kind) {
        DropChild(k);
      }
      ghost var mid := world;
      Interfere();
      if mid != old(world) {
        ShrunkOn(old(world), mid, world, binding.uid);
      }
    }

    method DropEndpoint(k: EndpointKey)
      requires Holds(world, binding) && binding.finalizer && k == EndpointKey(binding.namespace, Prefix(binding.uid))
      requires k in world.endpoints ==> world.endpoints[k].owner == binding.uid
      requires Confined(mode, start, basis.cluster, world, binding.uid)
      modifies `world
      ensures Confined(mode, start, basis.cluster, world, binding.uid)
      ensures Holds(world, binding) && Shrunk(old(world), world, binding.uid) && world == EndpointRemoved(old(world), k)
    {
      var e := Endpoint(binding.uid, [], NO_ID);
      EndpointStepsKeepInv(world, binding.uid, k, e);
      EndpointStepsAlone(world, binding.uid, k, e);
      StepConfined(mode, start, basis.cluster, world, EndpointRemoved(world, k), binding.uid);
      EndpointRemovalShrinks(world, binding.uid, k);
      world := EndpointRemoved(world, k);
    }

    /** Removes the DNSEndpoint; refuses one without the binding's label. */
    method DeleteDNSEndpoint() returns (ok: bool)
      requires Holds(world, binding) && binding.finalizer
      requires Confined(mode, start, basis.cluster, world, binding.uid)
      modifies `world
      ensures Confined(mode, start, basis.cluster, world, binding.uid)
      ensures Holds(world, binding) && Shrunk(old(world), world, binding.uid)
      ensures ok && world.dnsEndpoints ==> NoneOwned(world.endpoints, binding.uid)
      ensures mode.Calm? ==>
                && world == old(world).(endpoints := world.endpoints)
                && (ok <==> MayRemoveEndpoint(old(world), binding))
    {
      ok := true;
      if world.dnsEndpoints {
        ok := RemoveDNSEndpoint();
      }
    }

    method RemoveDNSEndpoint() returns (ok: bool)
      requires Holds(world, binding) && binding.finalizer && world.dnsEndpoints
      requires Confined(mode, start, basis.cluster, world, binding.uid)
      modifies `world
      ensures Confined(mode, start, basis.cluster, world, binding.uid)
      ensures Holds(world, binding) && Shrunk(old(world), world, binding.uid)
      ensures ok ==> NoneOwned(world.endpoints, binding.uid)
      ensures mode.Calm? ==>
                && world == old(world).(endpoints := world.endpoints)
                && (ok <==> MayRemoveEndpoint(old(world), binding))
    {
      var k := EndpointKey(binding.namespace, Prefix(binding.uid));
      var o := Attempt(mode);
      ok := o.Done? && MayRemoveEndpoint(world, binding);
      if !o.Failed? && MayRemoveEndpoint(world, binding) {
        DropEndpoint(k);
      }
      ghost var mid := world;
      Interfere();
      if mid != old(world) {
        ShrunkOn(old(world), mid, world, binding.uid);
      }
      if ok {
        EndpointsOf(world, binding);
      }
    }

    method PutEndpoint(k: EndpointKey, e: Endpoint)
      requires Holds(world, binding) && binding.finalizer && k == EndpointKey(binding.namespace, Prefix(binding.uid))
      requires e.owner == binding.uid && (k in world.endpoints ==> world.endpoints[k].owner == binding.uid)
      requires Confined(mode, start, basis.cluster, world, binding.uid)
      modifies `world
      ensures Confined(mode, start, basis.cluster, world, binding.uid)
      ensures Holds(world, binding) && world == EndpointWritten(old(world), k, e)
    {
      EndpointStepsKeepInv(world, binding.uid, k, e);
      EndpointStepsAlone(world, binding.uid, k, e);
      StepConfined(mode, start, basis.cluster, world, EndpointWritten(world, k, e), binding.uid);
      world := EndpointWritten(world, k, e);
    }

    /** One `CreateOrPatch` of the DNSEndpoint: refuses one that is there without the binding's label. */
    method WriteDNSEndpoint(hostnames: seq<string>, target: Id) returns (ok: bool)
      requires Holds(world, binding) && binding.finalizer && world.dnsEndpoints
      requires Confined(mode, start, basis.cluster, world, binding.uid)
      modifies `world
      ensures Confined(mode, start, basis.cluster, world, binding.uid)
      ensures Holds(world, binding) && SameIngress(old(world), world, binding.uid)
      ensures world.dnsEndpoints == old(world).dnsEndpoints
      ensures mode.Calm? ==> world == old(world).(endpoints := world.endpoints)
      ensures mode.Calm? && ok ==> Publishes(world, binding, hostnames, target)
      ensures mode.Calm? ==> (ok <==> MayRemoveEndpoint(old(world), binding))
    {
      var k := EndpointKey(binding.namespace, Prefix(binding.uid));
      var o := Attempt(mode);
      ok := o.Done? && MayRemoveEndpoint(world, binding);
      if !o.Failed? && MayRemoveEndpoint(world, binding) {
        PutEndpoint(k, Endpoint(binding.uid, hostnames, target));
      }
      ghost var mid := world;
      Interfere();
      ShrunkIngress(mid, world, binding.uid);
      SameAccountIngress(old(world), mid, world, binding.uid);
    }

    method ReconcileDNSEndpoint(hostnames: seq<string>, target: Id, enabled: bool) returns (ok: bool, automated: bool)
      requires Holds(world, binding) && binding.finalizer
      requires Confined(mode, start, basis.cluster, world, binding.uid)
      modifies `world
      ensures Confined(mode, start, basis.cluster, world, binding.uid)
      ensures Holds(world, binding) && SameIngress(old(world), world, binding.uid)
      ensures automated ==> ok && enabled && world.dnsEndpoints && hostnames != []
      ensures mode.Calm? ==> world == old(world).(endpoints := world.endpoints)
      ensures mode.Calm? && ok && world.dnsEndpoints ==>
                if enabled && hostnames != [] then automated && Publishes(world, binding, hostnames, target)
                else NoneOwned(world.endpoints, binding.uid)
      ensures mode.Calm? ==> (ok <==> MayRemoveEndpoint(old(world), binding))
    {
      automated := false;
      if !enabled || (world.dnsEndpoints && hostnames == []) {
        ok := DeleteDNSEndpoint();
        ShrunkIngress(old(world), world, binding.uid);
      } else if !world.dnsEndpoints {
        ok := true;
      } else {
        ok := WriteDNSEndpoint(hostnames, target);
        automated := ok;
      }
    }

    // ----- Status -----

    /** What a successful pass writes. */
    method SetReadyStatus(hostnames: seq<string>, connectorReady: bool, automated: bool) returns (ok: bool)
      requires Holds(world, binding) && binding.finalizer
      requires Confined(mode, start, basis.cluster, world, binding.uid)
      modifies `world, `binding
      ensures Confined(mode, start, basis.cluster, world, binding.uid)
      ensures binding.uid == old(binding).uid && SameIngress(old(world), world, binding.uid)
      ensures mode.Calm? ==>
                ok && world == old(world).(bindings := world.bindings) && Steady(old(world), world, binding.uid)
      ensures mode.Calm? && old(Exact()) ==>
                world.bindings[binding.uid].status
                == ReadyStatus(old(binding), hostnames, connectorReady, automated)
      ensures mode.Calm? && old(Exact()) ==>
                var s := world.bindings[binding.uid].status;
                && s.published == hostnames && s.tunnelID == old(binding).status.tunnelID
                && Tells(s.conditions, old(binding).generation, hostnames != [], connectorReady,
                     old(binding).spec.dnsAutomation ==> automated)
      ensures mode.Calm? ==> KeepsTunnel(old(world), world, binding.uid)
    {
      var base := binding.status;
      var s := ReadyStatus(binding, hostnames, connectorReady, automated);
      PatchKeepsInv(world, binding.uid, base, s);
      ghost var mid;
      ok, mid := PatchStatus(base, s);
      ShrunkIngress(mid, world, binding.uid);
      SameAccountIngress(old(world), mid, world, binding.uid);
    }

    /** Always an error; the tunnel on record may not be in the copy in memory. */
    method ReportOperationalFailure(part: Part)
      requires Follows(world, binding)
      requires Confined(mode, start, basis.cluster, world, binding.uid)
      modifies `world, `binding
      ensures Confined(mode, start, basis.cluster, world, binding.uid)
      ensures binding.uid == old(binding).uid && SameIngress(old(world), world, binding.uid)
      ensures SameTunnel(old(world), world, binding.uid)
      ensures mode.Calm? ==> Steady(old(world), world, binding.uid) && world.account == old(world).account
      ensures mode.Calm? && old(Exact()) ==>
                Reports(world, binding.uid, ReportFailed(old(binding).status.conditions, part, old(binding).generation))
      ensures mode.Calm? ==> SameChildren(old(world), world)
    {
      var base := binding.status;
      var s := base.(conditions := ReportFailed(base.conditions, part, binding.generation));
      if binding.uid in world.bindings {
        PatchKeepsInv(world, binding.uid, base, s);
      }
      ghost var ok, mid;
      ok, mid := PatchStatus(base, s);
      ShrunkIngress(mid, world, binding.uid);
      SameAccountIngress(old(world), mid, world, binding.uid);
    }

    /** Writes the rejection. The copy in memory has it in any case. */
    method Reject(reason: Reason) returns (ok: bool)
      requires Bindings.Current(world, binding)
      requires Confined(mode, start, basis.cluster, world, binding.uid)
      modifies `world, `binding
      ensures Confined(mode, start, basis.cluster, world, binding.uid)
      ensures binding.uid == old(binding).uid && Holds(world, binding) && Lessened(old(world), world, binding.uid)
      ensures binding.status.tunnelID == old(binding).status.tunnelID && Rejects(binding.status, reason)
      ensures SameTunnel(old(world), world, binding.uid)
      ensures mode.Calm? ==> Steady(old(world), world, binding.uid) && world.account == old(world).account
      ensures mode.Calm? && binding.uid in world.bindings ==> ok && binding == world.bindings[binding.uid]
      ensures mode.Calm? ==> SameChildren(old(world), world)
    {
      var base := binding.status;
      var s := RejectedStatus(binding, reason);
      if binding.uid in world.bindings {
        PatchKeepsInv(world, binding.uid, base, s);
        PatchedLessens(world, binding.uid, base, s);
        MergedExactly(base, s);
      }
      ghost var mid;
      ok, mid := PatchStatus(base, s);
      assert binding.status == s;
    }

    // ----- Deprogramming -----

    /** Takes the configuration of the tunnel on record down to the 404 rule. */
    method SilenceTunnel() returns (ok: bool)
      requires Holds(world, binding) && binding.finalizer && binding.status.tunnelID != NO_ID
      requires Confined(mode, start, basis.cluster, world, binding.uid)
      modifies `world, `writes
      ensures Confined(mode, start, basis.cluster, world, binding.uid)
      ensures Holds(world, binding) && Reconfigured(old(world), world, binding.uid, NOTHING_PUBLISHED)
      ensures ok ==> ConfiguredBy(world, binding.status.tunnelID, NOTHING_PUBLISHED)
      ensures mode.Calm? ==> ok && world == old(world).(account := world.account)
      ensures mode.Calm? && ConfiguredBy(old(world), binding.status.tunnelID, NOTHING_PUBLISHED) ==>
                writes == old(writes)
    {
      OnRecord(world, binding);
      var tunnel;
      ok, tunnel := GetTunnel(binding.status.tunnelID);
      ghost var mid := world;
      ShrunkIngress(old(world), mid, binding.uid);
      NotReconfigured(old(world), mid, binding.uid, NOTHING_PUBLISHED);
      if ok && tunnel.Some? {
        ok := EnsureSilence(binding.status.tunnelID);
        ReconfiguredOn(old(world), mid, world, binding.uid, NOTHING_PUBLISHED);
      } else if ok {
        StaysConfigured(old(world), mid, binding.uid, binding.status.tunnelID, NOTHING_PUBLISHED);
      }
    }

    /** A configuration that cannot be read is overwritten. */
    method EnsureSilence(id: Id) returns (ok: bool)
      requires Holds(world, binding) && binding.finalizer && binding.status.tunnelID == id != NO_ID
      requires Confined(mode, start, basis.cluster, world, binding.uid)
      modifies `world, `writes
      ensures Confined(mode, start, basis.cluster, world, binding.uid)
      ensures Holds(world, binding) && Reconfigured(old(world), world, binding.uid, NOTHING_PUBLISHED)
      ensures ok ==> ConfiguredBy(world, id, NOTHING_PUBLISHED)
      ensures mode.Calm? && id in old(world).account.tunnels ==> ok && world == old(world).(account := world.account)
      ensures mode.Calm? && id in old(world).account.tunnels && ConfiguredBy(old(world), id, NOTHING_PUBLISHED) ==>
                writes == old(writes)
    {
      OnRecord(world, binding);
      ok := true;
      var desired := IngressRules([], "");
      var read, current := GetConfiguration(id);
      ghost var mid := world;
      ShrunkIngress(old(world), mid, binding.uid);
      NotReconfigured(old(world), mid, binding.uid, NOTHING_PUBLISHED);
      var equal := EqualIngress(current, desired);
      if !read || !equal {
        ok := Configure(id, desired);
        ReconfiguredOn(old(world), mid, world, binding.uid, NOTHING_PUBLISHED);
      } else {
        StaysConfigured(old(world), mid, binding.uid, id, NOTHING_PUBLISHED);
      }
    }

    /** Reads the API token of the provider. */
    method OpenAPI(provider: Provider) returns (ok: bool)
      requires Holds(world, binding)
      requires Confined(mode, start, basis.cluster, world, binding.uid)
      modifies `world
      ensures Confined(mode, start, basis.cluster, world, binding.uid)
      ensures Holds(world, binding) && Shrunk(old(world), world, binding.uid)
      ensures mode.Calm? ==> world == old(world) && (ok <==> provider.tokenSecret in world.cluster.tokens)
    {
      var cluster, bindings;
      ok, cluster, bindings := Observe();
      ok := ok && provider.tokenSecret in cluster.tokens;
    }

    method ReadToken() returns (ok: bool)
      requires Holds(world, binding)
      requires Confined(mode, start, basis.cluster, world, binding.uid)
      modifies `world
      ensures Confined(mode, start, basis.cluster, world, binding.uid)
      ensures Holds(world, binding) && Shrunk(old(world), world, binding.uid)
      ensures mode.Calm? ==> world == old(world) && (ok <==> HasToken(world.cluster, binding.spec.provider))
    {
      var cluster, bindings;
      ok, cluster, bindings := Observe();
      if !ok || binding.spec.provider !in cluster.providers {
        return false;
      }
      ok := OpenAPI(cluster.providers[binding.spec.provider]);
    }

    /** Afterwards the tunnel on record publishes nothing, and no DNSEndpoint is left. */
    method DeprogramTunnel() returns (ok: bool)
      requires Holds(world, binding) && binding.finalizer && binding.status.tunnelID != NO_ID
      requires Confined(mode, start, basis.cluster, world, binding.uid)
      modifies `world, `writes
      ensures Confined(mode, start, basis.cluster, world, binding.uid)
      ensures Holds(world, binding) && Reconfigured(old(world), world, binding.uid, NOTHING_PUBLISHED)
      ensures ok ==> ConfiguredBy(world, binding.status.tunnelID, NOTHING_PUBLISHED)
      ensures ok && world.dnsEndpoints ==> NoneOwned(world.endpoints, binding.uid)
      ensures mode.Calm? ==> world.bindings == old(world).bindings && Steady(old(world), world, binding.uid)
      ensures mode.Calm? ==>
                (ok <==> HasToken(old(world).cluster, binding.spec.provider) && MayRemoveEndpoint(old(world), binding))
      ensures mode.Calm? && ConfiguredBy(old(world), binding.status.tunnelID, NOTHING_PUBLISHED) ==>
                writes == old(writes)
    {
      ok := ReadToken();
      ghost var mid := world;
      ShrunkIngress(old(world), mid, binding.uid);
      NotReconfigured(old(world), mid, binding.uid, NOTHING_PUBLISHED);
      if ok {
        ok := Withdraw();
        ReconfiguredOn(old(world), mid, world, binding.uid, NOTHING_PUBLISHED);
      }
    }

    method Withdraw() returns (ok: bool)
      requires Holds(world, binding) && binding.finalizer && binding.status.tunnelID != NO_ID
      requires Confined(mode, start, basis.cluster, world, binding.uid)
      modifies `world, `writes
      ensures Confined(mode, start, basis.cluster, world, binding.uid)
      ensures Holds(world, binding) && Reconfigured(old(world), world, binding.uid, NOTHING_PUBLISHED)
      ensures ok ==> ConfiguredBy(world, binding.status.tunnelID, NOTHING_PUBLISHED)
      ensures ok && world.dnsEndpoints ==> NoneOwned(world.endpoints, binding.uid)
      ensures mode.Calm? ==>
                && world.bindings == old(world).bindings && Steady(old(world), world, binding.uid)
                && (ok <==> MayRemoveEndpoint(old(world), binding))
      ensures mode.Calm? && ConfiguredBy(old(world), binding.status.tunnelID, NOTHING_PUBLISHED) ==>
                writes == old(writes)
    {
      ok := SilenceTunnel();
      if ok {
        ghost var mid := world;
        OnRecord(mid, binding);
        ok := DeleteDNSEndpoint();
        ShrunkIngress(mid, world, binding.uid);
        ReconfiguredThenKept(old(world), mid, world, binding.uid, NOTHING_PUBLISHED);
        StaysConfigured(mid, world, binding.uid, binding.status.tunnelID, NOTHING_PUBLISHED);
      }
    }

    // ----- Programming -----

    method Fail(part: Part) returns (tunnel: Option<Tunnel>)
      requires Follows(world, binding)
      requires Confined(mode, start, basis.cluster, world, binding.uid)
      modifies `world, `binding
      ensures Confined(mode, start, basis.cluster, world, binding.uid)
      ensures tunnel.None? && binding.uid == old(binding).uid && SameIngress(old(world), world, binding.uid)
      ensures mode.Calm? ==> Steady(old(world), world, binding.uid)
      ensures mode.Calm? ==> SameChildren(old(world), world)
      ensures mode.Calm? && old(Exact()) ==>
                Reports(world, binding.uid, ReportFailed(old(binding).status.conditions, part, old(binding).generation))
    {
      ReportOperationalFailure(part);
      tunnel := None;
    }

    /** The tunnel, configured to publish `hostnames` at `origin`. */
    method Program(provider: Provider, hostnames: seq<string>, origin: string) returns (tunnel: Option<Tunnel>)
      requires Holds(world, binding) && binding.finalizer && binding.uid in world.trusting
      requires Confined(mode, start, basis.cluster, world, binding.uid)
      modifies `world, `binding, `writes
      ensures Confined(mode, start, basis.cluster, world, binding.uid)
      ensures binding.uid == old(binding).uid && Reconfigured(old(world), world, binding.uid, Rules(hostnames, origin))
      ensures tunnel.Some? ==>
                Holds(world, binding) && binding.finalizer && binding.status.tunnelID == tunnel.value.id != NO_ID
      ensures mode.Calm? ==>
                && Steady(old(world), world, binding.uid)
                && (tunnel.Some? <==> provider.tokenSecret in old(world).cluster.tokens)
                && (tunnel.Some? ==> Serves(world, binding.uid, Rules(hostnames, origin)))
      ensures mode.Calm? && Serves(old(world), binding.uid, Rules(hostnames, origin)) ==> writes == old(writes)
      ensures mode.Calm? && tunnel.Some? && old(Exact()) ==> Exact() && SameReport(old(binding), binding)
      ensures mode.Calm? ==> SameChildren(old(world), world)
      ensures mode.Calm? && tunnel.None? && old(Exact()) ==>
                Reports(world, binding.uid, ReportFailed(old(binding).status.conditions, TheConnector,
                  old(binding).generation))
    {
      var failed := Prepare(provider);
      ghost var mid := world;
      ShrunkIngress(old(world), mid, binding.uid);
      if failed.Some? {
        tunnel := Fail(failed.value);
        SameIngressOn(old(world), mid, world, binding.uid);
        NotReconfigured(old(world), world, binding.uid, Rules(hostnames, origin));
      } else {
        var desired := IngressRules(hostnames, origin);
        tunnel := ProgramTunnel(desired);
        ShrunkThenReconfigured(old(world), mid, world, binding.uid, desired);
      }
    }

    /** Reads the API token and the identity of the cluster. */
    method Prepare(provider: Provider) returns (failed: Option<Part>)
      requires Holds(world, binding)
      requires Confined(mode, start, basis.cluster, world, binding.uid)
      modifies `world
      ensures Confined(mode, start, basis.cluster, world, binding.uid)
      ensures Holds(world, binding) && Shrunk(old(world), world, binding.uid)
      ensures mode.Calm? ==> world == old(world) && (failed.None? <==> provider.tokenSecret in world.cluster.tokens)
      ensures mode.Calm? ==> failed in {None, Some(TheConnector)}
    {
      var ok := OpenAPI(provider);
      if !ok {
        return Some(TheConnector);
      }
      var cluster, bindings;
      ok, cluster, bindings := Observe();
      failed := if ok then None else Some(TheTunnel);
    }

    method ProgramTunnel(desired: seq<IngressRule>) returns (tunnel: Option<Tunnel>)
      requires Holds(world, binding) && binding.finalizer && binding.uid in world.trusting
      requires Confined(mode, start, basis.cluster, world, binding.uid)
      modifies `world, `binding, `writes
      ensures Confined(mode, start, basis.cluster, world, binding.uid)
      ensures binding.uid == old(binding).uid && Reconfigured(old(world), world, binding.uid, desired)
      ensures tunnel.Some? ==>
                Holds(world, binding) && binding.finalizer && binding.status.tunnelID == tunnel.value.id != NO_ID
      ensures mode.Calm? ==>
                tunnel.Some? && Steady(old(world), world, binding.uid) && Serves(world, binding.uid, desired)
      ensures mode.Calm? && Serves(old(world), binding.uid, desired) ==> writes == old(writes)
      ensures mode.Calm? && tunnel.Some? && old(Exact()) ==> Exact() && SameReport(old(binding), binding)
      ensures mode.Calm? ==> SameChildren(old(world), world)
    {
      tunnel := EnsureTunnel(ForBinding(binding.uid));
      ghost var mid := world;
      NotReconfigured(old(world), mid, binding.uid, desired);
      if tunnel.None? {
        tunnel := Fail(TheTunnel);
        ReconfiguredThenKept(old(world), mid, world, binding.uid, desired);
      } else {
        tunnel := ConfigureTunnel(tunnel.value, desired);
        ReconfiguredOn(old(world), mid, world, binding.uid, desired);
      }
    }

    method ConfigureTunnel(tunnel: Tunnel, desired: seq<IngressRule>) returns (configured: Option<Tunnel>)
      requires Holds(world, binding) && binding.finalizer && binding.status.tunnelID == tunnel.id != NO_ID
      requires Confined(mode, start, basis.cluster, world, binding.uid)
      modifies `world, `binding, `writes
      ensures Confined(mode, start, basis.cluster, world, binding.uid)
      ensures binding.uid == old(binding).uid && Reconfigured(old(world), world, binding.uid, desired)
      ensures configured.Some? ==> configured.value == tunnel && Holds(world, binding) && binding == old(binding)
      ensures mode.Calm? && tunnel.id in old(world).account.tunnels ==>
                && configured.Some? && world == old(world).(account := world.account)
                && Serves(world, binding.uid, desired)
                && (old(world).account.tunnels[tunnel.id].ingress == desired ==> writes == old(writes))
    {
      configured := Some(tunnel);
      var ok := EnsureIngress(tunnel, desired);
      if !ok {
        ghost var mid := world;
        configured := Fail(TheTunnel);
        ReconfiguredThenKept(old(world), mid, world, binding.uid, desired);
      }
    }

    /** The connector, DNS automation and the report on a programmed tunnel. */
    method Publish(tunnel: Tunnel, hostnames: seq<string>) returns (ok: bool, ghost ready: bool)
      requires Holds(world, binding) && binding.finalizer
      requires Confined(mode, start, basis.cluster, world, binding.uid)
      modifies `world, `binding
      ensures Confined(mode, start, basis.cluster, world, binding.uid)
      ensures binding.uid == old(binding).uid && SameIngress(old(world), world, binding.uid)
      ensures mode.Calm? ==> Steady(old(world), world, binding.uid) && world.account == old(world).account
      ensures mode.Calm? && ok && old(Exact()) ==>
                Announced(world, old(binding), hostnames, tunnel.id, ready)
      ensures mode.Calm? ==> KeepsTunnel(old(world), world, binding.uid)
      ensures mode.Calm? ==> (ok <==> MayWrite(old(world), old(binding)))
      ensures mode.Calm? && old(Exact()) && !ok ==>
                Reports(world, binding.uid, ReportFailed(old(binding).status.conditions,
                  PartInTheWay(old(world), old(binding)), old(binding).generation))
    {
      ready := false;
      ok := EnsureConnector();
      ghost var mid := world;
      if ok {
        ok, ready := Announce(tunnel.id, hostnames);
      } else {
        ReportOperationalFailure(TheConnector);
      }
      SameIngressOn(old(world), mid, world, binding.uid);
    }

    method Announce(target: Id, hostnames: seq<string>) returns (ok: bool, ghost ready: bool)
      requires Holds(world, binding) && binding.finalizer
      requires Confined(mode, start, basis.cluster, world, binding.uid)
      modifies `world, `binding
      ensures Confined(mode, start, basis.cluster, world, binding.uid)
      ensures binding.uid == old(binding).uid && SameIngress(old(world), world, binding.uid)
      ensures mode.Calm? ==> Steady(old(world), world, binding.uid) && world.account == old(world).account
      ensures mode.Calm? && ok && old(Exact()) && old(HasConnector(world, binding.uid)) ==>
                Announced(world, old(binding), hostnames, target, ready)
      ensures mode.Calm? ==> KeepsTunnel(old(world), world, binding.uid)
      ensures mode.Calm? ==> (ok <==> MayRemoveEndpoint(old(world), old(binding)))
      ensures mode.Calm? && old(Exact()) && !ok ==>
                Reports(world, binding.uid, ReportFailed(old(binding).status.conditions, TheDNS,
                  old(binding).generation))
    {
      ready := false;
      var automated;
      ok, automated := ReconcileDNSEndpoint(hostnames, target, binding.spec.dnsAutomation);
      ghost var mid := world;
      if ok {
        // Whether enough replicas are available is up to the cluster.
        var connectorReady: bool := *;
        ready := connectorReady;
        ok := SetReadyStatus(hostnames, connectorReady, automated);
      } else {
        ReportOperationalFailure(TheDNS);
      }
      SameIngressOn(old(world), mid, world, binding.uid);
    }

    // ----- Finalization -----

    /** The provider needed to delete the tunnel on record; under Retain it may be missing. */
    method FinalizerProvider() returns (ok: bool, provider: Option<Provider>)
      requires Holds(world, binding)
      requires Confined(mode, start, basis.cluster, world, binding.uid)
      modifies `world
      ensures Confined(mode, start, basis.cluster, world, binding.uid)
      ensures Holds(world, binding) && Shrunk(old(world), world, binding.uid)
      ensures ok && binding.status.tunnelID != NO_ID && !binding.spec.retain ==> provider.Some?
      ensures mode.Calm? ==>
                && world == old(world)
                && (provider.Some? ==> Lookup(world.cluster.providers, binding.spec.provider) == provider)
                && (ok <==>
                      || binding.status.tunnelID == NO_ID
                      || if binding.spec.retain then MayRetain(world.cluster, binding)
                         else Provided(world.cluster, RefOf(binding.spec)))
    {
      ok, provider := true, None;
      if binding.status.tunnelID != NO_ID {
        var cluster, bindings;
        ok, cluster, bindings := Observe();
        if !ok {
          return;
        }
        if binding.spec.provider !in cluster.providers {
          ok := binding.spec.retain;
        } else {
          provider := Some(cluster.providers[binding.spec.provider]);
          ok := provider.value.controller == binding.spec.controller;
        }
      }
    }

    method RemoveChildren() returns (ok: bool)
      requires Holds(world, binding) && binding.finalizer
      requires Confined(mode, start, basis.cluster, world, binding.uid)
      modifies `world
      ensures Confined(mode, start, basis.cluster, world, binding.uid)
      ensures Holds(world, binding) && Shrunk(old(world), world, binding.uid)
      ensures ok ==> (forall k :: !Owns(world, binding.uid, k)) && (world.dnsEndpoints ==>
                NoneOwned(world.endpoints, binding.uid))
      ensures mode.Calm? ==>
                && world == old(world).(children := world.children, endpoints := world.endpoints)
                && (ok <==> MayWrite(old(world), binding))
    {
      ok := RemoveConnector();
      if ok {
        ok := DeleteDNSEndpoint();
      }
    }

    method RemoveConnector() returns (ok: bool)
      requires Holds(world, binding) && binding.finalizer
      requires Confined(mode, start, basis.cluster, world, binding.uid)
      modifies `world
      ensures Confined(mode, start, basis.cluster, world, binding.uid)
      ensures Holds(world, binding) && Shrunk(old(world), world, binding.uid)
      ensures ok ==> forall k :: !Owns(world, binding.uid, k)
      ensures mode.Calm? ==>
                && world == old(world).(children := world.children)
                && (ok <==>
                      && MayRemove(old(world), binding.uid, Deployment)
                      && MayRemove(old(world), binding.uid, Secret))
    {
      ok := RemoveChild(Deployment);
      if ok {
        ok := RemoveChild(Secret);
      }
      if ok {
        forall kind: ChildKind ensures !Owns(world, binding.uid, ChildKey(kind, Prefix(binding.uid))) {
          assert kind == Deployment || kind == Secret;
        }
        ChildrenOf(world, binding.uid);
      }
    }

    /** Deletes the tunnel on record. */
    method RemoveTunnel(provider: Provider) returns (ok: bool)
      requires Holds(world, binding) && binding.finalizer && binding.status.tunnelID != NO_ID
      requires Confined(mode, start, basis.cluster, world, binding.uid)
      modifies `world
      ensures Confined(mode, start, basis.cluster, world, binding.uid)
      ensures Holds(world, binding) && Shrunk(old(world), world, binding.uid)
      ensures ok ==> binding.status.tunnelID !in world.account.tunnels
      ensures mode.Calm? ==>
                && (ok <==> provider.tokenSecret in old(world).cluster.tokens) && world.bindings == old(world).bindings
                && (ok ==> world.account.tunnels == old(world).account.tunnels - {binding.status.tunnelID})
    {
      ok := OpenAPI(provider);
      if ok {
        ok := DeleteOwnTunnel();
      }
    }

    method DeleteOwnTunnel() returns (ok: bool)
      requires Holds(world, binding) && binding.finalizer && binding.status.tunnelID != NO_ID
      requires Confined(mode, start, basis.cluster, world, binding.uid)
      modifies `world
      ensures Confined(mode, start, basis.cluster, world, binding.uid)
      ensures Holds(world, binding) && Shrunk(old(world), world, binding.uid)
      ensures ok ==> binding.status.tunnelID !in world.account.tunnels
      ensures mode.Calm? ==>
                && ok && world.bindings == old(world).bindings
                && world.account.tunnels == old(world).account.tunnels - {binding.status.tunnelID}
    {
      OnRecord(world, binding);
      TunnelRemovedKeepsInv(world, binding.uid, binding.status.tunnelID);
      TunnelRemovedShrinks(world, binding.uid, binding.status.tunnelID);
      ghost var mid;
      ok, mid := DeleteTunnel(binding.status.tunnelID);
      if mid != old(world) {
        ShrunkOn(old(world), mid, world, binding.uid);
      }
      if ok {
        TunnelStaysAway(mid, world, binding.uid, binding.status.tunnelID);
      }
    }

    /** The update that removes the finalizer; it is refused unless the copy in memory is current. */
    method Release() returns (ok: bool)
      requires Holds(world, binding) && binding.finalizer && binding.deleting && Discharged(world, binding)
      requires Confined(mode, start, basis.cluster, world, binding.uid)
      modifies `world
      ensures Confined(mode, start, basis.cluster, world, binding.uid)
      ensures Lessened(old(world), world, binding.uid) && Finishing(old(world), world, binding.uid)
      ensures ok ==> binding.uid !in world.bindings
      ensures mode.Calm? ==>
                && world.account == old(world).account
                && (ok <==> old(world).bindings[binding.uid].version == binding.version)
                && (ok ==> Discharged(world, binding))
    {
      var o := Attempt(mode);
      ok := o.Done? && world.bindings[binding.uid].version == binding.version;
      if !o.Failed? && world.bindings[binding.uid].version == binding.version {
        BindingParts(world, binding.uid);
        DischargedAlike(world, binding, world.bindings[binding.uid]);
        ReleaseKeepsInv(world, binding.uid);
        ReleaseDischarges(world, binding.uid, binding);
        BindingStepsAlone(world, binding.uid);
        StepConfined(mode, start, basis.cluster, world, Released(world, binding.uid), binding.uid);
        world := Released(world, binding.uid);
      }
      Interfere();
    }

    /** Everything `Finalize` does before it lets the binding go. */
    method TearDown() returns (ok: bool)
      requires Holds(world, binding) && binding.finalizer
      requires Confined(mode, start, basis.cluster, world, binding.uid)
      modifies `world
      ensures Confined(mode, start, basis.cluster, world, binding.uid)
      ensures Holds(world, binding) && Shrunk(old(world), world, binding.uid)
      ensures ok ==> Discharged(world, binding)
      ensures mode.Calm? && CanFinish(old(world), binding) ==>
                && ok && world.bindings == old(world).bindings
                && world.account.tunnels == TunnelsLeft(old(world).account, binding)
      ensures mode.Calm? && ok ==> CanFinish(old(world), binding)
    {
      var provider;
      ok, provider := FinalizerProvider();
      if ok {
        ok := RemoveAll(provider);
      }
    }

    method RemoveAll(provider: Option<Provider>) returns (ok: bool)
      requires Holds(world, binding) && binding.finalizer
      requires binding.status.tunnelID != NO_ID && !binding.spec.retain ==> provider.Some?
      requires Confined(mode, start, basis.cluster, world, binding.uid)
      modifies `world
      ensures Confined(mode, start, basis.cluster, world, binding.uid)
      ensures Holds(world, binding) && Shrunk(old(world), world, binding.uid)
      ensures ok ==> Discharged(world, binding)
      ensures mode.Calm? && CanFinish(old(world), binding)
              && (binding.status.tunnelID != NO_ID && !binding.spec.retain ==>
                 provider.value.tokenSecret in old(world).cluster.tokens) ==>
                && ok && world.bindings == old(world).bindings
                && world.account.tunnels == TunnelsLeft(old(world).account, binding)
      ensures mode.Calm? && ok ==>
                && MayWrite(old(world), binding)
                && (binding.status.tunnelID != NO_ID && !binding.spec.retain ==>
                      provider.value.tokenSecret in old(world).cluster.tokens)
    {
      ok := RemoveChildren();
      if ok {
        ok := RemoveUnlessRetained(provider);
      }
    }

    method RemoveUnlessRetained(provider: Option<Provider>) returns (ok: bool)
      requires Holds(world, binding) && binding.finalizer
      requires binding.status.tunnelID != NO_ID && !binding.spec.retain ==> provider.Some?
      requires Confined(mode, start, basis.cluster, world, binding.uid)
      modifies `world
      ensures Confined(mode, start, basis.cluster, world, binding.uid)
      ensures Holds(world, binding) && Shrunk(old(world), world, binding.uid)
      ensures ok && !binding.spec.retain ==> binding.status.tunnelID !in world.account.tunnels
      ensures mode.Calm? && (binding.status.tunnelID != NO_ID && !binding.spec.retain ==>
                provider.value.tokenSecret in old(world).cluster.tokens) ==>
                && ok && world.bindings == old(world).bindings
                && world.account.tunnels == TunnelsLeft(old(world).account, binding)
      ensures mode.Calm? && ok && binding.status.tunnelID != NO_ID && !binding.spec.retain ==>
                provider.value.tokenSecret in old(world).cluster.tokens
    {
      OnRecord(world, binding);
      ok := true;
      if !binding.spec.retain && binding.status.tunnelID != NO_ID {
        ok := RemoveTunnel(provider.value);
      }
    }

    /** Whatever happens, nothing new is owned, and the binding goes only when it is discharged, which every
        `World` says of every binding that was let go. */
    method Finalize() returns (ok: bool)
      requires binding.deleting && Holds(world, binding)
      requires Confined(mode, start, basis.cluster, world, binding.uid)
      modifies `world
      ensures Confined(mode, start, basis.cluster, world, binding.uid)
      ensures Lessened(old(world), world, binding.uid)
      ensures binding.finalizer ==> Finishing(old(world), world, binding.uid)
      ensures !binding.finalizer ==> world == old(world)
      ensures mode.Calm? && binding.finalizer && CanFinish(old(world), binding) && old(Exact()) ==>
                && ok && binding.uid !in world.bindings && Discharged(world, binding)
                && world.account.tunnels == TunnelsLeft(old(world).account, binding)
      ensures mode.Calm? && binding.finalizer && !CanFinish(old(world), binding) ==>
                !ok && binding.uid in world.bindings
    {
      ok := true;
      if binding.finalizer {
        ok := TearDown();
        if ok {
          ok := Release();
        }
      }
    }

    // ----- Reconciliation -----

    /** Reads the binding. */
    method Get(u: UID) returns (ok: bool, found: bool)
      requires start == world
      modifies `world, `binding
      ensures Confined(mode, start, world.cluster, world, u) && Drifts(old(world), world)
      ensures ok && found ==>
                && u in old(world).bindings && binding == old(world).bindings[u] && binding.uid == u
                && Bindings.Current(world, binding)
      ensures u in old(world).uids ==>
                Shrunk(old(world), world, u) && SameTunnel(old(world), world, u)
      ensures mode.Calm? ==> ok
      ensures !mode.Busy? ==> world == old(world) && (found <==> u in old(world).bindings)
    {
      var o := Attempt(mode);
      ok, found := o.Done?, u in world.bindings;
      if ok && found {
        BindingParts(world, u);
        binding := world.bindings[u];
      }
      Drift();
      NothingConfined(mode, old(world), world.cluster, u);
      DriftConfined(mode, start, world.cluster, old(world), world, u);
      if u in old(world).uids {
        DriftShrinks(old(world), world, u);
      }
    }

    /** The update that adds the finalizer; it is refused unless the copy in memory is current. */
    method AddFinalizer() returns (ok: bool)
      requires binding.uid in world.uids
      requires Confined(mode, start, basis.cluster, world, binding.uid)
      modifies `world
      ensures Confined(mode, start, basis.cluster, world, binding.uid)
      ensures SameIngress(old(world), world, binding.uid) && SameTunnel(old(world), world, binding.uid)
      ensures mode.Calm? && binding.uid in old(world).bindings && old(world).bindings[binding.uid] == binding ==>
                ok && binding.uid in world.bindings && world.bindings[binding.uid].finalizer
    {
      var o := Attempt(mode);
      var current := binding.uid in world.bindings && world.bindings[binding.uid].version == binding.version;
      ok := o.Done? && current;
      if !o.Failed? && current {
        FinalizerKeepsInv(world, binding.uid);
        BindingStepsAlone(world, binding.uid);
        StepConfined(mode, start, basis.cluster, world, WithFinalizer(world, binding.uid), binding.uid);
        world := WithFinalizer(world, binding.uid);
      }
      Interfere();
    }

    /** What follows a plan that was refused, because of a failing read or not. */
    method Decline(reason: Reason, error: bool) returns (ok: bool)
      requires Bindings.Current(world, binding)
      requires Confined(mode, start, basis.cluster, world, binding.uid)
      modifies `world, `binding, `writes
      ensures Confined(mode, start, basis.cluster, world, binding.uid)
      ensures binding.uid == old(binding).uid && SameTunnel(old(world), world, binding.uid)
      ensures Reconfigured(old(world), world, binding.uid, NOTHING_PUBLISHED)
      ensures ok && reason != ProviderControllerClassMismatch && old(binding).status.tunnelID != NO_ID ==>
                Silenced(world, binding.uid, old(binding).status.tunnelID)
      ensures mode.Calm? && reason == ProviderControllerClassMismatch ==>
                writes == old(writes) && world.account == old(world).account && SameChildren(old(world), world)
      ensures mode.Calm? && ConfiguredBy(old(world), old(binding).status.tunnelID, NOTHING_PUBLISHED) ==>
                writes == old(writes)
      ensures mode.Calm? && binding.uid in old(world).bindings ==>
                binding.uid in world.bindings && Rejects(world.bindings[binding.uid].status, reason)
      ensures mode.Calm? && old(Exact()) && MayWithdraw(old(world), old(binding)) ==>
                && (ok <==> !error)
                && (reason != ProviderControllerClassMismatch && old(binding).status.tunnelID != NO_ID ==>
                   Silenced(world, binding.uid, old(binding).status.tunnelID))
      ensures mode.Calm? && old(Exact()) && reason == ProviderControllerClassMismatch ==> (ok <==> !error)
      ensures mode.Calm? && old(Exact()) && reason != ProviderControllerClassMismatch ==>
                (ok <==> !error && MayWithdraw(old(world), old(binding)))
    {
      ok := Reject(reason);
      ok := ok && !error;
      ghost var mid := world;
      ShrunkIngress(old(world), mid, binding.uid);
      NotReconfigured(old(world), mid, binding.uid, NOTHING_PUBLISHED);
      if binding.status.conditions.accepted.reason == ProviderControllerClassMismatch {
        return;
      }
      if binding.status.tunnelID != NO_ID {
        var silenced := DeprogramTunnel();
        ReconfiguredOn(old(world), mid, world, binding.uid, NOTHING_PUBLISHED);
        ok := ok && silenced;
      }
    }

    /** What follows a plan that was made. */
    method Serve(provider: Provider, hostnames: seq<string>, origin: string) returns (ok: bool, ghost ready: bool)
      requires Holds(world, binding) && binding.finalizer && binding.uid in world.trusting
      requires Confined(mode, start, basis.cluster, world, binding.uid)
      modifies `world, `binding, `writes
      ensures Confined(mode, start, basis.cluster, world, binding.uid)
      ensures binding.uid == old(binding).uid && Reconfigured(old(world), world, binding.uid, Rules(hostnames, origin))
      ensures mode.Calm? && provider.tokenSecret in old(world).cluster.tokens ==>
                Serves(world, binding.uid, Rules(hostnames, origin))
      ensures mode.Calm? && ok && old(Exact()) ==>
                && binding.uid in world.bindings
                && var target := world.bindings[binding.uid].status.tunnelID;
                   Announced(world, old(binding), hostnames, target, ready)
      ensures mode.Calm? && Serves(old(world), binding.uid, Rules(hostnames, origin)) ==> writes == old(writes)
      ensures mode.Calm? ==>
                (ok <==> provider.tokenSecret in old(world).cluster.tokens && MayWrite(old(world), old(binding)))
      ensures mode.Calm? && !ok && old(Exact()) ==>
                Reports(world, binding.uid, ReportFailed(old(binding).status.conditions,
                  if provider.tokenSecret in old(world).cluster.tokens then PartInTheWay(old(world), old(binding))
                  else TheConnector, old(binding).generation))
    {
      ok, ready := false, false;
      var tunnel := Program(provider, hostnames, origin);
      if tunnel.Some? {
        ghost var mid := world;
        ok, ready := Publish(tunnel.value, hostnames);
        ReconfiguredThenKept(old(world), mid, world, binding.uid, Rules(hostnames, origin));
      }
    }

    /** A pass over a binding that is not being deleted. */
    method Maintain() returns (ok: bool, plan: Plan, provider: Option<Provider>, ghost ready: bool)
      requires Bindings.Current(world, binding) && basis.cluster == world.cluster
      requires Confined(mode, start, basis.cluster, world, binding.uid)
      modifies `world, `binding, `writes, `sources
      ensures Confined(mode, start, basis.cluster, world, binding.uid)
      ensures binding.uid == old(binding).uid && OneOfThree(old(world), world, binding.uid, plan)
      ensures Grounded(plan, old(world).cluster, sources, old(binding), provider)
      ensures NewTunnel(old(world), world, binding.uid) ==> plan.Planned?
      ensures old(binding).status.tunnelID != NO_ID && Refusal(ok, plan) ==>
                Silenced(world, binding.uid, old(binding).status.tunnelID)
      ensures !mode.Busy? ==>
                Plausible(mode, plan, old(world).cluster, old(world).bindings, old(binding), controllerClass)
      ensures mode.Calm? && old(Exact()) ==>
                Achieves(old(world), world, binding.uid, plan, ok, ready, writes == old(writes))
    {
      var hostnames;
      plan, provider, hostnames := ValidateAndPlan();
      ok, ready := CarryOutFrom(old(world), plan, provider, hostnames);
    }

    /** What follows a plan made from the state `before`. */
    method CarryOutFrom(ghost before: World, plan: Plan, provider: Option<Provider>, hostnames: seq<string>)
      returns (ok: bool, ghost ready: bool)
      requires Bindings.Current(world, binding)
      requires Grounded(plan, before.cluster, sources, binding, provider)
      requires plan.Planned? ==>
                 hostnames == Sorted(plan.hosts) && (binding.finalizer ==> binding.uid in world.trusting)
      requires Shrunk(before, world, binding.uid) && (mode.Calm? ==> SameButTrust(before, world))
      requires Confined(mode, start, basis.cluster, world, binding.uid)
      modifies `world, `binding, `writes
      ensures Confined(mode, start, basis.cluster, world, binding.uid)
      ensures binding.uid == old(binding).uid && OneOfThree(before, world, binding.uid, plan)
      ensures NewTunnel(before, world, binding.uid) ==> plan.Planned?
      ensures old(binding).status.tunnelID != NO_ID && Refusal(ok, plan) ==>
                Silenced(world, binding.uid, old(binding).status.tunnelID)
      ensures mode.Calm? && old(Exact()) ==>
                Achieves(before, world, binding.uid, plan, ok, ready, writes == old(writes))
    {
      ok, ready := CarryOut(plan, provider, hostnames);
      OneOfThreeLater(before, old(world), world, binding.uid, plan);
      if mode.Calm? && old(Exact()) {
        AchievesAcross(before, old(world), world, binding.uid, plan, ok, ready, writes == old(writes));
      }
    }

    /** What follows a plan. */
    method CarryOut(plan: Plan, provider: Option<Provider>, hostnames: seq<string>)
      returns (ok: bool, ghost ready: bool)
      requires Bindings.Current(world, binding)
      requires plan.Planned? ==> provider.Some? && hostnames == Sorted(plan.hosts)
      requires plan.Planned? && binding.finalizer ==> binding.uid in world.trusting
      requires Confined(mode, start, basis.cluster, world, binding.uid)
      modifies `world, `binding, `writes
      ensures Confined(mode, start, basis.cluster, world, binding.uid)
      ensures binding.uid == old(binding).uid && OneOfThree(old(world), world, binding.uid, plan)
      ensures NewTunnel(old(world), world, binding.uid) ==> plan.Planned?
      ensures old(binding).status.tunnelID != NO_ID && Refusal(ok, plan) ==>
                Silenced(world, binding.uid, old(binding).status.tunnelID)
      ensures mode.Calm? && old(Exact())
              && (plan.Planned? ==> Vouched(old(world).cluster, old(binding), provider.value)) ==>
                Achieves(old(world), world, binding.uid, plan, ok, ready, writes == old(writes))
    {
      ok, ready := false, false;
      match plan
      case Broken => ReportOperationalFailure(TheTunnel);
      case StatusUnknown => ReportOperationalFailure(NoPart);
      case Refused(reason, error) => ok := Decline(reason, error);
      case Planned(_, origin) =>
        if binding.finalizer {
          ok, ready := Serve(provider.value, hostnames, origin);
        } else {
          ok := AddFinalizer();
        }
    }

    /** This controller class is in charge of the binding, which is not being deleted. */
    predicate InCharge(b: Binding) {
      controllerClass != "" && b.spec.controller == controllerClass && !b.deleting
    }

    /** No fault, no interference, and this controller class is in charge of the binding. */
    predicate Undisturbed(u: UID)
      reads this
    {
      mode.Calm? && controllerClass != "" && u in world.bindings && world.bindings[u].spec.controller == controllerClass
    }

    /** What the copy in memory, which has just been read, calls for. */
    method Act() returns (ok: bool, plan: Plan, provider: Option<Provider>, ghost ready: bool)
      requires Bindings.Current(world, binding) && basis.cluster == world.cluster
      requires Confined(mode, start, basis.cluster, world, binding.uid)
      modifies `world, `binding, `writes, `sources
      ensures Confined(mode, start, basis.cluster, world, binding.uid)
      ensures binding.uid == old(binding).uid
      ensures old(binding).deleting ==> plan.Broken? && Lessened(old(world), world, binding.uid)
      ensures !old(binding).deleting ==> OneOfThree(old(world), world, binding.uid, plan)
      ensures old(binding).deleting && old(binding).finalizer ==> Finishing(old(world), world, binding.uid)
      ensures Grounded(plan, old(world).cluster, sources, old(binding), provider)
      ensures NewTunnel(old(world), world, binding.uid) ==> Reliable(old(world).cluster, RefOf(old(binding).spec))
      ensures old(binding).status.tunnelID != NO_ID && Refusal(ok, plan) ==>
                Silenced(world, binding.uid, old(binding).status.tunnelID)
      ensures mode.Calm? && old(Exact()) ==> Settles(old(world), world, old(binding), plan, ok, ready)
      ensures mode.Calm? && old(Exact()) && !old(binding).deleting ==>
                && plan == PlanFor(old(world).cluster, old(world).bindings, old(binding), controllerClass)
                && (AsPlanned(old(world), binding.uid, plan) ==> writes == old(writes))
      ensures !mode.Busy? && !old(binding).deleting ==>
                Plausible(mode, plan, old(world).cluster, old(world).bindings, old(binding), controllerClass)
    {
      if binding.deleting {
        plan, provider, ready := Broken, None, false;
        ok := Finalize();
      } else {
        ok, plan, provider, ready := Maintain();
        CalmPlan(plan, old(world).cluster, old(world).bindings, old(binding), controllerClass);
      }
    }

    /** A request for the binding `u`. To every other binding the pass looks like moves of the environment, and
        if nobody else moves it changes nothing that is not `u`'s. */
    method Reconcile(u: UID) returns (ok: bool, plan: Plan, provider: Option<Provider>, ghost ready: bool)
      modifies `world, `binding, `writes, `sources, `start, `basis
      ensures Confined(mode, old(world), basis.cluster, world, u) && Drifts(old(world), basis)
      ensures var o := old(world).bindings;
              && (u in o && !o[u].deleting ==> OneOfThree(old(world), world, u, plan))
              && (plan.Planned? ==> u in o) && (u in o ==> Grounded(plan, basis.cluster, sources, o[u], provider))
              && (u in o && o[u].status.tunnelID != NO_ID && Refusal(ok, plan) ==>
                    Silenced(world, u, o[u].status.tunnelID))
              && (u in o && o[u].deleting ==> Lessened(old(world), world, u))
              && (Dying(old(world), u) ==> Finishing(old(world), world, u))
              && (u in o && NewTunnel(old(world), world, u) ==> Reliable(basis.cluster, RefOf(o[u].spec)))
      ensures old(Undisturbed(u)) ==> Settles(old(world), world, old(world).bindings[u], plan, ok, ready)
      ensures old(Undisturbed(u)) && !old(world).bindings[u].deleting ==>
                && plan == old(PlanFor(world.cluster, world.bindings, world.bindings[u], controllerClass))
                && (AsPlanned(old(world), u, plan) ==> writes == old(writes))
      ensures mode.Calm? && !old(Undisturbed(u)) ==> ok && world == old(world)
      ensures !mode.Busy? && u in old(world).bindings && InCharge(old(world).bindings[u]) ==>
                Plausible(mode, plan, old(world).cluster, old(world).bindings, old(world).bindings[u], controllerClass)
    {
      plan, provider, ready := Broken, None, false;
      if u in world.bindings {
        Present(world, u);
      }
      start := world;
      var found;
      ok, found := Get(u);
      basis := world;
      if u in old(world).uids {
        ShrunkIngress(old(world), world, u);
        NoneReconfigured(old(world), world, u, plan);
      }
      if ok && found && controllerClass != "" && binding.spec.controller == controllerClass {
        ghost var deleting := binding.deleting;
        ok, plan, provider, ready := Act();
        if deleting {
          LessenedOn(old(world), basis, world, u);
        } else {
          OneOfThreeLater(old(world), basis, world, u, plan);
        }
      }
    }
  }
}
