/** The private-route reconciler. Every API call may succeed, fail, or take effect and still report
    an error, and after every call the environment may move. */
module PrivateRouteReconciliation {
  import opened Cloudflare
  import opened Kube
  import opened PrivateRoutes

  class PrivateRouteReconciler {
    const controllerClass: string
    /** How much can go wrong during a pass. */
    var mode: Mode
    var world: World
    /** The world at the start of the pass, and when it started to read providers. */
    ghost var start: World
    ghost var basis: World
    /** The copy in memory of the object being reconciled. */
    var route: RouteObject
    /** Whether the last look at the connector found enough replicas of the current rollout available. */
    ghost var rollout: bool

    // ----- Calls -----

    /** Any number of steps of the environment. */
    method Drift()
      modifies `world
      ensures !mode.Busy? ==> world == old(world)
      ensures Drifts(old(world), world)
    {
      var steps: nat := *;
      while steps > 0 && mode.Busy?
        invariant !mode.Busy? ==> world == old(world)
        invariant Inv(old(world)) ==> Drifts(old(world), world)
      {
        var e: Event := *;
        EventKeepsInv(world, e);
        EventDrifts(world, e);
        InvParts(old(world));
        DriftTransitive(old(world), world, Apply(world, e));
        world := Apply(world, e);
        steps := steps - 1;
      }
    }

    method Interfere()
      requires Confined(mode, start, basis.cluster, world, route.uid)
      modifies `world
      ensures Confined(mode, start, basis.cluster, world, route.uid)
      ensures !mode.Busy? ==> world == old(world)
      ensures Moves(old(world), world, route.uid)
    {
      Drift();
      DriftConfined(mode, start, basis.cluster, old(world), world, route.uid);
      if route.uid in old(world).uids {
        DriftShrinks(old(world), world, route.uid);
      }
    }

    /** Any read from the API server. */
    method Observe() returns (ok: bool, cluster: Cluster, objects: map<UID, RouteObject>)
      requires Confined(mode, start, basis.cluster, world, route.uid)
      modifies `world
      ensures Confined(mode, start, basis.cluster, world, route.uid)
      ensures cluster == old(world).cluster && objects == old(world).objects
      ensures mode.Calm? ==> ok
      ensures !mode.Busy? ==> world == old(world)
      ensures Moves(old(world), world, route.uid)
    {
      var o := Attempt(mode);
      ok, cluster, objects := o.Done?, world.cluster, world.objects;
      Interfere();
    }

    method GetTunnel(id: Id) returns (ok: bool, tunnel: Option<Tunnel>)
      requires Confined(mode, start, basis.cluster, world, route.uid)
      modifies `world
      ensures Confined(mode, start, basis.cluster, world, route.uid)
      ensures tunnel == Lookup(old(world).account.tunnels, id)
      ensures mode.Calm? ==> ok
      ensures !mode.Busy? ==> world == old(world)
      ensures Moves(old(world), world, route.uid)
    {
      var o := Attempt(mode);
      ok, tunnel := o.Done?, Lookup(world.account.tunnels, id);
      Interfere();
    }

    method FindTunnelByName(name: TunnelName) returns (ok: bool, tunnel: Option<Tunnel>)
      requires Confined(mode, start, basis.cluster, world, route.uid)
      modifies `world
      ensures Confined(mode, start, basis.cluster, world, route.uid)
      ensures tunnel.Some? ==>
                exists i | i in old(world).account.tunnels ::
                  old(world).account.tunnels[i] == tunnel.value && tunnel.value.name == name
      ensures tunnel.None? ==>
                forall i | i in old(world).account.tunnels :: old(world).account.tunnels[i].name != name
      ensures mode.Calm? ==> ok
      ensures !mode.Busy? ==> world == old(world)
      ensures Moves(old(world), world, route.uid)
    {
      var o := Attempt(mode);
      ok := o.Done?;
      tunnel := FindByName(world.account.tunnels, name);
      Interfere();
    }

    /** `mid` is the world right after the call, before anyone else moves. */
    method CreateTunnel(name: TunnelName) returns (tunnel: Option<Tunnel>, ghost mid: World)
      requires name == ForPrivateRoute(route.uid) && Inv(TunnelMade(world, name))
      requires Confined(mode, start, basis.cluster, world, route.uid)
      modifies `world
      ensures Confined(mode, start, basis.cluster, world, route.uid)
      ensures mid == old(world) || mid == TunnelMade(old(world), name)
      ensures tunnel.Some? ==>
                && mid == TunnelMade(old(world), name)
                && tunnel.value == Tunnel(old(world).account.next, name, Managed, [])
      ensures mode.Calm? ==> tunnel.Some?
      ensures !mode.Busy? ==> world == mid
      ensures Moves(mid, world, route.uid)
    {
      var o := Attempt(mode);
      tunnel := if o.Done? then Some(Tunnel(world.account.next, name, Managed, [])) else None;
      if !o.Failed? {
        TunnelMadeAlone(world, route.uid);
        StepConfined(mode, start, basis.cluster, world, TunnelMade(world, name), route.uid);
        world := TunnelMade(world, name);
      }
      mid := world;
      Interfere();
    }

    /** Deleting a tunnel that is gone succeeds. */
    method DeleteTunnel(id: Id) returns (ok: bool, ghost mid: World)
      requires Inv(TunnelRemoved(world, id)) && (id in world.account.tunnels ==> Named(world.account, route.uid, id))
      requires Confined(mode, start, basis.cluster, world, route.uid)
      modifies `world
      ensures Confined(mode, start, basis.cluster, world, route.uid)
      ensures mid == old(world) || mid == TunnelRemoved(old(world), id)
      ensures ok ==> mid == TunnelRemoved(old(world), id)
      ensures mode.Calm? ==> ok
      ensures !mode.Busy? ==> world == mid
      ensures Moves(mid, world, route.uid)
    {
      var o := Attempt(mode);
      ok := o.Done?;
      if !o.Failed? {
        TunnelRemovedAlone(world, route.uid, id);
        StepConfined(mode, start, basis.cluster, world, TunnelRemoved(world, id), route.uid);
        world := TunnelRemoved(world, id);
      }
      mid := world;
      Interfere();
    }

    method GetPrivateRoute(id: Id) returns (ok: bool, current: Option<PrivateRoute>)
      requires Confined(mode, start, basis.cluster, world, route.uid)
      modifies `world
      ensures Confined(mode, start, basis.cluster, world, route.uid)
      ensures current == Lookup(old(world).account.routes, id)
      ensures mode.Calm? ==> ok
      ensures !mode.Busy? ==> world == old(world)
      ensures Moves(old(world), world, route.uid)
    {
      var o := Attempt(mode);
      ok, current := o.Done?, Lookup(world.account.routes, id);
      Interfere();
    }

    /** The routes at exactly `network`, in any order. */
    method ListPrivateRoutes(network: Network) returns (ok: bool, existing: seq<PrivateRoute>)
      requires Confined(mode, start, basis.cluster, world, route.uid)
      modifies `world
      ensures Confined(mode, start, basis.cluster, world, route.uid)
      ensures forall r | r in existing ::
                r.id in old(world).account.routes && r == old(world).account.routes[r.id] && r.network == network
      ensures forall i | i in old(world).account.routes && old(world).account.routes[i].network == network ::
                old(world).account.routes[i] in existing
      ensures mode.Calm? ==> ok
      ensures !mode.Busy? ==> world == old(world)
      ensures Moves(old(world), world, route.uid)
    {
      var o := Attempt(mode);
      ok := o.Done?;
      existing := RoutesAt(world.account.routes, network);
      InvParts(world);
      Interfere();
    }

    method CreatePrivateRoute(network: Network, tunnelID: Id, comment: Comment)
      returns (created: Option<PrivateRoute>, ghost mid: World)
      requires comment == TagOf(route.uid) && Inv(RouteMade(world, network, tunnelID, comment))
      requires Confined(mode, start, basis.cluster, world, route.uid)
      modifies `world
      ensures Confined(mode, start, basis.cluster, world, route.uid)
      ensures mid == old(world) || mid == RouteMade(old(world), network, tunnelID, comment)
      ensures created.Some? ==>
                && mid == RouteMade(old(world), network, tunnelID, comment)
                && created.value == PrivateRoute(old(world).account.next, network, tunnelID, comment)
      ensures mode.Calm? ==> created.Some?
      ensures !mode.Busy? ==> world == mid
      ensures Moves(mid, world, route.uid)
    {
      var o := Attempt(mode);
      created := if o.Done? then Some(PrivateRoute(world.account.next, network, tunnelID, comment)) else None;
      if !o.Failed? {
        RouteMadeAlone(world, route.uid, network, tunnelID);
        StepConfined(mode, start, basis.cluster, world, RouteMade(world, network, tunnelID, comment), route.uid);
        world := RouteMade(world, network, tunnelID, comment);
      }
      mid := world;
      Interfere();
    }

    method DeletePrivateRoute(id: Id) returns (ok: bool, ghost mid: World)
      requires Inv(RouteRemoved(world, id)) && (id in world.account.routes ==> Tagged(world.account, route.uid, id))
      requires Confined(mode, start, basis.cluster, world, route.uid)
      modifies `world
      ensures Confined(mode, start, basis.cluster, world, route.uid)
      ensures mid == old(world) || mid == RouteRemoved(old(world), id)
      ensures ok ==> mid == RouteRemoved(old(world), id)
      ensures mode.Calm? ==> ok
      ensures !mode.Busy? ==> world == mid
      ensures Moves(mid, world, route.uid)
    {
      var o := Attempt(mode);
      ok := o.Done?;
      if !o.Failed? {
        RouteRemovedAlone(world, route.uid, id);
        StepConfined(mode, start, basis.cluster, world, RouteRemoved(world, id), route.uid);
        world := RouteRemoved(world, id);
      }
      mid := world;
      Interfere();
    }

    /** Writes the status; an accepted patch brings the copy in memory up to date. */
    method PatchStatus(s: Status) returns (ok: bool, ghost mid: World)
      requires route.uid in world.objects ==> Inv(WithStatus(world, route.uid, s))
      requires Confined(mode, start, basis.cluster, world, route.uid)
      modifies `world, `route
      ensures Confined(mode, start, basis.cluster, world, route.uid)
      ensures var u := old(route).uid;
              && (mid == old(world) || (u in old(world).objects && mid == WithStatus(old(world), u, s)))
              && route.uid == u
              && (ok ==> u in old(world).objects && mid == WithStatus(old(world), u, s) && route == mid.objects[u])
              && (!ok ==> route == old(route).(status := s))
              && (mode.Calm? ==> (ok <==> u in old(world).objects))
              && (!mode.Busy? ==> world == mid)
              && Moves(mid, world, u)
    {
      var o := Attempt(mode);
      var copy := route.(status := s);
      ok := o.Done? && route.uid in world.objects;
      if !o.Failed? && route.uid in world.objects {
        ObjectParts(world, route.uid);
        ObjectStepsAlone(world, route.uid, s);
        StepConfined(mode, start, basis.cluster, world, WithStatus(world, route.uid, s), route.uid);
        world := WithStatus(world, route.uid, s);
        if ok {
          copy := world.objects[route.uid];
        }
      }
      mid := world;
      Interfere();
      route := copy;
    }

    // ----- Remote route and tunnel -----

    /** Deletes a remote route that was issued for the object. */
    method DeleteIssued(id: Id) returns (ok: bool)
      requires Holds(world, route)
      requires id in world.account.comments && world.account.comments[id] == TagOf(route.uid)
      requires Confined(mode, start, basis.cluster, world, route.uid)
      modifies `world
      ensures Confined(mode, start, basis.cluster, world, route.uid)
      ensures Shrunk(old(world), world, route.uid)
      ensures ok ==> Holds(world, route) && !Tagged(world.account, route.uid, id)
      ensures mode.Calm? ==> ok && Pruned(old(world), world)
    {
      RouteRemovedKeepsInv(world, route.uid, id);
      RouteRemovedShrinks(world, route.uid, id);
      ghost var mid;
      ok, mid := DeletePrivateRoute(id);
      if ok {
        ShrunkOn(old(world), mid, world, route.uid);
      }
    }

    /** Afterwards nothing carries the tag of the object. */
    method DeleteRoute() returns (ok: bool)
      requires Holds(world, route)
      requires Confined(mode, start, basis.cluster, world, route.uid)
      modifies `world
      ensures Confined(mode, start, basis.cluster, world, route.uid)
      ensures Shrunk(old(world), world, route.uid)
      ensures ok ==> Holds(world, route) && NoneTagged(world.account, route.uid)
      ensures mode.Calm? ==> ok && Pruned(old(world), world)
    {
      if route.status.routeID == NO_ID {
        ok := DeleteListed();
      } else {
        ok := DeleteRecorded();
      }
    }

    method DeleteListed() returns (ok: bool)
      requires Holds(world, route)
      requires Confined(mode, start, basis.cluster, world, route.uid)
      modifies `world
      ensures Confined(mode, start, basis.cluster, world, route.uid)
      ensures Shrunk(old(world), world, route.uid)
      ensures ok ==> Holds(world, route) && NoneTagged(world.account, route.uid)
      ensures mode.Calm? ==> ok && Pruned(old(world), world)
    {
      OnRecord(world, route);
      var existing;
      ok, existing := ListPrivateRoutes(route.status.network);
      if ok {
        ok := DeleteEach(existing);
      }
    }

    method DeleteEach(existing: seq<PrivateRoute>) returns (ok: bool)
      requires Holds(world, route) && (forall k | 0 <= k < |existing| :: Seen(world.account, route, existing[k]))
      requires Confined(mode, start, basis.cluster, world, route.uid)
      modifies `world
      ensures Confined(mode, start, basis.cluster, world, route.uid)
      ensures Shrunk(old(world), world, route.uid)
      ensures ok ==> Holds(world, route)
      ensures ok ==> forall k | 0 <= k < |existing| :: !Tagged(world.account, route.uid, existing[k].id)
      ensures mode.Calm? ==> ok && Pruned(old(world), world)
    {
      ok := true;
      for i := 0 to |existing|
        invariant Confined(mode, start, basis.cluster, world, route.uid)
        invariant Shrunk(old(world), world, route.uid)
        invariant ok && Holds(world, route)
        invariant forall k | 0 <= k < i :: !Tagged(world.account, route.uid, existing[k].id)
        invariant mode.Calm? ==> Pruned(old(world), world)
      {
        ok := DeleteIfOwned(existing[i]);
        if !ok {
          return;
        }
      }
    }

    method DeleteIfOwned(current: PrivateRoute) returns (ok: bool)
      requires Holds(world, route) && Seen(world.account, route, current)
      requires Confined(mode, start, basis.cluster, world, route.uid)
      modifies `world
      ensures Confined(mode, start, basis.cluster, world, route.uid)
      ensures Shrunk(old(world), world, route.uid)
      ensures ok ==> Holds(world, route) && !Tagged(world.account, route.uid, current.id)
      ensures mode.Calm? ==> ok && Pruned(old(world), world)
    {
      OnRecord(world, route);
      ok := true;
      if current.network == route.status.network && Owned(current, route) {
        ok := DeleteIssued(current.id);
      }
    }

    method DeleteRecorded() returns (ok: bool)
      requires Holds(world, route) && route.status.routeID != NO_ID
      requires Confined(mode, start, basis.cluster, world, route.uid)
      modifies `world
      ensures Confined(mode, start, basis.cluster, world, route.uid)
      ensures Shrunk(old(world), world, route.uid)
      ensures ok ==> Holds(world, route) && NoneTagged(world.account, route.uid)
      ensures mode.Calm? ==> ok && Pruned(old(world), world)
    {
      OnRecord(world, route);
      var current;
      ok, current := GetPrivateRoute(route.status.routeID);
      if ok && current.Some? {
        ok := DeleteMatching(current.value);
      }
    }

    /** Refuses a route that is not what the record says. */
    method DeleteMatching(current: PrivateRoute) returns (ok: bool)
      requires Holds(world, route)
      requires current.id in world.account.comments && world.account.comments[current.id] == TagOf(route.uid)
      requires Confined(mode, start, basis.cluster, world, route.uid)
      modifies `world
      ensures Confined(mode, start, basis.cluster, world, route.uid)
      ensures Shrunk(old(world), world, route.uid)
      ensures !Owned(current, route) || current.network != route.status.network ==> !ok && world == old(world)
      ensures ok ==> Holds(world, route) && !Tagged(world.account, route.uid, current.id)
      ensures mode.Calm? && Owned(current, route) && current.network == route.status.network ==>
                ok && Pruned(old(world), world)
    {
      if !Owned(current, route) || current.network != route.status.network {
        return false;
      }
      ok := DeleteIssued(current.id);
    }

    /** The tunnel on record, if any, is live. */
    ghost predicate NoneLost()
      reads `world, `route
    {
      route.status.tunnelID == NO_ID || route.status.tunnelID in world.account.tunnels
    }

    /** Afterwards the recorded tunnel is the object's own. */
    method EnsureTunnel(name: TunnelName) returns (tunnel: Option<Tunnel>)
      requires Holds(world, route) && name == ForPrivateRoute(route.uid)
      requires route.status.tunnelID !in world.dropped && route.uid in world.trusting
      requires Confined(mode, start, basis.cluster, world, route.uid)
      modifies `world, `route
      ensures Confined(mode, start, basis.cluster, world, route.uid)
      ensures route.uid == old(route).uid && world.dropped == old(world).dropped
      ensures tunnel.Some? ==>
                && Holds(world, route)
                && route.status.tunnelID == tunnel.value.id != NO_ID && route.status.tunnelID !in world.dropped
      ensures mode.Calm? ==>
                && tunnel.Some? && tunnel.value.id in world.account.tunnels
                && RoutesFrom(old(world).account, world.account)
      ensures mode.Calm? ==> world.children == old(world).children
      ensures old(NoneLost()) ==> Keeps(mode, old(world), world)
      ensures !mode.Busy? && old(NoneLost()) && tunnel.Some? ==>
                route.status.network == old(route).status.network
    {
      var ok;
      ok, tunnel := RecordedTunnel();
      if ok && tunnel.None? {
        tunnel := FindOrCreate(name);
      }
      if !ok || tunnel.None? || tunnel.value.name != name || tunnel.value.configSource != Managed {
        return None;
      }
      ok := Adopt(tunnel.value);
      if !ok {
        return None;
      }
    }

    /** The tunnel on record. One that was deleted remotely is forgotten, and its route with it. */
    method RecordedTunnel() returns (ok: bool, tunnel: Option<Tunnel>)
      requires Holds(world, route) && route.status.tunnelID !in world.dropped
      requires Confined(mode, start, basis.cluster, world, route.uid)
      modifies `world, `route
      ensures Confined(mode, start, basis.cluster, world, route.uid)
      ensures route.uid == old(route).uid && world.dropped == old(world).dropped
      ensures ok ==> Holds(world, route) && (tunnel.None? ==> route.status.tunnelID == NO_ID)
      ensures ok && tunnel.Some? ==>
                route.status.tunnelID == tunnel.value.id && Usable(world, route.uid, tunnel.value.id)
      ensures old(route).uid in old(world).trusting ==> route.uid in world.trusting
      ensures mode.Calm? ==>
                && ok && OnlyRoutesLost(old(world).account, world.account)
                && (tunnel.Some? ==> AsIssued(tunnel.value, route.uid) && tunnel.value.id in world.account.tunnels)
      ensures mode.Calm? ==> world.children == old(world).children
      ensures old(NoneLost()) ==> Keeps(mode, old(world), world)
      ensures !mode.Busy? && old(NoneLost()) ==>
                route == old(route) && (ok ==> (tunnel.Some? <==> route.status.tunnelID != NO_ID))
    {
      OnRecord(world, route);
      ok, tunnel := true, None;
      if route.status.tunnelID != NO_ID {
        assert Named(world.account, route.uid, route.status.tunnelID)
          <==> route.status.tunnelID in world.account.tunnels;
        ok, tunnel := GetTunnel(route.status.tunnelID);
        OnRecord(world, route);
        if ok && tunnel.None? {
          ok := ForgetLostTunnel();
        }
      }
    }

    /** The route on a remotely deleted tunnel is gone before the tunnel is forgotten. */
    method ForgetLostTunnel() returns (ok: bool)
      requires Holds(world, route)
      requires Confined(mode, start, basis.cluster, world, route.uid)
      modifies `world, `route
      ensures Confined(mode, start, basis.cluster, world, route.uid)
      ensures route.uid == old(route).uid && world.dropped == old(world).dropped
      ensures ok ==> Holds(world, route) && route.status.tunnelID == NO_ID
      ensures old(route).uid in old(world).trusting ==> route.uid in world.trusting
      ensures mode.Calm? ==> ok && OnlyRoutesLost(old(world).account, world.account)
      ensures mode.Calm? ==> world.children == old(world).children
    {
      if route.status.network != None {
        ok := DeleteRoute();
        if !ok {
          return;
        }
      }
      OnRecord(world, route);
      ForgettingKeepsInv(world, route);
      ghost var mid;
      ok, mid := PatchStatus(WithoutTunnel(route.status));
    }

    method FindOrCreate(name: TunnelName) returns (tunnel: Option<Tunnel>)
      requires Holds(world, route) && name == ForPrivateRoute(route.uid) && route.status.tunnelID == NO_ID
      requires Confined(mode, start, basis.cluster, world, route.uid)
      modifies `world
      ensures Confined(mode, start, basis.cluster, world, route.uid)
      ensures world.dropped == old(world).dropped
      ensures tunnel.Some? ==> Holds(world, route) && Usable(world, route.uid, tunnel.value.id)
      ensures old(route).uid in old(world).trusting ==> route.uid in world.trusting
      ensures mode.Calm? ==>
                && tunnel.Some? && AsIssued(tunnel.value, route.uid)
                && tunnel.value.id in world.account.tunnels && RoutesFrom(old(world).account, world.account)
      ensures mode.Calm? ==> world.children == old(world).children
      ensures Keeps(mode, old(world), world)
    {
      var ok;
      ok, tunnel := FindIssued(name);
      if !ok {
        return None;
      }
      if tunnel.None? {
        tunnel := Create(name);
      }
    }

    method FindIssued(name: TunnelName) returns (ok: bool, tunnel: Option<Tunnel>)
      requires Holds(world, route) && name == ForPrivateRoute(route.uid) && route.status.tunnelID == NO_ID
      requires Confined(mode, start, basis.cluster, world, route.uid)
      modifies `world
      ensures Confined(mode, start, basis.cluster, world, route.uid)
      ensures Holds(world, route) && world.dropped == old(world).dropped
      ensures tunnel.Some? ==> Usable(world, route.uid, tunnel.value.id)
      ensures tunnel.None? ==> forall i :: !Named(world.account, route.uid, i)
      ensures old(route).uid in old(world).trusting ==> route.uid in world.trusting
      ensures mode.Calm? ==>
                && ok
                && (tunnel.Some? ==> AsIssued(tunnel.value, route.uid) && tunnel.value.id in world.account.tunnels)
      ensures !mode.Busy? ==> world == old(world)
    {
      OnRecord(world, route);
      InvParts(world);
      ok, tunnel := FindTunnelByName(name);
      if tunnel.Some? {
        assert Named(old(world).account, route.uid, tunnel.value.id);
      } else {
        assert forall i :: !Named(old(world).account, route.uid, i);
      }
    }

    method Create(name: TunnelName) returns (tunnel: Option<Tunnel>)
      requires Holds(world, route) && name == ForPrivateRoute(route.uid) && route.status.tunnelID == NO_ID
      requires forall i :: !Named(world.account, route.uid, i)
      requires Confined(mode, start, basis.cluster, world, route.uid)
      modifies `world
      ensures Confined(mode, start, basis.cluster, world, route.uid)
      ensures Holds(world, route) && world.dropped == old(world).dropped
      ensures tunnel.Some? ==> Usable(world, route.uid, tunnel.value.id)
      ensures old(route).uid in old(world).trusting ==> route.uid in world.trusting
      ensures mode.Calm? ==>
                && tunnel.Some? && AsIssued(tunnel.value, route.uid)
                && tunnel.value.id in world.account.tunnels && RoutesFrom(old(world).account, world.account)
      ensures mode.Calm? ==> world.children == old(world).children
      ensures Keeps(mode, old(world), world)
    {
      InvParts(world);
      TunnelMadeKeepsInv(world, route.uid);
      MadeUsable(world, route.uid);
      ghost var mid;
      tunnel, mid := CreateTunnel(name);
    }


    method Adopt(tunnel: Tunnel) returns (ok: bool)
      requires Holds(world, route) && tunnel.name == ForPrivateRoute(route.uid) && Usable(world, route.uid, tunnel.id)
      requires route.status.tunnelID in {NO_ID, tunnel.id} && route.uid in world.trusting
      requires Confined(mode, start, basis.cluster, world, route.uid)
      modifies `world, `route
      ensures Confined(mode, start, basis.cluster, world, route.uid)
      ensures route.uid == old(route).uid && world.dropped == old(world).dropped
      ensures ok ==> Holds(world, route) && route.status.tunnelID == tunnel.id
      ensures mode.Calm? ==> ok && world.account == old(world).account
      ensures mode.Calm? ==> world.children == old(world).children
      ensures Keeps(mode, old(world), world)
      ensures ok ==> route.status.network == old(route).status.network
    {
      AdoptionKeepsInv(world, route, tunnel.id);
      ghost var mid;
      ok, mid := PatchStatus(route.status.(tunnelID := tunnel.id, tunnelName := tunnel.name));
    }

    /** Afterwards the object's route is at `network` on `tunnel`, and is on record. */
    method EnsureRoute(tunnel: Tunnel, network: Network) returns (ok: bool)
      requires Holds(world, route) && network.Some? && route.status.network in {None, network}
      requires route.status.tunnelID == tunnel.id != NO_ID && tunnel.id !in world.dropped
      requires Confined(mode, start, basis.cluster, world, route.uid)
      modifies `world, `route
      ensures Confined(mode, start, basis.cluster, world, route.uid)
      ensures route.uid == old(route).uid && world.dropped == old(world).dropped
      ensures ok ==>
                && Holds(world, route) && route.status.routeID != NO_ID
                && route.status.tunnelID == old(route).status.tunnelID
      ensures mode.Calm? && Unopposed(old(world).account, route.uid, network) ==>
                ok && Settled(world, route.uid, network) && world.account.tunnels == old(world).account.tunnels
      ensures mode.Calm? ==> world.children == old(world).children
      ensures Keeps(mode, old(world), world)
      ensures mode.Calm? && Foreign(old(world).account, route.uid, network) ==> !ok
    {
      if route.status.routeID != NO_ID {
        var found;
        ok, found := CheckRecordedRoute(tunnel, network);
        if !ok || found {
          return;
        }
      }
      ok := AdoptOrCreateRoute(tunnel, network);
    }

    /** Forgets a recorded route that is gone; one that is there must be the object's own. */
    method CheckRecordedRoute(tunnel: Tunnel, network: Network) returns (ok: bool, found: bool)
      requires Holds(world, route) && network.Some? && route.status.network in {None, network}
      requires route.status.tunnelID == tunnel.id != NO_ID && route.status.routeID != NO_ID
      requires Confined(mode, start, basis.cluster, world, route.uid)
      modifies `world, `route
      ensures Confined(mode, start, basis.cluster, world, route.uid)
      ensures route.uid == old(route).uid && world.dropped == old(world).dropped
      ensures ok ==>
                && Holds(world, route)
                && route.status.network in {None, network} && route.status.tunnelID == tunnel.id
      ensures ok ==> (found <==> route.status.routeID != NO_ID)
      ensures ok && found ==> Matches(old(world).account, old(route), old(route).status.routeID, network, tunnel.id)
      ensures mode.Calm? ==> ok && (found ==> Settled(world, route.uid, network)) && world.account == old(world).account
      ensures mode.Calm? ==> world.children == old(world).children
      ensures Keeps(mode, old(world), world)
    {
      OnRecord(world, route);
      var current;
      ok, current := GetPrivateRoute(route.status.routeID);
      found := current.Some?;
      if ok && found {
        ok := Owned(current.value, route) && current.value.network == network && current.value.tunnelID == tunnel.id;
      } else if ok {
        LostRouteKeepsInv(world, route);
        ghost var mid;
        ok, mid := PatchStatus(WithoutRoute(route.status));
      }
    }

    method AdoptOrCreateRoute(tunnel: Tunnel, network: Network) returns (ok: bool)
      requires Holds(world, route) && network.Some? && route.status.network in {None, network}
      requires route.status.tunnelID == tunnel.id != NO_ID && tunnel.id !in world.dropped
      requires route.status.routeID == NO_ID
      requires Confined(mode, start, basis.cluster, world, route.uid)
      modifies `world, `route
      ensures Confined(mode, start, basis.cluster, world, route.uid)
      ensures route.uid == old(route).uid && world.dropped == old(world).dropped
      ensures ok ==>
                && Holds(world, route) && route.status.routeID != NO_ID
                && route.status.tunnelID == old(route).status.tunnelID
      ensures mode.Calm? && Unopposed(old(world).account, route.uid, network) ==>
                ok && Settled(world, route.uid, network) && world.account.tunnels == old(world).account.tunnels
      ensures mode.Calm? && Foreign(old(world).account, route.uid, network) ==> !ok && world == old(world)
      ensures mode.Calm? ==> world.children == old(world).children
      ensures Keeps(mode, old(world), world)
    {
      OnRecord(world, route);
      var existing;
      ok, existing := ListPrivateRoutes(network);
      if !ok {
        return;
      }
      for i := 0 to |existing|
        invariant i == 0
      {
        var current := existing[i];
        if current.network != network {
          continue;
        }
        if Owned(current, route) && current.tunnelID == tunnel.id {
          assert Tagged(old(world).account, route.uid, current.id);
          ok := RecordRoute(current.id, network);
          return;
        }
        return false;
      }
      ok := PersistAndCreate(tunnel, network);
    }

    /** The network is on record before the route is made, so that a lost response can be recovered from. */
    method PersistAndCreate(tunnel: Tunnel, network: Network) returns (ok: bool)
      requires Holds(world, route) && NoneTagged(world.account, route.uid)
      requires network.Some? && route.status.network in {None, network}
      requires route.status.tunnelID == tunnel.id != NO_ID && tunnel.id !in world.dropped
      requires route.status.routeID == NO_ID
      requires Confined(mode, start, basis.cluster, world, route.uid)
      modifies `world, `route
      ensures Confined(mode, start, basis.cluster, world, route.uid)
      ensures route.uid == old(route).uid && world.dropped == old(world).dropped
      ensures ok ==>
                && Holds(world, route) && route.status.routeID != NO_ID
                && route.status.tunnelID == old(route).status.tunnelID
      ensures mode.Calm? ==>
                ok && Settled(world, route.uid, network) && world.account.tunnels == old(world).account.tunnels
      ensures mode.Calm? ==> world.children == old(world).children
      ensures Keeps(mode, old(world), world)
    {
      if route.status.network != network {
        PlanningKeepsInv(world, route, network);
        ghost var mid;
        ok, mid := PatchStatus(route.status.(network := network));
        if !ok {
          return;
        }
      }
      ok := CreateRoute(tunnel, network);
    }

    method CreateRoute(tunnel: Tunnel, network: Network) returns (ok: bool)
      requires Holds(world, route) && NoneTagged(world.account, route.uid)
      requires network.Some? && route.status.network == network
      requires route.status.tunnelID == tunnel.id != NO_ID && tunnel.id !in world.dropped
      requires route.status.routeID == NO_ID
      requires Confined(mode, start, basis.cluster, world, route.uid)
      modifies `world, `route
      ensures Confined(mode, start, basis.cluster, world, route.uid)
      ensures route.uid == old(route).uid && world.dropped == old(world).dropped
      ensures ok ==>
                && Holds(world, route) && route.status.routeID != NO_ID
                && route.status.tunnelID == old(route).status.tunnelID
      ensures mode.Calm? ==>
                ok && Settled(world, route.uid, network) && world.account.tunnels == old(world).account.tunnels
      ensures mode.Calm? ==> world.children == old(world).children
      ensures Keeps(mode, old(world), world)
    {
      InvParts(world);
      RouteMadeKeepsInv(world, route.uid);
      ghost var mid;
      var created;
      created, mid := CreatePrivateRoute(network, tunnel.id, TagOf(route.uid));
      if created.None? || !Owned(created.value, route) || created.value.network != network ||
        created.value.tunnelID != tunnel.id {
        return false;
      }
      ok := RecordRoute(created.value.id, network);
    }

    method RecordRoute(id: Id, network: Network) returns (ok: bool)
      requires Holds(world, route) && network.Some? && route.status.tunnelID != NO_ID
      requires id in world.account.comments && world.account.comments[id] == TagOf(route.uid)
      requires forall i | Tagged(world.account, route.uid, i) :: i == id && world.account.routes[i].network == network
      requires Confined(mode, start, basis.cluster, world, route.uid)
      modifies `world, `route
      ensures Confined(mode, start, basis.cluster, world, route.uid)
      ensures route.uid == old(route).uid && world.dropped == old(world).dropped
      ensures ok ==>
                && Holds(world, route) && route.status.routeID != NO_ID
                && route.status.tunnelID == old(route).status.tunnelID
      ensures mode.Calm? ==>
                && ok && world.account == old(world).account
                && (Tagged(world.account, route.uid, id) ==> Settled(world, route.uid, network))
      ensures mode.Calm? ==> world.children == old(world).children
      ensures Keeps(mode, old(world), world)
    {
      OnRecord(world, route);
      RecordingKeepsInv(world, route, id, network);
      ghost var mid;
      ok, mid := PatchStatus(route.status.(routeID := id, network := network));
    }

    // ----- Provider access -----

    /** Reads the API token of the provider. */
    method OpenAPI(provider: Provider) returns (ok: bool)
      requires Confined(mode, start, basis.cluster, world, route.uid)
      modifies `world
      ensures Confined(mode, start, basis.cluster, world, route.uid)
      ensures !mode.Busy? ==> world == old(world)
      ensures mode.Calm? ==> (ok <==> provider.tokenSecret in old(world).cluster.tokens)
      ensures Moves(old(world), world, route.uid)
    {
      var cluster, objects;
      ok, cluster, objects := Observe();
      ok := ok && provider.tokenSecret in cluster.tokens;
    }

    /** Reads the provider again, refuses one of another class, and reads its API token. */
    method OpenProvider() returns (ok: bool)
      requires Confined(mode, start, basis.cluster, world, route.uid)
      modifies `world
      ensures Confined(mode, start, basis.cluster, world, route.uid)
      ensures !mode.Busy? ==> world == old(world)
      ensures mode.Calm? ==> (ok <==> Reachable(old(world).cluster, RefOf(route.spec)))
      ensures Moves(old(world), world, route.uid)
    {
      var cluster, objects;
      ok, cluster, objects := Observe();
      if !ok || route.spec.provider !in cluster.providers {
        return false;
      }
      var provider := cluster.providers[route.spec.provider];
      if provider.controller != route.spec.controller {
        return false;
      }
      ok := OpenAPI(provider);
    }

    /** Afterwards no remote route carries the tag of the object, and none is on record. */
    method RemoveRoute() returns (ok: bool)
      requires Holds(world, route)
      requires Confined(mode, start, basis.cluster, world, route.uid)
      modifies `world, `route
      ensures Confined(mode, start, basis.cluster, world, route.uid)
      ensures route.uid == old(route).uid && Shrunk(old(world), world, route.uid)
      ensures ok ==>
                && Holds(world, route) && NoneTagged(world.account, route.uid)
                && route.status.tunnelID == old(route).status.tunnelID
                && (old(route).deleting ==> route.deleting)
      ensures mode.Calm? ==>
                && ok == Reachable(old(world).cluster, RefOf(old(route).spec))
                && world.cluster == old(world).cluster && world.children == old(world).children
                && OnlyRoutesLost(old(world).account, world.account)
                && (old(Exact()) && ok ==> Exact() && route.spec == old(route).spec)
    {
      ok := OpenProvider();
      if ok {
        ghost var mid := world;
        ok := DeleteAndClear();
        ShrunkOn(old(world), mid, world, route.uid);
      }
    }

    method DeleteAndClear() returns (ok: bool)
      requires Holds(world, route)
      requires Confined(mode, start, basis.cluster, world, route.uid)
      modifies `world, `route
      ensures Confined(mode, start, basis.cluster, world, route.uid)
      ensures route.uid == old(route).uid && Shrunk(old(world), world, route.uid)
      ensures ok ==>
                && Holds(world, route) && NoneTagged(world.account, route.uid)
                && route.status.tunnelID == old(route).status.tunnelID
                && (old(route).deleting ==> route.deleting)
      ensures mode.Calm? ==>
                && ok && world.cluster == old(world).cluster && world.children == old(world).children
                && OnlyRoutesLost(old(world).account, world.account)
                && (old(Exact()) ==> Exact() && route.spec == old(route).spec)
    {
      ok := DeleteRoute();
      if ok {
        ghost var mid := world;
        ok := ClearRoute();
        ShrunkOn(old(world), mid, world, route.uid);
      }
    }

    method ClearRoute() returns (ok: bool)
      requires Holds(world, route) && NoneTagged(world.account, route.uid)
      requires Confined(mode, start, basis.cluster, world, route.uid)
      modifies `world, `route
      ensures Confined(mode, start, basis.cluster, world, route.uid)
      ensures route.uid == old(route).uid && world.dropped == old(world).dropped
      ensures Shrunk(old(world), world, route.uid)
      ensures ok ==>
                && Holds(world, route) && route.status.tunnelID == old(route).status.tunnelID
                && (old(route).deleting ==> route.deleting)
                && route.status.network == None
      ensures mode.Calm? ==>
                && ok && world.account == old(world).account
                && world.cluster == old(world).cluster && world.children == old(world).children
                && (old(Exact()) ==> Exact() && route.spec == old(route).spec)
    {
      ForgettingKeepsInv(world, route);
      ghost var mid;
      ok, mid := PatchStatus(WithoutRoute(route.status));
    }

    /** The copy in memory is the persisted object. */
    ghost predicate Exact()
      reads `world, `route
    {
      route.uid in world.objects && world.objects[route.uid] == route
    }

    // ----- Connector -----

    /** One `CreateOrPatch` of a child: refuses a child that is there without the object's label. */
    method WriteChild(kind: ChildKind) returns (ok: bool)
      requires Holds(world, route)
      requires Confined(mode, start, basis.cluster, world, route.uid)
      modifies `world
      ensures Confined(mode, start, basis.cluster, world, route.uid)
      ensures Holds(world, route) && world.dropped == old(world).dropped
      ensures mode.Calm? ==>
                && world.account == old(world).account && world.objects == old(world).objects
                && (ok <==> MayRemove(old(world), route.uid, kind))
                && (ok ==> world.children == old(world).children[ChildKey(kind, Prefix(route.uid)) := route.uid])
      ensures Keeps(mode, old(world), world)
    {
      var k := ChildKey(kind, Prefix(route.uid));
      var o := Attempt(mode);
      ok := o.Done?;
      if k in world.children && world.children[k] != route.uid {
        ok := false;
      } else if !o.Failed? {
        ChildStepsKeepInv(world, route.uid, k);
        ChildStepsAlone(world, route.uid, k);
        StepConfined(mode, start, basis.cluster, world, ChildWritten(world, route.uid, k), route.uid);
        world := ChildWritten(world, route.uid, k);
      }
      Interfere();
    }

    method EnsureConnector() returns (ok: bool, ready: bool)
      requires Holds(world, route)
      requires Confined(mode, start, basis.cluster, world, route.uid)
      modifies `world, `route, `rollout
      ensures Confined(mode, start, basis.cluster, world, route.uid)
      ensures route.uid == old(route).uid && world.dropped == old(world).dropped
      ensures ok ==> Holds(world, route)
      ensures mode.Calm? ==> world.account == old(world).account && KeepsRecord(old(world), world, route.uid)
      ensures mode.Calm? && ok ==> HasConnector(world, route.uid)
      ensures mode.Calm? ==> (ok <==> MayWrite(old(world), route.uid))
      ensures Keeps(mode, old(world), world)
      ensures ready == rollout
      ensures mode.Calm? && ok ==> Exact()
    {
      // Whether enough replicas of the current rollout are available is up to the cluster.
      ready := *;
      rollout := ready;
      ok := WriteChild(Secret);
      if ok {
        ok := WriteChild(Deployment);
      }
      if ok {
        ok := RecordChildren();
      }
    }

    /** Puts the names of the children on record. */
    method RecordChildren() returns (ok: bool)
      requires Holds(world, route)
      requires Confined(mode, start, basis.cluster, world, route.uid)
      modifies `world, `route
      ensures Confined(mode, start, basis.cluster, world, route.uid)
      ensures route.uid == old(route).uid && world.dropped == old(world).dropped
      ensures ok ==> Holds(world, route)
      ensures mode.Calm? ==> world.account == old(world).account && KeepsRecord(old(world), world, route.uid)
      ensures mode.Calm? ==> world.children == old(world).children
      ensures mode.Calm? ==> ok
      ensures Keeps(mode, old(world), world)
      ensures mode.Calm? ==> Exact()
    {
      ConditionsKeepInv(world, route, route.status.conditions);
      ghost var mid;
      ok, mid := PatchStatus(route.status);
    }

    /** One read and removal of a child: refuses a child without the object's label. */
    method RemoveChild(kind: ChildKind) returns (ok: bool)
      requires Holds(world, route)
      requires Confined(mode, start, basis.cluster, world, route.uid)
      modifies `world
      ensures Confined(mode, start, basis.cluster, world, route.uid)
      ensures Holds(world, route) && Shrunk(old(world), world, route.uid)
      ensures ok ==> !Owns(world, route.uid, ChildKey(kind, Prefix(route.uid)))
      ensures mode.Calm? ==>
                && world.account == old(world).account && world.objects == old(world).objects
                && world.cluster == old(world).cluster
                && (ok <==> MayRemove(old(world), route.uid, kind))
                && (forall k | k in world.children ::
                      k in old(world).children && world.children[k] == old(world).children[k])
                && (forall k | k in old(world).children && k != ChildKey(kind, Prefix(route.uid)) ::
                      k in world.children)
      ensures !mode.Busy? ==> world.account == old(world).account
    {
      var k := ChildKey(kind, Prefix(route.uid));
      var o := Attempt(mode);
      ok := o.Done?;
      if k in world.children {
        if world.children[k] != route.uid {
          ok := false;
        } else if !o.Failed? {
          ChildStepsKeepInv(world, route.uid, k);
          ChildStepsAlone(world, route.uid, k);
          StepConfined(mode, start, basis.cluster, world, ChildRemoved(world, k), route.uid);
          world := ChildRemoved(world, k);
        }
      }
      Interfere();
    }

    // ----- Finalization -----

    /** Deletes the recorded tunnel, once the route on it is gone. */
    method RemoveTunnel() returns (ok: bool)
      requires Holds(world, route) && route.deleting && NoneTagged(world.account, route.uid)
      requires route.status.tunnelID != NO_ID
      requires Confined(mode, start, basis.cluster, world, route.uid)
      modifies `world
      ensures Confined(mode, start, basis.cluster, world, route.uid)
      ensures Lessened(old(world), world, route.uid) && Remains(old(world), world, route.uid)
      ensures ok ==> Holds(world, route) && route.status.tunnelID !in world.account.tunnels
      ensures mode.Calm? ==>
                && ok == Reachable(old(world).cluster, RefOf(route.spec)) && world.objects == old(world).objects
                && (ok ==> world.account.tunnels == old(world).account.tunnels - {route.status.tunnelID})
    {
      ok := OpenProvider();
      if ok {
        ghost var mid := world;
        ok := DeleteRecordedTunnel();
      }
    }

    method DeleteRecordedTunnel() returns (ok: bool)
      requires Holds(world, route) && route.deleting && NoneTagged(world.account, route.uid)
      requires route.status.tunnelID != NO_ID
      requires Confined(mode, start, basis.cluster, world, route.uid)
      modifies `world
      ensures Confined(mode, start, basis.cluster, world, route.uid)
      ensures Lessened(old(world), world, route.uid) && Remains(old(world), world, route.uid)
      ensures ok ==> Holds(world, route) && route.status.tunnelID !in world.account.tunnels
      ensures mode.Calm? ==>
                && ok && world.objects == old(world).objects
                && world.account.tunnels == old(world).account.tunnels - {route.status.tunnelID}
    {
      OnRecord(world, route);
      var tunnel;
      ok, tunnel := GetTunnel(route.status.tunnelID);
      if ok && tunnel.Some? {
        ok := DeleteOwnTunnel(tunnel.value);
      } else if ok {
        TunnelStaysAway(old(world), world, route.uid, route.status.tunnelID);
      }
    }

    /** Refuses a tunnel that is not what the record says. */
    method DeleteOwnTunnel(tunnel: Tunnel) returns (ok: bool)
      requires Holds(world, route) && route.deleting && NoneTagged(world.account, route.uid)
      requires tunnel.id in world.account.names && world.account.names[tunnel.id] == ForPrivateRoute(route.uid)
      requires Confined(mode, start, basis.cluster, world, route.uid)
      modifies `world
      ensures Confined(mode, start, basis.cluster, world, route.uid)
      ensures Lessened(old(world), world, route.uid) && Remains(old(world), world, route.uid)
      ensures ok ==> Holds(world, route) && tunnel.id !in world.account.tunnels
      ensures !AsRecorded(tunnel, route.status) ==> !ok && world == old(world)
      ensures mode.Calm? && AsRecorded(tunnel, route.status) ==>
                && ok && world.objects == old(world).objects
                && world.account.tunnels == old(world).account.tunnels - {tunnel.id}
    {
      if !AsRecorded(tunnel, route.status) {
        return false;
      }
      ok := DeleteIssuedTunnel(tunnel.id);
    }

    /** Deletes a tunnel that was issued for the object. */
    method DeleteIssuedTunnel(id: Id) returns (ok: bool)
      requires Holds(world, route) && route.deleting && NoneTagged(world.account, route.uid)
      requires id in world.account.names && world.account.names[id] == ForPrivateRoute(route.uid)
      requires Confined(mode, start, basis.cluster, world, route.uid)
      modifies `world
      ensures Confined(mode, start, basis.cluster, world, route.uid)
      ensures Lessened(old(world), world, route.uid) && Remains(old(world), world, route.uid)
      ensures ok ==> Holds(world, route) && id !in world.account.tunnels
      ensures mode.Calm? ==>
                && ok && world.objects == old(world).objects
                && world.account.tunnels == old(world).account.tunnels - {id}
    {
      IssuedNamed(world, route.uid, id);
      TunnelRemovedKeepsInv(world, route.uid, id);
      TunnelRemovedLessens(world, route.uid, id);
      ghost var mid;
      ok, mid := DeleteTunnel(id);
      if ok {
        TunnelStaysAway(mid, world, route.uid, id);
      }
    }


    /** The update that removes the finalizer; it is refused unless the copy in memory is current. */
    method Release() returns (ok: bool)
      requires Holds(world, route) && route.deleting && Discharged(world, route)
      requires Confined(mode, start, basis.cluster, world, route.uid)
      modifies `world
      ensures Confined(mode, start, basis.cluster, world, route.uid)
      ensures Lessened(old(world), world, route.uid)
      ensures ok ==> route.uid !in world.objects
      ensures Finishing(old(world), world, route.uid)
      ensures mode.Calm? && route.uid !in world.objects ==> Discharged(world, route)
      ensures mode.Calm? ==>
                && world.account == old(world).account
                && (ok <==> old(world).objects[route.uid].version == route.version)
      ensures !mode.Busy? ==> world.account == old(world).account
    {
      var o := Attempt(mode);
      ok := o.Done? && world.objects[route.uid].version == route.version;
      if !o.Failed? && world.objects[route.uid].version == route.version {
        ObjectParts(world, route.uid);
        DischargedAlike(world, route, world.objects[route.uid]);
        ReleaseKeepsInv(world, route.uid);
        ObjectStepsAlone(world, route.uid, route.status);
        StepConfined(mode, start, basis.cluster, world, Released(world, route.uid), route.uid);
        world := Released(world, route.uid);
      }
      Interfere();
    }

    method RemoveChildren() returns (ok: bool)
      requires Holds(world, route)
      requires Confined(mode, start, basis.cluster, world, route.uid)
      modifies `world
      ensures Confined(mode, start, basis.cluster, world, route.uid)
      ensures Holds(world, route) && Shrunk(old(world), world, route.uid)
      ensures ok ==> forall k :: !Owns(world, route.uid, k)
      ensures mode.Calm? ==>
                && world.account == old(world).account && world.objects == old(world).objects
                && world.cluster == old(world).cluster
                && (ok <==> MayRemove(old(world), route.uid, Deployment) && MayRemove(old(world), route.uid, Secret))
      ensures !mode.Busy? ==> world.account == old(world).account
    {
      ok := RemoveChild(Deployment);
      if ok {
        ok := RemoveChild(Secret);
      }
      if ok {
        forall kind: ChildKind ensures !Owns(world, route.uid, ChildKey(kind, Prefix(route.uid))) {
          assert kind == Deployment || kind == Secret;
        }
        ChildrenOf(world, route.uid);
      }
    }

    method TearDownRoute() returns (ok: bool)
      requires Holds(world, route) && route.deleting
      requires Confined(mode, start, basis.cluster, world, route.uid)
      modifies `world, `route
      ensures Confined(mode, start, basis.cluster, world, route.uid)
      ensures route.uid == old(route).uid && Shrunk(old(world), world, route.uid)
      ensures ok ==>
                && Holds(world, route) && route.deleting && route.status.tunnelID == old(route).status.tunnelID
                && (route.spec.retain || NoneTagged(world.account, route.uid))
      ensures mode.Calm? && old(Exact()) && CanFinish(old(world), old(route)) ==>
                && ok && Exact() && CanFinish(world, route) && route.spec == old(route).spec
                && world.account.tunnels == old(world).account.tunnels
      ensures mode.Calm? && old(Exact()) && !CanFinish(old(world), old(route)) && ok ==>
                Exact() && !CanFinish(world, route)
      ensures !mode.Busy? && old(route).spec.retain ==> world == old(world) && route == old(route)
    {
      OnRecord(world, route);
      ok := true;
      if !route.spec.retain && route.status.network != None {
        ok := RemoveRoute();
      }
    }

    /** Everything `Finalize` does before it lets the object go. */
    method TearDown() returns (ok: bool)
      requires Holds(world, route) && route.deleting
      requires Confined(mode, start, basis.cluster, world, route.uid)
      modifies `world, `route
      ensures Confined(mode, start, basis.cluster, world, route.uid)
      ensures route.uid == old(route).uid
      ensures Lessened(old(world), world, route.uid) && Remains(old(world), world, route.uid)
      ensures ok ==> Holds(world, route) && route.deleting && Discharged(world, route)
      ensures ok ==> route.status.tunnelID == old(route).status.tunnelID
      ensures mode.Calm? && old(Exact()) && CanFinish(old(world), old(route)) ==>
                && ok && Exact() && route.spec == old(route).spec
                && world.account.tunnels == TunnelsLeft(old(world).account, old(route))
      ensures !mode.Busy? && old(route).spec.retain ==> world.account == old(world).account
      ensures mode.Calm? && old(Exact()) && ok ==> CanFinish(old(world), old(route))
    {
      ok := TearDownRoute();
      if ok {
        ghost var mid := world;
        ok := TearDownRest();
      }
    }

    /** The children, and under Delete the tunnel. */
    method TearDownRest() returns (ok: bool)
      requires Holds(world, route) && route.deleting
      requires !route.spec.retain ==> NoneTagged(world.account, route.uid)
      requires Confined(mode, start, basis.cluster, world, route.uid)
      modifies `world
      ensures Confined(mode, start, basis.cluster, world, route.uid)
      ensures Lessened(old(world), world, route.uid) && Remains(old(world), world, route.uid)
      ensures ok ==> Holds(world, route) && Discharged(world, route)
      ensures mode.Calm? && CanFinish(old(world), route) ==>
                && ok && world.objects == old(world).objects
                && world.account.tunnels == TunnelsLeft(old(world).account, route)
      ensures !mode.Busy? && route.spec.retain ==> world.account == old(world).account
      ensures mode.Calm? && ok ==> CanFinish(old(world), route)
    {
      ok := RemoveChildren();
      if ok {
        ok := TearDownTunnel();
      }
    }

    method TearDownTunnel() returns (ok: bool)
      requires Holds(world, route) && route.deleting && forall k :: !Owns(world, route.uid, k)
      requires !route.spec.retain ==> NoneTagged(world.account, route.uid)
      requires Confined(mode, start, basis.cluster, world, route.uid)
      modifies `world
      ensures Confined(mode, start, basis.cluster, world, route.uid)
      ensures Lessened(old(world), world, route.uid) && Remains(old(world), world, route.uid)
      ensures ok ==> Holds(world, route) && Discharged(world, route)
      ensures mode.Calm? && (route.spec.retain || route.status.tunnelID == NO_ID
                             || Reachable(old(world).cluster, RefOf(route.spec))) ==>
                && ok && world.objects == old(world).objects
                && world.account.tunnels == TunnelsLeft(old(world).account, route)
      ensures mode.Calm? && ok ==>
                route.spec.retain || route.status.tunnelID == NO_ID || Reachable(old(world).cluster, RefOf(route.spec))
      ensures !mode.Busy? && route.spec.retain ==> world == old(world)
    {
      ok := true;
      InvParts(world);
      if !route.spec.retain && route.status.tunnelID != NO_ID {
        ok := RemoveTunnel();
      }
    }

    /** Whatever happens, nothing new is owned, and the object goes only when it is discharged, which every
        `World` says of every object that was let go. */
    method Finalize() returns (ok: bool)
      requires route.deleting && (route.finalizer ==> Holds(world, route))
      requires Confined(mode, start, basis.cluster, world, route.uid)
      modifies `world, `route
      ensures Confined(mode, start, basis.cluster, world, route.uid)
      ensures route.uid == old(route).uid && Lessened(old(world), world, route.uid)
      ensures old(route).finalizer ==> Finishing(old(world), world, route.uid)
      ensures mode.Calm? && old(route).finalizer && old(Exact()) && CanFinish(old(world), old(route)) ==>
                && ok && route.uid !in world.objects && Discharged(world, old(route))
                && world.account.tunnels == TunnelsLeft(old(world).account, old(route))
      ensures mode.Calm? && old(route).finalizer && old(Exact()) && !CanFinish(old(world), old(route)) ==>
                !ok && route.uid in world.objects
      ensures !mode.Busy? && old(route).spec.retain ==> world.account == old(world).account
      ensures !old(route).finalizer ==> world == old(world)
    {
      ok := true;
      if route.finalizer {
        ok := TearDown();
        if ok {
          ok := Release();
        }
      }
    }

    // ----- Validation -----

    /** Every object of the kind, in any order. */
    method List() returns (ok: bool, items: seq<RouteObject>)
      requires Holds(world, route)
      requires Confined(mode, start, basis.cluster, world, route.uid)
      modifies `world
      ensures Confined(mode, start, basis.cluster, world, route.uid)
      ensures Holds(world, route) && Shrunk(old(world), world, route.uid)
      ensures forall o | o in items :: o.uid in old(world).objects && old(world).objects[o.uid] == o
      ensures forall u | u in old(world).objects :: old(world).objects[u] in items
      ensures mode.Calm? ==> ok
      ensures !mode.Busy? ==> world == old(world)
    {
      InvParts(world);
      assert forall u | u in world.objects :: ObjectOk(world.account, world.dropped, u, world.objects[u]);
      var o := Attempt(mode);
      ok, items := o.Done?, [];
      var keys := world.objects.Keys;
      while keys != {}
        invariant world == old(world) && keys <= world.objects.Keys
        invariant forall o | o in items :: o.uid in world.objects && world.objects[o.uid] == o
        invariant forall u | u in world.objects && u !in keys :: world.objects[u] in items
        decreases keys
      {
        var u := Any(keys);
        items := items + [world.objects[u]];
        keys := keys - {u};
      }
      Interfere();
    }

    method Conflicts(items: seq<RouteObject>, network: Network) returns (conflict: bool)
      ensures conflict <==> exists o :: o in items && Contends(o, route, network)
    {
      for i := 0 to |items|
        invariant forall j | 0 <= j < i :: !Contends(items[j], route, network)
      {
        if Contends(items[i], route, network) {
          return true;
        }
      }
      return false;
    }

    /** The API server is read again for every object that validation looks at. */
    method ValidateRoute() returns (v: Validation, provider: Option<Provider>)
      requires Holds(world, route) && world.cluster == basis.cluster
      requires Confined(mode, start, basis.cluster, world, route.uid)
      modifies `world
      ensures Confined(mode, start, basis.cluster, world, route.uid)
      ensures Holds(world, route) && Shrunk(old(world), world, route.uid)
      ensures v.Admitted? ==>
                && v.network.Some? && route.uid in world.trusting
                && provider.Some? && ReadFrom(old(world).cluster, provider.value)
      ensures !mode.Busy? ==>
                && SameButTrust(old(world), world)
                && Answers(mode, v, Validate(old(world).cluster, old(world).objects, route))
    {
      v, provider := ValidateProvider();
      if v.Admitted? {
        ghost var mid := world;
        v := ResolveAndCheck();
        ShrunkOn(old(world), mid, world, route.uid);
      }
    }

    /** The checks on the grant, the Service and the other objects. */
    method ResolveAndCheck() returns (v: Validation)
      requires Holds(world, route)
      requires Confined(mode, start, basis.cluster, world, route.uid)
      modifies `world
      ensures Confined(mode, start, basis.cluster, world, route.uid)
      ensures Holds(world, route) && Shrunk(old(world), world, route.uid)
      ensures v.Admitted? ==> v.network.Some?
      ensures !mode.Busy? ==>
                && world == old(world)
                && Answers(mode, v, Uncontested(ResolveReference(old(world).cluster, route), old(world).objects, route))
    {
      v := ValidateService();
      if v.Admitted? {
        ghost var mid := world;
        v := CheckConflicts(v.network);
        ShrunkOn(old(world), mid, world, route.uid);
      }
    }

    method CheckConflicts(network: Network) returns (v: Validation)
      requires Holds(world, route)
      requires Confined(mode, start, basis.cluster, world, route.uid)
      modifies `world
      ensures Confined(mode, start, basis.cluster, world, route.uid)
      ensures Holds(world, route) && Shrunk(old(world), world, route.uid)
      ensures v.Admitted? ==> v.network == network
      ensures !mode.Busy? ==> world == old(world)
      ensures Answers(mode, v, Uncontested(Admitted(network), old(world).objects, route))
      ensures var o := old(world).objects;
              && (v.Rejected? ==>
                    && v.reason == RouteConflict
                    && exists u | u in o :: Claims(o[u], route, network) && o[u].created <= route.created)
              && (v.Admitted? ==>
                    forall u | u in o && Claims(o[u], route, network) :: o[u].created >= route.created)
    {
      ConflictAges(world.objects, route, network);
      var ok, items := List();
      if !ok {
        return ReadFailed;
      }
      var conflict := Conflicts(items, network);
      v := if conflict then Rejected(RouteConflict) else Admitted(network);
    }

    /** The checks on the grant and the Service. */
    method ValidateService() returns (v: Validation)
      requires Holds(world, route)
      requires Confined(mode, start, basis.cluster, world, route.uid)
      modifies `world
      ensures Confined(mode, start, basis.cluster, world, route.uid)
      ensures Holds(world, route) && Shrunk(old(world), world, route.uid)
      ensures v.Admitted? ==> v.network.Some?
      ensures !mode.Busy? ==>
                world == old(world) && Answers(mode, v, ResolveReference(old(world).cluster, route))
    {
      v := Admitted(None);
      if ServiceNamespace(route) != route.namespace {
        v := CheckGrant();
      }
      if v.Admitted? {
        ghost var mid := world;
        v := ReadService();
        ShrunkOn(old(world), mid, world, route.uid);
      }
    }

    method CheckGrant() returns (v: Validation)
      requires Holds(world, route)
      requires Confined(mode, start, basis.cluster, world, route.uid)
      modifies `world
      ensures Confined(mode, start, basis.cluster, world, route.uid)
      ensures Holds(world, route) && Shrunk(old(world), world, route.uid)
      ensures !mode.Busy? ==> world == old(world)
      ensures Answers(mode, v,
                if GrantedTo(old(world).cluster, route) then Admitted(None) else Rejected(RefNotPermitted))
    {
      var ok, cluster, objects := Observe();
      v := if !ok then ReadFailed else if GrantedTo(cluster, route) then Admitted(None) else Rejected(RefNotPermitted);
    }

    method ReadService() returns (v: Validation)
      requires Holds(world, route)
      requires Confined(mode, start, basis.cluster, world, route.uid)
      modifies `world
      ensures Confined(mode, start, basis.cluster, world, route.uid)
      ensures Holds(world, route) && Shrunk(old(world), world, route.uid)
      ensures v.Admitted? ==> v.network.Some?
      ensures !mode.Busy? ==> world == old(world)
      ensures Answers(mode, v, ResolveService(old(world).cluster, route))
    {
      var ok, cluster, objects := Observe();
      v := if ok then ResolveService(cluster, route) else ReadFailed;
    }

    /** The provider is the one the object refers to, of its class, and its conditions are current. */
    ghost predicate ReadFrom(c: Cluster, provider: Provider)
      reads `route
    {
      Reliable(c, RefOf(route.spec)) && c.providers[route.spec.provider] == provider
    }

    /** The first read of validation. If it shows the provider current and of the class, the object relies on
        it from that moment. */
    method ReadProvider() returns (ok: bool, providers: map<string, Provider>)
      requires Holds(world, route) && world.cluster == basis.cluster
      requires Confined(mode, start, basis.cluster, world, route.uid)
      modifies `world
      ensures Confined(mode, start, basis.cluster, world, route.uid)
      ensures Holds(world, route) && Shrunk(old(world), world, route.uid)
      ensures providers == old(world).cluster.providers
      ensures ok && Reliable(old(world).cluster, RefOf(route.spec)) ==> route.uid in world.trusting
      ensures mode.Calm? ==> ok
      ensures !mode.Busy? ==> SameButTrust(old(world), world)
    {
      var o := Attempt(mode);
      ok, providers := o.Done?, world.cluster.providers;
      if ok && Reliable(world.cluster, RefOf(route.spec)) {
        TrustKeepsInv(world, route.uid);
        TrustShrinks(world, route.uid);
        ObjectStepsAlone(world, route.uid, route.status);
        StepConfined(mode, start, basis.cluster, world, Trusted(world, route.uid), route.uid);
        world := Trusted(world, route.uid);
      }
      ghost var mid := world;
      Interfere();
      ShrunkOn(old(world), mid, world, route.uid);
    }

    /** The checks on the provider and on the namespace of the object. */
    method ValidateProvider() returns (v: Validation, provider: Option<Provider>)
      requires Holds(world, route) && world.cluster == basis.cluster
      requires Confined(mode, start, basis.cluster, world, route.uid)
      modifies `world
      ensures Confined(mode, start, basis.cluster, world, route.uid)
      ensures Holds(world, route) && Shrunk(old(world), world, route.uid)
      ensures v.Admitted? ==>
                route.uid in world.trusting && provider.Some? && ReadFrom(old(world).cluster, provider.value)
      ensures v.Rejected? && v.reason != NamespaceNotAllowed ==> v == Resolve(old(world).cluster, route)
      ensures !mode.Busy? ==> SameButTrust(old(world), world)
      ensures !mode.Busy? && v.Admitted? ==> ProviderAdmits(old(world).cluster, route)
      ensures !mode.Busy? && !v.Admitted? ==> Answers(mode, v, Resolve(old(world).cluster, route))
    {
      provider := None;
      var ok, providers := ReadProvider();
      if !ok {
        return ReadFailed, None;
      }
      if route.spec.provider !in providers {
        return Rejected(ProviderNotFound), None;
      }
      var p := providers[route.spec.provider];
      if p.controller != route.spec.controller {
        return Rejected(ProviderControllerClassMismatch), None;
      }
      if !CurrentlyValid(p) {
        return Rejected(ProviderNotReady), None;
      }
      provider := Some(p);
      ghost var mid := world;
      v := CheckNamespace(p);
      ShrunkOn(old(world), mid, world, route.uid);
    }

    method CheckNamespace(provider: Provider) returns (v: Validation)
      requires Holds(world, route)
      requires Confined(mode, start, basis.cluster, world, route.uid)
      modifies `world
      ensures Confined(mode, start, basis.cluster, world, route.uid)
      ensures Holds(world, route) && Shrunk(old(world), world, route.uid)
      ensures !mode.Busy? ==> world == old(world)
      ensures Answers(mode, v, ResolveNamespace(old(world).cluster, route, provider))
    {
      var ok, cluster, objects := Observe();
      v := if ok then ResolveNamespace(cluster, route, provider) else ReadFailed;
    }

    // ----- Reconciliation -----

    /** Reads the object. */
    method Get(u: UID) returns (ok: bool, found: bool)
      requires start == world
      modifies `world, `route
      ensures Confined(mode, start, world.cluster, world, u) && Drifts(old(world), world)
      ensures ok && found ==> u in old(world).objects && route == old(world).objects[u] && route.uid == u
      ensures ok && found && route.finalizer ==> Holds(world, route)
      ensures ok && !found ==> u !in old(world).objects
      ensures mode.Calm? ==> ok
      ensures !mode.Busy? ==> world == old(world)
      ensures Moves(old(world), world, u)
    {
      var o := Attempt(mode);
      ok, found := o.Done?, u in world.objects;
      if ok && found {
        ObjectParts(world, u);
        route := world.objects[u];
      }
      Drift();
      NothingConfined(mode, old(world), world.cluster, u);
      DriftConfined(mode, start, world.cluster, old(world), world, u);
      if u in old(world).uids {
        DriftShrinks(old(world), world, u);
      }
    }

    /** The update that adds the finalizer; it is refused unless the copy in memory is current. */
    method AddFinalizer() returns (ok: bool)
      requires Confined(mode, start, basis.cluster, world, route.uid)
      modifies `world
      ensures Confined(mode, start, basis.cluster, world, route.uid)
      ensures route.uid in old(world).uids ==> Lessened(old(world), world, route.uid)
      ensures route.uid in old(world).uids ==> SameTunnel(old(world), world, route.uid)
      ensures mode.Calm? && old(Exact()) ==> ok && route.uid in world.objects && world.objects[route.uid].finalizer
      ensures Keeps(mode, old(world), world)
    {
      InvParts(world);
      var o := Attempt(mode);
      var current := route.uid in world.objects && world.objects[route.uid].version == route.version;
      ok := o.Done? && current;
      if !o.Failed? && current {
        FinalizerKeepsInv(world, route.uid);
        ObjectStepsAlone(world, route.uid, route.status);
        StepConfined(mode, start, basis.cluster, world, WithFinalizer(world, route.uid), route.uid);
        world := WithFinalizer(world, route.uid);
      }
      Interfere();
    }

    method SetConditions(accepted: bool, reason: Reason, connectorReady: bool) returns (ok: bool)
      requires Holds(world, route)
      requires Confined(mode, start, basis.cluster, world, route.uid)
      modifies `world, `route
      ensures Confined(mode, start, basis.cluster, world, route.uid)
      ensures route.uid == old(route).uid && world.dropped == old(world).dropped
      ensures Remains(old(world), world, route.uid)
      ensures mode.Calm? ==> ok && world.account == old(world).account && KeepsRecord(old(world), world, route.uid)
      ensures mode.Calm? ==>
                world.objects[route.uid].status.conditions
                == old(Report(route.status.routeID, accepted, reason, connectorReady, route.generation))
      ensures mode.Calm? ==> world.children == old(world).children
      ensures Keeps(mode, old(world), world)
      ensures mode.Calm? ==> world.objects[route.uid].generation == old(world).objects[route.uid].generation
    {
      var c := Report(route.status.routeID, accepted, reason, connectorReady, route.generation);
      ConditionsKeepInv(world, route, c);
      ghost var mid;
      ok, mid := PatchStatus(route.status.(conditions := c));
    }

    /** Takes the route down when the object is no longer valid, unless another controller class is in charge. */
    method Reject(reason: Reason) returns (ok: bool)
      requires Holds(world, route)
      requires Confined(mode, start, basis.cluster, world, route.uid)
      modifies `world, `route
      ensures Confined(mode, start, basis.cluster, world, route.uid)
      ensures route.uid == old(route).uid
      ensures Remains(old(world), world, route.uid)
      ensures old(CanReject(reason)) ==> ok && Withdrawn(world, route.uid, reason)
      ensures mode.Calm? && ok && reason != ProviderControllerClassMismatch ==>
                old(route).status.network == None || Reachable(old(world).cluster, RefOf(old(route).spec))
      ensures mode.Calm? && reason == ProviderControllerClassMismatch ==> world.account == old(world).account
    {
      ok := WithdrawRoute(reason);
      if ok {
        ok := SetConditions(false, reason, false);
      }
    }

    /** Afterwards no route carries the tag of the object, unless another controller class is in charge. */
    method WithdrawRoute(reason: Reason) returns (ok: bool)
      requires Holds(world, route)
      requires Confined(mode, start, basis.cluster, world, route.uid)
      modifies `world, `route
      ensures Confined(mode, start, basis.cluster, world, route.uid)
      ensures route.uid == old(route).uid && Shrunk(old(world), world, route.uid)
      ensures ok ==>
                && Holds(world, route)
                && (reason != ProviderControllerClassMismatch ==> NoneTagged(world.account, route.uid))
      ensures old(CanReject(reason)) ==> ok && Exact()
      ensures mode.Calm? && ok && reason != ProviderControllerClassMismatch ==>
                old(route).status.network == None || Reachable(old(world).cluster, RefOf(old(route).spec))
      ensures mode.Calm? && reason == ProviderControllerClassMismatch ==> ok && world == old(world)
    {
      OnRecord(world, route);
      ok := true;
      if route.status.network != None && reason != ProviderControllerClassMismatch {
        ok := RemoveRoute();
      }
    }

    /** Nothing but a fault can keep the rejection from completing. */
    ghost predicate CanReject(reason: Reason)
      reads this
    {
      && mode.Calm? && Exact() && reason != ProviderControllerClassMismatch
      && (route.status.network == None || Reachable(world.cluster, RefOf(route.spec)))
    }

    /** The recorded tunnel is live, and no other network is on record. */
    ghost predicate Established(network: Network)
      reads `world, `route
    {
      NoneLost() && route.status.network in {None, network}
    }

    /** Brings tunnel, route and connector up to the validated network. */
    method Program(provider: Provider, network: Network) returns (ok: bool)
      requires Holds(world, route) && network.Some? && route.status.tunnelID !in world.dropped
      requires route.uid in world.trusting
      requires Confined(mode, start, basis.cluster, world, route.uid)
      modifies `world, `route, `rollout
      ensures Confined(mode, start, basis.cluster, world, route.uid)
      ensures route.uid == old(route).uid
      ensures old(CanProgram(provider, network)) ==>
                && Serving(world, route.uid, network) && (ok ==> Accepts(world, route.uid, rollout))
                && (ok <==> MayWrite(old(world), route.uid))
      ensures old(Established(network)) ==> Keeps(mode, old(world), world)
      ensures mode.Calm? && Obstructed(old(world), old(route), network) ==> !ok
      ensures mode.Calm? && provider.tokenSecret !in old(world).cluster.tokens ==> !ok && world == old(world)
    {
      ok := OpenAPI(provider);
      if !ok {
        return;
      }
      // The identity of the cluster, which is part of the tunnel's name.
      var cluster, objects;
      ok, cluster, objects := Observe();
      if ok {
        ok := ProgramRoute(network);
      }
    }

    method ProgramRoute(network: Network) returns (ok: bool)
      requires Holds(world, route) && network.Some? && route.status.tunnelID !in world.dropped
      requires route.uid in world.trusting
      requires Confined(mode, start, basis.cluster, world, route.uid)
      modifies `world, `route, `rollout
      ensures Confined(mode, start, basis.cluster, world, route.uid)
      ensures route.uid == old(route).uid
      ensures mode.Calm? && Unopposed(old(world).account, route.uid, network) ==>
                && Serving(world, route.uid, network) && (ok ==> Accepts(world, route.uid, rollout))
                && (ok <==> MayWrite(old(world), route.uid))
      ensures old(Established(network)) ==> Keeps(mode, old(world), world)
      ensures mode.Calm? && Obstructed(old(world), old(route), network) ==> !ok
    {
      var tunnel := EnsureTunnel(ForPrivateRoute(route.uid));
      if tunnel.None? {
        return false;
      }
      ok := PlaceRoute(tunnel.value, network);
      if ok {
        ok := Connect();
      }
    }

    /** Leaves another network first, if one is on record. */
    method PlaceRoute(tunnel: Tunnel, network: Network) returns (ok: bool)
      requires Holds(world, route) && network.Some?
      requires route.status.tunnelID == tunnel.id != NO_ID && tunnel.id !in world.dropped
      requires Confined(mode, start, basis.cluster, world, route.uid)
      modifies `world, `route
      ensures Confined(mode, start, basis.cluster, world, route.uid)
      ensures route.uid == old(route).uid
      ensures ok ==> Holds(world, route) && route.status.routeID != NO_ID && route.status.tunnelID == tunnel.id
      ensures mode.Calm? && Unopposed(old(world).account, route.uid, network) ==>
                ok && Settled(world, route.uid, network) && world.account.tunnels == old(world).account.tunnels
      ensures mode.Calm? ==> world.children == old(world).children
      ensures old(route).status.network in {None, network} ==> Keeps(mode, old(world), world)
      ensures mode.Calm? && Foreign(old(world).account, route.uid, network) ==>
                (old(route).status.network in {None, network} ==> !ok)
    {
      ok := true;
      if route.status.network != None && route.status.network != network {
        ok := LeaveNetwork();
      }
      if ok {
        ok := EnsureRoute(tunnel, network);
      }
    }

    ghost predicate CanProgram(provider: Provider, network: Network)
      reads this
    {
      mode.Calm? && provider.tokenSecret in world.cluster.tokens && Unopposed(world.account, route.uid, network)
    }

    /** Removes the route at the recorded network, before the object moves to another one. */
    method LeaveNetwork() returns (ok: bool)
      requires Holds(world, route)
      requires Confined(mode, start, basis.cluster, world, route.uid)
      modifies `world, `route
      ensures Confined(mode, start, basis.cluster, world, route.uid)
      ensures route.uid == old(route).uid && world.dropped == old(world).dropped
      ensures ok ==>
                && Holds(world, route) && route.status.tunnelID == old(route).status.tunnelID
                && route.status.network == None
      ensures mode.Calm? ==> ok && OnlyRoutesLost(old(world).account, world.account)
      ensures mode.Calm? ==> world.children == old(world).children
    {
      ok := DeleteRoute();
      if ok {
        ok := ClearRoute();
      }
    }

    /** The connector, and the report that all is well. */
    method Connect() returns (ok: bool)
      requires Holds(world, route)
      requires Confined(mode, start, basis.cluster, world, route.uid)
      modifies `world, `route, `rollout
      ensures Confined(mode, start, basis.cluster, world, route.uid)
      ensures route.uid == old(route).uid
      ensures mode.Calm? ==> world.account == old(world).account && KeepsRecord(old(world), world, route.uid)
      ensures mode.Calm? && ok && old(route).status.routeID != NO_ID ==> Accepts(world, route.uid, rollout)
      ensures mode.Calm? ==> (ok <==> MayWrite(old(world), route.uid))
      ensures Keeps(mode, old(world), world)
    {
      // The connector token of the tunnel.
      var o := Attempt(mode);
      Interfere();
      if !o.Done? {
        return false;
      }
      ok := RollOut();
    }

    /** The children, and the report on what was found of them. */
    method RollOut() returns (ok: bool)
      requires Holds(world, route)
      requires Confined(mode, start, basis.cluster, world, route.uid)
      modifies `world, `route, `rollout
      ensures Confined(mode, start, basis.cluster, world, route.uid)
      ensures route.uid == old(route).uid
      ensures mode.Calm? ==> world.account == old(world).account && KeepsRecord(old(world), world, route.uid)
      ensures mode.Calm? && ok && old(route).status.routeID != NO_ID ==> Accepts(world, route.uid, rollout)
      ensures mode.Calm? ==> (ok <==> MayWrite(old(world), route.uid))
      ensures Keeps(mode, old(world), world)
    {
      var ready;
      ok, ready := EnsureConnector();
      if ok {
        ok := SetConditions(true, Accepted, ready);
      }
    }


    /** A pass over an object that is not being deleted. */
    method Maintain() returns (ok: bool)
      requires Holds(world, route) && route.status.tunnelID !in world.dropped && basis.cluster == world.cluster
      requires Confined(mode, start, basis.cluster, world, route.uid)
      modifies `world, `route, `rollout
      ensures Confined(mode, start, basis.cluster, world, route.uid)
      ensures route.uid == old(route).uid
      ensures NewTunnel(old(world), world, route.uid) ==> Reliable(old(world).cluster, RefOf(old(route).spec))
      ensures var v := old(Validate(world.cluster, world.objects, route));
              && (v.Admitted? && old(CanProgram(world.cluster.providers[route.spec.provider], v.network)) ==>
                    && Serving(world, route.uid, v.network) && (ok ==> Accepts(world, route.uid, rollout))
                    && (ok <==> MayWrite(old(world), route.uid)))
              && (v.Rejected? && old(CanReject(v.reason)) ==> ok && Withdrawn(world, route.uid, v.reason))
              && (mode.Calm? && v.Admitted? && !HasToken(old(world).cluster, old(route).spec.provider) ==>
                    !ok && world.account == old(world).account)
              && (mode.Calm? && v.Admitted? && Obstructed(old(world), old(route), v.network) ==> !ok)
              && (mode.Calm? && v.Rejected? && v.reason != ProviderControllerClassMismatch && ok ==>
                    old(route).status.network == None || Reachable(old(world).cluster, RefOf(old(route).spec)))
      ensures mode.Calm? && old(Validate(world.cluster, world.objects, route))
                == Rejected(ProviderControllerClassMismatch) ==>
                world.account == old(world).account
      ensures old(Valid(world, route)) ==> Keeps(mode, old(world), world)
    {
      var v, provider := ValidateRoute();
      match v
      case ReadFailed => ok := false;
      case Rejected(reason) => ok := Reject(reason);
      case Admitted(network) => ok := Program(provider.value, network);
    }

    /** No fault, no interference, and this controller class is in charge of the object. */
    predicate Undisturbed(u: UID)
      reads this
    {
      mode.Calm? && controllerClass != "" && u in world.objects && world.objects[u].spec.controller == controllerClass
    }

    /** One pass of the inner reconcile. */
    method ReconcileOnce(u: UID) returns (ok: bool)
      requires start == world
      modifies `world, `route, `rollout, `basis
      ensures Confined(mode, old(world), basis.cluster, world, u) && Drifts(old(world), basis)
      ensures var o := old(world).objects;
              && (u in o && o[u].deleting ==> Lessened(old(world), world, u))
              && (Dying(old(world), u) ==> Finishing(old(world), world, u))
              && (NewTunnel(old(world), world, u) ==> Reliable(basis.cluster, RefOf(o[u].spec)))
      ensures old(Undisturbed(u)) ==> Converges(old(world), world, u, ok, rollout)
      ensures mode.Calm? && !old(Undisturbed(u)) ==> ok && world == old(world)
      ensures u in old(world).objects && Valid(old(world), old(world).objects[u]) ==> Keeps(mode, old(world), world)
      ensures !mode.Busy? && Dying(old(world), u) && old(world).objects[u].spec.retain ==>
                world.account == old(world).account
    {
      if u in world.objects {
        Present(world, u);
      }
      var found;
      ok, found := Get(u);
      basis := world;
      if ok && found && controllerClass != "" && route.spec.controller == controllerClass {
        ok := Act();
      }
    }

    /** What the copy in memory, which has just been read, calls for. */
    method Act() returns (ok: bool)
      requires basis.cluster == world.cluster && route.uid in world.uids
      requires route.finalizer ==> Holds(world, route)
      requires !route.deleting ==> route.status.tunnelID !in world.dropped
      requires Confined(mode, start, basis.cluster, world, route.uid)
      modifies `world, `route, `rollout
      ensures Confined(mode, start, basis.cluster, world, route.uid)
      ensures route.uid == old(route).uid
      ensures old(route).deleting ==> Lessened(old(world), world, route.uid)
      ensures old(route).deleting && old(route).finalizer ==> Finishing(old(world), world, route.uid)
      ensures NewTunnel(old(world), world, route.uid) ==> Reliable(old(world).cluster, RefOf(old(route).spec))
      ensures route.uid in world.objects ==> route.uid in old(world).objects
      ensures mode.Calm? && old(Exact()) ==> Converges(old(world), world, route.uid, ok, rollout)
      ensures old(Exact()) && old(Valid(world, route)) ==> Keeps(mode, old(world), world)
      ensures !mode.Busy? && old(route).deleting && old(route).spec.retain ==> world.account == old(world).account
    {
      if route.deleting {
        ok := Finalize();
      } else if !route.finalizer {
        ok := AddFinalizer();
      } else {
        ok := Maintain();
      }
    }

    /** After an error, reports it on the object of that name: the same, or one that was not there when the
        request came. */
    method ReportFailure(u: UID, known: set<UID>)
      requires Confined(mode, start, basis.cluster, world, u) && known == start.uids
      modifies `world, `route
      ensures Confined(mode, start, basis.cluster, world, u)
      ensures u in old(world).uids ==> Recedes(old(world), world, u)
      ensures !mode.Busy? ==> OnlyReported(old(world), world)
      ensures old(Undisturbed(u)) && !old(world).objects[u].deleting ==> ReportsFailure(world, u)
    {
      var v: UID := *;
      if u in world.objects || v in known {
        v := u;
      }
      var found := ReadAgain(u, v);
      if found && route.spec.controller == controllerClass && !route.deleting {
        WriteFailure(u);
      }
    }

    method ReadAgain(u: UID, v: UID) returns (found: bool)
      requires Confined(mode, start, basis.cluster, world, u)
      modifies `world, `route
      ensures Confined(mode, start, basis.cluster, world, u)
      ensures u in old(world).uids ==> Recedes(old(world), world, u)
      ensures found ==> route.uid == v
      ensures found && route.uid in world.objects ==> Untouched(route, world.objects[route.uid])
      ensures !mode.Busy? ==> world == old(world)
      ensures mode.Calm? && v in old(world).objects ==> found && route == old(world).objects[v]
    {
      var o := Attempt(mode);
      found := o.Done? && v in world.objects;
      if found {
        ObjectParts(world, v);
        route := world.objects[v];
      }
      Drift();
      DriftConfined(mode, start, basis.cluster, old(world), world, u);
      if u in old(world).uids {
        DriftShrinks(old(world), world, u);
      }
    }

    method WriteFailure(u: UID)
      requires route.uid in world.objects ==> Untouched(route, world.objects[route.uid])
      requires Confined(mode, start, basis.cluster, world, u) && (route.uid == u || route.uid !in start.uids)
      modifies `world
      ensures Confined(mode, start, basis.cluster, world, u)
      ensures u in old(world).uids ==> Recedes(old(world), world, u)
      ensures !mode.Busy? ==> OnlyReported(old(world), world)
      ensures mode.Calm? && old(Exact()) ==> ReportsFailure(world, route.uid)
    {
      PatchFailure(u);
      ghost var mid := world;
      Drift();
      DriftConfined(mode, start, basis.cluster, mid, world, u);
      if u in mid.uids {
        DriftShrinks(mid, world, u);
      }
      if u in old(world).uids {
        RecedesOn(old(world), mid, world, u);
      }
    }

    method PatchFailure(u: UID)
      requires route.uid in world.objects ==> Untouched(route, world.objects[route.uid])
      requires Confined(mode, start, basis.cluster, world, u) && (route.uid == u || route.uid !in start.uids)
      modifies `world
      ensures Confined(mode, start, basis.cluster, world, u)
      ensures Recedes(old(world), world, u)
      ensures !mode.Busy? ==> OnlyReported(old(world), world)
      ensures mode.Calm? && old(Exact()) ==> ReportsFailure(world, route.uid)
    {
      var o := Attempt(mode);
      if !o.Failed? && route.uid in world.objects {
        var s := route.status.(conditions := ReportFailed(route.status.conditions, route.generation));
        ReportKeepsInv(world, route.uid, s);
        ReportRecedes(world, route.uid, s, u);
        ReportConfined(u, s);
        world := WithStatus(world, route.uid, s);
      }
    }

    lemma ReportConfined(u: UID, s: Status)
      requires route.uid in world.objects && Inv(WithStatus(world, route.uid, s))
      requires Confined(mode, start, basis.cluster, world, u) && (route.uid == u || route.uid !in start.uids)
      ensures Confined(mode, start, basis.cluster, WithStatus(world, route.uid, s), u)
    {
      ObjectStepsAlone(world, route.uid, s);
      if route.uid == u {
        StepConfined(mode, start, basis.cluster, world, WithStatus(world, u, s), u);
      } else {
        NewcomerConfined(mode, start, basis.cluster, world, WithStatus(world, route.uid, s), u, route.uid);
      }
    }

    /** A request for the object `u`. To every other object the pass looks like moves of the environment, and
        if nobody else moves it changes nothing that is not `u`'s, and takes nothing from an object that is valid
        where it is, whichever calls fail. */
    method Reconcile(u: UID) returns (ok: bool)
      modifies `world, `route, `rollout, `start, `basis
      ensures Confined(mode, old(world), basis.cluster, world, u) && Drifts(old(world), basis)
      ensures var o := old(world).objects;
              && (u in o && o[u].deleting ==> Lessened(old(world), world, u))
              && (Dying(old(world), u) ==> Finishing(old(world), world, u))
              && (NewTunnel(old(world), world, u) ==> Reliable(basis.cluster, RefOf(o[u].spec)))
      ensures old(Undisturbed(u)) ==> Converges(old(world), world, u, ok, rollout)
      ensures mode.Calm? && !old(Undisturbed(u)) ==> ok && world == old(world)
      ensures u in old(world).objects && Valid(old(world), old(world).objects[u]) ==> Keeps(mode, old(world), world)
      ensures !mode.Busy? && Dying(old(world), u) && old(world).objects[u].spec.retain ==>
                world.account == old(world).account
    {
      if u in world.objects {
        Present(world, u);
      }
      start := world;
      var known := world.uids;
      ok := ReconcileOnce(u);
      if !ok {
        ghost var mid := world;
        ReportFailure(u, known);
        if old(Undisturbed(u)) {
          ReportKeepsConvergence(old(world), mid, world, u, rollout);
        }
      }
    }

    /** Any number of requests for an object marked for deletion, with anything happening in between:
        what is left never grows, and the object goes only when it is discharged. */
    method Retry(u: UID, attempts: nat)
      requires Dying(world, u)
      modifies `world, `route, `rollout, `start, `basis
      ensures Lessened(old(world), world, u) && Finishing(old(world), world, u)
      ensures u !in world.objects ==> u in world.released && Discharged(world, world.released[u])
    {
      for i := 0 to attempts
        invariant Lessened(old(world), world, u)
        invariant u in world.objects && Remains(old(world), world, u)
      {
        var ok := Reconcile(u);
        if u !in world.objects {
          StaysDischarged(world, u);
          return;
        }
      }
    }

    /** Any run: requests for any objects in any order, and anything in between. Every state on the way
        is a `World`; this names the last one. */
    method Run(requests: seq<UID>)
      modifies `world, `route, `rollout, `start, `basis
      ensures Inv(world)
      ensures forall u | u in world.objects :: AtMostOneRoute(world, u) && Honest(world.objects[u].status.conditions)
      ensures forall u | u in world.released :: u !in world.objects && Discharged(world, world.released[u])
    {
      for i := 0 to |requests| {
        Drift();
        var ok := Reconcile(requests[i]);
      }
      forall u | u in world.objects ensures AtMostOneRoute(world, u) && Honest(world.objects[u].status.conditions) {
        NoOrphanRoute(world, u);
      }
      forall u | u in world.released ensures u !in world.objects && Discharged(world, world.released[u]) {
        StaysDischarged(world, u);
      }
    }
  }
}
