/** Who wins a contested network, and which tunnels a finalization can miss. */
module PrivateRouteLaws {
  import opened Cloudflare
  import opened Kube
  import opened Names
  import opened Orders
  import opened PrivateRouteReconciliation
  import opened PrivateRoutes
  import opened Text

  // ----- Contested networks -----

  lemma PrecedesTotal(a: RouteObject, b: RouteObject)
    requires a.uid != b.uid
    ensures Precedes(a, b) <==> !Precedes(b, a)
  {
    if a.namespace != b.namespace {
      LessTotal(a.namespace, b.namespace);
      LessAsymmetric(a.namespace, b.namespace);
    } else if a.name != b.name {
      LessTotal(a.name, b.name);
      LessAsymmetric(a.name, b.name);
    }
  }

  lemma PrecedesTransitive(a: RouteObject, b: RouteObject, c: RouteObject)
    requires Precedes(a, b) && Precedes(b, c)
    ensures Precedes(a, c)
  {
    if a.created == b.created == c.created {
      if a.namespace != b.namespace && b.namespace != c.namespace {
        LessTransitive(a.namespace, b.namespace, c.namespace);
        LessAsymmetric(a.namespace, b.namespace);
      } else if a.namespace == b.namespace == c.namespace && a.name != b.name && b.name != c.name {
        LessTransitive(a.name, b.name, c.name);
        LessAsymmetric(a.name, b.name);
      }
    }
  }

  /** The older object precedes; of two of one age it is the one whose namespace, name and UID text come first. */
  lemma PrecedesExactly(a: RouteObject, b: RouteObject)
    requires 0 <= a.uid < UIDS && 0 <= b.uid < UIDS
    ensures Precedes(a, b) <==>
              || a.created < b.created
              || (a.created == b.created && Less(a.namespace, b.namespace))
              || (a.created == b.created && a.namespace == b.namespace && Less(a.name, b.name))
              || (a.created == b.created && a.namespace == b.namespace && a.name == b.name
                  && Less(UidText(a.uid), UidText(b.uid)))
  {
    UidOrder(a.uid, b.uid);
    LessIrreflexive(a.namespace);
    LessIrreflexive(a.name);
  }

  /** The live objects of one provider and class on one Service, each recording no network or the
      Service's, when nobody else of that provider and class claims the network. */
  ghost predicate Rivals(c: Cluster, objects: map<UID, RouteObject>, group: set<UID>, network: Network) {
    && group <= objects.Keys
    && (forall u | u in objects :: objects[u].uid == u)
    && (forall u | u in group :: !objects[u].deleting && Resolve(c, objects[u]) == Admitted(network))
    && (forall u | u in group :: objects[u].status.network in {None, network})
    && (forall u, v | u in group && v in group ::
          && objects[u].spec.provider == objects[v].spec.provider
          && objects[u].spec.controller == objects[v].spec.controller
          && ServiceNamespace(objects[u]) == ServiceNamespace(objects[v])
          && objects[u].spec.serviceName == objects[v].spec.serviceName)
    && (forall u, v | u in group && v in objects && v !in group ::
          || objects[v].deleting
          || objects[v].spec.provider != objects[u].spec.provider
          || objects[v].spec.controller != objects[u].spec.controller
          || ClaimedNetwork(objects[v], objects[u], network) != network)
  }

  /** Of the rivals for a network exactly one, the earliest, passes validation. */
  lemma UniqueWinner(c: Cluster, objects: map<UID, RouteObject>, group: set<UID>, network: Network)
    returns (winner: UID)
    requires group != {} && Rivals(c, objects, group, network)
    ensures winner in group
    ensures forall u | u in group ::
              Validate(c, objects, objects[u]) == if u == winner then Admitted(network) else Rejected(RouteConflict)
    ensures forall u | u in group && u != winner :: Precedes(objects[winner], objects[u])
    ensures forall u | u in group ::
              var first, o := objects[winner], objects[u];
              || first.created < o.created
              || (first.created == o.created && Less(first.namespace, o.namespace))
              || (first.created == o.created && first.namespace == o.namespace && Less(first.name, o.name))
              || (first.created == o.created && first.namespace == o.namespace && first.name == o.name
                  && winner <= u)
  {
    var before := (x: UID, y: UID) => x in objects && y in objects && Precedes(objects[x], objects[y]);
    forall x, y | x in group && y in group && x != y ensures before(x, y) <==> !before(y, x) {
      PrecedesTotal(objects[x], objects[y]);
    }
    forall x, y, z | x in group && y in group && z in group && before(x, y) && before(y, z) ensures before(x, z) {
      PrecedesTransitive(objects[x], objects[y], objects[z]);
    }
    winner := HasFirst(before, group);
    forall u | u in group
      ensures Validate(c, objects, objects[u]) == if u == winner then Admitted(network) else Rejected(RouteConflict)
    {
      if u != winner {
        assert before(winner, u);
        assert Contends(objects[winner], objects[u], network);
      } else {
        forall v | v in objects ensures !Contends(objects[v], objects[u], network) {
          if v in group && v != u {
            assert before(u, v);
          }
        }
      }
    }
  }

  // ----- Tunnels that finalization misses -----

  /** An undisturbed finalization under Delete leaves a live tunnel of the object behind exactly when none was on
      record and there was one. */
  lemma LeakExactly(w: World, v: World, u: UID, ok: bool, rollout: bool)
    requires Dying(w, u) && !w.objects[u].spec.retain && CanFinish(w, w.objects[u]) && Converges(w, v, u, ok, rollout)
    ensures u !in v.objects
    ensures (exists i :: Named(v.account, u, i)) <==>
              w.objects[u].status.tunnelID == NO_ID && exists i :: Named(w.account, u, i)
  {
    ObjectParts(w, u);
    var o := w.objects[u];
    forall i ensures Named(v.account, u, i) <==> Named(w.account, u, i) && o.status.tunnelID == NO_ID {}
  }

  const ADDRESS := 0x0A000001

  /** A cluster in which a private route of class "kflared" may be made. */
  const SITE := Cluster(
    map["cloudflare" := Provider("kflared", 1, [], Some(map[]), "token",
      Reported(IsTrue, 1, Reason.Accepted), Reported(IsTrue, 1, OtherReason))],
    map["default" := map[]],
    map[Key("default", "db") := Service(ClusterIPType, V4(ADDRESS), [Port("sql", 5432)])],
    map[], map[], map[], map[], {"token"})

  const WANTED := Spec("kflared", "cloudflare", "", "db", ByNumber(5432), false)

  function Fresh(u: UID): RouteObject {
    RouteObject(u, "default", "route", 0, 1, 1, false, false, WANTED, BLANK)
  }

  /** From nothing: the cluster is set up, the object is created, the controller adds its finalizer and finds
      the provider current. */
  function Ready(u: UID): Snapshot {
    var created := Apply(Apply(NOTHING, ClusterChanged(SITE)), ObjectCreated(Fresh(u)));
    if u in created.objects then Trusted(WithFinalizer(created, u), u) else created
  }

  /** There everything that leads up to the creation of the tunnel succeeds, and no tunnel has its name. */
  lemma ReadyToCreate(u: UID)
    ensures var w := Ready(u);
            && Inv(w) && u in w.objects && w.objects[u] == Fresh(u).(finalizer := true, version := 2)
            && Validate(w.cluster, w.objects, w.objects[u]) == Admitted(Some(ADDRESS))
            && Reachable(w.cluster, RefOf(w.objects[u].spec))
            && (forall i :: !Named(w.account, u, i))
  {
    EventKeepsInv(NOTHING, ClusterChanged(SITE));
    var ground: World := Apply(NOTHING, ClusterChanged(SITE));
    EventKeepsInv(ground, ObjectCreated(Fresh(u)));
    var created: World := Apply(ground, ObjectCreated(Fresh(u)));
    assert created.objects == map[u := Fresh(u)];
    FinalizerKeepsInv(created, u);
    var guarded: World := WithFinalizer(created, u);
    TrustKeepsInv(guarded, u);
    ResolvesOnSite(guarded.objects[u]);
  }

  lemma ResolvesOnSite(r: RouteObject)
    requires r.spec == WANTED && r.namespace == "default"
    ensures Resolve(SITE, r) == Admitted(Some(ADDRESS))
  {
    assert ResolvePort([Port("sql", 5432)], ByNumber(5432)) == Some(5432);
  }

  /** The creation takes effect, its response is lost, and the object is deleted. */
  function Abandoned(u: UID): Snapshot {
    Apply(TunnelMade(Ready(u), ForPrivateRoute(u)), DeletionRequested(u))
  }

  lemma LostResponse(u: UID)
    ensures var w := Abandoned(u);
            && Inv(w) && Dying(w, u) && !w.objects[u].spec.retain && CanFinish(w, w.objects[u])
            && w.objects[u].status.tunnelID == NO_ID && Named(w.account, u, 1)
  {
    ReadyToCreate(u);
    var ready: World := Ready(u);
    TunnelMadeKeepsInv(ready, u);
    var made: World := TunnelMade(ready, ForPrivateRoute(u));
    EventKeepsInv(made, DeletionRequested(u));
  }

  /** The finalization that follows succeeds, the object is gone, and the tunnel lives on. */
  method LostResponseLeaks(r: PrivateRouteReconciler, u: UID)
    requires r.mode.Calm? && r.controllerClass == "kflared" && r.world == Abandoned(u)
    modifies r`world, r`route, r`rollout, r`start, r`basis
    ensures u !in r.world.objects && exists i :: Named(r.world.account, u, i)
  {
    LostResponse(u);
    ghost var w := r.world;
    var ok := r.Reconcile(u);
    LeakExactly(w, r.world, u, ok, r.rollout);
    assert Named(w.account, u, 1);
  }

  // ----- What Ready does not promise -----

  /** When a recorded route is gone, the patch that forgets it leaves the conditions as they are: the object may
      say that it is ready while no route is on record. */
  lemma ReadyOutlivesRoute(w: World, o: RouteObject)
    requires Holds(w, o) && w.objects[o.uid] == o && ConditionTrue(o.status.conditions.ready, o.generation)
    requires o.status.routeID != NO_ID && !Tagged(w.account, o.uid, o.status.routeID)
    ensures var v := WithStatus(w, o.uid, WithoutRoute(o.status));
            && Inv(v) && NoneTagged(v.account, o.uid) && v.objects[o.uid].status.routeID == NO_ID
            && ConditionTrue(v.objects[o.uid].status.conditions.ready, v.objects[o.uid].generation)
  {
    LostRouteKeepsInv(w, o);
  }
}
