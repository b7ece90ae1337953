/** State, invariant and laws of the private-route protocol
    (internal/controller/cloudflaretunnelprivateroute_controller.go). Some predicates name their body before they
    return it: the verifier then proves them whole and not conjunct by conjunct. */
module PrivateRoutes {
  import opened Cloudflare
  import opened Kube
  import opened Text

  const KIND := "CloudflareTunnelPrivateRoute"

  datatype Conditions = Conditions(
    accepted: Condition,
    programmed: Condition,
    connectorReady: Condition,
    ready: Condition)

  datatype Status = Status(
    tunnelID: Id,
    tunnelName: TunnelName,
    routeID: Id,
    network: Network,
    conditions: Conditions)

  const BLANK := Status(NO_ID, OtherName(0), NO_ID, None, Conditions(Absent, Absent, Absent, Absent))

  datatype Spec = Spec(
    controller: string,
    provider: string,
    serviceNamespace: string,
    serviceName: string,
    port: PortRef,
    retain: bool)

  function RefOf(spec: Spec): ProviderRef {
    ProviderRef(spec.controller, spec.provider)
  }

  /** A private route object. `version` stands for the resource version. */
  datatype RouteObject = RouteObject(
    uid: UID,
    namespace: string,
    name: string,
    created: int,
    generation: int,
    version: int,
    finalizer: bool,
    deleting: bool,
    spec: Spec,
    status: Status)

  /** `children` maps a child to the UID in its ownership label. `uids` holds every UID of a private route
      so far, `dropped` every tunnel this controller deleted, `released` every object it let go, as it was
      then, and `trusting` the objects for which it has found the provider current and of their class. */
  datatype Snapshot = Snapshot(
    account: Account,
    cluster: Cluster,
    objects: map<UID, RouteObject>,
    children: map<ChildKey, UID>,
    uids: set<UID>,
    dropped: set<Id>,
    released: map<UID, RouteObject>,
    trusting: set<UID>)

  // ----- Ownership -----

  predicate Tagged(a: Account, u: UID, id: Id) {
    id in a.routes && a.routes[id].comment == TagOf(u)
  }

  predicate Named(a: Account, u: UID, id: Id) {
    id in a.tunnels && a.tunnels[id].name == ForPrivateRoute(u)
  }

  function TunnelNames(w: Snapshot): set<TunnelName> {
    set u | u in w.uids :: ForPrivateRoute(u)
  }

  function Comments(w: Snapshot): set<Comment> {
    set u | u in w.uids :: TagOf(u)
  }

  // ----- Invariant -----

  /** Ready at some generation only with every other condition true at the same generation. */
  ghost predicate Honest(c: Conditions) {
    var all := (
      c.ready.Reported? && c.ready.verdict.IsTrue? ==>
        && ConditionTrue(c.accepted, c.ready.generation)
        && ConditionTrue(c.programmed, c.ready.generation)
        && ConditionTrue(c.connectorReady, c.ready.generation)
    );
    all
  }

  /** The identifiers in `s` were issued for the object `u`. */
  ghost predicate Recorded(a: Account, u: UID, s: Status) {
    && (s.tunnelID != NO_ID ==>
          && s.tunnelID in a.names && a.names[s.tunnelID] == ForPrivateRoute(u)
          && s.tunnelName == ForPrivateRoute(u))
    && (s.routeID != NO_ID ==>
          s.routeID in a.comments && a.comments[s.routeID] == TagOf(u))
  }

  /** At most one remote route carries the tag of `u`, and `s` says where it is. */
  ghost predicate Placed(a: Account, dropped: set<Id>, u: UID, s: Status) {
    && (forall i, j | Tagged(a, u, i) && Tagged(a, u, j) :: i == j)
    && (forall i | Tagged(a, u, i) ::
          var r := a.routes[i];
          && s.network.Some? && r.network == s.network
          && s.tunnelID != NO_ID && r.tunnelID == s.tunnelID && r.tunnelID !in dropped
          && (s.routeID != NO_ID ==> i == s.routeID))
  }

  /** At most one live tunnel carries the name of `u`; the controller made it, and if a tunnel is on record
      it is that one. */
  ghost predicate OneTunnel(a: Account, u: UID, recorded: Id) {
    && (forall i, j | Named(a, u, i) && Named(a, u, j) :: i == j)
    && (forall i | Named(a, u, i) :: a.tunnels[i].configSource == Managed && (recorded == NO_ID || recorded == i))
  }

  ghost predicate ObjectOk(a: Account, dropped: set<Id>, u: UID, o: RouteObject) {
    && o.uid == u
    && (!o.finalizer ==> o.status.tunnelID == NO_ID && o.status.routeID == NO_ID && o.status.network == None)
    && (o.status.tunnelID in dropped ==> o.deleting)
    && Recorded(a, u, o.status)
    && Placed(a, dropped, u, o.status)
    && OneTunnel(a, u, o.status.tunnelID)
    && (o.status.network.Some? ==> o.status.tunnelID != NO_ID)
    && Honest(o.status.conditions)
  }

  ghost predicate ObjectsOk(w: Snapshot) {
    && w.objects.Keys <= w.uids
    && forall u {:trigger ObjectOk(w.account, w.dropped, u, w.objects[u])} | u in w.objects ::
         ObjectOk(w.account, w.dropped, u, w.objects[u])
  }

  ghost predicate ChildrenOk(w: Snapshot) {
    forall k | k in w.children && w.children[k] in w.uids :: k.prefix == Prefix(w.children[k])
  }

  predicate Owns(w: Snapshot, u: UID, k: ChildKey) {
    k in w.children && w.children[k] == u
  }

  ghost predicate NoneTagged(a: Account, u: UID) {
    forall i :: !Tagged(a, u, i)
  }

  /** Nothing is left of the object `o` but what its policy keeps: no child, and under Delete no route and
      no tunnel under the recorded identifier. */
  ghost predicate Discharged(w: Snapshot, o: RouteObject) {
    && (forall k :: !Owns(w, o.uid, k))
    && (!o.spec.retain ==> NoneTagged(w.account, o.uid) && o.status.tunnelID !in w.account.tunnels)
  }

  /** Every object the controller let go is discharged, under the policy it had then. */
  ghost predicate ReleasedOk(w: Snapshot) {
    forall u {:trigger Gone(w, u, w.released[u])} | u in w.released :: Gone(w, u, w.released[u])
  }

  ghost predicate Gone(w: Snapshot, u: UID, o: RouteObject) {
    u in w.uids && u !in w.objects && o.uid == u && Recorded(w.account, u, o.status) && Discharged(w, o)
  }

  /** An object has a tunnel on record only if it trusts its provider, and the provider it trusts is there. */
  ghost predicate TrustOk(w: Snapshot) {
    w.trusting <= w.uids && forall u {:trigger Trusts(w, u)} | u in w.objects :: Trusts(w, u)
  }

  ghost predicate Trusts(w: Snapshot, u: UID)
    requires u in w.objects
  {
    && (w.objects[u].status.tunnelID != NO_ID ==> u in w.trusting)
    && (u in w.trusting ==> Provided(w.cluster, RefOf(w.objects[u].spec)))
  }

  ghost predicate DroppedOk(w: Snapshot) {
    forall id | id in w.dropped :: id in w.account.names && id !in w.account.tunnels
  }

  /** The parts of the invariant. */
  datatype Aspect = OfAccount | OfDropped | OfObjects | OfChildren | OfReleased | OfTrust

  ghost predicate Sound(w: Snapshot, aspect: Aspect) {
    match aspect
    case OfAccount => AccountOk(w.account)
    case OfDropped => DroppedOk(w)
    case OfObjects => ObjectsOk(w)
    case OfChildren => ChildrenOk(w)
    case OfReleased => ReleasedOk(w)
    case OfTrust => TrustOk(w)
  }

  /** Quantified over its parts, so that the verifier looks at a part only where it is asked to. */
  ghost predicate Inv(w: Snapshot) {
    forall aspect {:trigger Sound(w, aspect)} :: Sound(w, aspect)
  }

  lemma InvParts(w: Snapshot)
    requires Inv(w)
    ensures AccountOk(w.account) && DroppedOk(w) && ObjectsOk(w) && ChildrenOk(w) && ReleasedOk(w) && TrustOk(w)
  {
    assert Sound(w, OfAccount) && Sound(w, OfDropped) && Sound(w, OfObjects);
    assert Sound(w, OfChildren) && Sound(w, OfReleased) && Sound(w, OfTrust);
  }

  /** Enough parts make up the invariant. */
  lemma InvOfParts(w: Snapshot)
    requires AccountOk(w.account) && DroppedOk(w) && ObjectsOk(w) && ChildrenOk(w) && ReleasedOk(w) && TrustOk(w)
    ensures Inv(w)
  {
    forall aspect: Aspect ensures Sound(w, aspect) {
      match aspect
      case _ =>
    }
  }

  /** What the invariant says of `u`. */
  lemma ObjectParts(w: Snapshot, u: UID)
    requires Inv(w) && u in w.objects
    ensures AccountOk(w.account) && u in w.uids && ObjectOk(w.account, w.dropped, u, w.objects[u]) && Trusts(w, u)
  {
    InvParts(w);
  }

  function RoutesOf(a: Account, u: UID): set<Id> {
    set i | i in a.routes && Tagged(a, u, i)
  }

  /** At most one remote route carries the tag of `u`; it is at the network and on the tunnel on record, it
      is the route on record when there is one, and the controller has not deleted the tunnel it is on. */
  ghost predicate AtMostOneRoute(w: Snapshot, u: UID)
    requires u in w.objects
  {
    var s := w.objects[u].status;
    && |RoutesOf(w.account, u)| <= 1
    && forall i | i in RoutesOf(w.account, u) ::
         && w.account.routes[i].network == s.network && w.account.routes[i].tunnelID == s.tunnelID
         && s.routeID in {NO_ID, i} && s.tunnelID !in w.dropped
  }

  const NOTHING := Snapshot(
    Account(1, map[], map[], map[], map[]),
    Cluster(map[], map[], map[], map[], map[], map[], map[], {}),
    map[], map[], {}, {}, map[], {})

  /** The states the protocol is meant to stay in. A variable of this type satisfies `Inv` whenever it
      is assigned, so at every point of every run. */
  type World = s: Snapshot | Inv(s) witness NOTHING

  lemma NoOrphanRoute(w: World, u: UID)
    requires u in w.objects
    ensures AtMostOneRoute(w, u) && Honest(w.objects[u].status.conditions)
  {
    ObjectParts(w, u);
    var routes := RoutesOf(w.account, u);
    if routes != {} {
      var i :| i in routes;
      assert routes == {i};
    }
  }

  // ----- The environment -----

  /** One step of anyone but this controller. `RemoteChanged` covers external deletion of tunnels
      and routes and foreign additions, `ClusterChanged` every change of Services, grants,
      namespaces and providers; providers that an object trusts stay, which is what module `Fleet` shows
      of the provider controller. */
  datatype Event =
    | RemoteChanged(account: Account)
    | ClusterChanged(cluster: Cluster)
    | ChildrenChanged(children: map<ChildKey, UID>)
    | ObjectCreated(object: RouteObject)
    | SpecEdited(uid: UID, spec: Spec)
    | DeletionRequested(uid: UID)

  predicate Allowed(w: Snapshot, e: Event) {
    match e
    case RemoteChanged(a) => Moved(w.account, a, TunnelNames(w), Comments(w))
    case ClusterChanged(c) => forall u | u in w.objects && u in w.trusting :: Provided(c, RefOf(w.objects[u].spec))
    case ChildrenChanged(c) =>
      forall k | k in c && c[k] in w.uids :: k in w.children && w.children[k] == c[k]
    case ObjectCreated(o) =>
      && o.uid !in w.uids && o.uid !in w.objects && !o.finalizer && !o.deleting && o.status == BLANK
      && (forall id | id in w.account.names :: w.account.names[id] != ForPrivateRoute(o.uid))
      && (forall id | id in w.account.comments :: w.account.comments[id] != TagOf(o.uid))
      && (forall k | k in w.children :: w.children[k] != o.uid)
    case SpecEdited(u, spec) =>
      u in w.objects && RefOf(spec) == RefOf(w.objects[u].spec)
    case DeletionRequested(u) => u in w.objects
  }

  function Apply(w: Snapshot, e: Event): Snapshot {
    if !Allowed(w, e) then w else
    match e
    case RemoteChanged(a) => w.(account := a)
    case ClusterChanged(c) => w.(cluster := c)
    case ChildrenChanged(c) => w.(children := c)
    case ObjectCreated(o) => w.(objects := w.objects[o.uid := o], uids := w.uids + {o.uid})
    case SpecEdited(u, spec) =>
      var o := w.objects[u];
      w.(objects := w.objects[u := o.(spec := spec, generation := o.generation + 1, version := o.version + 1)])
    case DeletionRequested(u) =>
      var o := w.objects[u];
      if o.finalizer then
        w.(objects := w.objects[u := o.(deleting := true, generation := o.generation + 1, version := o.version + 1)])
      else
        w.(objects := w.objects - {u})
  }

  /** How an object may differ from an earlier copy when the controller has not written it. */
  ghost predicate Untouched(o: RouteObject, p: RouteObject) {
    var all := (
      && p.status.tunnelID == o.status.tunnelID && p.status.tunnelName == o.status.tunnelName
      && p.status.routeID == o.status.routeID && p.status.network == o.status.network
      && p.finalizer == o.finalizer
      && (o.deleting ==> p.deleting)
      && o.version <= p.version
      && (p.version == o.version ==> p.deleting == o.deleting && p.spec.retain == o.spec.retain)
      && RefOf(p.spec) == RefOf(o.spec)
    );
    all
  }

  /** The copy `o` is up to date but for edits of the spec and a deletion request. */
  ghost predicate Holds(w: Snapshot, o: RouteObject) {
    var all := (
      && o.finalizer && Honest(o.status.conditions)
      && o.uid in w.uids && o.uid in w.objects && Untouched(o, w.objects[o.uid])
    );
    all
  }

  predicate Owned(current: PrivateRoute, o: RouteObject) {
    && current.id != NO_ID && current.comment == TagOf(o.uid)
    && (o.status.tunnelID == NO_ID || current.tunnelID == o.status.tunnelID)
  }

  /** The route `id` is there, the object's own, at the network and on the tunnel. */
  predicate Matches(a: Account, o: RouteObject, id: Id, network: Network, tunnelID: Id) {
    && id in a.routes && Owned(a.routes[id], o)
    && a.routes[id].network == network && a.routes[id].tunnelID == tunnelID
  }

  /** `current` was read from the account, at the network recorded in `o`. */
  ghost predicate Seen(a: Account, o: RouteObject, current: PrivateRoute) {
    && Issued(a, current) && current.network == o.status.network
    && (Tagged(a, o.uid, current.id) ==> a.routes[current.id] == current)
  }

  /** The tunnel `id` was issued for `u`, is the only one that `u` may have, and this controller has not
      deleted it. */
  ghost predicate Usable(w: Snapshot, u: UID, id: Id) {
    && id != NO_ID && id in w.account.names && w.account.names[id] == ForPrivateRoute(u) && id !in w.dropped
    && OneTunnel(w.account, u, id)
  }

  /** Nobody but `u` routes `network`. */
  ghost predicate Unopposed(a: Account, u: UID, network: Network) {
    forall i | i in a.routes && a.routes[i].network == network :: Tagged(a, u, i)
  }

  /** Somebody else routes `network`, and `u` does not. */
  ghost predicate Foreign(a: Account, u: UID, network: Network) {
    && (exists i :: i in a.routes && a.routes[i].network == network)
    && (forall i | i in a.routes && a.routes[i].network == network :: !Tagged(a, u, i))
  }

  /** Somebody else routes the network that `o` is to have, and nothing of `o` is gone or elsewhere. */
  ghost predicate Obstructed(w: Snapshot, o: RouteObject, network: Network) {
    && Foreign(w.account, o.uid, network) && o.status.network in {None, network}
    && (o.status.tunnelID == NO_ID || o.status.tunnelID in w.account.tunnels)
  }

  /** Exactly one remote route is tagged for `u`; it is at `network`, on the recorded tunnel, and on record. */
  ghost predicate Settled(w: Snapshot, u: UID, network: Network) {
    var all := (
      && u in w.objects
      && var s := w.objects[u].status;
         && s.network == network && Tagged(w.account, u, s.routeID)
         && (forall i | Tagged(w.account, u, i) :: i == s.routeID)
         && var r := w.account.routes[s.routeID]; r.network == network && r.tunnelID == s.tunnelID
    );
    all
  }

  /** The object is settled at `network`, and the tunnel on record is there. */
  ghost predicate Serving(w: Snapshot, u: UID, network: Network) {
    var all := (
      Settled(w, u, network) && w.objects[u].status.tunnelID in w.account.tunnels
    );
    all
  }

  /** The object has no remote route, and says that it is not accepted, without connector and not ready. */
  ghost predicate Withdrawn(w: Snapshot, u: UID, reason: Reason) {
    var all := (
      && u in w.objects && NoneTagged(w.account, u)
      && var o := w.objects[u];
         && Says(o.status.conditions.accepted, o.generation, false) && o.status.conditions.accepted.reason == reason
         && Says(o.status.conditions.connectorReady, o.generation, false)
         && Says(o.status.conditions.ready, o.generation, false)
    );
    all
  }

  /** True or False at `generation`, as `yes` says. */
  predicate Says(c: Condition, generation: int, yes: bool) {
    c.Reported? && c.generation == generation && if yes then c.verdict.IsTrue? else c.verdict.IsFalse?
  }

  /** The object has its connector and reports acceptance and a programmed route; it is ready if the connector
      is rolled out. */
  ghost predicate Accepts(w: Snapshot, u: UID, rollout: bool) {
    var all := (
      && u in w.objects && HasConnector(w, u)
      && var o := w.objects[u];
         && Says(o.status.conditions.accepted, o.generation, true)
         && Says(o.status.conditions.programmed, o.generation, true)
         && Says(o.status.conditions.connectorReady, o.generation, rollout)
         && Says(o.status.conditions.ready, o.generation, rollout)
    );
    all
  }

  predicate HasConnector(w: Snapshot, u: UID) {
    Owns(w, u, ChildKey(Secret, Prefix(u))) && Owns(w, u, ChildKey(Deployment, Prefix(u)))
  }

  /** No child with a name of the object's belongs to another object. */
  predicate MayWrite(w: Snapshot, u: UID) {
    MayRemove(w, u, Secret) && MayRemove(w, u, Deployment)
  }

  /** The object reports that the last pass failed. */
  predicate ReportsFailure(w: Snapshot, u: UID) {
    && u in w.objects
    && w.objects[u].status.conditions.ready == Reported(IsFalse, w.objects[u].generation, ReconciliationFailed)
  }

  /** What one undisturbed pass over `u` brings about. */
  ghost predicate Converges(w: Snapshot, v: Snapshot, u: UID, ok: bool, rollout: bool)
    requires u in w.objects
  {
    var all := (
      var o := w.objects[u];
      if o.deleting then
        && (o.finalizer ==> (ok <==> CanFinish(w, o)) && (u !in v.objects <==> CanFinish(w, o)))
        && (o.finalizer && CanFinish(w, o) ==>
              Discharged(v, o) && v.account.tunnels == TunnelsLeft(w.account, o))
        && (o.spec.retain ==> v.account == w.account)
      else if !o.finalizer then u in v.objects && v.objects[u].finalizer
      else match Validate(w.cluster, w.objects, o)
        case ReadFailed => true
        case Rejected(reason) =>
          if reason == ProviderControllerClassMismatch then v.account == w.account
          else
            && (ok <==> o.status.network == None || Reachable(w.cluster, RefOf(o.spec)))
            && (ok ==> Withdrawn(v, u, reason))
        case Admitted(network) =>
          && o.spec.provider in w.cluster.providers
          && (w.cluster.providers[o.spec.provider].tokenSecret in w.cluster.tokens
              && Unopposed(w.account, u, network) ==>
                && Serving(v, u, network)
                && (ok ==> Accepts(v, u, rollout))
                && (ok <==> MayWrite(w, u)))
          && (w.cluster.providers[o.spec.provider].tokenSecret !in w.cluster.tokens ==>
                !ok && v.account == w.account)
          && (Obstructed(w, o, network) ==> !ok)
    );
    all
  }

  /** Unless others move too, every remote route and tunnel and every child is still there, as it was. */
  ghost predicate Keeps(mode: Mode, w: Snapshot, v: Snapshot) {
    var all := (
      !mode.Busy? ==>
        && (forall i | i in w.account.routes ::
              i in v.account.routes && v.account.routes[i] == w.account.routes[i])
        && (forall i | i in w.account.tunnels ::
              i in v.account.tunnels && v.account.tunnels[i] == w.account.tunnels[i])
        && (forall k | k in w.children :: k in v.children && v.children[k] == w.children[k])
    );
    all
  }

  /** The object passes validation at the network on record, and the tunnel on record is live. */
  ghost predicate Valid(w: Snapshot, o: RouteObject) {
    var all := (
      && !o.deleting && o.status.network.Some? && o.status.tunnelID in w.account.tunnels
      && Validate(w.cluster, w.objects, o) == Admitted(o.status.network)
    );
    all
  }

  predicate SameButTrust(w: Snapshot, v: Snapshot) {
    v == w.(trusting := v.trusting)
  }

  /** The tunnel is as the controller makes it for `u`. */
  predicate AsIssued(tunnel: Tunnel, u: UID) {
    tunnel.name == ForPrivateRoute(u) && tunnel.configSource == Managed
  }

  /** The tunnel is the one on record. */
  predicate AsRecorded(tunnel: Tunnel, s: Status) {
    tunnel.name == s.tunnelName && tunnel.configSource == Managed
  }

  /** From `w` to `v` nothing happened but the removal of remote routes. */
  ghost predicate Pruned(w: Snapshot, v: Snapshot) {
    var all := (
      && v.objects == w.objects && v.cluster == w.cluster && v.children == w.children
      && OnlyRoutesLost(w.account, v.account)
    );
    all
  }

  /** The remote identifiers on record for `u` are the same. */
  ghost predicate KeepsRecord(w: Snapshot, v: Snapshot, u: UID) {
    var all := (
      && u in w.objects && u in v.objects
      && var s, t := w.objects[u].status, v.objects[u].status;
         t.tunnelID == s.tunnelID && t.routeID == s.routeID && t.network == s.network
    );
    all
  }

  lemma ChildrenOf(w: World, u: UID)
    requires u in w.uids
    requires forall kind :: !Owns(w, u, ChildKey(kind, Prefix(u)))
    ensures forall k :: !Owns(w, u, k)
  {
    InvParts(w);
  }

  /** The object is marked for deletion and waits for the finalizer to come off. */
  predicate Dying(w: Snapshot, u: UID) {
    u in w.objects && w.objects[u].deleting && w.objects[u].finalizer
  }

  /** Nothing but a fault can keep the finalization of `o` from completing. */
  predicate CanFinish(w: Snapshot, o: RouteObject) {
    && MayRemove(w, o.uid, Deployment) && MayRemove(w, o.uid, Secret)
    && (o.spec.retain || o.status.tunnelID == NO_ID || Reachable(w.cluster, RefOf(o.spec)))
  }

  /** The tunnels a finalization of `o` leaves: all but the recorded one, and under Retain that too. */
  function TunnelsLeft(a: Account, o: RouteObject): map<Id, Tunnel> {
    if o.spec.retain || o.status.tunnelID == NO_ID then a.tunnels else a.tunnels - {o.status.tunnelID}
  }

  /** In every state of every run nothing is left of an object that the controller let go, and it never
      comes back. */
  lemma StaysDischarged(w: World, u: UID)
    requires u in w.released
    ensures u !in w.objects && w.released[u].uid == u && Discharged(w, w.released[u])
  {
    InvParts(w);
    assert Gone(w, u, w.released[u]);
  }

  /** A provider that is missing or of another class never keeps an object from going: what a finalization
      can still wait for is the API token, and children that are not the object's own. */
  lemma ProviderNeverBlocks(w: World, u: UID)
    requires u in w.objects
    ensures var o := w.objects[u];
            && (o.status.tunnelID != NO_ID ==> Provided(w.cluster, RefOf(o.spec)))
            && (CanFinish(w, o) <==>
                  && MayRemove(w, u, Deployment) && MayRemove(w, u, Secret)
                  && (o.spec.retain || o.status.tunnelID == NO_ID || HasToken(w.cluster, o.spec.provider)))
  {
    ObjectParts(w, u);
  }

  predicate MayRemove(w: Snapshot, u: UID, kind: ChildKind) {
    var k := ChildKey(kind, Prefix(u));
    k in w.children ==> w.children[k] == u
  }

  lemma Present(w: World, u: UID)
    requires u in w.objects
    ensures u in w.uids && (w.objects[u].status.tunnelID in w.dropped ==> w.objects[u].deleting)
  {
    ObjectParts(w, u);
  }

  /** What the invariant says of the identifiers in an up-to-date copy. */
  lemma OnRecord(w: World, o: RouteObject)
    requires Holds(w, o)
    ensures var s := o.status;
            && AccountOk(w.account) && Recorded(w.account, o.uid, s) && Placed(w.account, w.dropped, o.uid, s)
            && OneTunnel(w.account, o.uid, s.tunnelID) && (s.network.Some? ==> s.tunnelID != NO_ID)
            && (s.tunnelID != NO_ID ==> o.uid in w.trusting && Provided(w.cluster, RefOf(o.spec)))
            && (s.tunnelID in w.dropped ==> w.objects[o.uid].deleting)
  {
    ObjectParts(w, o.uid);
  }

  /** What survives any number of environment steps. */
  ghost predicate Drifts(w: Snapshot, v: Snapshot) {
    var all := (
      && v.dropped == w.dropped && v.released == w.released && v.trusting == w.trusting
      && w.uids <= v.uids
      && (AccountOk(w.account) ==> Moved(w.account, v.account, TunnelNames(w), Comments(w)))
      && (forall u | u in w.objects && w.objects[u].finalizer :: u in v.objects)
      && (forall u | u in v.objects ::
            if u in w.objects then Untouched(w.objects[u], v.objects[u])
            else u !in w.uids && !v.objects[u].finalizer)
      && (forall k | k in v.children && v.children[k] in w.uids :: k in w.children && w.children[k] == v.children[k])
    );
    all
  }

  lemma EditDrifts(w: Snapshot, u: UID, o: RouteObject)
    requires u in w.objects && Untouched(w.objects[u], o)
    ensures Drifts(w, w.(objects := w.objects[u := o]))
  {}

  lemma EventDrifts(w: Snapshot, e: Event)
    ensures Drifts(w, Apply(w, e))
  {
    if Allowed(w, e) {
      match e
      case SpecEdited(u, _) => EditDrifts(w, u, Apply(w, e).objects[u]);
      case DeletionRequested(u) =>
        if w.objects[u].finalizer {
          EditDrifts(w, u, Apply(w, e).objects[u]);
        }
      case _ =>
    }
  }

  lemma DriftTransitive(w: Snapshot, v: Snapshot, x: Snapshot)
    requires Drifts(w, v) && Drifts(v, x) && w.objects.Keys <= w.uids
    ensures Drifts(w, x)
  {}

  /** What carries the tag, name or label of `u` in `v` did so in `w` already. */
  ghost predicate NothingGained(w: Snapshot, v: Snapshot, u: UID) {
    var all := (
      && (forall i | Tagged(v.account, u, i) :: Tagged(w.account, u, i) && v.account.routes[i] == w.account.routes[i])
      && (forall i | Named(v.account, u, i) ::
            Named(w.account, u, i) && v.account.tunnels[i] == w.account.tunnels[i])
      && (forall k | Owns(v, u, k) :: Owns(w, u, k))
    );
    all
  }

  /** Moreover what was issued stays issued. */
  ghost predicate Lessened(w: Snapshot, v: Snapshot, u: UID) {
    var all := (
      && w.uids <= v.uids && NothingGained(w, v, u)
      && (forall id | id in w.account.names :: id in v.account.names && v.account.names[id] == w.account.names[id])
      && (forall id | id in w.account.comments ::
            id in v.account.comments && v.account.comments[id] == w.account.comments[id])
    );
    all
  }

  /** Moreover the object itself is still there, with the same tunnel on record. */
  ghost predicate Shrunk(w: Snapshot, v: Snapshot, u: UID) {
    var all := (
      && v.dropped == w.dropped && v.released == w.released && (u in w.trusting ==> u in v.trusting)
      && (u in w.objects && w.objects[u].finalizer ==> u in v.objects && Kept(w.objects[u], v.objects[u]))
      && Lessened(w, v, u)
    );
    all
  }

  /** Moreover an object that is gone stays gone. */
  ghost predicate Recedes(w: Snapshot, v: Snapshot, u: UID) {
    var all := (
      Shrunk(w, v, u) && SameTunnel(w, v, u)
    );
    all
  }

  /** If `u` is there it was there before, with the same tunnel on record. */
  predicate SameTunnel(w: Snapshot, v: Snapshot, u: UID) {
    u in v.objects ==> u in w.objects && v.objects[u].status.tunnelID == w.objects[u].status.tunnelID
  }

  ghost predicate Remains(w: Snapshot, v: Snapshot, u: UID) {
    var all := (
      u in w.objects && u in v.objects && Kept(w.objects[u], v.objects[u])
    );
    all
  }

  ghost predicate Kept(o: RouteObject, p: RouteObject) {
    p.finalizer && (o.deleting ==> p.deleting) && p.status.tunnelID == o.status.tunnelID
  }

  /** A tunnel came on record for `u`. */
  predicate NewTunnel(w: Snapshot, v: Snapshot, u: UID) {
    && u in w.objects && w.objects[u].status.tunnelID == NO_ID
    && u in v.objects && v.objects[u].status.tunnelID != NO_ID
  }

  /** The environment moved from `w` to `v`, as far as the object `u` can tell. */
  ghost predicate Moves(w: World, v: World, u: UID) {
    var all := (
      u in w.uids ==>
        && Shrunk(w, v, u)
        && v.trusting == w.trusting
        && (u in v.objects ==> u in w.objects && Untouched(w.objects[u], v.objects[u]))
    );
    all
  }

  lemma DriftShrinks(w: World, v: Snapshot, u: UID)
    requires Drifts(w, v) && u in w.uids
    ensures Shrunk(w, v, u)
  {
    InvParts(w);
  }

  // ----- The controller's own steps -----

  function WithStatus(w: Snapshot, u: UID, s: Status): Snapshot
    requires u in w.objects
  {
    w.(objects := w.objects[u := w.objects[u].(status := s, version := w.objects[u].version + 1)])
  }

  function WithFinalizer(w: Snapshot, u: UID): Snapshot
    requires u in w.objects
  {
    w.(objects := w.objects[u := w.objects[u].(finalizer := true, version := w.objects[u].version + 1)])
  }

  /** Removing the finalizer of an object marked for deletion makes it disappear. */
  function Released(w: Snapshot, u: UID): Snapshot
    requires u in w.objects
  {
    w.(objects := w.objects - {u}, released := w.released[u := w.objects[u]])
  }

  /** `u` is still there, waiting to be let go, or the controller has let it go with the same tunnel on
      record; every `World` says that it is discharged then. */
  ghost predicate Finishing(w: Snapshot, v: Snapshot, u: UID) {
    var all := (
      && u in w.objects
      && if u in v.objects then Remains(w, v, u)
         else u in v.released && v.released[u].status.tunnelID == w.objects[u].status.tunnelID
    );
    all
  }

  /** From now on the object relies on its provider. */
  function Trusted(w: Snapshot, u: UID): Snapshot {
    w.(trusting := w.trusting + {u})
  }

  function TunnelMade(w: Snapshot, name: TunnelName): Snapshot {
    w.(account := AddTunnel(w.account, name))
  }

  function TunnelRemoved(w: Snapshot, id: Id): Snapshot {
    if id in w.account.tunnels then w.(account := DropTunnel(w.account, id), dropped := w.dropped + {id}) else w
  }

  function RouteMade(w: Snapshot, network: Network, tunnelID: Id, comment: Comment): Snapshot {
    w.(account := AddRoute(w.account, network, tunnelID, comment))
  }

  function RouteRemoved(w: Snapshot, id: Id): Snapshot {
    w.(account := DropRoute(w.account, id))
  }

  function ChildWritten(w: Snapshot, u: UID, k: ChildKey): Snapshot {
    w.(children := w.children[k := u])
  }

  function ChildRemoved(w: Snapshot, k: ChildKey): Snapshot {
    w.(children := w.children - {k})
  }

  // ----- Non-interference -----

  /** The things in a world, by where they are. */
  datatype Thing =
    | AtCluster
    | AtObject(uid: UID)
    | AtRoute(id: Id)
    | AtTunnel(id: Id)
    | AtChild(key: ChildKey)

  /** What is at `x` is the same in `w` and in `v`, or is `u` itself or carries its tag, name or label. */
  predicate SameAt(w: Snapshot, v: Snapshot, u: UID, x: Thing) {
    match x
    case AtCluster => v.cluster == w.cluster && v.uids == w.uids
    case AtObject(y) => y == u || Lookup(v.objects, y) == Lookup(w.objects, y)
    case AtRoute(i) =>
      var r, s := Lookup(w.account.routes, i), Lookup(v.account.routes, i);
      s == r || ((r.None? || r.value.comment == TagOf(u)) && (s.None? || s.value.comment == TagOf(u)))
    case AtTunnel(i) =>
      var r, s := Lookup(w.account.tunnels, i), Lookup(v.account.tunnels, i);
      s == r || ((r.None? || r.value.name == ForPrivateRoute(u)) && (s.None? || s.value.name == ForPrivateRoute(u)))
    case AtChild(k) =>
      var r, s := Lookup(w.children, k), Lookup(v.children, k);
      s == r || ((r.None? || r.value == u) && (s.None? || s.value == u))
  }

  /** From `w` to `v` nothing changed but what carries the tag, name or label of `u`, and `u` itself. */
  ghost predicate Elsewhere(w: Snapshot, v: Snapshot, u: UID) {
    var all := (
      forall x: Thing {:trigger SameAt(w, v, u, x)} :: SameAt(w, v, u, x)
    );
    all
  }

  /** The same object but for status, version and finalizer. */
  predicate SameSpec(o: RouteObject, p: RouteObject) {
    p == o.(status := p.status, version := p.version, finalizer := p.finalizer) && (o.finalizer ==> p.finalizer)
  }

  /** Nor did `u` change but in status and finalizer, or by going as it was. */
  predicate SameSelf(w: Snapshot, v: Snapshot, u: UID) {
    && (u in w.released ==> u in v.released && v.released[u] == w.released[u])
    && match (Lookup(w.objects, u), Lookup(v.objects, u))
       case (Some(o), Some(p)) => SameSpec(o, p)
       case (Some(o), None) => o.deleting && u in v.released && SameSpec(o, v.released[u])
       case (None, p) => p.None?
  }

  /** To the object `x` what happened from `w` to `v` looks like moves of the environment. */
  ghost predicate Spared(w: Snapshot, v: Snapshot, x: UID) {
    && NothingGained(w, v, x)
    && (x in v.objects ==> x in w.objects && Untouched(w.objects[x], v.objects[x]))
    && (x in w.objects && w.objects[x].finalizer ==> x in v.objects)
  }

  /** What a pass over `u` did from `w` to `v` is confined to `u`: to every other object it looks like moves
      of the environment, if nobody else moved nothing changed but what is `u`'s, and the object came to
      trust its provider only as it was in `c`. */
  ghost predicate Confined(mode: Mode, w: Snapshot, c: Cluster, v: Snapshot, u: UID) {
    var all := (
      match mode
      case Busy => Spares(w, v, u) && Warranted(w, c, v, u)
      case _ => Spares(w, v, u) && Warranted(w, c, v, u) && Alone(w, v, u)
    );
    all
  }

  ghost predicate Alone(w: Snapshot, v: Snapshot, u: UID) {
    Elsewhere(w, v, u) && forall x {:trigger SameSelf(w, v, x)} | x == u :: SameSelf(w, v, x)
  }

  ghost predicate Spares(w: Snapshot, v: Snapshot, u: UID) {
    w.uids <= v.uids && forall x {:trigger Spared(w, v, x)} | x in w.uids && x != u :: Spared(w, v, x)
  }

  ghost predicate Warranted(w: Snapshot, c: Cluster, v: Snapshot, u: UID) {
    u in v.trusting && u in v.objects ==> u in w.trusting || Reliable(c, RefOf(v.objects[u].spec))
  }

  /** Nobody else gains anything, and no other object changes. */
  lemma ElsewhereSpares(w: World, v: Snapshot, u: UID, x: UID)
    requires Elsewhere(w, v, u) && x != u
    ensures NothingGained(w, v, x)
    ensures x in v.objects <==> x in w.objects
    ensures x in w.objects ==> v.objects[x] == w.objects[x]
    ensures v.uids == w.uids && v.cluster == w.cluster
  {
    assert SameAt(w, v, u, AtCluster) && SameAt(w, v, u, AtObject(x));
    forall i | Tagged(v.account, x, i) ensures Tagged(w.account, x, i) && v.account.routes[i] == w.account.routes[i] {
      assert SameAt(w, v, u, AtRoute(i));
    }
    forall i | Named(v.account, x, i) ensures Named(w.account, x, i) && v.account.tunnels[i] == w.account.tunnels[i] {
      assert SameAt(w, v, u, AtTunnel(i));
    }
    forall k | Owns(v, x, k) ensures Owns(w, x, k) {
      assert SameAt(w, v, u, AtChild(k));
    }
  }

  lemma DriftSpares(w: World, v: World, x: UID)
    requires Drifts(w, v) && x in w.uids
    ensures Spared(w, v, x)
  {
    InvParts(w);
  }

  lemma SparedOn(w: World, m: World, v: World, x: UID)
    requires Spared(w, m, x) && Spared(m, v, x)
    ensures Spared(w, v, x)
  {}

  lemma AloneOn(w: World, m: World, v: World, u: UID)
    requires Alone(w, m, u) && Alone(m, v, u)
    ensures Alone(w, v, u)
  {
    forall x: Thing ensures SameAt(w, v, u, x) {
      assert SameAt(w, m, u, x) && SameAt(m, v, u, x);
    }
    assert SameSelf(w, m, u) && SameSelf(m, v, u);
  }

  lemma NothingConfined(mode: Mode, w: World, c: Cluster, u: UID)
    ensures Confined(mode, w, c, w, u)
  {
    forall x | x in w.uids ensures Spared(w, w, x) {
      assert NothingGained(w, w, x);
    }
  }

  /** The controller's own steps for `u` stay confined. */
  lemma StepConfined(mode: Mode, w: World, c: Cluster, m: World, v: World, u: UID)
    requires Confined(mode, w, c, m, u) && Alone(m, v, u)
    requires v.trusting == m.trusting || (u in v.objects && Reliable(c, RefOf(v.objects[u].spec)))
    ensures Confined(mode, w, c, v, u)
  {
    assert SameAt(m, v, u, AtCluster) && SameSelf(m, v, u);
    forall x | x in w.uids && x != u ensures Spared(w, v, x) {
      ElsewhereSpares(m, v, u, x);
      SparedOn(w, m, v, x);
    }
    if !mode.Busy? {
      AloneOn(w, m, v, u);
    }
  }

  /** So does a report on an object that was not there at the start. */
  lemma NewcomerConfined(mode: Mode, w: World, c: Cluster, m: World, v: World, u: UID, x: UID)
    requires Confined(mode, w, c, m, u) && Alone(m, v, x) && v.trusting == m.trusting
    requires x in m.objects && x !in w.uids && x != u
    ensures Confined(mode, w, c, v, u)
  {
    InvParts(w);
    forall y | y in w.uids && y != u ensures Spared(w, v, y) {
      ElsewhereSpares(m, v, x, y);
      SparedOn(w, m, v, y);
    }
    ElsewhereSpares(m, v, x, u);
    if !mode.Busy? {
      ElsewhereSpares(w, m, u, x);
      assert false;
    }
  }

  lemma DriftConfined(mode: Mode, w: World, c: Cluster, m: World, v: World, u: UID)
    requires Confined(mode, w, c, m, u) && Drifts(m, v) && (!mode.Busy? ==> v == m)
    ensures Confined(mode, w, c, v, u)
  {
    InvParts(w);
    InvParts(m);
    forall x | x in w.uids && x != u ensures Spared(w, v, x) {
      DriftSpares(m, v, x);
      SparedOn(w, m, v, x);
    }
  }

  lemma TunnelMadeAlone(w: World, u: UID)
    ensures Alone(w, TunnelMade(w, ForPrivateRoute(u)), u)
  {
    InvParts(w);
  }

  lemma TunnelRemovedAlone(w: World, u: UID, id: Id)
    requires id in w.account.tunnels ==> Named(w.account, u, id)
    ensures Alone(w, TunnelRemoved(w, id), u)
  {}

  lemma RouteMadeAlone(w: World, u: UID, network: Network, tunnelID: Id)
    ensures Alone(w, RouteMade(w, network, tunnelID, TagOf(u)), u)
  {
    InvParts(w);
  }

  lemma RouteRemovedAlone(w: World, u: UID, id: Id)
    requires id in w.account.routes ==> Tagged(w.account, u, id)
    ensures Alone(w, RouteRemoved(w, id), u)
  {}

  lemma ChildStepsAlone(w: World, u: UID, k: ChildKey)
    requires k in w.children ==> w.children[k] == u
    ensures Alone(w, ChildWritten(w, u, k), u) && Alone(w, ChildRemoved(w, k), u)
  {}

  lemma ObjectStepsAlone(w: World, u: UID, s: Status)
    requires u in w.objects
    ensures Alone(w, WithStatus(w, u, s), u) && Alone(w, WithFinalizer(w, u), u) && Alone(w, Trusted(w, u), u)
    ensures w.objects[u].deleting ==> Alone(w, Released(w, u), u)
  {
    InvParts(w);
    assert u in w.released ==> Gone(w, u, w.released[u]);
  }

  // ----- The invariant -----

  lemma GoneStays(w: World, v: Snapshot, u: UID)
    requires u in w.released && Lessened(w, v, u) && AccountOk(v.account) && u !in v.objects
    ensures Gone(v, u, w.released[u])
  {
    InvParts(w);
    assert Gone(w, u, w.released[u]);
    var o := w.released[u];
    assert o.status.tunnelID in v.account.tunnels ==> Named(v.account, u, o.status.tunnelID);
  }

  lemma ObjectStays(w: World, v: Snapshot, u: UID)
    requires u in w.objects && Lessened(w, v, u) && v.dropped == w.dropped
    ensures ObjectOk(v.account, v.dropped, u, w.objects[u])
  {
    ObjectParts(w, u);
  }

  lemma DriftKeepsInv(w: World, v: Snapshot)
    requires Drifts(w, v) && SameOrNew(w, v) && TrustOk(v) && ChildrenOk(v)
    ensures Inv(v)
  {
    InvParts(w);
    forall u | u in v.objects ensures ObjectOk(v.account, v.dropped, u, v.objects[u]) {
      if u in w.objects {
        DriftShrinks(w, v, u);
        ObjectStays(w, v, u);
      }
    }
    forall u | u in v.released ensures Gone(v, u, v.released[u]) {
      assert Gone(w, u, w.released[u]);
      DriftShrinks(w, v, u);
      GoneStays(w, v, u);
    }
    InvOfParts(v);
  }

  predicate SameStatus(o: RouteObject, p: RouteObject) {
    p.uid == o.uid && p.finalizer == o.finalizer && (o.deleting ==> p.deleting) && p.status == o.status
  }

  /** An object has kept its status, or is there for the first time. */
  ghost predicate SameOrNew(w: Snapshot, v: Snapshot) {
    && v.objects.Keys <= v.uids
    && forall u | u in v.objects ::
         if u in w.objects then SameStatus(w.objects[u], v.objects[u])
         else ObjectOk(v.account, v.dropped, u, v.objects[u])
  }

  lemma EventKeepsObjects(w: World, e: Event)
    requires Allowed(w, e)
    ensures SameOrNew(w, Apply(w, e))
  {
    InvParts(w);
  }

  lemma EventKeepsTrust(w: World, e: Event)
    requires Allowed(w, e)
    ensures TrustOk(Apply(w, e)) && ChildrenOk(Apply(w, e))
  {
    InvParts(w);
    assert forall u | u in w.objects :: Trusts(w, u);
  }

  lemma EventKeepsInv(w: World, e: Event)
    ensures Inv(Apply(w, e))
  {
    InvParts(w);
    if Allowed(w, e) {
      EventDrifts(w, e);
      EventKeepsObjects(w, e);
      EventKeepsTrust(w, e);
      DriftKeepsInv(w, Apply(w, e));
    }
  }

  ghost predicate StillIssued(a: Account, b: Account) {
    && (forall id | id in a.names :: id in b.names && b.names[id] == a.names[id])
    && (forall id | id in a.comments :: id in b.comments && b.comments[id] == a.comments[id])
  }

  /** The tunnels the controller deletes for `u` are `u`'s. */
  ghost predicate OnlyOwnDropped(w: Snapshot, v: Snapshot, u: UID) {
    w.dropped <= v.dropped
    && forall id | id in v.dropped ::
         id in w.dropped || (id in w.account.names && w.account.names[id] == ForPrivateRoute(u))
  }

  /** A step for `u` that leaves everyone else alone keeps the invariant if it keeps what the invariant says
      of `u`. */
  lemma OwnStepKeepsInv(w: World, v: Snapshot, u: UID)
    requires u in w.objects && Elsewhere(w, v, u)
    requires AccountOk(v.account) && StillIssued(w.account, v.account)
    requires OnlyOwnDropped(w, v, u) && DroppedOk(v)
    requires v.released == w.released && w.trusting <= v.trusting <= w.trusting + {u}
    requires u in v.objects && ObjectOk(v.account, v.dropped, u, v.objects[u]) && Trusts(v, u)
    requires forall k | Owns(v, u, k) :: k.prefix == Prefix(u)
    ensures Inv(v)
  {
    InvParts(w);
    assert SameAt(w, v, u, AtCluster);
    forall x | x in v.objects ensures x in v.uids {
      assert SameAt(w, v, u, AtObject(x));
    }
    forall x | x in v.objects ensures ObjectOk(v.account, v.dropped, x, v.objects[x]) && Trusts(v, x) {
      if x != u {
        ElsewhereSpares(w, v, u, x);
        assert ObjectOk(w.account, w.dropped, x, w.objects[x]) && Trusts(w, x);
      }
    }
    forall x | x in v.released ensures Gone(v, x, v.released[x]) {
      assert Gone(w, x, w.released[x]);
      ElsewhereSpares(w, v, u, x);
      GoneStays(w, v, x);
    }
    forall k | k in v.children && v.children[k] in v.uids ensures k.prefix == Prefix(v.children[k]) {
      assert SameAt(w, v, u, AtChild(k));
    }
    InvOfParts(v);
  }

  /** What a status patch for `u` has to respect. */
  lemma PatchKeepsInv(w: World, u: UID, s: Status)
    requires u in w.objects && w.objects[u].finalizer
    requires Recorded(w.account, u, s) && Placed(w.account, w.dropped, u, s) && Honest(s.conditions)
    requires s.tunnelID in w.dropped ==> w.objects[u].deleting
    requires OneTunnel(w.account, u, s.tunnelID) && (s.network.Some? ==> s.tunnelID != NO_ID)
    requires s.tunnelID != NO_ID ==> u in w.trusting
    ensures Inv(WithStatus(w, u, s))
  {
    ObjectParts(w, u);
    InvParts(w);
    ObjectStepsAlone(w, u, s);
    OwnStepKeepsInv(w, WithStatus(w, u, s), u);
  }

  /** An object comes to trust its provider when it finds it current and of its class. */
  lemma TrustKeepsInv(w: World, u: UID)
    requires u in w.objects && Provided(w.cluster, RefOf(w.objects[u].spec))
    ensures Inv(Trusted(w, u))
  {
    ObjectParts(w, u);
    InvParts(w);
    ObjectStepsAlone(w, u, w.objects[u].status);
    OwnStepKeepsInv(w, Trusted(w, u), u);
  }

  lemma TrustShrinks(w: World, u: UID)
    ensures Shrunk(w, Trusted(w, u), u) && SameButTrust(w, Trusted(w, u)) && u in Trusted(w, u).trusting
  {}

  lemma FinalizerKeepsInv(w: World, u: UID)
    requires u in w.objects
    ensures Inv(WithFinalizer(w, u))
  {
    ObjectParts(w, u);
    ObjectStepsAlone(w, u, w.objects[u].status);
    InvParts(w);
    OwnStepKeepsInv(w, WithFinalizer(w, u), u);
  }

  lemma DischargedAlike(w: Snapshot, o: RouteObject, p: RouteObject)
    requires Discharged(w, o) && p.uid == o.uid && p.spec.retain == o.spec.retain
    requires p.status.tunnelID == o.status.tunnelID
    ensures Discharged(w, p)
  {}

  /** An object may be let go once it is discharged. */
  lemma ReleaseKeepsInv(w: World, u: UID)
    requires u in w.objects && Discharged(w, w.objects[u])
    ensures Inv(Released(w, u))
  {
    InvParts(w);
    ObjectParts(w, u);
    var v := Released(w, u);
    forall x | x in v.objects ensures ObjectOk(v.account, v.dropped, x, v.objects[x]) && Trusts(v, x) {
      assert ObjectOk(w.account, w.dropped, x, w.objects[x]) && Trusts(w, x);
    }
    forall x | x in v.released ensures Gone(v, x, v.released[x]) {
      assert forall k :: Owns(v, x, k) <==> Owns(w, x, k);
      assert x != u ==> Gone(w, x, w.released[x]);
    }
    InvOfParts(v);
  }

  /** The patches of a pass, each from an up-to-date copy. */
  lemma ForgettingKeepsInv(w: World, o: RouteObject)
    requires Holds(w, o) && NoneTagged(w.account, o.uid)
    ensures Inv(WithStatus(w, o.uid, WithoutTunnel(o.status))) && Inv(WithStatus(w, o.uid, WithoutRoute(o.status)))
  {
    InvParts(w);
    OnRecord(w, o);
    PatchKeepsInv(w, o.uid, WithoutTunnel(o.status));
    PatchKeepsInv(w, o.uid, WithoutRoute(o.status));
  }

  function WithoutTunnel(s: Status): Status {
    s.(tunnelID := NO_ID, tunnelName := OtherName(0), routeID := NO_ID, network := None)
  }

  function WithoutRoute(s: Status): Status {
    s.(routeID := NO_ID, network := None)
  }

  lemma LostRouteKeepsInv(w: World, o: RouteObject)
    requires Holds(w, o) && o.status.routeID != NO_ID && !Tagged(w.account, o.uid, o.status.routeID)
    ensures NoneTagged(w.account, o.uid) && Inv(WithStatus(w, o.uid, WithoutRoute(o.status)))
  {
    OnRecord(w, o);
    ForgettingKeepsInv(w, o);
  }

  lemma AdoptionKeepsInv(w: World, o: RouteObject, id: Id)
    requires Holds(w, o) && Usable(w, o.uid, id) && (o.status.tunnelID == NO_ID || o.status.tunnelID == id)
    requires o.uid in w.trusting
    ensures Inv(WithStatus(w, o.uid, o.status.(tunnelID := id, tunnelName := ForPrivateRoute(o.uid))))
  {
    OnRecord(w, o);
    PatchKeepsInv(w, o.uid, o.status.(tunnelID := id, tunnelName := ForPrivateRoute(o.uid)));
  }

  lemma PlanningKeepsInv(w: World, o: RouteObject, network: Network)
    requires Holds(w, o) && NoneTagged(w.account, o.uid) && o.status.tunnelID != NO_ID
    ensures Inv(WithStatus(w, o.uid, o.status.(network := network)))
  {
    OnRecord(w, o);
    PatchKeepsInv(w, o.uid, o.status.(network := network));
  }

  lemma RecordingKeepsInv(w: World, o: RouteObject, id: Id, network: Network)
    requires Holds(w, o) && network.Some? && o.status.tunnelID != NO_ID
    requires id in w.account.comments && w.account.comments[id] == TagOf(o.uid)
    requires forall i | Tagged(w.account, o.uid, i) :: i == id && w.account.routes[i].network == network
    ensures id != NO_ID && Inv(WithStatus(w, o.uid, o.status.(routeID := id, network := network)))
  {
    OnRecord(w, o);
    PatchKeepsInv(w, o.uid, o.status.(routeID := id, network := network));
  }

  lemma ConditionsKeepInv(w: World, o: RouteObject, c: Conditions)
    requires Holds(w, o) && Honest(c)
    ensures Inv(WithStatus(w, o.uid, o.status.(conditions := c)))
  {
    OnRecord(w, o);
    PatchKeepsInv(w, o.uid, o.status.(conditions := c));
  }

  lemma ReportKeepsInv(w: World, u: UID, s: Status)
    requires u in w.objects && Honest(s.conditions)
    requires var t := w.objects[u].status;
             && s.tunnelID == t.tunnelID && s.tunnelName == t.tunnelName
             && s.routeID == t.routeID && s.network == t.network
    ensures Inv(WithStatus(w, u, s))
  {
    ObjectParts(w, u);
    InvParts(w);
    ObjectStepsAlone(w, u, s);
    OwnStepKeepsInv(w, WithStatus(w, u, s), u);
  }

  lemma ReportRecedes(w: World, u: UID, s: Status, x: UID)
    requires u in w.objects && s.tunnelID == w.objects[u].status.tunnelID
    ensures Recedes(w, WithStatus(w, u, s), x)
  {}

  /** From `w` to `v` nothing changed but conditions. */
  ghost predicate OnlyReported(w: Snapshot, v: Snapshot) {
    var all := (
      && v.account == w.account && v.children == w.children && v.objects.Keys == w.objects.Keys
      && (forall u | u in w.objects :: KeepsRecord(w, v, u) && v.objects[u].finalizer == w.objects[u].finalizer)
    );
    all
  }

  /** A failure report on top of a failed pass takes nothing back. */
  lemma ReportKeepsConvergence(w: World, m: World, v: World, u: UID, rollout: bool)
    requires u in w.objects && Converges(w, m, u, false, rollout) && OnlyReported(m, v)
    ensures Converges(w, v, u, false, rollout)
  {
    assert forall k :: Owns(v, w.objects[u].uid, k) <==> Owns(m, w.objects[u].uid, k);
  }

  lemma ShrunkOn(w: World, m: World, v: World, u: UID)
    requires Shrunk(w, m, u) && Shrunk(m, v, u)
    ensures Shrunk(w, v, u)
  {}

  lemma RecedesOn(w: World, m: World, v: World, u: UID)
    requires Recedes(w, m, u) && Recedes(m, v, u)
    ensures Recedes(w, v, u)
  {}

  /** A route may be made once the network is on record and no tagged route is left. */
  lemma RouteMadeKeepsInv(w: World, u: UID)
    requires u in w.objects && NoneTagged(w.account, u)
    requires var s := w.objects[u].status;
             s.network.Some? && s.routeID == NO_ID && s.tunnelID != NO_ID && s.tunnelID !in w.dropped
    ensures var s := w.objects[u].status;
            var v := RouteMade(w, s.network, s.tunnelID, TagOf(u));
            Inv(v) && forall i :: Tagged(v.account, u, i) <==> i == w.account.next
  {
    ObjectParts(w, u);
    InvParts(w);
    var s := w.objects[u].status;
    RouteMadeAlone(w, u, s.network, s.tunnelID);
    var v := RouteMade(w, s.network, s.tunnelID, TagOf(u));
    assert forall i :: Tagged(v.account, u, i) <==> Tagged(w.account, u, i) || i == w.account.next;
    assert forall i :: Named(v.account, u, i) <==> Named(w.account, u, i);
    OwnStepKeepsInv(w, v, u);
  }

  lemma RouteRemovedKeepsInv(w: World, u: UID, id: Id)
    requires u in w.objects && id in w.account.comments && w.account.comments[id] == TagOf(u)
    ensures Inv(RouteRemoved(w, id))
  {
    ObjectParts(w, u);
    InvParts(w);
    var v := RouteRemoved(w, id);
    RouteRemovedAlone(w, u, id);
    assert forall i | Tagged(v.account, u, i) :: Tagged(w.account, u, i);
    assert forall i :: Named(v.account, u, i) <==> Named(w.account, u, i);
    OwnStepKeepsInv(w, v, u);
  }

  lemma RouteRemovedShrinks(w: World, u: UID, id: Id)
    requires u in w.objects && id in w.account.comments && w.account.comments[id] == TagOf(u)
    ensures !Tagged(RouteRemoved(w, id).account, u, id) && (id in w.account.routes ==> Tagged(w.account, u, id))
    ensures Pruned(w, RouteRemoved(w, id)) && Shrunk(w, RouteRemoved(w, id), u)
  {
    InvParts(w);
  }

  lemma TunnelMadeKeepsInv(w: World, u: UID)
    requires u in w.objects && w.objects[u].status.tunnelID == NO_ID
    requires forall i :: !Named(w.account, u, i)
    ensures Inv(TunnelMade(w, ForPrivateRoute(u)))
  {
    ObjectParts(w, u);
    InvParts(w);
    var v := TunnelMade(w, ForPrivateRoute(u));
    TunnelMadeAlone(w, u);
    assert forall i :: Tagged(v.account, u, i) <==> Tagged(w.account, u, i);
    assert forall i :: Named(v.account, u, i) <==> Named(w.account, u, i) || i == w.account.next;
    OwnStepKeepsInv(w, v, u);
  }

  lemma MadeUsable(w: World, u: UID)
    requires forall i :: !Named(w.account, u, i)
    ensures Usable(TunnelMade(w, ForPrivateRoute(u)), u, w.account.next)
  {
    InvParts(w);
    var v := TunnelMade(w, ForPrivateRoute(u));
    assert forall i :: Named(v.account, u, i) <==> Named(w.account, u, i) || i == w.account.next;
  }

  /** Deleting the recorded tunnel of an object whose route is gone leaves no route dangling. */
  lemma TunnelRemovedKeepsInv(w: World, u: UID, id: Id)
    requires u in w.objects && w.objects[u].deleting && NoneTagged(w.account, u)
    requires id in w.account.names && w.account.names[id] == ForPrivateRoute(u)
    ensures Inv(TunnelRemoved(w, id))
  {
    ObjectParts(w, u);
    InvParts(w);
    var v := TunnelRemoved(w, id);
    TunnelRemovedAlone(w, u, id);
    assert forall i :: Tagged(v.account, u, i) <==> Tagged(w.account, u, i);
    assert forall i | Named(v.account, u, i) :: Named(w.account, u, i);
    OwnStepKeepsInv(w, v, u);
  }

  /** A tunnel that is gone does not come back. */
  lemma TunnelStaysAway(w: World, v: World, u: UID, id: Id)
    requires NothingGained(w, v, u) && id !in w.account.tunnels
    requires id in w.account.names && w.account.names[id] == ForPrivateRoute(u)
    requires id in v.account.names && v.account.names[id] == w.account.names[id]
    ensures id !in v.account.tunnels
  {
    InvParts(v);
    assert id in v.account.tunnels ==> Named(v.account, u, id);
  }

  /** A tunnel issued for the object has its name while it is live. */
  lemma IssuedNamed(w: World, u: UID, id: Id)
    requires id in w.account.names && w.account.names[id] == ForPrivateRoute(u)
    ensures id in w.account.tunnels ==> Named(w.account, u, id)
  {
    InvParts(w);
  }

  lemma TunnelRemovedLessens(w: World, u: UID, id: Id)
    ensures Lessened(w, TunnelRemoved(w, id), u)
  {}

  lemma ChildStepsKeepInv(w: World, u: UID, k: ChildKey)
    requires u in w.objects && k.prefix == Prefix(u)
    requires k in w.children ==> w.children[k] == u
    ensures Inv(ChildWritten(w, u, k)) && Inv(ChildRemoved(w, k))
  {
    ObjectParts(w, u);
    InvParts(w);
    ChildStepsAlone(w, u, k);
    assert ObjectOk(w.account, w.dropped, u, w.objects[u]) && Trusts(w, u);
    OwnStepKeepsInv(w, ChildWritten(w, u, k), u);
    OwnStepKeepsInv(w, ChildRemoved(w, k), u);
  }

  // ----- Validation -----

  datatype Validation = ReadFailed | Rejected(reason: Reason) | Admitted(network: Network)

  /** What reading comes to: the verdict, or in a pass with faults a failure, which is no verdict. */
  predicate Answers(mode: Mode, v: Validation, verdict: Validation) {
    v == verdict || (!mode.Calm? && v.ReadFailed?)
  }

  function ServiceNamespace(r: RouteObject): string {
    if r.spec.serviceNamespace != "" then r.spec.serviceNamespace else r.namespace
  }

  predicate Precedes(a: RouteObject, b: RouteObject) {
    if a.created != b.created then a.created < b.created
    else if a.namespace != b.namespace then Less(a.namespace, b.namespace)
    else if a.name != b.name then Less(a.name, b.name)
    else a.uid < b.uid
  }

  /** The network `other` claims, as `r` sees it: the recorded one, else that of a shared Service. */
  function ClaimedNetwork(other: RouteObject, r: RouteObject, network: Network): Network {
    if other.status.network == None && ServiceNamespace(other) == ServiceNamespace(r)
       && other.spec.serviceName == r.spec.serviceName
    then network else other.status.network
  }

  predicate Contends(other: RouteObject, r: RouteObject, network: Network) {
    && other.uid != r.uid && !other.deleting
    && other.spec.provider == r.spec.provider && other.spec.controller == r.spec.controller
    && ClaimedNetwork(other, r, network) == network
    && Precedes(other, r)
  }

  /** A live object of the provider and class that has the network on record, or has none on record and refers
      to the Service of `r`. */
  predicate Claims(other: RouteObject, r: RouteObject, network: Network) {
    && other.uid != r.uid && !other.deleting
    && other.spec.provider == r.spec.provider && other.spec.controller == r.spec.controller
    && (|| other.status.network == network
        || (other.status.network == None && other.spec.serviceName == r.spec.serviceName
            && ServiceNamespace(other) == ServiceNamespace(r)))
  }

  /** A conflict takes a claimant that is not younger, and one that is older is enough. */
  lemma ConflictAges(objects: map<UID, RouteObject>, r: RouteObject, network: Network)
    ensures (exists u | u in objects :: Contends(objects[u], r, network)) ==>
              exists u | u in objects :: Claims(objects[u], r, network) && objects[u].created <= r.created
    ensures (exists u | u in objects :: Claims(objects[u], r, network) && objects[u].created < r.created) ==>
              exists u | u in objects :: Contends(objects[u], r, network)
  {
    if u :| u in objects && Contends(objects[u], r, network) {
      assert Claims(objects[u], r, network);
    }
    if u :| u in objects && Claims(objects[u], r, network) && objects[u].created < r.created {
      assert Contends(objects[u], r, network);
    }
  }

  /** The network of the Service `r` refers to, or why there is none, before conflicts are looked at. */
  function Resolve(c: Cluster, r: RouteObject): Validation {
    if r.spec.provider !in c.providers then Rejected(ProviderNotFound) else
    var p := c.providers[r.spec.provider];
    if p.controller != r.spec.controller then Rejected(ProviderControllerClassMismatch)
    else if !CurrentlyValid(p) then Rejected(ProviderNotReady)
    else
      var v := ResolveNamespace(c, r, p);
      if v.Admitted? then ResolveReference(c, r) else v
  }

  function ResolveReference(c: Cluster, r: RouteObject): Validation {
    if ServiceNamespace(r) != r.namespace && !GrantedTo(c, r) then Rejected(RefNotPermitted) else ResolveService(c, r)
  }

  predicate GrantedTo(c: Cluster, r: RouteObject) {
    Granted(c, ServiceNamespace(r), KIND, r.namespace, r.spec.serviceName)
  }

  function ResolveNamespace(c: Cluster, r: RouteObject, p: Provider): Validation {
    if r.namespace !in c.namespaces then ReadFailed
    else if !Selects(p.selector, c.namespaces[r.namespace]) then Rejected(NamespaceNotAllowed)
    else Admitted(None)
  }

  predicate ProviderAdmits(c: Cluster, r: RouteObject) {
    && Reliable(c, RefOf(r.spec))
    && r.namespace in c.namespaces && Selects(c.providers[r.spec.provider].selector, c.namespaces[r.namespace])
  }

  function ResolveService(c: Cluster, r: RouteObject): Validation {
    var key := Key(ServiceNamespace(r), r.spec.serviceName);
    if key !in c.services then Rejected(ServiceNotFound) else
    var s := c.services[key];
    if s.kind.OtherType? || !s.address.V4? || s.address.bits == 0 then Rejected(InvalidService)
    else if ResolvePort(s.ports, r.spec.port).None? then Rejected(ServicePortNotFound)
    else Admitted(Some(s.address.bits))
  }

  function Validate(c: Cluster, objects: map<UID, RouteObject>, r: RouteObject): Validation {
    Uncontested(Resolve(c, r), objects, r)
  }

  function Uncontested(v: Validation, objects: map<UID, RouteObject>, r: RouteObject): Validation {
    if v.Admitted? && exists u | u in objects :: Contends(objects[u], r, v.network) then Rejected(RouteConflict)
    else v
  }

  /** The conditions that report the outcome of a validation. */
  function Report(routeID: Id, accepted: bool, reason: Reason, connectorReady: bool, generation: int): (r: Conditions)
    ensures Honest(r)
    ensures ConditionTrue(r.ready, generation) <==>
              && ConditionTrue(r.accepted, generation) && ConditionTrue(r.programmed, generation)
              && ConditionTrue(r.connectorReady, generation)
    ensures Says(r.accepted, generation, accepted) && r.accepted.reason == reason
    ensures Says(r.programmed, generation, routeID != NO_ID) && Says(r.connectorReady, generation, connectorReady)
    ensures Says(r.ready, generation, accepted && routeID != NO_ID && connectorReady)
  {
    var programmed := routeID != NO_ID;
    Conditions(
      Reported(Truth(accepted), generation, reason),
      Reported(Truth(programmed), generation, reason),
      Reported(Truth(connectorReady), generation, reason),
      Reported(Truth(connectorReady && accepted && programmed), generation, reason))
  }

  /** The conditions after a reconcile failed: acceptance stays as it was reported, route and connector become
      unknown, and the object is not ready. */
  function ReportFailed(c: Conditions, generation: int): (r: Conditions)
    ensures Honest(r) && r.accepted == c.accepted
    ensures r.programmed.Reported? && r.programmed.verdict.IsUnknown? && r.connectorReady == r.programmed
    ensures r.ready.Reported? && r.ready.verdict.IsFalse?
    ensures r.programmed.generation == r.ready.generation == generation
  {
    c.(programmed := Reported(IsUnknown, generation, ReconciliationFailed),
       connectorReady := Reported(IsUnknown, generation, ReconciliationFailed),
       ready := Reported(IsFalse, generation, ReconciliationFailed))
  }
}
