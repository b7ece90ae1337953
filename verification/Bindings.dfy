/** State, invariant and laws of the binding protocol
    (internal/controller/cloudflaretunnelbinding_controller.go). Some predicates name their body before they
    return it: the verifier then proves them whole and not conjunct by conjunct. */
module Bindings {
  import opened BindingPlans
  import opened Cloudflare
  import opened Kube
  import opened Planner

  /** The DNSEndpoint of a binding is in the binding's namespace. */
  datatype EndpointKey = EndpointKey(namespace: string, prefix: int)

  datatype Endpoint = Endpoint(owner: UID, hostnames: seq<string>, target: Id)

  /** `children` maps a child in the system namespace to the UID in its ownership label. `dnsEndpoints` says
      whether the DNSEndpoint resource of ExternalDNS is installed. `uids` holds every UID of a binding so
      far, `released` every binding the controller let go, as it was then, and `trusting` the bindings for
      which it has found the provider current and of their class. */
  datatype Snapshot = Snapshot(
    account: Account,
    cluster: Cluster,
    bindings: map<UID, Binding>,
    children: map<ChildKey, UID>,
    endpoints: map<EndpointKey, Endpoint>,
    dnsEndpoints: bool,
    uids: set<UID>,
    released: map<UID, Binding>,
    trusting: set<UID>)

  // ----- Ownership -----

  predicate Named(a: Account, u: UID, id: Id) {
    id in a.tunnels && a.tunnels[id].name == ForBinding(u)
  }

  function TunnelNames(w: Snapshot): set<TunnelName> {
    set u | u in w.uids :: ForBinding(u)
  }

  predicate Owns(w: Snapshot, u: UID, k: ChildKey) {
    k in w.children && w.children[k] == u
  }

  predicate OwnsEndpoint(w: Snapshot, u: UID, k: EndpointKey) {
    k in w.endpoints && w.endpoints[k].owner == u
  }

  predicate NoneOwned(endpoints: map<EndpointKey, Endpoint>, u: UID) {
    forall k | k in endpoints :: endpoints[k].owner != u
  }

  // ----- Invariant -----

  /** The tunnel on record was issued for `u`. */
  ghost predicate Recorded(a: Account, u: UID, id: Id) {
    id != NO_ID ==> id in a.names && a.names[id] == ForBinding(u)
  }

  /** At most one live tunnel carries the name of `u`; the controller made it, and it has no
      configuration unless it is on record. */
  ghost predicate OneTunnel(a: Account, u: UID, recorded: Id) {
    && (forall i, j | Named(a, u, i) && Named(a, u, j) :: i == j)
    && (forall i | Named(a, u, i) :: a.tunnels[i].configSource == Managed)
    && (forall i | Named(a, u, i) && i != recorded :: a.tunnels[i].ingress == [])
  }

  ghost predicate BindingOk(a: Account, u: UID, b: Binding) {
    && b.uid == u
    && (!b.finalizer ==> b.status.tunnelID == NO_ID)
    && Recorded(a, u, b.status.tunnelID)
    && OneTunnel(a, u, b.status.tunnelID)
    && Honest(b.status.conditions)
  }

  ghost predicate BindingsOk(w: Snapshot) {
    && w.bindings.Keys <= w.uids
    && forall u {:trigger BindingOk(w.account, u, w.bindings[u])} | u in w.bindings ::
         BindingOk(w.account, u, w.bindings[u])
  }

  ghost predicate ChildrenOk(w: Snapshot) {
    && (forall k | k in w.children && w.children[k] in w.uids :: k.prefix == Prefix(w.children[k]))
    && (forall k | k in w.endpoints && w.endpoints[k].owner in w.bindings ::
          k == EndpointKey(w.bindings[w.endpoints[k].owner].namespace, Prefix(w.endpoints[k].owner)))
  }

  /** Nothing is left of the binding `b` but what its policy keeps: no child and no DNSEndpoint, and under
      Delete no tunnel under the recorded identifier. */
  ghost predicate Discharged(w: Snapshot, b: Binding) {
    && (forall k :: !Owns(w, b.uid, k))
    && (w.dnsEndpoints ==> NoneOwned(w.endpoints, b.uid))
    && (!b.spec.retain ==> b.status.tunnelID !in w.account.tunnels)
  }

  ghost predicate Gone(w: Snapshot, u: UID, b: Binding) {
    && u in w.uids && u !in w.bindings && b.uid == u
    && Recorded(w.account, u, b.status.tunnelID) && Discharged(w, b)
  }

  /** Every binding the controller let go is discharged, under the policy it had then. */
  ghost predicate ReleasedOk(w: Snapshot) {
    forall u {:trigger Gone(w, u, w.released[u])} | u in w.released :: Gone(w, u, w.released[u])
  }

  /** A binding has a tunnel on record only if it trusts its provider, and the provider it trusts is there. */
  ghost predicate TrustOk(w: Snapshot) {
    w.trusting <= w.uids && forall u {:trigger Trusts(w, u)} | u in w.bindings :: Trusts(w, u)
  }

  ghost predicate Trusts(w: Snapshot, u: UID)
    requires u in w.bindings
  {
    && (w.bindings[u].status.tunnelID != NO_ID ==> u in w.trusting)
    && (u in w.trusting ==> Provided(w.cluster, RefOf(w.bindings[u].spec)))
  }

  /** The parts of the invariant. */
  datatype Aspect = OfAccount | OfBindings | OfChildren | OfReleased | OfTrust

  ghost predicate Sound(w: Snapshot, aspect: Aspect) {
    match aspect
    case OfAccount => AccountOk(w.account)
    case OfBindings => BindingsOk(w)
    case OfChildren => ChildrenOk(w)
    case OfReleased => ReleasedOk(w)
    case OfTrust => TrustOk(w)
  }

  /** Quantified over its parts, so that the verifier looks at a part only where it is asked to. */
  ghost predicate Inv(w: Snapshot) {
    forall aspect {:trigger Sound(w, aspect)} :: Sound(w, aspect)
  }

  lemma InvParts(w: Snapshot)
    requires Inv(w)
    ensures AccountOk(w.account) && BindingsOk(w) && ChildrenOk(w) && ReleasedOk(w) && TrustOk(w)
  {
    assert Sound(w, OfAccount) && Sound(w, OfBindings) && Sound(w, OfChildren);
    assert Sound(w, OfReleased) && Sound(w, OfTrust);
  }

  /** Enough parts make up the invariant. */
  lemma InvOfParts(w: Snapshot)
    requires AccountOk(w.account) && BindingsOk(w) && ChildrenOk(w) && ReleasedOk(w) && TrustOk(w)
    ensures Inv(w)
  {
    forall aspect: Aspect ensures Sound(w, aspect) {
      match aspect
      case _ =>
    }
  }

  /** What the invariant says of `u`. */
  lemma BindingParts(w: Snapshot, u: UID)
    requires Inv(w) && u in w.bindings
    ensures AccountOk(w.account) && u in w.uids && BindingOk(w.account, u, w.bindings[u]) && Trusts(w, u)
  {
    InvParts(w);
  }

  const NOTHING := Snapshot(
    Account(1, map[], map[], map[], map[]),
    Cluster(map[], map[], map[], map[], map[], map[], map[], {}),
    map[], map[], map[], true, {}, map[], {})

  /** The states the protocol is meant to stay in. A variable of this type satisfies `Inv` whenever it
      is assigned, so at every point of every run. */
  type World = s: Snapshot | Inv(s) witness NOTHING

  /** In every state of every run nothing is left of a binding that the controller let go, and it never
      comes back. */
  lemma StaysDischarged(w: World, u: UID)
    requires u in w.released
    ensures u !in w.bindings && w.released[u].uid == u && Discharged(w, w.released[u])
  {
    InvParts(w);
    assert Gone(w, u, w.released[u]);
  }

  // ----- The environment -----

  /** One step of anyone but this controller. Providers that a binding trusts stay, which is what module
      `Fleet` shows of the provider controller. */
  datatype Event =
    | RemoteChanged(account: Account)
    | ClusterChanged(cluster: Cluster)
    | ChildrenChanged(children: map<ChildKey, UID>, endpoints: map<EndpointKey, Endpoint>)
    | BindingCreated(binding: Binding)
    | SpecEdited(uid: UID, spec: BindingSpec)
    | DeletionRequested(uid: UID)

  predicate Allowed(w: Snapshot, e: Event) {
    match e
    case RemoteChanged(a) => Moved(w.account, a, TunnelNames(w), {})
    case ClusterChanged(c) => forall u | u in w.bindings && u in w.trusting :: Provided(c, RefOf(w.bindings[u].spec))
    case ChildrenChanged(c, p) =>
      && (forall k | k in c && c[k] in w.uids :: k in w.children && w.children[k] == c[k])
      && (forall k | k in p && p[k].owner in w.uids :: k in w.endpoints && w.endpoints[k] == p[k])
    case BindingCreated(b) =>
      && b.uid !in w.uids && b.uid !in w.bindings && !b.finalizer && !b.deleting && b.status == UNSET
      && (forall id | id in w.account.names :: w.account.names[id] != ForBinding(b.uid))
      && (forall k | k in w.children :: w.children[k] != b.uid)
      && (forall k | k in w.endpoints :: w.endpoints[k].owner != b.uid)
    case SpecEdited(u, spec) =>
      && u in w.bindings
      && var was := w.bindings[u].spec;
         RefOf(spec) == RefOf(was) && spec.gateway == was.gateway && spec.section == was.section
    case DeletionRequested(u) => u in w.bindings
  }

  function Apply(w: Snapshot, e: Event): Snapshot {
    if !Allowed(w, e) then w else
    match e
    case RemoteChanged(a) => w.(account := a)
    case ClusterChanged(c) => w.(cluster := c)
    case ChildrenChanged(c, p) => w.(children := c, endpoints := p)
    case BindingCreated(b) => w.(bindings := w.bindings[b.uid := b], uids := w.uids + {b.uid})
    case SpecEdited(u, spec) =>
      var b := w.bindings[u];
      w.(bindings := w.bindings[u := b.(spec := spec, generation := b.generation + 1, version := b.version + 1)])
    case DeletionRequested(u) =>
      var b := w.bindings[u];
      if b.finalizer then
        w.(bindings := w.bindings[u := b.(deleting := true, generation := b.generation + 1, version := b.version + 1)])
      else
        w.(bindings := w.bindings - {u})
  }

  /** How a binding may differ from an earlier copy, leaving aside its status. */
  ghost predicate Alike(b: Binding, p: Binding) {
    var all := (
      && p.namespace == b.namespace
      && p.finalizer == b.finalizer
      && (b.deleting ==> p.deleting)
      && b.version <= p.version
      && (p.version == b.version ==> p.deleting == b.deleting && p.spec.retain == b.spec.retain)
      && RefOf(p.spec) == RefOf(b.spec)
    );
    all
  }

  /** How a binding may differ from an earlier copy when the controller has not written it. */
  ghost predicate Untouched(b: Binding, p: Binding) {
    Alike(b, p) && p.status == b.status
  }

  /** The copy `b` is up to date but for its status, edits of the spec and a deletion request. */
  ghost predicate Follows(w: Snapshot, b: Binding) {
    var all := (
      && b.uid in w.uids && Honest(b.status.conditions)
      && (b.finalizer ==> b.uid in w.bindings)
      && (b.uid in w.bindings ==> Alike(b, w.bindings[b.uid]))
    );
    all
  }

  /** Moreover the copy has the tunnel that is on record. */
  ghost predicate Holds(w: Snapshot, b: Binding) {
    var all := (
      && Follows(w, b)
      && (!b.finalizer ==> b.status.tunnelID == NO_ID)
      && (b.uid in w.bindings ==> b.status.tunnelID == w.bindings[b.uid].status.tunnelID)
    );
    all
  }

  /** Moreover the copy has the status that is on record. */
  ghost predicate Current(w: Snapshot, b: Binding) {
    var all := (
      Holds(w, b) && (b.uid in w.bindings ==> b.status == w.bindings[b.uid].status)
    );
    all
  }

  lemma Present(w: World, u: UID)
    requires u in w.bindings
    ensures u in w.uids && w.bindings[u].uid == u
  {
    BindingParts(w, u);
  }

  /** What the invariant says of the tunnel in an up-to-date copy. */
  lemma OnRecord(w: World, b: Binding)
    requires Holds(w, b) && b.finalizer
    ensures AccountOk(w.account) && Recorded(w.account, b.uid, b.status.tunnelID)
    ensures OneTunnel(w.account, b.uid, b.status.tunnelID)
    ensures b.status.tunnelID != NO_ID ==> b.uid in w.trusting && Provided(w.cluster, RefOf(b.spec))
  {
    BindingParts(w, b.uid);
  }

  /** The tunnel `id` was issued for `u`, and no other tunnel of `u` is configured. */
  ghost predicate Adoptable(w: Snapshot, u: UID, id: Id) {
    var all := (
      Recorded(w.account, u, id) && forall i | Named(w.account, u, i) :: i == id || w.account.tunnels[i].ingress == []
    );
    all
  }

  /** What survives any number of environment steps. */
  ghost predicate Drifts(w: Snapshot, v: Snapshot) {
    var all := (
      && v.dnsEndpoints == w.dnsEndpoints && v.released == w.released && v.trusting == w.trusting
      && w.uids <= v.uids
      && (AccountOk(w.account) ==> Moved(w.account, v.account, TunnelNames(w), {}))
      && (forall u | u in w.bindings && w.bindings[u].finalizer :: u in v.bindings)
      && (forall u | u in v.bindings ::
            if u in w.bindings then Untouched(w.bindings[u], v.bindings[u])
            else u !in w.uids && !v.bindings[u].finalizer)
      && (forall k | k in v.children && v.children[k] in w.uids :: k in w.children && w.children[k] == v.children[k])
      && (forall k | k in v.endpoints && v.endpoints[k].owner in w.uids ::
            k in w.endpoints && w.endpoints[k] == v.endpoints[k])
    );
    all
  }

  lemma EditDrifts(w: Snapshot, u: UID, b: Binding)
    requires u in w.bindings && Untouched(w.bindings[u], b)
    ensures Drifts(w, w.(bindings := w.bindings[u := b]))
  {}

  lemma EventDrifts(w: Snapshot, e: Event)
    ensures Drifts(w, Apply(w, e))
  {
    if Allowed(w, e) {
      match e
      case SpecEdited(u, _) => EditDrifts(w, u, Apply(w, e).bindings[u]);
      case DeletionRequested(u) =>
        if w.bindings[u].finalizer {
          EditDrifts(w, u, Apply(w, e).bindings[u]);
        }
      case _ =>
    }
  }

  lemma DriftTransitive(w: Snapshot, v: Snapshot, x: Snapshot)
    requires Drifts(w, v) && Drifts(v, x) && w.bindings.Keys <= w.uids
    ensures Drifts(w, x)
  {}

  // ----- What others leave alone -----

  /** What carries the name or label of `u` in `v` did so in `w` already. */
  ghost predicate NothingGained(w: Snapshot, v: Snapshot, u: UID) {
    var all := (
      && (forall i | Named(v.account, u, i) :: Named(w.account, u, i) && v.account.tunnels[i] == w.account.tunnels[i])
      && (forall k | Owns(v, u, k) :: Owns(w, u, k))
      && (forall k | OwnsEndpoint(v, u, k) :: OwnsEndpoint(w, u, k) && v.endpoints[k] == w.endpoints[k])
    );
    all
  }

  ghost predicate StillIssued(a: Account, b: Account) {
    forall id | id in a.names :: id in b.names && b.names[id] == a.names[id]
  }

  /** Moreover what was issued stays issued. */
  ghost predicate Lessened(w: Snapshot, v: Snapshot, u: UID) {
    var all := (
      && w.uids <= v.uids && v.dnsEndpoints == w.dnsEndpoints && NothingGained(w, v, u)
      && StillIssued(w.account, v.account)
    );
    all
  }

  /** Moreover a binding with the finalizer is still there, one that is gone stays gone, and its status is
      as it was. */
  ghost predicate Shrunk(w: Snapshot, v: Snapshot, u: UID) {
    var all := (
      && Lessened(w, v, u) && (u in w.trusting ==> u in v.trusting)
      && (u in w.bindings && w.bindings[u].finalizer ==> u in v.bindings)
      && (u in v.bindings ==> u in w.bindings && Kept(w.bindings[u], v.bindings[u]))
    );
    all
  }

  ghost predicate Kept(b: Binding, p: Binding) {
    && p.finalizer == b.finalizer && p.namespace == b.namespace && (b.deleting ==> p.deleting) && p.status == b.status
  }

  /** The environment moved from `w` to `v`, as far as the binding `u` can tell. */
  ghost predicate Moves(w: World, v: World, u: UID) {
    var all := (
      u in w.uids ==>
        && Shrunk(w, v, u) && v.trusting == w.trusting && v.released == w.released
        && (u in v.bindings ==> Untouched(w.bindings[u], v.bindings[u]))
    );
    all
  }

  lemma ShrunkOn(w: World, m: World, v: World, u: UID)
    requires Shrunk(w, m, u) && Shrunk(m, v, u)
    ensures Shrunk(w, v, u)
  {}

  /** The tunnels of `u` are configured as before, and new ones are not configured. */
  ghost predicate SameIngress(w: Snapshot, v: Snapshot, u: UID) {
    var all := (
      && (forall id | id in w.account.names :: id in v.account.names)
      && forall i | Named(v.account, u, i) :: IngressKept(w.account, v.account, u, i)
    );
    all
  }

  ghost predicate IngressKept(a: Account, b: Account, u: UID, i: Id)
    requires Named(b, u, i)
  {
    if Named(a, u, i) then b.tunnels[i].ingress == a.tunnels[i].ingress
    else i !in a.names && b.tunnels[i].ingress == []
  }

  /** Besides, some of them may have been configured by `rules`. */
  ghost predicate Reconfigured(w: Snapshot, v: Snapshot, u: UID, rules: seq<IngressRule>) {
    var all := (
      && (forall id | id in w.account.names :: id in v.account.names)
      && forall i | Named(v.account, u, i) ::
           IngressKept(w.account, v.account, u, i) || v.account.tunnels[i].ingress == rules
    );
    all
  }

  lemma ShrunkIngress(w: World, v: World, u: UID)
    requires Lessened(w, v, u)
    ensures SameIngress(w, v, u)
  {}

  lemma LessenedOn(w: World, m: World, v: World, u: UID)
    requires Lessened(w, m, u) && Lessened(m, v, u)
    ensures Lessened(w, v, u)
  {}

  lemma ReconfiguredOn(w: World, m: World, v: World, u: UID, rules: seq<IngressRule>)
    requires Reconfigured(w, m, u, rules) && Reconfigured(m, v, u, rules)
    ensures Reconfigured(w, v, u, rules)
  {
    InvParts(w);
  }

  lemma SameIngressOn(w: World, m: World, v: World, u: UID)
    requires SameIngress(w, m, u) && SameIngress(m, v, u)
    ensures SameIngress(w, v, u)
  {
    InvParts(w);
  }

  lemma SameAccountIngress(w: World, m: World, v: World, u: UID)
    requires m.account == w.account && SameIngress(m, v, u)
    ensures SameIngress(w, v, u)
  {}

  /** A tunnel that is still there is configured as it was. */
  lemma StaysConfigured(w: World, v: World, u: UID, id: Id, rules: seq<IngressRule>)
    requires Shrunk(w, v, u) && ConfiguredBy(w, id, rules) && Recorded(w.account, u, id) && id != NO_ID
    ensures ConfiguredBy(v, id, rules)
  {
    InvParts(w);
    InvParts(v);
    assert id in v.account.tunnels ==> Named(v.account, u, id);
  }

  lemma NotReconfigured(w: World, v: World, u: UID, rules: seq<IngressRule>)
    requires SameIngress(w, v, u)
    ensures Reconfigured(w, v, u, rules)
  {}

  lemma ShrunkThenReconfigured(w: World, m: World, v: World, u: UID, rules: seq<IngressRule>)
    requires Shrunk(w, m, u) && Reconfigured(m, v, u, rules)
    ensures Reconfigured(w, v, u, rules)
  {
    ShrunkIngress(w, m, u);
    NotReconfigured(w, m, u, rules);
    ReconfiguredOn(w, m, v, u, rules);
  }

  lemma ReconfiguredThenKept(w: World, m: World, v: World, u: UID, rules: seq<IngressRule>)
    requires Reconfigured(w, m, u, rules) && SameIngress(m, v, u)
    ensures Reconfigured(w, v, u, rules)
  {
    NotReconfigured(m, v, u, rules);
    ReconfiguredOn(w, m, v, u, rules);
  }

  predicate SameChildren(w: Snapshot, v: Snapshot) {
    v.children == w.children && v.endpoints == w.endpoints
  }

  ghost predicate KeepsTunnel(w: Snapshot, v: Snapshot, u: UID) {
    u in w.bindings && u in v.bindings ==> v.bindings[u].status.tunnelID == w.bindings[u].status.tunnelID
  }

  /** The same but for status, version and finalizer; a tunnel stays on record. */
  predicate SameInputs(b: Binding, p: Binding) {
    var all := (
      && p == b.(status := p.status, version := p.version, finalizer := p.finalizer)
      && (b.finalizer ==> p.finalizer)
      && (b.status.tunnelID != NO_ID ==> p.status.tunnelID != NO_ID)
    );
    all
  }

  /** The cluster is as it was, and so are the inputs of `u`. */
  ghost predicate Steady(w: Snapshot, v: Snapshot, u: UID) {
    var all := (
      && v.cluster == w.cluster && v.dnsEndpoints == w.dnsEndpoints
      && (u in w.bindings ==> u in v.bindings && SameInputs(w.bindings[u], v.bindings[u]))
    );
    all
  }

  lemma DriftShrinks(w: World, v: Snapshot, u: UID)
    requires Drifts(w, v) && u in w.uids
    ensures Shrunk(w, v, u) && (u in v.bindings ==> Untouched(w.bindings[u], v.bindings[u]))
  {
    InvParts(w);
  }

  predicate MayRemove(w: Snapshot, u: UID, kind: ChildKind) {
    var k := ChildKey(kind, Prefix(u));
    k in w.children ==> w.children[k] == u
  }

  predicate MayRemoveEndpoint(w: Snapshot, b: Binding) {
    var k := EndpointKey(b.namespace, Prefix(b.uid));
    w.dnsEndpoints && k in w.endpoints ==> w.endpoints[k].owner == b.uid
  }

  /** No child or DNSEndpoint with a name of the binding's belongs to another binding. */
  predicate MayWrite(w: Snapshot, b: Binding) {
    MayRemove(w, b.uid, Secret) && MayRemove(w, b.uid, Deployment) && MayRemoveEndpoint(w, b)
  }

  /** The same conditions at the same generation. */
  predicate SameReport(b: Binding, p: Binding) {
    p.status.conditions == b.status.conditions && p.generation == b.generation
  }

  /** What a binding cannot get past when a child or DNSEndpoint with its name belongs to another. */
  function PartInTheWay(w: Snapshot, b: Binding): Part {
    if MayRemove(w, b.uid, Secret) && MayRemove(w, b.uid, Deployment) then TheDNS else TheConnector
  }

  /** The tunnel on record, if any, can be silenced, and the DNSEndpoint removed. */
  predicate MayWithdraw(w: Snapshot, b: Binding) {
    b.status.tunnelID != NO_ID ==> HasToken(w.cluster, b.spec.provider) && MayRemoveEndpoint(w, b)
  }

  /** The configuration that publishes nothing. */
  const NOTHING_PUBLISHED: seq<IngressRule> := [CATCH_ALL]

  /** The tunnel `id`, if it is there, is configured by `rules`. */
  predicate ConfiguredBy(w: Snapshot, id: Id, rules: seq<IngressRule>) {
    id in w.account.tunnels ==> w.account.tunnels[id].ingress == rules
  }

  /** The tunnel on record is there, configured by `rules`. */
  predicate Serves(w: Snapshot, u: UID, rules: seq<IngressRule>) {
    && u in w.bindings
    && var id := w.bindings[u].status.tunnelID;
       id in w.account.tunnels && w.account.tunnels[id].ingress == rules
  }

  /** The DNSEndpoint of `b` lists `hostnames`, each pointing at the tunnel `target`. */
  predicate Publishes(w: Snapshot, b: Binding, hostnames: seq<string>, target: Id) {
    var k := EndpointKey(b.namespace, Prefix(b.uid));
    k in w.endpoints && w.endpoints[k] == Endpoint(b.uid, hostnames, target)
  }

  predicate HasConnector(w: Snapshot, u: UID) {
    Owns(w, u, ChildKey(Secret, Prefix(u))) && Owns(w, u, ChildKey(Deployment, Prefix(u)))
  }

  /** The connector of `b` is there, its status reports `hostnames`, and the DNSEndpoint lists them if
      automation is on. The conditions say what is there: DNS is ready if automation is off or the DNSEndpoint
      lists the names. */
  ghost predicate Announced(w: Snapshot, b: Binding, hostnames: seq<string>, target: Id, ready: bool) {
    var all := (
      var automated := b.spec.dnsAutomation && w.dnsEndpoints && hostnames != [];
      && HasConnector(w, b.uid)
      && b.uid in w.bindings && w.bindings[b.uid].status.published == hostnames
      && Tells(w.bindings[b.uid].status.conditions, b.generation, hostnames != [], ready,
           b.spec.dnsAutomation ==> w.dnsEndpoints && Publishes(w, b, hostnames, target))
      && (automated ==> Publishes(w, b, hostnames, target))
      && (w.dnsEndpoints && !automated ==> NoneOwned(w.endpoints, b.uid))
    );
    all
  }

  // ----- The controller's own steps -----

  /** A merge patch writes the fields in which `s` differs from `base`. */
  function Merged(current: BindingStatus, base: BindingStatus, s: BindingStatus): BindingStatus {
    BindingStatus(
      if s.tunnelID != base.tunnelID then s.tunnelID else current.tunnelID,
      if s.published != base.published then s.published else current.published,
      if s.conditions != base.conditions then s.conditions else current.conditions)
  }

  function Patched(w: Snapshot, u: UID, base: BindingStatus, s: BindingStatus): Snapshot
    requires u in w.bindings
  {
    var b := w.bindings[u];
    w.(bindings := w.bindings[u := b.(status := Merged(b.status, base, s), version := b.version + 1)])
  }

  function WithFinalizer(w: Snapshot, u: UID): Snapshot
    requires u in w.bindings
  {
    w.(bindings := w.bindings[u := w.bindings[u].(finalizer := true, version := w.bindings[u].version + 1)])
  }

  /** Removing the finalizer of a binding marked for deletion makes it disappear. */
  function Released(w: Snapshot, u: UID): Snapshot
    requires u in w.bindings
  {
    w.(bindings := w.bindings - {u}, released := w.released[u := w.bindings[u]])
  }

  /** From now on the binding relies on its provider. */
  function Trusted(w: Snapshot, u: UID): Snapshot {
    w.(trusting := w.trusting + {u})
  }

  function TunnelMade(w: Snapshot, name: TunnelName): Snapshot {
    w.(account := AddTunnel(w.account, name))
  }

  function TunnelRemoved(w: Snapshot, id: Id): Snapshot {
    w.(account := DropTunnel(w.account, id))
  }

  /** Configuring a tunnel that is gone fails, and changes nothing. */
  function Configured(w: Snapshot, id: Id, rules: seq<IngressRule>): Snapshot {
    if id in w.account.tunnels then w.(account := Configure(w.account, id, rules)) else w
  }

  function ChildWritten(w: Snapshot, u: UID, k: ChildKey): Snapshot {
    w.(children := w.children[k := u])
  }

  function ChildRemoved(w: Snapshot, k: ChildKey): Snapshot {
    w.(children := w.children - {k})
  }

  function EndpointWritten(w: Snapshot, k: EndpointKey, e: Endpoint): Snapshot {
    w.(endpoints := w.endpoints[k := e])
  }

  function EndpointRemoved(w: Snapshot, k: EndpointKey): Snapshot {
    w.(endpoints := w.endpoints - {k})
  }

  // ----- Non-interference -----

  /** The things in a world, by where they are. */
  datatype Thing =
    | AtCluster
    | AtBinding(uid: UID)
    | AtRoutes
    | AtTunnel(id: Id)
    | AtChild(key: ChildKey)
    | AtEndpoint(at: EndpointKey)

  /** What is at `x` is the same in `w` and in `v`, or is `u` itself or carries its name or label. */
  predicate SameAt(w: Snapshot, v: Snapshot, u: UID, x: Thing) {
    match x
    case AtCluster => v.cluster == w.cluster && v.dnsEndpoints == w.dnsEndpoints && v.uids == w.uids
    case AtBinding(y) => y == u || Lookup(v.bindings, y) == Lookup(w.bindings, y)
    case AtRoutes => v.account.routes == w.account.routes
    case AtTunnel(i) =>
      var r, s := Lookup(w.account.tunnels, i), Lookup(v.account.tunnels, i);
      s == r || ((r.None? || r.value.name == ForBinding(u)) && (s.None? || s.value.name == ForBinding(u)))
    case AtChild(k) =>
      var r, s := Lookup(w.children, k), Lookup(v.children, k);
      s == r || ((r.None? || r.value == u) && (s.None? || s.value == u))
    case AtEndpoint(k) =>
      var r, s := Lookup(w.endpoints, k), Lookup(v.endpoints, k);
      s == r || ((r.None? || r.value.owner == u) && (s.None? || s.value.owner == u))
  }

  /** From `w` to `v` nothing changed but what carries the name or label of `u`, and `u` itself. */
  ghost predicate Elsewhere(w: Snapshot, v: Snapshot, u: UID) {
    forall x: Thing {:trigger SameAt(w, v, u, x)} :: SameAt(w, v, u, x)
  }

  /** Nor did `u` change but in status and finalizer, or by going as it was. */
  predicate SameSelf(w: Snapshot, v: Snapshot, u: UID) {
    && (u in w.released ==> u in v.released && v.released[u] == w.released[u])
    && match (Lookup(w.bindings, u), Lookup(v.bindings, u))
       case (Some(b), Some(p)) => SameInputs(b, p)
       case (Some(b), None) => b.deleting && u in v.released && SameInputs(b, v.released[u])
       case (None, p) => p.None?
  }

  ghost predicate Alone(w: Snapshot, v: Snapshot, u: UID) {
    var all := (
      Elsewhere(w, v, u) && forall x {:trigger SameSelf(w, v, x)} | x == u :: SameSelf(w, v, x)
    );
    all
  }

  /** To the binding `x` what happened from `w` to `v` looks like moves of the environment. */
  ghost predicate Spared(w: Snapshot, v: Snapshot, x: UID) {
    && NothingGained(w, v, x)
    && (x in v.bindings ==> x in w.bindings && Untouched(w.bindings[x], v.bindings[x]))
    && (x in w.bindings && w.bindings[x].finalizer ==> x in v.bindings)
  }

  ghost predicate Spares(w: Snapshot, v: Snapshot, u: UID) {
    w.uids <= v.uids && forall x {:trigger Spared(w, v, x)} | x in w.uids && x != u :: Spared(w, v, x)
  }

  ghost predicate Warranted(w: Snapshot, c: Cluster, v: Snapshot, u: UID) {
    u in v.trusting && u in v.bindings ==> u in w.trusting || Reliable(c, RefOf(v.bindings[u].spec))
  }

  /** What a pass over `u` did from `w` to `v` is confined to `u`: to every other binding it looks like moves
      of the environment, if nobody else moved nothing changed but what is `u`'s, and the binding came to
      trust its provider only as it was in `c`. */
  ghost predicate Confined(mode: Mode, w: Snapshot, c: Cluster, v: Snapshot, u: UID) {
    var all := (
      match mode
      case Busy => Spares(w, v, u) && Warranted(w, c, v, u)
      case _ => Spares(w, v, u) && Warranted(w, c, v, u) && Alone(w, v, u)
    );
    all
  }

  /** Nobody else gains anything, and no other binding changes. */
  lemma ElsewhereSpares(w: World, v: Snapshot, u: UID, x: UID)
    requires Elsewhere(w, v, u) && x != u
    ensures NothingGained(w, v, x)
    ensures x in v.bindings <==> x in w.bindings
    ensures x in w.bindings ==> v.bindings[x] == w.bindings[x]
    ensures v.uids == w.uids && v.cluster == w.cluster && v.dnsEndpoints == w.dnsEndpoints
  {
    assert SameAt(w, v, u, AtCluster) && SameAt(w, v, u, AtBinding(x));
    forall i | Named(v.account, x, i) ensures Named(w.account, x, i) && v.account.tunnels[i] == w.account.tunnels[i] {
      assert SameAt(w, v, u, AtTunnel(i));
    }
    forall k | Owns(v, x, k) ensures Owns(w, x, k) {
      assert SameAt(w, v, u, AtChild(k));
    }
    forall k | OwnsEndpoint(v, x, k) ensures OwnsEndpoint(w, x, k) && v.endpoints[k] == w.endpoints[k] {
      assert SameAt(w, v, u, AtEndpoint(k));
    }
  }

  lemma DriftSpares(w: World, v: World, x: UID)
    requires Drifts(w, v) && x in w.uids
    ensures Spared(w, v, x)
  {
    DriftShrinks(w, v, x);
  }

  lemma SparedOn(w: World, m: World, v: World, x: UID)
    requires Spared(w, m, x) && Spared(m, v, x)
    ensures Spared(w, v, x)
  {}

  lemma AloneOn(w: World, m: World, v: World, u: UID)
    requires Alone(w, m, u) && Alone(m, v, u)
    ensures Alone(w, v, u)
  {
    forall x: Thing ensures SameAt(w, v, u, x) {
      assert SameAt(w, m, u, x) && SameAt(m, v, u, x);
    }
    assert SameSelf(w, m, u) && SameSelf(m, v, u);
  }

  /** A binding that is not being deleted is still there afterwards, with the same inputs. */
  lemma AloneSteady(w: World, v: World, u: UID)
    requires Alone(w, v, u) && (u in w.bindings ==> !w.bindings[u].deleting)
    ensures Steady(w, v, u)
    ensures v.bindings.Keys == w.bindings.Keys
    ensures forall x | x in w.bindings && x != u :: v.bindings[x] == w.bindings[x]
  {
    assert SameSelf(w, v, u) && SameAt(w, v, u, AtCluster);
    forall x ensures x in v.bindings <==> x in w.bindings {
      assert SameAt(w, v, u, AtBinding(x));
    }
    forall x | x in w.bindings && x != u ensures v.bindings[x] == w.bindings[x] {
      assert SameAt(w, v, u, AtBinding(x));
    }
  }

  /** The tunnels of everyone else are as they were. */
  lemma AloneTunnels(w: World, v: World, u: UID, i: Id)
    requires Alone(w, v, u)
    ensures i in w.account.tunnels && w.account.tunnels[i].name != ForBinding(u) ==>
              i in v.account.tunnels && v.account.tunnels[i] == w.account.tunnels[i]
    ensures i in v.account.tunnels && v.account.tunnels[i].name != ForBinding(u) ==>
              i in w.account.tunnels && w.account.tunnels[i] == v.account.tunnels[i]
  {
    assert SameAt(w, v, u, AtTunnel(i));
  }

  lemma NothingConfined(mode: Mode, w: World, c: Cluster, u: UID)
    ensures Confined(mode, w, c, w, u)
  {
    forall x | x in w.uids ensures Spared(w, w, x) {
      assert NothingGained(w, w, x);
    }
  }

  /** The controller's own steps for `u` stay confined. */
  lemma StepConfined(mode: Mode, w: World, c: Cluster, m: World, v: World, u: UID)
    requires Confined(mode, w, c, m, u) && Alone(m, v, u)
    requires v.trusting == m.trusting || (u in v.bindings && Reliable(c, RefOf(v.bindings[u].spec)))
    ensures Confined(mode, w, c, v, u)
  {
    assert SameAt(m, v, u, AtCluster) && SameSelf(m, v, u);
    forall x | x in w.uids && x != u ensures Spared(w, v, x) {
      ElsewhereSpares(m, v, u, x);
      SparedOn(w, m, v, x);
    }
    if !mode.Busy? {
      AloneOn(w, m, v, u);
    }
  }

  lemma DriftConfined(mode: Mode, w: World, c: Cluster, m: World, v: World, u: UID)
    requires Confined(mode, w, c, m, u) && Drifts(m, v) && (!mode.Busy? ==> v == m)
    ensures Confined(mode, w, c, v, u)
  {
    InvParts(w);
    InvParts(m);
    forall x | x in w.uids && x != u ensures Spared(w, v, x) {
      DriftSpares(m, v, x);
      SparedOn(w, m, v, x);
    }
  }

  lemma TunnelMadeAlone(w: World, u: UID)
    ensures Alone(w, TunnelMade(w, ForBinding(u)), u)
  {
    InvParts(w);
  }

  lemma TunnelRemovedAlone(w: World, u: UID, id: Id)
    requires id in w.account.tunnels ==> Named(w.account, u, id)
    ensures Alone(w, TunnelRemoved(w, id), u)
  {}

  lemma ConfiguredAlone(w: World, u: UID, id: Id, rules: seq<IngressRule>)
    requires id in w.account.tunnels ==> Named(w.account, u, id)
    ensures Alone(w, Configured(w, id, rules), u)
  {}

  lemma ChildStepsAlone(w: World, u: UID, k: ChildKey)
    requires k in w.children ==> w.children[k] == u
    ensures Alone(w, ChildWritten(w, u, k), u) && Alone(w, ChildRemoved(w, k), u)
  {}

  lemma EndpointStepsAlone(w: World, u: UID, k: EndpointKey, e: Endpoint)
    requires e.owner == u && (k in w.endpoints ==> w.endpoints[k].owner == u)
    ensures Alone(w, EndpointWritten(w, k, e), u) && Alone(w, EndpointRemoved(w, k), u)
  {}

  lemma PatchedAlone(w: World, u: UID, base: BindingStatus, s: BindingStatus)
    requires u in w.bindings && (s.tunnelID == base.tunnelID || s.tunnelID != NO_ID)
    ensures Alone(w, Patched(w, u, base, s), u)
  {}

  lemma BindingStepsAlone(w: World, u: UID)
    requires u in w.bindings
    ensures Alone(w, WithFinalizer(w, u), u) && Alone(w, Trusted(w, u), u)
    ensures w.bindings[u].deleting ==> Alone(w, Released(w, u), u)
  {
    InvParts(w);
    assert u in w.released ==> Gone(w, u, w.released[u]);
  }

  // ----- The invariant -----

  lemma GoneStays(w: World, v: Snapshot, u: UID)
    requires u in w.released && Lessened(w, v, u) && AccountOk(v.account) && u !in v.bindings
    ensures Gone(v, u, w.released[u])
  {
    InvParts(w);
    assert Gone(w, u, w.released[u]);
    var b := w.released[u];
    assert b.status.tunnelID in v.account.tunnels ==> Named(v.account, u, b.status.tunnelID);
    forall k | k in v.endpoints ensures w.dnsEndpoints ==> v.endpoints[k].owner != u {
      assert OwnsEndpoint(v, u, k) ==> OwnsEndpoint(w, u, k);
    }
  }

  lemma BindingStays(w: World, v: Snapshot, u: UID)
    requires u in w.bindings && Lessened(w, v, u)
    ensures BindingOk(v.account, u, w.bindings[u])
  {
    BindingParts(w, u);
  }

  /** A binding has kept its status, or is there for the first time. */
  ghost predicate SameOrNew(w: Snapshot, v: Snapshot) {
    && v.bindings.Keys <= v.uids
    && forall u | u in v.bindings ::
         if u in w.bindings then SameStatus(w.bindings[u], v.bindings[u])
         else BindingOk(v.account, u, v.bindings[u])
  }

  predicate SameStatus(b: Binding, p: Binding) {
    p.uid == b.uid && p.finalizer == b.finalizer && p.status == b.status
  }

  lemma DriftKeepsInv(w: World, v: Snapshot)
    requires Drifts(w, v) && SameOrNew(w, v) && TrustOk(v) && ChildrenOk(v)
    ensures Inv(v)
  {
    InvParts(w);
    forall u | u in v.bindings ensures BindingOk(v.account, u, v.bindings[u]) {
      if u in w.bindings {
        DriftShrinks(w, v, u);
        BindingStays(w, v, u);
      }
    }
    forall u | u in v.released ensures Gone(v, u, v.released[u]) {
      assert Gone(w, u, w.released[u]);
      DriftShrinks(w, v, u);
      GoneStays(w, v, u);
    }
    InvOfParts(v);
  }

  lemma EventKeepsBindings(w: World, e: Event)
    requires Allowed(w, e)
    ensures SameOrNew(w, Apply(w, e))
  {
    InvParts(w);
  }

  lemma EventKeepsTrust(w: World, e: Event)
    requires Allowed(w, e)
    ensures TrustOk(Apply(w, e))
  {
    InvParts(w);
    forall u | u in Apply(w, e).bindings ensures Trusts(Apply(w, e), u) {
      if u in w.bindings {
        BindingParts(w, u);
      }
    }
  }

  lemma EventKeepsChildren(w: World, e: Event)
    requires Allowed(w, e)
    ensures ChildrenOk(Apply(w, e))
  {
    InvParts(w);
  }

  lemma EventKeepsInv(w: World, e: Event)
    ensures Inv(Apply(w, e))
  {
    if Allowed(w, e) {
      EventDrifts(w, e);
      EventKeepsBindings(w, e);
      EventKeepsTrust(w, e);
      EventKeepsChildren(w, e);
      DriftKeepsInv(w, Apply(w, e));
    }
  }

  /** What the children and the DNSEndpoints of `u` are called. */
  ghost predicate OwnChildrenOk(v: Snapshot, u: UID)
    requires u in v.bindings
  {
    && (forall k | Owns(v, u, k) :: k.prefix == Prefix(u))
    && (forall k | OwnsEndpoint(v, u, k) :: k == EndpointKey(v.bindings[u].namespace, Prefix(u)))
  }

  /** A step for `u` that leaves everyone else alone keeps the invariant if it keeps what the invariant says
      of `u`. */
  lemma OwnStepKeepsInv(w: World, v: Snapshot, u: UID)
    requires u in w.bindings && Elsewhere(w, v, u)
    requires AccountOk(v.account) && StillIssued(w.account, v.account)
    requires v.released == w.released && w.trusting <= v.trusting <= w.trusting + {u}
    requires u in v.bindings && BindingOk(v.account, u, v.bindings[u]) && Trusts(v, u) && OwnChildrenOk(v, u)
    ensures Inv(v)
  {
    InvParts(w);
    assert SameAt(w, v, u, AtCluster);
    forall x | x in v.bindings ensures x in v.uids {
      assert SameAt(w, v, u, AtBinding(x));
    }
    forall x | x in v.bindings ensures BindingOk(v.account, x, v.bindings[x]) && Trusts(v, x) {
      if x != u {
        ElsewhereSpares(w, v, u, x);
        assert BindingOk(w.account, x, w.bindings[x]) && Trusts(w, x);
      }
    }
    forall x | x in v.released ensures Gone(v, x, v.released[x]) {
      assert Gone(w, x, w.released[x]);
      ElsewhereSpares(w, v, u, x);
      GoneStays(w, v, x);
    }
    OthersChildrenOk(w, v, u);
    InvOfParts(v);
  }

  lemma OthersChildrenOk(w: World, v: Snapshot, u: UID)
    requires u in w.bindings && Elsewhere(w, v, u) && u in v.bindings && OwnChildrenOk(v, u)
    ensures ChildrenOk(v)
  {
    InvParts(w);
    assert SameAt(w, v, u, AtCluster);
    forall k | k in v.children && v.children[k] in v.uids ensures k.prefix == Prefix(v.children[k]) {
      assert SameAt(w, v, u, AtChild(k)) && (v.children[k] == u ==> Owns(v, u, k));
    }
    forall k | k in v.endpoints && v.endpoints[k].owner in v.bindings
      ensures k == EndpointKey(v.bindings[v.endpoints[k].owner].namespace, Prefix(v.endpoints[k].owner))
    {
      var x := v.endpoints[k].owner;
      assert SameAt(w, v, u, AtEndpoint(k)) && SameAt(w, v, u, AtBinding(x));
      assert x == u ==> OwnsEndpoint(v, u, k);
    }
  }

  /** What a merge patch of the status of `u` has to respect. */
  lemma PatchKeepsInv(w: World, u: UID, base: BindingStatus, s: BindingStatus)
    requires u in w.bindings && Honest(s.conditions)
    requires s.tunnelID != base.tunnelID ==>
               && w.bindings[u].finalizer && s.tunnelID != NO_ID && u in w.trusting
               && Adoptable(w, u, s.tunnelID)
    ensures Inv(Patched(w, u, base, s)) && Alone(w, Patched(w, u, base, s), u)
  {
    InvParts(w);
    BindingParts(w, u);
    PatchedAlone(w, u, base, s);
    OwnStepKeepsInv(w, Patched(w, u, base, s), u);
  }

  /** A patch against the status on record writes exactly what was meant. */
  lemma MergedExactly(base: BindingStatus, s: BindingStatus)
    ensures Merged(base, base, s) == s
  {}

  lemma PatchedLessens(w: World, u: UID, base: BindingStatus, s: BindingStatus)
    requires u in w.bindings
    ensures Lessened(w, Patched(w, u, base, s), u)
  {}

  lemma FinalizerKeepsInv(w: World, u: UID)
    requires u in w.bindings
    ensures Inv(WithFinalizer(w, u))
  {
    InvParts(w);
    BindingParts(w, u);
    BindingStepsAlone(w, u);
    OwnStepKeepsInv(w, WithFinalizer(w, u), u);
  }

  /** A binding comes to trust its provider when it finds it current and of its class. */
  lemma TrustKeepsInv(w: World, u: UID)
    requires u in w.bindings && Provided(w.cluster, RefOf(w.bindings[u].spec))
    ensures Inv(Trusted(w, u))
  {
    InvParts(w);
    BindingParts(w, u);
    BindingStepsAlone(w, u);
    OwnStepKeepsInv(w, Trusted(w, u), u);
  }

  lemma TrustShrinks(w: World, u: UID)
    ensures Shrunk(w, Trusted(w, u), u)
  {}

  lemma DischargedAlike(w: Snapshot, b: Binding, p: Binding)
    requires Discharged(w, b) && p.uid == b.uid && p.spec.retain == b.spec.retain
    requires p.status.tunnelID == b.status.tunnelID
    ensures Discharged(w, p)
  {}

  lemma ReleaseDischarges(w: Snapshot, u: UID, b: Binding)
    requires u in w.bindings && Discharged(w, b)
    ensures Discharged(Released(w, u), b)
  {
    assert forall k :: Owns(Released(w, u), b.uid, k) <==> Owns(w, b.uid, k);
  }

  /** A binding may be let go once it is discharged. */
  lemma ReleaseKeepsInv(w: World, u: UID)
    requires u in w.bindings && Discharged(w, w.bindings[u])
    ensures Inv(Released(w, u))
  {
    InvParts(w);
    BindingParts(w, u);
    var v := Released(w, u);
    forall x | x in v.bindings ensures BindingOk(v.account, x, v.bindings[x]) && Trusts(v, x) {
      assert BindingOk(w.account, x, w.bindings[x]) && Trusts(w, x);
    }
    forall x | x in v.released ensures Gone(v, x, v.released[x]) {
      assert forall k :: Owns(v, x, k) <==> Owns(w, x, k);
      assert x != u ==> Gone(w, x, w.released[x]);
    }
    InvOfParts(v);
  }

  lemma TunnelMadeKeepsInv(w: World, u: UID)
    requires u in w.bindings
    requires forall i :: !Named(w.account, u, i)
    ensures var v := TunnelMade(w, ForBinding(u));
            && Inv(v) && w.account.next != NO_ID && SameIngress(w, v, u) && Adoptable(v, u, w.account.next)
  {
    InvParts(w);
    BindingParts(w, u);
    var v := TunnelMade(w, ForBinding(u));
    TunnelMadeAlone(w, u);
    assert forall i :: Named(v.account, u, i) <==> Named(w.account, u, i) || i == w.account.next;
    assert OwnChildrenOk(w, u);
    OwnStepKeepsInv(w, v, u);
  }

  lemma TunnelRemovedKeepsInv(w: World, u: UID, id: Id)
    requires u in w.bindings && Recorded(w.account, u, id) && id != NO_ID
    ensures Inv(TunnelRemoved(w, id)) && (id in w.account.tunnels ==> Named(w.account, u, id))
  {
    InvParts(w);
    BindingParts(w, u);
    var v := TunnelRemoved(w, id);
    TunnelRemovedAlone(w, u, id);
    assert forall i | Named(v.account, u, i) :: Named(w.account, u, i);
    assert OwnChildrenOk(w, u);
    OwnStepKeepsInv(w, v, u);
  }

  lemma TunnelRemovedShrinks(w: World, u: UID, id: Id)
    ensures Shrunk(w, TunnelRemoved(w, id), u)
  {}

  /** A tunnel that is gone does not come back. */
  lemma TunnelStaysAway(w: World, v: World, u: UID, id: Id)
    requires Lessened(w, v, u) && id !in w.account.tunnels && Recorded(w.account, u, id)
    ensures id !in v.account.tunnels
  {
    InvParts(w);
    InvParts(v);
    assert id in v.account.tunnels ==> Named(v.account, u, id);
  }

  /** Only the tunnel on record may be configured. */
  lemma ConfiguredKeepsInv(w: World, u: UID, rules: seq<IngressRule>)
    requires u in w.bindings && w.bindings[u].status.tunnelID != NO_ID
    ensures var id := w.bindings[u].status.tunnelID;
            && Inv(Configured(w, id, rules)) && Reconfigured(w, Configured(w, id, rules), u, rules)
            && (id in w.account.tunnels ==> Named(w.account, u, id))
  {
    InvParts(w);
    BindingParts(w, u);
    var id := w.bindings[u].status.tunnelID;
    var v := Configured(w, id, rules);
    ConfiguredAlone(w, u, id, rules);
    assert forall i :: Named(v.account, u, i) <==> Named(w.account, u, i);
    assert OwnChildrenOk(w, u);
    OwnStepKeepsInv(w, v, u);
  }

  lemma ChildStepsKeepInv(w: World, u: UID, k: ChildKey)
    requires u in w.bindings && k.prefix == Prefix(u)
    requires k in w.children ==> w.children[k] == u
    ensures Inv(ChildWritten(w, u, k)) && Inv(ChildRemoved(w, k))
  {
    InvParts(w);
    BindingParts(w, u);
    ChildStepsAlone(w, u, k);
    assert OwnChildrenOk(w, u);
    assert OwnChildrenOk(ChildWritten(w, u, k), u) && OwnChildrenOk(ChildRemoved(w, k), u);
    OwnStepKeepsInv(w, ChildWritten(w, u, k), u);
    OwnStepKeepsInv(w, ChildRemoved(w, k), u);
  }

  lemma EndpointStepsKeepInv(w: World, u: UID, k: EndpointKey, e: Endpoint)
    requires u in w.bindings && k == EndpointKey(w.bindings[u].namespace, Prefix(u)) && e.owner == u
    requires k in w.endpoints ==> w.endpoints[k].owner == u
    ensures Inv(EndpointWritten(w, k, e)) && Inv(EndpointRemoved(w, k))
  {
    InvParts(w);
    BindingParts(w, u);
    EndpointStepsAlone(w, u, k, e);
    assert OwnChildrenOk(w, u);
    assert OwnChildrenOk(EndpointWritten(w, k, e), u) && OwnChildrenOk(EndpointRemoved(w, k), u);
    OwnStepKeepsInv(w, EndpointWritten(w, k, e), u);
    OwnStepKeepsInv(w, EndpointRemoved(w, k), u);
  }

  lemma ChildRemovalShrinks(w: World, u: UID, k: ChildKey)
    ensures Shrunk(w, ChildRemoved(w, k), u)
  {}

  lemma EndpointRemovalShrinks(w: World, u: UID, k: EndpointKey)
    ensures Shrunk(w, EndpointRemoved(w, k), u)
  {}

  /** What the copy in memory and the world agree on decides what may be written. */
  lemma ChildrenOf(w: World, u: UID)
    requires u in w.uids
    requires forall kind :: !Owns(w, u, ChildKey(kind, Prefix(u)))
    ensures forall k :: !Owns(w, u, k)
  {
    InvParts(w);
  }

  lemma EndpointsOf(w: World, b: Binding)
    requires Holds(w, b) && b.finalizer && !OwnsEndpoint(w, b.uid, EndpointKey(b.namespace, Prefix(b.uid)))
    ensures NoneOwned(w.endpoints, b.uid)
  {
    InvParts(w);
  }

  // ----- Finalization -----

  /** Nothing but a fault can keep the finalization of `b` from completing. */
  predicate CanFinish(w: Snapshot, b: Binding) {
    && MayRemove(w, b.uid, Deployment) && MayRemove(w, b.uid, Secret) && MayRemoveEndpoint(w, b)
    && (b.status.tunnelID == NO_ID
        || if b.spec.retain then MayRetain(w.cluster, b) else Reachable(w.cluster, RefOf(b.spec)))
  }

  predicate MayRetain(c: Cluster, b: Binding) {
    b.spec.provider in c.providers ==> c.providers[b.spec.provider].controller == b.spec.controller
  }

  /** A provider that is missing or of another class never keeps a binding from going: what a finalization
      can still wait for is the API token, and children or a DNSEndpoint that are not the binding's own. */
  lemma ProviderNeverBlocks(w: World, u: UID)
    requires u in w.bindings
    ensures var b := w.bindings[u];
            && (b.status.tunnelID != NO_ID ==> Provided(w.cluster, RefOf(b.spec)))
            && (CanFinish(w, b) <==>
                  && MayRemove(w, u, Deployment) && MayRemove(w, u, Secret) && MayRemoveEndpoint(w, b)
                  && (b.spec.retain || b.status.tunnelID == NO_ID || HasToken(w.cluster, b.spec.provider)))
  {
    BindingParts(w, u);
  }

  /** The tunnels a finalization of `b` leaves: all but the recorded one, and under Retain that too. */
  function TunnelsLeft(a: Account, b: Binding): map<Id, Tunnel> {
    if b.spec.retain || b.status.tunnelID == NO_ID then a.tunnels else a.tunnels - {b.status.tunnelID}
  }

  /** The binding is marked for deletion and waits for the finalizer to come off. */
  predicate Dying(w: Snapshot, u: UID) {
    u in w.bindings && w.bindings[u].deleting && w.bindings[u].finalizer
  }

  /** It is still there, with the same status. */
  ghost predicate Remains(w: Snapshot, v: Snapshot, u: UID) {
    var all := (
      u in w.bindings && u in v.bindings && Kept(w.bindings[u], v.bindings[u])
    );
    all
  }

  /** `u` is still there, waiting to be let go, or the controller has let it go with the same tunnel on
      record; every `World` says that it is discharged then. */
  ghost predicate Finishing(w: Snapshot, v: Snapshot, u: UID) {
    var all := (
      && u in w.bindings
      && if u in v.bindings then Kept(w.bindings[u], v.bindings[u])
         else u in v.released && v.released[u].status.tunnelID == w.bindings[u].status.tunnelID
    );
    all
  }

  /** A tunnel came on record for `u`. */
  predicate NewTunnel(w: Snapshot, v: Snapshot, u: UID) {
    && u in v.bindings && v.bindings[u].status.tunnelID != NO_ID
    && (u in w.bindings ==> w.bindings[u].status.tunnelID == NO_ID)
  }

  /** If `u` is there it was there before, with the same tunnel on record. */
  predicate SameTunnel(w: Snapshot, v: Snapshot, u: UID) {
    u in v.bindings ==> u in w.bindings && v.bindings[u].status.tunnelID == w.bindings[u].status.tunnelID
  }

  /** Where a plan comes from: the cluster as it was when the Service was read, and when the routes were. */
  datatype Sources = Sources(services: Cluster, routes: Cluster)

  /** A plan was made with the provider as it was in `c`; it points to the Service and publishes the names as
      they were in `sources`. */
  ghost predicate Grounded(plan: Plan, c: Cluster, sources: Sources, b: Binding, provider: Option<Provider>) {
    var all := (
      plan.Planned? ==>
        && provider.Some? && Vouched(c, b, provider.value)
        && plan.hosts == HostsOf(sources.routes, b, provider.value)
        && PointsAt(plan.origin, sources.services, b)
    );
    all
  }

  predicate SameButTrust(w: Snapshot, v: Snapshot) {
    v == w.(trusting := v.trusting)
  }

  /** The provider is the one `b` refers to, of its class, and its conditions are current. */
  predicate Vouched(c: Cluster, b: Binding, p: Provider) {
    var all := (
      Reliable(c, RefOf(b.spec)) && c.providers[b.spec.provider] == p
    );
    all
  }

  // ----- Results of one pass -----

  /** Whatever happened, every tunnel of `u` that is there is configured as before, by the plan, or after a
      rejection by the 404 rule alone. */
  ghost predicate OneOfThree(w: Snapshot, v: Snapshot, u: UID, plan: Plan) {
    forall i | Named(v.account, u, i) ::
      || IngressKept(w.account, v.account, u, i)
      || (plan.Refused? && v.account.tunnels[i].ingress == NOTHING_PUBLISHED)
      || (plan.Planned? && v.account.tunnels[i].ingress == Rules(Sorted(plan.hosts), plan.origin))
  }

  lemma NoneReconfigured(w: World, v: World, u: UID, plan: Plan)
    requires SameIngress(w, v, u)
    ensures OneOfThree(w, v, u, plan)
  {}

  lemma OneOfThreeLater(w: World, m: World, v: World, u: UID, plan: Plan)
    requires Shrunk(w, m, u) && OneOfThree(m, v, u, plan)
    ensures OneOfThree(w, v, u, plan)
  {
    InvParts(w);
  }

  /** After a rejection that was carried through, the tunnel on record publishes nothing and there is no
      DNSEndpoint. */
  ghost predicate Silenced(v: Snapshot, u: UID, tunnelID: Id) {
    var all := (
      ConfiguredBy(v, tunnelID, NOTHING_PUBLISHED) && (v.dnsEndpoints ==> NoneOwned(v.endpoints, u))
    );
    all
  }

  predicate Reports(w: Snapshot, u: UID, conditions: BindingConditions) {
    u in w.bindings && w.bindings[u].status.conditions == conditions
  }

  /** The pass ended in a rejection that was carried through, not for the class of the provider. */
  predicate Refusal(ok: bool, plan: Plan) {
    ok && plan.Refused? && plan.reason != ProviderControllerClassMismatch
  }

  /** What one undisturbed pass over the live binding `u` brings about. */
  ghost predicate Converges(w: Snapshot, v: Snapshot, u: UID, plan: Plan, ok: bool, ready: bool)
    requires u in w.bindings
  {
    var all := (
      var b := w.bindings[u];
      match plan
      case Broken => !ok && Reports(v, u, ReportFailed(b.status.conditions, TheTunnel, b.generation))
      case StatusUnknown => !ok && Reports(v, u, ReportFailed(b.status.conditions, NoPart, b.generation))
      case Refused(reason, error) =>
        && u in v.bindings && Rejects(v.bindings[u].status, reason)
        && v.bindings[u].status.tunnelID == b.status.tunnelID
        && (ok <==> !error && (reason == ProviderControllerClassMismatch || MayWithdraw(w, b)))
        && (reason == ProviderControllerClassMismatch ==> v.account == w.account && SameChildren(w, v))
      case Planned(hosts, origin) =>
        if !b.finalizer then ok && u in v.bindings && v.bindings[u].finalizer
        else
          && (HasToken(w.cluster, b.spec.provider) ==> Serves(v, u, Rules(Sorted(hosts), origin)))
          && (ok <==> HasToken(w.cluster, b.spec.provider) && MayWrite(w, b))
          && (!ok ==> Reports(v, u, ReportFailed(b.status.conditions,
                        if HasToken(w.cluster, b.spec.provider) then PartInTheWay(w, b) else TheConnector,
                        b.generation)))
          && (ok ==>
                && u in v.bindings
                && Announced(v, b, Sorted(hosts), v.bindings[u].status.tunnelID, ready))
    );
    all
  }

  /** What one undisturbed pass over the binding `b` brings about. */
  ghost predicate Settles(w: Snapshot, v: Snapshot, b: Binding, plan: Plan, ok: bool, ready: bool)
  {
    var all := (
      if b.deleting then
        b.finalizer ==>
          && (ok <==> CanFinish(w, b)) && (b.uid !in v.bindings <==> CanFinish(w, b))
          && (ok ==> Discharged(v, b) && v.account.tunnels == TunnelsLeft(w.account, b))
      else b.uid in w.bindings ==> Converges(w, v, b.uid, plan, ok, ready)
    );
    all
  }

  /** There is nothing left to configure for the plan. */
  ghost predicate AsPlanned(w: Snapshot, u: UID, plan: Plan)
    requires u in w.bindings
  {
    var all := (
      match plan
      case Planned(hosts, origin) => w.bindings[u].finalizer ==> Serves(w, u, Rules(Sorted(hosts), origin))
      case Refused(reason, _) =>
        reason == ProviderControllerClassMismatch || ConfiguredBy(w, w.bindings[u].status.tunnelID, NOTHING_PUBLISHED)
      case _ => true
    );
    all
  }

  /** The pass over the live binding `u` did what the plan calls for, and wrote nothing if nothing was left to
      configure. */
  ghost predicate Achieves(w: Snapshot, v: Snapshot, u: UID, plan: Plan, ok: bool, ready: bool, unwritten: bool) {
    var all := (
      u in w.bindings ==> Converges(w, v, u, plan, ok, ready) && (AsPlanned(w, u, plan) ==> unwritten)
    );
    all
  }

  /** Coming to trust the provider makes no difference to what a pass brings about. */
  lemma AchievesAcross(w: Snapshot, m: Snapshot, v: Snapshot, u: UID, plan: Plan, ok: bool, ready: bool,
      unwritten: bool)
    requires SameButTrust(w, m) && Achieves(m, v, u, plan, ok, ready, unwritten)
    ensures Achieves(w, v, u, plan, ok, ready, unwritten)
  {}
}
