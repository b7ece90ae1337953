/** Bindings, and the plan a binding gets from one state of the cluster
    (internal/controller/cloudflaretunnelbinding_controller.go). */
module BindingPlans {
  import opened Cloudflare
  import opened Kube
  import opened Names
  import opened Orders
  import opened Origins
  import opened Planner
  import opened Text

  const BINDING_KIND := "CloudflareTunnelBinding"
  const TRAEFIK := "traefik.io/gateway-controller"
  const GATEWAY_GROUP := "gateway.networking.k8s.io"

  datatype BindingConditions = BindingConditions(
    accepted: Condition,
    programmed: Condition,
    connectorReady: Condition,
    dnsReady: Condition,
    ready: Condition)

  datatype BindingStatus = BindingStatus(tunnelID: Id, published: seq<string>, conditions: BindingConditions)

  const UNSET := BindingStatus(NO_ID, [], BindingConditions(Absent, Absent, Absent, Absent, Absent))

  datatype BindingSpec = BindingSpec(
    controller: string,
    provider: string,
    gateway: string,
    section: string,
    originNamespace: string,
    originName: string,
    originPort: PortRef,
    dnsAutomation: bool,
    retain: bool)

  /** A binding. `version` stands for the resource version. */
  datatype Binding = Binding(
    uid: UID,
    namespace: string,
    name: string,
    created: int,
    generation: int,
    version: int,
    finalizer: bool,
    deleting: bool,
    spec: BindingSpec,
    status: BindingStatus)

  function RefOf(spec: BindingSpec): ProviderRef {
    ProviderRef(spec.controller, spec.provider)
  }

  // ----- Order -----

  function KeyOf(b: Binding): string {
    BindingKey(b.namespace, b.name, UidText(b.uid))
  }

  predicate Precedes(a: Binding, b: Binding) {
    BindingPrecedes(a.created, KeyOf(a), b.created, KeyOf(b))
  }

  /** What Kubernetes guarantees about object metadata. */
  predicate Wellformed(b: Binding) {
    0 <= b.uid < UIDS && SlashFree(b.namespace) && SlashFree(b.name)
  }

  lemma PrecedesTotal(a: Binding, b: Binding)
    requires Wellformed(a) && Wellformed(b) && a.uid != b.uid
    ensures Precedes(a, b) <==> !Precedes(b, a)
  {
    if KeyOf(a) == KeyOf(b) {
      KeyInjective(a.namespace, a.name, UidText(a.uid), b.namespace, b.name, UidText(b.uid));
      UidOrder(a.uid, b.uid);
    }
    LessTotal(KeyOf(a), KeyOf(b));
    LessAsymmetric(KeyOf(a), KeyOf(b));
  }

  lemma PrecedesTransitive(a: Binding, b: Binding, c: Binding)
    requires Precedes(a, b) && Precedes(b, c)
    ensures Precedes(a, c)
  {
    if a.created == b.created == c.created {
      LessTransitive(KeyOf(a), KeyOf(b), KeyOf(c));
    }
  }

  /** Age first, then namespace, name and UID. */
  predicate PrecedesByParts(a: Binding, b: Binding) {
    if a.created != b.created then a.created < b.created
    else TupleLess(a.namespace, a.name, UidText(a.uid), b.namespace, b.name, UidText(b.uid))
  }

  /** Precedence is the order of age, namespace, name and UID, unless the bindings are of one age and their
      namespaces, or in one namespace their names, diverge. */
  lemma PrecedesExactly(a: Binding, b: Binding)
    requires Wellformed(a) && Wellformed(b)
    ensures (Precedes(a, b) <==> PrecedesByParts(a, b))
       <==> a.created != b.created || !Diverges(a.namespace, a.name, b.namespace, b.name)
  {
    KeyOrderExactly(a.namespace, a.name, UidText(a.uid), b.namespace, b.name, UidText(b.uid));
  }

  // ----- HTTP routes -----

  predicate TargetsGateway(ref: ParentRef, routeNamespace: string, b: Binding) {
    && (ref.group.None? || ref.group.value == GATEWAY_GROUP)
    && (ref.kind.None? || ref.kind.value == "Gateway")
    && (if ref.namespace.None? then routeNamespace else ref.namespace.value) == b.namespace
    && ref.name == b.spec.gateway
    && ref.sectionName == Some(b.spec.section)
  }

  predicate RouteTargets(route: HTTPRoute, namespace: string, b: Binding) {
    exists i | 0 <= i < |route.parents| :: TargetsGateway(route.parents[i], namespace, b)
  }

  predicate RouteAccepted(route: HTTPRoute, namespace: string, b: Binding) {
    exists i | 0 <= i < |route.status| ::
      && route.status[i].controllerName == TRAEFIK
      && TargetsGateway(route.status[i].ref, namespace, b)
      && ConditionTrue(route.status[i].accepted, route.generation)
      && ConditionTrue(route.status[i].resolvedRefs, route.generation)
  }

  predicate Contributes(key: Key, route: HTTPRoute, b: Binding) {
    key.namespace == b.namespace && RouteTargets(route, key.namespace, b) && RouteAccepted(route, key.namespace, b)
  }

  /** The host names of the accepted HTTP routes in the binding's namespace that target its listener. */
  function RouteHostnames(c: Cluster, b: Binding): set<string> {
    set k, h | k in c.httpRoutes && Contributes(k, c.httpRoutes[k], b) && h in c.httpRoutes[k].hostnames :: h
  }

  function CanonicalOf(names: set<string>): set<string> {
    set name | name in names :: Canonical(name)
  }

  predicate ZonesOk(p: Provider) {
    forall h | h in CanonicalSet(p.zones) :: Concrete(h)
  }

  /** The zones of a provider, normalised. */
  ghost function Zones(p: Provider): seq<string> {
    Sorted(CanonicalSet(p.zones))
  }

  /** What `b` wants to publish under the zones of `p`. */
  ghost function HostsOf(c: Cluster, b: Binding, p: Provider): set<string> {
    EligibleOf(CanonicalOf(RouteHostnames(c, b)), Zones(p))
  }

  // ----- Conflicts -----

  /** `other` owns the Gateway that `b` refers to. */
  predicate GatewayRival(other: Binding, b: Binding, controllerClass: string) {
    && other.spec.controller == controllerClass && !other.deleting && other.uid != b.uid
    && other.namespace == b.namespace && other.spec.gateway == b.spec.gateway
    && Precedes(other, b)
  }

  /** The host names `other` counts as owning: those of its own plan if its provider can be evaluated,
      else those it last published. */
  ghost function ClaimedHosts(c: Cluster, other: Binding): set<string> {
    if Evaluable(c, other) && ZonesOk(c.providers[other.spec.provider])
    then HostsOf(c, other, c.providers[other.spec.provider])
    else Elements(other.status.published)
  }

  /** The provider of `other` is there and currently accepted. */
  predicate Evaluable(c: Cluster, other: Binding) {
    && other.spec.provider in c.providers
    && ConditionTrue(c.providers[other.spec.provider].accepted, c.providers[other.spec.provider].generation)
  }

  predicate Senior(other: Binding, b: Binding) {
    !other.deleting && other.uid != b.uid && Precedes(other, b)
  }

  ghost predicate HostRival(c: Cluster, other: Binding, b: Binding, hosts: set<string>) {
    Senior(other, b) && !(ClaimedHosts(c, other) !! hosts)
  }

  ghost predicate HostsTaken(c: Cluster, bindings: map<UID, Binding>, b: Binding, hosts: set<string>) {
    exists u | u in bindings :: HostRival(c, bindings[u], b, hosts)
  }

  // ----- Plans -----

  /** `Refused` carries whether the reading that led to it failed. */
  datatype Plan =
    | Broken
    | StatusUnknown
    | Refused(reason: Reason, error: bool)
    | Planned(hosts: set<string>, origin: string)

  datatype Check<T> = Fault | Unknown | No(reason: Reason, error: bool) | Yes(value: T)

  predicate CurrentlyFalse(c: Condition, generation: int) {
    c.Reported? && c.generation == generation && c.verdict.IsFalse?
  }

  function CheckProvider(c: Cluster, b: Binding): Check<Provider> {
    if b.spec.provider !in c.providers then No(ProviderNotFound, false) else
    var p := c.providers[b.spec.provider];
    if p.controller != b.spec.controller then No(ProviderControllerClassMismatch, false)
    else if CurrentlyFalse(p.accepted, p.generation) || CurrentlyFalse(p.credentials, p.generation) then
      No(ProviderNotReady, false)
    else if !CurrentlyValid(p) then Unknown
    else Yes(p)
  }

  function CheckNamespace(c: Cluster, b: Binding, p: Provider): Check<Provider> {
    if b.namespace !in c.namespaces then Fault
    else if !Selects(p.selector, c.namespaces[b.namespace]) then No(NamespaceNotAllowed, false)
    else Yes(p)
  }

  predicate GatewayTaken(bindings: map<UID, Binding>, b: Binding, controllerClass: string) {
    exists u | u in bindings :: GatewayRival(bindings[u], b, controllerClass)
  }

  function ValidateClusterProvider(c: Cluster, bindings: map<UID, Binding>, b: Binding,
      controllerClass: string): Check<Provider> {
    var check := CheckProvider(c, b);
    if check.Yes? then ValidateOthers(c, bindings, b, check.value, controllerClass) else check
  }

  function ValidateOthers(c: Cluster, bindings: map<UID, Binding>, b: Binding, p: Provider,
      controllerClass: string): Check<Provider> {
    var allowed := CheckNamespace(c, b, p);
    if allowed.Yes? && GatewayTaken(bindings, b, controllerClass) then No(GatewayConflict, false) else allowed
  }

  predicate HasHTTPListener(g: Gateway, section: string) {
    exists i | 0 <= i < |g.listeners| :: g.listeners[i].name == section && g.listeners[i].http
  }

  function CheckGateway(c: Cluster, b: Binding): Check<Gateway> {
    var key := Key(b.namespace, b.spec.gateway);
    if key !in c.gateways then No(GatewayNotFound, false) else CheckGatewayClass(c, c.gateways[key], b)
  }

  function CheckGatewayClass(c: Cluster, g: Gateway, b: Binding): Check<Gateway> {
    if g.className !in c.gatewayClasses then No(GatewayClassNotFound, false)
    else CheckListener(c.gatewayClasses[g.className], g, b)
  }

  function CheckListener(controllerName: string, g: Gateway, b: Binding): Check<Gateway> {
    if controllerName != TRAEFIK then No(UnsupportedGatewayClass, false)
    else if !ConditionTrue(g.accepted, g.generation) || !ConditionTrue(g.programmed, g.generation) then
      No(GatewayNotReady, false)
    else if !HasHTTPListener(g, b.spec.section) then No(ListenerInvalid, false)
    else Yes(g)
  }

  function OriginNamespace(b: Binding): string {
    if b.spec.originNamespace != "" then b.spec.originNamespace else b.namespace
  }

  predicate ReferencePermitted(c: Cluster, b: Binding) {
    OriginNamespace(b) == b.namespace || GrantedTo(c, b)
  }

  predicate GrantedTo(c: Cluster, b: Binding) {
    Granted(c, OriginNamespace(b), BINDING_KIND, b.namespace, b.spec.originName)
  }

  function CheckService(c: Cluster, b: Binding): Check<string> {
    var key := Key(OriginNamespace(b), b.spec.originName);
    if key !in c.services then No(ServiceNotFound, false) else
    var s := c.services[key];
    if s.kind.OtherType? || s.address.NoAddress? || s.address.Headless? then No(InvalidService, false) else
    var port := ResolvePort(s.ports, b.spec.originPort);
    if port.None? then No(ServicePortNotFound, false) else Yes(OriginURL(key, port.value))
  }

  function ValidateOriginService(c: Cluster, b: Binding): Check<string> {
    var g := CheckGateway(c, b);
    if g.No? then No(g.reason, g.error) else ValidateService(c, b)
  }

  function ValidateService(c: Cluster, b: Binding): Check<string> {
    if !ReferencePermitted(c, b) then No(RefNotPermitted, false) else CheckService(c, b)
  }

  /** The origin addresses the first port that `b` selects of the Service it refers to. */
  ghost predicate PointsAt(origin: string, c: Cluster, b: Binding) {
    forall key {:trigger PointsTo(origin, c, b, key)} ::
      key == Key(if b.spec.originNamespace == "" then b.namespace else b.spec.originNamespace, b.spec.originName) ==>
        PointsTo(origin, c, b, key)
  }

  ghost predicate PointsTo(origin: string, c: Cluster, b: Binding, key: Key) {
    && key in c.services
    && exists i | 0 <= i < |c.services[key].ports| ::
         && FirstFit(c.services[key].ports, b.spec.originPort, i)
         && Addresses(origin, key.name, key.namespace, c.services[key].ports[i].number)
  }

  lemma ServicePointsAt(c: Cluster, b: Binding)
    ensures CheckService(c, b).Yes? ==> PointsAt(CheckService(c, b).value, c, b)
  {
    var check := CheckService(c, b);
    if check.Yes? {
      var key := Key(OriginNamespace(b), b.spec.originName);
      var ports := c.services[key].ports;
      var i := PortResolved(ports, b.spec.originPort);
      URLAddresses(key, ports[i].number);
    }
  }

  /** The plan for `b`: what it may publish and where to, or why not. */
  ghost function PlanFor(c: Cluster, bindings: map<UID, Binding>, b: Binding, controllerClass: string): Plan {
    var check := ValidateClusterProvider(c, bindings, b, controllerClass);
    if check.Yes? then PlanForOrigin(c, bindings, b, check.value) else WithoutProvider(check)
  }

  function WithoutProvider(check: Check<Provider>): Plan
    requires !check.Yes?
  {
    match check
    case Fault => Broken
    case Unknown => StatusUnknown
    case No(reason, error) => Refused(reason, error)
  }

  ghost function PlanForOrigin(c: Cluster, bindings: map<UID, Binding>, b: Binding, p: Provider): Plan {
    match ValidateOriginService(c, b)
    case Fault => Broken
    case Unknown => StatusUnknown
    case No(reason, error) => Refused(reason, error)
    case Yes(origin) => PlanHosts(c, bindings, b, p, origin)
  }

  ghost function PlanHosts(c: Cluster, bindings: map<UID, Binding>, b: Binding, p: Provider, origin: string): Plan {
    if !ZonesOk(p) then Refused(ProviderInvalid, false) else PlanClaim(c, bindings, b, HostsOf(c, b, p), origin)
  }

  ghost function PlanClaim(c: Cluster, bindings: map<UID, Binding>, b: Binding, hosts: set<string>,
      origin: string): Plan {
    if hosts == {} then
      if b.status.tunnelID == NO_ID then Refused(NoEligibleHostnames, false) else Planned({}, origin)
    else if HostsTaken(c, bindings, b, hosts) then Refused(HostnameConflict, false)
    else Planned(hosts, origin)
  }

  // ----- Plans made while reads fail -----

  /** What a read comes to: the verdict, or in a pass with faults a failure, which is no verdict. */
  predicate Answers<T(==)>(mode: Mode, check: Check<T>, verdict: Check<T>) {
    check == verdict || (!mode.Calm? && check.Fault?)
  }

  /** Or a rejection for one of the reasons under which a failing read is reported. */
  predicate Concludes<T(==)>(mode: Mode, check: Check<T>, verdict: Check<T>, unread: set<Reason>) {
    Answers(mode, check, verdict) || (!mode.Calm? && check.No? && check.error && check.reason in unread)
  }

  /** The claims of `other`; when they cannot be read, the names it last published. */
  ghost predicate ClaimsRead(mode: Mode, hostnames: seq<string>, c: Cluster, other: Binding) {
    Elements(hostnames) == ClaimedHosts(c, other) || (!mode.Calm? && hostnames == other.status.published)
  }

  /** Whether `other` was found to own one of `hosts`, by its claims or by what it last published. */
  ghost predicate RivalRead(mode: Mode, found: bool, c: Cluster, other: Binding, b: Binding, hosts: set<string>) {
    || (found <==> HostRival(c, other, b, hosts))
    || (!mode.Calm? && (found <==> PublishedRival(other, b, hosts)))
  }

  ghost predicate PublishedRival(other: Binding, b: Binding, hosts: set<string>) {
    Senior(other, b) && !(Elements(other.status.published) !! hosts)
  }

  ghost predicate TakenRead(mode: Mode, taken: bool, c: Cluster, bindings: map<UID, Binding>, b: Binding,
      hosts: set<string>) {
    if taken then exists u | u in bindings :: RivalRead(mode, true, c, bindings[u], b, hosts)
    else forall u | u in bindings :: RivalRead(mode, false, c, bindings[u], b, hosts)
  }

  ghost predicate ClaimPlanned(mode: Mode, plan: Plan, c: Cluster, bindings: map<UID, Binding>, b: Binding,
      hosts: set<string>, origin: string) {
    var all := (
      || plan == PlanClaim(c, bindings, b, hosts, origin)
      || (!mode.Calm? && (plan.Broken? || ClaimsReadOtherwise(mode, plan, c, bindings, b, hosts, origin)))
    );
    all
  }

  /** Another binding's claims decided, as they were read. */
  ghost predicate ClaimsReadOtherwise(mode: Mode, plan: Plan, c: Cluster, bindings: map<UID, Binding>, b: Binding,
      hosts: set<string>, origin: string) {
    var all := (
      && hosts != {}
      && TakenRead(mode, plan.Refused?, c, bindings, b, hosts)
      && plan == if plan.Refused? then Refused(HostnameConflict, false) else Planned(hosts, origin)
    );
    all
  }

  ghost predicate HostsPlanned(mode: Mode, plan: Plan, c: Cluster, bindings: map<UID, Binding>, b: Binding, p: Provider,
      origin: string) {
    var all := (
      if !ZonesOk(p) then plan == Refused(ProviderInvalid, false) || (!mode.Calm? && plan.Broken?)
      else ClaimPlanned(mode, plan, c, bindings, b, HostsOf(c, b, p), origin)
    );
    all
  }

  ghost predicate OriginPlanned(mode: Mode, plan: Plan, c: Cluster, bindings: map<UID, Binding>, b: Binding,
      p: Provider) {
    var all := (
      var verdict := ValidateOriginService(c, b);
      || plan == PlanForOrigin(c, bindings, b, p)
      || (!mode.Calm? && Unread(plan, {GatewayNotFound, GatewayClassNotFound}))
      || (!mode.Calm? && verdict.Yes? && HostsPlanned(mode, plan, c, bindings, b, p, verdict.value))
    );
    all
  }

  /** The outcome of a failing read. */
  predicate Unread(plan: Plan, unread: set<Reason>) {
    plan.Broken? || (plan.Refused? && plan.error && plan.reason in unread)
  }

  /** What the planning of `b` may come to: without faults the plan for `b`; with faults also the outcome of a
      failing read, or a plan in which the names that earlier bindings last published stand for their claims. */
  ghost predicate Plausible(mode: Mode, plan: Plan, c: Cluster, bindings: map<UID, Binding>, b: Binding,
      controllerClass: string) {
    forall check {:trigger ComesOf(mode, plan, c, bindings, b, check)} ::
      check == ValidateClusterProvider(c, bindings, b, controllerClass) ==>
        ComesOf(mode, plan, c, bindings, b, check)
  }

  /** `check` is the verdict on the provider, the namespace and the owner of the Gateway. */
  ghost predicate ComesOf(mode: Mode, plan: Plan, c: Cluster, bindings: map<UID, Binding>, b: Binding,
      check: Check<Provider>) {
    || plan == (if check.Yes? then PlanForOrigin(c, bindings, b, check.value) else WithoutProvider(check))
    || (!mode.Calm? && Unread(plan, {ProviderNotFound, GatewayNotFound, GatewayClassNotFound}))
    || (!mode.Calm? && check.Yes? && OriginPlanned(mode, plan, c, bindings, b, check.value))
  }

  lemma CalmPlan(plan: Plan, c: Cluster, bindings: map<UID, Binding>, b: Binding, controllerClass: string)
    ensures Plausible(Calm, plan, c, bindings, b, controllerClass) <==>
              plan == PlanFor(c, bindings, b, controllerClass)
  {
    assert ComesOf(Calm, plan, c, bindings, b, ValidateClusterProvider(c, bindings, b, controllerClass)) <==>
             plan == PlanFor(c, bindings, b, controllerClass);
  }

  // ----- Reports -----

  /** The condition that an operational failure makes unknown, besides Ready. */
  datatype Part = TheTunnel | TheConnector | TheDNS | NoPart

  /** Ready at some generation only with every other condition true at the same generation. */
  ghost predicate Honest(c: BindingConditions) {
    c.ready.Reported? && c.ready.verdict.IsTrue? ==>
      && ConditionTrue(c.accepted, c.ready.generation)
      && ConditionTrue(c.programmed, c.ready.generation)
      && ConditionTrue(c.connectorReady, c.ready.generation)
      && ConditionTrue(c.dnsReady, c.ready.generation)
  }

  /** True or False at `generation`, as `yes` says. */
  predicate Says(c: Condition, generation: int, yes: bool) {
    c.Reported? && c.generation == generation && if yes then c.verdict.IsTrue? else c.verdict.IsFalse?
  }

  /** The binding is accepted; something is published or not, the connector is ready or not, and its names are in
      DNS, as far as that is the controller's business, or not. Ready is true if nothing of this is missing. */
  predicate Tells(c: BindingConditions, generation: int, published: bool, connector: bool, dns: bool) {
    && Says(c.accepted, generation, true) && Says(c.programmed, generation, published)
    && Says(c.connectorReady, generation, connector) && Says(c.dnsReady, generation, dns)
    && Says(c.ready, generation, published && connector && dns)
  }

  /** The conditions after a successful pass. */
  function Report(published: bool, connectorReady: bool, dnsEnabled: bool, dnsAutomated: bool, generation: int)
    : (r: BindingConditions)
    ensures Honest(r)
    ensures ConditionTrue(r.ready, generation) <==>
              && ConditionTrue(r.accepted, generation) && ConditionTrue(r.programmed, generation)
              && ConditionTrue(r.connectorReady, generation) && ConditionTrue(r.dnsReady, generation)
    ensures Tells(r, generation, published, connectorReady, dnsEnabled ==> dnsAutomated)
  {
    var dns := dnsAutomated || !dnsEnabled;
    BindingConditions(
      Reported(IsTrue, generation, Reason.Accepted),
      Reported(Truth(published), generation, if published then OtherReason else NoEligibleHostnames),
      Reported(Truth(connectorReady), generation, OtherReason),
      Reported(Truth(dns), generation, OtherReason),
      Reported(Truth(published && connectorReady && dns), generation, OtherReason))
  }

  function ReadyStatus(b: Binding, hostnames: seq<string>, connectorReady: bool, dnsAutomated: bool): BindingStatus {
    b.status.(published := hostnames,
              conditions := Report(hostnames != [], connectorReady, b.spec.dnsAutomation, dnsAutomated, b.generation))
  }

  /** The status says that the binding is not accepted, for this reason. */
  predicate Rejects(s: BindingStatus, reason: Reason) {
    && s.published == [] && s.conditions.accepted.Reported?
    && s.conditions.accepted.verdict.IsFalse? && s.conditions.accepted.reason == reason
  }

  function RejectedStatus(b: Binding, reason: Reason): (r: BindingStatus)
    ensures Rejects(r, reason) && r.tunnelID == b.status.tunnelID
  {
    b.status.(published := [], conditions := ReportRejected(b.status.conditions, reason, b.generation))
  }

  predicate Doubted(c: Condition, generation: int) {
    c == Reported(IsUnknown, generation, ReconciliationFailed)
  }

  /** Of what was reported before only the connector's condition stays. */
  function ReportRejected(c: BindingConditions, reason: Reason, generation: int): (r: BindingConditions)
    ensures Honest(r) && r.connectorReady == c.connectorReady
    ensures forall x | x in {r.accepted, r.programmed, r.dnsReady, r.ready} ::
              x.Reported? && x.verdict.IsFalse? && x.generation == generation
    ensures r.accepted.reason == reason && r.ready.reason == NotAccepted
  {
    var no := Reported(IsFalse, generation, NotAccepted);
    c.(accepted := Reported(IsFalse, generation, reason), programmed := no, dnsReady := no, ready := no)
  }

  /** Ready becomes unknown, and so does the condition of the part that failed; every other condition stays. */
  function ReportFailed(c: BindingConditions, part: Part, generation: int): (r: BindingConditions)
    ensures Honest(r) && Doubted(r.ready, generation)
    ensures r.accepted == c.accepted
    ensures if part.TheTunnel? then Doubted(r.programmed, generation) else r.programmed == c.programmed
    ensures if part.TheConnector? then Doubted(r.connectorReady, generation) else r.connectorReady == c.connectorReady
    ensures if part.TheDNS? then Doubted(r.dnsReady, generation) else r.dnsReady == c.dnsReady
  {
    var unknown := Reported(IsUnknown, generation, ReconciliationFailed);
    match part
    case TheTunnel => c.(programmed := unknown, ready := unknown)
    case TheConnector => c.(connectorReady := unknown, ready := unknown)
    case TheDNS => c.(dnsReady := unknown, ready := unknown)
    case NoPart => c.(ready := unknown)
  }

  // ----- Loops over lists -----

  /** The binding's candidates, in whatever order the routes are listed. */
  method CollectHostnames(c: Cluster, b: Binding) returns (hostnames: seq<string>)
    ensures Elements(hostnames) == RouteHostnames(c, b)
  {
    hostnames := [];
    var keys := c.httpRoutes.Keys;
    while keys != {}
      invariant keys <= c.httpRoutes.Keys
      invariant forall h :: h in hostnames <==> exists k | k in c.httpRoutes && k !in keys :: Offers(c, b, k, h)
      decreases keys
    {
      var key := Any(keys);
      if Contributes(key, c.httpRoutes[key], b) {
        hostnames := hostnames + c.httpRoutes[key].hostnames;
      }
      keys := keys - {key};
    }
    assert forall h :: h in RouteHostnames(c, b) <==> exists k | k in c.httpRoutes :: Offers(c, b, k, h);
  }

  predicate Offers(c: Cluster, b: Binding, k: Key, h: string)
    requires k in c.httpRoutes
  {
    Contributes(k, c.httpRoutes[k], b) && h in c.httpRoutes[k].hostnames
  }

  /** Whether some binding owns the Gateway that `b` refers to. */
  method GatewayWinner(bindings: map<UID, Binding>, b: Binding, controllerClass: string) returns (taken: bool)
    ensures taken <==> GatewayTaken(bindings, b, controllerClass)
  {
    var keys := bindings.Keys;
    while keys != {}
      invariant keys <= bindings.Keys
      invariant forall u | u in bindings && u !in keys :: !GatewayRival(bindings[u], b, controllerClass)
      decreases keys
    {
      var u := Any(keys);
      if GatewayRival(bindings[u], b, controllerClass) {
        return true;
      }
      keys := keys - {u};
    }
    return false;
  }

  method Overlap(hostnames: seq<string>, other: seq<string>) returns (found: bool)
    ensures found <==> !(Elements(hostnames) !! Elements(other))
  {
    for i := 0 to |hostnames|
      invariant forall j | 0 <= j < i :: hostnames[j] !in other
    {
      if hostnames[i] in other {
        assert hostnames[i] in Elements(hostnames) && hostnames[i] in Elements(other);
        return true;
      }
    }
    return false;
  }

  lemma CanonicalElements(names: seq<string>)
    ensures CanonicalSet(names) == CanonicalOf(Elements(names))
  {}

  /** What `b` wants to publish under the normalised `zones`, in order. */
  method PlanHostnames(c: Cluster, b: Binding, p: Provider) returns (hostnames: Option<seq<string>>)
    ensures hostnames == if ZonesOk(p) then Some(Sorted(HostsOf(c, b, p))) else None
  {
    var candidates := CollectHostnames(c, b);
    var zones := NormalizeZones(p.zones);
    if zones.None? {
      return None;
    }
    var accepted, refused := NormalizeHostnames(candidates, zones.value);
    CanonicalElements(candidates);
    hostnames := Some(accepted);
  }

  /** The claims of `other`, from a provider and a list of routes that may have been read at different times. */
  method EvaluateClaims(c: Cluster, routes: Cluster, other: Binding) returns (hostnames: seq<string>)
    requires Evaluable(c, other)
    ensures var p := c.providers[other.spec.provider];
            Elements(hostnames) == if ZonesOk(p) then HostsOf(routes, other, p) else Elements(other.status.published)
    ensures c == routes ==> Elements(hostnames) == ClaimedHosts(c, other)
  {
    var p := c.providers[other.spec.provider];
    var recomputed := PlanHostnames(routes, other, p);
    hostnames := if recomputed.Some? then recomputed.value else other.status.published;
    Claims(c, other, p);
  }

  lemma Claims(c: Cluster, other: Binding, p: Provider)
    requires Evaluable(c, other) && p == c.providers[other.spec.provider]
    ensures ClaimedHosts(c, other)
         == if ZonesOk(p) then Elements(Sorted(HostsOf(c, other, p))) else Elements(other.status.published)
  {
    assert Elements(Sorted(HostsOf(c, other, p))) == HostsOf(c, other, p);
  }

  ghost predicate WithinZones(hosts: set<string>, p: Provider) {
    forall h | h in hosts :: Eligible(h, Zones(p))
  }

  // ----- Laws of plans -----

  /** The names a plan publishes. */
  ghost function PublishedBy(plan: Plan): set<string> {
    if plan.Planned? then plan.hosts else {}
  }

  ghost predicate Live(bindings: map<UID, Binding>, u: UID) {
    u in bindings && bindings[u].uid == u && Wellformed(bindings[u]) && !bindings[u].deleting
  }

  /** The hosts of a plan are those the binding wants, and any other binding counts them as its own. */
  lemma PlannedHosts(c: Cluster, bindings: map<UID, Binding>, b: Binding, controllerClass: string)
    requires PlanFor(c, bindings, b, controllerClass).Planned?
    ensures b.spec.provider in c.providers
    ensures var hosts := PlanFor(c, bindings, b, controllerClass).hosts;
            hosts == ClaimedHosts(c, b) == HostsOf(c, b, c.providers[b.spec.provider])
  {}

  /** Two bindings that get plans from the same state publish disjoint sets of names. */
  lemma SnapshotExclusive(c: Cluster, bindings: map<UID, Binding>, x: UID, y: UID, controllerClass: string)
    requires Live(bindings, x) && Live(bindings, y) && x != y
    ensures PublishedBy(PlanFor(c, bindings, bindings[x], controllerClass))
         !! PublishedBy(PlanFor(c, bindings, bindings[y], controllerClass))
  {
    PrecedesTotal(bindings[x], bindings[y]);
    if Precedes(bindings[x], bindings[y]) {
      NoSenior(c, bindings, x, y, controllerClass);
    } else {
      NoSenior(c, bindings, y, x, controllerClass);
    }
  }

  lemma Unrivalled(c: Cluster, bindings: map<UID, Binding>, b: Binding, controllerClass: string)
    ensures var hosts := PublishedBy(PlanFor(c, bindings, b, controllerClass));
            hosts == {} || !HostsTaken(c, bindings, b, hosts)
  {}

  lemma NoSenior(c: Cluster, bindings: map<UID, Binding>, x: UID, y: UID, controllerClass: string)
    requires Live(bindings, x) && Live(bindings, y) && x != y && Precedes(bindings[x], bindings[y])
    ensures PublishedBy(PlanFor(c, bindings, bindings[x], controllerClass))
         !! PublishedBy(PlanFor(c, bindings, bindings[y], controllerClass))
  {
    var p, q := PlanFor(c, bindings, bindings[x], controllerClass), PlanFor(c, bindings, bindings[y], controllerClass);
    if p.Planned? && q.Planned? {
      PlannedHosts(c, bindings, bindings[x], controllerClass);
      Unrivalled(c, bindings, bindings[y], controllerClass);
      assert HostRival(c, bindings[x], bindings[y], q.hosts) || p.hosts !! q.hosts;
    }
  }

  /** The live bindings of one class on one Gateway. */
  ghost predicate Claimants(bindings: map<UID, Binding>, group: set<UID>, controllerClass: string, namespace: string,
      gateway: string) {
    && (forall u | u in group :: Live(bindings, u))
    && (forall u | u in bindings ::
          u in group <==>
            && !bindings[u].deleting && bindings[u].spec.controller == controllerClass
            && bindings[u].namespace == namespace && bindings[u].spec.gateway == gateway)
  }

  /** Exactly one of them, the earliest, owns the Gateway. */
  lemma OneGatewayOwner(bindings: map<UID, Binding>, group: set<UID>, controllerClass: string, namespace: string,
      gateway: string)
    returns (owner: UID)
    requires group != {} && Claimants(bindings, group, controllerClass, namespace, gateway)
    ensures owner in group
    ensures forall u | u in group :: u in bindings && (GatewayTaken(bindings, bindings[u], controllerClass) <==>
              u != owner)
  {
    var before := (x: UID, y: UID) => x in bindings && y in bindings && Precedes(bindings[x], bindings[y]);
    forall x, y | x in group && y in group && x != y ensures before(x, y) <==> !before(y, x) {
      PrecedesTotal(bindings[x], bindings[y]);
    }
    forall x, y, z | x in group && y in group && z in group && before(x, y) && before(y, z) ensures before(x, z) {
      PrecedesTransitive(bindings[x], bindings[y], bindings[z]);
    }
    owner := HasFirst(before, group);
    forall u | u in group ensures GatewayTaken(bindings, bindings[u], controllerClass) <==> u != owner {
      if u != owner {
        assert before(owner, u);
        assert GatewayRival(bindings[owner], bindings[u], controllerClass);
      } else {
        forall v | v in group && v != u ensures !Precedes(bindings[v], bindings[u]) {
          assert before(u, v);
        }
      }
    }
  }
}
