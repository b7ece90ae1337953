/** The Kubernetes objects the controllers read. Label selectors are sets of required labels,
    and Service addresses come parsed. */
module Kube {
  import opened Cloudflare

  datatype Verdict = IsTrue | IsFalse | IsUnknown

  /** The reasons the controllers report, by the text of the condition's reason. */
  datatype Reason =
    | Accepted | ProviderNotFound | ProviderControllerClassMismatch | ProviderNotReady | ProviderInvalid
    | NamespaceNotAllowed | RefNotPermitted | ServiceNotFound | InvalidService | ServicePortNotFound
    | RouteConflict | GatewayConflict | HostnameConflict | NoEligibleHostnames
    | GatewayNotFound | GatewayClassNotFound | UnsupportedGatewayClass | GatewayNotReady | ListenerInvalid
    | NotAccepted | ReconciliationFailed | OtherReason

  datatype Condition = Absent | Reported(verdict: Verdict, generation: int, reason: Reason)

  function Truth(b: bool): Verdict {
    if b then IsTrue else IsFalse
  }

  predicate ConditionTrue(c: Condition, generation: int) {
    c.Reported? && c.verdict.IsTrue? && c.generation == generation
  }

  datatype ServiceType = Unset | ClusterIPType | OtherType

  datatype Address = NoAddress | Headless | Unparsed | V6 | V4(bits: int)

  datatype Port = Port(name: string, number: int)

  datatype PortRef = ByName(name: string) | ByNumber(number: int)

  datatype Service = Service(kind: ServiceType, address: Address, ports: seq<Port>)

  datatype GrantFrom = GrantFrom(group: string, kind: string, namespace: string)

  datatype GrantTo = GrantTo(group: string, kind: string, name: Option<string>)

  datatype Grant = Grant(from: seq<GrantFrom>, to: seq<GrantTo>)

  datatype Key = Key(namespace: string, name: string)

  /** `selector` is `None` when the label selector of the provider does not parse. */
  datatype Provider = Provider(
    controller: string,
    generation: int,
    zones: seq<string>,
    selector: Option<map<string, string>>,
    tokenSecret: string,
    accepted: Condition,
    credentials: Condition)

  datatype Listener = Listener(name: string, http: bool)

  datatype Gateway = Gateway(
    className: string,
    generation: int,
    accepted: Condition,
    programmed: Condition,
    listeners: seq<Listener>)

  datatype ParentRef = ParentRef(
    group: Option<string>,
    kind: Option<string>,
    namespace: Option<string>,
    name: string,
    sectionName: Option<string>)

  datatype RouteParent = RouteParent(
    ref: ParentRef,
    controllerName: string,
    accepted: Condition,
    resolvedRefs: Condition)

  datatype HTTPRoute = HTTPRoute(
    generation: int,
    parents: seq<ParentRef>,
    status: seq<RouteParent>,
    hostnames: seq<string>)

  /** `tokens` names the Secrets of the system namespace that hold a usable API token. */
  datatype Cluster = Cluster(
    providers: map<string, Provider>,
    namespaces: map<string, map<string, string>>,
    services: map<Key, Service>,
    grants: map<Key, Grant>,
    gateways: map<Key, Gateway>,
    gatewayClasses: map<string, string>,
    httpRoutes: map<Key, HTTPRoute>,
    tokens: set<string>)

  /** The first 12 hexadecimal digits of a UID, which is all a child's name keeps of it. */
  function Prefix(u: UID): int {
    u / 0x1_0000_0000_0000_0000_0000
  }

  datatype ChildKind = Deployment | Secret

  datatype ChildKey = ChildKey(kind: ChildKind, prefix: int)

  const GROUP := "kflared.kodeblox.com"

  /** A grant in the Service's namespace lets objects of `kind` in `namespace` refer to `service`. */
  predicate Permits(grant: Grant, kind: string, namespace: string, service: string) {
    && (exists i | 0 <= i < |grant.from| :: grant.from[i] == GrantFrom(GROUP, kind, namespace))
    && (exists i | 0 <= i < |grant.to| ::
          && grant.to[i].group == "" && grant.to[i].kind == "Service"
          && (grant.to[i].name.None? || grant.to[i].name.value == service))
  }

  predicate Granted(c: Cluster, target: string, kind: string, namespace: string, service: string) {
    exists k | k in c.grants :: k.namespace == target && Permits(c.grants[k], kind, namespace, service)
  }

  /** The provider is there and has a usable API token. */
  predicate HasToken(c: Cluster, provider: string) {
    provider in c.providers && c.providers[provider].tokenSecret in c.tokens
  }

  /** The provider an object refers to, and the class it expects. */
  datatype ProviderRef = ProviderRef(controller: string, name: string)

  /** The provider is there and of the class. */
  predicate Provided(c: Cluster, r: ProviderRef) {
    var all := (
      r.name in c.providers && c.providers[r.name].controller == r.controller
    );
    all
  }

  /** Both conditions are true at the provider's generation. */
  predicate CurrentlyValid(p: Provider) {
    var all := (
      ConditionTrue(p.accepted, p.generation) && ConditionTrue(p.credentials, p.generation)
    );
    all
  }

  predicate Reliable(c: Cluster, r: ProviderRef) {
    var all := (
      Provided(c, r) && CurrentlyValid(c.providers[r.name])
    );
    all
  }

  /** The provider is there, of the class, and has a usable API token. */
  predicate Reachable(c: Cluster, r: ProviderRef) {
    Provided(c, r) && c.providers[r.name].tokenSecret in c.tokens
  }

  function ResolvePort(ports: seq<Port>, ref: PortRef): Option<int> {
    if ports == [] then None
    else if (match ref case ByName(n) => ports[0].name == n case ByNumber(n) => ports[0].number == n)
    then Some(ports[0].number)
    else ResolvePort(ports[1..], ref)
  }

  predicate Fits(port: Port, ref: PortRef) {
    match ref case ByName(n) => port.name == n case ByNumber(n) => port.number == n
  }

  predicate FirstFit(ports: seq<Port>, ref: PortRef, i: int) {
    0 <= i < |ports| && Fits(ports[i], ref) && forall j | 0 <= j < i :: !Fits(ports[j], ref)
  }

  /** A reference resolves to the first port that fits, if there is one. */
  lemma {:induction false} PortResolved(ports: seq<Port>, ref: PortRef) returns (i: int)
    ensures ResolvePort(ports, ref).None? ==> forall j | 0 <= j < |ports| :: !Fits(ports[j], ref)
    ensures ResolvePort(ports, ref).Some? ==>
              FirstFit(ports, ref, i) && ResolvePort(ports, ref) == Some(ports[i].number)
  {
    i := 0;
    if ports != [] && !Fits(ports[0], ref) {
      var k := PortResolved(ports[1..], ref);
      i := k + 1;
      assert forall j | 0 < j < |ports| :: ports[j] == ports[1..][j - 1];
    }
  }

  predicate Selects(selector: Option<map<string, string>>, labels: map<string, string>) {
    selector.Some? && selector.value.Items <= labels.Items
  }
}
