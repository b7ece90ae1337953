/** Provider protection (internal/controller/clustercloudflareprovider_controller.go): a provider stays as
    long as a binding or private route may still need it. */
module Providers {
  import opened BindingPlans
  import opened Cloudflare
  import opened Kube

  /** A provider object. `version` stands for the resource version. */
  datatype ProviderObject = ProviderObject(provider: Provider, version: int, finalizer: bool, deleting: bool)

  datatype DependentKind = IsBinding | IsPrivateRoute

  /** A binding or private route. `trusting` says that its reconciler has found the provider current and of
      its class; only then may it have a tunnel on record. */
  datatype Dependent = Dependent(kind: DependentKind, controller: string, provider: string, trusting: bool)

  datatype Token = Empty | Refusable | Usable

  /** `secrets` are the API tokens by the name of the Secret. */
  datatype Snapshot = Snapshot(
    providers: map<string, ProviderObject>,
    dependents: map<UID, Dependent>,
    secrets: map<string, Token>)

  // ----- Invariant -----

  /** The conditions are not ahead of the object; they are current only under the finalizer, and never while
      the object is being deleted. */
  predicate Guarded(p: ProviderObject) {
    && (p.provider.accepted.Reported? ==> p.provider.accepted.generation <= p.provider.generation)
    && (CurrentlyValid(p.provider) ==> p.finalizer && !p.deleting)
  }

  /** The provider that `d` refers to is there, under the finalizer, and of the same class. */
  predicate Served(providers: map<string, ProviderObject>, d: Dependent) {
    && d.provider in providers && providers[d.provider].finalizer
    && providers[d.provider].provider.controller == d.controller
  }

  ghost predicate Inv(w: Snapshot) {
    && (forall n | n in w.providers :: Guarded(w.providers[n]))
    && (forall u | u in w.dependents && w.dependents[u].trusting :: Served(w.providers, w.dependents[u]))
  }

  const NOTHING := Snapshot(map[], map[], map[])

  type World = s: Snapshot | Inv(s) witness NOTHING

  // ----- Everyone else, the other two controllers included -----

  datatype Event =
    | ProviderCreated(name: string, provider: Provider)
    | ProviderEdited(name: string, provider: Provider)
    | ProviderDeletionRequested(name: string)
    | SecretsChanged(secrets: map<string, Token>)
    | DependentCreated(uid: UID, kind: DependentKind, controller: string, ref: string)
    | DependentTrusts(uid: UID)
    | DependentGone(uid: UID)

  predicate Allowed(w: Snapshot, e: Event) {
    match e
    case ProviderCreated(n, p) => n !in w.providers && p.accepted.Absent? && p.credentials.Absent?
    case ProviderEdited(n, p) =>
      && n in w.providers
      && var was := w.providers[n].provider;
         && p.controller == was.controller && p.generation > was.generation
         && p.accepted == was.accepted && p.credentials == was.credentials
    case ProviderDeletionRequested(n) => n in w.providers
    case SecretsChanged(_) => true
    case DependentCreated(u, _, _, _) => u !in w.dependents
    case DependentTrusts(u) =>
      && u in w.dependents
      && var d := w.dependents[u];
         && d.provider in w.providers && CurrentlyValid(w.providers[d.provider].provider)
         && w.providers[d.provider].provider.controller == d.controller
    case DependentGone(u) => u in w.dependents
  }

  function Apply(w: Snapshot, e: Event): Snapshot {
    if !Allowed(w, e) then w else
    match e
    case ProviderCreated(n, p) => w.(providers := w.providers[n := ProviderObject(p, 0, false, false)])
    case ProviderEdited(n, p) =>
      w.(providers := w.providers[n := w.providers[n].(provider := p, version := w.providers[n].version + 1)])
    case ProviderDeletionRequested(n) =>
      var p := w.providers[n];
      if p.finalizer then
        w.(providers := w.providers[n := p.(deleting := true, version := p.version + 1,
                                            provider := p.provider.(generation := p.provider.generation + 1))])
      else w.(providers := w.providers - {n})
    case SecretsChanged(s) => w.(secrets := s)
    case DependentCreated(u, kind, controller, provider) =>
      w.(dependents := w.dependents[u := Dependent(kind, controller, provider, false)])
    case DependentTrusts(u) => w.(dependents := w.dependents[u := w.dependents[u].(trusting := true)])
    case DependentGone(u) => w.(dependents := w.dependents - {u})
  }

  /** How a provider may differ from an earlier copy when the controller has not written it. */
  predicate Untouched(o: ProviderObject, p: ProviderObject) {
    && p.finalizer == o.finalizer && p.provider.controller == o.provider.controller
    && o.provider.generation <= p.provider.generation
    && (p.provider.generation == o.provider.generation ==> p.deleting == o.deleting)
    && (o.deleting ==> p.deleting)
    && o.version <= p.version
    && (p.version == o.version ==> p == o)
  }

  /** Whoever relies on the provider `name` in `v` referred to it in `w` already. */
  ghost predicate NoNewReliance(w: Snapshot, v: Snapshot, name: string) {
    forall u | u in v.dependents && v.dependents[u].trusting && v.dependents[u].provider == name ::
      && u in w.dependents && w.dependents[u].provider == name && w.dependents[u].trusting
      && w.dependents[u].kind == v.dependents[u].kind && w.dependents[u].controller == v.dependents[u].controller
  }

  /** What survives any number of steps of the others. */
  ghost predicate Drifts(w: Snapshot, v: Snapshot, name: string) {
    name in w.providers && w.providers[name].finalizer ==>
      && name in v.providers && Untouched(w.providers[name], v.providers[name])
      && (w.providers[name].deleting ==> NoNewReliance(w, v, name))
  }

  lemma EventKeepsInv(w: World, e: Event)
    ensures Inv(Apply(w, e))
  {}

  lemma EventDrifts(w: World, e: Event, name: string)
    ensures Drifts(w, Apply(w, e), name)
  {}

  lemma DriftTransitive(w: World, v: World, x: World, name: string)
    requires Drifts(w, v, name) && Drifts(v, x, name)
    ensures Drifts(w, x, name)
  {}

  /** Nobody of `kind` and class relies on `name`. */
  ghost predicate Unneeded(w: Snapshot, name: string, kind: DependentKind, controllerClass: string) {
    forall u | u in w.dependents && w.dependents[u].kind == kind && w.dependents[u].provider == name
               && w.dependents[u].controller == controllerClass :: !w.dependents[u].trusting
  }

  predicate Refers(d: Dependent, name: string, kind: DependentKind, controllerClass: string) {
    d.kind == kind && d.controller == controllerClass && d.provider == name
  }

  /** Some object of `kind` and class refers to `name`. */
  ghost predicate Listed(w: Snapshot, name: string, kind: DependentKind, controllerClass: string) {
    exists u | u in w.dependents :: Refers(w.dependents[u], name, kind, controllerClass)
  }

  // ----- The controller's own steps -----

  function WithFinalizer(w: Snapshot, name: string): Snapshot
    requires name in w.providers
  {
    w.(providers := w.providers[name := w.providers[name].(finalizer := true,
      version := w.providers[name].version + 1)])
  }

  function WithConditions(w: Snapshot, name: string, accepted: Condition, credentials: Condition): Snapshot
    requires name in w.providers
  {
    var p := w.providers[name];
    w.(providers := w.providers[name := p.(version := p.version + 1,
                                           provider := p.provider.(accepted := accepted, credentials := credentials))])
  }

  function Released(w: Snapshot, name: string): Snapshot {
    w.(providers := w.providers - {name})
  }

  /** Conditions taken at the generation of a copy made before deletion was requested. */
  lemma ConditionsKeepInv(w: World, name: string, copy: ProviderObject, accepted: Condition, credentials: Condition)
    requires name in w.providers && copy.finalizer && !copy.deleting && Untouched(copy, w.providers[name])
    requires accepted.Reported? && accepted.generation == copy.provider.generation
    ensures Inv(WithConditions(w, name, accepted, credentials))
  {}

  lemma ReleaseKeepsInv(w: World, name: string, controllerClass: string)
    requires name in w.providers && w.providers[name].provider.controller == controllerClass
    requires forall kind :: Unneeded(w, name, kind, controllerClass)
    ensures Inv(Released(w, name))
  {
    forall u | u in w.dependents && w.dependents[u].trusting ensures w.dependents[u].provider != name {
      assert Unneeded(w, name, w.dependents[u].kind, controllerClass);
    }
  }

  // ----- Conditions -----

  /** A Secret that is missing counts as one without a token. */
  function TokenOf(secrets: map<string, Token>, secret: string): Token {
    if secret in secrets then secrets[secret] else Empty
  }

  function Verdicts(p: Provider, secrets: map<string, Token>): (Condition, Condition) {
    if !ZonesOk(p) || p.selector.None? then
      (Reported(IsFalse, p.generation, OtherReason), Reported(IsUnknown, p.generation, OtherReason))
    else
      (Reported(IsTrue, p.generation, Reason.Accepted),
       Reported(Truth(p.tokenSecret in secrets && secrets[p.tokenSecret].Usable?), p.generation, OtherReason))
  }

  /** Some binding or private route of the class refers to the provider. */
  ghost predicate Needed(w: Snapshot, name: string, controllerClass: string) {
    exists u | u in w.dependents :: w.dependents[u].provider == name && w.dependents[u].controller == controllerClass
  }

  /** What one undisturbed pass over the provider does: the finalizer before any condition, and no release
      while something refers to it. */
  ghost function Next(w: Snapshot, name: string, controllerClass: string): Snapshot
    requires name in w.providers
  {
    var p := w.providers[name];
    if p.deleting then
      if p.finalizer && !Needed(w, name, controllerClass) then Released(w, name) else w
    else if !p.finalizer then WithFinalizer(w, name)
    else WithConditions(w, name, Verdicts(p.provider, w.secrets).0, Verdicts(p.provider, w.secrets).1)
  }

  /** A provider stays for as long as somebody trusts it. */
  lemma ProviderOutlivesUsers(w: World, u: UID)
    requires u in w.dependents && w.dependents[u].trusting
    ensures Served(w.providers, w.dependents[u])
  {}
}
