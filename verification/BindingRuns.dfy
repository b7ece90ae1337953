/** Runs of the binding reconciler: any number of requests, in any order. */
module BindingRuns {
  import opened BindingLaws
  import opened BindingPlans
  import opened BindingReconciliation
  import opened Bindings
  import opened Cloudflare
  import opened Kube
  import opened Planner

  /** The plan for `u` in a state of the inputs. */
  ghost function PlanOf(c: Cluster, bs: map<UID, Binding>, u: UID, controllerClass: string): Plan
    requires u in bs
  {
    PlanFor(c, bs, bs[u], controllerClass)
  }

  /** What a pass over `u` did towards `target`: no pass undoes the first step, and one that `won`, where no
      call failed and which reported success, makes progress. */
  ghost predicate Forward(w: Snapshot, v: Snapshot, u: UID, target: Plan, won: bool) {
    var all := (
      && Alone(w, v, u) && u in w.bindings && !w.bindings[u].deleting
      && (Prepared(w, u, target) ==> Prepared(v, u, target))
      && (won ==> Prepared(v, u, target) && (Prepared(w, u, target) ==> Realizes(v, u, target)))
    );
    all
  }

  /** One pass over `u` while the inputs stay those of `bs`; `target` is the plan they give. */
  method Pass(r: BindingReconciler, u: UID, ghost target: Plan, ghost c: Cluster, ghost bs: map<UID, Binding>)
    returns (ok: bool)
    requires !r.mode.Busy? && r.controllerClass != "" && Healthy(c, bs, r.controllerClass)
    requires u in bs && r.world.cluster == c && SameInputsOf(bs, r.world.bindings)
    requires target == PlanOf(c, bs, u, r.controllerClass)
    modifies r`world, r`binding, r`writes, r`sources, r`start, r`basis
    ensures r.world.cluster == c && SameInputsOf(bs, r.world.bindings)
    ensures Forward(old(r.world), r.world, u, target, ok && r.mode.Calm?)
  {
    ghost var w := r.world;
    var plan, provider;
    ghost var ready;
    ok, plan, provider, ready := r.Reconcile(u);
    AloneKeepsInputs(bs, w, r.world, u);
    if ok && r.mode.Calm? {
      PassedBy(r.controllerClass, w, r.world, u, c, bs, plan, r.basis.cluster, r.sources, provider, ready);
    }
  }

  lemma AloneKeepsInputs(bs: map<UID, Binding>, w: World, v: World, u: UID)
    requires SameInputsOf(bs, w.bindings) && Alone(w, v, u) && u in bs && !bs[u].deleting
    ensures SameInputsOf(bs, v.bindings) && v.cluster == w.cluster
    ensures Steady(w, v, u)
  {
    AloneSteady(w, v, u);
  }

  lemma PassedBy(controllerClass: string, w: World, v: World, u: UID, c: Cluster, bs: map<UID, Binding>,
      plan: Plan, read: Cluster, sources: Sources, provider: Option<Provider>, ready: bool)
    requires Healthy(c, bs, controllerClass) && u in bs && w.cluster == c && SameInputsOf(bs, w.bindings)
    requires plan == PlanOf(c, w.bindings, u, controllerClass) && Grounded(plan, read, sources, w.bindings[u], provider)
    requires Steady(w, v, u) && OneOfThree(w, v, u, plan) && Converges(w, v, u, plan, true, ready)
    requires Refusal(true, plan) && w.bindings[u].status.tunnelID != NO_ID ==>
               Silenced(v, u, w.bindings[u].status.tunnelID)
    ensures var target := PlanOf(c, bs, u, controllerClass);
            Prepared(v, u, target) && (Prepared(w, u, target) ==> Realizes(v, u, target))
  {
    var target := PlanOf(c, bs, u, controllerClass);
    HealthyClaims(c, bs, w.bindings, u, controllerClass);
    PlanStable(c, bs, w.bindings, bs[u], w.bindings[u], controllerClass);
    NoMismatch(c, w.bindings, w.bindings[u], controllerClass);
    if plan.Planned? {
      PlannedRules(plan.hosts, plan.origin, provider.value);
      if plan.hosts == {} {
        PlannedNothing(c, w.bindings, w.bindings[u], controllerClass);
      }
    }
    PassRealizes(w, v, u, plan, target, ready);
  }

  /** On one state of the cluster no refusal comes from a failing read, and with the provider in place none is
      for its class. */
  lemma NoMismatch(c: Cluster, bs: map<UID, Binding>, b: Binding, controllerClass: string)
    requires b.spec.provider in c.providers && c.providers[b.spec.provider].controller == b.spec.controller
    ensures PlanFor(c, bs, b, controllerClass).Refused? ==> Ordinary(PlanFor(c, bs, b, controllerClass))
  {
    var check := ValidateClusterProvider(c, bs, b, controllerClass);
    ProviderRefusals(c, bs, b, controllerClass);
    if check.Yes? {
      OriginRefusals(c, b);
      HostRefusals(c, bs, b, check.value);
    }
  }

  predicate Ordinary(plan: Plan) {
    plan.Refused? && !plan.error && plan.reason != ProviderControllerClassMismatch
  }

  lemma ProviderRefusals(c: Cluster, bs: map<UID, Binding>, b: Binding, controllerClass: string)
    requires b.spec.provider in c.providers && c.providers[b.spec.provider].controller == b.spec.controller
    ensures var check := ValidateClusterProvider(c, bs, b, controllerClass);
            check.No? ==> !check.error && check.reason != ProviderControllerClassMismatch
  {}

  lemma OriginRefusals(c: Cluster, b: Binding)
    ensures var check := ValidateOriginService(c, b);
            check.No? ==> !check.error && check.reason != ProviderControllerClassMismatch
  {}

  lemma HostRefusals(c: Cluster, bs: map<UID, Binding>, b: Binding, p: Provider)
    requires var check := ValidateOriginService(c, b);
             check.No? ==> !check.error && check.reason != ProviderControllerClassMismatch
    ensures PlanForOrigin(c, bs, b, p).Refused? ==> Ordinary(PlanForOrigin(c, bs, b, p))
  {}

  /** Among the first `n` passes one over `u` succeeded without a fault. */
  predicate Once(order: seq<UID>, won: seq<bool>, n: nat, u: UID)
    requires n <= |order| && n <= |won|
  {
    exists i | 0 <= i < n :: order[i] == u && won[i]
  }

  /** Among the first `n` passes the last one over `u` succeeded without a fault, and so did an earlier one. */
  predicate Twice(order: seq<UID>, won: seq<bool>, n: nat, u: UID)
    requires n <= |order| && n <= |won|
  {
    exists j | 0 <= j < n ::
      order[j] == u && won[j] && Once(order, won, j, u) && forall k | j < k < n :: order[k] != u
  }

  /** How far the passes have come: after one success a binding is prepared, after two its plan is realised. */
  ghost predicate Progress(w: Snapshot, targets: map<UID, Plan>, order: seq<UID>, won: seq<bool>, n: nat)
    requires n <= |order| && n <= |won|
  {
    forall u | u in targets ::
      && (Once(order, won, n, u) ==> Prepared(w, u, targets[u]))
      && (Twice(order, won, n, u) ==> Realizes(w, u, targets[u]))
  }

  lemma ProgressStep(w: World, v: World, targets: map<UID, Plan>, order: seq<UID>, won: seq<bool>, n: nat)
    requires n < |order| && n < |won| && Progress(w, targets, order, won, n)
    requires order[n] in targets && Forward(w, v, order[n], targets[order[n]], won[n])
    ensures Progress(v, targets, order, won, n + 1)
  {
    forall u | u in targets
      ensures Once(order, won, n + 1, u) ==> Prepared(v, u, targets[u])
      ensures Twice(order, won, n + 1, u) ==> Realizes(v, u, targets[u])
    {
      if u != order[n] {
        OtherProgress(w, v, u, order[n], targets[u]);
        OtherPasses(order, won, n, u);
      } else {
        OwnPasses(order, won, n);
      }
    }
  }

  /** A pass over another binding changes nothing of this. */
  lemma OtherProgress(w: World, v: World, u: UID, x: UID, target: Plan)
    requires Alone(w, v, x) && u != x && x in w.bindings && !w.bindings[x].deleting
    ensures Prepared(w, u, target) ==> Prepared(v, u, target)
    ensures Realizes(w, u, target) ==> Realizes(v, u, target)
  {
    AloneSteady(w, v, x);
    forall i ensures Named(v.account, u, i) <==> Named(w.account, u, i)
      ensures Named(v.account, u, i) ==> v.account.tunnels[i] == w.account.tunnels[i]
    {
      AloneTunnels(w, v, x, i);
    }
  }

  lemma OtherPasses(order: seq<UID>, won: seq<bool>, n: nat, u: UID)
    requires n < |order| && n < |won| && order[n] != u
    ensures Once(order, won, n + 1, u) ==> Once(order, won, n, u)
    ensures Twice(order, won, n + 1, u) ==> Twice(order, won, n, u)
  {}

  lemma OwnPasses(order: seq<UID>, won: seq<bool>, n: nat)
    requires n < |order| && n < |won|
    ensures Once(order, won, n + 1, order[n]) <==> won[n] || Once(order, won, n, order[n])
    ensures Twice(order, won, n + 1, order[n]) <==> won[n] && Once(order, won, n, order[n])
  {}

  /** A pass in which calls may fail or not. */
  method Turn(r: BindingReconciler, u: UID, ghost target: Plan, ghost c: Cluster, ghost bs: map<UID, Binding>)
    returns (won: bool)
    requires r.controllerClass != "" && Healthy(c, bs, r.controllerClass)
    requires u in bs && r.world.cluster == c && SameInputsOf(bs, r.world.bindings)
    requires target == PlanOf(c, bs, u, r.controllerClass)
    modifies r`mode, r`world, r`binding, r`writes, r`sources, r`start, r`basis
    ensures r.world.cluster == c && SameInputsOf(bs, r.world.bindings)
    ensures Forward(old(r.world), r.world, u, target, won)
  {
    var faults: bool := *;
    r.mode := if faults then Quiet else Calm;
    var ok := Pass(r, u, target, c, bs);
    won := ok && !faults;
  }

  /** With the inputs frozen and all providers healthy, any passes over any bindings in any order, some of them
      with failing calls: a binding whose last pass succeeded without a fault, as did an earlier one, publishes
      exactly what its plan says, and no two such bindings publish the same name. */
  method SettleAll(r: BindingReconciler, order: seq<UID>, ghost targets: map<UID, Plan>) returns (won: seq<bool>)
    requires r.controllerClass != "" && Healthy(r.world.cluster, r.world.bindings, r.controllerClass)
    requires targets.Keys == r.world.bindings.Keys
    requires forall u | u in targets :: targets[u] == PlanOf(r.world.cluster, r.world.bindings, u, r.controllerClass)
    requires forall n | 0 <= n < |order| :: order[n] in targets
    modifies r`mode, r`world, r`binding, r`writes, r`sources, r`start, r`basis
    ensures |won| == |order|
    ensures forall u | u in targets && Twice(order, won, |order|, u) :: Realizes(r.world, u, targets[u])
    ensures Exclusive(r.world, set u | u in targets && Twice(order, won, |order|, u))
  {
    ghost var c, bs := r.world.cluster, r.world.bindings;
    won := [];
    for n := 0 to |order|
      invariant |won| == n
      invariant r.world.cluster == c && SameInputsOf(bs, r.world.bindings)
      invariant Progress(r.world, targets, order, won, n)
    {
      ghost var w, before := r.world, won;
      var success := Turn(r, order[n], targets[order[n]], c, bs);
      won := won + [success];
      SameProgress(w, targets, order, before, won, n);
      ProgressStep(w, r.world, targets, order, won, n);
    }
    AllExclusive(c, bs, r.controllerClass, r.world, targets, set u | u in targets && Twice(order, won, |order|, u));
  }

  lemma SameProgress(w: World, targets: map<UID, Plan>, order: seq<UID>, before: seq<bool>, won: seq<bool>, n: nat)
    requires n <= |order| && n == |before| && before <= won && Progress(w, targets, order, before, n)
    ensures Progress(w, targets, order, won, n)
  {
    forall u, m: nat | m <= n ensures Once(order, won, m, u) <==> Once(order, before, m, u) {
      assert forall i | 0 <= i < m :: won[i] == before[i];
    }
    forall u ensures Twice(order, won, n, u) ==> Twice(order, before, n, u) {
      assert forall i | 0 <= i < n :: won[i] == before[i];
    }
  }

  /** The tunnels of different bindings publish disjoint sets of names. */
  ghost predicate Exclusive(w: Snapshot, us: set<UID>) {
    forall x, y, i, j | x in us && y in us && x != y && Named(w.account, x, i) && Named(w.account, y, j) ::
      HostsIn(w.account.tunnels[i].ingress) !! HostsIn(w.account.tunnels[j].ingress)
  }

  lemma AllExclusive(c: Cluster, bs: map<UID, Binding>, controllerClass: string, w: World, targets: map<UID, Plan>,
      settled: set<UID>)
    requires Healthy(c, bs, controllerClass) && settled <= targets.Keys == bs.Keys
    requires forall u | u in targets :: targets[u] == PlanOf(c, bs, u, controllerClass)
    requires forall u | u in settled :: Realizes(w, u, targets[u])
    ensures Exclusive(w, settled)
  {
    forall x, y, i, j | x in settled && y in settled && x != y && Named(w.account, x, i) && Named(w.account, y, j)
      ensures HostsIn(w.account.tunnels[i].ingress) !! HostsIn(w.account.tunnels[j].ingress)
    {
      RealizedExclusive(c, bs, controllerClass, w, x, y, i, j);
    }
  }

  /** After a successful pass nothing is left to configure. */
  method First(r: BindingReconciler, u: UID) returns (ok: bool)
    requires r.Undisturbed(u) && !r.world.bindings[u].deleting && r.world.bindings[u].finalizer
    modifies r`world, r`binding, r`writes, r`sources, r`start, r`basis
    ensures r.Undisturbed(u) && !r.world.bindings[u].deleting
    ensures ok ==> AsPlanned(r.world, u, PlanOf(r.world.cluster, r.world.bindings, u, r.controllerClass))
  {
    ghost var w := r.world;
    var plan, provider;
    ghost var ready;
    ok, plan, provider, ready := r.Reconcile(u);
    Present(w, u);
    AloneSteady(w, r.world, u);
    if ok {
      NothingLeft(r.controllerClass, w, r.world, u, ready);
    }
  }

  /** And any number of further passes on unchanged inputs, until one fails, create and configure nothing. */
  method Again(r: BindingReconciler, u: UID, times: nat)
    requires r.Undisturbed(u) && !r.world.bindings[u].deleting && r.world.bindings[u].finalizer
    requires AsPlanned(r.world, u, PlanOf(r.world.cluster, r.world.bindings, u, r.controllerClass))
    modifies r`world, r`binding, r`writes, r`sources, r`start, r`basis
    ensures r.writes == old(r.writes)
  {
    for i := 0 to times
      invariant r.Undisturbed(u) && !r.world.bindings[u].deleting && r.world.bindings[u].finalizer
      invariant AsPlanned(r.world, u, PlanOf(r.world.cluster, r.world.bindings, u, r.controllerClass))
      invariant r.writes == old(r.writes)
    {
      var ok := Repeat(r, u);
      if !ok {
        return;
      }
    }
  }

  method Repeat(r: BindingReconciler, u: UID) returns (ok: bool)
    requires r.Undisturbed(u) && !r.world.bindings[u].deleting && r.world.bindings[u].finalizer
    requires AsPlanned(r.world, u, PlanOf(r.world.cluster, r.world.bindings, u, r.controllerClass))
    modifies r`world, r`binding, r`writes, r`sources, r`start, r`basis
    ensures r.writes == old(r.writes)
    ensures r.Undisturbed(u) && !r.world.bindings[u].deleting && r.world.bindings[u].finalizer
    ensures ok ==> AsPlanned(r.world, u, PlanOf(r.world.cluster, r.world.bindings, u, r.controllerClass))
  {
    ghost var w := r.world;
    var plan, provider;
    ghost var ready;
    ok, plan, provider, ready := r.Reconcile(u);
    Present(w, u);
    AloneSteady(w, r.world, u);
    if ok {
      NothingLeft(r.controllerClass, w, r.world, u, ready);
    }
  }

  /** After a successful pass the tunnel is what the next plan wants. */
  lemma NothingLeft(controllerClass: string, w: World, v: World, u: UID, ready: bool)
    requires u in w.bindings && !w.bindings[u].deleting && w.bindings[u].finalizer && Alone(w, v, u)
    requires var plan := PlanOf(w.cluster, w.bindings, u, controllerClass);
             && Converges(w, v, u, plan, true, ready)
             && (Refusal(true, plan) && w.bindings[u].status.tunnelID != NO_ID ==>
                   Silenced(v, u, w.bindings[u].status.tunnelID))
    ensures u in v.bindings && v.cluster == w.cluster
    ensures AsPlanned(v, u, PlanOf(v.cluster, v.bindings, u, controllerClass))
  {
    var plan := PlanOf(w.cluster, w.bindings, u, controllerClass);
    Present(w, u);
    AloneSteady(w, v, u);
    AloneKeepsClaims(w, v, u);
    BindingParts(v, u);
    var next := PlanOf(v.cluster, v.bindings, u, controllerClass);
    PlanStable(w.cluster, w.bindings, v.bindings, w.bindings[u], v.bindings[u], controllerClass);
    if plan != next {
      PlannedNothing(v.cluster, v.bindings, v.bindings[u], controllerClass);
      NotEligible(w.cluster, w.bindings, w.bindings[u], controllerClass);
    }
  }

  lemma AloneKeepsClaims(w: World, v: World, u: UID)
    requires u in w.bindings && !w.bindings[u].deleting && Alone(w, v, u)
    ensures SameClaims(w.cluster, w.bindings, v.bindings, u)
  {
    AloneSteady(w, v, u);
    forall x | x in w.bindings ensures w.bindings[x].uid == x {
      Present(w, x);
    }
  }

  lemma NotEligible(c: Cluster, bs: map<UID, Binding>, b: Binding, controllerClass: string)
    requires PlanFor(c, bs, b, controllerClass) == Refused(NoEligibleHostnames, false)
    ensures b.status.tunnelID == NO_ID
  {}

  /** Any number of requests for a binding marked for deletion, with anything happening in between: what is
      left never grows, and the binding goes only when it is discharged. */
  method Retry(r: BindingReconciler, u: UID, attempts: nat)
    requires Dying(r.world, u)
    modifies r`world, r`binding, r`writes, r`sources, r`start, r`basis
    ensures Lessened(old(r.world), r.world, u) && Finishing(old(r.world), r.world, u)
    ensures u !in r.world.bindings ==> u in r.world.released && Discharged(r.world, r.world.released[u])
  {
    for i := 0 to attempts
      invariant Lessened(old(r.world), r.world, u)
      invariant u in r.world.bindings && Finishing(old(r.world), r.world, u)
    {
      ghost var mid := r.world;
      var ok, plan, provider;
      ghost var ready;
      ok, plan, provider, ready := r.Reconcile(u);
      LessenedOn(old(r.world), mid, r.world, u);
      if u !in r.world.bindings {
        StaysDischarged(r.world, u);
        return;
      }
    }
  }

  /** Any run: requests for any bindings in any order, and anything in between. Every state on the way is a
      `World`; this names the last one. */
  method Run(r: BindingReconciler, requests: seq<UID>)
    modifies r`world, r`binding, r`writes, r`sources, r`start, r`basis
    ensures Inv(r.world)
    ensures forall u | u in r.world.bindings ::
              AtMostOneTunnel(r.world, u) && Honest(r.world.bindings[u].status.conditions)
    ensures forall u | u in r.world.released :: u !in r.world.bindings && Discharged(r.world, r.world.released[u])
  {
    for i := 0 to |requests| {
      r.Drift();
      var ok, plan, provider;
      ghost var ready;
      ok, plan, provider, ready := r.Reconcile(requests[i]);
    }
    forall u | u in r.world.bindings
      ensures AtMostOneTunnel(r.world, u) && Honest(r.world.bindings[u].status.conditions)
    {
      OneLiveTunnel(r.world, u);
    }
    forall u | u in r.world.released ensures u !in r.world.bindings && Discharged(r.world, r.world.released[u]) {
      StaysDischarged(r.world, u);
    }
  }
}
