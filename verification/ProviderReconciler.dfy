/** The provider reconciler. Every API call may succeed, fail, or take effect and still report an error,
    and after every call the others may move. */
module ProviderReconciliation {
  import opened BindingPlans
  import opened Cloudflare
  import opened Kube
  import opened Planner
  import opened Providers

  class ProviderReconciler {
    const controllerClass: string
    /** How much can go wrong during a pass. */
    var mode: Mode
    var world: World
    /** The name of the provider being reconciled, and the copy of it in memory. */
    var name: string
    var copy: ProviderObject

    /** Any number of steps of the others. */
    method Interfere()
      modifies `world
      ensures !mode.Busy? ==> world == old(world)
      ensures Drifts(old(world), world, name)
    {
      var steps: nat := *;
      while steps > 0 && mode.Busy?
        invariant !mode.Busy? ==> world == old(world)
        invariant Drifts(old(world), world, name)
      {
        var e: Event := *;
        EventKeepsInv(world, e);
        EventDrifts(world, e, name);
        DriftTransitive(old(world), world, Apply(world, e), name);
        world := Apply(world, e);
        steps := steps - 1;
      }
    }

    /** The copy is up to date but for edits of the spec and a deletion request. */
    ghost predicate Holds()
      reads `world, `name, `copy
    {
      copy.finalizer && name in world.providers && Untouched(copy, world.providers[name])
    }

    method Get() returns (ok: bool, found: bool)
      modifies `world, `copy
      ensures ok && found ==> name in old(world).providers && copy == old(world).providers[name]
      ensures ok && found && copy.finalizer ==> Holds()
      ensures mode.Calm? ==> ok && world == old(world) && (found <==> name in world.providers)
      ensures Drifts(old(world), world, name)
    {
      var o := Attempt(mode);
      ok, found := o.Done?, name in world.providers;
      if ok && found {
        copy := world.providers[name];
      }
      Interfere();
    }

    /** The update that adds the finalizer; it is refused unless the copy is current. */
    method AddFinalizer() returns (ok: bool)
      modifies `world
      ensures mode.Calm? && name in old(world).providers && old(world).providers[name] == copy ==>
                ok && world == WithFinalizer(old(world), name)
    {
      var o := Attempt(mode);
      var current := name in world.providers && world.providers[name].version == copy.version;
      ok := o.Done? && current;
      if !o.Failed? && current {
        world := WithFinalizer(world, name);
      }
      Interfere();
    }

    method PatchStatus(accepted: Condition, credentials: Condition) returns (ok: bool)
      requires Holds() && !copy.deleting && accepted.Reported? && accepted.generation == copy.provider.generation
      modifies `world
      ensures name in world.providers && world.providers[name].finalizer
      ensures mode.Calm? ==> ok && world == WithConditions(old(world), name, accepted, credentials)
    {
      var o := Attempt(mode);
      ok := o.Done?;
      if !o.Failed? {
        ConditionsKeepInv(world, name, copy, accepted, credentials);
        world := WithConditions(world, name, accepted, credentials);
      }
      Interfere();
    }

    /** What the account says about the token in the Secret. */
    method CheckCredentials() returns (ok: bool, verdict: Condition, ghost read: bool)
      requires Holds()
      modifies `world
      ensures Holds() && Drifts(old(world), world, name)
      ensures verdict.Reported? && verdict.generation == copy.provider.generation
      ensures !read ==> verdict.verdict.IsFalse?
      ensures var token := TokenOf(old(world).secrets, copy.provider.tokenSecret);
              && (read && token.Empty? ==> ok && verdict.verdict.IsFalse?)
              && (read && token.Refusable? ==> !ok && !verdict.verdict.IsTrue?)
              && (read && token.Usable? ==> !verdict.verdict.IsFalse? && (ok <==> verdict.verdict.IsTrue?))
      ensures mode.Calm? ==> read
      ensures mode.Calm? ==>
                && world == old(world)
                && (ZonesOk(copy.provider) && copy.provider.selector.Some? ==>
                   verdict == Verdicts(copy.provider, world.secrets).1)
    {
      var g := copy.provider.generation;
      var o := Attempt(mode);
      var secret := copy.provider.tokenSecret;
      var token := TokenOf(world.secrets, secret);
      read := o.Done?;
      Interfere();
      if !o.Done? {
        ok, verdict := false, Reported(IsFalse, g, OtherReason);
        return;
      }
      if token.Empty? {
        ok, verdict := true, Reported(IsFalse, g, OtherReason);
        return;
      }
      o := Attempt(mode);
      Interfere();
      ok := o.Done? && token.Usable?;
      // An account that cannot be asked leaves the verdict open.
      verdict := Reported(if !o.Done? then IsUnknown else Truth(token.Usable?), g, OtherReason);
    }

    /** Writes the conditions of a provider under the finalizer. */
    method Report() returns (ok: bool)
      requires Holds() && !copy.deleting
      modifies `world
      ensures name in world.providers && world.providers[name].finalizer
      ensures mode.Calm? ==>
                world == WithConditions(old(world), name, Verdicts(copy.provider, old(world).secrets).0,
                  Verdicts(copy.provider, old(world).secrets).1)
    {
      var g := copy.provider.generation;
      var zones := NormalizeZones(copy.provider.zones);
      if zones.None? || copy.provider.selector.None? {
        ok := PatchStatus(Reported(IsFalse, g, OtherReason), Reported(IsUnknown, g, OtherReason));
        return;
      }
      var checked, verdict;
      ghost var read;
      checked, verdict, read := CheckCredentials();
      ok := PatchStatus(Reported(IsTrue, g, Reason.Accepted), verdict);
      ok := ok && checked;
    }

    /** Whether an object of `kind` refers to the provider, by one list. */
    method Referenced(kind: DependentKind) returns (ok: bool, found: bool)
      requires Holds() && copy.deleting
      modifies `world
      ensures Holds() && Drifts(old(world), world, name)
      ensures ok && !found ==> Unneeded(world, name, kind, controllerClass)
      ensures mode.Calm? ==>
                && ok && world == old(world)
                && (found <==> Listed(world, name, kind, controllerClass))
    {
      var o := Attempt(mode);
      ok, found := o.Done?, false;
      var keys := world.dependents.Keys;
      while keys != {} && !found
        invariant world == old(world) && keys <= world.dependents.Keys
        invariant found ==> Listed(world, name, kind, controllerClass)
        invariant !found ==>
                    forall u | u in world.dependents && u !in keys ::
                      !Refers(world.dependents[u], name, kind, controllerClass)
        decreases keys
      {
        var u := Any(keys);
        found := Refers(world.dependents[u], name, kind, controllerClass);
        keys := keys - {u};
      }
      Interfere();
    }

    /** The update that removes the finalizer; it is refused unless the copy is current. */
    method Release() returns (ok: bool)
      requires Holds() && copy.provider.controller == controllerClass
      requires forall kind :: Unneeded(world, name, kind, controllerClass)
      modifies `world
      ensures mode.Calm? ==> (ok <==> old(world).providers[name].version == copy.version)
      ensures mode.Calm? ==> world == if ok then Released(old(world), name) else old(world)
    {
      var o := Attempt(mode);
      var current := world.providers[name].version == copy.version;
      ok := o.Done? && current;
      if !o.Failed? && current {
        ReleaseKeepsInv(world, name, controllerClass);
        world := Released(world, name);
      }
      Interfere();
    }

    /** The provider goes away only when nothing of its class refers to it. */
    method Finalize() returns (ok: bool)
      requires copy.deleting && copy.provider.controller == controllerClass && (copy.finalizer ==> Holds())
      modifies `world
      ensures mode.Calm? && !copy.finalizer ==> world == old(world)
      ensures mode.Calm? && copy.finalizer && old(world).providers[name] == copy ==>
                && (ok <==> !Needed(old(world), name, controllerClass))
                && world == if ok then Released(old(world), name) else old(world)
    {
      ok := true;
      if copy.finalizer {
        var found;
        ok, found := Referenced(IsBinding);
        if !ok || found {
          return false;
        }
        ok := FinalizeUnbound();
      }
    }

    method FinalizeUnbound() returns (ok: bool)
      requires Holds() && copy.deleting && copy.provider.controller == controllerClass
      requires Unneeded(world, name, IsBinding, controllerClass)
      modifies `world
      ensures mode.Calm? && old(world).providers[name] == copy ==>
                && (ok <==> !Listed(old(world), name, IsPrivateRoute, controllerClass))
                && world == if ok then Released(old(world), name) else old(world)
    {
      var found;
      ok, found := Referenced(IsPrivateRoute);
      if !ok || found {
        return false;
      }
      forall kind ensures Unneeded(world, name, kind, controllerClass) {
        assert kind == IsBinding || kind == IsPrivateRoute;
      }
      ok := Release();
    }

    method Reconcile(request: string) returns (ok: bool)
      modifies `world, `name, `copy
      ensures var p := old(world).providers;
              mode.Calm? && controllerClass != ""
              && request in p && p[request].provider.controller == controllerClass ==>
                world == Next(old(world), request, controllerClass)
    {
      name := request;
      var found;
      ok, found := Get();
      if !ok || !found {
        return;
      }
      if controllerClass == "" || copy.provider.controller != controllerClass {
        return;
      }
      if copy.deleting {
        ok := Finalize();
      } else if !copy.finalizer {
        ok := AddFinalizer();
      } else {
        ok := Report();
      }
    }
  }
}
