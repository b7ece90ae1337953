/** What both kinds of objects require of the cluster, read off the objects in it. */
module Requirements {
  import opened Cloudflare
  import opened Kube

  /** True as of `generation`. */
  predicate TrueNow(c: Condition, generation: int) {
    c.Reported? && c.verdict == IsTrue && c.generation == generation
  }

  predicate FalseNow(c: Condition, generation: int) {
    c.Reported? && c.verdict == IsFalse && c.generation == generation
  }

  predicate ProviderOk(c: Cluster, controller: string, provider: string) {
    && provider in c.providers
    && var p := c.providers[provider];
       p.controller == controller && TrueNow(p.accepted, p.generation) && TrueNow(p.credentials, p.generation)
  }

  lemma ProviderChecked(c: Cluster, controller: string, provider: string)
    ensures ProviderOk(c, controller, provider) <==> Reliable(c, ProviderRef(controller, provider))
  {}

  /** The namespace has every label the provider asks for. */
  predicate LabelsOk(selector: Option<map<string, string>>, labels: map<string, string>) {
    selector.Some? && forall l | l in selector.value :: l in labels && labels[l] == selector.value[l]
  }

  lemma LabelsChecked(selector: Option<map<string, string>>, labels: map<string, string>)
    ensures LabelsOk(selector, labels) <==> Selects(selector, labels)
  {
    if selector.Some? {
      var asked := selector.value;
      if asked.Items <= labels.Items {
        forall l | l in asked ensures l in labels && labels[l] == asked[l] {
          assert (l, asked[l]) in asked.Items;
        }
      }
      if LabelsOk(selector, labels) {
        forall i | i in asked.Items ensures i in labels.Items {
          assert i.0 in asked && asked[i.0] == i.1;
        }
      }
    }
  }

  /** A grant lets objects of `kind` in `namespace` refer to the Service. */
  predicate GrantOk(g: Grant, kind: string, namespace: string, service: string) {
    && GrantFrom("kflared.kodeblox.com", kind, namespace) in g.from
    && (GrantTo("", "Service", None) in g.to || GrantTo("", "Service", Some(service)) in g.to)
  }

  /** The Service is in the object's own namespace, or a grant beside it lets the object refer to it. */
  predicate ReferenceOk(c: Cluster, kind: string, namespace: string, service: Key) {
    || service.namespace == namespace
    || exists k | k in c.grants ::
         k.namespace == service.namespace && GrantOk(c.grants[k], kind, namespace, service.name)
  }

  lemma ReferenceChecked(c: Cluster, kind: string, namespace: string, service: Key)
    ensures ReferenceOk(c, kind, namespace, service) <==>
              service.namespace == namespace || Granted(c, service.namespace, kind, namespace, service.name)
  {
    forall k | k in c.grants
      ensures Permits(c.grants[k], kind, namespace, service.name) <==>
                GrantOk(c.grants[k], kind, namespace, service.name)
    {
      GrantChecked(c.grants[k], kind, namespace, service.name);
    }
  }

  lemma GrantChecked(g: Grant, kind: string, namespace: string, service: string)
    ensures Permits(g, kind, namespace, service) <==> GrantOk(g, kind, namespace, service)
  {
    if Permits(g, kind, namespace, service) {
      var i :| 0 <= i < |g.to| && g.to[i].group == "" && g.to[i].kind == "Service"
        && (g.to[i].name.None? || g.to[i].name.value == service);
      assert g.to[i] == GrantTo("", "Service", g.to[i].name);
      assert g.to[i] in g.to;
    }
    if GrantOk(g, kind, namespace, service) {
      var i :| 0 <= i < |g.from| && g.from[i] == GrantFrom("kflared.kodeblox.com", kind, namespace);
      var j :| 0 <= j < |g.to| && g.to[j] in {GrantTo("", "Service", None), GrantTo("", "Service", Some(service))};
    }
  }

  predicate PortOk(s: Service, ref: PortRef) {
    exists p | p in s.ports :: match ref case ByName(n) => p.name == n case ByNumber(n) => p.number == n
  }

  lemma PortChecked(s: Service, ref: PortRef)
    ensures PortOk(s, ref) <==> ResolvePort(s.ports, ref).Some?
  {
    var i := PortResolved(s.ports, ref);
    if ResolvePort(s.ports, ref).Some? {
      assert s.ports[i] in s.ports && Fits(s.ports[i], ref);
    }
    if p :| p in s.ports && Fits(p, ref) {
      var j :| 0 <= j < |s.ports| && s.ports[j] == p;
    }
  }
}
