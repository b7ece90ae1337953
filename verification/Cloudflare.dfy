/** The remote Cloudflare account: the state behind the `Client` interface of
    internal/cloudflare/client.go, and what parties other than one controller may do to it. */
module Cloudflare {

  datatype Option<+T> = None | Some(value: T)

  /** A Kubernetes UID. Canonical lower-case UUID text is a 128-bit number in hexadecimal, with hyphens
      at fixed places, so text order is numeric order. */
  type UID = int

  /** A tunnel name, by what its text says; module Names proves that the texts of the first two forms
      are injective in the UID and never equal. */
  datatype TunnelName = ForPrivateRoute(uid: UID) | ForBinding(uid: UID) | OtherName(code: int)

  /** A route comment: the ownership tag of a private route object, or any other text. */
  datatype Comment = TagOf(uid: UID) | OtherComment(code: int)

  /** An identifier issued by Cloudflare; `NO_ID` stands for the empty string of an unset field. */
  type Id = int
  const NO_ID: Id := 0

  /** A /32 network, given by its address; `None` stands for the empty string. */
  type Network = Option<int>

  datatype ConfigSource = Managed | Local

  datatype IngressRule = IngressRule(hostname: string, service: string, path: string)

  datatype Tunnel = Tunnel(id: Id, name: TunnelName, configSource: ConfigSource, ingress: seq<IngressRule>)

  datatype PrivateRoute = PrivateRoute(id: Id, network: Network, tunnelID: Id, comment: Comment)

  /** Live tunnels and routes, and the name or comment of every tunnel or route ever issued.
      Identifiers are issued in increasing order, so none is used twice. */
  datatype Account = Account(
    next: Id,
    tunnels: map<Id, Tunnel>,
    routes: map<Id, PrivateRoute>,
    names: map<Id, TunnelName>,
    comments: map<Id, Comment>)

  predicate AccountOk(a: Account) {
    && 0 < a.next
    && (forall id | id in a.tunnels :: a.tunnels[id].id == id && id in a.names && a.names[id] == a.tunnels[id].name)
    && (forall id | id in a.routes ::
          a.routes[id].id == id && id in a.comments && a.comments[id] == a.routes[id].comment)
    && (forall id | id in a.names :: 0 < id < a.next)
    && (forall id | id in a.comments :: 0 < id < a.next)
  }

  function Lookup<K, V>(m: map<K, V>, k: K): Option<V> {
    if k in m then Some(m[k]) else None
  }

  /** What becomes of a call: done, in effect but reported as failed, or without effect. */
  datatype Outcome = Done | Lost | Failed

  /** How much can go wrong during a pass: calls may fail and others may move; calls may fail, but nobody
      else moves; or neither. */
  datatype Mode = Busy | Quiet | Calm

  method Attempt(mode: Mode) returns (o: Outcome)
    ensures mode.Calm? ==> o.Done?
  {
    o := *;
    if mode.Calm? {
      o := Done;
    }
  }

  /** The next element of a collection whose order is unspecified. */
  method Any<K(==)>(keys: set<K>) returns (key: K)
    requires keys != {}
    ensures key in keys
  {
    key :| key in keys;
  }

  /** A live tunnel of that name, if there is one. */
  method FindByName(tunnels: map<Id, Tunnel>, name: TunnelName) returns (tunnel: Option<Tunnel>)
    ensures tunnel.Some? ==> exists i | i in tunnels :: tunnels[i] == tunnel.value && tunnel.value.name == name
    ensures tunnel.None? ==> forall i | i in tunnels :: tunnels[i].name != name
  {
    var ids := tunnels.Keys;
    while ids != {}
      invariant ids <= tunnels.Keys
      invariant forall i | i in tunnels && i !in ids :: tunnels[i].name != name
      decreases ids
    {
      var id := Any(ids);
      if tunnels[id].name == name {
        return Some(tunnels[id]);
      }
      ids := ids - {id};
    }
    return None;
  }

  /** The live routes at exactly `network`, in any order. */
  method RoutesAt(routes: map<Id, PrivateRoute>, network: Network) returns (existing: seq<PrivateRoute>)
    ensures forall r | r in existing :: exists i | i in routes :: r == routes[i] && r.network == network
    ensures forall i | i in routes && routes[i].network == network :: routes[i] in existing
  {
    existing := [];
    var ids := routes.Keys;
    while ids != {}
      invariant ids <= routes.Keys
      invariant forall r | r in existing :: exists i | i in routes :: r == routes[i] && r.network == network
      invariant forall i | i in routes && i !in ids && routes[i].network == network :: routes[i] in existing
      decreases ids
    {
      var id := Any(ids);
      if routes[id].network == network {
        existing := existing + [routes[id]];
      }
      ids := ids - {id};
    }
  }

  function AddTunnel(a: Account, name: TunnelName): Account {
    a.(next := a.next + 1,
       tunnels := a.tunnels[a.next := Tunnel(a.next, name, Managed, [])],
       names := a.names[a.next := name])
  }

  function DropTunnel(a: Account, id: Id): Account {
    a.(tunnels := a.tunnels - {id})
  }

  function Configure(a: Account, id: Id, rules: seq<IngressRule>): Account
    requires id in a.tunnels
  {
    a.(tunnels := a.tunnels[id := a.tunnels[id].(ingress := rules)])
  }

  function AddRoute(a: Account, network: Network, tunnelID: Id, comment: Comment): Account {
    a.(next := a.next + 1,
       routes := a.routes[a.next := PrivateRoute(a.next, network, tunnelID, comment)],
       comments := a.comments[a.next := comment])
  }

  function DropRoute(a: Account, id: Id): Account {
    a.(routes := a.routes - {id})
  }

  /** What anyone else may do to the account, as seen by a controller that reserves a set of tunnel
      names and a set of route comments: delete anything, add anything under an unreserved name or
      comment, and reconfigure tunnels whose names are not reserved. */
  predicate Moved(a: Account, b: Account, names: set<TunnelName>, comments: set<Comment>) {
    && AccountOk(b)
    && a.next <= b.next
    && (forall id | id in b.tunnels ::
          if id in a.tunnels then
            || b.tunnels[id] == a.tunnels[id]
            || (b.tunnels[id].name == a.tunnels[id].name && b.tunnels[id].name !in names)
          else a.next <= id && b.tunnels[id].name !in names)
    && (forall id | id in b.routes ::
          if id in a.routes then b.routes[id] == a.routes[id]
          else a.next <= id && b.routes[id].comment !in comments)
    && (forall id | id in a.names :: id in b.names && b.names[id] == a.names[id])
    && (forall id | id in b.names && id !in a.names :: a.next <= id && b.names[id] !in names)
    && (forall id | id in a.comments :: id in b.comments && b.comments[id] == a.comments[id])
    && (forall id | id in b.comments && id !in a.comments :: a.next <= id && b.comments[id] !in comments)
  }

  ghost predicate Issued(a: Account, r: PrivateRoute) {
    r.id in a.comments && a.comments[r.id] == r.comment
  }

  ghost predicate RoutesFrom(a: Account, b: Account) {
    forall i | i in b.routes :: i in a.routes && a.routes[i] == b.routes[i]
  }

  /** From `a` to `b` nothing happened but the removal of routes. */
  ghost predicate OnlyRoutesLost(a: Account, b: Account) {
    b.tunnels == a.tunnels && RoutesFrom(a, b)
  }
}
