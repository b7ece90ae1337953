# KFlared: a verified model of the reconcilers

KFlared drives a Cloudflare account (tunnels, ingress configurations, /32 private routes) from Kubernetes
objects. Each of its reconcilers makes a long sequence of remote calls and status patches. Any of them may fail,
or take effect and still report an error, and the process may stop between any two; the next pass has nothing to go
by but the persisted status. This project models the three reconcilers and the planner in Dafny and proves what
they keep, what they converge to and what they leave alone.

`dafny verify dfyconfig.toml` checks everything.

## How it is built

| file | what it holds |
|---|---|
| `Text.dfy`, `Orders.dfy` | string operations of the planner, text order, labels; first elements of strict total orders |
| `Names.dfy` | UIDs, names and comments as text: injectivity, disjointness, collisions of truncated names |
| `Planner.dfy`, `Spellings.dfy` | zones, host names, ingress lists, bounded names, the order of bindings; which texts are taken for the same name |
| `Cloudflare.dfy` | the remote account and what other parties may do to it |
| `Kube.dfy`, `Origins.dfy` | the Kubernetes objects the reconcilers read; the URL of a Service's port |
| `PrivateRoutes.dfy`, `PrivateRouteReconciler.dfy`, `PrivateRouteLaws.dfy` | the private-route protocol: state, invariant and environment; the reconciler, one method a function; conflicts and leaks |
| `BindingPlans.dfy`, `Bindings.dfy`, `BindingReconciler.dfy` | the plan of a binding as a function of the cluster; the binding protocol; its reconciler |
| `BindingLaws.dfy`, `BindingRuns.dfy`, `BindingLeaks.dfy` | what plans depend on; runs over all bindings; runs that leave a tunnel behind |
| `Providers.dfy`, `ProviderReconciler.dfy` | which providers have to stay; their reconciler |
| `Requirements.dfy`, `Admission.dfy`, `Planning.dfy` | what validation and planning come to, requirement by requirement, over the fields of the objects |
| `Watches.dfy` | the maps from watched objects to requests |
| `Fleet.dfy` | both tunnel controllers on one account, and the provider controller beside them |

A reconciler is a class whose fields are the world (remote account, cluster, persisted objects, children) and the
copy in memory of the object being reconciled. Every call draws one of three outcomes (done, applied but
reported as failed, not applied), and after every call the environment takes any number of steps. The field `world`
has a type whose values satisfy the invariant, so each assignment to it proves the invariant at that very point,
error exits and crashes between calls included.

How much can go wrong in a pass is its `mode`: in a busy pass calls fail and others move, in a quiet one calls fail
but nobody else moves, in a calm one neither happens. The convergence results are about a calm pass, started from any
state the invariant allows. They say exactly when the pass succeeds, and what it reports when it does not. What
validation answers when reads fail, and that a valid object loses nothing whichever calls fail, is said of quiet passes
as well. Everything else holds of every pass.

Validation and plans are functions of the cluster, and the reconcilers are proved against them. Modules `Admission` and
`Planning` say what these functions come to without naming them: which requirement each outcome means is missing, first
to last, which names a plan has and where its origin points.

The world also carries history that the reconcilers do not act on. `released` keeps each object as it was when its
controller let it go, and the invariant says that such an object is discharged under the policy it had then.
`trusting` is the set of objects whose reconciler has found their provider current and of their class; an object has a
tunnel on record only if it is in there, and the provider is still there then.

Every method of a reconciler states that its pass is `Confined`: to every other object what happened since the pass
began looks like moves of the environment, and unless the pass is busy nothing at all changed but what carries the
object's tag, name or label, and the object itself in status and finalizer.

Some properties one might expect do not hold. Each is stated with its exact condition and with an input or a run:
a finalization under Delete leaves a tunnel behind exactly when a live one is not on record
(`PrivateRouteLaws.LeakExactly` and `BindingLaws.LeakExactly`, with runs from nothing in `LostResponseLeaks`); for a
private route no tunnel is on record then, while a binding may still have a dead one there
(`BindingLeaks.ReadyToReplace`). Canonicalisation of host names is idempotent only on some text
(`Planner.CanonicalIdempotentExactly`). `BindingPrecedes` is a strict total order, but it is the order of age,
namespace, name and UID only while neither name runs on with a character below the slash
(`BindingPlans.PrecedesExactly`). A read of a provider, Gateway or GatewayClass that fails is a rejection, and silences
the tunnel like any other (`ReadProvider`, `ReadGateway`, `Decline`). Honesty of Ready is about the conditions only: a
private route may say Ready=True while no route is on record (`PrivateRouteLaws.ReadyOutlivesRoute`).

## Assumptions

- Each controller has one worker, so passes of one kind do not interleave, and its reads of its own objects are fresh.
  Nobody else writes the status of these objects, removes their finalizers, or changes namespace, name, controller,
  providerRef or gatewayRef (the last three are immutable in the API).
- UIDs are distinct and are canonical lower-case UUID text. The protocols treat them as 128-bit numbers, and treat
  tunnel names and route comments by what they say; module `Names` and the planner's name lemmas say why the text
  carries the same information. Names and host names are ASCII. The UID of the cluster does not change.
- All objects use one Cloudflare account. Cloudflare returns the names and networks it was given, issues each
  identifier once, and accepts at most what the calls ask for. Nobody else makes tunnels or routes under the names
  and comments of the controllers, edits such a comment, or reconfigures such a tunnel; anyone may delete anything.
- Deletion of a finalized object is a mark that raises its generation; the object is gone when the finalizer of its
  controller, the only one, is removed by an update that the API server refuses for stale copies.
- The read and the write of one `CreateOrPatch`, and the read and the deletion of one child, are one step.
- A provider that an object trusts stays, as far as the models of the two tunnel controllers go. That the provider
  controller sees to it is proved in `Fleet.ProvidersStayForRoutes` and `Fleet.ProvidersStayForBindings`, for lists that
  show every binding and private route there is.
- Whether the cluster knows DNSEndpoints does not change.
- Whether enough connector replicas are available is an arbitrary input of each pass.

## Model

| member | source | states |
|---|---|---|
| `PrivateRoutes.NoOrphanRoute` | internal/controller/cloudflaretunnelprivateroute_controller.go:316-455 | In every state of every run, at most one remote route carries an object's tag; it is at the persisted network on the persisted tunnel, which the controller has not deleted, and it is the route on record when one is; and Ready=True at a generation has the other three conditions True at the same generation |
| `PrivateRoutes.EventKeepsInv` | internal/controller/cloudflaretunnelprivateroute_controller.go:392-406 | Whatever anyone else does (external deletion of tunnels and routes, foreign additions, Service, grant and provider changes, creation, spec edits, deletion requests) keeps the invariant |
| `PrivateRoutes.RouteMadeKeepsInv` | internal/controller/cloudflaretunnelprivateroute_controller.go:392-403 | Creating the route keeps the invariant because network and tunnel are persisted first and no tagged route is left; afterwards exactly the new route is tagged |
| `PrivateRoutes.RouteRemovedKeepsInv` | internal/controller/cloudflaretunnelprivateroute_controller.go:437-437 | Removing a route issued for an object keeps the invariant |
| `PrivateRoutes.TunnelMadeKeepsInv` | internal/controller/cloudflaretunnelprivateroute_controller.go:342-351 | Creating the tunnel when no live tunnel has the name keeps at most one tunnel per object |
| `PrivateRoutes.TunnelRemovedKeepsInv` | internal/controller/cloudflaretunnelprivateroute_controller.go:543-550 | Deleting the recorded tunnel once no tagged route is left leaves no route on a tunnel the controller deleted |
| `PrivateRoutes.PatchKeepsInv` | internal/controller/cloudflaretunnelprivateroute_controller.go:579-583 | What a status patch must respect for the invariant to survive it |
| `PrivateRoutes.ReportKeepsInv` | internal/controller/cloudflaretunnelprivateroute_controller.go:72-76 | The failure report keeps the invariant |
| `PrivateRoutes.ChildStepsKeepInv` | internal/controller/cloudflaretunnelprivateroute_controller.go:494-499 | Writing or removing a child that is the object's own keeps ownership labels and names in step |
| `PrivateRoutes.Report` | internal/controller/cloudflaretunnelprivateroute_controller.go:555-578 | Each condition is True or False at the generation, and each says what it is for: accepted or not with the reason, a route on record or not, the connector rolled out or not; Ready says all three |
| `PrivateRoutes.ConflictAges` | internal/controller/cloudflaretunnelprivateroute_controller.go:222-234 | A conflict takes a claimant that is not younger, and one that is older is enough |
| `PrivateRoutes.ReportFailed` | internal/controller/cloudflaretunnelprivateroute_controller.go:73-75 | After a failed pass route and connector are Unknown and Ready is False, all at the generation that failed; what was said of acceptance stays |
| `PrivateRoutes.ReportKeepsConvergence` | internal/controller/cloudflaretunnelprivateroute_controller.go:65-82 | The failure report takes back nothing a failed pass had achieved |
| `PrivateRoutes.StaysDischarged` | internal/controller/cloudflaretunnelprivateroute_controller.go:501-554 | In every state of every run an object that was let go is gone for good, and under the policy it had then no route carries its tag, its recorded tunnel is gone, and it has no child |
| `PrivateRoutes.ProviderNeverBlocks` | internal/controller/cloudflaretunnelprivateroute_controller.go:527-537 | In every state an object with a tunnel on record has its provider, of its class; so finalization waits for nothing but the API token and children that are not its own |
| `PrivateRoutes.ElsewhereSpares` | internal/controller/cloudflaretunnelprivateroute_controller.go:316-554 | If nothing changed but what is the object's own, no other object changed or gained a route, tunnel or child |
| `PrivateRoutes.StepConfined` | internal/controller/cloudflaretunnelprivateroute_controller.go:316-554 | A pass stays confined to its object when it takes one more step of its own, and it comes to trust a provider only as it was when the pass read its object |
| `PrivateRoutes.DriftConfined` | internal/controller/cloudflaretunnelprivateroute_controller.go:84-148 | and when the environment moves |
| `PrivateRoutes.TunnelMadeAlone` | internal/controller/cloudflaretunnelprivateroute_controller.go:347-347 | Creating a tunnel under the object's name touches nothing else |
| `PrivateRoutes.RouteMadeAlone` | internal/controller/cloudflaretunnelprivateroute_controller.go:399-399 | nor does creating a route with its tag |
| `PrivateRouteReconciliation.PrivateRouteReconciler.CreateTunnel` | internal/cloudflare/client.go:68-68 | The call succeeds, fails, or takes effect and reports an error; nothing else changes before others move |
| `Cloudflare.FindByName` | internal/cloudflare/sdk.go:56-72 | Returns a live tunnel of that name if and only if there is one |
| `Cloudflare.RoutesAt` | internal/cloudflare/sdk.go:157-173 | Returns exactly the live routes at the network |
| `PrivateRouteReconciliation.PrivateRouteReconciler.CreatePrivateRoute` | internal/cloudflare/client.go:75-75 | As for tunnels: applied and reported, applied and lost, or not applied |
| `PrivateRouteReconciliation.PrivateRouteReconciler.DeletePrivateRoute` | internal/cloudflare/client.go:76-76 | Deleting a route that is gone succeeds |
| `PrivateRouteReconciliation.PrivateRouteReconciler.PatchStatus` | internal/controller/cloudflaretunnelprivateroute_controller.go:579-583 | An accepted patch is in the API server and in memory; a lost one may be in the API server |
| `PrivateRouteReconciliation.PrivateRouteReconciler.DeleteRoute` | internal/controller/cloudflaretunnelprivateroute_controller.go:411-438 | On success nothing carries the object's tag; nothing new is owned on any exit; without faults it succeeds and removes routes only |
| `PrivateRouteReconciliation.PrivateRouteReconciler.DeleteEach` | internal/controller/cloudflaretunnelprivateroute_controller.go:417-424 | After the loop none of the listed routes carries the tag any more |
| `PrivateRouteReconciliation.PrivateRouteReconciler.DeleteRecorded` | internal/controller/cloudflaretunnelprivateroute_controller.go:427-437 | On success the recorded route is gone and nothing else is tagged; without faults it succeeds and removes nothing but routes |
| `PrivateRouteReconciliation.PrivateRouteReconciler.DeleteMatching` | internal/controller/cloudflaretunnelprivateroute_controller.go:434-437 | A route that does not match tag and recorded network is refused, and nothing changes then |
| `PrivateRouteReconciliation.PrivateRouteReconciler.EnsureTunnel` | internal/controller/cloudflaretunnelprivateroute_controller.go:316-360 | On success the recorded tunnel is the object's own, adopted by name after a lost response or made; without faults it is there. With the recorded tunnel live, or none on record, no failing call makes it take anything away |
| `PrivateRouteReconciliation.PrivateRouteReconciler.ForgetLostTunnel` | internal/controller/cloudflaretunnelprivateroute_controller.go:324-339 | The route on a remotely deleted tunnel is gone before the tunnel ID is forgotten |
| `PrivateRouteReconciliation.PrivateRouteReconciler.FindOrCreate` | internal/controller/cloudflaretunnelprivateroute_controller.go:341-352 | Finds the tunnel by name before it makes one |
| `PrivateRouteReconciliation.PrivateRouteReconciler.EnsureRoute` | internal/controller/cloudflaretunnelprivateroute_controller.go:362-407 | On success a route is on record; without faults and without a foreign route at the network, exactly one tagged route exists, at the network, on the recorded tunnel, and on record; on a network that only others route it fails. Whichever calls fail it takes no route, tunnel or child away |
| `PrivateRouteReconciliation.PrivateRouteReconciler.CheckRecordedRoute` | internal/controller/cloudflaretunnelprivateroute_controller.go:363-377 | Success with a route means that it was there as recorded, at the network and on the tunnel; success without one means that the record was cleared |
| `PrivateRouteReconciliation.PrivateRouteReconciler.AdoptOrCreateRoute` | internal/controller/cloudflaretunnelprivateroute_controller.go:378-406 | Re-adopts the object's own route after a lost response, refuses a network that somebody else routes and changes nothing then, else creates |
| `PrivateRouteReconciliation.PrivateRouteReconciler.PersistAndCreate` | internal/controller/cloudflaretunnelprivateroute_controller.go:392-406 | The network is persisted before the route is made, so that no lost response leaves a route off the record |
| `PrivateRouteReconciliation.PrivateRouteReconciler.PlaceRoute` | internal/controller/cloudflaretunnelprivateroute_controller.go:123-133 | On success the route on record is on the given tunnel; without faults and foreign routes it succeeds, settled at the new network |
| `PrivateRouteReconciliation.PrivateRouteReconciler.CreateRoute` | internal/controller/cloudflaretunnelprivateroute_controller.go:399-406 | Created at the persisted network on the persisted tunnel, then recorded |
| `PrivateRouteReconciliation.PrivateRouteReconciler.RemoveRoute` | internal/controller/cloudflaretunnelprivateroute_controller.go:439-455 | On success no route is tagged and none is on record; without faults it succeeds exactly when provider, class and token allow |
| `PrivateRouteReconciliation.PrivateRouteReconciler.EnsureConnector` | internal/controller/cloudflaretunnelprivateroute_controller.go:457-492 | Without faults it succeeds exactly when no child of the name belongs to another object; then both children are the object's |
| `PrivateRouteReconciliation.PrivateRouteReconciler.RemoveChild` | internal/controller/cloudflaretunnelprivateroute_controller.go:511-526 | Removes only a child with the object's label, and without faults fails exactly on a foreign one and leaves all others |
| `PrivateRouteReconciliation.PrivateRouteReconciler.ValidateProvider` | internal/controller/cloudflaretunnelprivateroute_controller.go:150-171 | Every outcome that the provider decides is the specified one for the provider as it was read; a failing read is no verdict. Unless others move the whole answer is the specified one or a failed read |
| `PrivateRouteReconciliation.PrivateRouteReconciler.ValidateService` | internal/controller/cloudflaretunnelprivateroute_controller.go:172-206 | Unless others move, the specified verdict on grant and Service, or a failed read, which is no verdict |
| `PrivateRouteReconciliation.PrivateRouteReconciler.ReadService` | internal/controller/cloudflaretunnelprivateroute_controller.go:189-205 | In any pass a failed read, or the specified verdict on the Service as it was read; without faults the verdict |
| `PrivateRouteReconciliation.PrivateRouteReconciler.CheckGrant` | internal/controller/cloudflaretunnelprivateroute_controller.go:173-188 | The same for the grant |
| `PrivateRouteReconciliation.PrivateRouteReconciler.CheckNamespace` | internal/controller/cloudflaretunnelprivateroute_controller.go:164-171 | The same for the namespace and the provider's selector |
| `PrivateRouteReconciliation.PrivateRouteReconciler.Conflicts` | internal/controller/cloudflaretunnelprivateroute_controller.go:222-235 | Finds a conflict if and only if some listed object contends |
| `PrivateRouteReconciliation.PrivateRouteReconciler.CheckConflicts` | internal/controller/cloudflaretunnelprivateroute_controller.go:217-236 | In any pass a failed read, or the verdict on the objects as they were listed: a rejection takes a live claimant of the network, of the provider and class, that is not younger, and an older one is enough for it |
| `PrivateRouteReconciliation.PrivateRouteReconciler.ValidateRoute` | internal/controller/cloudflaretunnelprivateroute_controller.go:150-215 | Unless others move, the specified outcome, reason included, or a failed read, which is no verdict |
| `PrivateRouteReconciliation.PrivateRouteReconciler.Reject` | internal/controller/cloudflaretunnelprivateroute_controller.go:103-110 | An invalid object loses its remote route and says why, with connector and Ready False, unless another controller class is in charge; without faults it succeeds exactly when there is no network on record or provider and token allow |
| `PrivateRouteReconciliation.PrivateRouteReconciler.LeaveNetwork` | internal/controller/cloudflaretunnelprivateroute_controller.go:123-130 | The old route goes before the network changes |
| `PrivateRouteReconciliation.PrivateRouteReconciler.Program` | internal/controller/cloudflaretunnelprivateroute_controller.go:111-147 | Without faults and foreign routes: one tagged route at the validated network on a live recorded tunnel; success, with connector and acceptance, unless a child belongs to another object. Without a token it fails and changes nothing, on a network of somebody else's it fails; and with its tunnel live and its network unchanged an object loses nothing, whichever calls fail |
| `PrivateRouteReconciliation.PrivateRouteReconciler.SetConditions` | internal/controller/cloudflaretunnelprivateroute_controller.go:555-578 | Writes exactly the reported conditions and keeps the record of remote identifiers |
| `PrivateRouteReconciliation.PrivateRouteReconciler.TearDown` | internal/controller/cloudflaretunnelprivateroute_controller.go:501-551 | The route goes before the tunnel, on the provider read at that time; success means discharged under the object's policy, and without faults comes exactly when token and children allow; under Retain nothing remote changes, whichever calls fail |
| `PrivateRouteReconciliation.PrivateRouteReconciler.RemoveTunnel` | internal/controller/cloudflaretunnelprivateroute_controller.go:527-551 | On success the recorded tunnel is gone; without faults it succeeds exactly when provider, class and token allow, and takes no other tunnel |
| `PrivateRouteReconciliation.PrivateRouteReconciler.DeleteOwnTunnel` | internal/controller/cloudflaretunnelprivateroute_controller.go:544-549 | A tunnel of another name or another configuration source is refused, and nothing changes then |
| `PrivateRouteReconciliation.PrivateRouteReconciler.Release` | internal/controller/cloudflaretunnelprivateroute_controller.go:552-553 | The finalizer comes off only of a current copy |
| `PrivateRouteReconciliation.PrivateRouteReconciler.Finalize` | internal/controller/cloudflaretunnelprivateroute_controller.go:501-554 | Whatever fails, the object stays with its record or is let go, and then, as every state says, it is discharged; without faults it is let go exactly when token and children allow, and of the tunnels only the recorded one goes |
| `PrivateRouteReconciliation.PrivateRouteReconciler.AddFinalizer` | internal/controller/cloudflaretunnelprivateroute_controller.go:95-98 | The finalizer is there before anything remote is made |
| `PrivateRouteReconciliation.PrivateRouteReconciler.ReconcileOnce` | internal/controller/cloudflaretunnelprivateroute_controller.go:84-148 | From any reachable state one calm pass converges, and succeeds exactly when it should: settled at the current network and ready exactly when the connector is rolled out, withdrawn with the reason, given the finalizer, or let go and discharged; an object of another class is left alone. Every pass is confined to its object, lets it go only when discharged, and records a new tunnel only under a provider that was current, and of its class, when the pass read its object. While nobody else moves, an object that is valid at its recorded network with its tunnel live keeps route, tunnel and children, whichever calls fail |
| `PrivateRouteReconciliation.PrivateRouteReconciler.Act` | internal/controller/cloudflaretunnelprivateroute_controller.go:92-147 | The same for what is done with the copy that was read |
| `PrivateRouteReconciliation.PrivateRouteReconciler.Maintain` | internal/controller/cloudflaretunnelprivateroute_controller.go:99-147 | A tunnel comes on record only under a provider that was current, and of the class, when validation read it; while nobody else moves a valid object keeps all it has, whichever calls fail |
| `PrivateRouteReconciliation.PrivateRouteReconciler.RollOut` | internal/controller/cloudflaretunnelprivateroute_controller.go:134-146 | After success without faults Ready is True exactly when enough replicas of the current rollout were found available |
| `PrivateRouteReconciliation.PrivateRouteReconciler.ReportFailure` | internal/controller/cloudflaretunnelprivateroute_controller.go:65-82 | The failure report never touches remote identifiers, and goes to the object or to one of its name created since |
| `PrivateRouteReconciliation.PrivateRouteReconciler.Reconcile` | internal/controller/cloudflaretunnelprivateroute_controller.go:65-82 | The same with the failure report, on every exit |
| `PrivateRouteReconciliation.PrivateRouteReconciler.Retry` | internal/controller/cloudflaretunnelprivateroute_controller.go:501-554 | Over any number of interrupted attempts what is left never grows, and the object goes only when it is discharged |
| `PrivateRouteReconciliation.PrivateRouteReconciler.Run` | internal/controller/cloudflaretunnelprivateroute_controller.go:65-148 | Any sequence of requests and outside changes ends, and at every point was, in a state of the invariant; no object that was let go left anything its policy does not keep, but for a tunnel never recorded |
| `PrivateRouteLaws.PrecedesTotal` | internal/controller/cloudflaretunnelprivateroute_controller.go:238-249 | Of two objects exactly one precedes the other |
| `PrivateRouteLaws.PrecedesTransitive` | internal/controller/cloudflaretunnelprivateroute_controller.go:238-249 | Precedence is transitive |
| `PrivateRouteLaws.PrecedesExactly` | internal/controller/cloudflaretunnelprivateroute_controller.go:238-249 | The older object precedes; among objects of one age the one whose namespace, then name, then UID text comes first |
| `PrivateRouteLaws.UniqueWinner` | internal/controller/cloudflaretunnelprivateroute_controller.go:217-236 | Among rivals on one Service with no other claimant of its network, exactly one passes validation and all others are rejected for the conflict: the oldest, and among the oldest the one whose namespace, name and UID come first |
| `Admission.ResolvedExactly` | internal/controller/cloudflaretunnelprivateroute_controller.go:150-206 | Each outcome before conflicts by what is missing first: the provider, its class, its conditions at its generation, the namespace and its labels, a grant that names kind, namespace and Service, the Service, a ClusterIP with an IPv4 address, a port that fits; the network of a valid object is that address |
| `Admission.ValidExactly` | internal/controller/cloudflaretunnelprivateroute_controller.go:150-236 | A valid object meets all of this and no older claimant of the network is there; an object that meets it while all other claimants are younger is valid; a conflict is a claimant that is not younger |
| `Requirements.GrantChecked` | internal/controller/cloudflaretunnelprivateroute_controller.go:256-272 | A grant permits a reference exactly when it lists the group, kind and namespace of the object, and all Services or this one |
| `PrivateRouteLaws.LeakExactly` | internal/controller/cloudflaretunnelprivateroute_controller.go:527-551 | A calm finalization under Delete leaves a live tunnel of the object behind if and only if none is on record and there is one |
| `PrivateRouteLaws.ReadyToCreate` | internal/controller/cloudflaretunnelprivateroute_controller.go:99-120 | A cluster with provider, namespace, Service and token in which a new object passes validation and has no tunnel: it is reached from nothing, and the next step creates one |
| `PrivateRouteLaws.LostResponse` | internal/controller/cloudflaretunnelprivateroute_controller.go:347-358 | The response to that creation is lost and the object is deleted: a live tunnel of the object is not on record, and nothing keeps finalization from completing |
| `PrivateRouteLaws.LostResponseLeaks` | internal/controller/cloudflaretunnelprivateroute_controller.go:501-554 | The finalization that follows lets the object go, and the tunnel lives on |
| `PrivateRouteLaws.ReadyOutlivesRoute` | internal/controller/cloudflaretunnelprivateroute_controller.go:368-371 | When a recorded route was deleted remotely, forgetting it leaves the conditions as they are: an object that said Ready=True says so with no route on record |
| `BindingPlans.PrecedesTotal` | internal/planner/planner.go:116-123 | Of two bindings exactly one precedes, since namespaces and names hold no slash |
| `BindingPlans.PrecedesTransitive` | internal/planner/planner.go:116-123 | Precedence of bindings is transitive |
| `BindingPlans.PrecedesExactly` | internal/planner/planner.go:116-123 | Precedence is the order of age, namespace, name and UID if and only if the ages differ or the first differing part, namespace or name, is not cut below |
| `BindingPlans.OneGatewayOwner` | internal/controller/cloudflaretunnelbinding_controller.go:665-677 | Exactly one live binding of a class owns a Gateway |
| `BindingPlans.SnapshotExclusive` | internal/controller/cloudflaretunnelbinding_controller.go:679-706 | Two bindings that get plans from one state publish disjoint host names |
| `BindingPlans.PlannedHosts` | internal/controller/cloudflaretunnelbinding_controller.go:689-698 | A planned set is exactly the set every later binding computes as owned |
| `BindingPlans.CollectHostnames` | internal/controller/cloudflaretunnelbinding_controller.go:342-358 | Collects exactly the host names of accepted routes that target the listener, in any order |
| `BindingPlans.GatewayWinner` | internal/controller/cloudflaretunnelbinding_controller.go:665-677 | Finds a winner if and only if one exists |
| `BindingPlans.Overlap` | internal/controller/cloudflaretunnelbinding_controller.go:699-703 | Finds a shared name if and only if the lists share one |
| `BindingPlans.EvaluateClaims` | internal/controller/cloudflaretunnelbinding_controller.go:689-698 | The names another binding wants of the routes as they were listed, under the zones of its provider as it was read, and what it last published when these are not valid |
| `BindingPlans.PlanHostnames` | internal/controller/cloudflaretunnelbinding_controller.go:202-210 | The eligible names in order, or the error about the zones |
| `Planning.ProviderExactly` | internal/controller/cloudflaretunnelbinding_controller.go:225-264 | Each verdict on provider, namespace and Gateway owner by what is missing first; a conflict at the Gateway takes another live binding of the class that is not younger, and an older one is enough |
| `Planning.OriginExactly` | internal/controller/cloudflaretunnelbinding_controller.go:266-327 | Each verdict on Gateway, listener, grant, Service and port by what is missing first; success points at the selected port |
| `Planning.HostsExactly` | internal/controller/cloudflaretunnelbinding_controller.go:342-358 | A name is in a plan exactly when it is concrete, an accepted route of the namespace that targets the listener spells it, and it lies, by labels, in a zone that the provider spells |
| `Planning.OwnedExactly` | internal/controller/cloudflaretunnelbinding_controller.go:689-698 | What another binding owns: such names under an accepted provider with valid zones, else what it last published |
| `Planning.PlanExactly` | internal/controller/cloudflaretunnelbinding_controller.go:202-222 | With provider and origin passed: a plan with all wanted names, none of them owned by an older binding, or a refusal for an invalid zone, for no name and no tunnel, or for a name that a binding not younger owns |
| `Planning.UnplannedExactly` | internal/controller/cloudflaretunnelbinding_controller.go:105-122 | Planning breaks exactly when the namespace is missing, leaves it open exactly when the provider's conditions are neither all true nor false now, and without failing reads refuses without an error |
| `Planning.VerdictsExactly` | internal/controller/clustercloudflareprovider_controller.go:85-130 | A provider is accepted exactly when its selector parses and each zone spells a concrete name; its credentials are valid exactly when moreover its token is usable, and open when it is not accepted |
| `Origins.URLAddresses` | internal/controller/cloudflaretunnelbinding_controller.go:326-326 | The host of an origin has the labels of the Service's name, then of its namespace, then svc.cluster.local, and the text after the last colon reads back as the port |
| `Origins.OriginsTell` | internal/controller/cloudflaretunnelbinding_controller.go:326-326 | Origins of different Services or ports differ |
| `Kube.PortResolved` | internal/controller/cloudflaretunnelbinding_controller.go:818-828 | A port reference resolves to the first port of that name or number, if there is one |
| `BindingPlans.Report` | internal/controller/cloudflaretunnelbinding_controller.go:491-515 | Each condition is True or False at the generation: accepted; programmed exactly when something is published; the connector as it was found; DNS exactly when automation is off or made the DNSEndpoint; Ready exactly when nothing of this is missing |
| `BindingPlans.ReportRejected` | internal/controller/cloudflaretunnelbinding_controller.go:536-539 | A rejection makes all conditions but the connector's False at the generation, with the reason in Accepted |
| `BindingPlans.ReportFailed` | internal/controller/cloudflaretunnelbinding_controller.go:521-525 | A failed pass makes Ready and the condition of the part that failed Unknown at the generation; the others stay |
| `Bindings.EventKeepsInv` | internal/controller/cloudflaretunnelbinding_controller.go:360-395 | Whatever anyone else does keeps the invariant of the binding protocol |
| `Bindings.TunnelMadeKeepsInv` | internal/controller/cloudflaretunnelbinding_controller.go:373-386 | At most one live tunnel per binding, unconfigured until recorded |
| `Bindings.ConfiguredKeepsInv` | internal/controller/cloudflaretunnelbinding_controller.go:155-160 | Only the recorded tunnel is ever configured |
| `Bindings.TunnelRemovedKeepsInv` | internal/controller/cloudflaretunnelbinding_controller.go:611-611 | Deleting the recorded tunnel, whose name is not checked again, hits only the binding's own |
| `Bindings.PatchKeepsInv` | internal/controller/cloudflaretunnelbinding_controller.go:387-391 | What a merge patch of the status must respect |
| `Bindings.StaysDischarged` | internal/controller/cloudflaretunnelbinding_controller.go:574-623 | In every state of every run a binding that was let go is gone for good, has no child or DNSEndpoint, and under Delete its recorded tunnel is gone |
| `Bindings.ProviderNeverBlocks` | internal/controller/cloudflaretunnelbinding_controller.go:579-590 | In every state a binding with a tunnel on record has its provider, of its class; so finalization waits for nothing but the API token and children or a DNSEndpoint that are not its own |
| `Bindings.ElsewhereSpares` | internal/controller/cloudflaretunnelbinding_controller.go:360-395 | If nothing changed but what is the binding's own, no other binding changed or gained a tunnel, child or DNSEndpoint |
| `Bindings.StepConfined` | internal/controller/cloudflaretunnelbinding_controller.go:93-186 | A pass stays confined to its binding when it takes one more step of its own, and it comes to trust a provider only as it was when the pass read its object |
| `Bindings.DriftConfined` | internal/controller/cloudflaretunnelbinding_controller.go:93-186 | and when the environment moves |
| `Bindings.TunnelMadeAlone` | internal/controller/cloudflaretunnelbinding_controller.go:382-382 | Creating a tunnel under the binding's name touches nothing else |
| `Bindings.AloneSteady` | internal/controller/cloudflaretunnelbinding_controller.go:93-186 | A pass that is alone keeps the inputs of every binding, those of its own included unless it lets the binding go |
| `BindingReconciliation.BindingReconciler.ValidateAndPlan` | internal/controller/cloudflaretunnelbinding_controller.go:192-223 | In any pass a plan was made with a provider that was current, of the binding's class, when it was read; its names are what the routes as listed offer in that provider's zones, and its origin addresses the selected port of the Service as it was read. Unless others move the plan is the specified one, or what a failing read comes to, or one in which other bindings' published names stand for their claims |
| `BindingReconciliation.BindingReconciler.CheckClusterProvider` | internal/controller/cloudflaretunnelbinding_controller.go:225-264 | Unless others move, the specified verdict, or a fault, or on a failing read of the provider the rejection ProviderNotFound |
| `BindingReconciliation.BindingReconciler.CheckOriginService` | internal/controller/cloudflaretunnelbinding_controller.go:266-327 | On success the origin addresses the first port that the binding selects of its Service as it was read. Unless others move, the specified verdict, or a fault, or on a failing read of Gateway or class the rejection GatewayNotFound or GatewayClassNotFound |
| `BindingReconciliation.BindingReconciler.ReadProvider` | internal/controller/cloudflaretunnelbinding_controller.go:226-247 | Either the specified verdict on the provider as it was read, or, on a failing read and only then, the rejection ProviderNotFound; success is for a current provider of the class |
| `BindingReconciliation.BindingReconciler.ReadGateway` | internal/controller/cloudflaretunnelbinding_controller.go:267-288 | A failing read of Gateway or class counts as a rejection, under the reason that the object was not found |
| `BindingReconciliation.BindingReconciler.FetchService` | internal/controller/cloudflaretunnelbinding_controller.go:303-326 | In any pass a fault, or the specified verdict on the Service as it was read; success addresses the selected port of that Service |
| `BindingReconciliation.BindingReconciler.OwnedHostnames` | internal/controller/cloudflaretunnelbinding_controller.go:689-698 | Without an accepted provider, and on failing reads, the names last published; unless others move otherwise the names the other binding claims |
| `BindingReconciliation.BindingReconciler.HostnameWinner` | internal/controller/cloudflaretunnelbinding_controller.go:679-706 | Without faults finds a winner if and only if a senior binding claims one of the names; with failing reads, judged by claims or by published names |
| `BindingReconciliation.BindingReconciler.EnsureTunnel` | internal/controller/cloudflaretunnelbinding_controller.go:360-395 | On success the recorded tunnel is the binding's own; configurations stay as they were; with a live recorded tunnel nothing is written |
| `BindingReconciliation.BindingReconciler.EnsureIngress` | internal/controller/cloudflaretunnelbinding_controller.go:149-160 | Afterwards the recorded tunnel has the desired configuration, and nothing is written when it had it already |
| `BindingReconciliation.BindingReconciler.DeleteDNSEndpoint` | internal/controller/cloudflaretunnelbinding_controller.go:625-651 | Removes only the binding's own; on success none is left |
| `BindingReconciliation.BindingReconciler.ReconcileDNSEndpoint` | internal/controller/cloudflaretunnelbinding_controller.go:430-475 | The DNSEndpoint lists exactly the host names with the tunnel as target, or is gone |
| `BindingReconciliation.BindingReconciler.EnsureConnector` | internal/controller/cloudflaretunnelbinding_controller.go:162-174 | Without faults it succeeds exactly when no child of the name belongs to another binding; then both are the binding's |
| `BindingReconciliation.BindingReconciler.SetReadyStatus` | internal/controller/cloudflaretunnelbinding_controller.go:477-517 | Writes the published names and conditions that say what was found: programmed, connector, DNS, and Ready exactly when nothing is missing |
| `BindingReconciliation.BindingReconciler.ReportOperationalFailure` | internal/controller/cloudflaretunnelbinding_controller.go:519-528 | Touches conditions only, even when the tunnel in memory was never persisted |
| `BindingReconciliation.BindingReconciler.Reject` | internal/controller/cloudflaretunnelbinding_controller.go:530-543 | The rejection is in memory in any case and, if reported, on record |
| `BindingReconciliation.BindingReconciler.DeprogramTunnel` | internal/controller/cloudflaretunnelbinding_controller.go:545-572 | On success the recorded tunnel has the lone 404 rule and no DNSEndpoint is left; without faults it succeeds exactly when the token is there and the DNSEndpoint is the binding's own |
| `BindingReconciliation.BindingReconciler.Decline` | internal/controller/cloudflaretunnelbinding_controller.go:105-117 | A rejection other than for the class, carried through, silences a recorded tunnel, also when it came from a failing read; nothing is written when the tunnel was silent; without faults it succeeds exactly when no read failed and the tunnel can be silenced |
| `BindingReconciliation.BindingReconciler.Program` | internal/controller/cloudflaretunnelbinding_controller.go:132-160 | Without faults the recorded tunnel is live with exactly the planned rules |
| `BindingReconciliation.BindingReconciler.Serve` | internal/controller/cloudflaretunnelbinding_controller.go:132-185 | The planned rules, connector, DNSEndpoint and status together; without faults it succeeds exactly when the token is there and no child or DNSEndpoint belongs to another binding, and otherwise reports the part that failed |
| `BindingReconciliation.BindingReconciler.TearDown` | internal/controller/cloudflaretunnelbinding_controller.go:574-620 | On success the binding is discharged under its policy: no child, no DNSEndpoint, and under Delete no recorded tunnel; without faults it succeeds exactly when provider, token, children and DNSEndpoint allow |
| `BindingReconciliation.BindingReconciler.Finalize` | internal/controller/cloudflaretunnelbinding_controller.go:574-623 | Whatever fails, the binding stays with its record or is let go, and then, as every state says, it is discharged; without faults it is let go exactly when token, children and DNSEndpoint allow, and of the tunnels only the recorded one goes |
| `BindingReconciliation.BindingReconciler.Maintain` | internal/controller/cloudflaretunnelbinding_controller.go:105-185 | Whichever call fails, each live tunnel is configured as before, by this pass's plan, or after a rejection by the lone 404 rule; the plan was made with a provider that was current when the pass read its binding, and is what planning may come to; a tunnel comes on record only under a plan |
| `BindingReconciliation.BindingReconciler.Reconcile` | internal/controller/cloudflaretunnelbinding_controller.go:93-186 | On every exit: confined to the binding; each tunnel as before, by the plan, or after a rejection silenced; let go only when discharged; a new tunnel only under a provider that was current, and of its class, when the pass read its object; the plan points at its Service. Unless others move, the plan is what planning may come to with failing reads. A calm pass has the specified plan, converges to it, succeeds exactly when it should, reports the part that failed when not, and writes nothing to Cloudflare when the tunnel is as planned |
| `BindingReconciliation.BindingReconciler.Act` | internal/controller/cloudflaretunnelbinding_controller.go:101-185 | The same for what is done with the copy that was read |
| `BindingLaws.PlanStable` | internal/controller/cloudflaretunnelbinding_controller.go:192-223 | A plan depends on the inputs only, except that a binding without names needs a recorded tunnel to pass |
| `BindingLaws.RealizedExclusive` | internal/controller/cloudflaretunnelbinding_controller.go:679-706 | Tunnels that realise plans of one state publish disjoint names |
| `BindingLaws.PassRealizes` | internal/controller/cloudflaretunnelbinding_controller.go:93-186 | A second successful pass makes the tunnel exactly what its plan says, whatever it was before |
| `BindingLaws.OneLiveTunnel` | internal/controller/cloudflaretunnelbinding_controller.go:360-395 | In every state a binding has at most one live tunnel, unconfigured unless recorded, and honest conditions |
| `BindingLaws.ReadyExactly` | internal/controller/cloudflaretunnelbinding_controller.go:477-517 | After a successful calm pass a binding is ready exactly when its connector is and it publishes some name, in a DNSEndpoint at the recorded tunnel too if automation is on; what it publishes is served by that tunnel |
| `BindingLaws.LeakExactly` | internal/controller/cloudflaretunnelbinding_controller.go:603-622 | A calm finalization under Delete leaves a live tunnel of the binding behind if and only if there is one that is not on record |
| `BindingLeaks.ReadyToCreate` | internal/controller/cloudflaretunnelbinding_controller.go:192-223 | A cluster with everything a binding needs, in which a new binding has a plan and no tunnel: it is reached from nothing, and the next step creates one |
| `BindingLeaks.ReadyToReplace` | internal/controller/cloudflaretunnelbinding_controller.go:361-386 | The same once its tunnel was recorded and deleted by someone else: a plan, and the dead tunnel still on record |
| `BindingLeaks.LostResponse` | internal/controller/cloudflaretunnelbinding_controller.go:382-393 | From either, the response to the creation is lost and the binding is deleted: a live tunnel is not on record, and nothing keeps finalization from completing |
| `BindingLeaks.LostResponseLeaks` | internal/controller/cloudflaretunnelbinding_controller.go:574-623 | The finalization that follows lets the binding go, and the tunnel lives on |
| `BindingRuns.SettleAll` | internal/controller/cloudflaretunnelbinding_controller.go:192-223 | Inputs frozen and providers healthy, passes over any bindings in any order, any of them with failing calls: every binding whose last pass succeeded without a fault, as did an earlier one, publishes exactly what its plan, a function of the inputs, says, and no two of them publish the same name |
| `BindingRuns.ProgressStep` | internal/controller/cloudflaretunnelbinding_controller.go:93-186 | A pass over one binding brings it a step forward and takes none of the others back |
| `BindingRuns.First` | internal/controller/cloudflaretunnelbinding_controller.go:149-160 | After one successful calm pass the tunnel is as the next plan wants it |
| `BindingRuns.Again` | internal/controller/cloudflaretunnelbinding_controller.go:149-160 | Any number of further passes on unchanged inputs, until one fails, leave the count of CreateTunnel and UpdateConfiguration calls as it was |
| `BindingRuns.Repeat` | internal/controller/cloudflaretunnelbinding_controller.go:149-160 | One more calm pass over a tunnel that is as planned makes no CreateTunnel or UpdateConfiguration call, whether it succeeds or not |
| `BindingRuns.NothingLeft` | internal/planner/planner.go:89-99 | After a successful pass the configuration equals the one the next plan wants |
| `BindingRuns.Retry` | internal/controller/cloudflaretunnelbinding_controller.go:574-623 | Over any number of interrupted attempts what is left never grows, and the binding goes only when it is discharged |
| `BindingRuns.Run` | internal/controller/cloudflaretunnelbinding_controller.go:93-186 | Any sequence of requests and outside changes stays in the invariant: one tunnel, honest conditions, and every binding that was let go discharged |
| `Planner.NormalizeZones` | internal/planner/planner.go:36-51 | The sorted set of canonical zones, or an error exactly when one is not a concrete name |
| `Planner.NormalizeHostnames` | internal/planner/planner.go:54-76 | The sorted sets of accepted and of rejected names |
| `Planner.SortedKeys` | internal/planner/planner.go:125-132 | The strictly ascending list of the keys, whatever the order of iteration |
| `Planner.AscendingUnique` | internal/planner/planner.go:125-132 | There is only one such list |
| `Planner.NormalizedPartition` | internal/planner/planner.go:54-76 | Both outputs ascend and every canonical name but the empty one is in exactly one |
| `Planner.EligibleByLabels` | internal/planner/planner.go:61-67 | The string suffix test accepts exactly names whose labels end with a zone's labels |
| `Planner.NormalizedByElements` | internal/planner/planner.go:54-76 | Order and duplicates of the inputs do not matter |
| `Planner.NormalizedAgain` | internal/planner/planner.go:54-76 | Normalising the accepted list returns it, with nothing rejected |
| `Planner.CanonicalId` | internal/planner/planner.go:58-58 | Canonicalisation leaves concrete names alone |
| `Planner.CanonicalTwice` | internal/planner/planner.go:58-58 | On other text it is not idempotent: an input |
| `Planner.CanonicalIdempotentExactly` | internal/planner/planner.go:58-58 | It is idempotent if and only if the trimmed text does not end in a dot after a dot or after space |
| `Spellings.CanonicalExactly` | internal/planner/planner.go:58-58 | A text is taken for a concrete name if and only if it is that name with any letters in upper case, at most one dot after it, and any space around |
| `Spellings.SpellingsAlike` | internal/planner/planner.go:36-76 | Zones and host names that differ in spelling only are normalised alike |
| `Spellings.SpellingAccepted` | internal/planner/planner.go:58-74 | A host name in any spelling is accepted exactly when it lies in a zone |
| `Spellings.ConcreteExactly` | internal/planner/planner.go:59-59 | The test on labels is this one on characters: at most 253, lower-case letters, digits, hyphens and dots, a letter or digit at either end and at either side of each dot |
| `Planner.IngressRules` | internal/planner/planner.go:79-86 | One rule a name and the catch-all last |
| `Planner.RulesAt` | internal/planner/planner.go:79-86 | The rule at each place: the name and the origin, and at the end http_status:404 for everything else |
| `Planner.EqualIngress` | internal/planner/planner.go:89-99 | True exactly for equal configurations |
| `Planner.RoutesExactly` | internal/planner/planner.go:79-86 | First-match evaluation sends a host to the origin exactly when it is listed, and otherwise to the 404 rule |
| `Planner.EqualRules` | internal/planner/planner.go:89-99 | Canonical configurations are equal exactly when the name sets are, and the origins too when there is a name |
| `Planner.Sanitize` | internal/planner/planner.go:145-163 | The loop computes the specified text |
| `Planner.SanitizedClean` | internal/planner/planner.go:145-163 | Non-empty, within the limit, no hyphen at either end |
| `Planner.SanitizedTwice` | internal/planner/planner.go:145-163 | Sanitising is idempotent |
| `Planner.SanitizedSpells` | internal/planner/planner.go:145-163 | Text that fits and begins and ends with a letter or digit keeps letters, digits and hyphens, in lower case, and has hyphens for the rest |
| `Planner.TunnelNameFits` | internal/planner/planner.go:103-113 | At most 83 bytes, so the cut at 100 never happens |
| `Planner.TunnelNameReads` | internal/planner/planner.go:103-113 | For names that need no change: kflared, the first 8 digits of the cluster's UID, the namespace, the Gateway and the UID, in this order |
| `Planner.TunnelNamesTell` | internal/planner/planner.go:103-113 | Tunnel names of different UIDs differ, whatever the other parts |
| `Planner.TunnelNamesDisjoint` | internal/planner/planner.go:103-113 | No binding's tunnel has the name of a private route's |
| `Planner.KeyInjective` | internal/planner/planner.go:120-122 | The concatenated key determines namespace, name and UID |
| `Planner.KeyOrderIsNotTupleOrder` | internal/planner/planner.go:116-123 | The key order is not the order of the tuples: an input |
| `Planner.SlashOrder` | internal/planner/planner.go:120-122 | Two different texts without slash, each followed by one, compare as they do alone if and only if neither is a proper prefix of the other continued by a character below the slash |
| `Planner.KeyOrderExactly` | internal/planner/planner.go:120-122 | The concatenated keys compare like the tuples if and only if the first differing part, namespace or name, is not cut below in this way |
| `Names.UidOrder` | internal/controller/cloudflaretunnelprivateroute_controller.go:248-248 | UIDs compare as text the way they compare as numbers |
| `Text.LessExactly` | internal/planner/planner.go:122-122 | One text is below another if the other continues it, or it has the smaller character where they first differ |
| `Names.PrivateNamesTell` | internal/controller/cloudflaretunnelprivateroute_controller.go:273-279 | Comments and private tunnel names of different UIDs differ |
| `Names.ChildNamesDisjoint` | internal/controller/cloudflaretunnelprivateroute_controller.go:280-282 | No child of a binding has the name of a child of a private route |
| `Names.ChildNamesCollide` | internal/controller/cloudflaretunnelbinding_controller.go:914-923 | Children of two objects share a name exactly when the first 12 digits of the UIDs agree |
| `Providers.ProviderOutlivesUsers` | internal/controller/clustercloudflareprovider_controller.go:134-158 | A provider, of its class and under the finalizer, stays for as long as somebody trusts it |
| `Providers.EventKeepsInv` | internal/controller/clustercloudflareprovider_controller.go:63-81 | Creations, edits, deletion requests and objects that come to trust a current provider of their class keep provider protection |
| `Providers.ConditionsKeepInv` | internal/controller/clustercloudflareprovider_controller.go:83-131 | Conditions taken before a deletion request cannot be current after it |
| `Providers.ReleaseKeepsInv` | internal/controller/clustercloudflareprovider_controller.go:156-157 | Letting a provider go is safe once nobody of its class trusts it |
| `ProviderReconciliation.ProviderReconciler.Referenced` | internal/controller/clustercloudflareprovider_controller.go:138-155 | Finds a reference if and only if one exists; without one nobody relies on the provider, even later |
| `ProviderReconciliation.ProviderReconciler.Finalize` | internal/controller/clustercloudflareprovider_controller.go:134-158 | The provider goes away exactly when nothing of its class refers to it |
| `ProviderReconciliation.ProviderReconciler.Report` | internal/controller/clustercloudflareprovider_controller.go:83-131 | The conditions are the verdicts on zones, selector and token |
| `ProviderReconciliation.ProviderReconciler.CheckCredentials` | internal/controller/clustercloudflareprovider_controller.go:97-130 | Whichever call fails: an unreadable Secret or a missing token is False, a token the account refuses is never valid, and an account that cannot be asked leaves a usable token open |
| `ProviderReconciliation.ProviderReconciler.Reconcile` | internal/controller/clustercloudflareprovider_controller.go:63-132 | The finalizer comes before any condition, and is not removed while something refers to the provider |
| `Watches.BindingsForObject` | internal/controller/cloudflaretunnelbinding_controller.go:762-796 | The requests are exactly those of the class's bindings that match |
| `Watches.BindingWatchComplete` | internal/controller/cloudflaretunnelbinding_controller.go:762-796 | A change that maps to a binding in neither version leaves its provider, namespace and origin checks and its candidates as they are |
| `Watches.RoutesForObject` | internal/controller/cloudflaretunnelprivateroute_controller.go:599-626 | The requests are exactly those of the class's private routes that match |
| `Watches.RouteWatchComplete` | internal/controller/cloudflaretunnelprivateroute_controller.go:599-626 | A change that does not map to a private route leaves its validation up to the conflict check as it is |
| `Fleet.OnlyReliableProvidersPass` | internal/controller/cloudflaretunnelbinding_controller.go:231-247 | On one state both kinds of validation let an object pass only under a current provider of its class |
| `Fleet.RouteTrustSeen` | internal/controller/cloudflaretunnelprivateroute_controller.go:158-163 | What a private route's reconciler does when it comes to trust its provider is a move that provider protection allows for, and both invariants survive it |
| `Fleet.BindingTrustSeen` | internal/controller/cloudflaretunnelbinding_controller.go:231-247 | and a binding's |
| `Fleet.RouteCreationSeen` | internal/controller/clustercloudflareprovider_controller.go:147-155 | A private route that is created is seen as one more dependent |
| `Fleet.BindingCreationSeen` | internal/controller/clustercloudflareprovider_controller.go:138-146 | and a binding |
| `Fleet.ProvidersStayForRoutes` | internal/controller/clustercloudflareprovider_controller.go:134-158 | Whatever the provider controller and others do to the providers is a change the private-route protocol allows for: trusted providers stay |
| `Fleet.ProvidersStayForBindings` | internal/controller/clustercloudflareprovider_controller.go:134-158 | and one the binding protocol allows for |
| `Fleet.TunnelsKeepProviders` | internal/controller/clustercloudflareprovider_controller.go:134-158 | Whoever has `Status.TunnelID` set has its provider there, of its class and under the finalizer |
| `Fleet.DistinctTunnels` | internal/controller/cloudflaretunnelprivateroute_controller.go:273-276 | Tunnels on record of different bindings and private routes are different |
| `Fleet.BindingTunnelMade` | internal/controller/cloudflaretunnelbinding_controller.go:382-382 | The private-route invariant survives the binding controller's creations |
| `Fleet.BindingTunnelRemoved` | internal/controller/cloudflaretunnelbinding_controller.go:611-611 | and its deletions |
| `Fleet.BindingConfigured` | internal/controller/cloudflaretunnelbinding_controller.go:156-156 | and its configurations |
| `Fleet.RouteTunnelMade` | internal/controller/cloudflaretunnelprivateroute_controller.go:347-347 | The binding invariant survives the private-route controller's creations |
| `Fleet.RouteTunnelRemoved` | internal/controller/cloudflaretunnelprivateroute_controller.go:547-547 | and its deletions |
| `Fleet.RouteRouteMade` | internal/controller/cloudflaretunnelprivateroute_controller.go:399-399 | and the routes it makes |
| `Fleet.RouteRouteRemoved` | internal/controller/cloudflaretunnelprivateroute_controller.go:437-437 | and the routes it removes |

## Left out

- The HTTP client of internal/cloudflare/sdk.go beyond the operations of the `Client` interface, pagination included.
- Caches, informers, work queues, requeue delays, leader election and flags.
- Pod specifications, labels other than the owner's UID, Events, condition messages, and the names of children in the status.
- SHA-256 and IP parsing: the digest in private tunnel names is any text, Service addresses come parsed.
- Label selectors are sets of required labels; set-based requirements are not modelled.
- Replica clamping and the observed generation of a Deployment.
- Text outside ASCII: Unicode case folding and white space in host names, zones and names.
- Garbage collection of a DNSEndpoint through its owner reference; anyone may delete children in the model.
- Requests name objects by UID; a request for a name that another object has taken over is a request for that object,
  except in the failure report of private routes, which reads the object again by name.
- The TunnelName and TunnelCNAME fields of a binding's status, which the reconciler never reads, and its DNS records.
