# RouteController: a verified model

RouteController turns Cloud Foundry `Route` resources into Kubernetes `Service`s (one per
destination) and Istio `VirtualService`s (one per FQDN). It is two things at once, and this
project models both and proves that they fit together.

**A compiler.** `Build` groups routes by FQDN, sorts each group by descending URL and emits
prefix rules, of which Istio takes the first that matches. Cloud Foundry promises that the
*longest* matching path wins. The project proves that the string sort delivers this, that
weights total 100, which route lists are refused, and that the order of the input never shows.

**A reconciler.** `Reconcile` reads a route afresh, guards it with a finalizer, and creates,
updates and deletes the children. The project proves what holds at *every* state the API server
ever has, whatever others do between two calls and whichever calls fail; and, from an arbitrary
state of the children, what a sequence of Reconciles leads to while nobody else acts, although
any of them may fail at any call and leave its work half done.

## How it is built

| file | content |
|---|---|
| `GoStrings`, `GoSort` | Go's string order; `sort.Slice`, in place and of unspecified stability |
| `RouteTypes`, `Resources` | the custom resource, the child objects, Go's 64-bit and 32-bit integers |
| `Weights` | declared, accepted and emitted traffic weights |
| `ObjectFields` | what a Service, a rule, a VirtualService and a list of them must contain, field by field, in terms of the Route resources alone |
| `ServiceBuilder`, `VirtualServiceSpec`, `VirtualServiceBuilder` | the builders: specification and imperative code |
| `RenderFields`, `Grouping` | that specification against `ObjectFields`: rules, groups, whole lists, and what is refused |
| `LongestPrefix`, `BuildProperties` | what the built objects mean; partition, order independence, ownership |
| `ClusterStore` | the server's state, the controller's writes, everybody else's steps, the invariants |
| `ApiServer` | the server as a class: other parties act and calls fail, before or after taking effect |
| `ReconcilePlan` | the writes one Reconcile intends, and the state they lead to (`Settle`) |
| `RouteController`, `RouteReconciler` | the controller's helpers and its methods, against the two specifications below |
| `SettleEffects`, `Progress` | what `Settle` does to each part of the store; what is settled, the measure of unfinished work |
| `Convergence`, `InterruptedRuns` | runs of Reconciles, complete or stopped part way |
| `UnfinishedFinalization`, `DanglingHosts` | exactly what a Reconcile undoes, and when a host is left without a Service |
| `WriteOrder` | nothing is taken away before what replaces it is there |
| `WorkQueue` | a queue of requests, at the level of the methods |
| `CrashRetry`, `NonInterference` | stopping after any write and trying again; frames and commutation |
| `Outcomes`, `EventualFinalization` | what a single Reconcile achieves, and exactly when the obvious claims fail |
| `Resolution`, `QueueResolution` | end to end: where a request goes, in a settled FQDN and after a queue with failures |
| `SettledFields` | a settled FQDN against `ObjectFields` |

Each controller method is proved against two specifications at once, from any store that an API
server can hold (`StoreOk`), arbitrary children included. *Safety* is part of `ApiServer.Valid`,
object by object: in `past`, the list of all states so far, a Service or VirtualService that is
safe in one state is safe in every later one, whatever the other objects are like, and those that
the controller has written are safe. It needs no assumption about failures or other parties. A
Service is safe while its first owner is stored and holds the finalizer, a VirtualService while it
renders routes of its own FQDN; objects that are not stored count as safe. `Valid` also records,
for every write that took effect, the state in which it was sent and that it was allowed there:
no write ever touches another party's finalizer. *Effect* is `Follows`:
as long as nobody else acts, the writes sent are a prefix of `Plan`, all of it unless a call
failed. Pure lemmas then show that the plan leads to `Settle`, and what any number of Reconciles
leads to, of which some carry out their plan and some only a part of it.

## Assumptions

- One worker, linearizable reads. A route's host and domain never change. UIDs are never reused.
- Only the controller removes its own finalizer; for the convergence of an FQDN it is also the only
  one on the routes of that FQDN that are marked for deletion.
- The SHA-256 digest in VirtualService names is a free constructor: collision free, otherwise unknown.
- A route's URL is its FQDN followed by its path, and URLs are distinct within an FQDN, wherever
  longest match or determinism is claimed (Cloud Controller's contract for the field). Without
  it, `LongestPrefix.LongestMatchIffUnshadowed` says exactly which rule lists are right.
- Destination GUIDs are distinct across the routes of a namespace (`Progress.GuidsSeparate`) for
  convergence (commutation asks only that the two routes name no Service in common), and within one
  route (`Progress.GuidsDistinct`) for resolution
  (`EndToEnd` and what builds on it) and for the Services of a live route whose Reconcile stops part way.
- No stored Service is called "no-destinations", for resolution; `QueueResolution.PlaceholderStaysAbsent`
  shows that no Reconcile creates one, wherever it stops.
- Nothing is assumed about whether routes build, except in `ValidConverges` (every FQDN) and, for two
  routes of one FQDN, in `AnyTwoCommute` (that FQDN); where success is needed, it is asked of the
  FQDN in question only.
- Go's `int` is 64 bits wide; `port` is present, as the CRD requires.
- Everybody else may create and edit routes, mark them for deletion and delete child objects.

## Where the obvious claim is false

- *Accepted weights are percentages.* The total is 64-bit, only the total is checked, and what is
  emitted has 32 bits. [2^31, 100 - 2^31] is accepted and emits a total of 100 - 2^32
  (`WrongTotalIsEmitted`); see also `OverflowIsAccepted`, `NegativeWeightsAreAccepted` and
  `PercentagesByAccident`. For every accepted list: the weights arrive as declared and total 100
  if and only if each fits in 32 bits and the true total is 100 (`ExplicitWeightsAreKept`); they
  arrive as declared and are percentages if and only if none is negative and the total does not
  overflow (`ExplicitWeightsArePercentages`); the emitted total is 100 if and only if the true one
  exceeds 100 by what the conversion takes away (`EmittedTotalIff`). Modulo 2^32 it always is.
- *Finalization deletes the VirtualService of the last route.* A failed read other than NotFound
  is passed over and the finalizer is given up all the same: `LostReadLeaksIff`, `LeakStays`.
- *A route marked for deletion goes away eventually.* One Reconcile releases it if and only if the
  remaining routes of its FQDN build (`FinalizationCompletesIff`). Over any number of Reconciles
  that is not the condition: another route that is marked for deletion may go first. It can ever
  go if and only if the controller's finalizer is its only one, and some route of its FQDN that is
  marked for deletion and has no other finalizer, itself or another, is such that the routes
  without that one build (`EventuallyFinalizedIff`); and then it does go within two rounds of
  requests in any order (`FairlyFinalized`). One live route with invalid weights, or any two routes
  with invalid weights, block the FQDN for good (`InvalidPairBlocks`).
- *A route marked for deletion is no longer shown.* Siblings keep it in the VirtualService until
  it is finalized: `DeletingSiblingsAreStillServed`. No route is kept longer than that:
  `OwnersAreTheStoredRoutes`.
- *A failed Reconcile undoes nothing.* A finalization does, from the simplest settled state
  (`FailedFinalizationUndoes`). Services that were as built are wrong after a Reconcile that stopped
  after n writes if and only if they are those of the reconciled route, it is being finalized and
  has destinations, and n > 0 (`ServicesUndoneIff`). A VirtualService that was as built is wrong
  if and only if it is that of the route's own FQDN, the route is being finalized, the remaining
  routes build, and just the last write is missing, or none is but somebody else's finalizer keeps
  the route (`VirtualServiceUndoneIff`). Later successes make up for it (`QueueConverges`).
- *Every host in a VirtualService has a Service.* So it is in a settled FQDN (`HostsHaveServices`). If
  all is up before a Reconcile, it leaves a host without a Service if and only if it finalizes a
  route of the FQDN that is shown and has destinations, has sent a write, and has not come to
  rewrite the VirtualService, be it for a failure or because the remaining routes do not build
  (`HostsLeftWithoutServiceIff`). In the second case no request mends it while no finalization of
  the FQDN finds routes that build (`DanglesForGood`).
- *An FQDN's VirtualService has rules.* Several routes, none with destinations, give none: `NoRulesIff`.

## Model

| member | source | states |
|---|---|---|
| GoStrings.ExtensionIsGreater | routecontroller/resourcebuilders/virtual_service_builder.go:183-187 | behind any common host, a path that extends another gives a strictly greater URL in Go's string order |
| GoStrings.LessIff | routecontroller/resourcebuilders/virtual_service_builder.go:173-187 | one string is less than another exactly when it is a proper prefix or has the smaller character where they first differ |
| RouteTypes.SameDomainSharesFqdnIff | routecontroller/apis/networking/v1alpha1/route_types.go:102-107 | two routes of one domain share their FQDN exactly when they have the same host; `FqdnIsSpelled` says how it is spelled from the fields |
| VirtualServiceBuilder.SortRoutes | routecontroller/resourcebuilders/virtual_service_builder.go:183-187 | the in-place sort leaves a permutation of the slice in descending URL order; nothing is promised about ties |
| VirtualServiceBuilder.SortFQDNs | routecontroller/resourcebuilders/virtual_service_builder.go:173-181 | whatever order the map is iterated in, the result lists its keys once each, strictly ascending |
| VirtualServiceBuilder.GroupByFQDN | routecontroller/resourcebuilders/virtual_service_builder.go:164-171 | every route of the list is in the group of the name that its host and domain spell, as often as in the list and in list order, and in no other; each group is held in an array that did not exist before and that no other shares |
| Grouping.OneDomainOneHost | routecontroller/resourcebuilders/virtual_service_builder.go:164-171 | two routes of one domain are in one group only if their hosts are equal |
| VirtualServiceBuilder.ValidateRoutesForFQDN | routecontroller/resourcebuilders/virtual_service_builder.go:130-153 | accepted if and only if any two routes have the same namespace and the same internal flag; an error names two routes that disagree |
| VirtualServiceBuilder.ValidateWeights | routecontroller/resourcebuilders/virtual_service_builder.go:251-276 | two destinations of which one sets a weight and one does not are refused, with that error; otherwise accepted if and only if none sets one or the true total is 100 modulo 2^64 |
| VirtualServiceBuilder.DestinationsToHttpRouteDestinations | routecontroller/resourcebuilders/virtual_service_builder.go:209-249 | fails exactly on refused weights; otherwise one destination per entry, each with its own host, its four headers and the low 32 bits of its weight or its share of 100 |
| VirtualServiceBuilder.FqdnToVirtualService | routecontroller/resourcebuilders/virtual_service_builder.go:65-128 | succeeds if and only if the whole group is valid; the result has the FQDN as its only host and in its annotation, the gateway mesh for internal routes and the configured ones otherwise, one owner for each route and one rule, with that route's path and destinations, for each that has destinations or is alone |
| VirtualServiceBuilder.Build | routecontroller/resourcebuilders/virtual_service_builder.go:47-63 | fails if and only if two routes of one name differ in namespace or internal flag or a route has refused weights; otherwise exactly one VirtualService for each name spelled by a route of the list, with the fields above for exactly the routes of that name; the caller's list is not modified |
| Grouping.ListValidIff | routecontroller/resourcebuilders/virtual_service_builder.go:47-63 | a list is refused exactly when two of its routes clash or one has refused weights |
| RenderFields.RenderShowsGroup | routecontroller/resourcebuilders/virtual_service_builder.go:65-128 | whatever the order, the rendering of a valid group has, field by field, what each of its routes asks for, and nothing else |
| ServiceBuilder.Build | routecontroller/resourcebuilders/service_builder.go:23-51 | one Service per destination, in order: its name, its one owner, exactly three labels and one annotation, selector and port are those of that destination and route |
| Resources.PlaceholderIsNoService | routecontroller/resourcebuilders/virtual_service_builder.go:197-207 | no destination's Service name can equal the placeholder host |
| Weights.DefaultWeights | routecontroller/resourcebuilders/virtual_service_builder.go:236-247 | for any number n of destinations the default weights total exactly 100, lie in 0..100, and the first exceeds each other by 100 mod n |
| Weights.AcceptedWeightsTotalModulo | routecontroller/resourcebuilders/virtual_service_builder.go:231-276 | whatever was declared, the 32-bit weights of an accepted list total 100 modulo 2^32 |
| Weights.ConversionIsExact | routecontroller/resourcebuilders/virtual_service_builder.go:231-233 | declared and emitted weights coincide if and only if every declared one fits in 32 bits |
| Weights.EmittedTotalIff | routecontroller/resourcebuilders/virtual_service_builder.go:231-233 | explicit weights, accepted or not, total 100 as emitted if and only if their true total exceeds 100 by what the conversion to 32 bits takes away |
| Weights.ExplicitWeightsAreKept | routecontroller/resourcebuilders/virtual_service_builder.go:251-276 | accepted weights reach Istio as declared and total 100 if and only if each fits in 32 bits and their true total is 100 |
| Weights.ExplicitWeightsArePercentages | routecontroller/resourcebuilders/virtual_service_builder.go:251-276 | accepted weights reach Istio as declared, each in 0..100 and 100 in total, if and only if none is negative and their true total does not overflow |
| Weights.OverflowIsAccepted | routecontroller/resourcebuilders/virtual_service_builder.go:263-275 | three non-negative weights that are accepted because the total wraps, and are emitted as -1, -1, 102 |
| Weights.NegativeWeightsAreAccepted | routecontroller/resourcebuilders/virtual_service_builder.go:263-275 | weights -50 and 150 are accepted and emitted |
| Weights.WrongTotalIsEmitted | routecontroller/resourcebuilders/virtual_service_builder.go:231-276 | weights 2^31 and 100 - 2^31 are accepted, and what is emitted totals 100 - 2^32 |
| Weights.PercentagesByAccident | routecontroller/resourcebuilders/virtual_service_builder.go:231-276 | weights 50 - 2^32 and 50 + 2^32 are accepted and emitted as 50 and 50 |
| BuildProperties.RuleWeightsTotal | routecontroller/resourcebuilders/virtual_service_builder.go:95-125 | every rule of a valid group is the lone placeholder or carries its route's weights: percentages by default, 100 modulo 2^32 always, exactly 100, and as declared, under the exact conditions above |
| LongestPrefix.FirstMatchOfRules | routecontroller/resourcebuilders/virtual_service_builder.go:95-125 | for any request path the first matching rule is that of the first listed route that can serve it |
| LongestPrefix.LongestMatchIffUnshadowed | routecontroller/resourcebuilders/virtual_service_builder.go:93-125 | for any order of routes: first match is longest match for all request paths if and only if no route is shadowed by an earlier shorter prefix |
| LongestPrefix.UrlSortUnshadows | routecontroller/resourcebuilders/virtual_service_builder.go:183-187 | the descending URL sort shadows no route |
| LongestPrefix.FirstMatchIsLongestMatch | routecontroller/resourcebuilders/virtual_service_builder.go:93-125 | for any group, any descending order of it and any request path, the first matching rule is that of a route with the longest matching path; none matches only if no route serves the path |
| LongestPrefix.LongestMatchIsUnique | routecontroller/resourcebuilders/virtual_service_builder.go:93-125 | with distinct URLs there is only one longest match |
| LongestPrefix.NoRulesIff | routecontroller/resourcebuilders/virtual_service_builder.go:106-110 | the rule list is empty exactly when two or more routes share the FQDN and none has destinations |
| VirtualServiceSpec.SortIsCanonical | routecontroller/resourcebuilders/virtual_service_builder.go:183-187 | with distinct URLs every descending arrangement of the same routes is the same list |
| BuildProperties.GroupingPartitions | routecontroller/resourcebuilders/virtual_service_builder.go:164-171 | grouping is a partition of the list as a multiset, into non-empty groups |
| BuildProperties.BuildIsOrderIndependent | routecontroller/resourcebuilders/virtual_service_builder.go:47-63 | for every permutation of the list the verdict is the same, and with distinct URLs the whole output too |
| BuildProperties.OwnersArePermuted | routecontroller/resourcebuilders/virtual_service_builder.go:95-96 | owner references are a permutation of the group's routes |
| BuildProperties.RulesComeFromOwners | routecontroller/resourcebuilders/virtual_service_builder.go:95-125 | every rule is that of a route that is among the owners |
| ClusterStore.EnvStepKeepsObjectsSafe | routecontroller/controllers/networking/route_controller.go:72-98 | no step of other parties makes any single Service or VirtualService unsafe, whatever the other objects are like |
| ClusterStore.WriteKeepsObjectsSafe | routecontroller/controllers/networking/route_controller.go:72-98 | nor does a write of the kinds the controller sends, and what it puts is safe |
| ClusterStore.EnvStepKeepsSafe | routecontroller/controllers/networking/route_controller.go:72-98 | no step of other parties breaks finalizer safety, VirtualService ownership or the server's own invariants |
| ClusterStore.WriteKeepsSafe | routecontroller/controllers/networking/route_controller.go:72-98 | no write of the kinds the controller sends breaks them either |
| ApiServerModel.WritesKeepOtherFinalizers | routecontroller/controllers/networking/route_controller.go:72-76 | whatever others do: every write of the controller leaves the finalizers of other parties, and their order, as they were in the state in which it was sent |
| ClusterStore.NoServiceOutlivesItsRoute | routecontroller/controllers/networking/route_controller.go:72-98 | the first owner of a safe Service is a stored route that holds the finalizer |
| ClusterStore.OrphanIsCollectable | routecontroller/resourcebuilders/virtual_service_builder.go:95-96 | a safe VirtualService has owners, and once no route of its FQDN is stored none of them exists any more |
| Outcomes.EveryRuleHasAnOwner | routecontroller/resourcebuilders/virtual_service_builder.go:65-128 | every rule of a safe VirtualService comes from an owner of the same namespace and FQDN |
| RouteController.FindServicesForDeletion | routecontroller/controllers/networking/route_controller.go:202-219 | the nested loops return, in order, exactly the actual Services that share no key with a desired one |
| RouteController.UndesiredIsFilter | routecontroller/controllers/networking/route_controller.go:202-219 | a Service stays in the result, at its place, exactly when no desired one has its name and namespace |
| RouteController.UndesiredKeys | routecontroller/controllers/networking/route_controller.go:202-219 | the keys returned are the set difference of actual and desired keys, each once |
| RouteController.HasFinalizerNamed | routecontroller/controllers/networking/route_controller.go:257-264 | true if and only if the name is among the finalizers |
| RouteController.RemoveRouteFromRouteList | routecontroller/controllers/networking/route_controller.go:266-274 | the in-place shift removes the first route of that name and leaves the array beyond the new length alone |
| RouteController.RemoveFirstIsFilter | routecontroller/controllers/networking/route_controller.go:266-274 | when names are unique the shift is the order-preserving filter |
| RouteReconciliation.RouteReconciler.DeleteServiceList | routecontroller/controllers/networking/route_controller.go:221-230 | on success none of the Services is stored; the deletions sent are a prefix of the list, in order; no object loses its safety |
| RouteReconciliation.RouteReconciler.ReconcileServices | routecontroller/controllers/networking/route_controller.go:103-133 | no object loses its safety at any state; the writes follow the plan: all desired Services, then the owned ones, read beforehand, that are not desired |
| RouteReconciliation.RouteReconciler.ReconcileVirtualServices | routecontroller/controllers/networking/route_controller.go:135-158 | no object loses its safety at any state; nothing is written if the routes do not build, otherwise the one VirtualService built from them |
| RouteReconciliation.RouteReconciler.FinalizeRouteForDeletion | routecontroller/controllers/networking/route_controller.go:160-200 | no object loses its safety at any state; Services first, then the VirtualService, the finalizer last, and not at all if the remaining routes do not build; a lost read is passed over |
| RouteReconciliation.RouteReconciler.Reconcile | routecontroller/controllers/networking/route_controller.go:54-101 | from any store, arbitrary children included: no object loses its safety at any state, under any interleaving and failure, and what the controller writes is safe; undisturbed, the writes are a prefix of the plan; without failures the store is settled, with an error exactly when the routes do not build, which names routes at fault; and no error means settled even if calls failed, unless a read was passed over |
| WorkQueue.ProcessQueue | routecontroller/controllers/networking/route_controller.go:54-101 | any sequence of requests, from any store: no object loses its safety; undisturbed and without failures it settles each in turn, with an error exactly where the routes do not build; undisturbed, whatever fails other than a read that is passed over, every FQDN each of whose routes had one request that returned no error ends up settled, with exactly its live routes, shown field by field on the configured gateway or the mesh, and requests to it go where these say |
| ReconcilePlan.PlanAchievesSettle | routecontroller/controllers/networking/route_controller.go:54-200 | the writes, in the code's order, lead to the settled state, whatever the children were before |
| Progress.OwnServicesAfter | routecontroller/controllers/networking/route_controller.go:103-133 | after a live Reconcile the Services indexed under the route are exactly the desired ones |
| Progress.ServicesFrame | routecontroller/controllers/networking/route_controller.go:103-133 | Services that the route neither owns nor names are unchanged |
| Progress.Progresses | routecontroller/controllers/networking/route_controller.go:54-200 | routes to finalize, plus live routes and FQDNs not as built, never grow in number, and strictly drop when the Reconcile succeeds and the route or its FQDN was counted, or the route's Services were not as built; other FQDNs need not build |
| Progress.MeasureZeroIffSettled | routecontroller/controllers/networking/route_controller.go:54-200 | the measure is zero if and only if nothing is left to do |
| Convergence.FqdnConverges | routecontroller/controllers/networking/route_controller.go:54-200 | one FQDN, whatever happens to the others: after Reconciles in any order, complete or stopped part way, of which each route of the FQDN had a complete and successful one, its deleting routes are gone, its live ones there and building, their Services exactly as built, and the VirtualService as built, or absent with the last route |
| Convergence.Converges | routecontroller/controllers/networking/route_controller.go:54-200 | from arbitrary children, Reconciles in any order, each route having had a successful one: all deleting routes are gone and everything is settled, whether or not other Reconciles found routes that do not build |
| Convergence.ValidConverges | routecontroller/controllers/networking/route_controller.go:54-200 | if every FQDN builds, one request for each route is enough |
| InterruptedRuns.InterruptedAdvances | routecontroller/controllers/networking/route_controller.go:54-200 | a Reconcile that stops after any of its writes keeps what was achieved for any route or FQDN, but for the Services of the reconciled route and the VirtualService of its FQDN while the route is marked for deletion and stored |
| UnfinishedFinalization.ServicesUndoneIff | routecontroller/controllers/networking/route_controller.go:160-171 | Services that were as built are wrong after n writes if and only if they are the reconciled route's own, it is being finalized and has destinations, and n > 0 |
| UnfinishedFinalization.VirtualServiceUndoneIff | routecontroller/controllers/networking/route_controller.go:173-197 | a VirtualService that was as built is wrong after n writes if and only if it is that of the FQDN of a route being finalized whose remaining routes build, and only the last write is missing, or none but another party's finalizer keeps the route |
| UnfinishedFinalization.FailedFinalizationUndoes | routecontroller/controllers/networking/route_controller.go:160-200 | for any route with destinations, a settled store in which both happen |
| DanglingHosts.HostsLeftWithoutServiceIff | routecontroller/controllers/networking/route_controller.go:160-197 | from a state in which all is up, exactly which Reconciles, stopped where, leave a VirtualService with a host that has no Service |
| DanglingHosts.DanglesForGood | routecontroller/controllers/networking/route_controller.go:160-197 | in an FQDN none of whose finalizations finds routes that build, the hosts of a deleting route stay in the VirtualService without Services under any requests |
| InterruptedRuns.QueueConverges | routecontroller/controllers/networking/route_controller.go:54-200 | requests that may each stop part way settle every FQDN each of whose routes had one that returned no error, at whatever time |
| CrashRetry.CrashThenRetry | routecontroller/controllers/networking/route_controller.go:54-200 | stopping after any number of writes and reconciling again gives the state of one uninterrupted Reconcile |
| CrashRetry.SettleIsIdempotent | routecontroller/controllers/networking/route_controller.go:54-200 | a second Reconcile changes nothing |
| InterruptedRuns.FinalizersOfInterrupted | routecontroller/controllers/networking/route_controller.go:72-76 | after a Reconcile, complete or stopped, the other parties' finalizers of every stored route are the same in the same order; a live route's are the old ones with the controller's at the end if it was missing |
| WriteOrder.LiveOrder | routecontroller/controllers/networking/route_controller.go:67-133 | wherever a live Reconcile stops: a Service has been touched only if the route holds the finalizer, one has been deleted only if all desired ones are there, the VirtualService has been rewritten only if the Services are exactly the desired ones |
| WriteOrder.FinalizationOrder | routecontroller/controllers/networking/route_controller.go:160-200 | wherever a finalization stops: the VirtualService has been touched only if no Service of the route is left, the route only if the VirtualService shows the remaining routes alone or is gone with the last |
| NonInterference.WritesOnlyItsOwn | routecontroller/controllers/networking/route_controller.go:54-200 | only the route, the VirtualService of its FQDN and namespace, and Services it owns or names change |
| NonInterference.DifferentFqdnsCommute | routecontroller/controllers/networking/route_controller.go:54-200 | Reconciles of routes with different FQDNs commute on the whole store, valid or not |
| NonInterference.AnyTwoCommute | routecontroller/controllers/networking/route_controller.go:54-200 | Reconciles of any two routes with disjoint Service names commute, deleting or live: those of different FQDNs always, those of one FQDN if its routes build and the controller alone can finalize the two |
| Outcomes.DeletionOutcome | routecontroller/controllers/networking/route_controller.go:160-200 | after a finalization the route is gone, owns no Service, and its FQDN's VirtualService is absent or renders exactly the remaining routes |
| Outcomes.LostReadLeaksIff | routecontroller/controllers/networking/route_controller.go:177-195 | after a lost read the finalizer is given up all the same, and the outcome is right if and only if there was no VirtualService |
| Outcomes.LeakStays | routecontroller/controllers/networking/route_controller.go:173-187 | no later Reconcile removes a VirtualService whose FQDN has no route |
| Outcomes.FinalizationCompletesIff | routecontroller/controllers/networking/route_controller.go:188-197 | one Reconcile makes the route go if and only if the remaining routes of its FQDN build |
| Outcomes.LiveRouteSettlesIff | routecontroller/controllers/networking/route_controller.go:135-140 | the VirtualService is up to date after a live Reconcile if and only if the FQDN's routes build, or it was before |
| EventualFinalization.EventuallyFinalizedIff | routecontroller/controllers/networking/route_controller.go:160-200 | some sequence of requests makes a deleting route go if and only if it has no foreign finalizer and the FQDN's routes build without some deleting route of which the same is true |
| EventualFinalization.FairlyFinalized | routecontroller/controllers/networking/route_controller.go:160-200 | and then it goes within any two rounds of requests, in any order and among any others, a round containing each deleting route of the FQDN |
| EventualFinalization.BlockedForGood | routecontroller/controllers/networking/route_controller.go:188-192 | if there is no such route, no sequence of requests ever changes which routes of the FQDN are stored |
| EventualFinalization.InvalidPairBlocks | routecontroller/controllers/networking/route_controller.go:188-192 | one live route with invalid weights, or any two routes, keep every route of the FQDN stored for good |
| Outcomes.DeletingSiblingsAreStillServed | routecontroller/controllers/networking/route_controller.go:67-95 | a live Reconcile keeps siblings marked for deletion among owners and rules |
| Outcomes.OwnersAreTheStoredRoutes | routecontroller/controllers/networking/route_controller.go:67-95 | after it the owners are exactly the stored routes of the FQDN |
| Resolution.EndToEnd | routecontroller/resourcebuilders/virtual_service_builder.go:95-125 | once its FQDN is settled any request resolves, through first matching rule and Services, to the selectors, ports, weights and headers of the route with the longest matching path |
| SettledFields.SettledFqdnShown | routecontroller/resourcebuilders/virtual_service_builder.go:65-128 | once an FQDN whose routes build is settled, its VirtualService has the gateways, hosts, owners and rules that its routes ask for, and every Service indexed under a route the labels, annotation, selector and port of one of its destinations |
| SettledFields.ShownAfterQueue | routecontroller/controllers/networking/route_controller.go:54-200 | so it is after a queue of requests of which any may fail at any call, once each route of the FQDN had one that returned no error |
| Resolution.EndToEndAfterConvergence | routecontroller/controllers/networking/route_controller.go:54-200 | the same for the FQDN's live routes once each of its routes has had a successful Reconcile, from arbitrary children and whatever becomes of other FQDNs |
| QueueResolution.EndToEndAfterQueue | routecontroller/controllers/networking/route_controller.go:54-200 | the same for a queue of requests of which any may fail at any call, once each route of the FQDN had one that returned no error |
| QueueResolution.PlaceholderStaysAbsent | routecontroller/resourcebuilders/virtual_service_builder.go:197-207 | no Reconcile, wherever it stops, creates a Service that could answer for the placeholder host |
| Resolution.HostsHaveServices | routecontroller/resourcebuilders/virtual_service_builder.go:218-218 | once the FQDN is settled every host but the placeholder names a stored Service that belongs to an owner of the VirtualService |

## Left out

- Process wiring, configuration, logging, leader election: no logic of the controller.
- Caches, the work queue's timing and requeue delays: any route may be reconciled next.
- Fields the mutate functions do not assign (target port, cluster IP, status): a create-or-update is modelled as replacing the object by the desired one.
- RouteReconciliation.RouteReconciler.ReconcileServices: a create-or-update that finds the object as desired sends nothing; it is recorded as a write that changes nothing.
- VirtualServiceBuilder.GroupByFQDN: every append makes a new array; Go may extend the slice's own array in place.
- VirtualServiceBuilder.SortRoutes: the library's sorting algorithm is replaced by an in-place insertion sort behind the library's contract.
- Outcomes.LostReadLeaksIff: the read fails while nobody else acts; under interference only safety is stated.
- Convergence.Converges: undisturbed Reconciles only; there is no statement about how soon other parties fall silent.
- WorkQueue.ProcessQueue: the settled outcome excludes runs in which a read of a VirtualService is passed over; `Outcomes.LostReadLeaksIff` and `Outcomes.LeakStays` say what those lead to.
- Error messages: an error carries the routes it names, not its text.
- A route whose host or domain is edited: the VirtualService of the old FQDN is not cleaned up by the code.
- A destination without a port: the CRD requires one.
- `destinationsForFQDN`, `cloneLabels`, `boolPtr`, `intPtr` and the generated deep copies: unused or mechanical.
