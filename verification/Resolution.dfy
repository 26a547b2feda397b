/** End to end: where a request goes. The settled cluster objects, read as Istio and
    Kubernetes read them, give the answer that the Route resources ask for. */
module Resolution {
  import opened RouteTypes
  import opened Resources
  import opened Weights
  import opened ServiceBuilder
  import opened VirtualServiceSpec
  import opened LongestPrefix
  import opened ClusterStore
  import opened ReconcilePlan
  import opened SettleEffects
  import opened Progress
  import opened Convergence
  import opened BuildProperties

  datatype Target =
    | Reaches(selector: map<string, string>, ports: seq<ServicePort>, weight: int32, setHeaders: map<string, string>)
    | Unreachable(host: string)

  // ---- through the cluster: first matching rule, then the Service of each host ----

  function TargetOf(services: Services, namespace: string, d: HttpDestination): Target
  {
    var k := Key(namespace, d.host);
    if k in services then Reaches(services[k].selector, services[k].ports, d.weight, d.setHeaders) else Unreachable(d.host)
  }

  function Targets(services: Services, namespace: string, ds: seq<HttpDestination>): seq<Target>
  {
    seq(|ds|, i requires 0 <= i < |ds| => TargetOf(services, namespace, ds[i]))
  }

  function Resolve(s: Store, v: VsKey, path: string): Option<seq<Target>>
  {
    if v !in s.virtualServices then None else
      match FirstMatch(s.virtualServices[v].http, path)
      case None => None
      case Some(rule) => Some(Targets(s.services, v.namespace, rule.destinations))
  }

  // ---- directly from a Route resource ----

  function WantedTarget(r: Route, i: nat): Target
    requires i < |r.spec.destinations|
  {
    var d := r.spec.destinations[i];
    Reaches(
      d.matchLabels,
      [ServicePort("http", ToInt32(d.port))],
      EmittedWeight(r.spec.destinations, i),
      map["CF-App-Id" := d.appGuid,
          "CF-App-Process-Type" := d.processType,
          "CF-Space-Id" := LabelOf(r.meta.labels, "cloudfoundry.org/space_guid"),
          "CF-Organization-Id" := LabelOf(r.meta.labels, "cloudfoundry.org/org_guid")])
  }

  function WantedTargets(r: Route): seq<Target>
  {
    if r.spec.destinations == [] then [Unreachable(PLACEHOLDER_NON_EXISTING_DESTINATION)]
    else seq(|r.spec.destinations|, i requires 0 <= i < |r.spec.destinations| => WantedTarget(r, i))
  }

  /** A request resolves to exactly what the route of the group with the longest matching path
      asks for, and to nothing only if no route of the group can serve it. */
  ghost predicate ResolvesAsWanted(s: Store, v: VsKey, path: string, group: set<Route>)
  {
    match Resolve(s, v, path)
    case None => forall r :: r in group ==> !Serves(r, |group| == 1, path)
    case Some(targets) => exists r :: IsLongestMatch(r, group, path) && targets == WantedTargets(r)
  }

  // ---- assumptions on the data ----

  /** Cloud Controller's promises about the routes of one FQDN. */
  ghost predicate Promised(group: set<Route>, fqdn: string)
  {
    && UrlsUnique(group)
    && forall r :: r in group ==> r.UrlIsFqdnAndPath() && r.FQDN() == fqdn && GuidsDistinct(r)
  }

  // ---- Services behind the hosts ----

  lemma SettledServiceAt(services: Services, r: Route, k: Key)
    requires ServicesSettled(services, r) && k in DesiredServices(r)
    ensures k in services && services[k] == DesiredServices(r)[k] && OwnedBy(services[k], r.meta.uid)
  {
    assert k in OwnedServices(services, r);
  }

  /** A rule's hosts lead to what its route wants. */
  lemma RuleReachesWanted(s: Store, v: VsKey, r: Route)
    requires ServicesSettled(s.services, r) && GuidsDistinct(r) && r.meta.namespace == v.namespace
    requires Key(v.namespace, PLACEHOLDER_NON_EXISTING_DESTINATION) !in s.services
    ensures Targets(s.services, v.namespace, RuleOf(r).destinations) == WantedTargets(r)
  {
    var got, wanted := Targets(s.services, v.namespace, RuleOf(r).destinations), WantedTargets(r);
    if r.spec.destinations != [] {
      forall i: nat | i < |got|
        ensures got[i] == wanted[i]
      {
        hide ServicesSettled, DesiredServices, EmittedWeight;
        DesiredServiceAt(r, i);
        SettledServiceAt(s.services, r, Key(r.meta.namespace, ServiceName(r.spec.destinations[i])));
      }
      assert got == wanted;
    }
  }

  // ---- main results ----

  lemma LongestIsMember(r: Route, group: set<Route>, path: string)
    requires IsLongestMatch(r, group, path)
    ensures r in group
  {
  }

  lemma SettledGroup(gateways: seq<string>, s: Store, v: VsKey)
    requires FqdnSettled(gateways, s, v)
    requires GroupOf(s.routes, v.namespace, v.name.fqdn) != {}
    ensures var group := GroupOf(s.routes, v.namespace, v.name.fqdn);
      v in s.virtualServices && s.virtualServices[v] == Render(gateways, v.name.fqdn, InUrlOrder(group))
  {
    hide Render, ServicesSettled;
  }

  lemma SettledMember(gateways: seq<string>, s: Store, v: VsKey, r: Route)
    requires RoutesOk(s.issued, s.routes) && FqdnSettled(gateways, s, v) && r in GroupOf(s.routes, v.namespace, v.name.fqdn)
    ensures ServicesSettled(s.services, r) && r.meta.namespace == v.namespace
  {
    hide ServicesSettled, VsSettled;
    GroupMembers(s, v.namespace, v.name.fqdn, r);
  }

  /** Longest match for the rendering of a group. */
  lemma FirstMatchOfGroup(gateways: seq<string>, group: set<Route>, fqdn: string, path: string)
    requires group != {} && Promised(group, fqdn)
    ensures match FirstMatch(DesiredVirtualService(gateways, fqdn, group).http, path)
      case None => forall r :: r in group ==> !Serves(r, |group| == 1, path)
      case Some(rule) => exists r :: IsLongestMatch(r, group, path) && rule == RuleOf(r)
  {
    hide Render, IsLongestMatch, Serves, FirstMatch, InUrlOrder;
    var order := InUrlOrder(group);
    InUrlOrderElements(group);
    InUrlOrderIsSorted(group);
    forall r
      ensures r in order <==> r in group
    {
      assert r in order <==> r in Elements(order);
    }
    FirstMatchIsLongestMatch(gateways, fqdn, order, order, path);
  }

  /** Once the FQDN is settled, resolving any request for it through the VirtualService and the
      Services gives exactly the destinations, ports, weights and headers of the route with the
      longest matching path, the placeholder for a lone route without destinations, and
      nothing only if no route can serve the request. */
  lemma EndToEnd(gateways: seq<string>, s: Store, v: VsKey, path: string)
    requires RoutesOk(s.issued, s.routes) && FqdnSettled(gateways, s, v)
    requires GroupOf(s.routes, v.namespace, v.name.fqdn) != {}
    requires Promised(GroupOf(s.routes, v.namespace, v.name.fqdn), v.name.fqdn)
    requires Key(v.namespace, PLACEHOLDER_NON_EXISTING_DESTINATION) !in s.services
    ensures ResolvesAsWanted(s, v, path, GroupOf(s.routes, v.namespace, v.name.fqdn))
  {
    hide Render, IsLongestMatch, Targets, Serves, FirstMatch, FqdnSettled, GroupOf, InUrlOrder, GuidsDistinct, WantedTargets, RuleOf,
         RoutesOk, ServicesSettled;
    var group, fqdn := GroupOf(s.routes, v.namespace, v.name.fqdn), v.name.fqdn;
    SettledGroup(gateways, s, v);
    FirstMatchOfGroup(gateways, group, fqdn, path);
    var matched := FirstMatch(DesiredVirtualService(gateways, fqdn, group).http, path);
    if matched.Some? {
      var r :| IsLongestMatch(r, group, path) && matched.value == RuleOf(r);
      LongestIsMember(r, group, path);
      SettledMember(gateways, s, v, r);
      RuleReachesWanted(s, v, r);
    }
  }

  lemma DesiredNames(r: Route, i: nat)
    requires i < |r.spec.destinations|
    ensures Key(r.meta.namespace, ServiceName(r.spec.destinations[i])) in DesiredServices(r)
  {
    ListedAreDesired(DesiredServiceList(r), i);
    assert DesiredServiceList(r)[i] == DesiredService(r, r.spec.destinations[i]);
  }

  lemma RuleHasOwner(gateways: seq<string>, s: Store, v: VsKey, rule: HttpRoute)
    requires RoutesOk(s.issued, s.routes) && FqdnSettled(gateways, s, v)
    requires GroupOf(s.routes, v.namespace, v.name.fqdn) != {} && v in s.virtualServices
    requires rule in s.virtualServices[v].http
    ensures exists r :: r in GroupOf(s.routes, v.namespace, v.name.fqdn) && rule == RuleOf(r)
                        && RouteToOwnerRef(r) in s.virtualServices[v].owners
  {
    var group := GroupOf(s.routes, v.namespace, v.name.fqdn);
    var order := InUrlOrder(group);
    SettledGroup(gateways, s, v);
    hide FqdnSettled, Rules, GroupOf, RuleOf;
    InUrlOrderElements(group);
    RulesComeFromOwners(order, |order| == 1, rule);
    var r :| r in order && rule == RuleOf(r) && RouteToOwnerRef(r) in OwnerRefs(order);
    assert r in Elements(order);
  }

  /** Referential integrity: once the FQDN is settled every host of its VirtualService, except the
      placeholder, names a stored Service that belongs to one of its owners. */
  lemma HostsHaveServices(gateways: seq<string>, s: Store, v: VsKey, rule: HttpRoute, d: HttpDestination)
    requires RoutesOk(s.issued, s.routes) && FqdnSettled(gateways, s, v)
    requires GroupOf(s.routes, v.namespace, v.name.fqdn) != {} && v in s.virtualServices
    requires rule in s.virtualServices[v].http && d in rule.destinations
    ensures d.host != PLACEHOLDER_NON_EXISTING_DESTINATION ==>
      && Key(v.namespace, d.host) in s.services
      && exists o :: o in s.virtualServices[v].owners && OwnedBy(s.services[Key(v.namespace, d.host)], o.uid)
  {
    hide FqdnSettled, ServicesSettled, DesiredServices, GroupOf, Owned, EmittedWeight, PrefixOf, RoutesOk, DesiredService;
    RuleHasOwner(gateways, s, v, rule);
    var r :| r in GroupOf(s.routes, v.namespace, v.name.fqdn) && rule == RuleOf(r) && RouteToOwnerRef(r) in s.virtualServices[v].owners;
    SettledMember(gateways, s, v, r);
    if r.spec.destinations != [] {
      var i: nat :| i < |r.spec.destinations| && d == DestinationFor(r, i);
      var k := Key(r.meta.namespace, ServiceName(r.spec.destinations[i]));
      DesiredNames(r, i);
      SettledServiceAt(s.services, r, k);
      assert RouteToOwnerRef(r).uid == r.meta.uid;
    }
  }

  // ---- end to end after convergence ----

  lemma {:induction false} ServiceNamesStart(list: seq<Service>)
    requires forall i :: 0 <= i < |list| ==> |list[i].name| > 0 && list[i].name[0] == 's'
    ensures forall k :: k in ServicesByKey(list) ==> |k.name| > 0 && k.name[0] == 's'
  {
    if list != [] {
      ServiceNamesStart(list[..|list| - 1]);
    }
  }

  lemma PlaceholderIsNotDesired(r: Route, namespace: string)
    ensures Key(namespace, PLACEHOLDER_NON_EXISTING_DESTINATION) !in DesiredServices(r)
  {
    ServiceNamesStart(DesiredServiceList(r));
  }

  /** No Reconcile creates a Service that could answer for the placeholder host. */
  lemma PlaceholderNotSettled(gateways: seq<string>, s: Store, key: Key, namespace: string)
    requires Key(namespace, PLACEHOLDER_NON_EXISTING_DESTINATION) !in s.services
    ensures Key(namespace, PLACEHOLDER_NON_EXISTING_DESTINATION) !in Settle(gateways, s, key).services
  {
    if key in s.routes {
      PlaceholderIsNotDesired(s.routes[key].route, namespace);
      SettleMovesServices(gateways, s, key);
      MoveAt(s.services, s.routes[key], Key(namespace, PLACEHOLDER_NON_EXISTING_DESTINATION));
    }
  }

  lemma {:induction false} PlaceholderAbsentAfterAll(gateways: seq<string>, s: Store, keys: seq<Key>, namespace: string)
    requires Key(namespace, PLACEHOLDER_NON_EXISTING_DESTINATION) !in s.services
    ensures Key(namespace, PLACEHOLDER_NON_EXISTING_DESTINATION) !in SettleAll(gateways, s, keys).services
  {
    if keys != [] {
      hide Settle;
      PlaceholderAbsentAfterAll(gateways, s, keys[..|keys| - 1], namespace);
      PlaceholderNotSettled(gateways, SettleAll(gateways, s, keys[..|keys| - 1]), keys[|keys| - 1], namespace);
    }
  }

  /** The live routes of an FQDN. */
  ghost function LiveGroup(s: Store, v: VsKey): set<Route>
  {
    set k | k in s.routes && !s.routes[k].deleting && k.namespace == v.namespace && s.routes[k].route.FQDN() == v.name.fqdn :: s.routes[k].route
  }

  lemma LiveGroupRemains(s: Store, t: Store, v: VsKey)
    requires RoutesOk(s.issued, s.routes) && LiveRemain(s, t, v)
    ensures GroupOf(t.routes, v.namespace, v.name.fqdn) == LiveGroup(s, v)
  {
    forall k | k in s.routes
      ensures VsKeyOf(s.routes[k].route) == v <==> k.namespace == v.namespace && s.routes[k].route.FQDN() == v.name.fqdn
    {
      assert RouteOk(s.issued, k, s.routes[k]);
    }
  }

  lemma LiveGroupHasKey(s: Store, v: VsKey) returns (key: Key)
    requires RoutesOk(s.issued, s.routes) && LiveGroup(s, v) != {}
    ensures key in s.routes && VsKeyOf(s.routes[key].route) == v
  {
    var r :| r in LiveGroup(s, v);
    key :| key in s.routes && key.namespace == v.namespace && s.routes[key].route.FQDN() == v.name.fqdn;
    assert RouteOk(s.issued, key, s.routes[key]);
  }

  /** From any store with well-formed routes and arbitrary children, once each route of the
      FQDN has had a successful Reconcile, requests go where the FQDN's live Routes, read
      directly, say they should: however many Reconciles there were, of whichever routes, and
      whatever became of the other FQDNs. */
  lemma EndToEndAfterConvergence(gateways: seq<string>, s: Store, keys: seq<Key>, v: VsKey, path: string)
    requires WellFormed(s) && OnlyOurFinalizer(s.routes, v) && FqdnSucceeds(gateways, s, keys, v)
    requires LiveGroup(s, v) != {} && Promised(LiveGroup(s, v), v.name.fqdn)
    requires Key(v.namespace, PLACEHOLDER_NON_EXISTING_DESTINATION) !in s.services
    ensures ResolvesAsWanted(SettleAll(gateways, s, keys), v, path, LiveGroup(s, v))
  {
    hide FqdnSettled, LiveRemain, FqdnSucceeds, SettleAll, Resolve, WellFormed, Promised, LiveGroup, StatesOf;
    var t := SettleAll(gateways, s, keys);
    RoutesOfWellFormed(s);
    var key := LiveGroupHasKey(s, v);
    SettleAllConverges(gateways, s, keys, key);
    SettleAllWellFormed(gateways, s, keys);
    RoutesOfWellFormed(t);
    LiveGroupRemains(s, t, v);
    PlaceholderAbsentAfterAll(gateways, s, keys, v.namespace);
    EndToEnd(gateways, t, v, path);
  }
}
