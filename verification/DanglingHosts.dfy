/** When a VirtualService names a host for which there is no Service. */
module DanglingHosts {
  import opened RouteTypes
  import opened Resources
  import opened Weights
  import opened ServiceBuilder
  import opened VirtualServiceSpec
  import opened BuildProperties
  import opened ClusterStore
  import opened ReconcilePlan
  import opened SettleEffects
  import opened Progress
  import opened Convergence
  import opened CrashRetry
  import opened InterruptedRuns
  import opened UnfinishedFinalization
  import opened EventualFinalization
  import opened Resolution

  ghost predicate HostServed(services: Services, namespace: string, host: string)
  {
    host == PLACEHOLDER_NON_EXISTING_DESTINATION || Key(namespace, host) in services
  }

  ghost predicate RuleServed(services: Services, namespace: string, rule: HttpRoute)
  {
    forall d :: d in rule.destinations ==> HostServed(services, namespace, d.host)
  }

  /** Every host of the VirtualService, but the placeholder, names a stored Service. */
  ghost predicate AllHostsServed(services: Services, virtualServices: VirtualServices, v: VsKey)
  {
    v in virtualServices ==> forall rule :: rule in virtualServices[v].http ==> RuleServed(services, v.namespace, rule)
  }

  /** The rule is that of a stored route of the FQDN. */
  ghost predicate RuleOfStored(routes: Routes, v: VsKey, rule: HttpRoute)
  {
    exists k :: OfFqdn(routes, v, k) && rule == RuleOf(routes[k].route)
  }

  ghost predicate RulesOfStored(routes: Routes, virtualServices: VirtualServices, v: VsKey)
  {
    v in virtualServices ==> forall rule :: rule in virtualServices[v].http ==> RuleOfStored(routes, v, rule)
  }

  /** Everything is up: the VirtualService shows stored routes only, perhaps not all, and the
      Services of every stored route are as built. */
  ghost predicate AllUp(s: Store, v: VsKey)
  {
    && RulesOfStored(s.routes, s.virtualServices, v)
    && forall k :: OfFqdn(s.routes, v, k) ==> ServicesSettled(s.services, s.routes[k].route)
  }

  // ---- rules and Services ----

  lemma SettledRuleIsServed(services: Services, r: Route)
    requires ServicesSettled(services, r)
    ensures RuleServed(services, r.meta.namespace, RuleOf(r))
  {
    hide ServicesSettled, DesiredServices, EmittedWeight, PrefixOf;
    forall d | d in RuleOf(r).destinations
      ensures HostServed(services, r.meta.namespace, d.host)
    {
      if r.spec.destinations != [] {
        var i: nat :| i < |r.spec.destinations| && d == DestinationFor(r, i);
        DesiredNames(r, i);
        SettledServiceAt(services, r, Key(r.meta.namespace, ServiceName(r.spec.destinations[i])));
      }
    }
  }

  lemma MissingServiceShows(services: Services, r: Route, k: Key)
    requires k in DesiredServices(r) && k !in services
    ensures !RuleServed(services, r.meta.namespace, RuleOf(r))
  {
    hide DesiredServices, EmittedWeight, PrefixOf;
    DesiredKeyHasGuid(r, k);
    var d :| d in r.spec.destinations && k.name == ServiceName(d);
    var i: nat :| i < |r.spec.destinations| && r.spec.destinations[i] == d;
    assert RuleOf(r).destinations[i] == DestinationFor(r, i);
    assert DestinationFor(r, i) in RuleOf(r).destinations;
    PlaceholderIsNoService(d);
    assert DestinationFor(r, i).host == k.name;
  }

  lemma StoredRouteNamespace(s: Store, v: VsKey, k: Key)
    requires RoutesOk(s.issued, s.routes) && OfFqdn(s.routes, v, k)
    ensures s.routes[k].route.meta.namespace == v.namespace && k.namespace == v.namespace
  {
    assert RouteOk(s.issued, k, s.routes[k]);
  }

  /** Rules of stored routes whose Services are as built lead somewhere. */
  lemma BackedRulesAreServed(s: Store, services: Services, virtualServices: VirtualServices, v: VsKey, skipped: set<Key>)
    requires RoutesOk(s.issued, s.routes)
    requires v in virtualServices ==> forall rule :: rule in virtualServices[v].http ==>
      exists k :: OfFqdn(s.routes, v, k) && k !in skipped && rule == RuleOf(s.routes[k].route)
    requires forall k :: OfFqdn(s.routes, v, k) && k !in skipped ==> ServicesSettled(services, s.routes[k].route)
    ensures AllHostsServed(services, virtualServices, v)
  {
    hide ServicesSettled, RuleServed, RuleOf;
    if v in virtualServices {
      forall rule | rule in virtualServices[v].http
        ensures RuleServed(services, v.namespace, rule)
      {
        var k :| OfFqdn(s.routes, v, k) && k !in skipped && rule == RuleOf(s.routes[k].route);
        StoredRouteNamespace(s, v, k);
        SettledRuleIsServed(services, s.routes[k].route);
      }
    }
  }

  /** The rules of a rendering are those of its routes. */
  lemma RenderedRules(gateways: seq<string>, s: Store, v: VsKey, group: set<Route>, rule: HttpRoute)
    requires RoutesOk(s.issued, s.routes) && group != {} && group <= GroupOf(s.routes, v.namespace, v.name.fqdn)
    requires rule in DesiredVirtualService(gateways, v.name.fqdn, group).http
    ensures exists k :: OfFqdn(s.routes, v, k) && s.routes[k].route in group && rule == RuleOf(s.routes[k].route)
  {
    hide Rules, RuleOf, GroupOf;
    var order := InUrlOrder(group);
    InUrlOrderElements(group);
    RulesComeFromOwners(order, |order| == 1, rule);
    var r :| r in order && rule == RuleOf(r) && RouteToOwnerRef(r) in OwnerRefs(order);
    assert r in Elements(order);
    GroupMembers(s, v.namespace, v.name.fqdn, r);
    assert OfFqdn(s.routes, v, RouteKey(r));
  }

  // ---- Reconciles other than a finalization of the FQDN ----

  lemma OtherVirtualServicesStay(gateways: seq<string>, s: Store, t: Store, key: Key, v: VsKey)
    requires RoutesOk(s.issued, s.routes) && Interrupted(gateways, s, t, key)
    requires key in s.routes ==> VsKeyOf(s.routes[key].route) != v
    ensures Entry(t.virtualServices, v) == Entry(s.virtualServices, v)
  {
    hide Settle, PartWay, Interrupted, VsAfter, RoutesStay, VirtualServicesStay, ServicesOnTheWay, ServicesBetween,
         VsBetween;
    InterruptedCases(gateways, s, t, key);
    if key in s.routes {
      if t == Settle(gateways, s, key) {
        VirtualServicesMove(gateways, s, key, v);
      } else {
        var ws :| PartWay(gateways, s, t, key, ws);
        PartWayKeeps(gateways, s, t, key, ws);
        EntryElsewhere(s.virtualServices, t.virtualServices, VsKeyOf(s.routes[key].route), v);
      }
    }
  }

  lemma LiveVirtualServiceStays(gateways: seq<string>, s: Store, t: Store, key: Key)
    requires RoutesOk(s.issued, s.routes) && Interrupted(gateways, s, t, key) && key in s.routes && !s.routes[key].deleting
    ensures var v, group := VsKeyOf(s.routes[key].route), SiblingsOf(s.routes, s.routes[key].route);
      && group != {}
      && (|| Entry(t.virtualServices, v) == Entry(s.virtualServices, v)
          || Entry(t.virtualServices, v) == Some(DesiredVirtualService(gateways, s.routes[key].route.FQDN(), group)))
  {
    hide Settle, PartWay, Interrupted, RoutesStay, VirtualServicesStay, ServicesOnTheWay, ServicesBetween,
         DesiredVirtualService, GroupValid, GroupOf;
    var sr := s.routes[key];
    RouteIsItsOwnSibling(s, key);
    InterruptedCases(gateways, s, t, key);
    if t == Settle(gateways, s, key) {
      VirtualServicesMove(gateways, s, key, VsKeyOf(sr.route));
    } else {
      var ws :| PartWay(gateways, s, t, key, ws);
      PartWayKeeps(gateways, s, t, key, ws);
    }
  }

  /** A Reconcile that finalizes no route of the FQDN leaves every host served. */
  lemma OthersLeaveHostsServed(gateways: seq<string>, s: Store, t: Store, key: Key, v: VsKey)
    requires WellFormed(s) && AllUp(s, v) && Interrupted(gateways, s, t, key)
    requires OfFqdn(s.routes, v, key) ==> !s.routes[key].deleting && GuidsDistinct(s.routes[key].route)
    ensures AllHostsServed(t.services, t.virtualServices, v)
  {
    hide WellFormed, ServicesSettled, Interrupted, RuleOf, GuidsDistinct, DesiredVirtualService;
    RoutesOfWellFormed(s);
    forall k | OfFqdn(s.routes, v, k)
      ensures ServicesSettled(t.services, s.routes[k].route)
    {
      OtherServicesStay(gateways, s, t, key, k);
    }
    if OfFqdn(s.routes, v, key) {
      LiveVirtualServiceStays(gateways, s, t, key);
    } else {
      OtherVirtualServicesStay(gateways, s, t, key, v);
    }
    if v in t.virtualServices {
      forall rule | rule in t.virtualServices[v].http
        ensures RuleOfStored(s.routes, v, rule)
      {
        if Entry(t.virtualServices, v) != Entry(s.virtualServices, v) {
          StoredRouteNamespace(s, v, key);
          RenderedRules(gateways, s, v, SiblingsOf(s.routes, s.routes[key].route), rule);
        }
      }
    }
    BackedRulesAreServed(s, t.services, t.virtualServices, v, {});
  }

  // ---- a finalization ----

  lemma UntouchedServicesStaySettled(before: Services, now: Services, r: Route, gone: set<Key>)
    requires ServicesSettled(before, r) && now == before - gone && gone !! DesiredServices(r).Keys
    ensures ServicesSettled(now, r)
  {
    hide DesiredServices;
    forall k
      ensures k in OwnedServices(before, r) <==> k in DesiredServices(r)
    {
    }
    assert OwnedServices(now, r) == OwnedServices(before, r);
  }

  /** The Services of the FQDN's other routes, once some of the route's own are deleted. */
  lemma SiblingsKeepServices(s: Store, services: Services, key: Key, v: VsKey, gone: set<Key>)
    requires WellFormed(s) && AllUp(s, v) && OfFqdn(s.routes, v, key)
    requires services == s.services - gone && gone <= DesiredServices(s.routes[key].route).Keys
    ensures forall k :: OfFqdn(s.routes, v, k) && k != key ==> ServicesSettled(services, s.routes[k].route)
  {
    hide ServicesSettled, DesiredServices, NoGuidInCommon, RulesOfStored;
    forall k | OfFqdn(s.routes, v, k) && k != key
      ensures ServicesSettled(services, s.routes[k].route)
    {
      ServicesSeparate(s, k, key);
      UntouchedServicesStaySettled(s.services, services, s.routes[k].route, gone);
    }
  }

  lemma OnlySiblingsRules(s: Store, key: Key, v: VsKey)
    requires RulesOfStored(s.routes, s.virtualServices, v) && OfFqdn(s.routes, v, key)
    requires v in s.virtualServices ==> RuleOf(s.routes[key].route) !in s.virtualServices[v].http
    ensures v in s.virtualServices ==> forall rule :: rule in s.virtualServices[v].http ==>
      exists k :: OfFqdn(s.routes, v, k) && k !in {key} && rule == RuleOf(s.routes[k].route)
  {
    hide RuleOf;
    if v in s.virtualServices {
      forall rule | rule in s.virtualServices[v].http
        ensures exists k :: OfFqdn(s.routes, v, k) && k !in {key} && rule == RuleOf(s.routes[k].route)
      {
        assert RuleOfStored(s.routes, v, rule);
        var k :| OfFqdn(s.routes, v, k) && rule == RuleOf(s.routes[k].route);
        assert k !in {key};
      }
    }
  }

  /** As long as the VirtualService has not been rewritten. */
  lemma HostsWhileDeleting(gateways: seq<string>, s: Store, t: Store, key: Key, dels: seq<Key>, n: nat, v: VsKey)
    requires WellFormed(s) && AllUp(s, v) && Finalizes(s, key) && v == VsKeyOf(s.routes[key].route)
    requires StopsAfter(gateways, s, t, key, dels, n) && n <= |dels|
    ensures var r := s.routes[key].route;
      !AllHostsServed(t.services, t.virtualServices, v) <==>
      n > 0 && v in s.virtualServices && RuleOf(r) in s.virtualServices[v].http && r.spec.destinations != []
  {
    hide WellFormed, StopsAfter, ServicesSettled, RuleOf, RuleServed, DesiredServices, HasFinalizer;
    var r, gone := s.routes[key].route, Elements(dels[..n]);
    RoutesOfWellFormed(s);
    WhileDeleting(gateways, s, t, key, dels, n);
    StopsDels(gateways, s, t, key, dels, n);
    assert OfFqdn(s.routes, v, key);
    SettledServicesAreDoomed(s, key, dels);
    assert forall k :: k in gone ==> k in dels;
    SiblingsKeepServices(s, t.services, key, v, gone);
    if n > 0 && v in s.virtualServices && RuleOf(r) in s.virtualServices[v].http {
      assert dels[0] in dels && dels[..n][0] in gone;
      MissingServiceShows(t.services, r, dels[0]);
      StoredRouteNamespace(s, v, key);
    } else if n == 0 {
      assert t.services == s.services;
      BackedRulesAreServed(s, t.services, t.virtualServices, v, {});
    } else {
      OnlySiblingsRules(s, key, v);
      BackedRulesAreServed(s, t.services, t.virtualServices, v, {key});
    }
  }

  lemma RetiredRules(gateways: seq<string>, s: Store, virtualServices: VirtualServices, key: Key)
    requires RoutesOk(s.issued, s.routes) && key in s.routes && GroupValid(Rest(s, s.routes[key]))
    requires virtualServices == RetiredVirtualServices(gateways, s.virtualServices, s.routes[key].route, Rest(s, s.routes[key]))
    ensures var v := VsKeyOf(s.routes[key].route);
      v in virtualServices ==> forall rule :: rule in virtualServices[v].http ==>
        exists k :: OfFqdn(s.routes, v, k) && k !in {key} && rule == RuleOf(s.routes[k].route)
  {
    hide GroupValid, DesiredVirtualService, RuleOf, GroupOf;
    var v, rest := VsKeyOf(s.routes[key].route), Rest(s, s.routes[key]);
    if v in virtualServices {
      forall rule | rule in virtualServices[v].http
        ensures exists k :: OfFqdn(s.routes, v, k) && k !in {key} && rule == RuleOf(s.routes[k].route)
      {
        RenderedRules(gateways, s, v, rest, rule);
        var k :| OfFqdn(s.routes, v, k) && s.routes[k].route in rest && rule == RuleOf(s.routes[k].route);
        assert k !in {key};
      }
    }
  }

  /** Once it has been. */
  lemma HostsOnceRewritten(gateways: seq<string>, s: Store, t: Store, key: Key, dels: seq<Key>, n: nat, v: VsKey)
    requires WellFormed(s) && AllUp(s, v) && Finalizes(s, key) && v == VsKeyOf(s.routes[key].route)
    requires StopsAfter(gateways, s, t, key, dels, n) && n > |dels|
    ensures GroupValid(Rest(s, s.routes[key])) && AllHostsServed(t.services, t.virtualServices, v)
  {
    hide WellFormed, StopsAfter, ServicesSettled, RuleOf, RuleServed, DesiredServices, HasFinalizer, Plan, RetirementPlan,
         GroupValid, DesiredVirtualService, GroupOf, Settle, RulesOfStored;
    var sr := s.routes[key];
    RoutesOfWellFormed(s);
    StopsDels(gateways, s, t, key, dels, n);
    StopsWithin(gateways, s, t, key, dels, n);
    PlanOfFinalization(gateways, s, key, dels);
    ServicesOfStage(gateways, s, t, key, dels, n);
    assert dels[..|dels|] == dels && OfFqdn(s.routes, v, key);
    if n == |RetirementPlan(gateways, s, sr, dels)| {
      WhenRetired(gateways, s, t, key, dels, n);
    } else {
      WhenDone(gateways, s, t, key, dels, n);
      SettledVirtualServicesOfFinalization(gateways, s, key);
    }
    SettledServicesAreDoomed(s, key, dels);
    SiblingsKeepServices(s, t.services, key, v, Elements(dels));
    RetiredRules(gateways, s, t.virtualServices, key);
    BackedRulesAreServed(s, t.services, t.virtualServices, v, {key});
  }

  // ---- main results ----

  lemma UpIsServed(s: Store, v: VsKey)
    requires RoutesOk(s.issued, s.routes) && AllUp(s, v)
    ensures AllHostsServed(s.services, s.virtualServices, v)
  {
    hide ServicesSettled, RuleOf, RuleServed;
    BackedRulesAreServed(s, s.services, s.virtualServices, v, {});
  }

  /** Exactly when a Reconcile, of any route and stopped anywhere or not at all, leaves a
      VirtualService with a host that has no Service, if all was up before: the route is one
      of the FQDN and is being finalized, the VirtualService shows it and it has destinations;
      and the Reconcile has sent something, but has not come to rewrite the VirtualService,
      be it that it stopped before or that the remaining routes do not build. */
  lemma HostsLeftWithoutServiceIff(gateways: seq<string>, s: Store, t: Store, key: Key, dels: seq<Key>, n: nat, v: VsKey)
    requires WellFormed(s) && AllUp(s, v) && StopsAfter(gateways, s, t, key, dels, n)
    requires OfFqdn(s.routes, v, key) ==> s.routes[key].deleting || GuidsDistinct(s.routes[key].route)
    ensures !AllHostsServed(t.services, t.virtualServices, v) <==>
      && OfFqdn(s.routes, v, key) && Finalizes(s, key) && s.routes[key].route.spec.destinations != []
      && v in s.virtualServices && RuleOf(s.routes[key].route) in s.virtualServices[v].http
      && n > 0 && (GroupValid(Rest(s, s.routes[key])) ==> n + 2 <= |Plan(gateways, s, key, true, dels)|)
  {
    hide WellFormed, StopsAfter, AllUp, AllHostsServed, RuleOf, Plan, RetirementPlan, GroupValid, GroupOf,
         GuidsDistinct, HasFinalizer;
    RoutesOfWellFormed(s);
    assert Interrupted(gateways, s, t, key);
    if OfFqdn(s.routes, v, key) && Finalizes(s, key) {
      PlanOfFinalization(gateways, s, key, dels);
      StopsWithin(gateways, s, t, key, dels, n);
      if n <= |dels| {
        HostsWhileDeleting(gateways, s, t, key, dels, n, v);
      } else {
        HostsOnceRewritten(gateways, s, t, key, dels, n, v);
      }
    } else if OfFqdn(s.routes, v, key) && s.routes[key].deleting {
      NothingToStop(gateways, s, t, key, dels, n);
      UpIsServed(s, v);
    } else {
      OthersLeaveHostsServed(gateways, s, t, key, v);
    }
  }

  // ---- for good ----

  /** No finalization of the FQDN finds remaining routes that build. */
  ghost predicate Stuck(routes: Routes, v: VsKey)
  {
    forall d :: OfFqdn(routes, v, d) && routes[d].deleting ==>
      !GroupValid(GroupOf(routes, v.namespace, v.name.fqdn) - {routes[d].route})
  }

  lemma StuckCannotGo(routes: Routes, v: VsKey)
    requires Stuck(routes, v)
    ensures !SomeCanGo(routes, v)
  {
    hide GroupValid, GroupOf;
  }

  lemma StuckStays(s: Store, t: Store, v: VsKey)
    requires RoutesOk(s.issued, s.routes) && RoutesOk(t.issued, t.routes) && SameRoutesOf(s.routes, t.routes, v) && Stuck(s.routes, v)
    ensures Stuck(t.routes, v)
  {
    hide GroupValid, GroupOf;
    SameGroup(s, t, v);
  }

  /** While it is stuck, the VirtualService stays what it was. */
  lemma StuckVirtualServiceStays(gateways: seq<string>, s: Store, key: Key, v: VsKey, d: Key)
    requires RoutesOk(s.issued, s.routes) && key in s.routes && Stuck(s.routes, v)
    requires OfFqdn(s.routes, v, d) && s.routes[d].deleting
    ensures Entry(Settle(gateways, s, key).virtualServices, v) == Entry(s.virtualServices, v)
  {
    hide Settle, GroupValid, GroupOf, DesiredVirtualService;
    var group := GroupOf(s.routes, v.namespace, v.name.fqdn);
    EmptyGroupIsValid();
    if GroupValid(group) {
      SubgroupValid(group, group - {s.routes[d].route});
    }
    VirtualServicesMove(gateways, s, key, v);
  }

  lemma NamesStayGone(gateways: seq<string>, s: Store, key: Key, last: Key, k: Key)
    requires WellFormed(s) && key in s.routes && last in s.routes && k in DesiredServices(s.routes[key].route)
    requires s.routes[key].deleting && HasFinalizer(s.routes[key])
    requires k !in s.services || (last == key && k in OwnedServices(s.services, s.routes[key].route))
    ensures k !in Settle(gateways, s, last).services
  {
    hide Settle, DesiredServices, ServicesMove, NoGuidInCommon, HasFinalizer;
    SettleMovesServices(gateways, s, last);
    if last != key {
      ServicesSeparate(s, last, key);
    }
    MoveAt(s.services, s.routes[last], k);
  }

  ghost predicate AllGone(services: Services, r: Route)
  {
    forall k :: k in DesiredServices(r) ==> k !in services
  }

  /** The route's Services are there as built, or are all gone. */
  ghost predicate ThereOrGone(services: Services, r: Route)
  {
    ServicesSettled(services, r) || AllGone(services, r)
  }

  lemma ThereOrGoneStep(gateways: seq<string>, s: Store, key: Key, last: Key)
    requires WellFormed(s) && key in s.routes && last in s.routes && ThereOrGone(s.services, s.routes[key].route)
    requires s.routes[key].deleting && HasFinalizer(s.routes[key])
    ensures var t := Settle(gateways, s, last);
      && ThereOrGone(t.services, s.routes[key].route)
      && (last == key || AllGone(s.services, s.routes[key].route) ==> AllGone(t.services, s.routes[key].route))
  {
    hide Settle, DesiredServices, WellFormed, HasFinalizer;
    var r, t := s.routes[key].route, Settle(gateways, s, last);
    if last == key || AllGone(s.services, r) {
      forall k | k in DesiredServices(r)
        ensures k !in t.services
      {
        if ServicesSettled(s.services, r) {
          assert k in OwnedServices(s.services, r);
        }
        NamesStayGone(gateways, s, key, last, k);
      }
    } else {
      ServicesStaySettled(gateways, s, last, key);
    }
  }

  lemma StuckFinalizerStays(gateways: seq<string>, s: Store, key: Key, last: Key)
    requires RoutesOk(s.issued, s.routes) && Finalizes(s, key) && Stuck(s.routes, VsKeyOf(s.routes[key].route)) && last in s.routes
    ensures key in Settle(gateways, s, last).routes && Settle(gateways, s, last).routes[key] == s.routes[key]
  {
    hide Settle, GroupValid, GroupOf, Without;
    if last == key {
      assert OfFqdn(s.routes, VsKeyOf(s.routes[key].route), key);
      RoutesMove(gateways, s, key);
    } else {
      RoutesMoveElsewhere(gateways, s, last, key);
    }
  }

  lemma DanglesStep(gateways: seq<string>, s: Store, key: Key, last: Key)
    requires WellFormed(s) && Finalizes(s, key) && Stuck(s.routes, VsKeyOf(s.routes[key].route)) && last in s.routes
    requires ThereOrGone(s.services, s.routes[key].route)
    ensures var t, r, v := Settle(gateways, s, last), s.routes[key].route, VsKeyOf(s.routes[key].route);
      && WellFormed(t) && Finalizes(t, key) && t.routes[key].route == r && Stuck(t.routes, v)
      && Entry(t.virtualServices, v) == Entry(s.virtualServices, v)
      && ThereOrGone(t.services, r) && (last == key || AllGone(s.services, r) ==> AllGone(t.services, r))
  {
    hide Settle, WellFormed, Stuck, ThereOrGone, AllGone, GroupValid, GroupOf, SomeCanGo, HasFinalizer;
    var v, t := VsKeyOf(s.routes[key].route), Settle(gateways, s, last);
    RoutesOfWellFormed(s);
    WellFormedAfter(gateways, s, last);
    RoutesOfWellFormed(t);
    StuckCannotGo(s.routes, v);
    BlockedStep(gateways, s, last, v);
    StuckStays(s, t, v);
    assert OfFqdn(s.routes, v, key);
    StuckVirtualServiceStays(gateways, s, last, v, key);
    ThereOrGoneStep(gateways, s, key, last);
    StuckFinalizerStays(gateways, s, key, last);
  }

  /** What stays, however often which routes are reconciled. */
  lemma {:induction false} StuckFinalizationStays(gateways: seq<string>, s: Store, keys: seq<Key>, key: Key)
    requires WellFormed(s) && Finalizes(s, key) && Stuck(s.routes, VsKeyOf(s.routes[key].route))
    requires ThereOrGone(s.services, s.routes[key].route)
    ensures var t, r, v := SettleAll(gateways, s, keys), s.routes[key].route, VsKeyOf(s.routes[key].route);
      && WellFormed(t) && Finalizes(t, key) && t.routes[key].route == r && Stuck(t.routes, v)
      && Entry(t.virtualServices, v) == Entry(s.virtualServices, v)
      && ThereOrGone(t.services, r) && (key in keys ==> AllGone(t.services, r))
  {
    hide Settle, WellFormed, Stuck, ThereOrGone, AllGone, GroupValid, GroupOf;
    if keys != [] {
      var init, last := keys[..|keys| - 1], keys[|keys| - 1];
      var t, v := SettleAll(gateways, s, init), VsKeyOf(s.routes[key].route);
      StuckFinalizationStays(gateways, s, init, key);
      assert key in keys ==> key in init || key == last;
      if last in t.routes {
        DanglesStep(gateways, t, key, last);
      } else {
        SettleAbsent(gateways, t, last);
      }
    }
  }

  /** A route that is marked for deletion, whose Services are as built and which the
      VirtualService shows, in a stuck FQDN: once it has been reconciled the VirtualService
      names hosts without a Service, and no request for any route ever mends that. */
  lemma DanglesForGood(gateways: seq<string>, s: Store, keys: seq<Key>, key: Key)
    requires WellFormed(s) && Finalizes(s, key) && Stuck(s.routes, VsKeyOf(s.routes[key].route)) && key in keys
    requires var r, v := s.routes[key].route, VsKeyOf(s.routes[key].route);
      && ServicesSettled(s.services, r) && r.spec.destinations != []
      && v in s.virtualServices && RuleOf(r) in s.virtualServices[v].http
    ensures var t, v := SettleAll(gateways, s, keys), VsKeyOf(s.routes[key].route);
      key in t.routes && !AllHostsServed(t.services, t.virtualServices, v)
  {
    hide SettleAll, WellFormed, Stuck, ServicesSettled, RuleOf, RuleServed, DesiredServices;
    var t, r, v := SettleAll(gateways, s, keys), s.routes[key].route, VsKeyOf(s.routes[key].route);
    StuckFinalizationStays(gateways, s, keys, key);
    NoDestinationsNoServices(r);
    var k :| k in DesiredServices(r);
    MissingServiceShows(t.services, r, k);
    assert Entry(t.virtualServices, v) == Entry(s.virtualServices, v);
  }
}
