/** Exactly what is undone by a Reconcile that stops part way: the Services of a route whose
    finalization has begun, and the VirtualService of its FQDN. */
module UnfinishedFinalization {
  import opened RouteTypes
  import opened Resources
  import opened ServiceBuilder
  import opened VirtualServiceSpec
  import opened BuildProperties
  import opened ClusterStore
  import opened ReconcilePlan
  import opened SettleEffects
  import opened Progress
  import opened Convergence
  import opened CrashRetry
  import opened InterruptedRuns

  ghost predicate Finalizes(s: Store, key: Key)
  {
    key in s.routes && s.routes[key].deleting && HasFinalizer(s.routes[key])
  }

  // ---- the stages of a finalization ----

  lemma PlanOfFinalization(gateways: seq<string>, s: Store, key: Key, dels: seq<Key>)
    requires Finalizes(s, key)
    ensures var sr, v := s.routes[key], VsKeyOf(s.routes[key].route);
      && Plan(gateways, s, key, true, dels) == RetirementPlan(gateways, s, sr, dels) + ReleasePlan(sr, Rest(s, sr))
      && (!GroupValid(Rest(s, sr)) ==> Plan(gateways, s, key, true, dels) == DeleteServices(dels))
      && (GroupValid(Rest(s, sr)) ==>
            && |Plan(gateways, s, key, true, dels)| == |RetirementPlan(gateways, s, sr, dels)| + 1
            && |RetirementPlan(gateways, s, sr, dels)| == |dels| + if Rest(s, sr) != {} || v in s.virtualServices then 1 else 0)
  {
    hide GroupValid, DesiredVirtualService, GroupOf, Without;
    EmptyGroupIsValid();
  }

  /** As long as only Services have been deleted. */
  lemma WhileDeleting(gateways: seq<string>, s: Store, t: Store, key: Key, dels: seq<Key>, n: nat)
    requires Finalizes(s, key) && StopsAfter(gateways, s, t, key, dels, n) && n <= |dels|
    ensures t == s.(services := s.services - Elements(dels[..n]))
  {
    hide DoomedAt, RetirePlan, ReleasePlan;
    assert Plan(gateways, s, key, true, dels)[..n] == DeleteServices(dels[..n]);
    DeleteServicesEffect(s, dels[..n]);
  }

  /** When all is done but to give up the finalizer. */
  lemma WhenRetired(gateways: seq<string>, s: Store, t: Store, key: Key, dels: seq<Key>, n: nat)
    requires RoutesOk(s.issued, s.routes) && Finalizes(s, key) && StopsAfter(gateways, s, t, key, dels, n)
    requires n == |RetirementPlan(gateways, s, s.routes[key], dels)|
    ensures var sr := s.routes[key];
      && t.routes == s.routes && t.services == s.services - Elements(dels)
      && t.virtualServices == RetiredVirtualServices(gateways, s.virtualServices, sr.route, Rest(s, sr))
  {
    hide DoomedAt, RetirePlan, ReleasePlan, RetiredVirtualServices, Plan;
    var sr := s.routes[key];
    var retire := RetirePlan(gateways, s.virtualServices, sr.route, Rest(s, sr), true);
    PlanOfFinalization(gateways, s, key, dels);
    assert Plan(gateways, s, key, true, dels)[..n] == DeleteServices(dels) + retire;
    SiblingsShareNamespace(s, sr.route.meta.namespace, sr.route.FQDN());
    DeleteServicesEffect(s, dels);
    var s1 := ApplyAll(s, DeleteServices(dels));
    RetirePlanEffect(gateways, s1, sr.route, Rest(s, sr));
    ApplyAllConcat(s, DeleteServices(dels), retire);
  }

  lemma WhenDone(gateways: seq<string>, s: Store, t: Store, key: Key, dels: seq<Key>, n: nat)
    requires RoutesOk(s.issued, s.routes) && StopsAfter(gateways, s, t, key, dels, n)
    requires n == |Plan(gateways, s, key, true, dels)|
    ensures t == Settle(gateways, s, key)
  {
    hide Plan, DoomedAt, Settle;
    assert Plan(gateways, s, key, true, dels)[..n] == Plan(gateways, s, key, true, dels);
    PlanAchievesSettle(gateways, s, key, dels);
  }

  // ---- the VirtualService of the FQDN ----

  /** With and without a route, a group is rendered differently: the owners differ. */
  lemma RenderingsDiffer(gateways: seq<string>, s: Store, key: Key)
    requires RoutesOk(s.issued, s.routes) && key in s.routes && Rest(s, s.routes[key]) != {}
    ensures var r, group := s.routes[key].route, SiblingsOf(s.routes, s.routes[key].route);
      && group != {}
      && DesiredVirtualService(gateways, r.FQDN(), group) != DesiredVirtualService(gateways, r.FQDN(), group - {r})
  {
    hide Rules, GroupOf;
    var r, group := s.routes[key].route, SiblingsOf(s.routes, s.routes[key].route);
    assert RouteOk(s.issued, key, s.routes[key]);
    GroupMembers(s, r.meta.namespace, r.FQDN(), r);
    OwnersOfGroup(group, RouteToOwnerRef(r));
    OwnersOfGroup(group - {r}, RouteToOwnerRef(r));
    forall x | x in group && RouteToOwnerRef(x) == RouteToOwnerRef(r)
      ensures x == r
    {
      GroupMembers(s, r.meta.namespace, r.FQDN(), x);
    }
  }

  /** The VirtualService no longer shows a route that is still stored. */
  lemma RetiredIsUnsettled(gateways: seq<string>, s: Store, t: Store, key: Key)
    requires RoutesOk(s.issued, s.routes) && key in s.routes && GroupValid(Rest(s, s.routes[key]))
    requires var r := s.routes[key].route;
      && SiblingsOf(t.routes, r) == SiblingsOf(s.routes, r)
      && t.virtualServices == RetiredVirtualServices(gateways, s.virtualServices, r, Rest(s, s.routes[key]))
    ensures !VsSettled(gateways, t.routes, t.virtualServices, VsKeyOf(s.routes[key].route))
  {
    hide GroupValid, DesiredVirtualService, GroupOf;
    var r := s.routes[key].route;
    assert RouteOk(s.issued, key, s.routes[key]);
    GroupMembers(s, r.meta.namespace, r.FQDN(), r);
    if Rest(s, s.routes[key]) != {} {
      RenderingsDiffer(gateways, s, key);
    }
  }

  /** The VirtualService has been rewritten, and the route is still stored. */
  ghost predicate BetweenRewriteAndEnd(gateways: seq<string>, s: Store, key: Key, dels: seq<Key>, n: nat)
  {
    && Finalizes(s, key) && GroupValid(Rest(s, s.routes[key]))
    && var writes := |Plan(gateways, s, key, true, dels)|;
    n + 1 == writes || (n == writes && !OursAlone(s.routes[key].finalizers))
  }

  lemma SettledFqdnHasVirtualService(gateways: seq<string>, s: Store, key: Key)
    requires RoutesOk(s.issued, s.routes) && key in s.routes
    requires VsSettled(gateways, s.routes, s.virtualServices, VsKeyOf(s.routes[key].route))
    ensures VsKeyOf(s.routes[key].route) in s.virtualServices
  {
    assert RouteOk(s.issued, key, s.routes[key]);
    GroupMembers(s, key.namespace, s.routes[key].route.FQDN(), s.routes[key].route);
  }

  lemma StopsWithin(gateways: seq<string>, s: Store, t: Store, key: Key, dels: seq<Key>, n: nat)
    requires StopsAfter(gateways, s, t, key, dels, n)
    ensures n <= |Plan(gateways, s, key, true, dels)|
  {
    hide Plan, DoomedAt;
  }

  lemma SettledVirtualServicesOfFinalization(gateways: seq<string>, s: Store, key: Key)
    requires Finalizes(s, key)
    ensures Settle(gateways, s, key).virtualServices ==
            RetiredVirtualServices(gateways, s.virtualServices, s.routes[key].route, Rest(s, s.routes[key]))
  {
    hide GroupValid, GroupOf, RetiredVirtualServices, Doomed;
  }

  /** A complete finalization leaves the VirtualService wrong only if another party's
      finalizer keeps the route. */
  lemma DoneIsSettledIff(gateways: seq<string>, s: Store, key: Key)
    requires RoutesOk(s.issued, s.routes) && Finalizes(s, key) && GroupValid(Rest(s, s.routes[key]))
    ensures var t := Settle(gateways, s, key);
      VsSettled(gateways, t.routes, t.virtualServices, VsKeyOf(s.routes[key].route)) <==> OursAlone(s.routes[key].finalizers)
  {
    hide Settle, GroupValid, GroupOf, OursAlone, VsSettled;
    if OursAlone(s.routes[key].finalizers) {
      OwnFqdnAfter(gateways, s, key);
    } else {
      OwnRouteAfter(gateways, s, key);
      OwnGroup(gateways, s, key);
      SettledVirtualServicesOfFinalization(gateways, s, key);
      RetiredIsUnsettled(gateways, s, Settle(gateways, s, key), key);
    }
  }

  lemma OwnVirtualServiceUndoneIff(gateways: seq<string>, s: Store, t: Store, key: Key, dels: seq<Key>, n: nat)
    requires RoutesOk(s.issued, s.routes) && Finalizes(s, key) && StopsAfter(gateways, s, t, key, dels, n)
    requires VsSettled(gateways, s.routes, s.virtualServices, VsKeyOf(s.routes[key].route))
    ensures !VsSettled(gateways, t.routes, t.virtualServices, VsKeyOf(s.routes[key].route)) <==>
            BetweenRewriteAndEnd(gateways, s, key, dels, n)
  {
    hide Settle, Plan, VsSettled, GroupValid, GroupOf, RetirementPlan, StopsAfter, OursAlone, RetiredVirtualServices,
         Succeeds;
    var sr, v := s.routes[key], VsKeyOf(s.routes[key].route);
    SettledFqdnHasVirtualService(gateways, s, key);
    PlanOfFinalization(gateways, s, key, dels);
    StopsWithin(gateways, s, t, key, dels, n);
    if n <= |dels| {
      WhileDeleting(gateways, s, t, key, dels, n);
    } else if n == |dels| + 1 {
      WhenRetired(gateways, s, t, key, dels, n);
      RetiredIsUnsettled(gateways, s, t, key);
    } else {
      WhenDone(gateways, s, t, key, dels, n);
      DoneIsSettledIff(gateways, s, key);
    }
  }

  lemma ElsewhereVirtualServicesStay(gateways: seq<string>, s: Store, t: Store, key: Key)
    requires RoutesOk(s.issued, s.routes) && Interrupted(gateways, s, t, key)
    ensures key in s.routes ==> VirtualServicesStay(gateways, s, t, key)
    ensures forall k :: k in t.routes ==> k in s.routes && SameRoute(s.routes[k], t.routes[k])
    ensures key !in s.routes ==> t == s
  {
    hide Settle, PartWay, Interrupted, VsSettled, ServicesOnTheWay, ServicesBetween, OursAlone, Goes;
    InterruptedCases(gateways, s, t, key);
    if key in s.routes {
      if t == Settle(gateways, s, key) {
        SettleKeepsVirtualServices(gateways, s, key);
        RoutesAfter(gateways, s, key);
      } else {
        var ws :| PartWay(gateways, s, t, key, ws);
        PartWayKeeps(gateways, s, t, key, ws);
      }
    }
  }

  /** Exactly when a Reconcile of any route leaves a VirtualService wrong that was right: it is
      that of the route's own FQDN, the route is being finalized, and the Reconcile stops
      after the rewriting of the VirtualService and before the route is gone. */
  lemma VirtualServiceUndoneIff(gateways: seq<string>, s: Store, t: Store, key: Key, dels: seq<Key>, n: nat, v: VsKey)
    requires RoutesOk(s.issued, s.routes) && StopsAfter(gateways, s, t, key, dels, n)
    requires VsSettled(gateways, s.routes, s.virtualServices, v)
    ensures !VsSettled(gateways, t.routes, t.virtualServices, v) <==>
            BetweenRewriteAndEnd(gateways, s, key, dels, n) && v == VsKeyOf(s.routes[key].route)
  {
    hide Plan, VsSettled, GroupValid, GroupOf, StopsAfter, OursAlone, HasFinalizer;
    assert Interrupted(gateways, s, t, key);
    ElsewhereVirtualServicesStay(gateways, s, t, key);
    if Finalizes(s, key) && v == VsKeyOf(s.routes[key].route) {
      OwnVirtualServiceUndoneIff(gateways, s, t, key, dels, n);
    } else if key in s.routes && s.routes[key].deleting && !HasFinalizer(s.routes[key]) {
      NothingToStop(gateways, s, t, key, dels, n);
    }
  }

  // ---- the route's Services ----

  lemma NoDestinationsNoServices(r: Route)
    ensures DesiredServices(r) == map[] <==> r.spec.destinations == []
    ensures (exists k :: k in DesiredServices(r)) <==> r.spec.destinations != []
  {
    if r.spec.destinations != [] {
      ListedAreDesired(DesiredServiceList(r), 0);
    }
  }

  lemma SettledServicesAreDoomed(s: Store, key: Key, dels: seq<Key>)
    requires key in s.routes && s.routes[key].deleting && ServicesSettled(s.services, s.routes[key].route)
    requires Elements(dels) == DoomedAt(s, key)
    ensures forall k :: k in dels <==> k in DesiredServices(s.routes[key].route)
    ensures dels == [] <==> s.routes[key].route.spec.destinations == []
  {
    hide DesiredServices;
    var r := s.routes[key].route;
    forall k
      ensures k in dels <==> k in DesiredServices(r)
    {
      assert k in dels <==> k in Elements(dels);
      assert k in OwnedServices(s.services, r) <==> k in DesiredServices(r);
    }
    NoDestinationsNoServices(r);
    if dels != [] {
      assert dels[0] in dels;
    }
  }

  lemma StopsDels(gateways: seq<string>, s: Store, t: Store, key: Key, dels: seq<Key>, n: nat)
    requires StopsAfter(gateways, s, t, key, dels, n)
    ensures Elements(dels) == DoomedAt(s, key)
  {
    hide Plan, DoomedAt;
  }

  lemma LostService(services: Services, r: Route, k: Key)
    requires k in DesiredServices(r) && k !in services
    ensures !ServicesSettled(services, r)
  {
    hide DesiredServices;
    assert k !in OwnedServices(services, r);
  }

  lemma ServicesWhenDone(gateways: seq<string>, s: Store, key: Key, dels: seq<Key>)
    requires Finalizes(s, key)
    ensures Settle(gateways, s, key).services == s.services - DoomedAt(s, key)
  {
    hide GroupValid, GroupOf, Doomed, RetiredVirtualServices;
  }

  lemma ServicesOfStage(gateways: seq<string>, s: Store, t: Store, key: Key, dels: seq<Key>, n: nat)
    requires RoutesOk(s.issued, s.routes) && Finalizes(s, key) && StopsAfter(gateways, s, t, key, dels, n)
    ensures t.services == s.services - Elements(dels[..if n <= |dels| then n else |dels|])
  {
    hide Plan, Settle, StopsAfter, RetirementPlan, GroupValid, GroupOf, RetiredVirtualServices, OwnedBy, HasFinalizer,
         DoomedAt, Doomed;
    PlanOfFinalization(gateways, s, key, dels);
    StopsWithin(gateways, s, t, key, dels, n);
    assert dels[..|dels|] == dels;
    if n <= |dels| {
      WhileDeleting(gateways, s, t, key, dels, n);
    } else if n == |RetirementPlan(gateways, s, s.routes[key], dels)| {
      WhenRetired(gateways, s, t, key, dels, n);
    } else {
      WhenDone(gateways, s, t, key, dels, n);
      ServicesWhenDone(gateways, s, key, dels);
      StopsDels(gateways, s, t, key, dels, n);
    }
  }

  lemma OwnServicesUndoneIff(gateways: seq<string>, s: Store, t: Store, key: Key, dels: seq<Key>, n: nat)
    requires RoutesOk(s.issued, s.routes) && Finalizes(s, key) && StopsAfter(gateways, s, t, key, dels, n)
    requires ServicesSettled(s.services, s.routes[key].route)
    ensures !ServicesSettled(t.services, s.routes[key].route) <==> n > 0 && s.routes[key].route.spec.destinations != []
  {
    hide Plan, Settle, StopsAfter, ServicesSettled, DesiredServices, RetirementPlan, GroupValid, GroupOf, OwnedBy;
    StopsDels(gateways, s, t, key, dels, n);
    SettledServicesAreDoomed(s, key, dels);
    ServicesOfStage(gateways, s, t, key, dels, n);
    var gone := dels[..if n <= |dels| then n else |dels|];
    assert gone != [] ==> gone[0] == dels[0] && gone[0] in Elements(gone);
    if gone == [] {
      assert s.services - Elements(gone) == s.services;
    } else {
      LostService(t.services, s.routes[key].route, dels[0]);
    }
  }

  lemma OtherServicesStay(gateways: seq<string>, s: Store, t: Store, key: Key, k: Key)
    requires WellFormed(s) && Interrupted(gateways, s, t, key) && k in s.routes && ServicesSettled(s.services, s.routes[k].route)
    requires k == key ==> !s.routes[k].deleting && GuidsDistinct(s.routes[k].route)
    ensures ServicesSettled(t.services, s.routes[k].route)
  {
    hide WellFormed, Settle, PartWay, Interrupted, ServicesSettled, GuidsDistinct, RoutesStay, VirtualServicesStay,
         ServicesOnTheWay, ServicesBetween;
    RoutesOfWellFormed(s);
    InterruptedCases(gateways, s, t, key);
    if key in s.routes {
      if t == Settle(gateways, s, key) {
        ServicesStaySettled(gateways, s, key, k);
      } else {
        var ws :| PartWay(gateways, s, t, key, ws);
        PartWayKeeps(gateways, s, t, key, ws);
        ServicesStayPartWay(s, t, key, k);
      }
    }
  }

  /** Exactly when a Reconcile of any route leaves Services wrong that were right: they are the
      route's own, the route is being finalized, and at least one write has been sent. */
  lemma ServicesUndoneIff(gateways: seq<string>, s: Store, t: Store, key: Key, dels: seq<Key>, n: nat, k: Key)
    requires WellFormed(s) && StopsAfter(gateways, s, t, key, dels, n)
    requires k in s.routes && ServicesSettled(s.services, s.routes[k].route)
    requires k == key ==> s.routes[k].deleting || GuidsDistinct(s.routes[k].route)
    ensures !ServicesSettled(t.services, s.routes[k].route) <==>
            k == key && Finalizes(s, key) && n > 0 && s.routes[k].route.spec.destinations != []
  {
    hide WellFormed, Plan, ServicesSettled, StopsAfter, GuidsDistinct, HasFinalizer;
    RoutesOfWellFormed(s);
    assert Interrupted(gateways, s, t, key);
    if k == key && Finalizes(s, key) {
      OwnServicesUndoneIff(gateways, s, t, key, dels, n);
    } else if k == key && s.routes[k].deleting {
      NothingToStop(gateways, s, t, key, dels, n);
    } else {
      OtherServicesStay(gateways, s, t, key, k);
    }
  }

  // ---- a state that shows it ----

  /** A single route, marked for deletion, with everything as built. */
  ghost function LoneDeleting(gateways: seq<string>, r: Route): Store
  {
    Store(
      map[RouteKey(r) := StoredRoute(r, 0, [FINALIZER_NAME], true)],
      DesiredServices(r),
      map[VsKeyOf(r) := DesiredVirtualService(gateways, r.FQDN(), {r})],
      map[r.meta.uid := IdentityOf(r)])
  }

  lemma LoneDeletingIsSettled(gateways: seq<string>, r: Route)
    ensures var s := LoneDeleting(gateways, r);
      && WellFormed(s) && OnlyOurFinalizer(s.routes, VsKeyOf(r)) && Finalizes(s, RouteKey(r))
      && ServicesSettled(s.services, r) && VsSettled(gateways, s.routes, s.virtualServices, VsKeyOf(r))
      && Rest(s, s.routes[RouteKey(r)]) == {}
  {
    hide Render, DesiredServices, DesiredVirtualService;
    var s := LoneDeleting(gateways, r);
    DesiredAreOwned(r);
    assert OwnedServices(s.services, r) == DesiredServices(r);
    assert GroupOf(s.routes, r.meta.namespace, r.FQDN()) == {r};
  }

  /** So a failed Reconcile does undo something: from a settled FQDN, whatever the route, the
      first write of its finalization takes away Services that were right, and the last but
      one the VirtualService, while the route is still stored. */
  lemma FailedFinalizationUndoes(gateways: seq<string>, r: Route, dels: seq<Key>)
    requires r.spec.destinations != [] && Elements(dels) == DoomedAt(LoneDeleting(gateways, r), RouteKey(r))
    ensures var s, key := LoneDeleting(gateways, r), RouteKey(r);
      var plan := Plan(gateways, s, key, true, dels);
      && |plan| > 2
      && var t, u := ApplyAll(s, plan[..1]), ApplyAll(s, plan[..|plan| - 1]);
      && key in t.routes && !ServicesSettled(t.services, r) && t.virtualServices == s.virtualServices
      && key in u.routes && !VsSettled(gateways, u.routes, u.virtualServices, VsKeyOf(r))
  {
    hide Plan, DoomedAt, VsSettled, ServicesSettled, WellFormed, OnlyOurFinalizer, Rest, RetirementPlan, DesiredServices,
         DesiredVirtualService, HasFinalizer, OursAlone;
    var s, key := LoneDeleting(gateways, r), RouteKey(r);
    var plan := Plan(gateways, s, key, true, dels);
    LoneDeletingIsSettled(gateways, r);
    RoutesOfWellFormed(s);
    EmptyGroupIsValid();
    PlanOfFinalization(gateways, s, key, dels);
    SettledServicesAreDoomed(s, key, dels);
    var t, u := ApplyAll(s, plan[..1]), ApplyAll(s, plan[..|plan| - 1]);
    assert StopsAfter(gateways, s, t, key, dels, 1) && StopsAfter(gateways, s, u, key, dels, |plan| - 1);
    WhileDeleting(gateways, s, t, key, dels, 1);
    OwnServicesUndoneIff(gateways, s, t, key, dels, 1);
    WhenRetired(gateways, s, u, key, dels, |plan| - 1);
    OwnVirtualServiceUndoneIff(gateways, s, u, key, dels, |plan| - 1);
  }
}
