/** The order in which a Reconcile makes itself felt: nothing is taken away before what replaces
    it is there, and a route is let go last. */
module WriteOrder {
  import opened RouteTypes
  import opened Resources
  import opened ServiceBuilder
  import opened VirtualServiceSpec
  import opened ClusterStore
  import opened ReconcilePlan
  import opened SettleEffects
  import opened Progress
  import opened CrashRetry
  import opened InterruptedRuns
  import opened UnfinishedFinalization

  // ---- the stages of a live Reconcile ----

  lemma LiveFirstStage(s: Store, sr: StoredRoute, n: nat)
    requires n <= |FinalizerPlan(sr)|
    ensures var t := ApplyAll(s, FinalizerPlan(sr)[..n]); t.services == s.services && t.virtualServices == s.virtualServices
  {
    assert n == |FinalizerPlan(sr)| ==> FinalizerPlan(sr)[..n] == FinalizerPlan(sr);
    assert n == 0 ==> FinalizerPlan(sr)[..n] == [];
    FinalizerPlanEffect(s, sr);
  }

  lemma NotDoomed(services: Services, sr: StoredRoute, dels: seq<Key>, k: Key)
    requires !sr.deleting && Elements(dels) == Doomed(services, sr) && k in DesiredServices(sr.route)
    ensures k !in dels
  {
    assert k in dels <==> k in Elements(dels);
  }

  /** Every desired Service of the route is stored as desired. */
  ghost predicate ServicesThere(services: Services, r: Route)
  {
    forall k :: k in DesiredServices(r) ==> k in services && services[k] == DesiredServices(r)[k]
  }

  /** While Services are put, none is missing; when some are missing, all desired ones are there. */
  lemma ServiceStages(s: Store, sr: StoredRoute, dels: seq<Key>, n: nat)
    requires !sr.deleting && Elements(dels) == Doomed(s.services, sr) && n <= |ServicePlan(sr, dels)|
    ensures var t := ApplyAll(s, ServicePlan(sr, dels)[..n]);
      && t.virtualServices == s.virtualServices && t.routes == s.routes
      && ((exists k :: k in s.services && k !in t.services) ==> ServicesThere(t.services, sr.route))
  {
    hide Doomed, DesiredService;
    var list := DesiredServiceList(sr.route);
    var puts, plan := PutServices(list), ServicePlan(sr, dels);
    if n <= |list| {
      assert plan[..n] == PutServices(list[..n]);
      PutServicesEffect(s, list[..n]);
    } else {
      var m := n - |list|;
      assert plan[..n] == puts + DeleteServices(dels[..m]);
      PutServicesEffect(s, list);
      DeleteServicesEffect(ApplyAll(s, puts), dels[..m]);
      ApplyAllConcat(s, puts, DeleteServices(dels[..m]));
      forall k | k in DesiredServices(sr.route)
        ensures k !in dels[..m]
      {
        NotDoomed(s.services, sr, dels, k);
      }
    }
  }

  // ---- main results ----

  lemma AtMostOne(gateways: seq<string>, fqdn: string, group: set<Route>)
    ensures |VirtualServicePlan(gateways, fqdn, group)| <= 1
  {
  }

  lemma LiveStages(gateways: seq<string>, s: Store, t: Store, key: Key, dels: seq<Key>, n: nat)
    requires RoutesOk(s.issued, s.routes) && key in s.routes && !s.routes[key].deleting && StopsAfter(gateways, s, t, key, dels, n)
    ensures var f, sp := |FinalizerPlan(s.routes[key])|, |ServicePlan(s.routes[key], dels)|;
      || (n <= f && t.services == s.services && t.virtualServices == s.virtualServices)
      || (f < n <= f + sp && t == ApplyAll(ApplyAll(s, FinalizerPlan(s.routes[key])), ServicePlan(s.routes[key], dels)[..n - f]))
      || t == Settle(gateways, s, key)
  {
    hide DoomedAt, FinalizerPlan, ServicePlan, VirtualServicePlan, Settle, GroupOf;
    var sr := s.routes[key];
    var first, second, last := FinalizerPlan(sr), ServicePlan(sr, dels), VirtualServicePlan(gateways, sr.route.FQDN(), SiblingsOf(s.routes, sr.route));
    var plan := Plan(gateways, s, key, true, dels);
    assert plan == first + second + last;
    if n <= |first| {
      assert plan[..n] == first[..n];
      LiveFirstStage(s, sr, n);
    } else if n <= |first| + |second| {
      assert plan[..n] == first + second[..n - |first|];
      ApplyAllConcat(s, first, second[..n - |first|]);
    } else {
      AtMostOne(gateways, sr.route.FQDN(), SiblingsOf(s.routes, sr.route));
      assert n == |plan| && plan[..n] == plan;
      PlanAchievesSettle(gateways, s, key, dels);
    }
  }

  lemma AfterFinalizer(s: Store, key: Key)
    requires RoutesOk(s.issued, s.routes) && key in s.routes && !s.routes[key].deleting
    ensures var t := ApplyAll(s, FinalizerPlan(s.routes[key]));
      && t.services == s.services && t.virtualServices == s.virtualServices
      && HoldsFinalizer(t.routes, key, s.routes[key].route.meta.uid)
  {
    assert RouteOk(s.issued, key, s.routes[key]);
    FinalizerPlanEffect(s, s.routes[key]);
  }

  lemma LiveSettled(gateways: seq<string>, s: Store, key: Key)
    requires RoutesOk(s.issued, s.routes) && key in s.routes && !s.routes[key].deleting
    ensures var t, r := Settle(gateways, s, key), s.routes[key].route;
      HoldsFinalizer(t.routes, key, r.meta.uid) && ServicesThere(t.services, r) && ServicesSettled(t.services, r)
  {
    hide Settle, DesiredServices, ServicesSettled, ServicesMove;
    var sr := s.routes[key];
    RoutesMove(gateways, s, key);
    SettleMovesServices(gateways, s, key);
    OwnServicesAfter(s.services, sr);
    forall k | k in DesiredServices(sr.route)
      ensures k in ServicesMove(s.services, sr) && ServicesMove(s.services, sr)[k] == DesiredServices(sr.route)[k]
    {
      MoveAt(s.services, sr, k);
    }
  }

  /** Make before break. Wherever a Reconcile of a live route stops: if any Service has been
      written or deleted, the route holds the finalizer; if any has been deleted, all desired
      ones are there; and if the VirtualService has been rewritten, the Services are exactly
      the desired ones. */
  lemma LiveOrder(gateways: seq<string>, s: Store, t: Store, key: Key, dels: seq<Key>, n: nat)
    requires RoutesOk(s.issued, s.routes) && key in s.routes && !s.routes[key].deleting && StopsAfter(gateways, s, t, key, dels, n)
    ensures t.services != s.services ==> HoldsFinalizer(t.routes, key, s.routes[key].route.meta.uid)
    ensures (exists k :: k in s.services && k !in t.services) ==> ServicesThere(t.services, s.routes[key].route)
    ensures t.virtualServices != s.virtualServices ==> ServicesSettled(t.services, s.routes[key].route)
  {
    hide FinalizerPlan, ServicePlan, Settle, StopsAfter, Doomed, ServicesSettled, DesiredServices, ServicesThere, HoldsFinalizer;
    var sr, f := s.routes[key], |FinalizerPlan(s.routes[key])|;
    var s1 := ApplyAll(s, FinalizerPlan(sr));
    LiveStages(gateways, s, t, key, dels, n);
    AfterFinalizer(s, key);
    LiveSettled(gateways, s, key);
    StopsIn(gateways, s, t, key, dels, n);
    if f < n <= f + |ServicePlan(sr, dels)| {
      ServiceStages(s1, sr, dels, n - f);
    }
  }

  lemma DelsAllGone(services: Services, sr: StoredRoute, dels: seq<Key>)
    requires sr.deleting && Elements(dels) == Doomed(services, sr)
    ensures Owned(services - Elements(dels), sr.route.meta.namespace, sr.route.meta.uid) == {}
  {
  }

  /** Let go last. Wherever a finalization stops: if the VirtualService has been touched, no
      Service of the route is left; and if the route itself has been, the VirtualService also
      shows the remaining routes only, which build, or is gone with the last of them. */
  lemma FinalizationOrder(gateways: seq<string>, s: Store, t: Store, key: Key, dels: seq<Key>, n: nat)
    requires RoutesOk(s.issued, s.routes) && Finalizes(s, key) && StopsAfter(gateways, s, t, key, dels, n)
    ensures var sr, rest := s.routes[key], Rest(s, s.routes[key]);
      && (t.virtualServices != s.virtualServices || t.routes != s.routes ==>
            Owned(t.services, sr.route.meta.namespace, sr.route.meta.uid) == {})
      && (t.routes != s.routes ==>
            && GroupValid(rest)
            && Entry(t.virtualServices, VsKeyOf(sr.route)) ==
               if rest == {} then None else Some(DesiredVirtualService(gateways, sr.route.FQDN(), rest)))
  {
    hide Plan, Settle, StopsAfter, RetirementPlan, GroupValid, GroupOf, DesiredVirtualService, OwnedBy, HasFinalizer;
    var sr := s.routes[key];
    PlanOfFinalization(gateways, s, key, dels);
    StopsWithin(gateways, s, t, key, dels, n);
    StopsIn(gateways, s, t, key, dels, n);
    if n <= |dels| {
      WhileDeleting(gateways, s, t, key, dels, n);
    } else {
      assert dels[..|dels|] == dels;
      ServicesOfStage(gateways, s, t, key, dels, n);
      DelsAllGone(s.services, sr, dels);
      if n == |RetirementPlan(gateways, s, sr, dels)| {
        WhenRetired(gateways, s, t, key, dels, n);
      } else {
        WhenDone(gateways, s, t, key, dels, n);
        SettledVirtualServicesOfFinalization(gateways, s, key);
      }
    }
  }
}
