/** Crashes and retries: a Reconcile may stop after any number of its writes; a complete one
    afterwards gives the state that an uninterrupted one would have given. */
module CrashRetry {
  import opened RouteTypes
  import opened Resources
  import opened ServiceBuilder
  import opened VirtualServiceSpec
  import opened ClusterStore
  import opened ReconcilePlan
  import opened Progress

  ghost predicate ServicesOnTheWay(before: Services, now: Services, sr: StoredRoute)
  {
    forall k :: sr.deleting || k !in DesiredServices(sr.route) ==>
      && (k in now ==> k in before && now[k] == before[k])
      && (k in before && k !in now ==> k in Doomed(before, sr))
  }

  /** `t` is on the way from `s` to the settled state: only what a Reconcile of the route
      settles may differ, and the route itself only in holding the finalizer already. */
  ghost predicate OnTheWay(s: Store, t: Store, key: Key)
    requires key in s.routes
  {
    var sr := s.routes[key];
    && t.issued == s.issued
    && (t.routes == s.routes || (!sr.deleting && !HasFinalizer(sr) && t.routes == PutRoute(s, WithFinalizer(sr)).routes))
    && ServicesOnTheWay(s.services, t.services, sr)
    && t.virtualServices - {VsKeyOf(sr.route)} == s.virtualServices - {VsKeyOf(sr.route)}
  }

  /** Whether Reconcile writes the VirtualService at all. */
  ghost predicate WritesVirtualService(s: Store, sr: StoredRoute)
  {
    if sr.deleting then GroupValid(Rest(s, sr)) else GroupValid(SiblingsOf(s.routes, sr.route))
  }

  // ---- from anywhere on the way, a Reconcile leads to the same state ----

  lemma ServicesAbsorbed(before: Services, now: Services, sr: StoredRoute)
    requires ServicesOnTheWay(before, now, sr)
    ensures now - Doomed(now, sr) + (if sr.deleting then map[] else DesiredServices(sr.route)) ==
            before - Doomed(before, sr) + (if sr.deleting then map[] else DesiredServices(sr.route))
  {
    hide DesiredServices;
  }

  lemma VirtualServicesAbsorbed(before: VirtualServices, now: VirtualServices, k: VsKey, vs: VirtualService)
    requires now - {k} == before - {k}
    ensures now[k := vs] == before[k := vs]
  {
    forall v
      ensures v in now && v != k <==> v in before && v != k
      ensures v in now && v != k ==> now[v] == before[v]
    {
      assert v in now - {k} <==> v in before - {k};
      assert v in now - {k} ==> (now - {k})[v] == (before - {k})[v];
    }
  }

  lemma SameSiblings(s: Store, t: Store, key: Key, namespace: string, fqdn: string)
    requires key in s.routes && OnTheWay(s, t, key) && RouteKey(s.routes[key].route) == key
    ensures GroupOf(t.routes, namespace, fqdn) == GroupOf(s.routes, namespace, fqdn)
    ensures key in t.routes && t.routes[key].route == s.routes[key].route && t.routes[key].deleting == s.routes[key].deleting
  {
    hide ServicesOnTheWay;
    assert t.routes.Keys == s.routes.Keys;
    assert forall k :: k in s.routes ==> t.routes[k].route == s.routes[k].route;
  }

  lemma DoomedByRoute(services: Services, a: StoredRoute, b: StoredRoute)
    requires a.route == b.route && a.deleting == b.deleting
    ensures Doomed(services, a) == Doomed(services, b)
  {
  }

  lemma SettleLiveFromTheWay(gateways: seq<string>, s: Store, t: Store, key: Key)
    requires key in s.routes && OnTheWay(s, t, key) && RouteKey(s.routes[key].route) == key && !s.routes[key].deleting
    requires t.virtualServices == s.virtualServices || WritesVirtualService(s, s.routes[key])
    requires s.routes[key].route in SiblingsOf(s.routes, s.routes[key].route)
    ensures Settle(gateways, t, key) == Settle(gateways, s, key)
  {
    hide GroupValid, GroupOf, Doomed, DesiredServices, DesiredVirtualService, ServicesOnTheWay;
    var sr := s.routes[key];
    SameSiblings(s, t, key, sr.route.meta.namespace, sr.route.FQDN());
    ServicesAbsorbed(s.services, t.services, sr);
    DoomedByRoute(t.services, sr, t.routes[key]);
    if GroupValid(SiblingsOf(s.routes, sr.route)) {
      VirtualServicesAbsorbed(s.virtualServices, t.virtualServices, VsKeyOf(sr.route),
                              DesiredVirtualService(gateways, sr.route.FQDN(), SiblingsOf(s.routes, sr.route)));
    }
  }

  lemma SettleDeletingFromTheWay(gateways: seq<string>, s: Store, t: Store, key: Key)
    requires key in s.routes && OnTheWay(s, t, key) && RouteKey(s.routes[key].route) == key
    requires s.routes[key].deleting && HasFinalizer(s.routes[key])
    requires t.virtualServices == s.virtualServices || WritesVirtualService(s, s.routes[key])
    ensures Settle(gateways, t, key) == Settle(gateways, s, key)
  {
    hide GroupValid, Doomed, DesiredServices, DesiredVirtualService, ServicesOnTheWay;
    var sr := s.routes[key];
    assert t.routes == s.routes;
    ServicesAbsorbed(s.services, t.services, sr);
    assert s.services - Doomed(s.services, sr) + map[] == s.services - Doomed(s.services, sr);
    assert t.services - Doomed(t.services, sr) + map[] == t.services - Doomed(t.services, sr);
    var rest, k := Rest(s, sr), VsKeyOf(sr.route);
    if rest != {} && GroupValid(rest) {
      VirtualServicesAbsorbed(s.virtualServices, t.virtualServices, k, DesiredVirtualService(gateways, sr.route.FQDN(), rest));
    }
  }

  // ---- every write of the plan stays on the way ----

  /** The kinds of write that a plan contains, but for the one that gives up the finalizer. */
  ghost predicate Planned(s: Store, sr: StoredRoute, w: Write)
  {
    match w
    case UpdateRoute(x) => !sr.deleting && !HasFinalizer(sr) && x == WithFinalizer(sr)
    case PutService(sv) => !sr.deleting && ServiceKey(sv) in DesiredServices(sr.route)
    case DeleteService(k) => k in Doomed(s.services, sr)
    case PutVirtualService(vs) => VirtualServiceKey(vs) == VsKeyOf(sr.route) && WritesVirtualService(s, sr)
    case DeleteVirtualService(k) => k == VsKeyOf(sr.route) && WritesVirtualService(s, sr)
  }

  lemma StaysOnTheWay(s: Store, t: Store, key: Key, w: Write)
    requires key in s.routes && RouteKey(s.routes[key].route) == key && OnTheWay(s, t, key)
    requires Planned(s, s.routes[key], w)
    ensures OnTheWay(s, Apply(t, w), key)
  {
    hide DesiredServices, OwnedBy;
    var sr := s.routes[key];
    match w
    case UpdateRoute(x) =>
      assert PutRoute(t, x).routes == PutRoute(s, x).routes;
    case PutService(sv) =>
    case DeleteService(k) =>
    case PutVirtualService(vs) =>
      assert t.virtualServices[VsKeyOf(sr.route) := vs] - {VsKeyOf(sr.route)} == t.virtualServices - {VsKeyOf(sr.route)};
    case DeleteVirtualService(k) =>
  }

  lemma OnlyPlannedWritesTouchVirtualServices(s: Store, t: Store, key: Key, w: Write)
    requires key in s.routes && Planned(s, s.routes[key], w)
    ensures Apply(t, w).virtualServices == t.virtualServices || WritesVirtualService(s, s.routes[key])
  {
    hide WritesVirtualService;
  }

  lemma {:induction false} PlannedWritesStayOnTheWay(s: Store, key: Key, ws: seq<Write>)
    requires key in s.routes && RouteKey(s.routes[key].route) == key
    requires forall w :: w in ws ==> Planned(s, s.routes[key], w)
    ensures var t := ApplyAll(s, ws);
      OnTheWay(s, t, key) && (t.virtualServices == s.virtualServices || WritesVirtualService(s, s.routes[key]))
  {
    if ws != [] {
      hide OnTheWay, Planned;
      var init, last := ws[..|ws| - 1], ws[|ws| - 1];
      assert last in ws && forall w :: w in init ==> w in ws;
      PlannedWritesStayOnTheWay(s, key, init);
      StaysOnTheWay(s, ApplyAll(s, init), key, last);
      OnlyPlannedWritesTouchVirtualServices(s, ApplyAll(s, init), key, last);
    }
  }

  // ---- plans consist of planned writes ----

  lemma DeletionsArePlanned(s: Store, sr: StoredRoute, dels: seq<Key>)
    requires Elements(dels) == Doomed(s.services, sr)
    ensures forall w :: w in DeleteServices(dels) ==> Planned(s, sr, w)
  {
    forall w | w in DeleteServices(dels)
      ensures Planned(s, sr, w)
    {
      var i :| 0 <= i < |dels| && DeleteServices(dels)[i] == w;
      assert dels[i] in Elements(dels);
    }
  }

  lemma ServicePlanIsPlanned(s: Store, sr: StoredRoute, dels: seq<Key>)
    requires !sr.deleting && Elements(dels) == Doomed(s.services, sr)
    ensures forall w :: w in ServicePlan(sr, dels) ==> Planned(s, sr, w)
  {
    hide Doomed;
    var list := DesiredServiceList(sr.route);
    forall i: nat | i < |list|
      ensures Planned(s, sr, PutServices(list)[i])
    {
      ListedAreDesired(list, i);
    }
    DeletionsArePlanned(s, sr, dels);
    forall w | w in ServicePlan(sr, dels)
      ensures Planned(s, sr, w)
    {
      assert w in PutServices(list) || w in DeleteServices(dels);
    }
  }

  lemma VirtualServicePlanIsPlanned(gateways: seq<string>, s: Store, sr: StoredRoute, group: set<Route>)
    requires group == if sr.deleting then Rest(s, sr) else SiblingsOf(s.routes, sr.route)
    requires forall g :: g in group ==> g.meta.namespace == sr.route.meta.namespace
    ensures forall w :: w in VirtualServicePlan(gateways, sr.route.FQDN(), group) ==> Planned(s, sr, w)
  {
    hide GroupValid, DesiredVirtualService;
    if group != {} {
      DesiredVirtualServiceKey(gateways, sr.route.FQDN(), group, sr.route.meta.namespace);
    }
  }

  lemma FinalizerIsPlanned(s: Store, sr: StoredRoute)
    requires !sr.deleting
    ensures forall w :: w in FinalizerPlan(sr) ==> Planned(s, sr, w)
  {
  }

  lemma LivePlanIsPlanned(gateways: seq<string>, s: Store, key: Key, dels: seq<Key>)
    requires RoutesOk(s.issued, s.routes) && key in s.routes && !s.routes[key].deleting
    requires Elements(dels) == Doomed(s.services, s.routes[key])
    ensures forall w :: w in Plan(gateways, s, key, true, dels) ==> Planned(s, s.routes[key], w)
  {
    hide Planned, ServicePlan, VirtualServicePlan, Doomed;
    var sr := s.routes[key];
    SiblingsShareNamespace(s, sr.route.meta.namespace, sr.route.FQDN());
    FinalizerIsPlanned(s, sr);
    ServicePlanIsPlanned(s, sr, dels);
    VirtualServicePlanIsPlanned(gateways, s, sr, SiblingsOf(s.routes, sr.route));
    forall w | w in Plan(gateways, s, key, true, dels)
      ensures Planned(s, sr, w)
    {
      assert w in FinalizerPlan(sr) || w in ServicePlan(sr, dels)
        || w in VirtualServicePlan(gateways, sr.route.FQDN(), SiblingsOf(s.routes, sr.route));
    }
  }

  ghost function RetirementPlan(gateways: seq<string>, s: Store, sr: StoredRoute, dels: seq<Key>): seq<Write>
  {
    DeleteServices(dels) + RetirePlan(gateways, s.virtualServices, sr.route, Rest(s, sr), true)
  }

  lemma RetirementIsPlanned(gateways: seq<string>, s: Store, sr: StoredRoute, dels: seq<Key>)
    requires RoutesOk(s.issued, s.routes) && sr.deleting && Elements(dels) == Doomed(s.services, sr)
    ensures forall w :: w in RetirementPlan(gateways, s, sr, dels) ==> Planned(s, sr, w)
  {
    hide VirtualServicePlan, Doomed;
    SiblingsShareNamespace(s, sr.route.meta.namespace, sr.route.FQDN());
    DeletionsArePlanned(s, sr, dels);
    VirtualServicePlanIsPlanned(gateways, s, sr, Rest(s, sr));
    var retire := RetirePlan(gateways, s.virtualServices, sr.route, Rest(s, sr), true);
    assert forall w :: w in retire ==> Planned(s, sr, w);
    forall w | w in RetirementPlan(gateways, s, sr, dels)
      ensures Planned(s, sr, w)
    {
      assert w in DeleteServices(dels) || w in retire;
    }
  }

  // ---- main results ----

  lemma RouteIsItsOwnSibling(s: Store, key: Key)
    requires RoutesOk(s.issued, s.routes) && key in s.routes
    ensures RouteKey(s.routes[key].route) == key
    ensures s.routes[key].route in SiblingsOf(s.routes, s.routes[key].route)
  {
    assert RouteOk(s.issued, key, s.routes[key]);
  }

  lemma CrashThenRetryLive(gateways: seq<string>, s: Store, key: Key, dels: seq<Key>, k: nat)
    requires RoutesOk(s.issued, s.routes) && key in s.routes && !s.routes[key].deleting
    requires Elements(dels) == DoomedAt(s, key) && k <= |Plan(gateways, s, key, true, dels)|
    ensures Settle(gateways, ApplyAll(s, Plan(gateways, s, key, true, dels)[..k]), key) == Settle(gateways, s, key)
  {
    hide Plan, Settle, Planned, OnTheWay, WritesVirtualService;
    var plan := Plan(gateways, s, key, true, dels);
    RouteIsItsOwnSibling(s, key);
    LivePlanIsPlanned(gateways, s, key, dels);
    assert forall w :: w in plan[..k] ==> w in plan;
    PlannedWritesStayOnTheWay(s, key, plan[..k]);
    SettleLiveFromTheWay(gateways, s, ApplyAll(s, plan[..k]), key);
  }

  lemma CrashThenRetryRetiring(gateways: seq<string>, s: Store, key: Key, dels: seq<Key>, k: nat)
    requires RoutesOk(s.issued, s.routes) && key in s.routes && s.routes[key].deleting && HasFinalizer(s.routes[key])
    requires Elements(dels) == DoomedAt(s, key) && k <= |RetirementPlan(gateways, s, s.routes[key], dels)|
    ensures Settle(gateways, ApplyAll(s, RetirementPlan(gateways, s, s.routes[key], dels)[..k]), key) == Settle(gateways, s, key)
  {
    hide RetirementPlan, Settle, Planned, OnTheWay, WritesVirtualService;
    var plan := RetirementPlan(gateways, s, s.routes[key], dels);
    RouteIsItsOwnSibling(s, key);
    RetirementIsPlanned(gateways, s, s.routes[key], dels);
    assert forall w :: w in plan[..k] ==> w in plan;
    PlannedWritesStayOnTheWay(s, key, plan[..k]);
    SettleDeletingFromTheWay(gateways, s, ApplyAll(s, plan[..k]), key);
  }

  /** A finalized route is gone, or keeps only finalizers that are not the controller's. */
  lemma ReleasedStays(gateways: seq<string>, s: Store, key: Key)
    requires RoutesOk(s.issued, s.routes) && key in s.routes && s.routes[key].deleting && HasFinalizer(s.routes[key])
    requires GroupValid(Rest(s, s.routes[key]))
    ensures Settle(gateways, Settle(gateways, s, key), key) == Settle(gateways, s, key)
  {
    hide GroupValid, RetiredVirtualServices, Doomed, DesiredServices;
    assert RouteOk(s.issued, key, s.routes[key]);
  }

  /** Crash and retry. A Reconcile that stops after any number `k` of its writes, followed by
      a complete one with nobody else acting in between, gives exactly the state that one
      uninterrupted Reconcile gives: for live routes, for routes being deleted, and whether
      or not the FQDN's routes build. */
  lemma CrashThenRetry(gateways: seq<string>, s: Store, key: Key, dels: seq<Key>, k: nat)
    requires RoutesOk(s.issued, s.routes) && Elements(dels) == DoomedAt(s, key)
    requires k <= |Plan(gateways, s, key, true, dels)|
    ensures Settle(gateways, ApplyAll(s, Plan(gateways, s, key, true, dels)[..k]), key) == Settle(gateways, s, key)
  {
    hide Settle, DoomedAt, RetirePlan, GroupValid;
    if key in s.routes && !s.routes[key].deleting {
      CrashThenRetryLive(gateways, s, key, dels, k);
    } else if key in s.routes && HasFinalizer(s.routes[key]) {
      var plan, retired := Plan(gateways, s, key, true, dels), RetirementPlan(gateways, s, s.routes[key], dels);
      assert plan == retired + ReleasePlan(s.routes[key], Rest(s, s.routes[key]));
      if k <= |retired| {
        assert plan[..k] == retired[..k];
        CrashThenRetryRetiring(gateways, s, key, dels, k);
      } else {
        assert plan[..k] == plan;
        PlanAchievesSettle(gateways, s, key, dels);
        ReleasedStays(gateways, s, key);
      }
    }
  }

  /** A second Reconcile changes nothing. */
  lemma SettleIsIdempotent(gateways: seq<string>, s: Store, key: Key)
    requires RoutesOk(s.issued, s.routes)
    ensures Settle(gateways, Settle(gateways, s, key), key) == Settle(gateways, s, key)
  {
    hide Settle, DoomedAt, Plan;
    var dels := SomeOrder(DoomedAt(s, key));
    var plan := Plan(gateways, s, key, true, dels);
    assert plan[..|plan|] == plan;
    CrashThenRetry(gateways, s, key, dels, |plan|);
    PlanAchievesSettle(gateways, s, key, dels);
  }
}
