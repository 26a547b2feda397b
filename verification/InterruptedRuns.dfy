/** Reconciles that a failing call ends part way, in any number and any order. Crash and retry
    for a single route is in CrashRetry; here several routes, of one FQDN or of many, are
    reconciled between the failure and the retry. */
module InterruptedRuns {
  import opened RouteTypes
  import opened Resources
  import opened ServiceBuilder
  import opened VirtualServiceSpec
  import opened ClusterStore
  import opened ReconcilePlan
  import opened SettleEffects
  import opened Progress
  import opened Convergence
  import opened CrashRetry

  ghost predicate StopsAfter(gateways: seq<string>, s: Store, t: Store, key: Key, dels: seq<Key>, n: nat)
  {
    && Elements(dels) == DoomedAt(s, key)
    && n <= |Plan(gateways, s, key, true, dels)|
    && t == ApplyAll(s, Plan(gateways, s, key, true, dels)[..n])
  }

  /** A Reconcile of the route, started in `s`, stopped in `t` after some of its writes. */
  ghost predicate Interrupted(gateways: seq<string>, s: Store, t: Store, key: Key)
  {
    exists dels, n: nat :: StopsAfter(gateways, s, t, key, dels, n)
  }

  // ---- what the writes of a plan put ----

  /** The writes put what is desired, not merely something under the right name; of two
      Services of the same name only the second is. */
  ghost predicate Exact(gateways: seq<string>, s: Store, sr: StoredRoute, w: Write)
  {
    match w
    case UpdateRoute(x) => true
    case PutService(sv) =>
      && ServiceKey(sv) in DesiredServices(sr.route) && OwnedBy(sv, sr.route.meta.uid)
      && (GuidsDistinct(sr.route) ==> sv == DesiredServices(sr.route)[ServiceKey(sv)])
    case DeleteService(k) => true
    case PutVirtualService(vs) =>
      var group := SiblingsOf(s.routes, sr.route);
      sr.deleting || (group != {} && vs == DesiredVirtualService(gateways, sr.route.FQDN(), group))
    case DeleteVirtualService(k) => sr.deleting
  }

  ghost predicate ServicesBetween(before: Services, now: Services, sr: StoredRoute)
  {
    forall k :: !sr.deleting && k in DesiredServices(sr.route) ==>
      && (k in before ==> k in now)
      && (k in now ==>
            || (k in before && now[k] == before[k])
            || (OwnedBy(now[k], sr.route.meta.uid) && (GuidsDistinct(sr.route) ==> now[k] == DesiredServices(sr.route)[k])))
  }

  ghost predicate VsBetween(gateways: seq<string>, s: Store, t: Store, sr: StoredRoute)
  {
    var group := SiblingsOf(s.routes, sr.route);
    !sr.deleting && group != {} ==>
      || Entry(t.virtualServices, VsKeyOf(sr.route)) == Entry(s.virtualServices, VsKeyOf(sr.route))
      || Entry(t.virtualServices, VsKeyOf(sr.route)) == Some(DesiredVirtualService(gateways, sr.route.FQDN(), group))
  }

  lemma ServicesStayBetween(gateways: seq<string>, s: Store, t: Store, sr: StoredRoute, w: Write)
    requires Planned(s, sr, w) && Exact(gateways, s, sr, w) && ServicesBetween(s.services, t.services, sr)
    ensures ServicesBetween(s.services, Apply(t, w).services, sr)
  {
    hide DesiredServices, OwnedBy, GroupValid, GroupOf, GuidsDistinct;
  }

  lemma VsStaysBetween(gateways: seq<string>, s: Store, t: Store, sr: StoredRoute, w: Write)
    requires Planned(s, sr, w) && Exact(gateways, s, sr, w) && VsBetween(gateways, s, t, sr)
    ensures VsBetween(gateways, s, Apply(t, w), sr)
  {
    hide DesiredServices, DesiredVirtualService, Doomed, GroupValid, GroupOf;
  }

  lemma {:induction false} ExactWritesStayBetween(gateways: seq<string>, s: Store, sr: StoredRoute, ws: seq<Write>)
    requires forall w :: w in ws ==> Planned(s, sr, w) && Exact(gateways, s, sr, w)
    ensures var t := ApplyAll(s, ws); ServicesBetween(s.services, t.services, sr) && VsBetween(gateways, s, t, sr)
  {
    if ws != [] {
      hide Planned, Exact, Apply, VsBetween, ServicesBetween;
      var init, last := ws[..|ws| - 1], ws[|ws| - 1];
      assert last in ws && forall w :: w in init ==> w in ws;
      ExactWritesStayBetween(gateways, s, sr, init);
      ServicesStayBetween(gateways, s, ApplyAll(s, init), sr, last);
      VsStaysBetween(gateways, s, ApplyAll(s, init), sr, last);
    }
  }

  // ---- such a step undoes nothing ----

  lemma ServiceStays(s: Store, t: Store, sr: StoredRoute, other: Route, k: Key)
    requires ServicesOnTheWay(s.services, t.services, sr) && ServicesBetween(s.services, t.services, sr)
    requires ServicesSettled(s.services, other)
    requires other == sr.route || (other.meta.uid != sr.route.meta.uid && DesiredServices(other).Keys !! DesiredServices(sr.route).Keys)
    requires other == sr.route ==> !sr.deleting && GuidsDistinct(sr.route)
    ensures k in OwnedServices(t.services, other) <==> k in OwnedServices(s.services, other)
    ensures k in OwnedServices(s.services, other) ==> k in s.services && k in t.services && t.services[k] == s.services[k]
  {
    DesiredAreOwned(sr.route);
    hide DesiredServices, GuidsDistinct;
    assert k in OwnedServices(s.services, other) <==> k in DesiredServices(other);
    assert k in OwnedServices(s.services, other) ==> s.services[k] == DesiredServices(other)[k];
  }

  lemma SameOwnedServices(before: Services, now: Services, r: Route)
    requires ServicesSettled(before, r)
    requires forall k :: k in OwnedServices(now, r) <==> k in OwnedServices(before, r)
    requires forall k :: k in OwnedServices(before, r) ==> k in before && k in now && now[k] == before[k]
    ensures ServicesSettled(now, r)
  {
    assert OwnedServices(now, r) == OwnedServices(before, r);
  }

  lemma ServicesStayPartWay(s: Store, t: Store, key: Key, k: Key)
    requires WellFormed(s) && key in s.routes && k in s.routes
    requires k == key ==> !s.routes[k].deleting && GuidsDistinct(s.routes[k].route)
    requires ServicesOnTheWay(s.services, t.services, s.routes[key]) && ServicesBetween(s.services, t.services, s.routes[key])
    requires ServicesSettled(s.services, s.routes[k].route)
    ensures ServicesSettled(t.services, s.routes[k].route)
  {
    hide ServicesSettled, OwnedServices, DesiredServices, NoGuidInCommon, GuidsDistinct, ServicesOnTheWay,
         ServicesBetween;
    var sr, other := s.routes[key], s.routes[k].route;
    if k != key {
      if other.meta.uid == sr.route.meta.uid {
        UidsIdentify(s, k, key);
      }
      ServicesSeparate(s, k, key);
    }
    forall j
      ensures j in OwnedServices(t.services, other) <==> j in OwnedServices(s.services, other)
      ensures j in OwnedServices(s.services, other) ==> j in s.services && j in t.services && t.services[j] == s.services[j]
    {
      ServiceStays(s, t, sr, other, j);
    }
    SameOwnedServices(s.services, t.services, other);
  }

  lemma EntryElsewhere(before: VirtualServices, now: VirtualServices, own: VsKey, v: VsKey)
    requires now - {own} == before - {own}
    ensures v != own ==> (v in now <==> v in before) && (v in before ==> now[v] == before[v])
  {
    if v != own {
      assert v in now - {own} <==> v in before - {own};
      assert v in now - {own} ==> (now - {own})[v] == (before - {own})[v];
    }
  }

  lemma VirtualServicesStayPartWay(gateways: seq<string>, s: Store, t: Store, key: Key)
    requires RoutesOk(s.issued, s.routes) && key in s.routes && OnTheWay(s, t, key) && VsBetween(gateways, s, t, s.routes[key])
    ensures VirtualServicesStay(gateways, s, t, key)
  {
    hide DesiredVirtualService, ServicesOnTheWay, GroupOf;
    var sr := s.routes[key];
    RouteIsItsOwnSibling(s, key);
    SameSiblings(s, t, key, sr.route.meta.namespace, sr.route.FQDN());
    forall v | VsSettled(gateways, s.routes, s.virtualServices, v)
      ensures v != VsKeyOf(sr.route) ==> VsSettled(gateways, t.routes, t.virtualServices, v)
    {
      SameSiblings(s, t, key, v.namespace, v.name.fqdn);
      EntryElsewhere(s.virtualServices, t.virtualServices, VsKeyOf(sr.route), v);
    }
  }

  lemma RoutesStayPartWay(gateways: seq<string>, s: Store, t: Store, key: Key)
    requires RoutesOk(s.issued, s.routes) && key in s.routes && OnTheWay(s, t, key)
    ensures t.issued == s.issued && RoutesStay(gateways, s, t, key)
  {
    hide VsSettled, ServicesOnTheWay;
    assert RouteOk(s.issued, key, s.routes[key]);
  }

  lemma RouteOfStay(gateways: seq<string>, s: Store, t: Store, key: Key, k: Key)
    requires RoutesStay(gateways, s, t, key) && k in t.routes
    ensures k in s.routes && t.routes[k].route == s.routes[k].route && t.routes[k].deleting == s.routes[k].deleting
  {
    hide VsSettled;
    assert SameRoute(s.routes[k], t.routes[k]);
  }

  // ---- plans put what is desired ----

  lemma PutIsExact(gateways: seq<string>, s: Store, sr: StoredRoute, i: nat)
    requires i < |sr.route.spec.destinations|
    ensures Exact(gateways, s, sr, PutService(DesiredServiceList(sr.route)[i]))
  {
    ListedAreDesired(DesiredServiceList(sr.route), i);
    if GuidsDistinct(sr.route) {
      DesiredServiceAt(sr.route, i);
    }
  }

  lemma ServicePutsAreExact(gateways: seq<string>, s: Store, sr: StoredRoute, dels: seq<Key>)
    ensures forall w :: w in ServicePlan(sr, dels) ==> Exact(gateways, s, sr, w)
  {
    hide DesiredServices, GuidsDistinct;
    var list := DesiredServiceList(sr.route);
    forall w | w in ServicePlan(sr, dels)
      ensures Exact(gateways, s, sr, w)
    {
      var j :| 0 <= j < |ServicePlan(sr, dels)| && ServicePlan(sr, dels)[j] == w;
      if j < |list| {
        assert w == PutService(list[j]);
        PutIsExact(gateways, s, sr, j);
      }
    }
  }

  lemma LivePlanIsExact(gateways: seq<string>, s: Store, key: Key, dels: seq<Key>)
    requires key in s.routes && !s.routes[key].deleting
    ensures forall w :: w in Plan(gateways, s, key, true, dels) ==> Exact(gateways, s, s.routes[key], w)
  {
    hide ServicePlan, GroupValid, GroupOf, DesiredVirtualService, DesiredServices, GuidsDistinct;
    var sr := s.routes[key];
    ServicePutsAreExact(gateways, s, sr, dels);
    forall w | w in Plan(gateways, s, key, true, dels)
      ensures Exact(gateways, s, sr, w)
    {
      assert w in FinalizerPlan(sr) || w in ServicePlan(sr, dels)
        || w in VirtualServicePlan(gateways, sr.route.FQDN(), SiblingsOf(s.routes, sr.route));
    }
  }

  lemma RetirementIsExact(gateways: seq<string>, s: Store, sr: StoredRoute, dels: seq<Key>)
    requires sr.deleting
    ensures forall w :: w in RetirementPlan(gateways, s, sr, dels) ==> Exact(gateways, s, sr, w)
  {
    hide GroupValid, DesiredVirtualService, DesiredServices;
    forall w | w in RetirementPlan(gateways, s, sr, dels)
      ensures !w.PutService?
    {
      assert w in DeleteServices(dels) || w in RetirePlan(gateways, s.virtualServices, sr.route, Rest(s, sr), true);
    }
  }

  lemma PrefixWithin<T>(ws: seq<T>, n: nat)
    requires n <= |ws|
    ensures forall w :: w in ws[..n] ==> w in ws
  {
  }

  /** Part of the way to the settled state: some writes of the plan, the last one of a
      finalization not among them, have taken effect. */
  ghost predicate PartWay(gateways: seq<string>, s: Store, t: Store, key: Key, ws: seq<Write>)
    requires key in s.routes
  {
    && t == ApplyAll(s, ws)
    && forall w :: w in ws ==> Planned(s, s.routes[key], w) && Exact(gateways, s, s.routes[key], w)
  }

  lemma StopsIn(gateways: seq<string>, s: Store, t: Store, key: Key, dels: seq<Key>, n: nat)
    requires StopsAfter(gateways, s, t, key, dels, n) && key in s.routes
    ensures Elements(dels) == Doomed(s.services, s.routes[key])
    ensures n <= |Plan(gateways, s, key, true, dels)| && t == ApplyAll(s, Plan(gateways, s, key, true, dels)[..n])
  {
    hide Plan, Doomed;
  }

  lemma LiveStopsPartWay(gateways: seq<string>, s: Store, t: Store, key: Key, dels: seq<Key>, n: nat)
    requires StopsAfter(gateways, s, t, key, dels, n) && RoutesOk(s.issued, s.routes)
    requires key in s.routes && !s.routes[key].deleting
    ensures PartWay(gateways, s, t, key, Plan(gateways, s, key, true, dels)[..n])
  {
    hide Plan, Planned, Exact, DoomedAt, GuidsDistinct, StopsAfter;
    StopsIn(gateways, s, t, key, dels, n);
    var plan := Plan(gateways, s, key, true, dels);
    LivePlanIsPlanned(gateways, s, key, dels);
    LivePlanIsExact(gateways, s, key, dels);
    PrefixWithin(plan, n);
  }

  lemma FinalizationStops(gateways: seq<string>, s: Store, t: Store, key: Key, dels: seq<Key>, n: nat)
    requires StopsAfter(gateways, s, t, key, dels, n) && RoutesOk(s.issued, s.routes)
    requires key in s.routes && s.routes[key].deleting && HasFinalizer(s.routes[key])
    ensures var retired := RetirementPlan(gateways, s, s.routes[key], dels);
      t == Settle(gateways, s, key) || (n <= |retired| && PartWay(gateways, s, t, key, retired[..n]))
  {
    hide Settle, DoomedAt, RetirePlan, GroupValid, Planned, Exact;
    var sr := s.routes[key];
    var plan, retired := Plan(gateways, s, key, true, dels), RetirementPlan(gateways, s, sr, dels);
    assert plan == retired + ReleasePlan(sr, Rest(s, sr));
    StopsIn(gateways, s, t, key, dels, n);
    if n <= |retired| {
      assert plan[..n] == retired[..n];
      RetirementIsPlanned(gateways, s, sr, dels);
      RetirementIsExact(gateways, s, sr, dels);
      PrefixWithin(retired, n);
    } else {
      assert plan[..n] == plan;
      PlanAchievesSettle(gateways, s, key, dels);
    }
  }

  lemma NothingToStop(gateways: seq<string>, s: Store, t: Store, key: Key, dels: seq<Key>, n: nat)
    requires StopsAfter(gateways, s, t, key, dels, n)
    requires key in s.routes ==> s.routes[key].deleting && !HasFinalizer(s.routes[key])
    ensures t == s
  {
    assert Plan(gateways, s, key, true, dels) == [];
  }

  /** The two places where a Reconcile can be when it stops. */
  lemma InterruptedCases(gateways: seq<string>, s: Store, t: Store, key: Key)
    requires RoutesOk(s.issued, s.routes) && Interrupted(gateways, s, t, key)
    ensures key !in s.routes ==> t == s
    ensures key in s.routes ==> t == Settle(gateways, s, key) || exists ws :: PartWay(gateways, s, t, key, ws)
  {
    hide Settle, Plan, Planned, Exact, RetirementPlan, DoomedAt, GuidsDistinct, HasFinalizer, StopsAfter;
    var dels, n: nat :| StopsAfter(gateways, s, t, key, dels, n);
    if key in s.routes && !s.routes[key].deleting {
      StopsIn(gateways, s, t, key, dels, n);
      LiveStopsPartWay(gateways, s, t, key, dels, n);
      assert PartWay(gateways, s, t, key, Plan(gateways, s, key, true, dels)[..n]);
    } else if key in s.routes && HasFinalizer(s.routes[key]) {
      FinalizationStops(gateways, s, t, key, dels, n);
    } else {
      NothingToStop(gateways, s, t, key, dels, n);
      if key in s.routes {
        assert PartWay(gateways, s, t, key, []);
      }
    }
  }

  // ---- main results ----

  /** Wherever it stops, routes and VirtualServices are as good as they were, but for the
      VirtualService of a finalization that is still to be completed. */
  lemma PartWayKeeps(gateways: seq<string>, s: Store, t: Store, key: Key, ws: seq<Write>)
    requires RoutesOk(s.issued, s.routes) && key in s.routes && PartWay(gateways, s, t, key, ws)
    ensures t.issued == s.issued && RoutesStay(gateways, s, t, key) && VirtualServicesStay(gateways, s, t, key)
    ensures ServicesOnTheWay(s.services, t.services, s.routes[key]) && ServicesBetween(s.services, t.services, s.routes[key])
    ensures key in t.routes
    ensures t.virtualServices - {VsKeyOf(s.routes[key].route)} == s.virtualServices - {VsKeyOf(s.routes[key].route)}
    ensures VsBetween(gateways, s, t, s.routes[key])
  {
    hide VsSettled, Planned, Exact, RoutesStay, VirtualServicesStay, ServicesOnTheWay, ServicesBetween, VsBetween;
    RouteIsItsOwnSibling(s, key);
    PlannedWritesStayOnTheWay(s, key, ws);
    ExactWritesStayBetween(gateways, s, s.routes[key], ws);
    RoutesStayPartWay(gateways, s, t, key);
    VirtualServicesStayPartWay(gateways, s, t, key);
    SameSiblings(s, t, key, key.namespace, s.routes[key].route.FQDN());
  }

  lemma PartWayAdvances(gateways: seq<string>, s: Store, t: Store, key: Key, ws: seq<Write>)
    requires WellFormed(s) && key in s.routes && PartWay(gateways, s, t, key, ws)
    requires s.routes[key].deleting || GuidsDistinct(s.routes[key].route)
    ensures Advances(gateways, s, t, key)
  {
    hide WellFormed, VsSettled, ServicesSettled, PartWay, RoutesStay, VirtualServicesStay, ServicesOnTheWay,
         ServicesBetween, GuidsDistinct;
    RoutesOfWellFormed(s);
    PartWayKeeps(gateways, s, t, key, ws);
    forall k | k in t.routes && ServicesSettled(s.services, t.routes[k].route) && !(k == key && t.routes[k].deleting)
      ensures ServicesSettled(t.services, t.routes[k].route)
    {
      RouteOfStay(gateways, s, t, key, k);
      ServicesStayPartWay(s, t, key, k);
    }
  }

  /** Every Reconcile, however far it gets, keeps what earlier ones have achieved: for each
      route the Services that are as built, for each FQDN the VirtualService that is as built.
      The exceptions are the Services of the reconciled route and the VirtualService of its
      FQDN while the route is marked for deletion and still stored; `UnfinishedFinalization`
      says exactly when these are undone. */
  lemma InterruptedAdvances(gateways: seq<string>, s: Store, t: Store, key: Key)
    requires WellFormed(s) && Interrupted(gateways, s, t, key)
    requires key in s.routes ==> s.routes[key].deleting || GuidsDistinct(s.routes[key].route)
    ensures Advances(gateways, s, t, key)
  {
    hide WellFormed, Advances, Settle, PartWay, GuidsDistinct, Interrupted;
    RoutesOfWellFormed(s);
    InterruptedCases(gateways, s, t, key);
    if key !in s.routes {
      NothingAdvances(gateways, s, key);
    } else if t == Settle(gateways, s, key) {
      SettleAdvances(gateways, s, key);
    } else {
      var ws :| PartWay(gateways, s, t, key, ws);
      PartWayAdvances(gateways, s, t, key, ws);
    }
  }

  lemma InterruptedKeepsRoutes(gateways: seq<string>, s: Store, t: Store, key: Key)
    requires RoutesOk(s.issued, s.routes) && Interrupted(gateways, s, t, key)
    ensures forall k :: k in t.routes ==> k in s.routes && t.routes[k].route == s.routes[k].route
  {
    hide Settle, Planned, Exact, GuidsDistinct, Interrupted, ServicesOnTheWay;
    InterruptedCases(gateways, s, t, key);
    if key in s.routes && t == Settle(gateways, s, key) {
      StoredRoutesKeepTheirIdentity(gateways, s, key);
    } else if key in s.routes {
      var ws :| PartWay(gateways, s, t, key, ws);
      assert RouteOk(s.issued, key, s.routes[key]);
      PlannedWritesStayOnTheWay(s, key, ws);
    }
  }

  // ---- finalizers ----

  lemma SettledFinalizersFollow(gateways: seq<string>, s: Store, key: Key)
    requires RoutesOk(s.issued, s.routes) && key in s.routes && key in Settle(gateways, s, key).routes
    ensures FinalizersFollow(s.routes[key], Settle(gateways, s, key).routes[key])
    ensures !s.routes[key].deleting ==> "routes.networking.cloudfoundry.org" in Settle(gateways, s, key).routes[key].finalizers
  {
    hide Settle, GroupValid, GroupOf, Without, OthersOf;
    RoutesMove(gateways, s, key);
    FinalizerUpdatesFollow(s.routes[key]);
  }

  lemma PutFinalizerFollows(s: Store, t: Store, key: Key)
    requires RoutesOk(s.issued, s.routes) && key in s.routes && OnTheWay(s, t, key)
    ensures key in t.routes && FinalizersFollow(s.routes[key], t.routes[key])
  {
    hide ServicesOnTheWay, OthersOf;
    assert RouteOk(s.issued, key, s.routes[key]);
    FinalizerUpdatesFollow(s.routes[key]);
  }

  lemma PartWayOnTheWay(gateways: seq<string>, s: Store, t: Store, key: Key, ws: seq<Write>)
    requires RoutesOk(s.issued, s.routes) && key in s.routes && PartWay(gateways, s, t, key, ws)
    ensures OnTheWay(s, t, key)
  {
    hide Planned, Exact, OnTheWay;
    RouteIsItsOwnSibling(s, key);
    PlannedWritesStayOnTheWay(s, key, ws);
  }

  /** The finalizers of every route after a Reconcile that is complete or has stopped anywhere:
      those of other parties are the same and in their order; the controller's is added at the
      end of the reconciled route's if it is live, or taken away if it is being deleted, or
      nothing has changed. */
  lemma FinalizersOfInterrupted(gateways: seq<string>, s: Store, t: Store, key: Key, k: Key)
    requires RoutesOk(s.issued, s.routes) && Interrupted(gateways, s, t, key) && k in t.routes
    ensures k in s.routes && OthersOf(t.routes[k].finalizers) == OthersOf(s.routes[k].finalizers)
    ensures if k == key then FinalizersFollow(s.routes[k], t.routes[k]) else t.routes[k].finalizers == s.routes[k].finalizers
    ensures t == Settle(gateways, s, key) && k == key && !s.routes[k].deleting ==>
      t.routes[k].finalizers == s.routes[k].finalizers +
        if "routes.networking.cloudfoundry.org" in s.routes[k].finalizers then [] else ["routes.networking.cloudfoundry.org"]
  {
    hide Settle, PartWay, Interrupted, ServicesOnTheWay, OthersOf;
    InterruptedKeepsRoutes(gateways, s, t, key);
    InterruptedCases(gateways, s, t, key);
    if key in s.routes {
      if t == Settle(gateways, s, key) {
        if k == key {
          SettledFinalizersFollow(gateways, s, key);
        } else {
          RoutesMoveElsewhere(gateways, s, key, k);
        }
      } else {
        var ws :| PartWay(gateways, s, t, key, ws);
        PartWayOnTheWay(gateways, s, t, key, ws);
        PutFinalizerFollows(s, t, key);
      }
    }
    OthersStay(s.routes[k], t.routes[k]);
  }

  // ---- a queue of requests ----

  ghost predicate StepCarriedOut<E>(gateways: seq<string>, s: Store, t: Store, key: Key, err: Option<E>)
  {
    Interrupted(gateways, s, t, key) && (err.None? ==> Completes(gateways, s, t, key))
  }

  /** What undisturbed requests do: each gets some way, and one that returns without an error
      was carried out completely. */
  ghost predicate CarriedOut<E>(gateways: seq<string>, states: seq<Store>, keys: seq<Key>, errs: seq<Option<E>>)
  {
    && |states| == |keys| + 1 && |errs| == |keys|
    && forall i :: 0 <= i < |keys| ==> StepCarriedOut(gateways, states[i], states[i + 1], keys[i], errs[i])
  }

  ghost predicate AllGuidsDistinct(routes: Routes)
  {
    forall k :: k in routes ==> GuidsDistinct(routes[k].route)
  }

  /** Each route of the FQDN had a request that returned without an error, and none waits for
      anybody else. */
  ghost predicate FqdnReturned<E>(routes: Routes, v: VsKey, keys: seq<Key>, errs: seq<Option<E>>)
    requires |errs| == |keys|
  {
    && OnlyOurFinalizer(routes, v)
    && forall k :: k in routes && VsKeyOf(routes[k].route) == v ==> exists i :: 0 <= i < |keys| && keys[i] == k && errs[i].None?
  }

  /** Every such FQDN is settled, and its live routes are exactly what is left of it. */
  ghost predicate QueueConverged<E>(gateways: seq<string>, s: Store, t: Store, keys: seq<Key>, errs: seq<Option<E>>)
    requires |errs| == |keys|
  {
    forall k :: k in s.routes && FqdnReturned(s.routes, VsKeyOf(s.routes[k].route), keys, errs) ==>
      FqdnSettled(gateways, t, VsKeyOf(s.routes[k].route)) && LiveRemain(s, t, VsKeyOf(s.routes[k].route))
  }

  lemma {:induction false} QueueAdvances<E>(gateways: seq<string>, states: seq<Store>, keys: seq<Key>, errs: seq<Option<E>>, n: nat)
    requires CarriedOut(gateways, states, keys, errs) && n <= |keys|
    requires WellFormed(states[0]) && AllGuidsDistinct(states[0].routes)
    ensures WellFormed(states[n]) && AllGuidsDistinct(states[n].routes)
    ensures forall i :: 0 <= i < n ==> Advances(gateways, states[i], states[i + 1], keys[i])
  {
    hide WellFormed, Interrupted, Completes, ServicesStay, VirtualServicesStay, GuidsDistinct, VsSettled;
    if n > 0 {
      QueueAdvances(gateways, states, keys, errs, n - 1);
      var s, t := states[n - 1], states[n];
      assert StepCarriedOut(gateways, s, t, keys[n - 1], errs[n - 1]);
      InterruptedAdvances(gateways, s, t, keys[n - 1]);
      WellFormedSurvives(s, t);
      assert forall k :: k in t.routes ==> SameRoute(s.routes[k], t.routes[k]);
    }
  }

  lemma ReturnedCompletes<E>(gateways: seq<string>, states: seq<Store>, keys: seq<Key>, errs: seq<Option<E>>, v: VsKey)
    requires CarriedOut(gateways, states, keys, errs) && FqdnReturned(states[0].routes, v, keys, errs)
    ensures FqdnCompleted(gateways, states, keys, v)
  {
    hide Interrupted, Completes;
    forall k | k in states[0].routes && VsKeyOf(states[0].routes[k].route) == v
      ensures CompletedOnce(gateways, states, keys, k)
    {
      var i :| 0 <= i < |keys| && keys[i] == k && errs[i].None?;
      assert StepCarriedOut(gateways, states[i], states[i + 1], keys[i], errs[i]);
    }
  }

  /** Convergence in spite of failures: requests in any order, any of which may fail at any
      call and leave its work half done, settle every FQDN each of whose routes had one
      request that returned without an error, at whatever time. */
  lemma QueueConverges<E>(gateways: seq<string>, states: seq<Store>, keys: seq<Key>, errs: seq<Option<E>>)
    requires CarriedOut(gateways, states, keys, errs) && WellFormed(states[0]) && AllGuidsDistinct(states[0].routes)
    ensures QueueConverged(gateways, states[0], states[|keys|], keys, errs)
  {
    hide WellFormed, AllGuidsDistinct, Advances, Interrupted, Completes, FqdnSettled, LiveRemain;
    QueueAdvances(gateways, states, keys, errs, |keys|);
    forall k | k in states[0].routes && FqdnReturned(states[0].routes, VsKeyOf(states[0].routes[k].route), keys, errs)
      ensures FqdnSettled(gateways, states[|keys|], VsKeyOf(states[0].routes[k].route))
      ensures LiveRemain(states[0], states[|keys|], VsKeyOf(states[0].routes[k].route))
    {
      ReturnedCompletes(gateways, states, keys, errs, VsKeyOf(states[0].routes[k].route));
      FqdnConverges(gateways, states, keys, k);
    }
  }
}
