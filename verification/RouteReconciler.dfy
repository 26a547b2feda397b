/** controllers/networking/route_controller.go: the reconciler itself. Its methods are proved
    twice over: whatever others do and whichever calls fail, no Service and no VirtualService
    that was safe in any state is unsafe in a later one; and while nobody else acts, the writes
    sent are a prefix of the plan. */
module RouteReconciliation {
  import opened RouteTypes
  import opened Resources
  import opened VirtualServiceSpec
  import opened ClusterStore
  import opened ReconcilePlan
  import opened ApiServerModel
  import opened RouteController
  import BuildsServices = ServiceBuilder
  import BuildsVirtualServices = VirtualServiceBuilder

  ghost predicate StoredAs(s: Store, sr: StoredRoute)
  {
    RouteKey(sr.route) in s.routes && s.routes[RouteKey(sr.route)] == sr
  }

  /** The error is the builder's, and names routes of the group that really are at fault. */
  ghost predicate ExplainedBy(err: ReconcileError, group: set<Route>)
  {
    err.BuildFailed? && Explains(err.buildError, group)
  }

  /** The routes whose VirtualService a Reconcile builds. */
  ghost function ToBuild(s: Store, key: Key): set<Route>
  {
    if key !in s.routes then {}
    else if s.routes[key].deleting then Rest(s, s.routes[key])
    else SiblingsOf(s.routes, s.routes[key].route)
  }

  /** The route and the list that were read are what the store still holds. */
  ghost predicate Current(s: Store, sr: StoredRoute, items: seq<Route>)
  {
    StoredAs(s, sr) && Elements(items) == SiblingsOf(s.routes, sr.route)
  }

  lemma PlanOfAbsentRoute(gateways: seq<string>, s: Store, key: Key, ok: bool, dels: seq<Key>)
    ensures key !in s.routes ==> Plan(gateways, s, key, ok, dels) == [] && Settle(gateways, s, key) == s && Succeeds(s, key)
  {
  }

  lemma PlanOfReleasedRoute(gateways: seq<string>, s: Store, key: Key, ok: bool, dels: seq<Key>)
    requires key in s.routes && s.routes[key].deleting && !HasFinalizer(s.routes[key])
    ensures Plan(gateways, s, key, ok, dels) == [] && Settle(gateways, s, key) == s && Succeeds(s, key)
  {
  }

  lemma StoredIsSeen(s: Store, key: Key)
    requires StoreOk(s) && key in s.routes
    ensures Seen(s, s.routes[key]) && RouteKey(s.routes[key].route) == key
    ensures HasFinalizer(s.routes[key]) ==> HoldsFinalizer(s.routes, key, s.routes[key].route.meta.uid)
  {
    assert RouteOk(s.issued, key, s.routes[key]);
  }

  lemma HeldSurvives(s: Store, t: Store, key: Key)
    requires Rely(s, t) && key in s.routes
    ensures HasFinalizer(s.routes[key]) ==> HoldsFinalizer(t.routes, key, s.routes[key].route.meta.uid)
  {
  }

  lemma ListIsOkIn(s: Store, items: seq<Route>, namespace: string, fqdn: string)
    requires StoreOk(s) && NoDuplicates(items) && Elements(items) == GroupOf(s.routes, namespace, fqdn)
    ensures ListOk(s.issued, items, namespace, fqdn) && NamesDistinct(items)
  {
    ListIsOk(s, items, namespace, fqdn);
  }

  lemma PlanOfLiveRoute(gateways: seq<string>, s: Store, key: Key, sr: StoredRoute, items: seq<Route>, ok: bool, dels: seq<Key>)
    requires Current(s, sr, items) && !sr.deleting && RouteKey(sr.route) == key
    ensures Plan(gateways, s, key, ok, dels) == LivePlan(gateways, sr, Elements(items), dels)
    ensures DoomedAt(s, key) == Doomed(s.services, sr)
    ensures UrlsUniqueAt(s, key) <==> UrlsUnique(Elements(items))
    ensures Succeeds(s, key) <==> GroupValid(Elements(items))
    ensures ToBuild(s, key) == Elements(items)
  {
    hide GroupValid, UrlsUnique, VirtualServicePlan, Doomed, ServicePlan, FinalizerPlan;
  }

  /** The routes of a list other than the one that goes. */
  ghost function Others(items: seq<Route>, r: Route): set<Route>
  {
    Elements(OthersThan(items, r.meta.name))
  }

  lemma OwnSibling(s: Store, sr: StoredRoute)
    requires StoredAs(s, sr)
    ensures sr.route in SiblingsOf(s.routes, sr.route)
  {
    assert RouteKey(sr.route) in s.routes && s.routes[RouteKey(sr.route)].route == sr.route;
  }

  lemma OthersAreTheRest(s: Store, sr: StoredRoute, items: seq<Route>)
    requires Current(s, sr, items) && NamesDistinct(items)
    ensures Others(items, sr.route) == Rest(s, sr)
  {
    hide GroupOf;
    OthersThanElements(items, sr.route.meta.name);
    assert sr.route in SiblingsOf(s.routes, sr.route) by {
      OwnSibling(s, sr);
    }
    forall r
      ensures r in Others(items, sr.route) <==> r in Rest(s, sr)
    {
      assert r in Elements(items) <==> r in items;
      if r in items && r != sr.route {
        var i :| 0 <= i < |items| && items[i] == r;
        assert sr.route in Elements(items);
        var j :| 0 <= j < |items| && items[j] == sr.route;
      }
    }
  }

  lemma PlanOfDeletingRoute(gateways: seq<string>, s: Store, key: Key, sr: StoredRoute, items: seq<Route>, ok: bool, dels: seq<Key>)
    requires Current(s, sr, items) && sr.deleting && HasFinalizer(sr) && RouteKey(sr.route) == key
    requires NamesDistinct(items)
    ensures Plan(gateways, s, key, ok, dels) == FinalizationPlan(gateways, s.virtualServices, sr, Others(items, sr.route), ok, dels)
    ensures DoomedAt(s, key) == Doomed(s.services, sr)
    ensures UrlsUniqueAt(s, key) ==> UrlsUnique(Others(items, sr.route))
    ensures Succeeds(s, key) <==> GroupValid(Others(items, sr.route))
    ensures ToBuild(s, key) == Others(items, sr.route)
  {
    hide GroupValid, GroupOf, Doomed, FinalizationPlan, Others, NamesDistinct;
    OthersAreTheRest(s, sr, items);
  }

  /** A complete run of the plan settles the store. */
  lemma Conclude(gateways: seq<string>, s: Store, ws: seq<Write>, t: Store, ws': seq<Write>, key: Key, ok: bool, dels: seq<Key>,
                 succeeded: bool, undisturbed: bool)
    requires StoreOk(s) && IsOrderOf(dels, DoomedAt(s, key))
    requires Executed(s, ws, t, ws', Plan(gateways, s, key, ok, dels), succeeded || undisturbed)
    ensures (succeeded || undisturbed) && ok ==> t == Settle(gateways, s, key)
  {
    hide Plan, Settle, UrlsUniqueAt, DoomedAt;
    PlanAchievesSettle(gateways, s, key, dels);
    var plan := Plan(gateways, s, key, true, dels);
    assert plan[..|plan|] == plan;
  }

  lemma FinalizerLeavesServices(s: Store, ws: seq<Write>, t: Store, ws': seq<Write>, sr: StoredRoute)
    requires Executed(s, ws, t, ws', FinalizerPlan(sr), true)
    ensures t.services == s.services
  {
    FinalizerPlanEffect(s, sr);
    assert FinalizerPlan(sr)[..|FinalizerPlan(sr)|] == FinalizerPlan(sr);
  }

  lemma NoneLeft(before: Services, after: Services, namespace: string, uid: string, dels: seq<Key>)
    requires Shrinks(before, after) && Elements(dels) == Owned(before, namespace, uid)
    requires forall k :: k in dels ==> k !in after
    ensures NoServicesOf(after, namespace, uid)
  {
    forall k | k in after && k.namespace == namespace
      ensures !OwnedBy(after[k], uid)
    {
      assert k in Elements(dels) <==> k in Owned(before, namespace, uid);
    }
  }

  lemma NoServicesSurvives(s: Store, t: Store, namespace: string, uid: string)
    requires Rely(s, t) && NoServicesOf(s.services, namespace, uid)
    ensures NoServicesOf(t.services, namespace, uid)
  {
  }

  lemma RestOfList(s: Store, t: Store, after: seq<Route>, before: seq<Route>, r: Route)
    requires Rely(s, t) && ListOk(s.issued, before, r.meta.namespace, r.FQDN()) && NamesDistinct(before)
    requires after == RemoveFirst(before, r.meta.name)
    ensures ListOk(t.issued, after, r.meta.namespace, r.FQDN())
    ensures Elements(after) == Others(before, r)
  {
    RemoveFirstIsFilter(before, r.meta.name);
    OthersThanElements(before, r.meta.name);
  }

  lemma {:induction false} OnlyRouteUpdatesTouchRoutes(s: Store, ws: seq<Write>)
    requires forall w :: w in ws ==> !w.UpdateRoute?
    ensures ApplyAll(s, ws).routes == s.routes
  {
    if ws != [] {
      assert ws[|ws| - 1] in ws;
      OnlyRouteUpdatesTouchRoutes(s, ws[..|ws| - 1]);
    }
  }

  lemma AfterDeletes(gateways: seq<string>, s: Store, ws: seq<Write>, t: Store, ws': seq<Write>,
                     sr: StoredRoute, rest: set<Route>, ok: bool, dels: seq<Key>, complete: bool)
    requires Executed(s, ws, t, ws', DeleteServices(dels), complete)
    ensures Executed(s, ws, t, ws', FinalizationPlan(gateways, s.virtualServices, sr, rest, ok, dels), false)
    ensures complete ==> t.virtualServices == s.virtualServices
  {
    hide RetirePlan, ReleasePlan;
    var deletes, retire, release := DeleteServices(dels), RetirePlan(gateways, s.virtualServices, sr.route, rest, ok), ReleasePlan(sr, rest);
    ExecutedPartly(s, ws, t, ws', deletes, retire);
    ExecutedPartly(s, ws, t, ws', deletes + retire, release);
    if complete {
      assert deletes[..|deletes|] == deletes;
      DeleteServicesEffect(s, dels);
    }
  }

  lemma RetiringKeepsRoutes(gateways: seq<string>, s: Store, sr: StoredRoute, rest: set<Route>, ok: bool, dels: seq<Key>, k: int)
    ensures var retired := DeleteServices(dels) + RetirePlan(gateways, s.virtualServices, sr.route, rest, ok);
      0 <= k <= |retired| ==> ApplyAll(s, retired[..k]).routes == s.routes
  {
    hide GroupValid, DesiredVirtualService;
    var retired := DeleteServices(dels) + RetirePlan(gateways, s.virtualServices, sr.route, rest, ok);
    if 0 <= k <= |retired| {
      forall w | w in retired[..k]
        ensures !w.UpdateRoute?
      {
        var i :| 0 <= i < k && retired[i] == w;
      }
      OnlyRouteUpdatesTouchRoutes(s, retired[..k]);
    }
  }

  lemma AfterRetire(gateways: seq<string>, s: Store, ws: seq<Write>, t: Store, ws': seq<Write>, u: Store, ws'': seq<Write>,
                    sr: StoredRoute, rest: set<Route>, ok: bool, dels: seq<Key>, complete: bool)
    requires Executed(s, ws, t, ws', DeleteServices(dels), true)
    requires Executed(t, ws', u, ws'', RetirePlan(gateways, s.virtualServices, sr.route, rest, ok), complete)
    ensures var retired := DeleteServices(dels) + RetirePlan(gateways, s.virtualServices, sr.route, rest, ok);
      && Executed(s, ws, u, ws'', retired, complete)
      && Executed(s, ws, u, ws'', FinalizationPlan(gateways, s.virtualServices, sr, rest, ok, dels), complete && !GroupValid(rest))
    ensures u.routes == s.routes
  {
    hide GroupValid, RetirePlan;
    var deletes, retire, release := DeleteServices(dels), RetirePlan(gateways, s.virtualServices, sr.route, rest, ok), ReleasePlan(sr, rest);
    ExecutedThen(s, ws, t, ws', u, ws'', deletes, retire, complete);
    if GroupValid(rest) {
      ExecutedPartly(s, ws, u, ws'', deletes + retire, release);
    } else {
      assert deletes + retire + release == deletes + retire;
    }
    RetiringKeepsRoutes(gateways, s, sr, rest, ok, dels, |ws''| - |ws|);
  }

  lemma AfterRelease(gateways: seq<string>, s: Store, ws: seq<Write>, t: Store, ws': seq<Write>, u: Store, ws'': seq<Write>,
                     sr: StoredRoute, rest: set<Route>, ok: bool, dels: seq<Key>, complete: bool)
    requires GroupValid(rest)
    requires Executed(s, ws, t, ws', DeleteServices(dels) + RetirePlan(gateways, s.virtualServices, sr.route, rest, ok), true)
    requires Executed(t, ws', u, ws'', [UpdateRoute(WithoutFinalizer(sr))], complete)
    ensures Executed(s, ws, u, ws'', FinalizationPlan(gateways, s.virtualServices, sr, rest, ok, dels), complete)
  {
    ExecutedThen(s, ws, t, ws', u, ws'', DeleteServices(dels) + RetirePlan(gateways, s.virtualServices, sr.route, rest, ok),
                 ReleasePlan(sr, rest), complete);
  }

  lemma DeleteVirtualServiceIsRely(s: Store, k: VsKey)
    ensures Rely(s, Apply(s, DeleteVirtualService(k)))
    ensures Rely(s, s)
  {
  }

  lemma AllOwnedAreDoomed(services: Services, sr: StoredRoute, dels: seq<Key>)
    requires sr.deleting && NoDuplicates(dels) && Elements(dels) == Owned(services, sr.route.meta.namespace, sr.route.meta.uid)
    ensures IsOrderOf(dels, Doomed(services, sr))
    ensures forall k :: k in dels ==> k in services
  {
    assert forall k :: k in dels ==> k in Elements(dels);
  }

  function PutVirtualServices(list: seq<VirtualService>): (ws: seq<Write>)
    ensures |ws| == |list|
  {
    seq(|list|, i requires 0 <= i < |list| => PutVirtualService(list[i]))
  }

  lemma PlanOfBuild(gateways: seq<string>, fqdn: string, items: seq<Route>, vss: seq<VirtualService>)
    requires GroupValid(Elements(items)) && |vss| == if items == [] then 0 else 1
    requires items != [] && UrlsUnique(Elements(items)) ==>
      Elements(items) != {} && vss[0] == DesiredVirtualService(gateways, fqdn, Elements(items))
    ensures UrlsUnique(Elements(items)) ==> VirtualServicePlan(gateways, fqdn, Elements(items)) == PutVirtualServices(vss)
  {
    if items == [] {
      assert Elements(items) == {};
    }
  }

  lemma ListValidity(issued: Issued, items: seq<Route>, namespace: string, fqdn: string)
    requires ListOk(issued, items, namespace, fqdn)
    ensures ListValid(items) <==> GroupValid(Elements(items))
  {
    OneGroup(items, fqdn);
    if items != [] {
      assert fqdn in FqdnsOf(items);
      assert FqdnValid(items, fqdn) <==> GroupValid(Elements(items));
    }
  }

  lemma PutVirtualServiceIsRely(s: Store, vs: VirtualService)
    ensures Rely(s, Apply(s, PutVirtualService(vs)))
    ensures Rely(s, s)
  {
  }

  lemma DesiredIsOwned(routes: Routes, r: Route, i: nat)
    requires i < |r.spec.destinations| && HoldsFinalizer(routes, RouteKey(r), r.meta.uid)
    ensures var sv := BuildsServices.DesiredServiceList(r)[i];
      sv.owners != [] && OwnerHolds(routes, sv)
  {
  }

  lemma OwnerStays(s: Store, t: Store, key: Key, uid: string)
    requires Rely(s, t) && HoldsFinalizer(s.routes, key, uid)
    ensures HoldsFinalizer(t.routes, key, uid) && Shrinks(t.issued, s.issued)
  {
  }

  lemma RelyGrowsIssued(s: Store, t: Store)
    requires Rely(s, t)
    ensures Shrinks(t.issued, s.issued)
  {
  }

  lemma PutServiceKeeps(s: Store, mid: Store, t: Store, sv: Service, key: Key, uid: string)
    requires Rely(s, mid) && (t == mid || t == Apply(mid, PutService(sv)))
    requires HoldsFinalizer(s.routes, key, uid)
    ensures HoldsFinalizer(t.routes, key, uid)
    ensures Shrinks(t.issued, s.issued)
  {
    OwnerSurvives(s.routes, mid.routes, key, uid);
  }

  /** What is left of the owned list once the desired names are struck out. */
  lemma PruneOrder(s: Store, sr: StoredRoute, actual: seq<Service>)
    requires !sr.deleting && NoDuplicates(KeysOf(actual))
    requires Elements(KeysOf(actual)) == Owned(s.services, sr.route.meta.namespace, sr.route.meta.uid)
    ensures var desired := BuildsServices.DesiredServiceList(sr.route);
      var dels := KeysOf(Undesired(actual, desired));
      && IsOrderOf(dels, Doomed(s.services, sr)) && NoDuplicates(dels)
      && forall k :: k in dels ==> k in ApplyAll(s, PutServices(desired)).services
  {
    var desired := BuildsServices.DesiredServiceList(sr.route);
    UndesiredKeys(actual, desired);
    DesiredKeys(desired);
    PutServicesEffect(s, desired);
    var dels := KeysOf(Undesired(actual, desired));
    assert Elements(dels) == Doomed(s.services, sr);
    assert forall k :: k in dels ==> k in Elements(dels);
  }

  lemma DeletedKeysStayDeleted(s: Store, mid: Store, t: Store, keys: seq<Key>, i: nat)
    requires i < |keys| && Rely(s, mid) && (t == mid || t == Apply(mid, DeleteService(keys[i])))
    ensures Rely(mid, t)
    ensures forall j :: 0 <= j < i && keys[j] !in s.services ==> keys[j] !in t.services
    ensures t == Apply(mid, DeleteService(keys[i])) ==> keys[i] !in t.services
  {
    RelyReflexive(mid);
    DeletionIsRely(mid, keys[i]);
  }

  lemma StillThere(s: Store, ws: seq<Write>, t: Store, ws': seq<Write>, keys: seq<Key>, i: nat)
    requires i < |keys| && Executed(s, ws, t, ws', DeleteServices(keys[..i]), true)
    ensures NoDuplicates(keys) && keys[i] in s.services ==> keys[i] in t.services
  {
    var done := DeleteServices(keys[..i]);
    assert done[..|done|] == done;
    DeleteServicesEffect(s, keys[..i]);
  }

  lemma ServicePlanParts(sr: StoredRoute, dels: seq<Key>)
    ensures ServicePlan(sr, dels) == PutServices(BuildsServices.DesiredServiceList(sr.route)) + DeleteServices(dels)
  {
  }

  lemma ExecutedWhole(s: Store, ws: seq<Write>, t: Store, ws': seq<Write>, plan: seq<Write>)
    requires Executed(s, ws, t, ws', plan, true)
    ensures t == ApplyAll(s, plan)
  {
    assert plan[..|plan|] == plan;
  }

  lemma DeletionStep(s: Store, ws: seq<Write>, t: Store, ws': seq<Write>, u: Store, ws'': seq<Write>,
                     keys: seq<Key>, i: nat, accepted: bool)
    requires i < |keys| && Executed(s, ws, t, ws', DeleteServices(keys[..i]), true)
    requires (u == t && ws'' == ws' && !accepted) || (u == Apply(t, DeleteService(keys[i])) && ws'' == ws' + [DeleteService(keys[i])])
    ensures Executed(s, ws, u, ws'', DeleteServices(keys[..i + 1]), accepted)
    ensures Executed(s, ws, u, ws'', DeleteServices(keys), false)
  {
    hide Executed, Apply;
    var done, rest := DeleteServices(keys[..i]), DeleteServices(keys[i + 1..]);
    assert DeleteServices(keys[..i + 1]) == done + [DeleteService(keys[i])];
    assert DeleteServices(keys) == done + [DeleteService(keys[i])] + rest;
    ExecutedStep(s, ws, t, ws', u, ws'', done, DeleteService(keys[i]), rest, accepted);
  }

  // ---- the three parts of the plan for a live route ----

  lemma LiveStopsAtFinalizer(gateways: seq<string>, s: Store, ws: seq<Write>, t: Store, ws': seq<Write>,
                             sr: StoredRoute, group: set<Route>, dels: seq<Key>)
    requires Executed(s, ws, t, ws', FinalizerPlan(sr), false)
    ensures Executed(s, ws, t, ws', LivePlan(gateways, sr, group, dels), false)
  {
    hide Executed, FinalizerPlan, ServicePlan, VirtualServicePlan;
    ExecutedPartly(s, ws, t, ws', FinalizerPlan(sr), ServicePlan(sr, dels));
    ExecutedPartly(s, ws, t, ws', FinalizerPlan(sr) + ServicePlan(sr, dels), VirtualServicePlan(gateways, sr.route.FQDN(), group));
  }

  lemma LiveServed(gateways: seq<string>, s: Store, ws: seq<Write>, t: Store, ws': seq<Write>, u: Store, ws'': seq<Write>,
                   sr: StoredRoute, group: set<Route>, dels: seq<Key>, complete: bool)
    requires Executed(s, ws, t, ws', FinalizerPlan(sr), true)
    requires Executed(t, ws', u, ws'', ServicePlan(sr, dels), complete)
    ensures Executed(s, ws, u, ws'', FinalizerPlan(sr) + ServicePlan(sr, dels), complete)
    ensures Executed(s, ws, u, ws'', LivePlan(gateways, sr, group, dels), false)
  {
    hide FinalizerPlan, ServicePlan, VirtualServicePlan;
    ExecutedThen(s, ws, t, ws', u, ws'', FinalizerPlan(sr), ServicePlan(sr, dels), complete);
    ExecutedPartly(s, ws, u, ws'', FinalizerPlan(sr) + ServicePlan(sr, dels), VirtualServicePlan(gateways, sr.route.FQDN(), group));
  }

  lemma LiveDone(gateways: seq<string>, s: Store, ws: seq<Write>, t: Store, ws': seq<Write>, u: Store, ws'': seq<Write>,
                 sr: StoredRoute, group: set<Route>, dels: seq<Key>, complete: bool, claimed: bool)
    requires Executed(s, ws, t, ws', FinalizerPlan(sr) + ServicePlan(sr, dels), true)
    requires Executed(t, ws', u, ws'', VirtualServicePlan(gateways, sr.route.FQDN(), group), complete)
    requires claimed ==> complete
    ensures Executed(s, ws, u, ws'', LivePlan(gateways, sr, group, dels), claimed)
  {
    hide FinalizerPlan, ServicePlan, VirtualServicePlan;
    ExecutedThen(s, ws, t, ws', u, ws'', FinalizerPlan(sr) + ServicePlan(sr, dels), VirtualServicePlan(gateways, sr.route.FQDN(), group), complete);
    ExecutedWeaken(s, ws, u, ws'', LivePlan(gateways, sr, group, dels), complete, claimed);
  }

  class RouteReconciler {
    const api: ApiServer
    const istioGateway: string

    constructor (api: ApiServer, istioGateway: string)
      ensures this.api == api && this.istioGateway == istioGateway
    {
      this.api := api;
      this.istioGateway := istioGateway;
    }

    function Gateways(): seq<string>
    {
      [istioGateway]
    }

    /** Unless others acted, the writes sent since the old state are a prefix of the plan. */
    twostate predicate Follows(plan: seq<Write>, complete: bool)
      reads api
    {
      api.envs == old(api.envs) ==>
        Executed(old(api.store), old(api.writes), api.store, api.writes, plan, complete)
    }

    method DeleteServiceList(services: seq<Service>) returns (err: Option<ApiError>)
      requires api.Valid()
      modifies api
      ensures api.Valid() && api.Runs() && api.lostReads == old(api.lostReads)
      ensures Rely(old(api.store), api.store)
      ensures err.None? ==> forall k :: k in KeysOf(services) ==> k !in api.store.services
      ensures Follows(DeleteServices(KeysOf(services)), err.None?)
      ensures
        (&& err.Some? && api.envs == old(api.envs) && NoDuplicates(KeysOf(services))
         && forall k :: k in KeysOf(services) ==> k in old(api.store.services))
        ==> api.failures > old(api.failures)
    {
      hide StoreOk, StaysSafe, WrittenAreSafe, AllWereAllowed, Apply, Rely, Executed;
      ghost var keys := KeysOf(services);
      RelyReflexive(api.store);
      ExecutedNothing(api.store, api.writes, []);
      assert DeleteServices(keys[..0]) == [];
      for i := 0 to |services|
        invariant api.Valid() && api.Runs() && api.lostReads == old(api.lostReads)
        invariant Rely(old(api.store), api.store)
        invariant forall j :: 0 <= j < i ==> keys[j] !in api.store.services
        invariant Follows(DeleteServices(keys[..i]), true)
      {
        label before:
        ghost var mid;
        assert keys[i] == ServiceKey(services[i]);
        err, mid := api.DeleteService(ServiceKey(services[i]));
        DeletedKeysStayDeleted(old@before(api.store), mid, api.store, keys, i);
        RelyTransitive(old(api.store), old@before(api.store), mid);
        RelyTransitive(old(api.store), mid, api.store);
        if api.envs == old(api.envs) {
          StillThere(old(api.store), old(api.writes), old@before(api.store), old@before(api.writes), keys, i);
          DeletionStep(old(api.store), old(api.writes), old@before(api.store), old@before(api.writes), api.store, api.writes,
                       keys, i, err.None?);
        }
        if err.Some? {
          return;
        }
      }
      assert keys[..|services|] == keys;
      return None;
    }

    /** The loop of creates and updates. */
    method PutServiceList(route: StoredRoute, desired: seq<Service>, ghost later: seq<Write>) returns (err: Option<ApiError>)
      requires api.Valid() && desired == BuildsServices.DesiredServiceList(route.route)
      requires HoldsFinalizer(api.store.routes, RouteKey(route.route), route.route.meta.uid)
      modifies api
      ensures api.Valid() && api.Runs() && api.lostReads == old(api.lostReads)
      ensures Shrinks(api.store.issued, old(api.store.issued))
      ensures err.None? ==> Follows(PutServices(desired), true)
      ensures err.Some? ==> Follows(PutServices(desired) + later, false)
      ensures err.Some? && api.envs == old(api.envs) ==> api.failures > old(api.failures)
    {
      hide StoreOk, StaysSafe, WrittenAreSafe, AllWereAllowed, Apply, Rely, Executed, HoldsFinalizer, OwnerHolds,
           WriteAllowed, BuildsServices.DesiredService;
      ExecutedNothing(api.store, api.writes, []);
      assert PutServices(desired[..0]) == [];
      for i := 0 to |desired|
        invariant api.Valid() && api.Runs() && api.lostReads == old(api.lostReads)
        invariant Shrinks(api.store.issued, old(api.store.issued))
        invariant HoldsFinalizer(api.store.routes, RouteKey(route.route), route.route.meta.uid)
        invariant Follows(PutServices(desired[..i]), true)
      {
        label before:
        ghost var mid;
        var sv := desired[i];
        DesiredIsOwned(api.store.routes, route.route, i);
        err, mid := api.CreateOrUpdateService(sv);
        PutServiceKeeps(old@before(api.store), mid, api.store, sv, RouteKey(route.route), route.route.meta.uid);
        if api.envs == old(api.envs) {
          ghost var done, rest := PutServices(desired[..i]), PutServices(desired[i + 1..]);
          assert PutServices(desired[..i + 1]) == done + [PutService(sv)];
          assert PutServices(desired) + later == done + [PutService(sv)] + (rest + later);
          ExecutedStep(old(api.store), old(api.writes), old@before(api.store), old@before(api.writes), api.store, api.writes,
                       done, PutService(sv), rest + later, err.None?);
        }
        if err.Some? {
          return;
        }
      }
      assert desired[..|desired|] == desired;
      return None;
    }

    /** The owned Services are read before the creates, and only that old list is pruned. */
    method ReconcileServices(route: StoredRoute) returns (err: Option<ApiError>, ghost dels: seq<Key>)
      requires api.Valid() && !route.deleting
      requires HoldsFinalizer(api.store.routes, RouteKey(route.route), route.route.meta.uid)
      modifies api
      ensures api.Valid() && api.Runs() && api.lostReads == old(api.lostReads)
      ensures Shrinks(api.store.issued, old(api.store.issued))
      ensures api.envs == old(api.envs) ==> IsOrderOf(dels, Doomed(old(api.store.services), route))
      ensures Follows(ServicePlan(route, dels), err.None?)
      ensures err.Some? && api.envs == old(api.envs) ==> api.failures > old(api.failures)
    {
      hide StoreOk, StaysSafe, WrittenAreSafe, AllWereAllowed, Apply, Rely, HoldsFinalizer, Doomed, OwnedBy, Executed,
           IsOrderOf, Undesired, ServicePlan, PutServices, DeleteServices, BuildsServices.DesiredService;
      dels := SomeOrder(Doomed(api.store.services, route));
      var desiredServices := BuildsServices.Build(route.route);
      var actualServicesForRoute;
      err, actualServicesForRoute := api.ListServices(route.route.meta.namespace, route.route.meta.uid);
      OwnerStays(old(api.store), api.store, RouteKey(route.route), route.route.meta.uid);
      if err.Some? {
        ExecutedNothing(api.store, api.writes, ServicePlan(route, dels));
        return;
      }
      var servicesToDelete := FindServicesForDeletion(actualServicesForRoute, desiredServices);
      dels := KeysOf(servicesToDelete);
      PruneOrder(api.store, route, actualServicesForRoute);
      ServicePlanParts(route, dels);
      label listed:
      err := PutServiceList(route, desiredServices, DeleteServices(dels));
      if err.Some? {
        return;
      }
      label created:
      if api.envs == old(api.envs) {
        ExecutedWhole(old(api.store), old(api.writes), api.store, api.writes, PutServices(desiredServices));
      }
      err := DeleteServiceList(servicesToDelete);
      RelyGrowsIssued(old@created(api.store), api.store);
      if api.envs == old(api.envs) {
        ExecutedThen(old(api.store), old(api.writes), old@created(api.store), old@created(api.writes), api.store, api.writes,
                     PutServices(desiredServices), DeleteServices(dels), err.None?);
      }
    }

    /** The loop of creates and updates. */
    method PutVirtualServiceList(desired: seq<VirtualService>) returns (err: Option<ApiError>)
      requires api.Valid() && forall vs :: vs in desired ==> RenderedAt(api.store.issued, VirtualServiceKey(vs), vs)
      modifies api
      ensures api.Valid() && api.Runs() && api.lostReads == old(api.lostReads)
      ensures Rely(old(api.store), api.store)
      ensures Follows(PutVirtualServices(desired), err.None?)
      ensures err.Some? && api.envs == old(api.envs) ==> api.failures > old(api.failures)
    {
      hide StoreOk, StaysSafe, WrittenAreSafe, AllWereAllowed, Apply, RenderedAt;
      RelyReflexive(api.store);
      for i := 0 to |desired|
        invariant api.Valid() && api.Runs() && api.lostReads == old(api.lostReads)
        invariant Rely(old(api.store), api.store)
        invariant Follows(PutVirtualServices(desired[..i]), true)
      {
        label before:
        ghost var mid;
        var vs := desired[i];
        RenderingSurvives(old(api.store).issued, api.store.issued, VirtualServiceKey(vs), vs);
        err, mid := api.CreateOrUpdateVirtualService(vs);
        PutVirtualServiceIsRely(mid, vs);
        RelyTransitive(old(api.store), old@before(api.store), mid);
        RelyTransitive(old(api.store), mid, api.store);
        if api.envs == old(api.envs) {
          ghost var done, rest := PutVirtualServices(desired[..i]), PutVirtualServices(desired[i + 1..]);
          assert PutVirtualServices(desired[..i + 1]) == done + [PutVirtualService(vs)];
          assert PutVirtualServices(desired) == done + [PutVirtualService(vs)] + rest;
          ExecutedStep(old(api.store), old(api.writes), old@before(api.store), old@before(api.writes), api.store, api.writes,
                       done, PutVirtualService(vs), rest, err.None?);
        }
        if err.Some? {
          return;
        }
      }
      assert desired[..|desired|] == desired;
      return None;
    }

    /** `namespace` and `fqdn` are those of the list. */
    method ReconcileVirtualServices(routes: RouteList, ghost namespace: string, ghost fqdn: string)
      returns (err: Option<ReconcileError>)
      requires api.Valid() && routes.Valid() && ListOk(api.store.issued, routes.Contents(), namespace, fqdn)
      modifies api
      ensures api.Valid() && api.Runs() && api.lostReads == old(api.lostReads)
      ensures Rely(old(api.store), api.store)
      ensures err.None? ==> GroupValid(Elements(routes.Contents()))
      ensures err.Some? && api.envs == old(api.envs) && api.failures == old(api.failures) ==> ExplainedBy(err.value, Elements(routes.Contents()))
      ensures UrlsUnique(Elements(routes.Contents())) ==>
        Follows(VirtualServicePlan(Gateways(), fqdn, Elements(routes.Contents())), err.None? || api.failures == old(api.failures))
      ensures err.Some? && api.envs == old(api.envs) && GroupValid(Elements(routes.Contents())) ==> api.failures > old(api.failures)
    {
      hide StoreOk, StaysSafe, WrittenAreSafe, AllWereAllowed, Apply, GroupValid, RenderedAt, Rely, IsBuildOf,
           ListValid, ListOk, Explains, DesiredVirtualService, UrlsUnique;
      ghost var items := routes.Contents();
      RelyReflexive(api.store);
      ListValidity(api.store.issued, items, namespace, fqdn);
      ghost var plan := VirtualServicePlan(Gateways(), fqdn, Elements(items));
      var desiredVirtualServices, fqdns := BuildsVirtualServices.Build(Gateways(), routes);
      if desiredVirtualServices.Err? {
        ExecutedNothing(api.store, api.writes, plan);
        return Some(BuildFailed(desiredVirtualServices.error));
      }
      var vss := desiredVirtualServices.value;
      SingleBuild(Gateways(), items, namespace, fqdn, api.store.issued, fqdns, vss);
      PlanOfBuild(Gateways(), fqdn, items, vss);
      var apiErr := PutVirtualServiceList(vss);
      return if apiErr.Some? then Some(ApiFailed(apiErr.value)) else None;
    }

    /** The VirtualService of a route that goes: rewritten without it, or deleted with the
        last route. A read that fails other than by NotFound is passed over in silence. */
    method RetireVirtualService(route: Route, routes: RouteList) returns (err: Option<ReconcileError>)
      requires api.Valid() && routes.Valid()
      requires ListOk(api.store.issued, routes.Contents(), route.meta.namespace, route.FQDN())
      modifies api
      ensures api.Valid() && api.Runs()
      ensures Rely(old(api.store), api.store)
      ensures err.None? ==> GroupValid(Elements(routes.Contents()))
      ensures err.Some? && api.envs == old(api.envs) && api.failures == old(api.failures) ==> ExplainedBy(err.value, Elements(routes.Contents()))
      ensures UrlsUnique(Elements(routes.Contents())) ==>
        Follows(RetirePlan(Gateways(), old(api.store).virtualServices, route, Elements(routes.Contents()), api.lostReads == old(api.lostReads)),
                err.None? || api.failures == old(api.failures))
      ensures err.Some? && api.envs == old(api.envs) && GroupValid(Elements(routes.Contents())) ==> api.failures > old(api.failures)
    {
      hide StoreOk, StaysSafe, WrittenAreSafe, AllWereAllowed, Apply, GroupValid, ListOk, VirtualServicePlan;
      ghost var rest := Elements(routes.Contents());
      RelyReflexive(api.store);
      if routes.len == 0 {
        assert rest == {};
        EmptyGroupIsValid();
        var key := VsKey(route.meta.namespace, VirtualServiceName(route.FQDN()));
        var vs := api.GetVirtualService(key);
        if vs.Err? {
          ExecutedNothing(api.store, api.writes, []);
          return None;
        }
        label read:
        ghost var mid;
        var apiErr;
        apiErr, mid := api.DeleteVirtualService(key);
        DeleteVirtualServiceIsRely(mid, key);
        RelyTransitive(old(api.store), old@read(api.store), mid);
        RelyTransitive(old(api.store), mid, api.store);
        if api.envs == old(api.envs) {
          ExecutedOne(old(api.store), old(api.writes), api.store, api.writes, DeleteVirtualService(key), apiErr.None?);
        }
        return if apiErr.Some? then Some(ApiFailed(apiErr.value)) else None;
      }
      assert routes.Contents()[0] in rest;
      err := ReconcileVirtualServices(routes, route.meta.namespace, route.FQDN());
    }

    /** The first half of finalization: no Service is left that names the route as owner. */
    method DeleteOwnedServices(route: StoredRoute) returns (err: Option<ApiError>, ghost dels: seq<Key>)
      requires api.Valid() && route.deleting
      modifies api
      ensures api.Valid() && api.Runs() && api.lostReads == old(api.lostReads)
      ensures Rely(old(api.store), api.store)
      ensures err.None? ==> NoServicesOf(api.store.services, route.route.meta.namespace, route.route.meta.uid)
      ensures api.envs == old(api.envs) ==> IsOrderOf(dels, Doomed(old(api.store.services), route))
      ensures Follows(DeleteServices(dels), err.None?)
      ensures err.Some? && api.envs == old(api.envs) ==> api.failures > old(api.failures)
    {
      hide StoreOk, StaysSafe, WrittenAreSafe, AllWereAllowed, Apply;
      dels := SomeOrder(Doomed(api.store.services, route));
      var actualServicesForRoute;
      err, actualServicesForRoute := api.ListServices(route.route.meta.namespace, route.route.meta.uid);
      if err.Some? {
        ExecutedNothing(api.store, api.writes, DeleteServices(dels));
        return;
      }
      dels := KeysOf(actualServicesForRoute);
      AllOwnedAreDoomed(api.store.services, route, dels);
      label listed:
      err := DeleteServiceList(actualServicesForRoute);
      RelyTransitive(old(api.store), old@listed(api.store), api.store);
      if err.None? {
        NoneLeft(old@listed(api.store).services, api.store.services, route.route.meta.namespace, route.route.meta.uid, dels);
      }
    }

    /** The last step: the controller gives up its finalizer. */
    method ReleaseRoute(route: StoredRoute) returns (err: Option<ReconcileError>)
      requires api.Valid() && Seen(api.store, route) && route.deleting
      requires NoServicesOf(api.store.services, route.route.meta.namespace, route.route.meta.uid)
      modifies api
      ensures api.Valid() && api.Runs() && api.lostReads == old(api.lostReads)
      ensures Follows([UpdateRoute(WithoutFinalizer(route))], err.None?)
      ensures
        (&& err.Some? && api.envs == old(api.envs)
         && RouteKey(route.route) in old(api.store.routes) && old(api.store.routes)[RouteKey(route.route)] == route)
        ==> api.failures > old(api.failures)
    {
      hide StoreOk, StaysSafe, WrittenAreSafe, AllWereAllowed, Apply;
      ghost var mid;
      var apiErr;
      FinalizerUpdatesFollow(route);
      apiErr, mid := api.UpdateRoute(WithoutFinalizer(route), route);
      if api.envs == old(api.envs) {
        ExecutedOne(old(api.store), old(api.writes), api.store, api.writes, UpdateRoute(WithoutFinalizer(route)), apiErr.None?);
      }
      return if apiErr.Some? then Some(ApiFailed(apiErr.value)) else None;
    }

    method FinalizeRouteForDeletion(route: StoredRoute, routes: RouteList)
      returns (err: Option<ReconcileError>, ghost dels: seq<Key>)
      requires api.Valid() && Seen(api.store, route) && route.deleting
      requires routes.Valid() && NamesDistinct(routes.Contents())
      requires ListOk(api.store.issued, routes.Contents(), route.route.meta.namespace, route.route.FQDN())
      modifies api, routes, routes.items
      ensures api.Valid() && api.Runs()
      ensures api.envs == old(api.envs) ==> IsOrderOf(dels, Doomed(old(api.store.services), route))
      ensures err.None? ==> GroupValid(Others(old(routes.Contents()), route.route))
      ensures
        (&& err.Some? && api.envs == old(api.envs) && api.failures == old(api.failures) && StoredAs(old(api.store), route)
         && UrlsUnique(Others(old(routes.Contents()), route.route)))
        ==> ExplainedBy(err.value, Others(old(routes.Contents()), route.route))
      ensures StoredAs(old(api.store), route) && UrlsUnique(Others(old(routes.Contents()), route.route)) ==>
        Follows(FinalizationPlan(Gateways(), old(api.store).virtualServices, route, Others(old(routes.Contents()), route.route),
                                 api.lostReads == old(api.lostReads), dels),
                err.None? || api.failures == old(api.failures))
      ensures
        (&& err.Some? && api.envs == old(api.envs) && StoredAs(old(api.store), route)
         && UrlsUnique(Others(old(routes.Contents()), route.route)) && GroupValid(Others(old(routes.Contents()), route.route)))
        ==> api.failures > old(api.failures)
    {
      hide StoreOk, StaysSafe, WrittenAreSafe, AllWereAllowed, Apply, GroupValid, ListOk, UrlsUnique, Rely, Seen,
           NoServicesOf, Doomed, Executed, RetirePlan, FinalizationPlan;
      ghost var gws, rest, vss := Gateways(), Others(routes.Contents(), route.route), api.store.virtualServices;
      var apiErr;
      apiErr, dels := DeleteOwnedServices(route);
      SeenSurvives(old(api.store), api.store, route);
      if api.envs == old(api.envs) {
        AfterDeletes(gws, old(api.store), old(api.writes), api.store, api.writes, route, rest,
                     api.lostReads == old(api.lostReads), dels, apiErr.None?);
      }
      if apiErr.Some? {
        return Some(ApiFailed(apiErr.value)), dels;
      }
      label deleted:
      var n := RemoveRouteFromRouteList(route.route, routes);
      routes.len := n;
      RestOfList(old(api.store), api.store, routes.Contents(), old(routes.Contents()), route.route);
      err := RetireVirtualService(route.route, routes);
      SeenSurvives(old@deleted(api.store), api.store, route);
      NoServicesSurvives(old@deleted(api.store), api.store, route.route.meta.namespace, route.route.meta.uid);
      ghost var ok := api.lostReads == old(api.lostReads);
      ghost var complete := err.None? || api.failures == old@deleted(api.failures);
      if api.envs == old(api.envs) && UrlsUnique(rest) {
        AfterRetire(gws, old(api.store), old(api.writes), old@deleted(api.store), old@deleted(api.writes), api.store, api.writes,
                    route, rest, ok, dels, complete);
      }
      if err.Some? {
        if api.envs == old(api.envs) && UrlsUnique(rest) {
          ExecutedWeaken(old(api.store), old(api.writes), api.store, api.writes,
                         FinalizationPlan(gws, vss, route, rest, ok, dels), complete && !GroupValid(rest), api.failures == old(api.failures));
        }
        return err, dels;
      }
      label retired:
      err := ReleaseRoute(route);
      if api.envs == old(api.envs) && UrlsUnique(rest) {
        AfterRelease(gws, old(api.store), old(api.writes), old@retired(api.store), old@retired(api.writes), api.store, api.writes,
                     route, rest, ok, dels, err.None?);
      }
    }

    /** Adds the finalizer of a live route, unless it is there already. */
    method EnsureFinalizer(route: StoredRoute) returns (err: Option<ApiError>)
      requires api.Valid() && Seen(api.store, route) && !route.deleting
      requires HasFinalizer(route) ==> HoldsFinalizer(api.store.routes, RouteKey(route.route), route.route.meta.uid)
      modifies api
      ensures api.Valid() && api.Runs() && api.lostReads == old(api.lostReads)
      ensures Shrinks(api.store.issued, old(api.store.issued))
      ensures err.None? ==> HoldsFinalizer(api.store.routes, RouteKey(route.route), route.route.meta.uid)
      ensures Follows(FinalizerPlan(route), err.None?)
      ensures err.Some? && api.envs == old(api.envs) && StoredAs(old(api.store), route) ==> api.failures > old(api.failures)
    {
      hide StoreOk, StaysSafe, WrittenAreSafe, AllWereAllowed, Rely;
      var found := HasFinalizerNamed(route.finalizers, FINALIZER_NAME);
      if found {
        ExecutedNothing(api.store, api.writes, FinalizerPlan(route));
        return None;
      }
      ghost var mid;
      FinalizerUpdatesFollow(route);
      err, mid := api.UpdateRoute(WithFinalizer(route), route);
      RelyGrowsIssued(old(api.store), mid);
      if api.envs == old(api.envs) {
        ExecutedOne(old(api.store), old(api.writes), api.store, api.writes, UpdateRoute(WithFinalizer(route)), err.None?);
      }
    }

    /** The body of Reconcile for a route that is not marked for deletion. */
    method ReconcileLive(route: StoredRoute, routes: RouteList, ghost group: set<Route>)
      returns (err: Option<ReconcileError>, ghost dels: seq<Key>)
      requires api.Valid() && Seen(api.store, route) && !route.deleting
      requires HasFinalizer(route) ==> HoldsFinalizer(api.store.routes, RouteKey(route.route), route.route.meta.uid)
      requires routes.Valid() && Elements(routes.Contents()) == group
      requires ListOk(api.store.issued, routes.Contents(), route.route.meta.namespace, route.route.FQDN())
      modifies api
      ensures api.Valid() && api.Runs() && api.lostReads == old(api.lostReads)
      ensures api.envs == old(api.envs) ==> IsOrderOf(dels, Doomed(old(api.store.services), route))
      ensures err.None? ==> GroupValid(group)
      ensures err.Some? && api.envs == old(api.envs) && api.failures == old(api.failures) && StoredAs(old(api.store), route) ==>
        ExplainedBy(err.value, group)
      ensures UrlsUnique(group) && StoredAs(old(api.store), route) ==>
        Follows(LivePlan(Gateways(), route, group, dels), err.None? || api.failures == old(api.failures))
      ensures
        (&& err.Some? && api.envs == old(api.envs) && StoredAs(old(api.store), route)
         && GroupValid(group))
        ==> api.failures > old(api.failures)
    {
      hide StoreOk, StaysSafe, WrittenAreSafe, AllWereAllowed, Apply, GroupValid, ListOk, UrlsUnique, Rely, Seen,
           HoldsFinalizer, Doomed, Executed, VirtualServicePlan, ServicePlan, FinalizerPlan, LivePlan, IsOrderOf,
           Elements;
      dels := SomeOrder(Doomed(api.store.services, route));
      var apiErr := EnsureFinalizer(route);
      if apiErr.Some? {
        if api.envs == old(api.envs) {
          LiveStopsAtFinalizer(Gateways(), old(api.store), old(api.writes), api.store, api.writes, route, group, dels);
        }
        return Some(ApiFailed(apiErr.value)), dels;
      }
      label held:
      apiErr, dels := ReconcileServices(route);
      if api.envs == old(api.envs) {
        FinalizerLeavesServices(old(api.store), old(api.writes), old@held(api.store), old@held(api.writes), route);
        LiveServed(Gateways(), old(api.store), old(api.writes), old@held(api.store), old@held(api.writes), api.store, api.writes,
                   route, group, dels, apiErr.None?);
      }
      if apiErr.Some? {
        return Some(ApiFailed(apiErr.value)), dels;
      }
      label served:
      ListOkSurvives(old(api.store.issued), api.store.issued, routes.Contents(), route.route.meta.namespace, route.route.FQDN());
      err := ReconcileVirtualServices(routes, route.route.meta.namespace, route.route.FQDN());
      if api.envs == old(api.envs) && UrlsUnique(group) {
        LiveDone(Gateways(), old(api.store), old(api.writes), old@served(api.store), old@served(api.writes), api.store, api.writes,
                 route, group, dels, err.None? || api.failures == old@served(api.failures), err.None? || api.failures == old(api.failures));
      }
    }

    /** The body of Reconcile once the route and the list have been read. */
    method ReconcileFound(route: StoredRoute, routes: RouteList) returns (err: Option<ReconcileError>, ghost dels: seq<Key>)
      requires api.Valid() && Seen(api.store, route)
      requires HasFinalizer(route) ==> HoldsFinalizer(api.store.routes, RouteKey(route.route), route.route.meta.uid)
      requires routes.Valid() && NamesDistinct(routes.Contents())
      requires ListOk(api.store.issued, routes.Contents(), route.route.meta.namespace, route.route.FQDN())
      modifies api, routes, routes.items
      ensures api.Valid() && api.Runs()
      ensures Current(old(api.store), route, old(routes.Contents())) ==>
        var s, key := old(api.store), RouteKey(route.route);
        && (api.envs == old(api.envs) ==> IsOrderOf(dels, DoomedAt(s, key)))
        && (err.Some? && api.envs == old(api.envs) && api.failures == old(api.failures) && UrlsUniqueAt(s, key) ==>
              ExplainedBy(err.value, ToBuild(s, key)))
        && (UrlsUniqueAt(s, key) ==>
              && Follows(Plan(Gateways(), s, key, api.lostReads == old(api.lostReads), dels), err.None? || api.failures == old(api.failures))
              && (api.envs == old(api.envs) && api.failures == old(api.failures) ==>
                    api.store == Settle(Gateways(), s, key) && (err.None? <==> Succeeds(s, key)))
              && (api.envs == old(api.envs) && api.lostReads == old(api.lostReads) && err.None? ==>
                    api.store == Settle(Gateways(), s, key) && Succeeds(s, key)))
    {
      hide StoreOk, StaysSafe, WrittenAreSafe, AllWereAllowed, Apply, Rely, Executed, GroupValid, ListOk, Seen,
           Settle, Plan, DoomedAt, UrlsUniqueAt, Succeeds, HoldsFinalizer, GroupOf, UrlsUnique;
      ghost var s, key, items := api.store, RouteKey(route.route), routes.Contents();
      ghost var ok;
      if !route.deleting {
        err, dels := ReconcileLive(route, routes, Elements(items));
        ok := api.lostReads == old(api.lostReads);
        if Current(s, route, items) {
          PlanOfLiveRoute(Gateways(), s, key, route, items, ok, dels);
        }
      } else {
        var found := HasFinalizerNamed(route.finalizers, FINALIZER_NAME);
        if !found {
          dels := SomeOrder(DoomedAt(s, key));
          if Current(s, route, items) {
            PlanOfReleasedRoute(Gateways(), s, key, true, dels);
            ExecutedNothing(s, api.writes, []);
          }
          return None, dels;
        }
        err, dels := FinalizeRouteForDeletion(route, routes);
        ok := api.lostReads == old(api.lostReads);
        if Current(s, route, items) {
          PlanOfDeletingRoute(Gateways(), s, key, route, items, ok, dels);
        }
      }
      if Current(s, route, items) && api.envs == old(api.envs) && UrlsUniqueAt(s, key) {
        Conclude(Gateways(), s, old(api.writes), api.store, api.writes, key, ok, dels, err.None?, api.failures == old(api.failures));
      }
    }

    /** Level triggered: whatever the request was caused by, the route is read afresh. No
        object loses its safety in any state on the way. While nobody else acts, the writes are
        a prefix of the plan for the state that was found, all of it unless a call failed; and
        if no call failed either, the store ends up settled, with an error reported exactly
        when the FQDN's routes do not build. */
    method Reconcile(key: Key) returns (err: Option<ReconcileError>, ghost dels: seq<Key>)
      requires api.Valid()
      modifies api
      ensures api.Valid() && api.Runs()
      ensures api.envs == old(api.envs) ==> IsOrderOf(dels, DoomedAt(old(api.store), key))
      ensures UrlsUniqueAt(old(api.store), key) && err.Some? && api.envs == old(api.envs) && api.failures == old(api.failures) ==>
        ExplainedBy(err.value, ToBuild(old(api.store), key))
      ensures UrlsUniqueAt(old(api.store), key) ==>
        Follows(Plan(Gateways(), old(api.store), key, api.lostReads == old(api.lostReads), dels),
                err.None? || api.failures == old(api.failures))
      ensures UrlsUniqueAt(old(api.store), key) && api.envs == old(api.envs) && api.failures == old(api.failures) ==>
        api.store == Settle(Gateways(), old(api.store), key) && (err.None? <==> Succeeds(old(api.store), key))
      ensures UrlsUniqueAt(old(api.store), key) && api.envs == old(api.envs) && api.lostReads == old(api.lostReads) && err.None? ==>
        api.store == Settle(Gateways(), old(api.store), key) && Succeeds(old(api.store), key)
    {
      hide StoreOk, StaysSafe, WrittenAreSafe, AllWereAllowed, Apply, Rely, Executed, GroupValid, ListOk, Seen,
           Settle, Plan, DoomedAt, UrlsUniqueAt, Succeeds, HoldsFinalizer, GroupOf;
      ghost var s := api.store;
      dels := SomeOrder(DoomedAt(s, key));
      var read := api.GetRoute(key);
      if read.Err? {
        ExecutedNothing(s, api.writes, Plan(Gateways(), s, key, api.lostReads == old(api.lostReads), dels));
        if read.error == NotFound {
          PlanOfAbsentRoute(Gateways(), s, key, true, dels);
          return None, dels;
        }
        return Some(ApiFailed(read.error)), dels;
      }
      var route := read.value;
      StoredIsSeen(api.store, key);
      label read:
      var listErr, routes := api.ListRoutes(key.namespace, route.route.FQDN());
      if listErr.Some? {
        ExecutedNothing(s, api.writes, Plan(Gateways(), s, key, api.lostReads == old(api.lostReads), dels));
        return Some(ApiFailed(listErr.value)), dels;
      }
      SeenSurvives(old@read(api.store), api.store, route);
      HeldSurvives(old@read(api.store), api.store, key);
      ListIsOkIn(api.store, routes.Contents(), key.namespace, route.route.FQDN());
      label found:
      err, dels := ReconcileFound(route, routes);
      if api.envs == old(api.envs) && UrlsUniqueAt(s, key) {
        ExecutedWeaken(s, old(api.writes), api.store, api.writes,
                       Plan(Gateways(), s, key, api.lostReads == old(api.lostReads), dels),
                       err.None? || api.failures == old@found(api.failures), err.None? || api.failures == old(api.failures));
      }
    }
  }
}
