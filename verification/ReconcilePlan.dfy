/** What one Reconcile of a route is meant to do: the writes it plans from the state it
    reads, and the state those writes lead to. */
module ReconcilePlan {
  import opened RouteTypes
  import opened Resources
  import opened ServiceBuilder
  import opened VirtualServiceSpec
  import opened ClusterStore

  // ---- what the two field indexes select ----

  /** The routes of one FQDN in one namespace. */
  ghost function GroupOf(routes: Routes, namespace: string, fqdn: string): set<Route>
  {
    set k | k in routes && k.namespace == namespace && routes[k].route.FQDN() == fqdn :: routes[k].route
  }

  ghost function SiblingsOf(routes: Routes, r: Route): set<Route>
  {
    GroupOf(routes, r.meta.namespace, r.FQDN())
  }

  /** The Services of a namespace whose first owner has the UID. */
  ghost function Owned(services: Services, namespace: string, uid: string): set<Key>
  {
    set k | k in services && k.namespace == namespace && OwnedBy(services[k], uid)
  }

  // ---- desired children ----

  /** The last of several Services of the same name wins. */
  function ServicesByKey(list: seq<Service>): Services
  {
    if list == [] then map[] else
      var n := |list| - 1;
      ServicesByKey(list[..n])[ServiceKey(list[n]) := list[n]]
  }

  function DesiredServices(r: Route): Services
  {
    ServicesByKey(DesiredServiceList(r))
  }

  lemma {:induction false} ListedAreDesired(list: seq<Service>, i: nat)
    requires i < |list|
    ensures ServiceKey(list[i]) in ServicesByKey(list)
  {
    if i < |list| - 1 {
      ListedAreDesired(list[..|list| - 1], i);
    }
  }

  ghost function DesiredVirtualService(gateways: seq<string>, fqdn: string, group: set<Route>): VirtualService
    requires group != {}
  {
    Render(gateways, fqdn, InUrlOrder(group))
  }

  /** Owned Services that the route no longer wants; all of them when it is being deleted. */
  ghost function Doomed(services: Services, sr: StoredRoute): set<Key>
  {
    set k | k in Owned(services, sr.route.meta.namespace, sr.route.meta.uid) && (sr.deleting || k !in DesiredServices(sr.route))
  }

  ghost function DoomedAt(s: Store, key: Key): set<Key>
  {
    if key in s.routes then Doomed(s.services, s.routes[key]) else {}
  }

  // ---- finalizers ----

  function WithFinalizer(sr: StoredRoute): StoredRoute
  {
    sr.(finalizers := sr.finalizers + [FINALIZER_NAME])
  }

  function Without(finalizers: seq<string>, name: string): (r: seq<string>)
    ensures forall f :: f in r <==> f in finalizers && f != name
  {
    if finalizers == [] then [] else
      var n := |finalizers| - 1;
      Without(finalizers[..n], name) + if finalizers[n] == name then [] else [finalizers[n]]
  }

  lemma {:induction false} WithoutIsOthers(finalizers: seq<string>)
    ensures Without(finalizers, FINALIZER_NAME) == OthersOf(finalizers)
  {
    if finalizers != [] {
      var n := |finalizers| - 1;
      WithoutIsOthers(finalizers[..n]);
      OthersOfAppend(finalizers[..n], finalizers[n]);
      assert finalizers == finalizers[..n] + [finalizers[n]];
    }
  }

  function WithoutFinalizer(sr: StoredRoute): StoredRoute
  {
    sr.(finalizers := Without(sr.finalizers, FINALIZER_NAME))
  }

  lemma FinalizerUpdatesFollow(sr: StoredRoute)
    ensures !sr.deleting && !HasFinalizer(sr) ==> FinalizersChange(sr, WithFinalizer(sr).finalizers)
    ensures sr.deleting ==> FinalizersChange(sr, WithoutFinalizer(sr).finalizers)
  {
    WithoutIsOthers(sr.finalizers);
  }

  // ---- the plan ----

  function PutServices(list: seq<Service>): (ws: seq<Write>)
    ensures |ws| == |list|
  {
    seq(|list|, i requires 0 <= i < |list| => PutService(list[i]))
  }

  function DeleteServices(keys: seq<Key>): (ws: seq<Write>)
    ensures |ws| == |keys|
  {
    seq(|keys|, i requires 0 <= i < |keys| => DeleteService(keys[i]))
  }

  function FinalizerPlan(sr: StoredRoute): seq<Write>
  {
    if HasFinalizer(sr) then [] else [UpdateRoute(WithFinalizer(sr))]
  }

  function ServicePlan(sr: StoredRoute, dels: seq<Key>): seq<Write>
  {
    PutServices(DesiredServiceList(sr.route)) + DeleteServices(dels)
  }

  /** Nothing is written for an empty list, nor for a group that does not build. */
  ghost function VirtualServicePlan(gateways: seq<string>, fqdn: string, group: set<Route>): seq<Write>
  {
    if group != {} && GroupValid(group) then [PutVirtualService(DesiredVirtualService(gateways, fqdn, group))] else []
  }

  ghost function Rest(s: Store, sr: StoredRoute): set<Route>
  {
    SiblingsOf(s.routes, sr.route) - {sr.route}
  }

  function VsKeyOf(r: Route): VsKey
  {
    VsKey(r.meta.namespace, VirtualServiceName(r.FQDN()))
  }

  /** `vsGetOk` is false when the read of the VirtualService fails other than by NotFound:
      the code goes on as if there were none. */
  ghost function RetirePlan(gateways: seq<string>, virtualServices: VirtualServices, r: Route, rest: set<Route>, vsGetOk: bool): seq<Write>
  {
    if rest != {} then VirtualServicePlan(gateways, r.FQDN(), rest)
    else if vsGetOk && VsKeyOf(r) in virtualServices then [DeleteVirtualService(VsKeyOf(r))]
    else []
  }

  /** The finalizer stays when the remaining routes do not build. */
  ghost function ReleasePlan(sr: StoredRoute, rest: set<Route>): seq<Write>
  {
    if GroupValid(rest) then [UpdateRoute(WithoutFinalizer(sr))] else []
  }

  /** Services first, then the VirtualService, and the finalizer last. */
  ghost function FinalizationPlan(gateways: seq<string>, virtualServices: VirtualServices, sr: StoredRoute, rest: set<Route>,
                                  vsGetOk: bool, dels: seq<Key>): seq<Write>
  {
    DeleteServices(dels) + RetirePlan(gateways, virtualServices, sr.route, rest, vsGetOk) + ReleasePlan(sr, rest)
  }

  /** The finalizer first, then the Services, and the VirtualService last. */
  ghost function LivePlan(gateways: seq<string>, sr: StoredRoute, group: set<Route>, dels: seq<Key>): seq<Write>
  {
    FinalizerPlan(sr) + ServicePlan(sr, dels) + VirtualServicePlan(gateways, sr.route.FQDN(), group)
  }

  /** `dels` is the order in which the doomed Services happen to be listed. */
  ghost function Plan(gateways: seq<string>, s: Store, key: Key, vsGetOk: bool, dels: seq<Key>): seq<Write>
  {
    if key !in s.routes then [] else
      var sr := s.routes[key];
      if !sr.deleting then
        LivePlan(gateways, sr, SiblingsOf(s.routes, sr.route), dels)
      else if HasFinalizer(sr) then
        FinalizationPlan(gateways, s.virtualServices, sr, Rest(s, sr), vsGetOk, dels)
      else []
  }

  lemma EmptyGroupIsValid()
    ensures GroupValid({})
  {
  }

  /** The routes that share the FQDN of this one have distinct URLs. */
  ghost predicate UrlsUniqueAt(s: Store, key: Key)
  {
    key in s.routes ==> UrlsUnique(SiblingsOf(s.routes, s.routes[key].route))
  }

  /** Whether an undisturbed Reconcile returns without an error. */
  ghost predicate Succeeds(s: Store, key: Key)
  {
    key in s.routes ==>
      var sr := s.routes[key];
      if !sr.deleting then GroupValid(SiblingsOf(s.routes, sr.route))
      else HasFinalizer(sr) ==> GroupValid(Rest(s, sr))
  }

  // ---- the state it leads to ----

  ghost function SettledVirtualServices(gateways: seq<string>, virtualServices: VirtualServices, r: Route, group: set<Route>): VirtualServices
  {
    if group != {} && GroupValid(group) then
      virtualServices[VsKeyOf(r) := DesiredVirtualService(gateways, r.FQDN(), group)]
    else virtualServices
  }

  ghost function SettleLive(gateways: seq<string>, s: Store, sr: StoredRoute): Store
  {
    Store(
      if HasFinalizer(sr) then s.routes else PutRoute(s, WithFinalizer(sr)).routes,
      s.services - Doomed(s.services, sr) + DesiredServices(sr.route),
      SettledVirtualServices(gateways, s.virtualServices, sr.route, SiblingsOf(s.routes, sr.route)),
      s.issued)
  }

  ghost function RetiredVirtualServices(gateways: seq<string>, virtualServices: VirtualServices, r: Route, rest: set<Route>): VirtualServices
  {
    if rest == {} then virtualServices - {VsKeyOf(r)}
    else SettledVirtualServices(gateways, virtualServices, r, rest)
  }

  ghost function SettleDeleting(gateways: seq<string>, s: Store, sr: StoredRoute): Store
  {
    Store(
      if GroupValid(Rest(s, sr)) then PutRoute(s, WithoutFinalizer(sr)).routes else s.routes,
      s.services - Doomed(s.services, sr),
      RetiredVirtualServices(gateways, s.virtualServices, sr.route, Rest(s, sr)),
      s.issued)
  }

  ghost function Settle(gateways: seq<string>, s: Store, key: Key): Store
  {
    if key !in s.routes then s else
      var sr := s.routes[key];
      if !sr.deleting then SettleLive(gateways, s, sr)
      else if HasFinalizer(sr) then SettleDeleting(gateways, s, sr)
      else s
  }

  // ---- the plan leads there ----

  lemma PutCommutesWithUnion(m: Services, d: Services, k: Key, sv: Service)
    ensures (m + d)[k := sv] == m + d[k := sv]
  {
  }

  lemma {:induction false} PutServicesEffect(s: Store, list: seq<Service>)
    ensures ApplyAll(s, PutServices(list)) == s.(services := s.services + ServicesByKey(list))
  {
    if list == [] {
      assert s.services + map[] == s.services;
    } else {
      var init, last := list[..|list| - 1], list[|list| - 1];
      PutServicesEffect(s, init);
      assert PutServices(list) == PutServices(init) + [PutService(last)];
      ApplyAllAppend(s, PutServices(init), PutService(last));
      PutCommutesWithUnion(s.services, ServicesByKey(init), ServiceKey(last), last);
    }
  }

  lemma {:induction false} DeleteServicesEffect(s: Store, keys: seq<Key>)
    ensures ApplyAll(s, DeleteServices(keys)) == s.(services := s.services - Elements(keys))
  {
    if keys == [] {
      assert s.services - Elements(keys) == s.services;
    } else {
      var n := |keys| - 1;
      DeleteServicesEffect(s, keys[..n]);
      assert keys == keys[..n] + [keys[n]];
      assert DeleteServices(keys) == DeleteServices(keys[..n]) + [DeleteService(keys[n])];
      ApplyAllAppend(s, DeleteServices(keys[..n]), DeleteService(keys[n]));
      assert s.services - Elements(keys) == (s.services - Elements(keys[..n])) - {keys[n]};
    }
  }

  lemma ApplyOne(s: Store, w: Write)
    ensures ApplyAll(s, [w]) == Apply(s, w)
  {
    ApplyAllAppend(s, [], w);
    assert [] + [w] == [w];
  }

  lemma InUrlOrderWithin(group: set<Route>, r: Route)
    ensures r in InUrlOrder(group) <==> r in group
  {
    InUrlOrderElements(group);
    assert r in InUrlOrder(group) <==> r in Elements(InUrlOrder(group));
  }

  lemma DesiredVirtualServiceKey(gateways: seq<string>, fqdn: string, group: set<Route>, namespace: string)
    requires group != {} && forall r :: r in group ==> r.meta.namespace == namespace
    ensures VirtualServiceKey(DesiredVirtualService(gateways, fqdn, group)) == VsKey(namespace, VirtualServiceName(fqdn))
  {
    InUrlOrderWithin(group, InUrlOrder(group)[0]);
  }

  lemma GroupMembers(s: Store, namespace: string, fqdn: string, r: Route)
    requires RoutesOk(s.issued, s.routes)
    ensures r in GroupOf(s.routes, namespace, fqdn) <==>
      RouteKey(r) in s.routes && s.routes[RouteKey(r)].route == r && r.meta.namespace == namespace && r.FQDN() == fqdn
    ensures r in GroupOf(s.routes, namespace, fqdn) ==> Known(s.issued, r)
  {
    if r in GroupOf(s.routes, namespace, fqdn) {
      var k :| k in s.routes && k.namespace == namespace && s.routes[k].route.FQDN() == fqdn && s.routes[k].route == r;
      assert RouteOk(s.issued, k, s.routes[k]);
    }
  }

  lemma SiblingsShareNamespace(s: Store, namespace: string, fqdn: string)
    requires RoutesOk(s.issued, s.routes)
    ensures forall r :: r in GroupOf(s.routes, namespace, fqdn) ==> r.meta.namespace == namespace
  {
    forall r | r in GroupOf(s.routes, namespace, fqdn)
      ensures r.meta.namespace == namespace
    {
      GroupMembers(s, namespace, fqdn, r);
    }
  }

  lemma PruneAfterPut(services: Services, desired: Services, doomed: set<Key>)
    requires doomed !! desired.Keys
    ensures services + desired - doomed == services - doomed + desired
  {
  }

  lemma ServicePlanEffect(s: Store, sr: StoredRoute, dels: seq<Key>)
    requires !sr.deleting && Elements(dels) == Doomed(s.services, sr)
    ensures ApplyAll(s, ServicePlan(sr, dels)) == s.(services := s.services - Doomed(s.services, sr) + DesiredServices(sr.route))
  {
    var list := DesiredServiceList(sr.route);
    var s1 := ApplyAll(s, PutServices(list));
    PutServicesEffect(s, list);
    DeleteServicesEffect(s1, dels);
    ApplyAllConcat(s, PutServices(list), DeleteServices(dels));
    PruneAfterPut(s.services, DesiredServices(sr.route), Doomed(s.services, sr));
  }

  lemma FinalizerPlanEffect(s: Store, sr: StoredRoute)
    ensures ApplyAll(s, FinalizerPlan(sr)) ==
      s.(routes := if HasFinalizer(sr) then s.routes else PutRoute(s, WithFinalizer(sr)).routes)
  {
    ApplyOne(s, UpdateRoute(WithFinalizer(sr)));
  }

  lemma VirtualServicePlanEffect(gateways: seq<string>, s: Store, r: Route, group: set<Route>)
    requires forall g :: g in group ==> g.meta.namespace == r.meta.namespace
    ensures ApplyAll(s, VirtualServicePlan(gateways, r.FQDN(), group)) ==
      s.(virtualServices := SettledVirtualServices(gateways, s.virtualServices, r, group))
  {
    if group != {} && GroupValid(group) {
      DesiredVirtualServiceKey(gateways, r.FQDN(), group, r.meta.namespace);
      ApplyOne(s, PutVirtualService(DesiredVirtualService(gateways, r.FQDN(), group)));
    }
  }

  lemma SettleLiveAchieved(gateways: seq<string>, s: Store, sr: StoredRoute, dels: seq<Key>, group: set<Route>)
    requires !sr.deleting && Elements(dels) == Doomed(s.services, sr)
    requires group == SiblingsOf(s.routes, sr.route)
    requires forall g :: g in group ==> g.meta.namespace == sr.route.meta.namespace
    ensures ApplyAll(s, LivePlan(gateways, sr, group, dels)) ==
            SettleLive(gateways, s, sr)
  {
    FinalizerPlanEffect(s, sr);
    var s1 := ApplyAll(s, FinalizerPlan(sr));
    ServicePlanEffect(s1, sr, dels);
    var s2 := ApplyAll(s1, ServicePlan(sr, dels));
    VirtualServicePlanEffect(gateways, s2, sr.route, group);
    ApplyAllConcat(s, FinalizerPlan(sr), ServicePlan(sr, dels));
    ApplyAllConcat(s, FinalizerPlan(sr) + ServicePlan(sr, dels), VirtualServicePlan(gateways, sr.route.FQDN(), group));
  }

  lemma RetirePlanEffect(gateways: seq<string>, s: Store, r: Route, rest: set<Route>)
    requires forall g :: g in rest ==> g.meta.namespace == r.meta.namespace
    ensures ApplyAll(s, RetirePlan(gateways, s.virtualServices, r, rest, true)) ==
      s.(virtualServices := RetiredVirtualServices(gateways, s.virtualServices, r, rest))
  {
    if rest != {} {
      VirtualServicePlanEffect(gateways, s, r, rest);
    } else if VsKeyOf(r) in s.virtualServices {
      ApplyOne(s, DeleteVirtualService(VsKeyOf(r)));
    } else {
      assert s.virtualServices - {VsKeyOf(r)} == s.virtualServices;
    }
  }

  lemma ReleasePlanEffect(s: Store, sr: StoredRoute, rest: set<Route>)
    ensures ApplyAll(s, ReleasePlan(sr, rest)) ==
      s.(routes := if GroupValid(rest) then PutRoute(s, WithoutFinalizer(sr)).routes else s.routes)
  {
    if GroupValid(rest) {
      ApplyOne(s, UpdateRoute(WithoutFinalizer(sr)));
    }
  }

  lemma SettleDeletingAchieved(gateways: seq<string>, s: Store, sr: StoredRoute, dels: seq<Key>)
    requires Elements(dels) == Doomed(s.services, sr)
    requires forall g :: g in Rest(s, sr) ==> g.meta.namespace == sr.route.meta.namespace
    ensures ApplyAll(s, FinalizationPlan(gateways, s.virtualServices, sr, Rest(s, sr), true, dels)) == SettleDeleting(gateways, s, sr)
  {
    var deletes, retire, release := DeleteServices(dels),
      RetirePlan(gateways, s.virtualServices, sr.route, Rest(s, sr), true), ReleasePlan(sr, Rest(s, sr));
    DeleteServicesEffect(s, dels);
    var s1 := ApplyAll(s, deletes);
    RetirePlanEffect(gateways, s1, sr.route, Rest(s, sr));
    ReleasePlanEffect(ApplyAll(s1, retire), sr, Rest(s, sr));
    ApplyAllConcat(s, deletes, retire);
    ApplyAllConcat(s, deletes + retire, release);
  }

  /** The writes, in the order in which the code sends them, lead to the settled state. */
  lemma PlanAchievesSettle(gateways: seq<string>, s: Store, key: Key, dels: seq<Key>)
    requires RoutesOk(s.issued, s.routes) && Elements(dels) == DoomedAt(s, key)
    ensures ApplyAll(s, Plan(gateways, s, key, true, dels)) == Settle(gateways, s, key)
  {
    if key in s.routes {
      var sr := s.routes[key];
      assert RouteOk(s.issued, key, sr);
      SiblingsShareNamespace(s, key.namespace, sr.route.FQDN());
      if !sr.deleting {
        SettleLiveAchieved(gateways, s, sr, dels, SiblingsOf(s.routes, sr.route));
      } else if HasFinalizer(sr) {
        SettleDeletingAchieved(gateways, s, sr, dels);
      }
    }
  }
}
