/** What is settled and what is not, the measure of unfinished work, and what one undisturbed
    Reconcile does to it. */
module Progress {
  import opened RouteTypes
  import opened Resources
  import opened ServiceBuilder
  import opened VirtualServiceSpec
  import opened ClusterStore
  import opened ReconcilePlan
  import opened SettleEffects

  // ---- what is settled ----

  /** The Services indexed under a route's UID, with their contents. */
  ghost function OwnedServices(services: Services, r: Route): Services
  {
    map k | k in Owned(services, r.meta.namespace, r.meta.uid) :: services[k]
  }

  /** The Services indexed under the route are exactly those built from it. */
  ghost predicate ServicesSettled(services: Services, r: Route)
  {
    OwnedServices(services, r) == DesiredServices(r)
  }

  /** The VirtualService of an FQDN is the rendering of the stored routes, absent if none. */
  ghost predicate VsSettled(gateways: seq<string>, routes: Routes, virtualServices: VirtualServices, v: VsKey)
  {
    var group := GroupOf(routes, v.namespace, v.name.fqdn);
    if group == {} then v !in virtualServices
    else v in virtualServices && virtualServices[v] == DesiredVirtualService(gateways, v.name.fqdn, group)
  }

  ghost function DeletingRoutes(s: Store): set<Key>
  {
    set k | k in s.routes && s.routes[k].deleting
  }

  ghost function UnsettledRoutes(s: Store): set<Key>
  {
    set k | k in s.routes && !s.routes[k].deleting && !ServicesSettled(s.services, s.routes[k].route)
  }

  ghost function UnsettledFqdns(gateways: seq<string>, s: Store, watched: set<VsKey>): set<VsKey>
  {
    set v | v in watched && !VsSettled(gateways, s.routes, s.virtualServices, v)
  }

  /** What is still to be done: routes to finalize, live routes whose Services are not as
      built, FQDNs (among the watched ones) whose VirtualService is not as built. */
  ghost function Measure(gateways: seq<string>, s: Store, watched: set<VsKey>): nat
  {
    |DeletingRoutes(s)| + |UnsettledRoutes(s)| + |UnsettledFqdns(gateways, s, watched)|
  }

  // ---- assumptions ----

  ghost predicate NoGuidInCommon(a: Route, b: Route)
  {
    forall d, e :: d in a.spec.destinations && e in b.spec.destinations ==> d.guid != e.guid
  }

  /** Destination GUIDs are distinct across the routes of a namespace. */
  ghost predicate GuidsSeparate(routes: Routes)
  {
    forall a, b :: a in routes && b in routes && a != b && a.namespace == b.namespace ==>
      NoGuidInCommon(routes[a].route, routes[b].route)
  }

  /** The destinations of a route have distinct GUIDs. */
  ghost predicate GuidsDistinct(r: Route)
  {
    forall i, j :: 0 <= i < j < |r.spec.destinations| ==> r.spec.destinations[i].guid != r.spec.destinations[j].guid
  }

  /** A route marked for deletion waits for the controller only. */
  ghost predicate WaitsForUsOnly(sr: StoredRoute)
  {
    sr.deleting ==> OursAlone(sr.finalizers)
  }

  /** The routes of the FQDN that are marked for deletion wait for the controller only. */
  ghost predicate OnlyOurFinalizer(routes: Routes, v: VsKey)
  {
    forall k :: k in routes && VsKeyOf(routes[k].route) == v ==> WaitsForUsOnly(routes[k])
  }

  /** Nothing is said about children, nor about whether the routes build, nor about the
      finalizers of others. */
  ghost predicate WellFormed(s: Store)
  {
    RoutesOk(s.issued, s.routes) && GuidsSeparate(s.routes)
  }

  /** Every FQDN's routes build. */
  ghost predicate GroupsValid(routes: Routes)
  {
    forall k :: k in routes ==> GroupValid(SiblingsOf(routes, routes[k].route))
  }

  lemma ValidGroupsSucceed(s: Store, key: Key)
    requires GroupsValid(s.routes)
    ensures Succeeds(s, key)
  {
    hide GroupOf;
    if key in s.routes {
      SubgroupValid(SiblingsOf(s.routes, s.routes[key].route), Rest(s, s.routes[key]));
    }
  }

  lemma GroupsStayValid(s: Store, t: Store)
    requires GroupsValid(s.routes) && t.routes.Keys <= s.routes.Keys
    requires forall k :: k in t.routes ==> t.routes[k].route == s.routes[k].route
    ensures GroupsValid(t.routes)
  {
    hide GroupValid;
    forall k | k in t.routes
      ensures GroupValid(SiblingsOf(t.routes, t.routes[k].route))
    {
      SubgroupValid(SiblingsOf(s.routes, t.routes[k].route), SiblingsOf(t.routes, t.routes[k].route));
    }
  }

  lemma GroupsValidAfter(gateways: seq<string>, s: Store, key: Key)
    requires RoutesOk(s.issued, s.routes) && GroupsValid(s.routes) && key in s.routes
    ensures GroupsValid(Settle(gateways, s, key).routes)
  {
    hide Settle, GroupsValid;
    StoredRoutesKeepTheirIdentity(gateways, s, key);
    GroupsStayValid(s, Settle(gateways, s, key));
  }

  // ---- no two routes name the same Service ----

  lemma {:induction false} KeyIsListed(list: seq<Service>, k: Key)
    requires k in ServicesByKey(list)
    ensures exists i :: 0 <= i < |list| && ServiceKey(list[i]) == k
  {
    var n := |list| - 1;
    if k == ServiceKey(list[n]) {
      assert ServiceKey(list[n]) == k;
    } else {
      KeyIsListed(list[..n], k);
      var i :| 0 <= i < n && ServiceKey(list[..n][i]) == k;
      assert ServiceKey(list[i]) == k;
    }
  }

  lemma DesiredKeyHasGuid(r: Route, k: Key)
    requires k in DesiredServices(r)
    ensures k.namespace == r.meta.namespace
    ensures exists d :: d in r.spec.destinations && k.name == ServiceName(d)
  {
    var list := DesiredServiceList(r);
    KeyIsListed(list, k);
    var i :| 0 <= i < |list| && ServiceKey(list[i]) == k;
    var d := r.spec.destinations[i];
    assert d in r.spec.destinations && k.name == ServiceName(d);
  }

  lemma SharedKeyMeansSharedGuid(a: Route, b: Route, k: Key)
    requires k in DesiredServices(a) && k in DesiredServices(b)
    ensures a.meta.namespace == b.meta.namespace && !NoGuidInCommon(a, b)
  {
    DesiredKeyHasGuid(a, k);
    DesiredKeyHasGuid(b, k);
    var d :| d in a.spec.destinations && k.name == ServiceName(d);
    var e :| e in b.spec.destinations && k.name == ServiceName(e);
    ServiceNamesAreInjective(d, e);
  }

  /** So no two routes name the same Service. */
  lemma ServicesSeparate(s: Store, a: Key, b: Key)
    requires RoutesOk(s.issued, s.routes) && GuidsSeparate(s.routes) && a in s.routes && b in s.routes && a != b
    ensures DesiredServices(s.routes[a].route).Keys !! DesiredServices(s.routes[b].route).Keys
  {
    hide DesiredServices, NoGuidInCommon;
    assert RouteOk(s.issued, a, s.routes[a]) && RouteOk(s.issued, b, s.routes[b]);
    if k :| k in DesiredServices(s.routes[a].route).Keys && k in DesiredServices(s.routes[b].route).Keys {
      SharedKeyMeansSharedGuid(s.routes[a].route, s.routes[b].route, k);
    }
  }

  // ---- Services ----

  lemma {:induction false} ListedAt(list: seq<Service>, i: nat)
    requires i < |list|
    requires forall j :: i < j < |list| ==> ServiceKey(list[j]) != ServiceKey(list[i])
    ensures ServiceKey(list[i]) in ServicesByKey(list) && ServicesByKey(list)[ServiceKey(list[i])] == list[i]
  {
    if i < |list| - 1 {
      ListedAt(list[..|list| - 1], i);
    }
  }

  lemma DesiredServiceAt(r: Route, i: nat)
    requires i < |r.spec.destinations| && GuidsDistinct(r)
    ensures var d := r.spec.destinations[i];
      var k := Key(r.meta.namespace, ServiceName(d));
      k in DesiredServices(r) && DesiredServices(r)[k] == DesiredService(r, d)
  {
    var list := DesiredServiceList(r);
    forall j | i < j < |list|
      ensures ServiceKey(list[j]) != ServiceKey(list[i])
    {
      if ServiceName(r.spec.destinations[j]) == ServiceName(r.spec.destinations[i]) {
        ServiceNamesAreInjective(r.spec.destinations[j], r.spec.destinations[i]);
      }
    }
    ListedAt(list, i);
  }

  /** Service exactness: after a Reconcile of a live route, the Services indexed under it are
      exactly the desired ones, whatever was stored before. */
  lemma OwnServicesAfter(services: Services, sr: StoredRoute)
    requires !sr.deleting
    ensures ServicesSettled(ServicesMove(services, sr), sr.route)
  {
    DesiredAreOwned(sr.route);
    var after, desired := ServicesMove(services, sr), DesiredServices(sr.route);
    forall k
      ensures k in OwnedServices(after, sr.route) <==> k in desired
      ensures k in desired ==> after[k] == desired[k]
    {
      hide DesiredServices, ServicesMove;
      MoveAt(services, sr, k);
    }
  }

  /** After the finalization of a route, no Service is indexed under it. */
  lemma NoServicesAfter(services: Services, sr: StoredRoute)
    requires sr.deleting && HasFinalizer(sr)
    ensures Owned(ServicesMove(services, sr), sr.route.meta.namespace, sr.route.meta.uid) == {}
  {
  }

  /** A Reconcile touches only Services that the route owns or names. */
  lemma ServicesFrame(services: Services, sr: StoredRoute, k: Key)
    requires k !in Owned(services, sr.route.meta.namespace, sr.route.meta.uid)
    requires sr.deleting || k !in DesiredServices(sr.route)
    ensures k in ServicesMove(services, sr) <==> k in services
    ensures k in services ==> ServicesMove(services, sr)[k] == services[k]
  {
    hide DesiredServices, ServicesMove;
    MoveAt(services, sr, k);
  }

  /** The Services of a settled route stay settled while other routes are reconciled. */
  lemma OtherServicesAfter(services: Services, sr: StoredRoute, other: Route)
    requires other.meta.uid != sr.route.meta.uid
    requires DesiredServices(other).Keys !! DesiredServices(sr.route).Keys
    requires ServicesSettled(services, other)
    ensures ServicesSettled(ServicesMove(services, sr), other)
  {
    DesiredAreOwned(sr.route);
    var after, owned := ServicesMove(services, sr), OwnedServices(services, other);
    forall k
      ensures k in OwnedServices(after, other) <==> k in owned
      ensures k in owned ==> after[k] == services[k]
    {
      hide DesiredServices, ServicesMove;
      MoveAt(services, sr, k);
      if k in owned {
        assert k in DesiredServices(other);
        ServicesFrame(services, sr, k);
      }
    }
    assert OwnedServices(after, other) == owned;
  }

  // ---- VirtualServices ----

  lemma OwnGroup(gateways: seq<string>, s: Store, key: Key)
    requires RoutesOk(s.issued, s.routes) && key in s.routes
    ensures var t, r := Settle(gateways, s, key), s.routes[key].route;
      SiblingsOf(t.routes, r) == if key in t.routes then SiblingsOf(s.routes, r) else SiblingsOf(s.routes, r) - {r}
  {
    hide Settle, RouteAfter;
    var t, r := Settle(gateways, s, key), s.routes[key].route;
    RoutesMove(gateways, s, key);
    RoutesOkAfter(gateways, s, key);
    assert RouteOk(s.issued, key, s.routes[key]);
    forall x
      ensures x in SiblingsOf(t.routes, r) <==> x in SiblingsOf(s.routes, r) && (key in t.routes || x != r)
    {
      GroupMembers(s, r.meta.namespace, r.FQDN(), x);
      GroupMembers(t, r.meta.namespace, r.FQDN(), x);
      if RouteKey(x) != key {
        RoutesMoveElsewhere(gateways, s, key, RouteKey(x));
      }
    }
  }

  /** What the VirtualService of the reconciled route's own FQDN becomes. */
  lemma OwnFqdnAfter(gateways: seq<string>, s: Store, key: Key)
    requires RoutesOk(s.issued, s.routes) && key in s.routes && WaitsForUsOnly(s.routes[key])
    ensures var t, v := Settle(gateways, s, key), VsKeyOf(s.routes[key].route);
      VsSettled(gateways, t.routes, t.virtualServices, v) <==>
      Succeeds(s, key) || VsSettled(gateways, s.routes, s.virtualServices, v)
    ensures s.routes[key].deleting ==> (key in Settle(gateways, s, key).routes <==> !Succeeds(s, key))
  {
    hide Settle, GroupValid, DesiredVirtualService, GroupOf, Without;
    var sr, v := s.routes[key], VsKeyOf(s.routes[key].route);
    assert RouteOk(s.issued, key, sr);
    if sr.deleting {
      WithoutOurs(sr.finalizers);
    }
    GroupMembers(s, v.namespace, v.name.fqdn, sr.route);
    EmptyGroupIsValid();
    OwnGroup(gateways, s, key);
    RoutesMove(gateways, s, key);
    VirtualServicesMove(gateways, s, key, v);
  }

  /** An FQDN that is settled stays so, and the reconciled one is settled by success. */
  lemma FqdnsAfter(gateways: seq<string>, s: Store, key: Key, v: VsKey)
    requires RoutesOk(s.issued, s.routes) && key in s.routes
    requires v == VsKeyOf(s.routes[key].route) ==> WaitsForUsOnly(s.routes[key])
    ensures var t := Settle(gateways, s, key);
      VsSettled(gateways, t.routes, t.virtualServices, v) <==>
      (v == VsKeyOf(s.routes[key].route) && Succeeds(s, key)) || VsSettled(gateways, s.routes, s.virtualServices, v)
  {
    if v == VsKeyOf(s.routes[key].route) {
      OwnFqdnAfter(gateways, s, key);
    } else {
      hide Settle, VsAfter, GroupOf, DesiredVirtualService, Succeeds;
      OtherGroups(gateways, s, key, v);
      VirtualServicesMove(gateways, s, key, v);
    }
  }

  lemma RoutesOfWellFormed(s: Store)
    requires WellFormed(s)
    ensures RoutesOk(s.issued, s.routes)
  {
  }

  // ---- routes ----

  /** A later version of a stored route: its definition and its deletion mark are the same,
      and while it is being deleted and waits for the controller only, nothing about it
      changes. */
  ghost predicate SameRoute(sr: StoredRoute, sr': StoredRoute)
  {
    && sr'.route == sr.route && sr'.deleting == sr.deleting
    && (sr.deleting ==>
          && (sr.finalizers != [] ==> sr'.finalizers != [])
          && (OursAlone(sr.finalizers) || OursAlone(sr'.finalizers) ==> sr' == sr))
  }

  /** The Reconcile makes the route go. */
  ghost predicate Goes(s: Store, key: Key)
    requires key in s.routes
  {
    s.routes[key].deleting && OursAlone(s.routes[key].finalizers) && Succeeds(s, key)
  }

  lemma {:induction false} WithoutOthers(finalizers: seq<string>)
    requires finalizers != [] && !OursAlone(finalizers)
    ensures Without(finalizers, FINALIZER_NAME) != [] && !OursAlone(Without(finalizers, FINALIZER_NAME))
  {
    var f :| f in finalizers && f != FINALIZER_NAME;
    assert f in Without(finalizers, FINALIZER_NAME);
  }

  lemma OwnRouteAfter(gateways: seq<string>, s: Store, key: Key)
    requires RoutesOk(s.issued, s.routes) && key in s.routes
    ensures var t := Settle(gateways, s, key).routes;
      (key in t <==> !Goes(s, key)) && (key in t ==> SameRoute(s.routes[key], t[key]))
  {
    hide Settle, GroupValid, Without, GroupOf, OursAlone;
    var sr := s.routes[key];
    assert RouteOk(s.issued, key, sr);
    if sr.deleting && OursAlone(sr.finalizers) {
      WithoutOurs(sr.finalizers);
    } else if sr.deleting {
      WithoutOthers(sr.finalizers);
    }
    RoutesMove(gateways, s, key);
  }

  lemma RoutesAfter(gateways: seq<string>, s: Store, key: Key)
    requires RoutesOk(s.issued, s.routes) && key in s.routes
    ensures var t := Settle(gateways, s, key).routes;
      && t.Keys == (if Goes(s, key) then s.routes.Keys - {key} else s.routes.Keys)
      && forall k :: k in t ==> SameRoute(s.routes[k], t[k])
  {
    hide Settle, Succeeds, OursAlone;
    var t := Settle(gateways, s, key).routes;
    OwnRouteAfter(gateways, s, key);
    forall k
      ensures k != key ==> (k in t <==> k in s.routes) && (k in s.routes ==> t[k] == s.routes[k])
    {
      if k != key {
        RoutesMoveElsewhere(gateways, s, key, k);
      }
    }
    assert forall k :: k in t && k != key ==> RouteOk(s.issued, k, s.routes[k]);
  }

  lemma WellFormedSurvives(s: Store, t: Store)
    requires WellFormed(s) && t.issued == s.issued && t.routes.Keys <= s.routes.Keys
    requires forall k :: k in t.routes ==> SameRoute(s.routes[k], t.routes[k])
    ensures WellFormed(t)
  {
    hide NoGuidInCommon;
    forall k | k in t.routes
      ensures RouteOk(t.issued, k, t.routes[k])
    {
      assert RouteOk(s.issued, k, s.routes[k]);
    }
  }

  lemma IssuedStays(gateways: seq<string>, s: Store, key: Key)
    ensures Settle(gateways, s, key).issued == s.issued
  {
  }

  lemma WellFormedAfter(gateways: seq<string>, s: Store, key: Key)
    requires WellFormed(s) && key in s.routes
    ensures WellFormed(Settle(gateways, s, key))
  {
    hide Settle, WellFormed, Goes;
    RoutesOfWellFormed(s);
    RoutesAfter(gateways, s, key);
    IssuedStays(gateways, s, key);
    WellFormedSurvives(s, Settle(gateways, s, key));
  }

  // ---- the measure ----

  lemma DeletingAfter(gateways: seq<string>, s: Store, key: Key)
    requires RoutesOk(s.issued, s.routes) && key in s.routes && WaitsForUsOnly(s.routes[key])
    ensures DeletingRoutes(Settle(gateways, s, key)) == if Succeeds(s, key) then DeletingRoutes(s) - {key} else DeletingRoutes(s)
  {
    hide Settle, Succeeds, OursAlone;
    RoutesAfter(gateways, s, key);
  }

  lemma ServicesStaySettled(gateways: seq<string>, s: Store, key: Key, k: Key)
    requires WellFormed(s) && key in s.routes && k in s.routes
    requires if k == key then !s.routes[k].deleting else ServicesSettled(s.services, s.routes[k].route)
    ensures ServicesSettled(Settle(gateways, s, key).services, s.routes[k].route)
  {
    hide Settle, ServicesSettled, ServicesMove, DesiredServices, NoGuidInCommon;
    SettleMovesServices(gateways, s, key);
    if k == key {
      OwnServicesAfter(s.services, s.routes[key]);
    } else {
      if s.routes[k].route.meta.uid == s.routes[key].route.meta.uid {
        UidsIdentify(s, k, key);
      }
      ServicesSeparate(s, k, key);
      OtherServicesAfter(s.services, s.routes[key], s.routes[k].route);
    }
  }

  lemma UnsettledRoutesAfter(gateways: seq<string>, s: Store, key: Key)
    requires WellFormed(s) && key in s.routes
    ensures UnsettledRoutes(Settle(gateways, s, key)) <= UnsettledRoutes(s) - {key}
  {
    hide Settle, WellFormed, ServicesSettled, Goes;
    RoutesOfWellFormed(s);
    RoutesAfter(gateways, s, key);
    var t := Settle(gateways, s, key);
    forall k | k in t.routes && !t.routes[k].deleting && (k == key || ServicesSettled(s.services, s.routes[k].route))
      ensures ServicesSettled(t.services, t.routes[k].route)
    {
      ServicesStaySettled(gateways, s, key, k);
    }
  }

  lemma UnsettledFqdnsAfter(gateways: seq<string>, s: Store, key: Key, watched: set<VsKey>)
    requires RoutesOk(s.issued, s.routes) && key in s.routes && WaitsForUsOnly(s.routes[key])
    ensures UnsettledFqdns(gateways, Settle(gateways, s, key), watched) ==
      UnsettledFqdns(gateways, s, watched) - if Succeeds(s, key) then {VsKeyOf(s.routes[key].route)} else {}
  {
    hide Settle, VsSettled, Succeeds, WaitsForUsOnly;
    var t := Settle(gateways, s, key);
    forall v
      ensures VsSettled(gateways, t.routes, t.virtualServices, v) <==>
        (v == VsKeyOf(s.routes[key].route) && Succeeds(s, key)) || VsSettled(gateways, s.routes, s.virtualServices, v)
    {
      FqdnsAfter(gateways, s, key, v);
    }
  }

  lemma SubsetCard<T>(a: set<T>, b: set<T>)
    requires a <= b
    ensures |a| <= |b| && (a != b ==> |a| < |b|)
  {
    assert b == a + (b - a);
    if a != b {
      assert |b - a| > 0;
    }
  }

  /** Whether a Reconcile of the route has anything to do. */
  ghost predicate Counted(gateways: seq<string>, s: Store, key: Key, watched: set<VsKey>)
    requires key in s.routes
  {
    || key in DeletingRoutes(s)
    || key in UnsettledRoutes(s)
    || VsKeyOf(s.routes[key].route) in UnsettledFqdns(gateways, s, watched)
  }

  /** Progress: an undisturbed Reconcile never increases the amount of unfinished work, and if
      it succeeds it strictly decreases it when the route or its FQDN was part of it. Nothing
      is assumed about whether any other FQDN's routes build. */
  lemma Progresses(gateways: seq<string>, s: Store, key: Key, watched: set<VsKey>)
    requires WellFormed(s) && key in s.routes && WaitsForUsOnly(s.routes[key])
    ensures Measure(gateways, Settle(gateways, s, key), watched) <= Measure(gateways, s, watched)
    ensures Succeeds(s, key) && Counted(gateways, s, key, watched) ==>
      Measure(gateways, Settle(gateways, s, key), watched) < Measure(gateways, s, watched)
    ensures key in UnsettledRoutes(s) ==>
      Measure(gateways, Settle(gateways, s, key), watched) < Measure(gateways, s, watched)
  {
    hide Settle, WellFormed, DeletingRoutes, UnsettledRoutes, UnsettledFqdns, Succeeds, WaitsForUsOnly;
    RoutesOfWellFormed(s);
    DeletingAfter(gateways, s, key);
    UnsettledRoutesAfter(gateways, s, key);
    UnsettledFqdnsAfter(gateways, s, key, watched);
    var t := Settle(gateways, s, key);
    SubsetCard(DeletingRoutes(t), DeletingRoutes(s));
    SubsetCard(UnsettledRoutes(t), UnsettledRoutes(s));
    SubsetCard(UnsettledFqdns(gateways, t, watched), UnsettledFqdns(gateways, s, watched));
  }

  ghost function WatchedFqdns(s: Store): set<VsKey>
  {
    set k | k in s.routes :: VsKeyOf(s.routes[k].route)
  }

  /** The FQDN is as its Routes ask: none is being deleted any more, the Services indexed under
      each are exactly those built from it, and the VirtualService is exactly the one built
      from them all, or absent if there are none. */
  ghost predicate FqdnSettled(gateways: seq<string>, s: Store, v: VsKey)
  {
    && VsSettled(gateways, s.routes, s.virtualServices, v)
    && forall k :: k in s.routes && VsKeyOf(s.routes[k].route) == v ==>
         !s.routes[k].deleting && ServicesSettled(s.services, s.routes[k].route)
  }

  /** Every FQDN of a stored route is settled. */
  ghost predicate Settled(gateways: seq<string>, s: Store)
  {
    forall k :: k in s.routes ==> FqdnSettled(gateways, s, VsKeyOf(s.routes[k].route))
  }

  lemma SettledMeansNothingLeft(gateways: seq<string>, s: Store)
    ensures Settled(gateways, s) ==>
      DeletingRoutes(s) == {} && UnsettledRoutes(s) == {} && UnsettledFqdns(gateways, s, WatchedFqdns(s)) == {}
  {
    hide ServicesSettled, VsSettled;
    forall k | k in s.routes
      ensures Settled(gateways, s) ==> FqdnSettled(gateways, s, VsKeyOf(s.routes[k].route))
    {
    }
  }

  lemma NothingLeftMeansSettled(gateways: seq<string>, s: Store)
    requires DeletingRoutes(s) == {} && UnsettledRoutes(s) == {} && UnsettledFqdns(gateways, s, WatchedFqdns(s)) == {}
    ensures Settled(gateways, s)
  {
    hide ServicesSettled, VsSettled;
    forall k | k in s.routes
      ensures !s.routes[k].deleting && ServicesSettled(s.services, s.routes[k].route)
      ensures VsSettled(gateways, s.routes, s.virtualServices, VsKeyOf(s.routes[k].route))
    {
      assert k !in DeletingRoutes(s) && k !in UnsettledRoutes(s);
      assert VsKeyOf(s.routes[k].route) in WatchedFqdns(s) && VsKeyOf(s.routes[k].route) !in UnsettledFqdns(gateways, s, WatchedFqdns(s));
    }
  }

  /** The measure is zero exactly when there is nothing left to do. */
  lemma MeasureZeroIffSettled(gateways: seq<string>, s: Store)
    ensures Measure(gateways, s, WatchedFqdns(s)) == 0 <==> Settled(gateways, s)
  {
    hide Settled, DeletingRoutes, UnsettledRoutes, UnsettledFqdns, WatchedFqdns;
    SettledMeansNothingLeft(gateways, s);
    if DeletingRoutes(s) == {} && UnsettledRoutes(s) == {} && UnsettledFqdns(gateways, s, WatchedFqdns(s)) == {} {
      NothingLeftMeansSettled(gateways, s);
    }
  }
}
