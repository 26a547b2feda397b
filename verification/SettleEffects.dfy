/** What one undisturbed Reconcile does to each part of the store: to the routes, to the
    VirtualServices, to the Services. Nothing is assumed about the children, nor about
    whether the routes build. */
module SettleEffects {
  import opened RouteTypes
  import opened Resources
  import opened ServiceBuilder
  import opened VirtualServiceSpec
  import opened ClusterStore
  import opened ReconcilePlan

  // ---- stored routes ----

  lemma UidsIdentify(s: Store, a: Key, b: Key)
    requires RoutesOk(s.issued, s.routes) && a in s.routes && b in s.routes
    requires s.routes[a].route.meta.uid == s.routes[b].route.meta.uid
    ensures a == b
  {
    assert RouteOk(s.issued, a, s.routes[a]) && RouteOk(s.issued, b, s.routes[b]);
  }

  predicate OursAlone(finalizers: seq<string>)
  {
    finalizers != [] && forall f :: f in finalizers ==> f == FINALIZER_NAME
  }

  lemma HasAnElement<T>(s: seq<T>)
    ensures s != [] ==> exists x :: x in s
  {
    if s != [] {
      assert s[0] in s;
    }
  }

  lemma {:induction false} WithoutOurs(finalizers: seq<string>)
    requires OursAlone(finalizers)
    ensures Without(finalizers, FINALIZER_NAME) == [] && FINALIZER_NAME in finalizers
  {
    assert finalizers[0] in finalizers;
    HasAnElement(Without(finalizers, FINALIZER_NAME));
  }

  lemma SubgroupValid(group: set<Route>, part: set<Route>)
    requires GroupValid(group) && part <= group
    ensures GroupValid(part)
  {
  }

  lemma SettleAbsent(gateways: seq<string>, s: Store, key: Key)
    requires key !in s.routes
    ensures Settle(gateways, s, key) == s
  {
  }

  /** A Reconcile of such a route does nothing at all. */
  predicate Idle(sr: StoredRoute)
  {
    sr.deleting && !HasFinalizer(sr)
  }

  // ---- Routes ----

  /** What becomes of the stored route, given the routes of its FQDN. */
  ghost function RouteAfter(sr: StoredRoute, group: set<Route>): Option<StoredRoute>
  {
    if !sr.deleting then
      Some(if HasFinalizer(sr) then sr else WithFinalizer(sr).(resourceVersion := sr.resourceVersion + 1))
    else if HasFinalizer(sr) && GroupValid(group - {sr.route}) then
      if WithoutFinalizer(sr).finalizers == [] then None
      else Some(WithoutFinalizer(sr).(resourceVersion := sr.resourceVersion + 1))
    else Some(sr)
  }

  lemma RoutesMove(gateways: seq<string>, s: Store, key: Key)
    requires RoutesOk(s.issued, s.routes) && key in s.routes
    ensures var t, after := Settle(gateways, s, key).routes, RouteAfter(s.routes[key], SiblingsOf(s.routes, s.routes[key].route));
      && t - {key} == s.routes - {key}
      && (key in t <==> after.Some?)
      && (key in t ==> t[key] == after.value && t[key].route == s.routes[key].route)
  {
    hide GroupValid, Doomed, DesiredServices, SettledVirtualServices, RetiredVirtualServices;
    assert RouteOk(s.issued, key, s.routes[key]);
  }

  lemma RoutesMoveElsewhere(gateways: seq<string>, s: Store, key: Key, other: Key)
    requires RoutesOk(s.issued, s.routes) && key in s.routes && other != key
    ensures var t := Settle(gateways, s, key).routes;
      (other in t <==> other in s.routes) && (other in s.routes ==> t[other] == s.routes[other])
  {
    hide Settle, RouteAfter;
    RoutesMove(gateways, s, key);
    var t := Settle(gateways, s, key).routes;
    assert other in t - {key} <==> other in s.routes - {key};
    assert other in s.routes - {key} ==> (t - {key})[other] == (s.routes - {key})[other];
  }

  lemma StoredRoutesKeepTheirIdentity(gateways: seq<string>, s: Store, key: Key)
    requires RoutesOk(s.issued, s.routes) && key in s.routes
    ensures var t := Settle(gateways, s, key);
      forall k :: k in t.routes ==> k in s.routes && t.routes[k].route == s.routes[k].route
  {
    hide Settle, RouteAfter;
    RoutesMove(gateways, s, key);
    var t := Settle(gateways, s, key);
    forall k | k in t.routes
      ensures k in s.routes && t.routes[k].route == s.routes[k].route
    {
      if k != key {
        RoutesMoveElsewhere(gateways, s, key, k);
      }
    }
  }

  /** The routes of another FQDN are not affected. */
  lemma OtherGroups(gateways: seq<string>, s: Store, key: Key, v: VsKey)
    requires RoutesOk(s.issued, s.routes) && key in s.routes && v != VsKeyOf(s.routes[key].route)
    ensures GroupOf(Settle(gateways, s, key).routes, v.namespace, v.name.fqdn) == GroupOf(s.routes, v.namespace, v.name.fqdn)
  {
    hide Settle, RouteAfter;
    assert RouteOk(s.issued, key, s.routes[key]);
    var t := Settle(gateways, s, key).routes;
    RoutesMove(gateways, s, key);
    forall k
      ensures k in t && k.namespace == v.namespace && t[k].route.FQDN() == v.name.fqdn <==>
              k in s.routes && k.namespace == v.namespace && s.routes[k].route.FQDN() == v.name.fqdn
      ensures k in t && k in s.routes ==> t[k].route == s.routes[k].route
    {
      if k != key {
        RoutesMoveElsewhere(gateways, s, key, k);
      }
    }
  }

  lemma RoutesOkAfter(gateways: seq<string>, s: Store, key: Key)
    requires RoutesOk(s.issued, s.routes) && key in s.routes
    ensures var t := Settle(gateways, s, key); RoutesOk(t.issued, t.routes)
  {
    hide GroupValid, Doomed, DesiredServices, SettledVirtualServices, RetiredVirtualServices;
    var sr := s.routes[key];
    assert RouteOk(s.issued, key, sr);
    PutRouteKeepsRoutesOk(s, s.issued, WithFinalizer(sr));
    PutRouteKeepsRoutesOk(s, s.issued, WithoutFinalizer(sr));
  }

  // ---- VirtualServices ----

  ghost function VsAfter(gateways: seq<string>, sr: StoredRoute, group: set<Route>, before: Option<VirtualService>): Option<VirtualService>
  {
    var shown := if sr.deleting then group - {sr.route} else group;
    if Idle(sr) then before
    else if sr.deleting && shown == {} then None
    else if shown != {} && GroupValid(shown) then Some(DesiredVirtualService(gateways, sr.route.FQDN(), shown))
    else before
  }

  ghost function Entry(virtualServices: VirtualServices, v: VsKey): Option<VirtualService>
  {
    if v in virtualServices then Some(virtualServices[v]) else None
  }

  lemma VirtualServicesMove(gateways: seq<string>, s: Store, key: Key, v: VsKey)
    requires RoutesOk(s.issued, s.routes) && key in s.routes
    ensures Entry(Settle(gateways, s, key).virtualServices, v) ==
      if v == VsKeyOf(s.routes[key].route)
      then VsAfter(gateways, s.routes[key], SiblingsOf(s.routes, s.routes[key].route), Entry(s.virtualServices, v))
      else Entry(s.virtualServices, v)
  {
    hide GroupValid, Doomed, DesiredServices, DesiredVirtualService;
  }

  lemma SameEntries(x: VirtualServices, y: VirtualServices)
    requires forall v :: Entry(x, v) == Entry(y, v)
    ensures x == y
  {
    forall v
      ensures v in x <==> v in y
      ensures v in x ==> x[v] == y[v]
    {
      assert Entry(x, v) == Entry(y, v);
    }
  }

  // ---- Services ----

  lemma {:induction false} ListedServices(list: seq<Service>, namespace: string, uid: string)
    requires forall i :: 0 <= i < |list| ==> list[i].namespace == namespace && OwnedBy(list[i], uid)
    ensures forall k :: k in ServicesByKey(list) ==>
      k.namespace == namespace && OwnedBy(ServicesByKey(list)[k], uid) && ServiceKey(ServicesByKey(list)[k]) == k
  {
    if list != [] {
      ListedServices(list[..|list| - 1], namespace, uid);
    }
  }

  lemma DesiredAreOwned(r: Route)
    ensures forall k :: k in DesiredServices(r) ==>
      k.namespace == r.meta.namespace && OwnedBy(DesiredServices(r)[k], r.meta.uid) && ServiceKey(DesiredServices(r)[k]) == k
  {
    ListedServices(DesiredServiceList(r), r.meta.namespace, r.meta.uid);
  }

  ghost function ServicesMove(services: Services, sr: StoredRoute): Services
  {
    if sr.deleting && !HasFinalizer(sr) then services
    else services - Doomed(services, sr) + if sr.deleting then map[] else DesiredServices(sr.route)
  }

  lemma MoveAt(services: Services, sr: StoredRoute, k: Key)
    ensures !sr.deleting && k in DesiredServices(sr.route) ==>
      k in ServicesMove(services, sr) && ServicesMove(services, sr)[k] == DesiredServices(sr.route)[k]
    ensures (sr.deleting || k !in DesiredServices(sr.route)) ==>
      && (k in ServicesMove(services, sr) <==>
            k in services && (Idle(sr) || !(k.namespace == sr.route.meta.namespace && OwnedBy(services[k], sr.route.meta.uid))))
      && (k in ServicesMove(services, sr) ==> ServicesMove(services, sr)[k] == services[k])
  {
    hide DesiredServices, OwnedBy;
  }

  lemma SettleMovesServices(gateways: seq<string>, s: Store, key: Key)
    requires key in s.routes
    ensures Settle(gateways, s, key).services == ServicesMove(s.services, s.routes[key])
  {
    hide GroupValid, DesiredServices, Doomed;
    assert s.services - Doomed(s.services, s.routes[key]) + map[] == s.services - Doomed(s.services, s.routes[key]);
  }
}
