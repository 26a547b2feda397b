/** What a single Reconcile achieves, and exactly when the obvious claims fail. */
module Outcomes {
  import opened RouteTypes
  import opened Resources
  import opened Weights
  import opened VirtualServiceSpec
  import opened ClusterStore
  import opened ReconcilePlan
  import opened SettleEffects
  import opened Progress
  import opened Convergence
  import opened NonInterference
  import opened BuildProperties

  // ---- a finalization that completes ----

  lemma GroupAfterRemoval(s: Store, after: Routes, key: Key)
    requires RoutesOk(s.issued, s.routes) && key in s.routes && after - {key} == s.routes - {key} && key !in after
    ensures GroupOf(after, key.namespace, s.routes[key].route.FQDN()) == Rest(s, s.routes[key])
  {
    assert after == s.routes - {key};
    var r := s.routes[key].route;
    assert RouteOk(s.issued, key, s.routes[key]);
    forall x
      ensures x in GroupOf(after, key.namespace, r.FQDN()) <==> x in Rest(s, s.routes[key])
    {
      GroupMembers(s, key.namespace, r.FQDN(), x);
      if x in Rest(s, s.routes[key]) {
        assert after[RouteKey(x)].route == x;
      }
    }
  }

  /** A finalization completes if and only if the remaining routes of the FQDN build. */
  lemma FinalizationCompletesIff(gateways: seq<string>, s: Store, key: Key)
    requires RoutesOk(s.issued, s.routes) && key in s.routes && s.routes[key].deleting && OursAlone(s.routes[key].finalizers)
    ensures key !in Settle(gateways, s, key).routes <==> GroupValid(Rest(s, s.routes[key]))
  {
    hide GroupValid, RetiredVirtualServices, Doomed;
    assert RouteOk(s.issued, key, s.routes[key]);
    WithoutOurs(s.routes[key].finalizers);
  }

  /** When a finalization gives up the finalizer, nothing of the route is left: no Service is
      indexed under it, and its FQDN's VirtualService is absent if it was the last route, and
      otherwise the rendering of exactly the remaining ones. */
  lemma DeletionOutcome(gateways: seq<string>, s: Store, key: Key)
    requires RoutesOk(s.issued, s.routes) && key in s.routes && s.routes[key].deleting && OursAlone(s.routes[key].finalizers)
    requires GroupValid(Rest(s, s.routes[key]))
    ensures var t, r, rest := Settle(gateways, s, key), s.routes[key].route, Rest(s, s.routes[key]);
      && key !in t.routes
      && Owned(t.services, r.meta.namespace, r.meta.uid) == {}
      && (if rest == {} then VsKeyOf(r) !in t.virtualServices
          else VsKeyOf(r) in t.virtualServices && t.virtualServices[VsKeyOf(r)] == DesiredVirtualService(gateways, r.FQDN(), rest))
      && GroupOf(t.routes, r.meta.namespace, r.FQDN()) == rest
  {
    hide Settle, DesiredVirtualService, GroupValid, ServicesMove, RouteAfter;
    var sr := s.routes[key];
    WithoutOurs(sr.finalizers);
    SettleMovesServices(gateways, s, key);
    NoServicesAfter(s.services, sr);
    RoutesMove(gateways, s, key);
    VirtualServicesMove(gateways, s, key, VsKeyOf(sr.route));
    FinalizationCompletesIff(gateways, s, key);
    GroupAfterRemoval(s, Settle(gateways, s, key).routes, key);
  }

  // ---- what a VirtualService contains ----

  /** Each rule of a safe VirtualService is that of a route of the FQDN and
      namespace of its key, and that route is among the owners. */
  lemma EveryRuleHasAnOwner(s: Store, k: VsKey, rule: HttpRoute)
    requires VirtualServiceSafe(s, k) && k in s.virtualServices && rule in s.virtualServices[k].http
    ensures exists r ::
      && rule == RuleOf(r) && RouteToOwnerRef(r) in s.virtualServices[k].owners
      && Known(s.issued, r) && r.meta.namespace == k.namespace && r.FQDN() == k.name.fqdn
  {
    var vs := s.virtualServices[k];
    assert RenderedAt(s.issued, k, vs);
    var gateways, order :| IsRendering(s.issued, k, vs, gateways, order);
    hide Rules;
    RulesComeFromOwners(order, |order| == 1, rule);
    var r :| r in order && rule == RuleOf(r) && RouteToOwnerRef(r) in OwnerRefs(order);
  }

  lemma {:induction false} RenderedMember(order: seq<Route>, alone: bool, r: Route)
    requires r in order
    ensures RouteToOwnerRef(r) in OwnerRefs(order)
    ensures HasRule(r, alone) ==> RuleOf(r) in Rules(order, alone)
  {
    var n := |order| - 1;
    var i :| 0 <= i < |order| && order[i] == r;
    assert OwnerRefs(order)[i] == RouteToOwnerRef(r);
    if r in order[..n] {
      RenderedMember(order[..n], alone, r);
    } else {
      assert order == order[..n] + [order[n]];
    }
  }

  /** The list that a Reconcile reads still contains siblings that are marked for deletion:
      the VirtualService goes on showing every route that is stored, deleting or not. */
  lemma DeletingSiblingsAreStillServed(gateways: seq<string>, s: Store, key: Key, sibling: Key)
    requires RoutesOk(s.issued, s.routes) && key in s.routes && !s.routes[key].deleting && sibling in s.routes
    requires VsKeyOf(s.routes[sibling].route) == VsKeyOf(s.routes[key].route)
    requires GroupValid(SiblingsOf(s.routes, s.routes[key].route))
    ensures var vss, v, r := Settle(gateways, s, key).virtualServices, VsKeyOf(s.routes[key].route), s.routes[sibling].route;
      && v in vss && RouteToOwnerRef(r) in vss[v].owners
      && (r.spec.destinations != [] ==> RuleOf(r) in vss[v].http)
  {
    var r, group := s.routes[sibling].route, SiblingsOf(s.routes, s.routes[key].route);
    assert RouteOk(s.issued, key, s.routes[key]) && RouteOk(s.issued, sibling, s.routes[sibling]);
    assert r in group;
    InUrlOrderElements(group);
    assert r in Elements(InUrlOrder(group));
    RenderedMember(InUrlOrder(group), |group| == 1, r);
    hide GroupValid, Doomed, Rules;
  }

  lemma StaysStored(gateways: seq<string>, s: Store, key: Key, k: Key)
    requires RoutesOk(s.issued, s.routes) && key in s.routes && !s.routes[key].deleting && k in s.routes
    ensures k in Settle(gateways, s, key).routes && Settle(gateways, s, key).routes[k].route == s.routes[k].route
  {
    hide Settle;
    RoutesMove(gateways, s, key);
    if k != key {
      RoutesMoveElsewhere(gateways, s, key, k);
    }
  }

  lemma OwnersOfRendering(gateways: seq<string>, sr: StoredRoute, group: set<Route>, before: Option<VirtualService>, o: OwnerReference)
    requires !sr.deleting && group != {} && GroupValid(group)
    ensures var after := VsAfter(gateways, sr, group, before);
      after.Some? && (o in after.value.owners <==> exists r :: r in group && o == RouteToOwnerRef(r))
  {
    hide GroupValid, Rules;
    OwnersOfGroup(group, o);
  }

  /** And it names no other routes: the owners after a live Reconcile of a valid group are
      exactly the routes of the FQDN that are stored. */
  lemma OwnersAreTheStoredRoutes(gateways: seq<string>, s: Store, key: Key, o: OwnerReference)
    requires RoutesOk(s.issued, s.routes) && key in s.routes && !s.routes[key].deleting
    requires GroupValid(SiblingsOf(s.routes, s.routes[key].route))
    ensures var t, v := Settle(gateways, s, key), VsKeyOf(s.routes[key].route);
      && v in t.virtualServices
      && (o in t.virtualServices[v].owners <==>
            exists k :: k in t.routes && VsKeyOf(t.routes[k].route) == v && o == RouteToOwnerRef(t.routes[k].route))
  {
    hide Settle, GroupValid, VsAfter, RouteAfter, GroupOf;
    var t, v, group := Settle(gateways, s, key), VsKeyOf(s.routes[key].route), SiblingsOf(s.routes, s.routes[key].route);
    GroupMembers(s, v.namespace, v.name.fqdn, s.routes[key].route);
    assert RouteOk(s.issued, key, s.routes[key]);
    VirtualServicesMove(gateways, s, key, v);
    OwnersOfRendering(gateways, s.routes[key], group, Entry(s.virtualServices, v), o);
    RoutesMove(gateways, s, key);
    if k :| k in t.routes && VsKeyOf(t.routes[k].route) == v && o == RouteToOwnerRef(t.routes[k].route) {
      StoredRoutesKeepTheirIdentity(gateways, s, key);
      assert RouteOk(s.issued, k, s.routes[k]);
      GroupMembers(s, v.namespace, v.name.fqdn, s.routes[k].route);
    }
    if r :| r in group && o == RouteToOwnerRef(r) {
      GroupMembers(s, v.namespace, v.name.fqdn, r);
      StaysStored(gateways, s, key, RouteKey(r));
    }
  }

  // ---- a lost read of the VirtualService ----

  /** The state that a finalization leads to when its read of the VirtualService failed. */
  ghost function AfterLostRead(gateways: seq<string>, s: Store, key: Key, dels: seq<Key>): Store
  {
    ApplyAll(s, Plan(gateways, s, key, false, dels))
  }

  lemma LostReadEffect(gateways: seq<string>, s: Store, key: Key, dels: seq<Key>)
    requires RoutesOk(s.issued, s.routes) && key in s.routes && s.routes[key].deleting && OursAlone(s.routes[key].finalizers)
    requires Elements(dels) == DoomedAt(s, key) && Rest(s, s.routes[key]) == {}
    ensures var t := AfterLostRead(gateways, s, key, dels);
      t.routes == s.routes - {key} && t.virtualServices == s.virtualServices
  {
    var sr := s.routes[key];
    assert RouteOk(s.issued, key, sr);
    WithoutOurs(sr.finalizers);
    DeleteServicesEffect(s, dels);
    var s1 := ApplyAll(s, DeleteServices(dels));
    hide Doomed, GroupOf;
    assert DeleteServices(dels) + [] == DeleteServices(dels);
    ReleasePlanEffect(s1, sr, {});
    ApplyAllConcat(s, DeleteServices(dels), ReleasePlan(sr, {}));
  }

  lemma GroupOfLast(s: Store, key: Key)
    requires RoutesOk(s.issued, s.routes) && key in s.routes && Rest(s, s.routes[key]) == {}
    ensures GroupOf(s.routes - {key}, key.namespace, s.routes[key].route.FQDN()) == {}
  {
    var sr := s.routes[key];
    assert RouteOk(s.issued, key, sr);
    forall k | k in s.routes && k.namespace == key.namespace && s.routes[k].route.FQDN() == sr.route.FQDN()
      ensures k == key
    {
      assert RouteOk(s.issued, k, s.routes[k]);
      assert s.routes[k].route in SiblingsOf(s.routes, sr.route) && s.routes[k].route !in Rest(s, sr);
    }
  }

  /** A failed read other than NotFound does not stop the finalization of an FQDN's last
      route. The outcome is as promised, no VirtualService for an FQDN without routes, if and
      only if there was no VirtualService to begin with. */
  lemma LostReadLeaksIff(gateways: seq<string>, s: Store, key: Key, dels: seq<Key>)
    requires RoutesOk(s.issued, s.routes) && key in s.routes && s.routes[key].deleting && OursAlone(s.routes[key].finalizers)
    requires Elements(dels) == DoomedAt(s, key) && Rest(s, s.routes[key]) == {}
    ensures var t, v := AfterLostRead(gateways, s, key, dels), VsKeyOf(s.routes[key].route);
      && key !in t.routes
      && (VsSettled(gateways, t.routes, t.virtualServices, v) <==> v !in s.virtualServices)
  {
    assert RouteOk(s.issued, key, s.routes[key]);
    LostReadEffect(gateways, s, key, dels);
    GroupOfLast(s, key);
  }

  /** No Reconcile of the routes that are left ever removes what was leaked. */
  lemma {:induction false} LeakStays(gateways: seq<string>, s: Store, keys: seq<Key>, v: VsKey)
    requires RoutesOk(s.issued, s.routes) && v in s.virtualServices
    requires forall k :: k in s.routes ==> VsKeyOf(s.routes[k].route) != v
    ensures var t := SettleAll(gateways, s, keys);
      && RoutesOk(t.issued, t.routes) && (forall k :: k in t.routes ==> VsKeyOf(t.routes[k].route) != v)
      && v in t.virtualServices && t.virtualServices[v] == s.virtualServices[v]
  {
    if keys != [] {
      hide Settle, RouteAfter, VsAfter;
      var init, last := keys[..|keys| - 1], keys[|keys| - 1];
      LeakStays(gateways, s, init, v);
      var t := SettleAll(gateways, s, init);
      if last in t.routes {
        VirtualServicesMove(gateways, t, last, v);
        RoutesOkAfter(gateways, t, last);
        StoredRoutesKeepTheirIdentity(gateways, t, last);
      } else {
        SettleAbsent(gateways, t, last);
      }
    }
  }

  // ---- routes that do not build ----

  /** The VirtualService of a live route's FQDN is brought up to date if and only if the
      FQDN's routes build, or it was up to date already. */
  lemma LiveRouteSettlesIff(gateways: seq<string>, s: Store, key: Key)
    requires RoutesOk(s.issued, s.routes) && key in s.routes && !s.routes[key].deleting
    ensures var t, v := Settle(gateways, s, key), VsKeyOf(s.routes[key].route);
      VsSettled(gateways, t.routes, t.virtualServices, v) <==>
      GroupValid(SiblingsOf(s.routes, s.routes[key].route)) || VsSettled(gateways, s.routes, s.virtualServices, v)
  {
    hide GroupValid, DesiredVirtualService, Doomed, RouteAfter;
    var sr, t := s.routes[key], Settle(gateways, s, key);
    assert RouteOk(s.issued, key, sr);
    assert t.routes.Keys == s.routes.Keys;
    assert forall k :: k in s.routes ==> t.routes[k].route == s.routes[k].route;
    assert GroupOf(t.routes, key.namespace, sr.route.FQDN()) == SiblingsOf(s.routes, sr.route);
    assert sr.route in SiblingsOf(s.routes, sr.route);
  }
}
