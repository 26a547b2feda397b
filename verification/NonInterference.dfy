/** What a Reconcile leaves alone, and why Reconciles of different routes commute. */
module NonInterference {
  import opened RouteTypes
  import opened Resources
  import opened VirtualServiceSpec
  import opened ClusterStore
  import opened ReconcilePlan
  import opened SettleEffects
  import opened Progress

  ghost function Touched(s: Store, sr: StoredRoute): set<Key>
  {
    Owned(s.services, sr.route.meta.namespace, sr.route.meta.uid) + DesiredServices(sr.route).Keys
  }

  // ---- Services ----

  lemma ServicesCommute(services: Services, a: StoredRoute, b: StoredRoute)
    requires a.route.meta.uid != b.route.meta.uid
    requires DesiredServices(a.route).Keys !! DesiredServices(b.route).Keys
    ensures ServicesMove(ServicesMove(services, a), b) == ServicesMove(ServicesMove(services, b), a)
  {
    var ab, ba := ServicesMove(ServicesMove(services, a), b), ServicesMove(ServicesMove(services, b), a);
    forall k
      ensures k in ab <==> k in ba
      ensures k in ab ==> ab[k] == ba[k]
    {
      DesiredAreOwned(a.route);
      DesiredAreOwned(b.route);
      hide ServicesMove, DesiredServices;
      MoveAt(services, a, k);
      MoveAt(services, b, k);
      MoveAt(ServicesMove(services, a), b, k);
      MoveAt(ServicesMove(services, b), a, k);
    }
  }

  // ---- Routes ----

  lemma RoutesMoveElsewhereTwice(gateways: seq<string>, s: Store, a: Key, b: Key, k: Key)
    requires RoutesOk(s.issued, s.routes) && a in s.routes && b in s.routes && a != b
    ensures k != a && k != b ==> var t := Settle(gateways, Settle(gateways, s, a), b).routes;
      (k in t <==> k in s.routes) && (k in s.routes ==> t[k] == s.routes[k])
  {
    hide Settle, RouteAfter;
    RoutesOkAfter(gateways, s, a);
    RoutesMoveElsewhere(gateways, s, a, b);
    if k != a && k != b {
      RoutesMoveElsewhere(gateways, s, a, k);
      RoutesMoveElsewhere(gateways, Settle(gateways, s, a), b, k);
    }
  }

  lemma TwoMoves(gateways: seq<string>, s: Store, a: Key, b: Key)
    requires RoutesOk(s.issued, s.routes) && a in s.routes && b in s.routes && a != b
    requires VsKeyOf(s.routes[a].route) != VsKeyOf(s.routes[b].route)
    ensures var t := Settle(gateways, Settle(gateways, s, a), b).routes;
      var afterA := RouteAfter(s.routes[a], SiblingsOf(s.routes, s.routes[a].route));
      var afterB := RouteAfter(s.routes[b], SiblingsOf(s.routes, s.routes[b].route));
      && (a in t <==> afterA.Some?) && (a in t ==> t[a] == afterA.value)
      && (b in t <==> afterB.Some?) && (b in t ==> t[b] == afterB.value)
  {
    hide Settle, RouteAfter;
    var sa := Settle(gateways, s, a);
    RoutesOkAfter(gateways, s, a);
    RoutesMove(gateways, s, a);
    RoutesMoveElsewhere(gateways, s, a, b);
    OtherGroups(gateways, s, a, VsKeyOf(s.routes[b].route));
    RoutesMove(gateways, sa, b);
    RoutesMoveElsewhere(gateways, sa, b, a);
  }

  /** The route of `a` after both Reconciles is its route after the first of them, whichever
      of the two came first. */
  lemma RoutesCommute(gateways: seq<string>, s: Store, a: Key, b: Key)
    requires RoutesOk(s.issued, s.routes) && a in s.routes && b in s.routes && a != b
    requires VsKeyOf(s.routes[a].route) != VsKeyOf(s.routes[b].route)
    ensures Settle(gateways, Settle(gateways, s, a), b).routes == Settle(gateways, Settle(gateways, s, b), a).routes
  {
    hide Settle, RouteAfter;
    var sa, sb := Settle(gateways, s, a), Settle(gateways, s, b);
    var ab, ba := Settle(gateways, sa, b).routes, Settle(gateways, sb, a).routes;
    TwoMoves(gateways, s, a, b);
    TwoMoves(gateways, s, b, a);
    forall k
      ensures k in ab <==> k in ba
      ensures k in ab ==> ab[k] == ba[k]
    {
      RoutesMoveElsewhereTwice(gateways, s, a, b, k);
      RoutesMoveElsewhereTwice(gateways, s, b, a, k);
    }
  }

  // ---- VirtualServices ----

  lemma TwoVirtualServiceMoves(gateways: seq<string>, s: Store, a: Key, b: Key, v: VsKey)
    requires RoutesOk(s.issued, s.routes) && a in s.routes && b in s.routes && a != b
    requires VsKeyOf(s.routes[a].route) != VsKeyOf(s.routes[b].route)
    ensures Entry(Settle(gateways, Settle(gateways, s, a), b).virtualServices, v) ==
      if v == VsKeyOf(s.routes[a].route)
      then VsAfter(gateways, s.routes[a], SiblingsOf(s.routes, s.routes[a].route), Entry(s.virtualServices, v))
      else if v == VsKeyOf(s.routes[b].route)
      then VsAfter(gateways, s.routes[b], SiblingsOf(s.routes, s.routes[b].route), Entry(s.virtualServices, v))
      else Entry(s.virtualServices, v)
  {
    hide Settle, VsAfter;
    RoutesOkAfter(gateways, s, a);
    RoutesMoveElsewhere(gateways, s, a, b);
    OtherGroups(gateways, s, a, VsKeyOf(s.routes[b].route));
    VirtualServicesMove(gateways, s, a, v);
    VirtualServicesMove(gateways, Settle(gateways, s, a), b, v);
  }

  lemma VirtualServicesCommute(gateways: seq<string>, s: Store, a: Key, b: Key)
    requires RoutesOk(s.issued, s.routes) && a in s.routes && b in s.routes && a != b
    requires VsKeyOf(s.routes[a].route) != VsKeyOf(s.routes[b].route)
    ensures Settle(gateways, Settle(gateways, s, a), b).virtualServices == Settle(gateways, Settle(gateways, s, b), a).virtualServices
  {
    hide Settle, VsAfter;
    var ab, ba := Settle(gateways, Settle(gateways, s, a), b).virtualServices, Settle(gateways, Settle(gateways, s, b), a).virtualServices;
    forall v
      ensures Entry(ab, v) == Entry(ba, v)
    {
      TwoVirtualServiceMoves(gateways, s, a, b, v);
      TwoVirtualServiceMoves(gateways, s, b, a, v);
    }
    SameEntries(ab, ba);
  }

  // ---- main results ----

  lemma ServicesMoveFrame(s: Store, sr: StoredRoute)
    ensures ServicesMove(s.services, sr) - Touched(s, sr) == s.services - Touched(s, sr)
  {
    hide DesiredServices, OwnedBy;
  }

  lemma VirtualServicesFrame(gateways: seq<string>, s: Store, key: Key)
    requires key in s.routes
    ensures var t, v := Settle(gateways, s, key), VsKeyOf(s.routes[key].route);
      t.issued == s.issued && t.virtualServices - {v} == s.virtualServices - {v}
  {
    hide GroupValid, DesiredVirtualService, DesiredServices, Doomed, GroupOf;
  }

  /** Frame: a Reconcile writes only the route itself, the VirtualService of its FQDN in its
      namespace, and Services that the route owns or names. */
  lemma WritesOnlyItsOwn(gateways: seq<string>, s: Store, key: Key)
    requires RoutesOk(s.issued, s.routes) && key in s.routes
    ensures var sr, t := s.routes[key], Settle(gateways, s, key);
      && t.issued == s.issued
      && t.routes - {key} == s.routes - {key}
      && t.virtualServices - {VsKeyOf(sr.route)} == s.virtualServices - {VsKeyOf(sr.route)}
      && t.services - Touched(s, sr) == s.services - Touched(s, sr)
  {
    hide Settle, RouteAfter, ServicesMove, Touched;
    RoutesMove(gateways, s, key);
    SettleMovesServices(gateways, s, key);
    ServicesMoveFrame(s, s.routes[key]);
    VirtualServicesFrame(gateways, s, key);
  }

  lemma ServicesOfBothCommute(gateways: seq<string>, s: Store, a: Key, b: Key)
    requires RoutesOk(s.issued, s.routes) && a in s.routes && b in s.routes && a != b
    requires DesiredServices(s.routes[a].route).Keys !! DesiredServices(s.routes[b].route).Keys
    ensures Settle(gateways, Settle(gateways, s, a), b).services == Settle(gateways, Settle(gateways, s, b), a).services
  {
    hide Settle, ServicesMove, DesiredServices;
    if s.routes[a].route.meta.uid == s.routes[b].route.meta.uid {
      UidsIdentify(s, a, b);
    }
    RoutesMoveElsewhere(gateways, s, a, b);
    RoutesMoveElsewhere(gateways, s, b, a);
    SettleMovesServices(gateways, s, a);
    SettleMovesServices(gateways, s, b);
    SettleMovesServices(gateways, Settle(gateways, s, a), b);
    SettleMovesServices(gateways, Settle(gateways, s, b), a);
    ServicesCommute(s.services, s.routes[a], s.routes[b]);
  }

  /** Reconciles of routes with different FQDNs commute, on the whole store and whether or
      not their groups build. */
  lemma DifferentFqdnsCommute(gateways: seq<string>, s: Store, a: Key, b: Key)
    requires RoutesOk(s.issued, s.routes) && a in s.routes && b in s.routes && a != b
    requires VsKeyOf(s.routes[a].route) != VsKeyOf(s.routes[b].route)
    requires DesiredServices(s.routes[a].route).Keys !! DesiredServices(s.routes[b].route).Keys
    ensures Settle(gateways, Settle(gateways, s, a), b) == Settle(gateways, Settle(gateways, s, b), a)
  {
    hide Settle, ServicesMove, DesiredServices;
    RoutesCommute(gateways, s, a, b);
    VirtualServicesCommute(gateways, s, a, b);
    ServicesOfBothCommute(gateways, s, a, b);
    WritesOnlyItsOwn(gateways, s, a);
    WritesOnlyItsOwn(gateways, s, b);
    RoutesMoveElsewhere(gateways, s, a, b);
    RoutesMoveElsewhere(gateways, s, b, a);
    RoutesOkAfter(gateways, s, a);
    RoutesOkAfter(gateways, s, b);
    WritesOnlyItsOwn(gateways, Settle(gateways, s, a), b);
    WritesOnlyItsOwn(gateways, Settle(gateways, s, b), a);
  }

  // ---- two routes of one FQDN ----

  /** Two routes of an FQDN that builds, which the controller alone can finalize. */
  ghost predicate Neighbours(s: Store, a: Key, b: Key)
  {
    && RoutesOk(s.issued, s.routes) && a in s.routes && b in s.routes && a != b
    && VsKeyOf(s.routes[a].route) == VsKeyOf(s.routes[b].route)
    && GroupValid(SiblingsOf(s.routes, s.routes[a].route))
    && WaitsForUsOnly(s.routes[a]) && WaitsForUsOnly(s.routes[b])
  }

  lemma NeighboursAreMutual(s: Store, a: Key, b: Key)
    requires Neighbours(s, a, b)
    ensures Neighbours(s, b, a)
    ensures SiblingsOf(s.routes, s.routes[b].route) == SiblingsOf(s.routes, s.routes[a].route)
  {
  }

  lemma RouteAfterWhenValid(sr: StoredRoute, group: set<Route>)
    requires GroupValid(group)
    ensures RouteAfter(sr, group) == RouteAfter(sr, {})
  {
    hide Without, GroupValid, GroupOf;
    EmptyGroupIsValid();
    assert {} - {sr.route} == {};
    SubgroupValid(group, group - {sr.route});
  }

  /** The second of the two still finds a group that builds. */
  lemma SecondFindsValidGroup(gateways: seq<string>, s: Store, a: Key, b: Key)
    requires Neighbours(s, a, b)
    ensures var t := Settle(gateways, s, a);
      && RoutesOk(t.issued, t.routes) && b in t.routes && t.routes[b] == s.routes[b]
      && GroupValid(SiblingsOf(t.routes, t.routes[b].route))
  {
    hide Settle, GroupValid, RouteAfter, WaitsForUsOnly, GroupOf;
    RoutesOkAfter(gateways, s, a);
    RoutesMoveElsewhere(gateways, s, a, b);
    OwnGroup(gateways, s, a);
    NeighboursAreMutual(s, a, b);
    SubgroupValid(SiblingsOf(s.routes, s.routes[a].route), SiblingsOf(Settle(gateways, s, a).routes, s.routes[b].route));
  }

  lemma TwoValidMoves(gateways: seq<string>, s: Store, a: Key, b: Key)
    requires Neighbours(s, a, b)
    ensures var t := Settle(gateways, Settle(gateways, s, a), b).routes;
      var afterA, afterB := RouteAfter(s.routes[a], {}), RouteAfter(s.routes[b], {});
      && (a in t <==> afterA.Some?) && (a in t ==> t[a] == afterA.value)
      && (b in t <==> afterB.Some?) && (b in t ==> t[b] == afterB.value)
  {
    hide Settle, RouteAfter, GroupValid, WaitsForUsOnly, GroupOf;
    var sa := Settle(gateways, s, a);
    SecondFindsValidGroup(gateways, s, a, b);
    RouteAfterWhenValid(s.routes[a], SiblingsOf(s.routes, s.routes[a].route));
    RouteAfterWhenValid(sa.routes[b], SiblingsOf(sa.routes, sa.routes[b].route));
    RoutesMove(gateways, s, a);
    RoutesMove(gateways, sa, b);
    RoutesMoveElsewhere(gateways, sa, b, a);
  }

  lemma ValidRoutesCommute(gateways: seq<string>, s: Store, a: Key, b: Key)
    requires Neighbours(s, a, b)
    ensures Settle(gateways, Settle(gateways, s, a), b).routes == Settle(gateways, Settle(gateways, s, b), a).routes
  {
    hide Settle, RouteAfter, GroupValid, WaitsForUsOnly, GroupOf;
    var ab, ba := Settle(gateways, Settle(gateways, s, a), b).routes, Settle(gateways, Settle(gateways, s, b), a).routes;
    NeighboursAreMutual(s, a, b);
    TwoValidMoves(gateways, s, a, b);
    TwoValidMoves(gateways, s, b, a);
    forall k
      ensures k in ab <==> k in ba
      ensures k in ab ==> ab[k] == ba[k]
    {
      RoutesMoveElsewhereTwice(gateways, s, a, b, k);
      RoutesMoveElsewhereTwice(gateways, s, b, a, k);
    }
  }

  lemma ValidGroupSucceeds(s: Store, key: Key)
    requires key in s.routes && GroupValid(SiblingsOf(s.routes, s.routes[key].route))
    ensures Succeeds(s, key)
  {
    hide GroupOf, GroupValid;
    SubgroupValid(SiblingsOf(s.routes, s.routes[key].route), Rest(s, s.routes[key]));
  }

  lemma ValidVirtualServicesAfterTwo(gateways: seq<string>, s: Store, a: Key, b: Key, v: VsKey)
    requires Neighbours(s, a, b)
    ensures var t := Settle(gateways, Settle(gateways, s, a), b);
      if v == VsKeyOf(s.routes[a].route)
      then VsSettled(gateways, t.routes, t.virtualServices, v)
      else Entry(t.virtualServices, v) == Entry(s.virtualServices, v)
  {
    hide Settle, GroupValid, VsSettled, VsAfter, Succeeds, WaitsForUsOnly, GroupOf;
    var sa := Settle(gateways, s, a);
    SecondFindsValidGroup(gateways, s, a, b);
    ValidGroupSucceeds(sa, b);
    FqdnsAfter(gateways, sa, b, v);
    VirtualServicesMove(gateways, s, a, v);
    VirtualServicesMove(gateways, sa, b, v);
  }

  lemma SettledEntry(gateways: seq<string>, routes: Routes, x: VirtualServices, y: VirtualServices, v: VsKey)
    requires VsSettled(gateways, routes, x, v) && VsSettled(gateways, routes, y, v)
    ensures Entry(x, v) == Entry(y, v)
  {
  }

  lemma NeighboursCommute(gateways: seq<string>, s: Store, a: Key, b: Key)
    requires Neighbours(s, a, b)
    requires DesiredServices(s.routes[a].route).Keys !! DesiredServices(s.routes[b].route).Keys
    ensures Settle(gateways, Settle(gateways, s, a), b) == Settle(gateways, Settle(gateways, s, b), a)
  {
    hide Settle, GroupValid, VsSettled, DesiredServices, Touched, WaitsForUsOnly, GroupOf;
    var ab, ba := Settle(gateways, Settle(gateways, s, a), b), Settle(gateways, Settle(gateways, s, b), a);
    NeighboursAreMutual(s, a, b);
    ValidRoutesCommute(gateways, s, a, b);
    ServicesOfBothCommute(gateways, s, a, b);
    IssuedStays(gateways, s, a);
    IssuedStays(gateways, s, b);
    IssuedStays(gateways, Settle(gateways, s, a), b);
    IssuedStays(gateways, Settle(gateways, s, b), a);
    forall v
      ensures Entry(ab.virtualServices, v) == Entry(ba.virtualServices, v)
    {
      ValidVirtualServicesAfterTwo(gateways, s, a, b, v);
      ValidVirtualServicesAfterTwo(gateways, s, b, a, v);
      if v == VsKeyOf(s.routes[a].route) {
        SettledEntry(gateways, ab.routes, ab.virtualServices, ba.virtualServices, v);
      }
    }
    SameEntries(ab.virtualServices, ba.virtualServices);
  }

  /** Reconciles of any two routes commute, live or being deleted: those of different FQDNs
      always, and those of one FQDN if its routes build. */
  lemma AnyTwoCommute(gateways: seq<string>, s: Store, a: Key, b: Key)
    requires RoutesOk(s.issued, s.routes) && a in s.routes && b in s.routes && a != b
    requires DesiredServices(s.routes[a].route).Keys !! DesiredServices(s.routes[b].route).Keys
    requires VsKeyOf(s.routes[a].route) == VsKeyOf(s.routes[b].route) ==> Neighbours(s, a, b)
    ensures Settle(gateways, Settle(gateways, s, a), b) == Settle(gateways, Settle(gateways, s, b), a)
  {
    hide Settle, Neighbours, DesiredServices;
    if VsKeyOf(s.routes[a].route) == VsKeyOf(s.routes[b].route) {
      NeighboursCommute(gateways, s, a, b);
    } else {
      DifferentFqdnsCommute(gateways, s, a, b);
    }
  }
}
