/** The main theorems about sequences of undisturbed Reconciles. */
module Convergence {
  import opened RouteTypes
  import opened Resources
  import opened VirtualServiceSpec
  import opened ClusterStore
  import opened ReconcilePlan
  import opened SettleEffects
  import opened Progress

  // ---- what no undisturbed Reconcile undoes ----

  /** A finalization deletes the route's own Services first. */
  ghost predicate ServicesStay(s: Store, t: Store, key: Key)
  {
    forall k :: k in t.routes && ServicesSettled(s.services, t.routes[k].route) ==>
      ServicesSettled(t.services, t.routes[k].route) || (k == key && t.routes[k].deleting)
  }

  /** A finalization that stops half way leaves the VirtualService of its FQDN without a
      route that is still stored. */
  ghost predicate VirtualServicesStay(gateways: seq<string>, s: Store, t: Store, key: Key)
  {
    forall v :: VsSettled(gateways, s.routes, s.virtualServices, v) ==>
      || VsSettled(gateways, t.routes, t.virtualServices, v)
      || (key in t.routes && t.routes[key].deleting && VsKeyOf(t.routes[key].route) == v)
  }

  /** Routes go only by finalization, and not before their VirtualService is right. */
  ghost predicate RoutesStay(gateways: seq<string>, s: Store, t: Store, key: Key)
  {
    && t.routes.Keys <= s.routes.Keys
    && (forall k :: k in t.routes ==> SameRoute(s.routes[k], t.routes[k]))
    && forall k :: k in s.routes && k !in t.routes ==>
         k == key && s.routes[k].deleting && VsSettled(gateways, t.routes, t.virtualServices, VsKeyOf(s.routes[k].route))
  }

  /** The step from `s` to `t` is that of an undisturbed Reconcile of `key`, complete or not. */
  ghost predicate Advances(gateways: seq<string>, s: Store, t: Store, key: Key)
  {
    && t.issued == s.issued
    && RoutesStay(gateways, s, t, key)
    && ServicesStay(s, t, key)
    && VirtualServicesStay(gateways, s, t, key)
  }

  /** It is that of a complete one that succeeds. */
  ghost predicate Completes(gateways: seq<string>, s: Store, t: Store, key: Key)
  {
    t == Settle(gateways, s, key) && Succeeds(s, key)
  }

  lemma NothingAdvances(gateways: seq<string>, s: Store, key: Key)
    ensures Advances(gateways, s, s, key)
  {
  }

  lemma SettleKeepsRoutes(gateways: seq<string>, s: Store, key: Key)
    requires WellFormed(s) && key in s.routes
    ensures RoutesStay(gateways, s, Settle(gateways, s, key), key)
  {
    hide Settle, WellFormed, VsSettled, Succeeds, OursAlone;
    RoutesOfWellFormed(s);
    RoutesAfter(gateways, s, key);
    if Goes(s, key) {
      FqdnsAfter(gateways, s, key, VsKeyOf(s.routes[key].route));
    }
  }

  lemma SettleKeepsVirtualServices(gateways: seq<string>, s: Store, key: Key)
    requires RoutesOk(s.issued, s.routes) && key in s.routes
    ensures VirtualServicesStay(gateways, s, Settle(gateways, s, key), key)
  {
    hide Settle, VsSettled, Succeeds, OursAlone;
    var t := Settle(gateways, s, key);
    RoutesAfter(gateways, s, key);
    forall v | VsSettled(gateways, s.routes, s.virtualServices, v) && (v == VsKeyOf(s.routes[key].route) ==> WaitsForUsOnly(s.routes[key]))
      ensures VsSettled(gateways, t.routes, t.virtualServices, v)
    {
      FqdnsAfter(gateways, s, key, v);
    }
  }

  /** A complete Reconcile, successful or not, is such a step. */
  lemma SettleAdvances(gateways: seq<string>, s: Store, key: Key)
    requires WellFormed(s)
    ensures Advances(gateways, s, Settle(gateways, s, key), key)
  {
    hide Settle, WellFormed, VsSettled, ServicesSettled, Succeeds, OursAlone;
    var t := Settle(gateways, s, key);
    if key in s.routes {
      RoutesOfWellFormed(s);
      IssuedStays(gateways, s, key);
      SettleKeepsRoutes(gateways, s, key);
      RoutesAfter(gateways, s, key);
      forall k | k in t.routes && ServicesSettled(s.services, t.routes[k].route) && !(k == key && t.routes[k].deleting)
        ensures ServicesSettled(t.services, t.routes[k].route)
      {
        ServicesStaySettled(gateways, s, key, k);
      }
      SettleKeepsVirtualServices(gateways, s, key);
    } else {
      SettleAbsent(gateways, s, key);
      NothingAdvances(gateways, s, key);
    }
  }

  // ---- runs ----

  /** `states[i]` is the state in which request `keys[i]` is taken up. */
  ghost predicate IsRun(gateways: seq<string>, states: seq<Store>, keys: seq<Key>)
  {
    && |states| == |keys| + 1 && WellFormed(states[0])
    && forall i :: 0 <= i < |keys| ==> Advances(gateways, states[i], states[i + 1], keys[i])
  }

  lemma {:induction false} RoutesOfRun(gateways: seq<string>, states: seq<Store>, keys: seq<Key>, i: nat)
    requires IsRun(gateways, states, keys) && i <= |keys|
    ensures WellFormed(states[i]) && states[i].routes.Keys <= states[0].routes.Keys
    ensures forall k :: k in states[i].routes ==> SameRoute(states[0].routes[k], states[i].routes[k])
  {
    hide WellFormed, ServicesStay, VirtualServicesStay, VsSettled;
    if i > 0 {
      RoutesOfRun(gateways, states, keys, i - 1);
      assert Advances(gateways, states[i - 1], states[i], keys[i - 1]);
      WellFormedSurvives(states[i - 1], states[i]);
    }
  }

  lemma {:induction false} GoneStaysGone(gateways: seq<string>, states: seq<Store>, keys: seq<Key>, i: nat, j: nat, k: Key)
    requires IsRun(gateways, states, keys) && i <= j <= |keys| && k !in states[i].routes
    ensures k !in states[j].routes
  {
    hide WellFormed, ServicesStay, VirtualServicesStay, VsSettled;
    if i < j {
      GoneStaysGone(gateways, states, keys, i, j - 1, k);
      assert Advances(gateways, states[j - 1], states[j], keys[j - 1]);
    }
  }

  lemma {:induction false} LiveRouteStays(gateways: seq<string>, states: seq<Store>, keys: seq<Key>, i: nat, k: Key)
    requires IsRun(gateways, states, keys) && i <= |keys| && k in states[0].routes && !states[0].routes[k].deleting
    ensures k in states[i].routes
  {
    hide WellFormed, ServicesStay, VirtualServicesStay, VsSettled;
    if i > 0 {
      LiveRouteStays(gateways, states, keys, i - 1, k);
      RoutesOfRun(gateways, states, keys, i - 1);
      assert Advances(gateways, states[i - 1], states[i], keys[i - 1]);
    }
  }

  lemma {:induction false} ServicesOfRun(gateways: seq<string>, states: seq<Store>, keys: seq<Key>, i: nat, j: nat, k: Key)
    requires IsRun(gateways, states, keys) && i <= j <= |keys| && k in states[0].routes && !states[0].routes[k].deleting
    requires ServicesSettled(states[i].services, states[0].routes[k].route)
    ensures k in states[j].routes && ServicesSettled(states[j].services, states[0].routes[k].route)
  {
    hide WellFormed, VirtualServicesStay, VsSettled, ServicesSettled;
    LiveRouteStays(gateways, states, keys, j, k);
    RoutesOfRun(gateways, states, keys, j);
    if i < j {
      ServicesOfRun(gateways, states, keys, i, j - 1, k);
      assert Advances(gateways, states[j - 1], states[j], keys[j - 1]);
    }
  }

  /** The VirtualService of an FQDN is as built, or a finalization that will see to it is
      still to come. */
  ghost predicate SettledOrRetiring(gateways: seq<string>, s: Store, v: VsKey)
  {
    || VsSettled(gateways, s.routes, s.virtualServices, v)
    || exists k :: k in s.routes && s.routes[k].deleting && VsKeyOf(s.routes[k].route) == v
  }

  lemma StaysSettledOrRetiring(gateways: seq<string>, s: Store, t: Store, key: Key, v: VsKey)
    requires Advances(gateways, s, t, key) && SettledOrRetiring(gateways, s, v)
    ensures SettledOrRetiring(gateways, t, v)
  {
    hide ServicesStay, VsSettled;
    if !VsSettled(gateways, s.routes, s.virtualServices, v) {
      var k :| k in s.routes && s.routes[k].deleting && VsKeyOf(s.routes[k].route) == v;
      assert k in t.routes ==> SameRoute(s.routes[k], t.routes[k]);
    }
  }

  lemma {:induction false} VirtualServicesOfRun(gateways: seq<string>, states: seq<Store>, keys: seq<Key>, i: nat, j: nat, v: VsKey)
    requires IsRun(gateways, states, keys) && i <= j <= |keys| && SettledOrRetiring(gateways, states[i], v)
    ensures SettledOrRetiring(gateways, states[j], v)
  {
    hide WellFormed, Advances, SettledOrRetiring;
    if i < j {
      VirtualServicesOfRun(gateways, states, keys, i, j - 1, v);
      assert Advances(gateways, states[j - 1], states[j], keys[j - 1]);
      StaysSettledOrRetiring(gateways, states[j - 1], states[j], keys[j - 1], v);
    }
  }

  lemma {:induction false} RemovalSettles(gateways: seq<string>, states: seq<Store>, keys: seq<Key>, i: nat, k: Key)
    requires IsRun(gateways, states, keys) && i <= |keys| && k in states[0].routes && k !in states[i].routes
    ensures SettledOrRetiring(gateways, states[i], VsKeyOf(states[0].routes[k].route))
  {
    hide WellFormed, ServicesStay, VirtualServicesStay, VsSettled;
    if i > 0 {
      var s, t := states[i - 1], states[i];
      assert Advances(gateways, s, t, keys[i - 1]);
      RoutesOfRun(gateways, states, keys, i - 1);
      if k !in s.routes {
        RemovalSettles(gateways, states, keys, i - 1, k);
        StaysSettledOrRetiring(gateways, s, t, keys[i - 1], VsKeyOf(states[0].routes[k].route));
      }
    }
  }

  /** What a complete and successful Reconcile of the route achieves, if it is still stored. */
  lemma CompletionSettles(gateways: seq<string>, s: Store, t: Store, key: Key)
    requires WellFormed(s) && key in s.routes && WaitsForUsOnly(s.routes[key]) && Completes(gateways, s, t, key)
    ensures VsSettled(gateways, t.routes, t.virtualServices, VsKeyOf(s.routes[key].route))
    ensures if s.routes[key].deleting then key !in t.routes else ServicesSettled(t.services, s.routes[key].route)
  {
    hide Settle, WellFormed, VsSettled, ServicesSettled, Succeeds, OursAlone;
    RoutesOfWellFormed(s);
    RoutesAfter(gateways, s, key);
    FqdnsAfter(gateways, s, key, VsKeyOf(s.routes[key].route));
    if !s.routes[key].deleting {
      ServicesStaySettled(gateways, s, key, key);
    }
  }

  /** Some request of the run for this route was carried out completely and with success. */
  ghost predicate CompletedOnce(gateways: seq<string>, states: seq<Store>, keys: seq<Key>, k: Key)
    requires |states| == |keys| + 1
  {
    exists i :: 0 <= i < |keys| && keys[i] == k && Completes(gateways, states[i], states[i + 1], k)
  }

  /** What becomes of one route. */
  lemma RouteConverges(gateways: seq<string>, states: seq<Store>, keys: seq<Key>, k: Key)
    requires IsRun(gateways, states, keys) && k in states[0].routes && CompletedOnce(gateways, states, keys, k)
    requires WaitsForUsOnly(states[0].routes[k])
    ensures var t, sr := states[|keys|], states[0].routes[k];
      && (k in t.routes <==> !sr.deleting)
      && (!sr.deleting ==> ServicesSettled(t.services, sr.route))
      && SettledOrRetiring(gateways, t, VsKeyOf(sr.route))
  {
    hide WellFormed, Advances, Completes, VsSettled, ServicesSettled;
    var i :| 0 <= i < |keys| && keys[i] == k && Completes(gateways, states[i], states[i + 1], k);
    var n, v := |keys|, VsKeyOf(states[0].routes[k].route);
    RoutesOfRun(gateways, states, keys, i);
    if k in states[i].routes {
      CompletionSettles(gateways, states[i], states[i + 1], k);
      VirtualServicesOfRun(gateways, states, keys, i + 1, n, v);
      if states[0].routes[k].deleting {
        GoneStaysGone(gateways, states, keys, i + 1, n, k);
      } else {
        ServicesOfRun(gateways, states, keys, i + 1, n, k);
      }
    } else {
      if !states[0].routes[k].deleting {
        LiveRouteStays(gateways, states, keys, i, k);
      }
      GoneStaysGone(gateways, states, keys, i, n, k);
      RemovalSettles(gateways, states, keys, n, k);
    }
  }

  ghost predicate FqdnCompleted(gateways: seq<string>, states: seq<Store>, keys: seq<Key>, v: VsKey)
    requires |states| == |keys| + 1
  {
    forall k :: k in states[0].routes && VsKeyOf(states[0].routes[k].route) == v ==> CompletedOnce(gateways, states, keys, k)
  }

  /** Exactly the live routes of the FQDN are left, and they build. */
  ghost predicate LiveRemain(s: Store, t: Store, v: VsKey)
  {
    && GroupValid(GroupOf(t.routes, v.namespace, v.name.fqdn))
    && (forall k :: k in s.routes && VsKeyOf(s.routes[k].route) == v ==> (k in t.routes <==> !s.routes[k].deleting))
    && forall k :: k in t.routes ==> k in s.routes && t.routes[k].route == s.routes[k].route
  }

  lemma LaterGroupValid(s: Store, t: Store, v: VsKey)
    requires t.routes.Keys <= s.routes.Keys && GroupValid(GroupOf(s.routes, v.namespace, v.name.fqdn))
    requires forall k :: k in t.routes ==> t.routes[k].route == s.routes[k].route
    ensures GroupValid(GroupOf(t.routes, v.namespace, v.name.fqdn))
  {
    hide GroupValid;
    SubgroupValid(GroupOf(s.routes, v.namespace, v.name.fqdn), GroupOf(t.routes, v.namespace, v.name.fqdn));
  }

  /** A live route that is reconciled with success has found a group that builds, and so the
      group of those that are left at the end builds too. */
  lemma SurvivorsBuild(gateways: seq<string>, states: seq<Store>, keys: seq<Key>, k: Key)
    requires IsRun(gateways, states, keys) && k in states[0].routes && CompletedOnce(gateways, states, keys, k)
    requires !states[0].routes[k].deleting
    ensures var v := VsKeyOf(states[0].routes[k].route);
      GroupValid(GroupOf(states[|keys|].routes, v.namespace, v.name.fqdn))
  {
    hide WellFormed, Advances, GroupValid, GroupOf, Settle;
    var i :| 0 <= i < |keys| && keys[i] == k && Completes(gateways, states[i], states[i + 1], k);
    var n, v := |keys|, VsKeyOf(states[0].routes[k].route);
    RoutesOfRun(gateways, states, keys, i);
    RoutesOfRun(gateways, states, keys, n);
    LiveRouteStays(gateways, states, keys, i, k);
    RoutesOfWellFormed(states[0]);
    assert RouteOk(states[0].issued, k, states[0].routes[k]);
    forall j | j in states[n].routes
      ensures j in states[i].routes && states[n].routes[j].route == states[i].routes[j].route
    {
      if j !in states[i].routes {
        GoneStaysGone(gateways, states, keys, i, n, j);
      }
    }
    LaterGroupValid(states[i], states[n], v);
  }

  lemma GroupLeftBuilds(gateways: seq<string>, states: seq<Store>, keys: seq<Key>, v: VsKey)
    requires IsRun(gateways, states, keys) && OnlyOurFinalizer(states[0].routes, v) && FqdnCompleted(gateways, states, keys, v)
    ensures GroupValid(GroupOf(states[|keys|].routes, v.namespace, v.name.fqdn))
  {
    hide WellFormed, Advances, GroupValid, CompletedOnce, WaitsForUsOnly;
    var n := |keys|;
    EmptyGroupIsValid();
    RoutesOfRun(gateways, states, keys, n);
    RoutesOfWellFormed(states[0]);
    if r :| r in GroupOf(states[n].routes, v.namespace, v.name.fqdn) {
      var k :| k in states[n].routes && k.namespace == v.namespace && states[n].routes[k].route.FQDN() == v.name.fqdn;
      assert RouteOk(states[0].issued, k, states[0].routes[k]);
      assert VsKeyOf(states[0].routes[k].route) == v;
      RouteConverges(gateways, states, keys, k);
      SurvivorsBuild(gateways, states, keys, k);
    } else {
      assert GroupOf(states[n].routes, v.namespace, v.name.fqdn) == {};
    }
  }

  /** Convergence of one FQDN, whatever happens to the others. From any store with well-formed
      routes and arbitrary children, after undisturbed Reconciles in any order, any number of
      which may have failed or stopped half way, if each route of the FQDN had one that was
      complete and successful: the FQDN's routes marked for deletion are gone, the others are
      there, their Services are exactly those built from them, and the VirtualService is
      exactly the one built from them all, which do build, or absent if there are none. */
  lemma FqdnConverges(gateways: seq<string>, states: seq<Store>, keys: seq<Key>, key: Key)
    requires IsRun(gateways, states, keys) && key in states[0].routes
    requires OnlyOurFinalizer(states[0].routes, VsKeyOf(states[0].routes[key].route))
    requires FqdnCompleted(gateways, states, keys, VsKeyOf(states[0].routes[key].route))
    ensures var v := VsKeyOf(states[0].routes[key].route);
      FqdnSettled(gateways, states[|keys|], v) && LiveRemain(states[0], states[|keys|], v)
  {
    hide WellFormed, Advances, CompletedOnce, VsSettled, ServicesSettled, GroupValid, GroupOf;
    var s, t, v := states[0], states[|keys|], VsKeyOf(states[0].routes[key].route);
    RoutesOfRun(gateways, states, keys, |keys|);
    RouteConverges(gateways, states, keys, key);
    GroupLeftBuilds(gateways, states, keys, v);
    forall k | k in s.routes && VsKeyOf(s.routes[k].route) == v
      ensures k in t.routes <==> !s.routes[k].deleting
      ensures !s.routes[k].deleting ==> ServicesSettled(t.services, s.routes[k].route)
    {
      RouteConverges(gateways, states, keys, k);
    }
  }

  // ---- requests carried out completely ----

  ghost function SettleAll(gateways: seq<string>, s: Store, keys: seq<Key>): Store
  {
    if keys == [] then s else Settle(gateways, SettleAll(gateways, s, keys[..|keys| - 1]), keys[|keys| - 1])
  }

  lemma SettleNone(gateways: seq<string>, s: Store)
    ensures SettleAll(gateways, s, []) == s
  {
  }

  lemma SettleOneMore(gateways: seq<string>, s: Store, keys: seq<Key>, i: nat)
    requires i < |keys|
    ensures SettleAll(gateways, s, keys[..i + 1]) == Settle(gateways, SettleAll(gateways, s, keys[..i]), keys[i])
  {
    assert keys[..i + 1][..i] == keys[..i];
  }

  ghost function StatesOf(gateways: seq<string>, s: Store, keys: seq<Key>): (states: seq<Store>)
    ensures |states| == |keys| + 1
  {
    seq(|keys| + 1, i requires 0 <= i <= |keys| => SettleAll(gateways, s, keys[..i]))
  }

  lemma {:induction false} SettleAllWellFormed(gateways: seq<string>, s: Store, keys: seq<Key>)
    requires WellFormed(s)
    ensures WellFormed(SettleAll(gateways, s, keys))
  {
    hide Settle, WellFormed;
    if keys != [] {
      var init, last := keys[..|keys| - 1], keys[|keys| - 1];
      SettleAllWellFormed(gateways, s, init);
      var t := SettleAll(gateways, s, init);
      if last in t.routes {
        WellFormedAfter(gateways, t, last);
      } else {
        SettleAbsent(gateways, t, last);
      }
    }
  }

  lemma SettleAllIsRun(gateways: seq<string>, s: Store, keys: seq<Key>)
    requires WellFormed(s)
    ensures IsRun(gateways, StatesOf(gateways, s, keys), keys)
    ensures StatesOf(gateways, s, keys)[0] == s && StatesOf(gateways, s, keys)[|keys|] == SettleAll(gateways, s, keys)
  {
    hide Settle, WellFormed, Advances, SettleAll;
    var states := StatesOf(gateways, s, keys);
    assert keys[..0] == [] && keys[..|keys|] == keys;
    SettleNone(gateways, s);
    forall i | 0 <= i < |keys|
      ensures Advances(gateways, states[i], states[i + 1], keys[i])
    {
      SettleAllWellFormed(gateways, s, keys[..i]);
      SettleOneMore(gateways, s, keys, i);
      SettleAdvances(gateways, states[i], keys[i]);
    }
  }

  /** Some request for the route finds its FQDN's routes, those remaining if it is being
      deleted, such that they build. */
  ghost predicate SucceedsOnce(gateways: seq<string>, s: Store, keys: seq<Key>, k: Key)
  {
    exists i :: 0 <= i < |keys| && keys[i] == k && Succeeds(SettleAll(gateways, s, keys[..i]), k)
  }

  ghost predicate FqdnSucceeds(gateways: seq<string>, s: Store, keys: seq<Key>, v: VsKey)
  {
    forall k :: k in s.routes && VsKeyOf(s.routes[k].route) == v ==> SucceedsOnce(gateways, s, keys, k)
  }

  lemma SuccessCompletes(gateways: seq<string>, s: Store, keys: seq<Key>, k: Key)
    requires SucceedsOnce(gateways, s, keys, k)
    ensures CompletedOnce(gateways, StatesOf(gateways, s, keys), keys, k)
  {
    hide Settle, SettleAll, Succeeds;
    var states := StatesOf(gateways, s, keys);
    var i :| 0 <= i < |keys| && keys[i] == k && Succeeds(SettleAll(gateways, s, keys[..i]), k);
    SettleOneMore(gateways, s, keys, i);
    assert Completes(gateways, states[i], states[i + 1], k);
  }

  /** The same for Reconciles that no failing call interrupts. */
  lemma SettleAllConverges(gateways: seq<string>, s: Store, keys: seq<Key>, key: Key)
    requires WellFormed(s) && key in s.routes
    requires OnlyOurFinalizer(s.routes, VsKeyOf(s.routes[key].route))
    requires FqdnSucceeds(gateways, s, keys, VsKeyOf(s.routes[key].route))
    ensures var t, v := SettleAll(gateways, s, keys), VsKeyOf(s.routes[key].route);
      FqdnSettled(gateways, t, v) && LiveRemain(s, t, v)
  {
    hide WellFormed, IsRun, FqdnSettled, LiveRemain, SucceedsOnce, CompletedOnce, SettleAll, StatesOf;
    SettleAllIsRun(gateways, s, keys);
    forall k | k in s.routes && VsKeyOf(s.routes[k].route) == VsKeyOf(s.routes[key].route)
      ensures CompletedOnce(gateways, StatesOf(gateways, s, keys), keys, k)
    {
      SuccessCompletes(gateways, s, keys, k);
    }
    FqdnConverges(gateways, StatesOf(gateways, s, keys), keys, key);
  }

  /** Everything is settled, and exactly the live routes are left; an FQDN that has lost its
      last route has lost its VirtualService too. */
  ghost predicate Converged(gateways: seq<string>, s: Store, t: Store)
  {
    && t.routes.Keys == (set k | k in s.routes && !s.routes[k].deleting)
    && (forall k :: k in t.routes ==> t.routes[k].route == s.routes[k].route)
    && Settled(gateways, t)
    && forall k :: k in s.routes ==> VsSettled(gateways, t.routes, t.virtualServices, VsKeyOf(s.routes[k].route))
  }

  lemma AllFqdnsConverged(gateways: seq<string>, s: Store, t: Store)
    requires t.routes.Keys <= s.routes.Keys
    requires forall k :: k in s.routes ==>
      var v := VsKeyOf(s.routes[k].route); FqdnSettled(gateways, t, v) && LiveRemain(s, t, v)
    ensures Converged(gateways, s, t)
  {
    hide VsSettled, ServicesSettled;
  }

  /** Convergence. From any store with well-formed routes and arbitrary Services and
      VirtualServices, undisturbed Reconciles in any order, with any repetitions and any
      failures for invalid routes, of which each route has had a successful one. */
  lemma Converges(gateways: seq<string>, s: Store, keys: seq<Key>)
    requires WellFormed(s) && forall k :: k in s.routes ==> WaitsForUsOnly(s.routes[k]) && SucceedsOnce(gateways, s, keys, k)
    ensures Converged(gateways, s, SettleAll(gateways, s, keys))
  {
    hide WellFormed, IsRun, FqdnSettled, LiveRemain, SucceedsOnce, SettleAll, StatesOf, Converged;
    SettleAllIsRun(gateways, s, keys);
    RoutesOfRun(gateways, StatesOf(gateways, s, keys), keys, |keys|);
    forall k | k in s.routes
      ensures var t, v := SettleAll(gateways, s, keys), VsKeyOf(s.routes[k].route);
        FqdnSettled(gateways, t, v) && LiveRemain(s, t, v)
    {
      SettleAllConverges(gateways, s, keys, k);
    }
    AllFqdnsConverged(gateways, s, SettleAll(gateways, s, keys));
  }

  // ---- while every FQDN builds ----

  lemma RequestSucceeds(gateways: seq<string>, s: Store, keys: seq<Key>, k: Key)
    requires WellFormed(s) && GroupsValid(s.routes) && k in keys
    ensures SucceedsOnce(gateways, s, keys, k)
  {
    hide WellFormed, IsRun, SettleAll, GroupsValid, Succeeds;
    var i: nat :| i < |keys| && keys[i] == k;
    SettleAllIsRun(gateways, s, keys);
    RoutesOfRun(gateways, StatesOf(gateways, s, keys), keys, i);
    var t := SettleAll(gateways, s, keys[..i]);
    assert t == StatesOf(gateways, s, keys)[i];
    GroupsStayValid(s, t);
    ValidGroupsSucceed(t, k);
  }

  /** If every FQDN's routes build, one request for each route is enough. */
  lemma ValidConverges(gateways: seq<string>, s: Store, keys: seq<Key>)
    requires WellFormed(s) && GroupsValid(s.routes) && forall k :: k in s.routes ==> WaitsForUsOnly(s.routes[k]) && k in keys
    ensures Converged(gateways, s, SettleAll(gateways, s, keys))
  {
    hide WellFormed, GroupsValid, SucceedsOnce, SettleAll, Converged;
    forall k | k in s.routes
      ensures SucceedsOnce(gateways, s, keys, k)
    {
      RequestSucceeds(gateways, s, keys, k);
    }
    Converges(gateways, s, keys);
  }
}
