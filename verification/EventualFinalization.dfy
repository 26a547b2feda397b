/** When a route marked for deletion goes, if the requests are repeated for ever. */
module EventualFinalization {
  import opened RouteTypes
  import opened VirtualServiceSpec
  import opened ClusterStore
  import opened ReconcilePlan
  import opened SettleEffects
  import opened Progress
  import opened Convergence

  ghost predicate OfFqdn(routes: Routes, v: VsKey, k: Key)
  {
    k in routes && VsKeyOf(routes[k].route) == v
  }

  /** The route is marked for deletion, waits for the controller only, and the others build. */
  ghost predicate CanGo(routes: Routes, v: VsKey, d: Key)
  {
    && OfFqdn(routes, v, d) && routes[d].deleting && OursAlone(routes[d].finalizers)
    && GroupValid(GroupOf(routes, v.namespace, v.name.fqdn) - {routes[d].route})
  }

  ghost predicate SomeCanGo(routes: Routes, v: VsKey)
  {
    exists d :: CanGo(routes, v, d)
  }

  // ---- if none can go now, none ever goes ----

  /** The routes of the FQDN are those they were, or later versions of them. */
  ghost predicate SameRoutesOf(s: Routes, t: Routes, v: VsKey)
  {
    forall k :: (OfFqdn(s, v, k) <==> OfFqdn(t, v, k)) && (OfFqdn(s, v, k) ==> SameRoute(s[k], t[k]))
  }

  lemma SameGroup(s: Store, t: Store, v: VsKey)
    requires RoutesOk(s.issued, s.routes) && RoutesOk(t.issued, t.routes) && SameRoutesOf(s.routes, t.routes, v)
    ensures GroupOf(t.routes, v.namespace, v.name.fqdn) == GroupOf(s.routes, v.namespace, v.name.fqdn)
  {
    hide GroupOf;
    forall r
      ensures r in GroupOf(t.routes, v.namespace, v.name.fqdn) <==> r in GroupOf(s.routes, v.namespace, v.name.fqdn)
    {
      GroupMembers(s, v.namespace, v.name.fqdn, r);
      GroupMembers(t, v.namespace, v.name.fqdn, r);
    }
  }

  lemma GoingMeansCanGo(s: Store, key: Key)
    requires RoutesOk(s.issued, s.routes) && key in s.routes && Goes(s, key)
    ensures CanGo(s.routes, VsKeyOf(s.routes[key].route), key)
  {
    hide GroupValid, GroupOf;
    assert s.routes[key].finalizers[0] in s.routes[key].finalizers;
  }

  lemma BlockedStep(gateways: seq<string>, s: Store, key: Key, v: VsKey)
    requires RoutesOk(s.issued, s.routes) && key in s.routes && !SomeCanGo(s.routes, v)
    ensures SameRoutesOf(s.routes, Settle(gateways, s, key).routes, v)
  {
    hide Settle, CanGo, Goes, OursAlone;
    RoutesAfter(gateways, s, key);
    if Goes(s, key) {
      GoingMeansCanGo(s, key);
    }
  }

  lemma BlockedStays(s: Store, t: Store, v: VsKey)
    requires RoutesOk(s.issued, s.routes) && RoutesOk(t.issued, t.routes) && SameRoutesOf(s.routes, t.routes, v)
    requires !SomeCanGo(s.routes, v)
    ensures !SomeCanGo(t.routes, v)
  {
    hide GroupValid, GroupOf;
    SameGroup(s, t, v);
    forall d
      ensures !CanGo(t.routes, v, d)
    {
      assert !CanGo(s.routes, v, d);
    }
  }

  /** No request for any route, however often repeated, makes a route of the FQDN go. */
  lemma {:induction false} BlockedForGood(gateways: seq<string>, s: Store, keys: seq<Key>, v: VsKey)
    requires RoutesOk(s.issued, s.routes) && !SomeCanGo(s.routes, v)
    ensures var t := SettleAll(gateways, s, keys);
      RoutesOk(t.issued, t.routes) && SameRoutesOf(s.routes, t.routes, v) && !SomeCanGo(t.routes, v)
  {
    if keys != [] {
      hide Settle, SomeCanGo;
      var init, last := keys[..|keys| - 1], keys[|keys| - 1];
      BlockedForGood(gateways, s, init, v);
      var t := SettleAll(gateways, s, init);
      if last in t.routes {
        RoutesOkAfter(gateways, t, last);
        BlockedStep(gateways, t, last, v);
        BlockedStays(t, Settle(gateways, t, last), v);
      } else {
        SettleAbsent(gateways, t, last);
      }
    }
  }

  // ---- if one can go now, all go ----

  lemma {:induction false} RoutesAfterAll(gateways: seq<string>, s: Store, keys: seq<Key>)
    requires RoutesOk(s.issued, s.routes)
    ensures var t := SettleAll(gateways, s, keys);
      && RoutesOk(t.issued, t.routes)
      && t.routes.Keys <= s.routes.Keys && forall k :: k in t.routes ==> SameRoute(s.routes[k], t.routes[k])
  {
    if keys != [] {
      hide Settle, Goes;
      var init, last := keys[..|keys| - 1], keys[|keys| - 1];
      RoutesAfterAll(gateways, s, init);
      var t := SettleAll(gateways, s, init);
      if last in t.routes {
        RoutesOkAfter(gateways, t, last);
        RoutesAfter(gateways, t, last);
      } else {
        SettleAbsent(gateways, t, last);
      }
    }
  }

  lemma GroupShrinks(s: Store, t: Store, v: VsKey)
    requires RoutesOk(s.issued, s.routes) && RoutesOk(t.issued, t.routes)
    requires t.routes.Keys <= s.routes.Keys && forall k :: k in t.routes ==> SameRoute(s.routes[k], t.routes[k])
    ensures forall r :: r in GroupOf(t.routes, v.namespace, v.name.fqdn) ==>
      r in GroupOf(s.routes, v.namespace, v.name.fqdn) && RouteKey(r) in t.routes
  {
    hide GroupOf;
    forall r | r in GroupOf(t.routes, v.namespace, v.name.fqdn)
      ensures r in GroupOf(s.routes, v.namespace, v.name.fqdn) && RouteKey(r) in t.routes
    {
      GroupMembers(t, v.namespace, v.name.fqdn, r);
      GroupMembers(s, v.namespace, v.name.fqdn, r);
    }
  }

  /** In a later state, without the route `d` or about to be without it, a request makes a
      route marked for deletion go. */
  lemma GoesNow(gateways: seq<string>, s: Store, t: Store, v: VsKey, d: Key, key: Key)
    requires RoutesOk(s.issued, s.routes) && RoutesOk(t.issued, t.routes)
    requires t.routes.Keys <= s.routes.Keys && forall k :: k in t.routes ==> SameRoute(s.routes[k], t.routes[k])
    requires CanGo(s.routes, v, d)
    requires OfFqdn(s.routes, v, key) && s.routes[key].deleting && OursAlone(s.routes[key].finalizers)
    requires key == d || d !in t.routes
    ensures key !in Settle(gateways, t, key).routes
  {
    hide Settle, GroupValid, GroupOf;
    if key in t.routes {
      var group, left := GroupOf(s.routes, v.namespace, v.name.fqdn), GroupOf(t.routes, v.namespace, v.name.fqdn);
      assert SameRoute(s.routes[key], t.routes[key]);
      assert RouteOk(s.issued, d, s.routes[d]);
      GroupShrinks(s, t, v);
      SubgroupValid(group - {s.routes[d].route}, left - {t.routes[key].route});
      RoutesAfter(gateways, t, key);
    } else {
      SettleAbsent(gateways, t, key);
    }
  }

  lemma CanGoIsDeleting(routes: Routes, v: VsKey, d: Key)
    requires CanGo(routes, v, d)
    ensures OfFqdn(routes, v, d) && routes[d].deleting && OursAlone(routes[d].finalizers)
  {
    hide GroupValid, GroupOf;
  }

  lemma StaysGone(gateways: seq<string>, s: Store, key: Key, k: Key)
    requires RoutesOk(s.issued, s.routes) && k !in s.routes
    ensures k !in Settle(gateways, s, key).routes
  {
    hide Settle;
    if key in s.routes {
      StoredRoutesKeepTheirIdentity(gateways, s, key);
    } else {
      SettleAbsent(gateways, s, key);
    }
  }

  /** Once a request for it has come when it could go, a route is gone. */
  lemma {:induction false} GoneAfter(gateways: seq<string>, s: Store, keys: seq<Key>, v: VsKey, d: Key)
    requires RoutesOk(s.issued, s.routes) && CanGo(s.routes, v, d) && d in keys
    ensures d !in SettleAll(gateways, s, keys).routes
  {
    hide Settle, CanGo, Succeeds, OursAlone;
    var init, last := keys[..|keys| - 1], keys[|keys| - 1];
    var t := SettleAll(gateways, s, init);
    RoutesAfterAll(gateways, s, init);
    if last == d {
      CanGoIsDeleting(s.routes, v, d);
      GoesNow(gateways, s, t, v, d, d);
    } else {
      assert d in init;
      GoneAfter(gateways, s, init, v, d);
      StaysGone(gateways, t, last, d);
    }
  }

  lemma SettleAllAppend(gateways: seq<string>, s: Store, keys: seq<Key>, last: Key)
    ensures SettleAll(gateways, s, keys + [last]) == Settle(gateways, SettleAll(gateways, s, keys), last)
  {
    assert (keys + [last])[..|keys|] == keys;
  }

  /** Two rounds are enough. */
  lemma {:induction false} GoneAfterTwoRounds(gateways: seq<string>, s: Store, keys: seq<Key>, more: seq<Key>, v: VsKey, d: Key, key: Key)
    requires RoutesOk(s.issued, s.routes) && CanGo(s.routes, v, d)
    requires OfFqdn(s.routes, v, key) && s.routes[key].deleting && OursAlone(s.routes[key].finalizers)
    requires d in keys && key in more
    ensures key !in SettleAll(gateways, s, keys + more).routes
  {
    hide Settle, CanGo, Succeeds, OursAlone, SettleAll;
    var init, last := more[..|more| - 1], more[|more| - 1];
    assert keys + more == keys + init + [last];
    SettleAllAppend(gateways, s, keys + init, last);
    var t := SettleAll(gateways, s, keys + init);
    RoutesAfterAll(gateways, s, keys + init);
    if last == key {
      GoneAfter(gateways, s, keys + init, v, d);
      GoesNow(gateways, s, t, v, d, key);
    } else {
      assert key in init;
      GoneAfterTwoRounds(gateways, s, keys, init, v, d, key);
      StaysGone(gateways, t, last, key);
    }
  }

  // ---- main results ----

  /** A round: requests that include every route of the FQDN that is marked for deletion. */
  ghost predicate Round(routes: Routes, v: VsKey, keys: seq<Key>)
  {
    forall d :: OfFqdn(routes, v, d) && routes[d].deleting ==> d in keys
  }

  /** A route with a foreign finalizer does not go, whatever the controller does. */
  lemma {:induction false} ForeignFinalizerStays(gateways: seq<string>, s: Store, keys: seq<Key>, key: Key)
    requires RoutesOk(s.issued, s.routes) && key in s.routes && s.routes[key].deleting && !OursAlone(s.routes[key].finalizers)
    ensures key in SettleAll(gateways, s, keys).routes
  {
    if keys != [] {
      hide Settle, OursAlone, Succeeds;
      var init, last := keys[..|keys| - 1], keys[|keys| - 1];
      var t := SettleAll(gateways, s, init);
      ForeignFinalizerStays(gateways, s, init, key);
      RoutesAfterAll(gateways, s, init);
      if last in t.routes {
        RoutesAfter(gateways, t, last);
      } else {
        SettleAbsent(gateways, t, last);
      }
    }
  }

  /** A route marked for deletion can be made to go, by some sequence of requests, if and only
      if it waits for the controller only, and now, without some route of its FQDN that could
      go too, the FQDN's routes build. */
  lemma EventuallyFinalizedIff(gateways: seq<string>, s: Store, key: Key)
    requires RoutesOk(s.issued, s.routes) && key in s.routes && s.routes[key].deleting
    ensures (exists keys :: key !in SettleAll(gateways, s, keys).routes) <==>
            OursAlone(s.routes[key].finalizers) && SomeCanGo(s.routes, VsKeyOf(s.routes[key].route))
  {
    hide Settle, SettleAll, CanGo, OursAlone;
    var v := VsKeyOf(s.routes[key].route);
    if OursAlone(s.routes[key].finalizers) && SomeCanGo(s.routes, v) {
      var d :| CanGo(s.routes, v, d);
      GoneAfterTwoRounds(gateways, s, [d], [key], v, d, key);
    } else {
      forall keys
        ensures key in SettleAll(gateways, s, keys).routes
      {
        if OursAlone(s.routes[key].finalizers) {
          BlockedForGood(gateways, s, keys, v);
          assert OfFqdn(s.routes, v, key);
        } else {
          ForeignFinalizerStays(gateways, s, keys, key);
        }
      }
    }
  }

  /** And in that case no luck is needed: two rounds are enough, in any order and among any
      other requests. */
  lemma FairlyFinalized(gateways: seq<string>, s: Store, keys: seq<Key>, more: seq<Key>, key: Key)
    requires RoutesOk(s.issued, s.routes) && key in s.routes && s.routes[key].deleting && OursAlone(s.routes[key].finalizers)
    requires var v := VsKeyOf(s.routes[key].route);
      SomeCanGo(s.routes, v) && Round(s.routes, v, keys) && Round(s.routes, v, more)
    ensures key !in SettleAll(gateways, s, keys + more).routes
  {
    hide SettleAll, CanGo, OursAlone;
    var v := VsKeyOf(s.routes[key].route);
    var d :| CanGo(s.routes, v, d);
    CanGoIsDeleting(s.routes, v, d);
    assert OfFqdn(s.routes, v, key);
    GoneAfterTwoRounds(gateways, s, keys, more, v, d, key);
  }

  // ---- causes ----

  lemma InvalidMember(group: set<Route>, r: Route)
    requires r in group && !DestinationsValid(r)
    ensures !GroupValid(group)
  {
  }

  lemma MemberOfGroup(s: Store, v: VsKey, k: Key)
    requires RoutesOk(s.issued, s.routes) && OfFqdn(s.routes, v, k)
    ensures s.routes[k].route in GroupOf(s.routes, v.namespace, v.name.fqdn)
  {
    assert RouteOk(s.issued, k, s.routes[k]);
  }

  lemma InvalidRoutesBlock(s: Store, v: VsKey, a: Key, b: Key)
    requires RoutesOk(s.issued, s.routes) && OfFqdn(s.routes, v, a) && OfFqdn(s.routes, v, b)
    requires !DestinationsValid(s.routes[a].route) && !DestinationsValid(s.routes[b].route)
    requires a != b || !s.routes[a].deleting
    ensures !SomeCanGo(s.routes, v)
  {
    hide GroupValid, GroupOf, DestinationsValid;
    MemberOfGroup(s, v, a);
    MemberOfGroup(s, v, b);
    assert RouteOk(s.issued, a, s.routes[a]) && RouteOk(s.issued, b, s.routes[b]);
    var group := GroupOf(s.routes, v.namespace, v.name.fqdn);
    forall d | OfFqdn(s.routes, v, d) && s.routes[d].deleting
      ensures !GroupValid(group - {s.routes[d].route})
    {
      assert RouteOk(s.issued, d, s.routes[d]);
      InvalidMember(group - {s.routes[d].route}, if d == a then s.routes[b].route else s.routes[a].route);
    }
  }

  /** One live route with invalid weights, or two routes whether live or not, block every
      finalization of their FQDN for good, their own included. */
  lemma InvalidPairBlocks(gateways: seq<string>, s: Store, keys: seq<Key>, a: Key, b: Key, k: Key)
    requires RoutesOk(s.issued, s.routes) && a in s.routes && b in s.routes && k in s.routes
    requires a != b || !s.routes[a].deleting
    requires VsKeyOf(s.routes[a].route) == VsKeyOf(s.routes[b].route) == VsKeyOf(s.routes[k].route)
    requires !DestinationsValid(s.routes[a].route) && !DestinationsValid(s.routes[b].route)
    ensures k in SettleAll(gateways, s, keys).routes && SettleAll(gateways, s, keys).routes[k].route == s.routes[k].route
  {
    hide SettleAll, SomeCanGo, DestinationsValid;
    var v := VsKeyOf(s.routes[k].route);
    InvalidRoutesBlock(s, v, a, b);
    BlockedForGood(gateways, s, keys, v);
    assert OfFqdn(s.routes, v, k);
  }
}
