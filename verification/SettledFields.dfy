/** A settled FQDN, field by field: its Services and its VirtualService compared directly with
    the Route resources. */
module SettledFields {
  import opened RouteTypes
  import opened Resources
  import opened ObjectFields
  import opened ServiceBuilder
  import opened VirtualServiceSpec
  import opened RenderFields
  import opened Grouping
  import opened ClusterStore
  import opened ReconcilePlan
  import opened SettleEffects
  import opened Progress
  import opened Convergence
  import opened InterruptedRuns
  import opened Resolution

  // ---- Services ----

  /** Every Service indexed under the route exposes one of its destinations. */
  ghost predicate OwnServicesShow(services: Services, r: Route)
  {
    forall k :: k in Owned(services, r.meta.namespace, r.meta.uid) ==>
      exists i :: 0 <= i < |r.spec.destinations| && ServiceShows(services[k], r, r.spec.destinations[i])
  }

  /** And each destination has one, under its name. */
  ghost predicate DestinationsHaveServices(services: Services, r: Route)
  {
    forall i :: 0 <= i < |r.spec.destinations| ==>
      var k := Key(r.meta.namespace, "s-" + r.spec.destinations[i].guid);
      k in services && ServiceShows(services[k], r, r.spec.destinations[i])
  }

  lemma {:induction false} ListedShows(r: Route, n: nat, k: Key)
    requires n <= |r.spec.destinations| && k in ServicesByKey(DesiredServiceList(r)[..n])
    ensures exists i :: 0 <= i < n && ServiceShows(ServicesByKey(DesiredServiceList(r)[..n])[k], r, r.spec.destinations[i])
  {
    hide ServiceShows, DesiredService;
    var list := DesiredServiceList(r);
    assert list[..n][..n - 1] == list[..n - 1];
    if k == ServiceKey(list[n - 1]) {
      DesiredServiceShows(r, r.spec.destinations[n - 1]);
    } else {
      ListedShows(r, n - 1, k);
    }
  }

  lemma SettledServicesShow(services: Services, r: Route)
    requires ServicesSettled(services, r)
    ensures OwnServicesShow(services, r)
  {
    hide ServiceShows;
    var list := DesiredServiceList(r);
    assert list[..|list|] == list;
    forall k | k in Owned(services, r.meta.namespace, r.meta.uid)
      ensures exists i :: 0 <= i < |r.spec.destinations| && ServiceShows(services[k], r, r.spec.destinations[i])
    {
      assert k in OwnedServices(services, r) && services[k] == DesiredServices(r)[k];
      ListedShows(r, |list|, k);
    }
  }

  lemma SettledDestinationsHaveServices(services: Services, r: Route)
    requires ServicesSettled(services, r) && GuidsDistinct(r)
    ensures DestinationsHaveServices(services, r)
  {
    hide ServiceShows, ServicesSettled, DesiredServices, DesiredService, GuidsDistinct;
    forall i: nat | i < |r.spec.destinations|
      ensures var k := Key(r.meta.namespace, "s-" + r.spec.destinations[i].guid);
        k in services && ServiceShows(services[k], r, r.spec.destinations[i])
    {
      DesiredServiceAt(r, i);
      SettledServiceAt(services, r, Key(r.meta.namespace, ServiceName(r.spec.destinations[i])));
      DesiredServiceShows(r, r.spec.destinations[i]);
    }
  }

  // ---- VirtualServices ----

  ghost predicate GroupShown(gateways: seq<string>, vs: VirtualService, fqdn: string, group: set<Route>)
  {
    exists order :: NoDuplicates(order) && Elements(order) == group && ShowsGroup(vs, gateways, fqdn, order)
  }

  lemma {:induction false} InUrlOrderHasNoDuplicates(group: set<Route>)
    ensures NoDuplicates(InUrlOrder(group))
  {
    if group != {} {
      InUrlOrderUnfold(group);
      var r := InUrlOrder(group)[0];
      InUrlOrderHasNoDuplicates(group - {r});
      InUrlOrderElements(group - {r});
      assert forall x :: x in InUrlOrder(group - {r}) ==> x in Elements(InUrlOrder(group - {r}));
    }
  }

  lemma SettledVirtualServiceShows(gateways: seq<string>, s: Store, v: VsKey)
    requires FqdnSettled(gateways, s, v)
    requires var group := GroupOf(s.routes, v.namespace, v.name.fqdn); group != {} && GroupValid(group)
    ensures v in s.virtualServices
    ensures GroupShown(gateways, s.virtualServices[v], v.name.fqdn, GroupOf(s.routes, v.namespace, v.name.fqdn))
  {
    hide Render, ShowsGroup, GroupValid, GroupOf;
    var group := GroupOf(s.routes, v.namespace, v.name.fqdn);
    SettledGroup(gateways, s, v);
    InUrlOrderElements(group);
    InUrlOrderHasNoDuplicates(group);
    RenderShowsGroup(gateways, v.name.fqdn, InUrlOrder(group));
  }

  // ---- main results ----

  /** Everything of the FQDN is as its live routes ask: the VirtualService is for this FQDN, on
      the mesh if its routes are internal and on the configured gateways otherwise, and shows
      all of them and nothing else; and each Service shows its destination. */
  ghost predicate FqdnShown(gateways: seq<string>, t: Store, v: VsKey, group: set<Route>)
  {
    && v in t.virtualServices && GroupShown(gateways, t.virtualServices[v], v.name.fqdn, group)
    && forall r :: r in group ==> Spells(v.name.fqdn, r.spec.host, r.spec.domain.name) && OwnServicesShow(t.services, r)
                                  && (GuidsDistinct(r) ==> DestinationsHaveServices(t.services, r))
  }

  lemma SettledFqdnShown(gateways: seq<string>, s: Store, v: VsKey)
    requires RoutesOk(s.issued, s.routes) && FqdnSettled(gateways, s, v)
    requires var group := GroupOf(s.routes, v.namespace, v.name.fqdn); group != {} && GroupValid(group)
    ensures FqdnShown(gateways, s, v, GroupOf(s.routes, v.namespace, v.name.fqdn))
  {
    hide GroupShown, GroupValid, OwnServicesShow, DestinationsHaveServices, FqdnSettled, ServicesSettled, GroupOf, Spells, GuidsDistinct;
    var group := GroupOf(s.routes, v.namespace, v.name.fqdn);
    SettledVirtualServiceShows(gateways, s, v);
    forall r | r in group
      ensures Spells(v.name.fqdn, r.spec.host, r.spec.domain.name) && OwnServicesShow(s.services, r)
      ensures GuidsDistinct(r) ==> DestinationsHaveServices(s.services, r)
    {
      SettledMember(gateways, s, v, r);
      GroupMembers(s, v.namespace, v.name.fqdn, r);
      SpelledIff(r, v.name.fqdn);
      SettledServicesShow(s.services, r);
      if GuidsDistinct(r) {
        SettledDestinationsHaveServices(s.services, r);
      }
    }
  }

  /** So it is after a queue of requests of which any may have failed at any call, once each route
      of the FQDN had one that returned without an error. */
  lemma ShownAfterQueue<E>(gateways: seq<string>, states: seq<Store>, keys: seq<Key>, errs: seq<Option<E>>, v: VsKey)
    requires CarriedOut(gateways, states, keys, errs) && WellFormed(states[0]) && AllGuidsDistinct(states[0].routes)
    requires FqdnReturned(states[0].routes, v, keys, errs) && LiveGroup(states[0], v) != {}
    ensures FqdnShown(gateways, states[|keys|], v, LiveGroup(states[0], v))
  {
    hide WellFormed, AllGuidsDistinct, FqdnReturned, StepCarriedOut, LiveGroup, FqdnSettled, FqdnShown, GroupValid, Advances;
    var s, t := states[0], states[|keys|];
    QueueConverges(gateways, states, keys, errs);
    QueueAdvances(gateways, states, keys, errs, |keys|);
    RoutesOfWellFormed(s);
    RoutesOfWellFormed(t);
    var key := LiveGroupHasKey(s, v);
    assert FqdnSettled(gateways, t, v) && LiveRemain(s, t, v);
    LiveGroupRemains(s, t, v);
    SettledFqdnShown(gateways, t, v);
  }

  ghost predicate QueueShows<E>(gateways: seq<string>, s: Store, t: Store, keys: seq<Key>, errs: seq<Option<E>>)
    requires |errs| == |keys|
  {
    forall v :: FqdnReturned(s.routes, v, keys, errs) && LiveGroup(s, v) != {} ==> FqdnShown(gateways, t, v, LiveGroup(s, v))
  }

  lemma LengthsOfQueue<E>(gateways: seq<string>, states: seq<Store>, keys: seq<Key>, errs: seq<Option<E>>)
    requires CarriedOut(gateways, states, keys, errs)
    ensures |states| == |keys| + 1 && |errs| == |keys|
  {
    hide StepCarriedOut;
  }

  lemma AllShownAfterQueue<E>(gateways: seq<string>, states: seq<Store>, keys: seq<Key>, errs: seq<Option<E>>)
    requires CarriedOut(gateways, states, keys, errs) && WellFormed(states[0]) && AllGuidsDistinct(states[0].routes)
    ensures QueueShows(gateways, states[0], states[|keys|], keys, errs)
  {
    hide CarriedOut, WellFormed, AllGuidsDistinct, FqdnReturned, LiveGroup, FqdnShown;
    assert |states| == |keys| + 1 && |errs| == |keys| by {
      LengthsOfQueue(gateways, states, keys, errs);
    }
    forall v | FqdnReturned(states[0].routes, v, keys, errs) && LiveGroup(states[0], v) != {}
      ensures FqdnShown(gateways, states[|keys|], v, LiveGroup(states[0], v))
    {
      ShownAfterQueue(gateways, states, keys, errs, v);
    }
  }
}
