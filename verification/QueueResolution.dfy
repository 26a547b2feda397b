/** Where requests go after a queue of Reconciles of which any may have stopped part way. */
module QueueResolution {
  import opened RouteTypes
  import opened Resources
  import opened ServiceBuilder
  import opened VirtualServiceSpec
  import opened ClusterStore
  import opened ReconcilePlan
  import opened Progress
  import opened Convergence
  import opened CrashRetry
  import opened InterruptedRuns
  import opened Resolution

  /** No Reconcile, wherever it stops, creates a Service that could answer for the placeholder
      host. */
  lemma PlaceholderStaysAbsent(gateways: seq<string>, s: Store, t: Store, key: Key, namespace: string)
    requires RoutesOk(s.issued, s.routes) && Interrupted(gateways, s, t, key)
    requires Key(namespace, PLACEHOLDER_NON_EXISTING_DESTINATION) !in s.services
    ensures Key(namespace, PLACEHOLDER_NON_EXISTING_DESTINATION) !in t.services
  {
    hide Settle, Interrupted, PartWay, DesiredServices, RoutesStay, VirtualServicesStay, ServicesBetween, VsBetween;
    InterruptedCases(gateways, s, t, key);
    if key in s.routes && t != Settle(gateways, s, key) {
      var ws :| PartWay(gateways, s, t, key, ws);
      PartWayKeeps(gateways, s, t, key, ws);
      PlaceholderIsNotDesired(s.routes[key].route, namespace);
    } else {
      PlaceholderNotSettled(gateways, s, key, namespace);
    }
  }

  lemma {:induction false} PlaceholderAbsentAfterQueue<E>(gateways: seq<string>, states: seq<Store>, keys: seq<Key>,
                                                          errs: seq<Option<E>>, n: nat, namespace: string)
    requires CarriedOut(gateways, states, keys, errs) && n <= |keys|
    requires WellFormed(states[0]) && AllGuidsDistinct(states[0].routes)
    requires Key(namespace, PLACEHOLDER_NON_EXISTING_DESTINATION) !in states[0].services
    ensures Key(namespace, PLACEHOLDER_NON_EXISTING_DESTINATION) !in states[n].services
  {
    hide WellFormed, AllGuidsDistinct, Interrupted, Completes, Advances;
    if n > 0 {
      PlaceholderAbsentAfterQueue(gateways, states, keys, errs, n - 1, namespace);
      QueueAdvances(gateways, states, keys, errs, n - 1);
      RoutesOfWellFormed(states[n - 1]);
      assert StepCarriedOut(gateways, states[n - 1], states[n], keys[n - 1], errs[n - 1]);
      PlaceholderStaysAbsent(gateways, states[n - 1], states[n], keys[n - 1], namespace);
    }
  }

  /** What is asked of the data of an FQDN before requests to it can be promised anything. */
  ghost predicate Resolvable(s: Store, v: VsKey)
  {
    && LiveGroup(s, v) != {} && Promised(LiveGroup(s, v), v.name.fqdn)
    && Key(v.namespace, PLACEHOLDER_NON_EXISTING_DESTINATION) !in s.services
  }

  ghost predicate QueueResolves<E>(s: Store, t: Store, keys: seq<Key>, errs: seq<Option<E>>)
    requires |errs| == |keys|
  {
    forall v, path :: Resolvable(s, v) && FqdnReturned(s.routes, v, keys, errs) ==> ResolvesAsWanted(t, v, path, LiveGroup(s, v))
  }

  lemma FqdnOfQueue<E>(gateways: seq<string>, s: Store, t: Store, keys: seq<Key>, errs: seq<Option<E>>, key: Key)
    requires |errs| == |keys| && QueueConverged(gateways, s, t, keys, errs)
    requires key in s.routes && FqdnReturned(s.routes, VsKeyOf(s.routes[key].route), keys, errs)
    ensures FqdnSettled(gateways, t, VsKeyOf(s.routes[key].route)) && LiveRemain(s, t, VsKeyOf(s.routes[key].route))
  {
    hide FqdnReturned, FqdnSettled, LiveRemain;
  }

  /** The same for a queue of requests of which any may fail at any call: it is enough that each
      route of the FQDN had one that returned without an error. */
  lemma EndToEndAfterQueue<E>(gateways: seq<string>, states: seq<Store>, keys: seq<Key>, errs: seq<Option<E>>)
    requires CarriedOut(gateways, states, keys, errs) && WellFormed(states[0]) && AllGuidsDistinct(states[0].routes)
    ensures QueueResolves(states[0], states[|keys|], keys, errs)
  {
    hide WellFormed, AllGuidsDistinct, FqdnReturned, QueueConverged, StepCarriedOut, Promised, LiveGroup, ResolvesAsWanted, FqdnSettled,
         LiveRemain, Advances;
    var s, t := states[0], states[|keys|];
    QueueConverges(gateways, states, keys, errs);
    QueueAdvances(gateways, states, keys, errs, |keys|);
    RoutesOfWellFormed(s);
    RoutesOfWellFormed(t);
    forall v, path | Resolvable(s, v) && FqdnReturned(s.routes, v, keys, errs)
      ensures ResolvesAsWanted(t, v, path, LiveGroup(s, v))
    {
      var key := LiveGroupHasKey(s, v);
      FqdnOfQueue(gateways, s, t, keys, errs, key);
      LiveGroupRemains(s, t, v);
      PlaceholderAbsentAfterQueue(gateways, states, keys, errs, |keys|, v.namespace);
      EndToEnd(gateways, t, v, path);
    }
  }
}
