/** The queue that feeds the reconciler: it decides which route is reconciled next, and asks
    again for what has failed. */
module WorkQueue {
  import opened RouteTypes
  import opened Resources
  import opened VirtualServiceSpec
  import opened ClusterStore
  import opened ReconcilePlan
  import opened Progress
  import opened Convergence
  import opened InterruptedRuns
  import opened QueueResolution
  import opened SettledFields
  import opened ApiServerModel
  import opened RouteController
  import opened RouteReconciliation

  predicate SameUrl(a: Route, b: Route)
  {
    VsKeyOf(a) == VsKeyOf(b) && a.spec.url == b.spec.url
  }

  /** No two stored routes of one FQDN have the same URL. */
  ghost predicate UrlsDistinct(routes: Routes)
  {
    forall a, b :: a in routes && b in routes && SameUrl(routes[a].route, routes[b].route) ==> a == b
  }

  lemma DistinctUrlsAt(s: Store, key: Key)
    requires StoreOk(s)
    ensures UrlsDistinct(s.routes) ==> UrlsUniqueAt(s, key)
  {
    if UrlsDistinct(s.routes) && key in s.routes {
      var r := s.routes[key].route;
      assert RouteOk(s.issued, key, s.routes[key]);
      forall x, y | x in SiblingsOf(s.routes, r) && y in SiblingsOf(s.routes, r) && x.spec.url == y.spec.url
        ensures x == y
      {
        GroupMembers(s, r.meta.namespace, r.FQDN(), x);
        GroupMembers(s, r.meta.namespace, r.FQDN(), y);
      }
    }
  }

  lemma UrlsStayDistinct(before: Routes, after: Routes)
    requires UrlsDistinct(before) && forall k :: k in after ==> k in before && after[k].route == before[k].route
    ensures UrlsDistinct(after)
  {
  }

  /** The writes of the plan that were sent, in the terms of an interrupted Reconcile. */
  lemma ExecutedIsInterrupted(gateways: seq<string>, s: Store, ws: seq<Write>, t: Store, ws': seq<Write>, key: Key, dels: seq<Key>, complete: bool)
    requires IsOrderOf(dels, DoomedAt(s, key))
    requires Executed(s, ws, t, ws', Plan(gateways, s, key, true, dels), complete)
    ensures Interrupted(gateways, s, t, key)
  {
    hide Plan, DoomedAt;
    assert StopsAfter(gateways, s, t, key, dels, |ws'| - |ws|);
  }

  lemma RequestCarriedOut(gateways: seq<string>, s: Store, ws: seq<Write>, t: Store, ws': seq<Write>, key: Key, dels: seq<Key>,
                          err: Option<ReconcileError>, complete: bool)
    requires StoreOk(s) && UrlsDistinct(s.routes) && IsOrderOf(dels, DoomedAt(s, key))
    requires Executed(s, ws, t, ws', Plan(gateways, s, key, true, dels), complete)
    requires err.None? ==> Completes(gateways, s, t, key)
    ensures StepCarriedOut(gateways, s, t, key, err) && UrlsDistinct(t.routes)
  {
    hide Plan, DoomedAt, Executed, Completes, Interrupted, UrlsDistinct;
    ExecutedIsInterrupted(gateways, s, ws, t, ws', key, dels, complete);
    InterruptedKeepsRoutes(gateways, s, t, key);
    UrlsStayDistinct(s.routes, t.routes);
  }

  /** The work queue: requests are taken in any order and any number of times, and a failed
      one is simply asked for again later. No object loses its safety, whatever happens. If
      nobody else acts and no call fails, the store is what the settling of each request in
      turn makes of it. If calls fail, but no read of a VirtualService is passed over, every
      FQDN each of whose routes had a request that returned without an error is settled at the
      end, and requests to it go where its live Routes say. */
  method ProcessQueue(reconciler: RouteReconciler, api: ApiServer, requests: seq<Key>)
    returns (errs: seq<Option<ReconcileError>>, ghost states: seq<Store>)
    requires reconciler.api == api && api.Valid()
    modifies api
    ensures api.Valid() && api.Runs()
    ensures |errs| == |requests| && |states| == |requests| + 1
    ensures states[0] == old(api.store) && states[|requests|] == api.store
    ensures UrlsDistinct(old(api.store.routes)) && api.envs == old(api.envs) && api.failures == old(api.failures) ==>
      && api.store == SettleAll(reconciler.Gateways(), old(api.store), requests)
      && forall i :: 0 <= i < |requests| ==> (errs[i].None? <==> Succeeds(states[i], requests[i]))
    ensures UrlsDistinct(old(api.store.routes)) && api.envs == old(api.envs) && api.lostReads == old(api.lostReads) ==>
      CarriedOut(reconciler.Gateways(), states, requests, errs)
    ensures
      (&& WellFormed(old(api.store)) && AllGuidsDistinct(old(api.store.routes)) && UrlsDistinct(old(api.store.routes))
       && api.envs == old(api.envs) && api.lostReads == old(api.lostReads))
      ==> QueueConverged(reconciler.Gateways(), old(api.store), api.store, requests, errs)
          && QueueResolves(old(api.store), api.store, requests, errs)
          && QueueShows([reconciler.istioGateway], old(api.store), api.store, requests, errs)
  {
    hide StoreOk, Settle, SettleAll, UrlsDistinct, WellFormed, AllGuidsDistinct, QueueConverged, QueueResolves, QueueShows, StepCarriedOut, Plan,
         DoomedAt, UrlsUniqueAt, Succeeds, Executed;
    ghost var gateways := reconciler.Gateways();
    SettleNone(gateways, api.store);
    errs, states := [], [api.store];
    for i := 0 to |requests|
      invariant api.Valid() && api.Runs()
      invariant |errs| == i && |states| == i + 1 && states[0] == old(api.store) && states[i] == api.store
      invariant UrlsDistinct(old(api.store.routes)) && api.envs == old(api.envs) && api.lostReads == old(api.lostReads) ==>
        && UrlsDistinct(api.store.routes)
        && forall j :: 0 <= j < i ==> StepCarriedOut(gateways, states[j], states[j + 1], requests[j], errs[j])
      invariant UrlsDistinct(old(api.store.routes)) && api.envs == old(api.envs) && api.failures == old(api.failures) ==>
        && api.store == SettleAll(gateways, old(api.store), requests[..i])
        && forall j :: 0 <= j < i ==> (errs[j].None? <==> Succeeds(states[j], requests[j]))
    {
      label before:
      ghost var dels;
      var err;
      DistinctUrlsAt(api.store, requests[i]);
      err, dels := reconciler.Reconcile(requests[i]);
      SettleOneMore(gateways, old(api.store), requests, i);
      if UrlsDistinct(old@before(api.store.routes)) && api.envs == old@before(api.envs) && api.lostReads == old@before(api.lostReads) {
        RequestCarriedOut(gateways, old@before(api.store), old@before(api.writes), api.store, api.writes, requests[i], dels, err,
                          err.None? || api.failures == old@before(api.failures));
      }
      errs, states := errs + [err], states + [api.store];
    }
    assert requests[..|requests|] == requests;
    if WellFormed(states[0]) && AllGuidsDistinct(states[0].routes) && CarriedOut(gateways, states, requests, errs) {
      QueueConverges(gateways, states, requests, errs);
      EndToEndAfterQueue(gateways, states, requests, errs);
      AllShownAfterQueue(gateways, states, requests, errs);
    }
  }
}
