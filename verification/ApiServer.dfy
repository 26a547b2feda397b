/** The API server as the controller meets it: every call may find that others have acted in
    the meantime, and may fail, before or after taking effect. Reads are linearizable. */
module ApiServerModel {
  import opened RouteTypes
  import opened Resources
  import opened VirtualServiceSpec
  import opened ClusterStore
  import opened ReconcilePlan

  datatype ApiError = NotFound | Conflict | Unavailable

  /** Every state was one that an API server can hold, and an object that was safe in one of
      them was safe ever after, whatever the other objects were like. */
  ghost predicate StaysSafe(past: seq<Store>)
  {
    && (forall i :: 0 <= i < |past| ==> StoreOk(past[i]))
    && forall i, j :: 0 <= i <= j < |past| ==> KeepsObjectsSafe(past[i], past[j])
  }

  lemma KeepsObjectsSafeTransitive(s: Store, t: Store, u: Store)
    requires KeepsObjectsSafe(s, t) && KeepsObjectsSafe(t, u)
    ensures KeepsObjectsSafe(s, u) && KeepsObjectsSafe(u, u)
  {
    hide ServiceSafe, VirtualServiceSafe;
  }

  lemma StaysSafeAppend(past: seq<Store>, t: Store)
    requires past != [] && StaysSafe(past) && StoreOk(t) && KeepsObjectsSafe(past[|past| - 1], t)
    ensures StaysSafe(past + [t])
  {
    hide StoreOk, KeepsObjectsSafe;
    var longer := past + [t];
    forall i, j | 0 <= i <= j < |longer|
      ensures KeepsObjectsSafe(longer[i], longer[j])
    {
      var n := |past| - 1;
      KeepsObjectsSafeTransitive(past[if i <= n then i else n], past[n], t);
    }
  }

  /** In particular a state in which everything is safe is followed by such states only. */
  lemma SafeStaysSafe(past: seq<Store>, i: nat, j: nat)
    requires StaysSafe(past) && i <= j < |past| && Safe(past[i])
    ensures Safe(past[j])
  {
    hide StoreOk, ServiceSafe, VirtualServiceSafe;
    assert KeepsObjectsSafe(past[i], past[j]);
  }

  /** Every child that the controller has written is safe, or has been deleted since. */
  ghost predicate WrittenAreSafe(s: Store, writes: seq<Write>)
  {
    forall w :: w in writes ==>
      && (w.PutService? ==> ServiceSafe(s, ServiceKey(w.sv)))
      && (w.PutVirtualService? ==> VirtualServiceSafe(s, VirtualServiceKey(w.vs)))
  }

  lemma WrittenStaySafe(s: Store, t: Store, writes: seq<Write>)
    requires WrittenAreSafe(s, writes) && KeepsObjectsSafe(s, t)
    ensures WrittenAreSafe(t, writes)
  {
    hide ServiceSafe, VirtualServiceSafe;
  }

  lemma WrittenOneMore(s: Store, writes: seq<Write>, w: Write)
    requires WrittenAreSafe(s, writes)
    requires w.PutService? ==> ServiceSafe(s, ServiceKey(w.sv))
    requires w.PutVirtualService? ==> VirtualServiceSafe(s, VirtualServiceKey(w.vs))
    ensures WrittenAreSafe(s, writes + [w])
  {
    hide ServiceSafe, VirtualServiceSafe;
  }

  ghost predicate WasAllowed(past: seq<Store>, n: nat, w: Write)
  {
    n + 1 < |past| && WriteAllowed(past[n], w) && past[n + 1] == Apply(past[n], w)
  }

  /** Write `i` was sent in state `sentAt[i]` of the history, was one of those that are allowed,
      and led to the state that follows. */
  ghost predicate AllWereAllowed(past: seq<Store>, sentAt: seq<nat>, writes: seq<Write>)
  {
    && |sentAt| == |writes|
    && forall i :: 0 <= i < |writes| ==> WasAllowed(past, sentAt[i], writes[i])
  }

  lemma HistoryGoesOn(past: seq<Store>, sentAt: seq<nat>, writes: seq<Write>, t: Store)
    requires AllWereAllowed(past, sentAt, writes)
    ensures AllWereAllowed(past + [t], sentAt, writes)
  {
    hide WriteAllowed, Apply;
    forall i | 0 <= i < |writes|
      ensures WasAllowed(past + [t], sentAt[i], writes[i])
    {
      assert WasAllowed(past, sentAt[i], writes[i]);
    }
  }

  lemma HistoryWrites(past: seq<Store>, sentAt: seq<nat>, writes: seq<Write>, w: Write)
    requires AllWereAllowed(past, sentAt, writes) && past != [] && WriteAllowed(past[|past| - 1], w)
    ensures AllWereAllowed(past + [Apply(past[|past| - 1], w)], sentAt + [|past| - 1], writes + [w])
  {
    hide WriteAllowed, Apply;
    var longer := past + [Apply(past[|past| - 1], w)];
    HistoryGoesOn(past, sentAt, writes, Apply(past[|past| - 1], w));
    forall i | 0 <= i <= |writes|
      ensures WasAllowed(longer, (sentAt + [|past| - 1])[i], (writes + [w])[i])
    {
      assert i < |writes| ==> WasAllowed(longer, sentAt[i], writes[i]);
    }
  }

  /** Whatever others do: no write of the controller touches anybody else's finalizer, on any
      route, nor its order among the others. */
  lemma WritesKeepOtherFinalizers(past: seq<Store>, sentAt: seq<nat>, writes: seq<Write>, i: nat, k: Key)
    requires AllWereAllowed(past, sentAt, writes) && i < |writes|
    ensures WasAllowed(past, sentAt[i], writes[i])
    ensures var before, after := past[sentAt[i]].routes, past[sentAt[i] + 1].routes;
      k in after ==> k in before && FinalizersFollow(before[k], after[k])
                     && OthersOf(after[k].finalizers) == OthersOf(before[k].finalizers)
  {
    hide RenderedAt, OwnerHolds, NoServicesOf, OthersOf;
    assert WasAllowed(past, sentAt[i], writes[i]);
    var before, after := past[sentAt[i]].routes, past[sentAt[i] + 1].routes;
    if k in after {
      OthersStay(before[k], after[k]);
    }
  }

  /** The keys of a list of Services. */
  function KeysOf(services: seq<Service>): (keys: seq<Key>)
    ensures |keys| == |services|
  {
    seq(|services|, i requires 0 <= i < |services| => ServiceKey(services[i]))
  }

  method InSomeOrder<T(==)>(s: set<T>) returns (list: seq<T>)
    ensures NoDuplicates(list) && Elements(list) == s
  {
    list := [];
    var todo := s;
    while todo != {}
      invariant todo <= s
      invariant NoDuplicates(list) && Elements(list) == s - todo
      decreases todo
    {
      var x :| x in todo;
      assert x !in Elements(list);
      ElementsSnoc(list, x);
      list := list + [x];
      todo := todo - {x};
    }
  }

  lemma ItemsOfKeys(routes: Routes, namespace: string, fqdn: string, keys: seq<Key>, items: seq<Route>)
    requires NoDuplicates(keys)
    requires Elements(keys) == set k | k in routes && k.namespace == namespace && routes[k].route.FQDN() == fqdn
    requires |items| == |keys|
    requires forall i :: 0 <= i < |keys| ==> keys[i] in routes && items[i] == routes[keys[i]].route && RouteKey(items[i]) == keys[i]
    ensures NoDuplicates(items) && Elements(items) == GroupOf(routes, namespace, fqdn)
  {
    forall r | r in GroupOf(routes, namespace, fqdn)
      ensures r in Elements(items)
    {
      var k :| k in routes && k.namespace == namespace && routes[k].route.FQDN() == fqdn && routes[k].route == r;
      assert k in Elements(keys);
      var i :| 0 <= i < |keys| && keys[i] == k;
      assert items[i] == r;
    }
    forall r | r in Elements(items)
      ensures r in GroupOf(routes, namespace, fqdn)
    {
      var i :| 0 <= i < |items| && items[i] == r;
      assert keys[i] in Elements(keys);
    }
  }

  class ApiServer {
    var store: Store
    /** Every state the store has ever been in, the current one last. */
    ghost var past: seq<Store>
    /** The controller's writes that took effect. */
    ghost var writes: seq<Write>
    /** For each of them, the state in `past` in which it was sent. */
    ghost var sentAt: seq<nat>
    /** How often others have acted, how many calls have failed, and how many of these were
        reads of a VirtualService. */
    ghost var envs: nat
    ghost var failures: nat
    ghost var lostReads: nat

    /** Any store that an API server can hold, arbitrary children included; of these each was
        safe ever after it first was, and those that the controller has written are. */
    ghost predicate Valid()
      reads this
    {
      && past != [] && past[|past| - 1] == store && StoreOk(store)
      && StaysSafe(past) && WrittenAreSafe(store, writes) && AllWereAllowed(past, sentAt, writes)
    }

    twostate predicate Runs()
      reads this
    {
      && old(past) <= past && old(envs) <= envs
      && old(failures) <= failures && 0 <= lostReads - old(lostReads) <= failures - old(failures)
    }

    /** Others may have acted, the controller has not. */
    twostate predicate Idles()
      reads this
    {
      && Runs() && writes == old(writes)
      && Rely(old(store), store)
      && (envs == old(envs) ==> store == old(store))
    }

    /** Others may have acted, up to the state `mid`; then the write `w` took effect, which it
        must have if it was accepted. */
    twostate predicate Sends(w: Write, mid: Store, accepted: bool)
      reads this
    {
      && Runs() && lostReads == old(lostReads)
      && Rely(old(store), mid)
      && (envs == old(envs) ==> mid == old(store))
      && ((store == mid && writes == old(writes)) || (store == Apply(mid, w) && writes == old(writes) + [w]))
      && (accepted ==> writes == old(writes) + [w])
    }

    constructor (initial: Store)
      requires StoreOk(initial)
      ensures Valid() && store == initial
    {
      store := initial;
      past := [initial];
      writes, sentAt := [], [];
      envs, failures, lostReads := 0, 0, 0;
    }

    /** Any number of steps of the environment. */
    method Disturb()
      requires Valid()
      modifies this
      ensures Valid() && Idles() && failures == old(failures) && lostReads == old(lostReads)
    {
      hide StaysSafe, WrittenAreSafe, AllWereAllowed, KeepsObjectsSafe, Rely;
      RelyReflexive(store);
      var n: nat := *;
      while n > 0
        invariant Valid() && Idles() && failures == old(failures) && lostReads == old(lostReads)
      {
        var e: EnvStep := *;
        if EnvLegal(store, e) {
          EnvStepIsRely(store, e);
          EnvStepKeepsStoreOk(store, e);
          EnvStepKeepsObjectsSafe(store, e);
          WrittenStaySafe(store, ApplyEnv(store, e), writes);
          StaysSafeAppend(past, ApplyEnv(store, e));
          HistoryGoesOn(past, sentAt, writes, ApplyEnv(store, e));
          RelyTransitive(old(store), store, ApplyEnv(store, e));
          store := ApplyEnv(store, e);
          past := past + [store];
          envs := envs + 1;
        }
        n := n - 1;
      }
    }

    method Commit(w: Write)
      requires Valid() && WriteAllowed(store, w)
      modifies this
      ensures Valid() && Runs()
      ensures store == Apply(old(store), w) && writes == old(writes) + [w]
      ensures envs == old(envs) && failures == old(failures) && lostReads == old(lostReads)
    {
      hide StaysSafe, WrittenAreSafe, AllWereAllowed, KeepsObjectsSafe, WriteAllowed, Apply;
      WriteKeepsStoreOk(store, w);
      WriteKeepsObjectsSafe(store, w);
      WrittenStaySafe(store, Apply(store, w), writes);
      WrittenOneMore(Apply(store, w), writes, w);
      StaysSafeAppend(past, Apply(store, w));
      HistoryWrites(past, sentAt, writes, w);
      sentAt := sentAt + [|past| - 1];
      store := Apply(store, w);
      past := past + [store];
      writes := writes + [w];
    }

    // ---- reads ----

    method GetRoute(key: Key) returns (res: Result<StoredRoute, ApiError>)
      requires Valid()
      modifies this
      ensures Valid() && Idles() && lostReads == old(lostReads)
      ensures res.Ok? ==> key in store.routes && res.value == store.routes[key]
      ensures res.Err? ==> res.error == NotFound || failures > old(failures)
      ensures res == Err(NotFound) ==> key !in store.routes
    {
      Disturb();
      var broken: bool := *;
      if broken {
        failures := failures + 1;
        return Err(Unavailable);
      }
      if key !in store.routes {
        return Err(NotFound);
      }
      return Ok(store.routes[key]);
    }

    /** Lists come in an arbitrary order. */
    method ListRoutes(namespace: string, fqdn: string) returns (err: Option<ApiError>, list: RouteList)
      requires Valid()
      modifies this
      ensures Valid() && Idles() && lostReads == old(lostReads)
      ensures fresh(list) && fresh(list.items) && list.Valid()
      ensures err.None? ==>
        NoDuplicates(list.Contents()) && Elements(list.Contents()) == GroupOf(store.routes, namespace, fqdn)
      ensures err.Some? ==> failures > old(failures)
    {
      Disturb();
      var broken: bool := *;
      if broken {
        failures := failures + 1;
        list := new RouteList([]);
        return Some(Unavailable), list;
      }
      var keys := InSomeOrder(set k | k in store.routes && k.namespace == namespace && store.routes[k].route.FQDN() == fqdn);
      forall i | 0 <= i < |keys|
        ensures keys[i] in store.routes && RouteKey(store.routes[keys[i]].route) == keys[i]
      {
        assert keys[i] in Elements(keys);
        assert RouteOk(store.issued, keys[i], store.routes[keys[i]]);
      }
      var items := seq(|keys|, i requires 0 <= i < |keys| reads this requires keys[i] in store.routes => store.routes[keys[i]].route);
      ItemsOfKeys(store.routes, namespace, fqdn, keys, items);
      list := new RouteList(items);
      return None, list;
    }

    method ListServices(namespace: string, uid: string) returns (err: Option<ApiError>, items: seq<Service>)
      requires Valid()
      modifies this
      ensures Valid() && Idles() && lostReads == old(lostReads)
      ensures err.None? ==>
        && NoDuplicates(KeysOf(items)) && Elements(KeysOf(items)) == Owned(store.services, namespace, uid)
      ensures err.Some? ==> failures > old(failures)
    {
      Disturb();
      items := [];
      var broken: bool := *;
      if broken {
        failures := failures + 1;
        return Some(Unavailable), items;
      }
      var keys := InSomeOrder(set k | k in store.services && k.namespace == namespace && OwnedBy(store.services[k], uid));
      forall i | 0 <= i < |keys|
        ensures keys[i] in store.services && ServiceKey(store.services[keys[i]]) == keys[i]
      {
        assert keys[i] in Elements(keys);
      }
      items := seq(|keys|, i requires 0 <= i < |keys| reads this requires keys[i] in store.services => store.services[keys[i]]);
      assert KeysOf(items) == keys;
      return None, items;
    }

    method GetVirtualService(key: VsKey) returns (res: Result<VirtualService, ApiError>)
      requires Valid()
      modifies this
      ensures Valid() && Idles()
      ensures res.Ok? ==> key in store.virtualServices && res.value == store.virtualServices[key]
      ensures res == Err(NotFound) ==> key !in store.virtualServices
      ensures if res.Err? && res.error != NotFound then lostReads > old(lostReads) && failures > old(failures) else lostReads == old(lostReads)
    {
      Disturb();
      var broken: bool := *;
      if broken {
        failures := failures + 1;
        lostReads := lostReads + 1;
        return Err(Unavailable);
      }
      if key !in store.virtualServices {
        return Err(NotFound);
      }
      return Ok(store.virtualServices[key]);
    }

    // ---- writes ----

    /** Reports an error, or loses the answer of a call that took effect. */
    method Answer() returns (err: Option<ApiError>)
      modifies `failures
      ensures failures >= old(failures)
      ensures err.Some? ==> failures > old(failures)
    {
      var broken: bool := *;
      if broken {
        failures := failures + 1;
        return Some(Unavailable);
      }
      return None;
    }

    /** A request for a write that the server may refuse. It can also fail to arrive, and the
        answer can be lost after it has taken effect. */
    method Send(w: Write, refusal: Option<ApiError>) returns (err: Option<ApiError>)
      requires Valid() && (refusal.None? ==> WriteAllowed(store, w))
      modifies this
      ensures Valid() && Runs() && envs == old(envs) && lostReads == old(lostReads)
      ensures (store == old(store) && writes == old(writes)) || (store == Apply(old(store), w) && writes == old(writes) + [w])
      ensures err.None? ==> writes == old(writes) + [w]
      ensures refusal.Some? ==> writes == old(writes)
      ensures err.Some? && refusal.None? ==> failures > old(failures)
    {
      hide StaysSafe, WrittenAreSafe, AllWereAllowed, KeepsObjectsSafe, WriteAllowed, Apply;
      err := Answer();
      if err.Some? {
        return;
      }
      if refusal.Some? {
        return refusal;
      }
      Commit(w);
      err := Answer();
    }

    /** Optimistic concurrency: the update is refused unless the object is stored at the
        version that was read. */
    method UpdateRoute(sr: StoredRoute, ghost seen: StoredRoute) returns (err: Option<ApiError>, ghost mid: Store)
      requires Valid() && Seen(store, seen)
      requires sr == seen.(finalizers := sr.finalizers) && FinalizersChange(seen, sr.finalizers)
      requires HasFinalizer(sr) || NoServicesOf(store.services, sr.route.meta.namespace, sr.route.meta.uid)
      modifies this
      ensures Valid() && Sends(Write.UpdateRoute(sr), mid, err.None?)
      ensures writes != old(writes) ==> RouteKey(sr.route) in mid.routes && mid.routes[RouteKey(sr.route)] == seen
      ensures
        (&& err.Some? && envs == old(envs)
         && RouteKey(sr.route) in old(store.routes) && old(store.routes)[RouteKey(sr.route)] == seen)
        ==> failures > old(failures)
    {
      hide StaysSafe, WrittenAreSafe, AllWereAllowed, Apply, RenderedAt;
      Disturb();
      mid := store;
      SeenSurvives(old(store), store, seen);
      var key := RouteKey(sr.route);
      err := Send(Write.UpdateRoute(sr),
        if key !in store.routes then Some(NotFound)
        else if store.routes[key].route.meta.uid != sr.route.meta.uid || store.routes[key].resourceVersion != sr.resourceVersion then Some(Conflict)
        else None);
    }

    /** The second half of a create-or-update: a create, or an update of an object that may
        have disappeared since it was read. */
    method SendService(x: Service, existed: bool) returns (err: Option<ApiError>, ghost mid: Store)
      requires Valid() && x.owners != [] && OwnerHolds(store.routes, x)
      modifies this
      ensures Valid() && Sends(PutService(x), mid, err.None?)
      ensures err.Some? && envs == old(envs) && (existed ==> ServiceKey(x) in old(store.services)) ==> failures > old(failures)
    {
      hide StaysSafe, WrittenAreSafe, AllWereAllowed, Apply, RenderedAt;
      Disturb();
      mid := store;
      err := Send(PutService(x), if existed && ServiceKey(x) !in store.services then Some(NotFound) else None);
    }

    /** controllerutil.CreateOrUpdate: a read, then a create, an update, or nothing if the
        object is already as desired. */
    method CreateOrUpdateService(x: Service) returns (err: Option<ApiError>, ghost mid: Store)
      requires Valid() && x.owners != [] && OwnerHolds(store.routes, x)
      modifies this
      ensures Valid() && Sends(PutService(x), mid, err.None?)
      ensures err.Some? && envs == old(envs) ==> failures > old(failures)
    {
      hide StaysSafe, WrittenAreSafe, AllWereAllowed, Apply, RenderedAt;
      Disturb();
      mid := store;
      err := Answer();
      if err.Some? {
        return;
      }
      var existed := ServiceKey(x) in store.services;
      if existed && store.services[ServiceKey(x)] == x {
        Commit(PutService(x));
        return;
      }
      label read:
      err, mid := SendService(x, existed);
      RelyTransitive(old(store), old@read(store), mid);
    }

    method SendVirtualService(x: VirtualService, existed: bool) returns (err: Option<ApiError>, ghost mid: Store)
      requires Valid() && RenderedAt(store.issued, VirtualServiceKey(x), x)
      modifies this
      ensures Valid() && Sends(PutVirtualService(x), mid, err.None?)
      ensures err.Some? && envs == old(envs) && (existed ==> VirtualServiceKey(x) in old(store.virtualServices)) ==> failures > old(failures)
    {
      hide StaysSafe, WrittenAreSafe, AllWereAllowed, Apply, RenderedAt;
      Disturb();
      mid := store;
      RenderingSurvives(old(store).issued, store.issued, VirtualServiceKey(x), x);
      err := Send(PutVirtualService(x), if existed && VirtualServiceKey(x) !in store.virtualServices then Some(NotFound) else None);
    }

    method CreateOrUpdateVirtualService(x: VirtualService) returns (err: Option<ApiError>, ghost mid: Store)
      requires Valid() && RenderedAt(store.issued, VirtualServiceKey(x), x)
      modifies this
      ensures Valid() && Sends(PutVirtualService(x), mid, err.None?)
      ensures err.Some? && envs == old(envs) ==> failures > old(failures)
    {
      hide StaysSafe, WrittenAreSafe, AllWereAllowed, Apply, RenderedAt;
      Disturb();
      mid := store;
      RenderingSurvives(old(store).issued, store.issued, VirtualServiceKey(x), x);
      err := Answer();
      if err.Some? {
        return;
      }
      var existed := VirtualServiceKey(x) in store.virtualServices;
      if existed && store.virtualServices[VirtualServiceKey(x)] == x {
        Commit(PutVirtualService(x));
        return;
      }
      label read:
      err, mid := SendVirtualService(x, existed);
      RelyTransitive(old(store), old@read(store), mid);
    }

    method DeleteService(key: Key) returns (err: Option<ApiError>, ghost mid: Store)
      requires Valid()
      modifies this
      ensures Valid() && Sends(Write.DeleteService(key), mid, err.None?)
      ensures err.Some? && envs == old(envs) && key in old(store.services) ==> failures > old(failures)
    {
      hide StaysSafe, WrittenAreSafe, AllWereAllowed, Apply, RenderedAt;
      Disturb();
      mid := store;
      err := Send(Write.DeleteService(key), if key !in store.services then Some(NotFound) else None);
    }

    method DeleteVirtualService(key: VsKey) returns (err: Option<ApiError>, ghost mid: Store)
      requires Valid()
      modifies this
      ensures Valid() && Sends(Write.DeleteVirtualService(key), mid, err.None?)
      ensures err.Some? && envs == old(envs) && key in old(store.virtualServices) ==> failures > old(failures)
    {
      hide StaysSafe, WrittenAreSafe, AllWereAllowed, Apply, RenderedAt;
      Disturb();
      mid := store;
      err := Send(Write.DeleteVirtualService(key), if key !in store.virtualServices then Some(NotFound) else None);
    }
  }
}
