/** The state that the Kubernetes API server keeps, the writes of the controller, and what
    everybody else may do to that state. */
module ClusterStore {
  import opened RouteTypes
  import opened Resources
  import opened VirtualServiceSpec

  const FINALIZER_NAME := "routes.networking.cloudfoundry.org"

  datatype Key = Key(namespace: string, name: string)

  datatype VsKey = VsKey(namespace: string, name: VsName)

  /** A Route with its lifecycle metadata. */
  datatype StoredRoute = StoredRoute(
    route: Route,
    resourceVersion: nat,
    finalizers: seq<string>,
    deleting: bool)

  /** What a UID stands for; host and domain of a route never change. */
  datatype RouteIdentity = RouteIdentity(namespace: string, name: string, fqdn: string)

  /** `issued` records every UID that the server has ever given to a route. */
  datatype Store = Store(
    routes: map<Key, StoredRoute>,
    services: map<Key, Service>,
    virtualServices: map<VsKey, VirtualService>,
    issued: map<string, RouteIdentity>)

  function RouteKey(r: Route): Key
  {
    Key(r.meta.namespace, r.meta.name)
  }

  function ServiceKey(sv: Service): Key
  {
    Key(sv.namespace, sv.name)
  }

  function VirtualServiceKey(vs: VirtualService): VsKey
  {
    VsKey(vs.namespace, vs.name)
  }

  function IdentityOf(r: Route): RouteIdentity
  {
    RouteIdentity(r.meta.namespace, r.meta.name, r.FQDN())
  }

  predicate HasFinalizer(sr: StoredRoute)
  {
    FINALIZER_NAME in sr.finalizers
  }

  /** The field index `spec.owner`: the UID of the first owner reference. */
  predicate OwnedBy(sv: Service, uid: string)
  {
    sv.owners != [] && sv.owners[0].uid == uid
  }

  // ---- writes of the controller ----

  datatype Write =
    | UpdateRoute(sr: StoredRoute)
    | PutService(sv: Service)
    | DeleteService(key: Key)
    | PutVirtualService(vs: VirtualService)
    | DeleteVirtualService(vsKey: VsKey)

  /** The server's side of an accepted update of a route: an object marked for deletion
      disappears with its last finalizer. */
  function PutRoute(s: Store, sr: StoredRoute): Store
  {
    var key := RouteKey(sr.route);
    if sr.deleting && sr.finalizers == [] then
      s.(routes := s.routes - {key})
    else
      s.(routes := s.routes[key := sr.(resourceVersion := sr.resourceVersion + 1)])
  }

  function Apply(s: Store, w: Write): Store
  {
    match w
    case UpdateRoute(sr) => PutRoute(s, sr)
    case PutService(sv) => s.(services := s.services[ServiceKey(sv) := sv])
    case DeleteService(key) => s.(services := s.services - {key})
    case PutVirtualService(vs) => s.(virtualServices := s.virtualServices[VirtualServiceKey(vs) := vs])
    case DeleteVirtualService(key) => s.(virtualServices := s.virtualServices - {key})
  }

  function ApplyAll(s: Store, ws: seq<Write>): Store
  {
    if ws == [] then s else Apply(ApplyAll(s, ws[..|ws| - 1]), ws[|ws| - 1])
  }

  lemma ApplyAllAppend(s: Store, ws: seq<Write>, w: Write)
    ensures ApplyAll(s, ws + [w]) == Apply(ApplyAll(s, ws), w)
  {
    assert (ws + [w])[..|ws|] == ws;
  }

  lemma {:induction false} ApplyAllConcat(s: Store, ws: seq<Write>, vs: seq<Write>)
    ensures ApplyAll(s, ws + vs) == ApplyAll(ApplyAll(s, ws), vs)
  {
    if vs == [] {
      assert ws + vs == ws;
    } else {
      var n := |vs| - 1;
      ApplyAllConcat(s, ws, vs[..n]);
      assert ws + vs == (ws + vs[..n]) + [vs[n]];
      ApplyAllAppend(s, ws + vs[..n], vs[n]);
    }
  }

  // ---- everybody else ----

  /** Users edit routes, Cloud Controller creates and deletes them, and anyone (the garbage
      collector included) may delete a child object. Only the controller removes its own
      finalizer. */
  datatype EnvStep =
    | CreateRoute(sr: StoredRoute)
    | EditRoute(sr: StoredRoute)
    | MarkForDeletion(key: Key)
    | LoseService(key: Key)
    | LoseVirtualService(vsKey: VsKey)

  predicate EnvLegal(s: Store, e: EnvStep)
  {
    match e
    case CreateRoute(sr) =>
      RouteKey(sr.route) !in s.routes && sr.route.meta.uid !in s.issued && !sr.deleting
    case EditRoute(sr) =>
      var key := RouteKey(sr.route);
      && key in s.routes
      && var before := s.routes[key];
      && sr.route.meta.uid == before.route.meta.uid && sr.route.FQDN() == before.route.FQDN()
      && sr.resourceVersion == before.resourceVersion && sr.deleting == before.deleting
      && (HasFinalizer(before) ==> HasFinalizer(sr))
    case MarkForDeletion(key) => key in s.routes && !s.routes[key].deleting
    case LoseService(key) => true
    case LoseVirtualService(key) => true
  }

  function ApplyEnv(s: Store, e: EnvStep): Store
    requires EnvLegal(s, e)
  {
    match e
    case CreateRoute(sr) =>
      PutRoute(s, sr).(issued := s.issued[sr.route.meta.uid := IdentityOf(sr.route)])
    case EditRoute(sr) => PutRoute(s, sr)
    case MarkForDeletion(key) => PutRoute(s, s.routes[key].(deleting := true))
    case LoseService(key) => s.(services := s.services - {key})
    case LoseVirtualService(key) => s.(virtualServices := s.virtualServices - {key})
  }

  // ---- invariants ----

  type Routes = map<Key, StoredRoute>
  type Services = map<Key, Service>
  type VirtualServices = map<VsKey, VirtualService>
  type Issued = map<string, RouteIdentity>

  ghost predicate Known(issued: Issued, r: Route)
  {
    r.meta.uid in issued && issued[r.meta.uid] == IdentityOf(r)
  }

  ghost predicate RouteOk(issued: Issued, k: Key, sr: StoredRoute)
  {
    && RouteKey(sr.route) == k
    && Known(issued, sr.route)
    && (sr.deleting ==> sr.finalizers != [])
  }

  ghost predicate RoutesOk(issued: Issued, routes: Routes)
  {
    forall k :: k in routes ==> RouteOk(issued, k, routes[k])
  }

  ghost predicate KeysOk(services: Services)
  {
    forall k :: k in services ==> ServiceKey(services[k]) == k
  }

  ghost predicate VsKeysOk(virtualServices: VirtualServices)
  {
    forall k :: k in virtualServices ==> VirtualServiceKey(virtualServices[k]) == k
  }

  /** What the API server itself guarantees. */
  ghost predicate StoreOk(s: Store)
  {
    RoutesOk(s.issued, s.routes) && KeysOk(s.services) && VsKeysOk(s.virtualServices)
  }

  ghost predicate HoldsFinalizer(routes: Routes, key: Key, uid: string)
  {
    key in routes && routes[key].route.meta.uid == uid && HasFinalizer(routes[key])
  }

  ghost predicate OwnerHolds(routes: Routes, sv: Service)
  {
    sv.owners != [] ==> HoldsFinalizer(routes, Key(sv.namespace, sv.owners[0].name), sv.owners[0].uid)
  }

  /** Finalizer safety of a Service: its first owner is a stored route that still holds the
      controller's finalizer, so that it does not outlive its route. */
  ghost predicate ServiceSafe(s: Store, k: Key)
  {
    k in s.services ==> OwnerHolds(s.routes, s.services[k])
  }

  /** The VirtualService renders a non-empty list of routes, all of the namespace and FQDN
      that its key stands for. */
  ghost predicate IsRendering(issued: Issued, k: VsKey, vs: VirtualService, gateways: seq<string>, order: seq<Route>)
  {
    && order != []
    && (forall r :: r in order ==> Known(issued, r) && r.meta.namespace == k.namespace && r.FQDN() == k.name.fqdn)
    && vs == Render(gateways, k.name.fqdn, order)
  }

  ghost predicate RenderedAt(issued: Issued, k: VsKey, vs: VirtualService)
  {
    exists gateways, order :: IsRendering(issued, k, vs, gateways, order)
  }

  /** Ownership of a VirtualService: it is a rendering. */
  ghost predicate VirtualServiceSafe(s: Store, v: VsKey)
  {
    v in s.virtualServices ==> RenderedAt(s.issued, v, s.virtualServices[v])
  }

  ghost predicate Safe(s: Store)
  {
    StoreOk(s) && (forall k :: ServiceSafe(s, k)) && forall v :: VirtualServiceSafe(s, v)
  }

  /** No single object loses its safety, whatever the others are like. */
  ghost predicate KeepsObjectsSafe(s: Store, t: Store)
  {
    && (forall k :: ServiceSafe(s, k) ==> ServiceSafe(t, k))
    && forall v :: VirtualServiceSafe(s, v) ==> VirtualServiceSafe(t, v)
  }

  // ---- what survives the steps of everybody else ----

  ghost predicate Shrinks<K, V>(before: map<K, V>, after: map<K, V>)
  {
    forall k :: k in after ==> k in before && after[k] == before[k]
  }

  ghost predicate FinalizersKept(before: Routes, after: Routes)
  {
    forall k :: k in before && HasFinalizer(before[k]) ==> HoldsFinalizer(after, k, before[k].route.meta.uid)
  }

  /** An object whose UID was known before is the same object, at a later version if anything
      about it has changed. */
  ghost predicate Descends(before: Routes, k: Key, sr: StoredRoute)
  {
    && k in before && before[k].route.meta.uid == sr.route.meta.uid
    && before[k].resourceVersion <= sr.resourceVersion
    && (before[k].resourceVersion == sr.resourceVersion ==> before[k] == sr)
  }

  ghost predicate VersionsAdvance(issued: Issued, before: Routes, after: Routes)
  {
    forall k :: k in after && after[k].route.meta.uid in issued ==> Descends(before, k, after[k])
  }

  /** The guarantee that the environment gives to the controller. */
  ghost predicate Rely(s: Store, t: Store)
  {
    && Shrinks(s.services, t.services)
    && Shrinks(t.issued, s.issued)
    && FinalizersKept(s.routes, t.routes)
    && VersionsAdvance(s.issued, s.routes, t.routes)
  }

  lemma RelyReflexive(s: Store)
    ensures Rely(s, s)
  {
  }

  lemma RelyTransitive(s: Store, t: Store, u: Store)
    requires Rely(s, t) && Rely(t, u)
    ensures Rely(s, u)
  {
    forall k | k in u.routes && u.routes[k].route.meta.uid in s.issued
      ensures Descends(s.routes, k, u.routes[k])
    {
      assert Descends(t.routes, k, u.routes[k]);
      assert Descends(s.routes, k, t.routes[k]);
    }
  }

  lemma LaterVersionIsRely(s: Store, sr: StoredRoute)
    requires var key := RouteKey(sr.route);
      && key in s.routes && s.routes[key].route.meta.uid == sr.route.meta.uid
      && s.routes[key].resourceVersion == sr.resourceVersion
      && (HasFinalizer(s.routes[key]) ==> HasFinalizer(sr))
    ensures Rely(s, PutRoute(s, sr))
  {
  }

  lemma CreationIsRely(s: Store, sr: StoredRoute)
    requires EnvLegal(s, CreateRoute(sr))
    ensures Rely(s, ApplyEnv(s, CreateRoute(sr)))
  {
    var t, key := ApplyEnv(s, CreateRoute(sr)), RouteKey(sr.route);
    assert forall k :: k in t.routes && k != key ==> k in s.routes && t.routes[k] == s.routes[k];
  }

  lemma EnvStepIsRely(s: Store, e: EnvStep)
    requires StoreOk(s) && EnvLegal(s, e)
    ensures Rely(s, ApplyEnv(s, e))
  {
    match e
    case CreateRoute(sr) => CreationIsRely(s, sr);
    case EditRoute(sr) => LaterVersionIsRely(s, sr);
    case MarkForDeletion(key) =>
      assert RouteOk(s.issued, key, s.routes[key]);
      LaterVersionIsRely(s, s.routes[key].(deleting := true));
    case LoseService(key) =>
    case LoseVirtualService(key) =>
  }

  /** `sr` is a copy of a route that was read earlier: if the same object is still stored at
      the same version, it has not changed. */
  ghost predicate Seen(s: Store, sr: StoredRoute)
  {
    var key := RouteKey(sr.route);
    && Known(s.issued, sr.route)
    && (key in s.routes && s.routes[key].route.meta.uid == sr.route.meta.uid ==>
          && sr.resourceVersion <= s.routes[key].resourceVersion
          && (sr.resourceVersion == s.routes[key].resourceVersion ==> s.routes[key] == sr))
  }

  lemma SeenSurvives(s: Store, t: Store, sr: StoredRoute)
    requires Rely(s, t) && Seen(s, sr)
    ensures Seen(t, sr)
  {
    var key := RouteKey(sr.route);
    if key in t.routes && t.routes[key].route.meta.uid == sr.route.meta.uid {
      assert Descends(s.routes, key, t.routes[key]);
    }
  }

  // ---- every step keeps the invariants ----

  lemma RenderingSurvives(issued: Issued, issued': Issued, k: VsKey, vs: VirtualService)
    requires Shrinks(issued', issued) && RenderedAt(issued, k, vs)
    ensures RenderedAt(issued', k, vs)
  {
    var gateways, order :| IsRendering(issued, k, vs, gateways, order);
    assert IsRendering(issued', k, vs, gateways, order);
  }

  lemma ShrinkingKeepsObjectsSafe(s: Store, t: Store)
    requires FinalizersKept(s.routes, t.routes) && Shrinks(t.issued, s.issued)
    requires Shrinks(s.services, t.services) && Shrinks(s.virtualServices, t.virtualServices)
    ensures KeepsObjectsSafe(s, t)
  {
    hide RenderedAt;
    forall v | v in t.virtualServices && RenderedAt(s.issued, v, s.virtualServices[v])
      ensures RenderedAt(t.issued, v, t.virtualServices[v])
    {
      RenderingSurvives(s.issued, t.issued, v, t.virtualServices[v]);
    }
  }

  lemma PutRouteKeepsRoutesOk(s: Store, issued: Issued, sr: StoredRoute)
    requires RoutesOk(s.issued, s.routes) && Shrinks(issued, s.issued) && Known(issued, sr.route)
    ensures RoutesOk(issued, PutRoute(s, sr).routes)
  {
    var t := PutRoute(s, sr);
    forall k | k in t.routes
      ensures RouteOk(issued, k, t.routes[k])
    {
      assert k in s.routes ==> RouteOk(s.issued, k, s.routes[k]);
    }
  }

  lemma EnvStepKeepsStoreOk(s: Store, e: EnvStep)
    requires StoreOk(s) && EnvLegal(s, e)
    ensures StoreOk(ApplyEnv(s, e))
  {
    match e
    case CreateRoute(sr) => PutRouteKeepsRoutesOk(s, ApplyEnv(s, e).issued, sr);
    case EditRoute(sr) =>
      assert RouteOk(s.issued, RouteKey(sr.route), s.routes[RouteKey(sr.route)]);
      PutRouteKeepsRoutesOk(s, s.issued, sr);
    case MarkForDeletion(key) =>
      assert RouteOk(s.issued, key, s.routes[key]);
      PutRouteKeepsRoutesOk(s, s.issued, s.routes[key].(deleting := true));
    case LoseService(key) =>
    case LoseVirtualService(key) =>
  }

  /** No step of the environment makes an object unsafe. */
  lemma EnvStepKeepsObjectsSafe(s: Store, e: EnvStep)
    requires StoreOk(s) && EnvLegal(s, e)
    ensures KeepsObjectsSafe(s, ApplyEnv(s, e))
  {
    EnvStepIsRely(s, e);
    assert Shrinks(s.virtualServices, ApplyEnv(s, e).virtualServices);
    ShrinkingKeepsObjectsSafe(s, ApplyEnv(s, e));
  }

  /** No step of the environment breaks the invariants. */
  lemma EnvStepKeepsSafe(s: Store, e: EnvStep)
    requires Safe(s) && EnvLegal(s, e)
    ensures Safe(ApplyEnv(s, e))
  {
    hide ServiceSafe, VirtualServiceSafe, StoreOk;
    EnvStepKeepsStoreOk(s, e);
    EnvStepKeepsObjectsSafe(s, e);
  }

  /** The finalizers of other parties, in their order. */
  function OthersOf(finalizers: seq<string>): seq<string>
  {
    if finalizers == [] then []
    else (if finalizers[0] == "routes.networking.cloudfoundry.org" then [] else [finalizers[0]]) + OthersOf(finalizers[1..])
  }

  /** How the controller changes the finalizers of a route: it adds its own at the end of a live
      one that lacks it, and takes away nothing but its own from one that is being deleted. */
  predicate FinalizersChange(before: StoredRoute, after: seq<string>)
  {
    if before.deleting then after == OthersOf(before.finalizers)
    else "routes.networking.cloudfoundry.org" !in before.finalizers && after == before.finalizers + ["routes.networking.cloudfoundry.org"]
  }

  predicate FinalizersFollow(before: StoredRoute, after: StoredRoute)
  {
    after.finalizers == before.finalizers || FinalizersChange(before, after.finalizers)
  }

  lemma {:induction false} OthersOfAppend(finalizers: seq<string>, f: string)
    ensures OthersOf(finalizers + [f]) == OthersOf(finalizers) + if f == "routes.networking.cloudfoundry.org" then [] else [f]
  {
    if finalizers != [] {
      assert (finalizers + [f])[1..] == finalizers[1..] + [f];
      OthersOfAppend(finalizers[1..], f);
    }
  }

  lemma {:induction false} OthersOfOthers(finalizers: seq<string>)
    ensures OthersOf(OthersOf(finalizers)) == OthersOf(finalizers)
  {
    if finalizers != [] {
      OthersOfOthers(finalizers[1..]);
      var rest := OthersOf(finalizers[1..]);
      if finalizers[0] != "routes.networking.cloudfoundry.org" {
        assert ([finalizers[0]] + rest)[1..] == rest;
      } else {
        assert [] + rest == rest;
      }
    }
  }

  /** The finalizers of other parties stay, in their order. */
  lemma OthersStay(before: StoredRoute, after: StoredRoute)
    requires FinalizersFollow(before, after)
    ensures OthersOf(after.finalizers) == OthersOf(before.finalizers)
  {
    OthersOfOthers(before.finalizers);
    OthersOfAppend(before.finalizers, "routes.networking.cloudfoundry.org");
  }

  ghost predicate NoServicesOf(services: Services, namespace: string, uid: string)
  {
    forall k :: k in services && k.namespace == namespace ==> !OwnedBy(services[k], uid)
  }

  /** The only ways in which the controller may write. A route is written as it is stored but
      for the controller's own finalizer, and loses the controller's finalizer only when no Service names it
      as owner; a Service is written only for a route that holds the finalizer; a
      VirtualService is always a rendering of routes of its own FQDN. */
  ghost predicate WriteAllowed(s: Store, w: Write)
  {
    match w
    case UpdateRoute(sr) =>
      var key := RouteKey(sr.route);
      && key in s.routes
      && sr == s.routes[key].(finalizers := sr.finalizers) && FinalizersChange(s.routes[key], sr.finalizers)
      && (HasFinalizer(sr) || NoServicesOf(s.services, key.namespace, sr.route.meta.uid))
    case PutService(sv) => sv.owners != [] && OwnerHolds(s.routes, sv)
    case DeleteService(key) => true
    case PutVirtualService(vs) => RenderedAt(s.issued, VirtualServiceKey(vs), vs)
    case DeleteVirtualService(key) => true
  }

  lemma WriteKeepsStoreOk(s: Store, w: Write)
    requires StoreOk(s) && WriteAllowed(s, w)
    ensures StoreOk(Apply(s, w))
  {
    hide RenderedAt;
    if w.UpdateRoute? {
      var key := RouteKey(w.sr.route);
      assert RouteOk(s.issued, key, s.routes[key]);
      PutRouteKeepsRoutesOk(s, s.issued, w.sr);
    }
  }

  lemma UpdateRouteKeepsObjectsSafe(s: Store, sr: StoredRoute)
    requires StoreOk(s) && WriteAllowed(s, UpdateRoute(sr))
    ensures KeepsObjectsSafe(s, PutRoute(s, sr))
  {
    hide RenderedAt;
    var t, key := PutRoute(s, sr), RouteKey(sr.route);
    assert RouteOk(s.issued, key, s.routes[key]);
    forall k | k in s.services && OwnerHolds(s.routes, s.services[k])
      ensures OwnerHolds(t.routes, s.services[k])
    {
      assert ServiceKey(s.services[k]) == k;
    }
  }

  /** No allowed write of the controller makes an object unsafe, and what it puts is safe. */
  lemma WriteKeepsObjectsSafe(s: Store, w: Write)
    requires StoreOk(s) && WriteAllowed(s, w)
    ensures KeepsObjectsSafe(s, Apply(s, w))
    ensures w.PutService? ==> ServiceSafe(Apply(s, w), ServiceKey(w.sv))
    ensures w.PutVirtualService? ==> VirtualServiceSafe(Apply(s, w), VirtualServiceKey(w.vs))
  {
    hide RenderedAt;
    if w.UpdateRoute? {
      UpdateRouteKeepsObjectsSafe(s, w.sr);
    }
  }

  /** No allowed write of the controller breaks the invariants. */
  lemma WriteKeepsSafe(s: Store, w: Write)
    requires Safe(s) && WriteAllowed(s, w)
    ensures Safe(Apply(s, w))
  {
    hide ServiceSafe, VirtualServiceSafe, StoreOk;
    WriteKeepsStoreOk(s, w);
    WriteKeepsObjectsSafe(s, w);
  }

  // ---- what the invariants mean ----

  /** Once no route of an FQDN is stored, every owner of its VirtualService is gone, so the
      object can be garbage collected; it always has at least one owner. */
  lemma OrphanIsCollectable(s: Store, k: VsKey)
    requires RoutesOk(s.issued, s.routes) && VirtualServiceSafe(s, k) && k in s.virtualServices
    requires forall rk :: rk in s.routes ==> !(rk.namespace == k.namespace && s.routes[rk].route.FQDN() == k.name.fqdn)
    ensures s.virtualServices[k].owners != []
    ensures forall o, rk :: o in s.virtualServices[k].owners && rk in s.routes ==> s.routes[rk].route.meta.uid != o.uid
  {
    var vs := s.virtualServices[k];
    assert RenderedAt(s.issued, k, vs);
    var gateways, order :| IsRendering(s.issued, k, vs, gateways, order);
    assert vs.owners == OwnerRefs(order);
    forall o, rk | o in vs.owners && rk in s.routes
      ensures s.routes[rk].route.meta.uid != o.uid
    {
      hide Render;
      var i :| 0 <= i < |vs.owners| && o == vs.owners[i];
      assert order[i] in order;
      assert RouteOk(s.issued, rk, s.routes[rk]);
    }
  }

  /** While a Service names a UID as its first owner, that route is stored and holds the
      controller's finalizer. */
  lemma NoServiceOutlivesItsRoute(s: Store, uid: string, k: Key)
    requires ServiceSafe(s, k) && k in s.services && OwnedBy(s.services[k], uid)
    ensures exists rk :: rk in s.routes && s.routes[rk].route.meta.uid == uid && HasFinalizer(s.routes[rk])
  {
    assert OwnerHolds(s.routes, s.services[k]);
    var rk := Key(s.services[k].namespace, s.services[k].owners[0].name);
    assert HoldsFinalizer(s.routes, rk, uid);
  }
}
