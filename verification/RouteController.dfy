/** controllers/networking/route_controller.go */
module RouteController {
  import opened RouteTypes
  import opened Resources
  import opened ServiceBuilder
  import opened VirtualServiceSpec
  import opened ClusterStore
  import opened ReconcilePlan
  import opened ApiServerModel
  import opened BuildProperties
  import Builder = VirtualServiceBuilder

  datatype ReconcileError = ApiFailed(apiError: ApiError) | BuildFailed(buildError: BuildError)

  // ---- following a plan ----

  /** Between (s, ws) and (t, ws') exactly a prefix of the plan was written, in order: all of
      it if `complete`. */
  ghost predicate Executed(s: Store, ws: seq<Write>, t: Store, ws': seq<Write>, plan: seq<Write>, complete: bool)
  {
    var k := |ws'| - |ws|;
    && 0 <= k <= |plan|
    && ws' == ws + plan[..k]
    && t == ApplyAll(s, plan[..k])
    && (complete ==> k == |plan|)
  }

  lemma ExecutedNothing(s: Store, ws: seq<Write>, plan: seq<Write>)
    ensures Executed(s, ws, s, ws, plan, plan == [])
    ensures Executed(s, ws, s, ws, plan, false)
  {
  }

  lemma ExecutedWeaken(s: Store, ws: seq<Write>, t: Store, ws': seq<Write>, plan: seq<Write>, complete: bool, claimed: bool)
    requires Executed(s, ws, t, ws', plan, complete) && (claimed ==> complete)
    ensures Executed(s, ws, t, ws', plan, claimed)
  {
  }

  lemma ExecutedOne(s: Store, ws: seq<Write>, t: Store, ws': seq<Write>, w: Write, complete: bool)
    requires (t == s && ws' == ws && !complete) || (t == Apply(s, w) && ws' == ws + [w])
    ensures Executed(s, ws, t, ws', [w], complete)
  {
    ApplyOne(s, w);
  }

  lemma ExecutedThen(s: Store, ws: seq<Write>, t: Store, ws': seq<Write>, u: Store, ws'': seq<Write>,
                     p: seq<Write>, q: seq<Write>, complete: bool)
    requires Executed(s, ws, t, ws', p, true) && Executed(t, ws', u, ws'', q, complete)
    ensures Executed(s, ws, u, ws'', p + q, complete)
  {
    var k := |ws''| - |ws'|;
    assert p[..|p|] == p;
    assert (p + q)[..|p| + k] == p + q[..k];
    ApplyAllConcat(s, p, q[..k]);
  }

  lemma ExecutedPartly(s: Store, ws: seq<Write>, t: Store, ws': seq<Write>, p: seq<Write>, q: seq<Write>)
    requires Executed(s, ws, t, ws', p, false)
    ensures Executed(s, ws, t, ws', p + q, false)
  {
    var k := |ws'| - |ws|;
    assert (p + q)[..k] == p[..k];
  }

  /** One more call of a plan `p + [w] + q` whose part `p` is done. */
  lemma ExecutedStep(s: Store, ws: seq<Write>, t: Store, ws': seq<Write>, u: Store, ws'': seq<Write>,
                     p: seq<Write>, w: Write, q: seq<Write>, accepted: bool)
    requires Executed(s, ws, t, ws', p, true)
    requires (u == t && ws'' == ws' && !accepted) || (u == Apply(t, w) && ws'' == ws' + [w])
    ensures Executed(s, ws, u, ws'', p + [w], accepted)
    ensures Executed(s, ws, u, ws'', p + [w] + q, false)
  {
    ExecutedOne(t, ws', u, ws'', w, accepted);
    ExecutedThen(s, ws, t, ws', u, ws'', p, [w], accepted);
    ExecutedPartly(s, ws, u, ws'', p + [w], q);
  }

  // ---- list helpers ----

  predicate WantedBy(sv: Service, desired: seq<Service>)
  {
    exists d :: d in desired && ServiceKey(d) == ServiceKey(sv)
  }

  /** The Services of `actual` that share no name with a desired one, in order. */
  function Undesired(actual: seq<Service>, desired: seq<Service>): seq<Service>
  {
    if actual == [] then [] else
      var n := |actual| - 1;
      Undesired(actual[..n], desired) + if WantedBy(actual[n], desired) then [] else [actual[n]]
  }

  lemma WantedByAppend(sv: Service, desired: seq<Service>, d: Service)
    ensures WantedBy(sv, desired + [d]) <==> WantedBy(sv, desired) || ServiceKey(d) == ServiceKey(sv)
  {
    if WantedBy(sv, desired) {
      var e :| e in desired && ServiceKey(e) == ServiceKey(sv);
      assert e in desired + [d];
    }
    assert d in desired + [d];
  }

  method FindServicesForDeletion(actualServices: seq<Service>, desiredServices: seq<Service>) returns (servicesToDelete: seq<Service>)
    ensures servicesToDelete == Undesired(actualServices, desiredServices)
  {
    servicesToDelete := [];
    for i := 0 to |actualServices|
      invariant servicesToDelete == Undesired(actualServices[..i], desiredServices)
    {
      var existingService := actualServices[i];
      var foundInDesired := false;
      for j := 0 to |desiredServices|
        invariant foundInDesired <==> WantedBy(existingService, desiredServices[..j])
      {
        var desiredService := desiredServices[j];
        assert desiredServices[..j + 1] == desiredServices[..j] + [desiredService];
        WantedByAppend(existingService, desiredServices[..j], desiredService);
        if desiredService.name == existingService.name && desiredService.namespace == existingService.namespace {
          foundInDesired := true;
        }
      }
      assert desiredServices[..|desiredServices|] == desiredServices;
      assert actualServices[..i + 1][..i] == actualServices[..i];
      if !foundInDesired {
        servicesToDelete := servicesToDelete + [existingService];
      }
    }
    assert actualServices[..|actualServices|] == actualServices;
  }

  lemma WantedByKey(sv: Service, desired: seq<Service>)
    ensures WantedBy(sv, desired) <==> ServiceKey(sv) in Elements(KeysOf(desired))
  {
    if WantedBy(sv, desired) {
      var d :| d in desired && ServiceKey(d) == ServiceKey(sv);
      var i :| 0 <= i < |desired| && desired[i] == d;
      assert KeysOf(desired)[i] == ServiceKey(sv);
    }
    if ServiceKey(sv) in KeysOf(desired) {
      var i :| 0 <= i < |desired| && KeysOf(desired)[i] == ServiceKey(sv);
      assert desired[i] in desired;
    }
  }

  lemma WantedByName(sv: Service, desired: seq<Service>)
    ensures WantedBy(sv, desired) <==>
      exists i :: 0 <= i < |desired| && desired[i].name == sv.name && desired[i].namespace == sv.namespace
  {
    if WantedBy(sv, desired) {
      var d :| d in desired && ServiceKey(d) == ServiceKey(sv);
      var i :| 0 <= i < |desired| && desired[i] == d;
      assert desired[i].name == sv.name && desired[i].namespace == sv.namespace;
    }
    if i :| 0 <= i < |desired| && desired[i].name == sv.name && desired[i].namespace == sv.namespace {
      assert desired[i] in desired && ServiceKey(desired[i]) == ServiceKey(sv);
    }
  }

  lemma UndesiredAppend(list: seq<Service>, sv: Service, desired: seq<Service>)
    ensures Undesired(list + [sv], desired) == Undesired(list, desired) + if WantedBy(sv, desired) then [] else [sv]
  {
    hide WantedBy;
    assert (list + [sv])[..|list|] == list;
  }

  lemma {:induction false} UndesiredConcat(actual: seq<Service>, more: seq<Service>, desired: seq<Service>)
    ensures Undesired(actual + more, desired) == Undesired(actual, desired) + Undesired(more, desired)
  {
    hide WantedBy;
    if more == [] {
      assert actual + more == actual;
    } else {
      var n := |more| - 1;
      UndesiredConcat(actual, more[..n], desired);
      hide Undesired;
      assert more == more[..n] + [more[n]];
      assert actual + more == (actual + more[..n]) + [more[n]];
      UndesiredAppend(actual + more[..n], more[n], desired);
      UndesiredAppend(more[..n], more[n], desired);
    }
  }

  /** In terms of names: the filter keeps exactly the Services that no desired one is called
      like, and keeps them in their order. */
  lemma UndesiredIsFilter(before: seq<Service>, sv: Service, after: seq<Service>, desired: seq<Service>)
    ensures Undesired(before + [sv] + after, desired) == Undesired(before, desired) +
      (if exists i :: 0 <= i < |desired| && desired[i].name == sv.name && desired[i].namespace == sv.namespace then [] else [sv]) +
      Undesired(after, desired)
  {
    UndesiredConcat(before + [sv], after, desired);
    UndesiredConcat(before, [sv], desired);
    WantedByName(sv, desired);
    assert [sv][..0] == [];
    hide WantedBy;
  }

  lemma {:induction false} UndesiredKeys(actual: seq<Service>, desired: seq<Service>)
    requires NoDuplicates(KeysOf(actual))
    ensures var keys := KeysOf(Undesired(actual, desired));
      NoDuplicates(keys) && Elements(keys) == Elements(KeysOf(actual)) - Elements(KeysOf(desired))
  {
    if actual != [] {
      var n := |actual| - 1;
      var init, last := actual[..n], actual[n];
      assert KeysOf(actual) == KeysOf(init) + [ServiceKey(last)];
      assert KeysOf(init) == KeysOf(actual)[..n] && KeysOf(actual)[n] == ServiceKey(last);
      UndesiredKeys(init, desired);
      assert ServiceKey(last) !in KeysOf(init);
      ElementsSnoc(KeysOf(init), ServiceKey(last));
      WantedByKey(last, desired);
      var rest := Undesired(init, desired);
      if !WantedBy(last, desired) {
        assert KeysOf(rest + [last]) == KeysOf(rest) + [ServiceKey(last)];
        assert ServiceKey(last) !in Elements(KeysOf(rest));
        ElementsSnoc(KeysOf(rest), ServiceKey(last));
      } else {
        assert rest + [] == rest;
      }
    }
  }

  lemma {:induction false} DesiredKeys(list: seq<Service>)
    ensures ServicesByKey(list).Keys == Elements(KeysOf(list))
  {
    if list != [] {
      var n := |list| - 1;
      DesiredKeys(list[..n]);
      assert KeysOf(list) == KeysOf(list[..n]) + [ServiceKey(list[n])];
      ElementsSnoc(KeysOf(list[..n]), ServiceKey(list[n]));
    }
  }

  method HasFinalizerNamed(finalizers: seq<string>, finalizerName: string) returns (found: bool)
    ensures found <==> finalizerName in finalizers
  {
    for i := 0 to |finalizers|
      invariant finalizerName !in finalizers[..i]
    {
      if finalizers[i] == finalizerName {
        return true;
      }
    }
    return false;
  }

  /** Go's `append(items[:idx], items[idx+1:]...)` at the first route of that name. */
  function RemoveFirst(items: seq<Route>, name: string): seq<Route>
  {
    if items == [] then []
    else if items[0].meta.name == name then items[1..]
    else [items[0]] + RemoveFirst(items[1..], name)
  }

  function OthersThan(items: seq<Route>, name: string): seq<Route>
  {
    if items == [] then []
    else (if items[0].meta.name == name then [] else [items[0]]) + OthersThan(items[1..], name)
  }

  ghost predicate NamesDistinct(items: seq<Route>)
  {
    forall i, j :: 0 <= i < j < |items| ==> items[i].meta.name != items[j].meta.name
  }

  lemma WithoutElementAt(before: seq<Route>, after: seq<Route>, idx: nat)
    requires idx < |before| == |after| + 1
    requires forall m :: 0 <= m < |after| ==> after[m] == before[if m < idx then m else m + 1]
    ensures after == before[..idx] + before[idx + 1..]
  {
  }

  lemma {:induction false} RemoveFirstAt(items: seq<Route>, name: string, idx: nat)
    requires idx < |items| && items[idx].meta.name == name
    requires forall k :: 0 <= k < idx ==> items[k].meta.name != name
    ensures RemoveFirst(items, name) == items[..idx] + items[idx + 1..]
  {
    if idx > 0 {
      RemoveFirstAt(items[1..], name, idx - 1);
      assert items[..idx] == [items[0]] + items[1..][..idx - 1];
      assert items[1..][idx..] == items[idx + 1..];
    }
  }

  lemma {:induction false} RemoveFirstAbsent(items: seq<Route>, name: string)
    requires forall k :: 0 <= k < |items| ==> items[k].meta.name != name
    ensures RemoveFirst(items, name) == items
  {
    if items != [] {
      RemoveFirstAbsent(items[1..], name);
      assert items == [items[0]] + items[1..];
    }
  }

  /** The first route of that name, or the length of the list. */
  method IndexByName(routes: RouteList, name: string) returns (idx: nat)
    requires routes.Valid()
    ensures idx <= routes.len
    ensures idx < routes.len ==> routes.items[idx].meta.name == name
    ensures forall k :: 0 <= k < idx ==> routes.items[k].meta.name != name
  {
    for i := 0 to routes.len
      invariant forall k :: 0 <= k < i ==> routes.items[k].meta.name != name
    {
      if routes.items[i].meta.name == name {
        return i;
      }
    }
    return routes.len;
  }

  /** Go's overlapping copy of `items[idx+1:len]` to `items[idx:]`. */
  method ShiftLeft(items: array<Route>, idx: nat, len: nat)
    requires idx < len <= items.Length
    modifies items
    ensures forall m :: 0 <= m < len - 1 ==> items[m] == old(items[if m < idx then m else m + 1])
    ensures forall m :: len - 1 <= m < items.Length ==> items[m] == old(items[m])
  {
    for k := idx to len - 1
      invariant forall m :: 0 <= m < k ==> items[m] == old(items[if m < idx then m else m + 1])
      invariant forall m :: k <= m < items.Length ==> items[m] == old(items[m])
    {
      items[k] := items[k + 1];
    }
  }

  /** Shifts in place: the returned length delimits the remaining routes, and the array keeps
      its old contents beyond it. */
  method RemoveRouteFromRouteList(routeToRemove: Route, routes: RouteList) returns (n: nat)
    requires routes.Valid()
    modifies routes.items
    ensures n <= routes.len
    ensures routes.items[..n] == RemoveFirst(old(routes.Contents()), routeToRemove.meta.name)
    ensures routes.items[n..] == old(routes.items[n..])
  {
    ghost var before := routes.Contents();
    n := routes.len;
    var idx := IndexByName(routes, routeToRemove.meta.name);
    if idx < n {
      RemoveFirstAt(before, routeToRemove.meta.name, idx);
      ShiftLeft(routes.items, idx, n);
      n := n - 1;
      WithoutElementAt(before, routes.items[..n], idx);
    } else {
      RemoveFirstAbsent(before, routeToRemove.meta.name);
    }
  }

  lemma {:induction false} OthersThanAbsent(items: seq<Route>, name: string)
    requires forall k :: 0 <= k < |items| ==> items[k].meta.name != name
    ensures OthersThan(items, name) == items
  {
    if items != [] {
      OthersThanAbsent(items[1..], name);
      assert items == [items[0]] + items[1..];
    }
  }

  /** When names are unique the shift is exactly the order-preserving filter. */
  lemma {:induction false} RemoveFirstIsFilter(items: seq<Route>, name: string)
    requires NamesDistinct(items)
    ensures RemoveFirst(items, name) == OthersThan(items, name)
  {
    if items != [] {
      if items[0].meta.name == name {
        OthersThanAbsent(items[1..], name);
      } else {
        RemoveFirstIsFilter(items[1..], name);
      }
    }
  }

  lemma {:induction false} OthersThanElements(items: seq<Route>, name: string)
    ensures forall r :: r in OthersThan(items, name) <==> r in items && r.meta.name != name
    ensures NoDuplicates(items) ==> NoDuplicates(OthersThan(items, name))
  {
    if items != [] {
      assert items == [items[0]] + items[1..];
      OthersThanElements(items[1..], name);
      if NoDuplicates(items) {
        TailElements(items);
        assert items[0] !in items[1..];
      }
    }
  }

  // ---- facts that the methods below carry across calls ----

  lemma DeletionIsRely(s: Store, k: Key)
    ensures Rely(s, Apply(s, DeleteService(k)))
  {
  }

  lemma OwnerSurvives(before: Routes, after: Routes, key: Key, uid: string)
    requires FinalizersKept(before, after) && HoldsFinalizer(before, key, uid)
    ensures HoldsFinalizer(after, key, uid)
  {
  }

  /** The routes of a list, as far as anything may be assumed about them later: each has been
      stored under its UID, in this namespace and with this FQDN. */
  ghost predicate ListOk(issued: Issued, items: seq<Route>, namespace: string, fqdn: string)
  {
    && NoDuplicates(items)
    && forall r :: r in items ==> Known(issued, r) && r.meta.namespace == namespace && r.FQDN() == fqdn
  }

  lemma ListIsOk(s: Store, items: seq<Route>, namespace: string, fqdn: string)
    requires RoutesOk(s.issued, s.routes)
    requires NoDuplicates(items) && Elements(items) == GroupOf(s.routes, namespace, fqdn)
    ensures ListOk(s.issued, items, namespace, fqdn) && NamesDistinct(items)
  {
    forall r | r in items
      ensures Known(s.issued, r) && r.meta.namespace == namespace && r.FQDN() == fqdn
      ensures RouteKey(r) in s.routes && s.routes[RouteKey(r)].route == r
    {
      assert r in Elements(items);
      GroupMembers(s, namespace, fqdn, r);
    }
    forall i, j | 0 <= i < j < |items|
      ensures items[i].meta.name != items[j].meta.name
    {
      assert items[i] in items && items[j] in items;
    }
  }

  lemma {:induction false} OneGroup(items: seq<Route>, fqdn: string)
    requires forall r :: r in items ==> r.FQDN() == fqdn
    ensures GroupFor(items, fqdn) == items
    ensures FqdnsOf(items) == if items == [] then {} else {fqdn}
  {
    if items != [] {
      var n := |items| - 1;
      assert items == items[..n] + [items[n]];
      OneGroup(items[..n], fqdn);
      assert items[n] in items;
    }
  }

  lemma AtMostOne(fqdns: seq<string>, fqdn: string)
    requires StrictlyAscending(fqdns) && Elements(fqdns) <= {fqdn}
    ensures fqdns == if fqdn in Elements(fqdns) then [fqdn] else []
  {
    AscendingHasNoDuplicates(fqdns);
    ElementsCount(fqdns);
    assert Elements(fqdns) == if fqdn in Elements(fqdns) then {fqdn} else {};
    if fqdn in Elements(fqdns) {
      assert fqdns[0] in Elements(fqdns);
    }
  }

  lemma RenderingOfList(gateways: seq<string>, vs: VirtualService, items: seq<Route>, namespace: string, fqdn: string, issued: Issued)
    requires ListOk(issued, items, namespace, fqdn) && Renders(gateways, vs, fqdn, items)
    ensures RenderedAt(issued, VirtualServiceKey(vs), vs)
  {
    var order :| order != [] && Arranges(order, items) && vs == Render(gateways, fqdn, order);
    ArrangesKeeps(order, items);
    forall r | r in order
      ensures Known(issued, r) && r.meta.namespace == namespace && r.FQDN() == fqdn
    {
      assert r in Elements(order) && r in Elements(items);
    }
    assert order[0] in order;
    assert IsRendering(issued, VirtualServiceKey(vs), vs, gateways, order);
  }

  /** What `Build` returns for a list of one FQDN: nothing for an empty list, otherwise one
      VirtualService that renders the whole list. */
  lemma SingleBuild(gateways: seq<string>, items: seq<Route>, namespace: string, fqdn: string, issued: Issued,
                    fqdns: seq<string>, vss: seq<VirtualService>)
    requires ListOk(issued, items, namespace, fqdn) && IsBuildOf(gateways, items, fqdns, vss)
    ensures |vss| == if items == [] then 0 else 1
    ensures forall vs :: vs in vss ==> RenderedAt(issued, VirtualServiceKey(vs), vs)
    ensures items != [] && UrlsUnique(Elements(items)) ==> Elements(items) != {} && vss[0] == DesiredVirtualService(gateways, fqdn, Elements(items))
  {
    OneGroup(items, fqdn);
    AtMostOne(fqdns, fqdn);
    if items != [] {
      assert fqdn in Elements(fqdns) && items[0] in Elements(items);
      RenderingOfList(gateways, vss[0], items, namespace, fqdn, issued);
      if UrlsUnique(Elements(items)) {
        RenderIsCanonical(gateways, vss[0], fqdn, items);
      }
    }
  }

  lemma ListOkSurvives(issued: Issued, issued': Issued, items: seq<Route>, namespace: string, fqdn: string)
    requires ListOk(issued, items, namespace, fqdn) && Shrinks(issued', issued)
    ensures ListOk(issued', items, namespace, fqdn)
  {
  }
}
