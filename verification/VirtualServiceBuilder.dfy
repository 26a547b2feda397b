/** resourcebuilders/virtual_service_builder.go */
module VirtualServiceBuilder {
  import opened RouteTypes
  import opened Resources
  import opened GoStrings
  import opened GoSort
  import opened Weights
  import opened VirtualServiceSpec
  import opened ObjectFields
  import opened RenderFields
  import opened Grouping

  /** Comparing every route with the first one decides all pairs. */
  method ValidateRoutesForFQDN(routes: array<Route>) returns (err: Option<BuildError>)
    requires routes.Length > 0
    ensures err.None? <==> forall a, b :: a in Elements(routes[..]) && b in Elements(routes[..]) ==> Agree(a, b)
    ensures err.None? <==> forall i, j :: 0 <= i < routes.Length && 0 <= j < routes.Length ==>
      && routes[i].meta.namespace == routes[j].meta.namespace
      && routes[i].spec.domain.isInternal == routes[j].spec.domain.isInternal
    ensures err.Some? ==> Explains(err.value, Elements(routes[..]))
    ensures err.Some? ==> err.value.DomainsDisagree? || err.value.NamespacesDisagree?
  {
    for i := 0 to routes.Length
      invariant forall k :: 0 <= k < i ==> Agree(routes[0], routes[k])
    {
      var route := routes[i];
      assert routes[0] in Elements(routes[..]) && route in Elements(routes[..]);
      if routes[0].spec.domain.isInternal != route.spec.domain.isInternal {
        return Some(DomainsDisagree(routes[0], route));
      }
      if routes[0].meta.namespace != route.meta.namespace {
        return Some(NamespacesDisagree(routes[0], route));
      }
    }
    return None;
  }

  method ValidateWeights(route: Route, destinations: seq<RouteDestination>) returns (err: Option<BuildError>)
    requires destinations != [] && destinations == route.spec.destinations
    ensures err.None? <==> WeightsValid(destinations)
    ensures MixedWeights(destinations) ==> err == Some(WeightsOnAllOrNone(route))
    ensures !MixedWeights(destinations) ==>
      (err.None? <==> destinations[0].weight.None? || Totals100(destinations))
    ensures err.Some? ==> Explains(err.value, {route})
  {
    WeightsValidIff(destinations);
    hide Totals100;
    var weightSum: int64 := 0;
    var declared := Declared(destinations);
    for i := 0 to |destinations|
      invariant forall k :: 0 <= k < i ==> destinations[k].weight.None? == destinations[0].weight.None?
      invariant weightSum == Wrap64(Sum(declared[..i]))
    {
      var d := destinations[i];
      assert d in destinations && destinations[0] in destinations;
      if d.weight.None? != destinations[0].weight.None? {
        return Some(WeightsOnAllOrNone(route));
      }
      assert declared[..i + 1] == declared[..i] + [declared[i]];
      SumAppend(declared[..i], declared[i]);
      if d.weight.Some? {
        WrapAdd(Sum(declared[..i]), declared[i]);
        weightSum := Wrap64(weightSum + d.weight.value);
      }
    }
    assert declared[..|declared|] == declared;
    assert destinations[0] in destinations;
    var weightsHaveBeenSet := destinations[0].weight.Some?;
    if weightsHaveBeenSet && weightSum != ISTIO_EXPECTED_WEIGHT {
      return Some(WeightsTotal(route));
    }
    return None;
  }

  method DestinationsToHttpRouteDestinations(route: Route, destinations: seq<RouteDestination>)
    returns (res: Result<seq<HttpDestination>, BuildError>)
    requires destinations != [] && destinations == route.spec.destinations
    ensures res.Ok? <==> WeightsValid(destinations)
    ensures res.Ok? ==> res.value == DestinationsFor(route) && DestinationsShow(res.value, route)
    ensures MixedWeights(destinations) ==> res == Err(WeightsOnAllOrNone(route))
    ensures res.Err? ==> Explains(res.error, {route})
  {
    hide DestinationsShow, MixedWeights, Explains;
    var err := ValidateWeights(route, destinations);
    if err.Some? {
      return Err(err.value);
    }
    var httpDestinations: seq<HttpDestination> := [];
    for i := 0 to |destinations|
      invariant |httpDestinations| == i
      invariant forall k :: 0 <= k < i ==>
        httpDestinations[k] == DestinationFor(route, k).(weight :=
          if destinations[k].weight.Some? then ToInt32(destinations[k].weight.value) else 0)
    {
      var destination := destinations[i];
      var httpDestination := HttpDestination(
        ServiceName(destination),
        0,
        map["CF-App-Id" := destination.appGuid,
            "CF-App-Process-Type" := destination.processType,
            "CF-Space-Id" := LabelOf(route.meta.labels, "cloudfoundry.org/space_guid"),
            "CF-Organization-Id" := LabelOf(route.meta.labels, "cloudfoundry.org/org_guid")]);
      if destination.weight.Some? {
        httpDestination := httpDestination.(weight := ToInt32(destination.weight.value));
      }
      httpDestinations := httpDestinations + [httpDestination];
    }
    if destinations[0].weight.None? {
      var n := |destinations|;
      for i := 0 to n
        invariant |httpDestinations| == n
        invariant forall k :: 0 <= k < i ==> httpDestinations[k] == DestinationFor(route, k)
        invariant forall k :: i <= k < n ==>
          httpDestinations[k] == DestinationFor(route, k).(weight := httpDestinations[k].weight)
      {
        var weight := ISTIO_EXPECTED_WEIGHT / n;
        if i == 0 {
          var remainder := ISTIO_EXPECTED_WEIGHT - n * weight;
          weight := weight + remainder;
        }
        httpDestinations := httpDestinations[i := httpDestinations[i].(weight := ToInt32(weight))];
      }
    }
    assert httpDestinations == DestinationsFor(route);
    DestinationsForShow(route);
    return Ok(httpDestinations);
  }

  lemma LessIsNegativelyTransitive(x: string, y: string, z: string)
    ensures Less(x, z) ==> Less(x, y) || Less(y, z)
  {
    LessTotal(x, y);
    if Less(x, z) && Less(y, x) {
      LessTransitive(y, x, z);
    }
  }

  lemma UrlGreaterIsStrictWeakOrder()
    ensures StrictWeakOrder(UrlGreater)
  {
    forall x: Route, y: Route, z: Route
      ensures OrdersTriple(UrlGreater, x, y, z)
    {
      LessIsNegativelyTransitive(z.spec.url, y.spec.url, x.spec.url);
      LessIrreflexive(x.spec.url);
      if UrlGreater(x, y) {
        LessAsymmetric(y.spec.url, x.spec.url);
      }
    }
  }

  lemma LessIsStrictWeakOrder()
    ensures StrictWeakOrder(Less)
  {
    forall x: string, y: string, z: string
      ensures OrdersTriple(Less, x, y, z)
    {
      LessIsNegativelyTransitive(x, y, z);
      LessIrreflexive(x);
      if Less(x, y) {
        LessAsymmetric(x, y);
      }
    }
  }

  method SortRoutes(routes: array<Route>)
    modifies routes
    ensures Arranges(routes[..], old(routes[..]))
    ensures forall i, j :: 0 <= i < j < routes.Length ==> !Less(routes[i].spec.url, routes[j].spec.url)
  {
    UrlGreaterIsStrictWeakOrder();
    SortSlice(routes, UrlGreater);
  }

  lemma RulesAppend(order: seq<Route>, i: nat, alone: bool)
    requires i < |order|
    ensures Rules(order[..i + 1], alone) == Rules(order[..i], alone) + if HasRule(order[i], alone) then [RuleOf(order[i])] else []
    ensures OwnerRefs(order[..i + 1]) == OwnerRefs(order[..i]) + [RouteToOwnerRef(order[i])]
  {
    assert order[..i + 1][..i] == order[..i];
  }

  /** The loop over the sorted routes: an owner reference for each, and its rule if any. */
  method AddRoutes(empty: VirtualService, routes: array<Route>) returns (res: Result<VirtualService, BuildError>)
    requires empty.owners == [] && empty.http == []
    ensures res.Ok? <==> forall r :: r in Elements(routes[..]) ==> DestinationsValid(r)
    ensures res.Ok? ==> res.value == empty.(owners := OwnerRefs(routes[..]), http := Rules(routes[..], routes.Length == 1))
    ensures res.Err? ==> Explains(res.error, Elements(routes[..]))
  {
    var vs := empty;
    ghost var order := routes[..];
    for i := 0 to routes.Length
      invariant forall k :: 0 <= k < i ==> DestinationsValid(order[k])
      invariant vs == empty.(owners := OwnerRefs(order[..i]), http := Rules(order[..i], |order| == 1))
    {
      var route := routes[i];
      RulesAppend(order, i, |order| == 1);
      assert route in Elements(order);
      vs := vs.(owners := vs.owners + [RouteToOwnerRef(route)]);
      var istioRoute := HttpRoute(None, []);
      if |route.spec.destinations| != 0 {
        var istioDestinations := DestinationsToHttpRouteDestinations(route, route.spec.destinations);
        if istioDestinations.Err? {
          assert routes[..] == order && !DestinationsValid(route);
          return Err(istioDestinations.error);
        }
        istioRoute := istioRoute.(destinations := istioDestinations.value);
      } else if routes.Length > 1 {
        continue;
      } else {
        istioRoute := istioRoute.(destinations := PlaceholderDestinations());
      }
      if route.spec.path != "" {
        istioRoute := istioRoute.(prefix := Some(route.spec.path));
      }
      vs := vs.(http := vs.http + [istioRoute]);
    }
    assert order[..routes.Length] == order;
    return Ok(vs);
  }

  method FqdnToVirtualService(gateways: seq<string>, fqdn: string, routes: array<Route>)
    returns (res: Result<VirtualService, BuildError>)
    requires routes.Length > 0
    modifies routes
    ensures res.Ok? <==> GroupValid(Elements(old(routes[..])))
    ensures res.Ok? ==> Arranges(routes[..], old(routes[..])) && res.value == Render(gateways, fqdn, routes[..])
    ensures res.Ok? ==> Renders(gateways, res.value, fqdn, old(routes[..]))
    ensures res.Ok? ==> ShowsGroup(res.value, gateways, fqdn, routes[..])
    ensures res.Err? ==> Explains(res.error, Elements(old(routes[..])))
  {
    hide ShowsGroup, DestinationsValid, Rules, Explains;
    ghost var group := routes[..];
    assert routes[0] in group;
    var vs := VirtualService(routes[0].meta.namespace, VirtualServiceName(fqdn), [], map[],
                             map["cloudfoundry.org/fqdn" := fqdn], [fqdn], [], []);
    var err := ValidateRoutesForFQDN(routes);
    if err.Some? {
      return Err(err.value);
    }
    if routes[0].spec.domain.isInternal {
      vs := vs.(gateways := [MESH_INTERNAL_GATEWAY]);
    } else {
      vs := vs.(gateways := gateways);
    }
    SortRoutes(routes);
    ArrangesKeeps(routes[..], group);
    assert routes[..][0] in Elements(routes[..]) && group[0] in Elements(group);
    assert Agree(group[0], routes[0]);
    res := AddRoutes(vs, routes);
    if res.Ok? {
      assert res.value == Render(gateways, fqdn, routes[..]);
      RenderShowsGroup(gateways, fqdn, routes[..]);
    }
  }

  /** The map's slices hold these groups, and no two of them share an array. */
  ghost predicate Backs(fqdns: map<string, array<Route>>, groups: map<string, seq<Route>>)
    reads fqdns.Values
  {
    && fqdns.Keys == groups.Keys
    && (forall f :: f in fqdns ==> fqdns[f][..] == groups[f])
    && forall f, g :: f in fqdns && g in fqdns && f != g ==> fqdns[f] != fqdns[g]
  }

  /** An append to a slice of one route fewer; a nil slice has no array to share. */
  method Append(slice: seq<Route>, route: Route) returns (longer: array<Route>)
    ensures fresh(longer) && longer[..] == slice + [route]
  {
    var all := slice + [route];
    longer := new Route[|all|](i requires 0 <= i < |all| => all[i]);
  }

  /** Every group ends up with an array of its own, none of which existed before. */
  method GroupByFQDN(routes: RouteList) returns (fqdns: map<string, array<Route>>, ghost groups: map<string, seq<Route>>)
    requires routes.Valid()
    ensures IsGrouping(groups, routes.Contents()) && Backs(fqdns, groups)
    ensures GroupedByName(groups, routes.Contents())
    ensures forall f :: f in fqdns ==> fresh(fqdns[f])
  {
    hide IsGrouping, GroupFor, FqdnsOf, GroupedByName;
    fqdns, groups := map[], map[];
    ghost var items := routes.Contents();
    GroupingNone();
    assert items[..0] == [];
    for i := 0 to routes.len
      invariant IsGrouping(groups, items[..i]) && Backs(fqdns, groups)
      invariant forall f :: f in fqdns ==> fresh(fqdns[f])
    {
      var route := routes.items[i];
      var n := route.FQDN();
      GroupingStep(groups, items[..i], route);
      assert items[..i + 1] == items[..i] + [route];
      var slice := Append(if n in fqdns then fqdns[n][..] else [], route);
      groups := groups[n := (if n in groups then groups[n] else []) + [route]];
      fqdns := fqdns[n := slice];
    }
    assert items[..routes.len] == items;
    GroupingIsNamed(groups, items);
  }

  lemma SortedDistinct(sorted: seq<string>, slice: seq<string>)
    requires multiset(sorted) == multiset(slice) && NoDuplicates(slice) && Sorted(sorted, Less)
    ensures StrictlyAscending(sorted) && NoDuplicates(sorted) && Elements(sorted) == Elements(slice)
  {
    NoDuplicatesFromMultiset(sorted, slice);
    forall i, j | 0 <= i < j < |sorted|
      ensures Less(sorted[i], sorted[j])
    {
      LessTotal(sorted[i], sorted[j]);
    }
    forall x
      ensures x in sorted <==> x in slice
    {
      assert x in sorted <==> x in multiset(sorted);
      assert x in slice <==> x in multiset(slice);
    }
  }

  /** The keys come in the arbitrary order of Go's map iteration. */
  method SortFQDNs(fqdns: map<string, array<Route>>) returns (sorted: seq<string>)
    ensures StrictlyAscending(sorted) && NoDuplicates(sorted) && Elements(sorted) == fqdns.Keys
  {
    var fqdnSlice: seq<string> := [];
    var todo := fqdns.Keys;
    while todo != {}
      invariant todo <= fqdns.Keys
      invariant Elements(fqdnSlice) == fqdns.Keys - todo
      invariant NoDuplicates(fqdnSlice)
      decreases todo
    {
      var fqdn :| fqdn in todo;
      assert fqdn !in Elements(fqdnSlice);
      ElementsSnoc(fqdnSlice, fqdn);
      fqdnSlice := fqdnSlice + [fqdn];
      todo := todo - {fqdn};
    }
    var a := new string[|fqdnSlice|](i requires 0 <= i < |fqdnSlice| => fqdnSlice[i]);
    assert a[..] == fqdnSlice;
    LessIsStrictWeakOrder();
    SortSlice(a, Less);
    sorted := a[..];
    SortedDistinct(sorted, fqdnSlice);
  }

  /** The loop over the sorted names. Sorting one group does not disturb another. */
  method BuildGroups(gateways: seq<string>, sortedFQDNs: seq<string>, routesForFQDN: map<string, array<Route>>,
                     ghost groups: map<string, seq<Route>>)
    returns (res: Result<seq<VirtualService>, BuildError>, ghost failed: string)
    requires Backs(routesForFQDN, groups) && NoDuplicates(sortedFQDNs)
    requires forall f :: f in sortedFQDNs ==> f in groups && groups[f] != []
    modifies routesForFQDN.Values
    ensures res.Ok? ==> |res.value| == |sortedFQDNs|
    ensures res.Ok? ==> forall k :: 0 <= k < |sortedFQDNs| ==>
      && GroupValid(Elements(groups[sortedFQDNs[k]])) && Renders(gateways, res.value[k], sortedFQDNs[k], groups[sortedFQDNs[k]])
    ensures res.Err? ==>
      && failed in sortedFQDNs && !GroupValid(Elements(groups[failed])) && Explains(res.error, Elements(groups[failed]))
  {
    hide GroupValid, Render, Renders, Arranges, Explains, ShowsGroup;
    var resources: seq<VirtualService> := [];
    for i := 0 to |sortedFQDNs|
      invariant |resources| == i
      invariant forall k :: 0 <= k < i ==>
        GroupValid(Elements(groups[sortedFQDNs[k]])) && Renders(gateways, resources[k], sortedFQDNs[k], groups[sortedFQDNs[k]])
      invariant forall k :: i <= k < |sortedFQDNs| ==> routesForFQDN[sortedFQDNs[k]][..] == groups[sortedFQDNs[k]]
    {
      var fqdn := sortedFQDNs[i];
      assert routesForFQDN[fqdn].Length == |groups[fqdn]|;
      var virtualService := FqdnToVirtualService(gateways, fqdn, routesForFQDN[fqdn]);
      if virtualService.Err? {
        return Err(virtualService.error), fqdn;
      }
      resources := resources + [virtualService.value];
    }
    return Ok(resources), "";
  }

  lemma GroupsOfSorted(fqdns: map<string, array<Route>>, groups: map<string, seq<Route>>, items: seq<Route>, sorted: seq<string>)
    requires Backs(fqdns, groups) && IsGrouping(groups, items) && Elements(sorted) == fqdns.Keys
    ensures Elements(sorted) == FqdnsOf(items)
    ensures forall f :: f in sorted ==> f in FqdnsOf(items) && f in groups && groups[f] == GroupFor(items, f) && groups[f] != []
    ensures forall f :: f in sorted ==> (FqdnValid(items, f) <==> GroupValid(Elements(groups[f])))
  {
    hide GroupFor, FqdnsOf, GroupValid;
    forall f | f in sorted
      ensures f in groups && groups[f] != []
    {
      assert f in Elements(sorted);
      GroupIsEmptyIff(items, f);
    }
  }

  /** Sorting happens in place, yet only in the arrays that the grouping made: nothing that
      existed before the call is modified, the caller's list included. */
  method Build(gateways: seq<string>, routes: RouteList)
    returns (res: Result<seq<VirtualService>, BuildError>, ghost fqdns: seq<string>)
    requires routes.Valid()
    ensures res.Ok? <==> ListValid(routes.Contents())
    ensures res.Ok? ==> IsBuildOf(gateways, routes.Contents(), fqdns, res.value)
    ensures res.Ok? ==> ShowsList(res.value, gateways, fqdns, routes.Contents())
    ensures res.Err? <==> Refused(routes.Contents())
    ensures res.Err? ==> Explains(res.error, Elements(routes.Contents()))
  {
    hide GroupValid, Renders, Explains, GroupFor, FqdnsOf, ListValid, ShowsList, Refused, GroupedByName, IsBuildOf, StrictlyAscending,
         IsGrouping, Backs;
    ghost var items := routes.Contents();
    ghost var groups, failed;
    var routesForFQDN;
    routesForFQDN, groups := GroupByFQDN(routes);
    var sortedFQDNs := SortFQDNs(routesForFQDN);
    fqdns := sortedFQDNs;
    GroupsOfSorted(routesForFQDN, groups, items, sortedFQDNs);
    res, failed := BuildGroups(gateways, sortedFQDNs, routesForFQDN, groups);
    if res.Err? {
      OneRefused(items, failed);
      ExplainsMore(res.error, items, failed);
    } else {
      AllBuilt(gateways, items, fqdns, res.value);
    }
  }
}
