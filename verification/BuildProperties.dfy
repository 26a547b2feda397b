/** Properties of `Build` as a whole: partition, order independence, ownership. */
module BuildProperties {
  import opened RouteTypes
  import opened Resources
  import opened GoStrings
  import opened VirtualServiceSpec
  import opened Weights
  import opened Grouping

  // ---- partition ----

  /** Grouping by FQDN is a partition of the list as a multiset: each occurrence of a route
      is in the group of its own FQDN and in no other, and no group is empty. */
  lemma {:induction false} GroupingPartitions(items: seq<Route>, r: Route)
    ensures forall f :: multiset(GroupFor(items, f))[r] == if r.FQDN() == f then multiset(items)[r] else 0
    ensures forall f :: f in FqdnsOf(items) <==> GroupFor(items, f) != []
  {
    forall f
      ensures multiset(GroupFor(items, f))[r] == if r.FQDN() == f then multiset(items)[r] else 0
      ensures f in FqdnsOf(items) <==> GroupFor(items, f) != []
    {
      GroupCounts(items, f, r);
      GroupIsEmptyIff(items, f);
    }
  }

  // ---- order independence ----

  lemma HeadsAgree(s: seq<string>, t: seq<string>)
    requires StrictlyAscending(s) && StrictlyAscending(t)
    requires s != [] && t != [] && s[0] in t && t[0] in s
    ensures s[0] == t[0]
  {
    if Less(s[0], t[0]) {
      LessAsymmetric(s[0], t[0]);
    }
  }

  lemma AscendingHasNoDuplicates(s: seq<string>)
    requires StrictlyAscending(s)
    ensures NoDuplicates(s)
  {
    forall i, j | 0 <= i < j < |s|
      ensures s[i] != s[j]
    {
      LessIrreflexive(s[i]);
    }
  }

  lemma {:induction false} AscendingIsCanonical(s: seq<string>, t: seq<string>)
    requires StrictlyAscending(s) && StrictlyAscending(t) && Elements(s) == Elements(t)
    ensures s == t
  {
    forall x
      ensures x in s <==> x in t
    {
      assert x in Elements(s) <==> x in Elements(t);
    }
    assert t != [] ==> t[0] in t;
    if s != [] {
      assert s[0] in t && t[0] in s;
      HeadsAgree(s, t);
      AscendingHasNoDuplicates(s);
      AscendingHasNoDuplicates(t);
      TailElements(s);
      TailElements(t);
      AscendingIsCanonical(s[1..], t[1..]);
      assert s == [s[0]] + s[1..] && t == [t[0]] + t[1..];
    }
  }

  lemma SameMultisetSameElements<T>(s: seq<T>, t: seq<T>)
    requires multiset(s) == multiset(t)
    ensures Elements(s) == Elements(t)
  {
    forall x
      ensures x in s <==> x in t
    {
      assert x in s <==> x in multiset(s);
      assert x in t <==> x in multiset(t);
    }
  }

  /** The rendering of a group with distinct URLs is determined by the set of its routes. */
  lemma RenderIsCanonical(gateways: seq<string>, vs: VirtualService, fqdn: string, group: seq<Route>)
    requires group != [] && NoDuplicates(group) && UrlsUnique(Elements(group))
    requires Renders(gateways, vs, fqdn, group)
    ensures InUrlOrder(Elements(group)) != []
    ensures vs == Render(gateways, fqdn, InUrlOrder(Elements(group)))
  {
    var order :| order != [] && Arranges(order, group) && vs == Render(gateways, fqdn, order);
    ArrangesKeeps(order, group);
    NoDuplicatesFromMultiset(order, group);
    SortIsCanonical(order, Elements(group));
  }

  lemma {:induction false} GroupHasNoDuplicates(items: seq<Route>, fqdn: string)
    requires NoDuplicates(items)
    ensures NoDuplicates(GroupFor(items, fqdn))
  {
    if items != [] {
      var n := |items| - 1;
      GroupHasNoDuplicates(items[..n], fqdn);
      GroupWithinList(items[..n], fqdn);
      assert items[n] !in items[..n];
    }
  }

  ghost predicate UrlsUniquePerFqdn(items: seq<Route>)
  {
    forall a, b :: a in items && b in items && a.FQDN() == b.FQDN() && a.spec.url == b.spec.url ==> a == b
  }

  lemma SameGroups(items: seq<Route>, shuffled: seq<Route>, fqdn: string)
    requires multiset(items) == multiset(shuffled)
    ensures Elements(GroupFor(items, fqdn)) == Elements(GroupFor(shuffled, fqdn))
  {
    SameMultisetSameElements(items, shuffled);
    GroupWithinList(items, fqdn);
    GroupWithinList(shuffled, fqdn);
    forall r
      ensures r in GroupFor(items, fqdn) <==> r in GroupFor(shuffled, fqdn)
    {
      assert r in Elements(items) <==> r in Elements(shuffled);
    }
  }

  lemma SameFqdns(items: seq<Route>, shuffled: seq<Route>)
    requires Elements(items) == Elements(shuffled)
    ensures FqdnsOf(items) == FqdnsOf(shuffled)
  {
    forall f
      ensures f in FqdnsOf(items) <==> f in FqdnsOf(shuffled)
    {
      if f in FqdnsOf(items) {
        var r :| r in items && r.FQDN() == f;
        assert r in Elements(items);
      }
      if f in FqdnsOf(shuffled) {
        var r :| r in shuffled && r.FQDN() == f;
        assert r in Elements(shuffled);
      }
    }
  }

  lemma RendersNonEmpty(gateways: seq<string>, vs: VirtualService, fqdn: string, group: seq<Route>)
    requires Renders(gateways, vs, fqdn, group)
    ensures group != []
  {
    var order :| order != [] && Arranges(order, group) && vs == Render(gateways, fqdn, order);
    ArrangesKeeps(order, group);
  }

  lemma SameRendering(gateways: seq<string>, items: seq<Route>, shuffled: seq<Route>, fqdn: string,
                      vs: VirtualService, vs': VirtualService)
    requires multiset(items) == multiset(shuffled) && NoDuplicates(items) && NoDuplicates(shuffled)
    requires UrlsUniquePerFqdn(items)
    requires Renders(gateways, vs, fqdn, GroupFor(items, fqdn)) && Renders(gateways, vs', fqdn, GroupFor(shuffled, fqdn))
    ensures vs == vs'
  {
    SameGroups(items, shuffled, fqdn);
    GroupWithinList(items, fqdn);
    GroupHasNoDuplicates(items, fqdn);
    GroupHasNoDuplicates(shuffled, fqdn);
    RendersNonEmpty(gateways, vs, fqdn, GroupFor(items, fqdn));
    RendersNonEmpty(gateways, vs', fqdn, GroupFor(shuffled, fqdn));
    RenderIsCanonical(gateways, vs, fqdn, GroupFor(items, fqdn));
    RenderIsCanonical(gateways, vs', fqdn, GroupFor(shuffled, fqdn));
  }

  /** Neither the order of the input list nor that of Go's map iteration shows: the verdict
      is the same for every permutation, and so is the complete output when URLs are
      distinct within each FQDN. */
  lemma BuildIsOrderIndependent(
      gateways: seq<string>, items: seq<Route>, shuffled: seq<Route>,
      fqdns: seq<string>, vss: seq<VirtualService>, fqdns': seq<string>, vss': seq<VirtualService>)
    requires multiset(items) == multiset(shuffled)
    ensures ListValid(items) <==> ListValid(shuffled)
    ensures
      && NoDuplicates(items) && UrlsUniquePerFqdn(items)
      && IsBuildOf(gateways, items, fqdns, vss) && IsBuildOf(gateways, shuffled, fqdns', vss')
      ==> vss == vss'
  {
    SameMultisetSameElements(items, shuffled);
    SameFqdns(items, shuffled);
    forall f
      ensures FqdnValid(items, f) <==> FqdnValid(shuffled, f)
    {
      SameGroups(items, shuffled, f);
    }
    if && NoDuplicates(items) && UrlsUniquePerFqdn(items)
       && IsBuildOf(gateways, items, fqdns, vss) && IsBuildOf(gateways, shuffled, fqdns', vss') {
      AscendingIsCanonical(fqdns, fqdns');
      NoDuplicatesFromMultiset(shuffled, items);
      forall i | 0 <= i < |vss|
        ensures vss[i] == vss'[i]
      {
        SameRendering(gateways, items, shuffled, fqdns[i], vss[i], vss'[i]);
      }
    }
  }

  // ---- ownership ----

  lemma OwnerRefsConcat(a: seq<Route>, b: seq<Route>)
    ensures OwnerRefs(a + b) == OwnerRefs(a) + OwnerRefs(b)
  {
  }

  lemma RemoveOccurrence(s: seq<Route>, i: nat)
    requires i < |s|
    ensures var rest := s[..i] + s[i + 1..];
      && multiset(rest) == multiset(s) - multiset{s[i]}
      && multiset(OwnerRefs(s)) == multiset(OwnerRefs(rest)) + multiset{RouteToOwnerRef(s[i])}
  {
    assert s == s[..i] + ([s[i]] + s[i + 1..]);
    OwnerRefsConcat(s[..i], [s[i]] + s[i + 1..]);
    OwnerRefsConcat([s[i]], s[i + 1..]);
    OwnerRefsConcat(s[..i], s[i + 1..]);
    assert OwnerRefs([s[i]]) == [RouteToOwnerRef(s[i])];
  }

  lemma FirstElsewhere(order: seq<Route>, group: seq<Route>) returns (i: nat)
    requires multiset(order) == multiset(group) && order != []
    ensures i < |group| && group[i] == order[0]
    ensures multiset(order[1..]) == multiset(group[..i] + group[i + 1..])
  {
    assert order[0] in multiset(group);
    i :| i < |group| && group[i] == order[0];
    assert order == [order[0]] + order[1..];
    assert multiset(order) == multiset{order[0]} + multiset(order[1..]);
    assert group == group[..i] + [group[i]] + group[i + 1..];
    assert multiset(group) == multiset(group[..i]) + multiset{group[i]} + multiset(group[i + 1..]);
    assert multiset(order[1..]) == multiset(order) - multiset{order[0]};
  }

  /** The owner references are a permutation of the group's routes. */
  lemma {:induction false} OwnersArePermuted(order: seq<Route>, group: seq<Route>)
    requires multiset(order) == multiset(group)
    ensures multiset(OwnerRefs(order)) == multiset(OwnerRefs(group))
  {
    hide OwnerRefs, RouteToOwnerRef;
    assert |multiset(order)| == |order| && |multiset(group)| == |group|;
    if order == [] {
      assert group == [];
    } else {
      var i := FirstElsewhere(order, group);
      RemoveOccurrence(order, 0);
      RemoveOccurrence(group, i);
      assert order[..0] + order[1..] == order[1..];
      OwnersArePermuted(order[1..], group[..i] + group[i + 1..]);
    }
  }

  /** A rendering names exactly the routes of its group as owners. */
  lemma OwnersOfGroup(group: set<Route>, o: OwnerReference)
    ensures o in OwnerRefs(InUrlOrder(group)) <==> exists r :: r in group && o == RouteToOwnerRef(r)
  {
    var order := InUrlOrder(group);
    InUrlOrderElements(group);
    if r :| r in group && o == RouteToOwnerRef(r) {
      assert r in Elements(order);
      var i :| 0 <= i < |order| && order[i] == r;
      assert OwnerRefs(order)[i] == o;
    }
    if o in OwnerRefs(order) {
      var i :| 0 <= i < |order| && OwnerRefs(order)[i] == o;
      assert order[i] in Elements(order);
    }
  }

  /** Every rule of a rendered VirtualService comes from one of its owners. */
  lemma {:induction false} RulesComeFromOwners(order: seq<Route>, alone: bool, rule: HttpRoute)
    requires rule in Rules(order, alone)
    ensures exists r :: r in order && rule == RuleOf(r) && RouteToOwnerRef(r) in OwnerRefs(order)
  {
    var n := |order| - 1;
    if rule in Rules(order[..n], alone) {
      RulesComeFromOwners(order[..n], alone, rule);
      var r :| r in order[..n] && rule == RuleOf(r) && RouteToOwnerRef(r) in OwnerRefs(order[..n]);
      var i :| 0 <= i < n && order[..n][i] == r;
      assert OwnerRefs(order)[i] == RouteToOwnerRef(r);
      assert order[i] in order;
    } else {
      assert OwnerRefs(order)[n] == RouteToOwnerRef(order[n]);
      assert order[n] in order;
    }
  }

  // ---- weights of rules ----

  function WeightsOf(rule: HttpRoute): (ws: seq<int>)
    ensures |ws| == |rule.destinations|
  {
    seq(|rule.destinations|, i requires 0 <= i < |rule.destinations| => rule.destinations[i].weight as int)
  }

  lemma RuleWeightsAreEmitted(r: Route)
    requires r.spec.destinations != []
    ensures WeightsOf(RuleOf(r)) == Emitted(r.spec.destinations)
  {
  }

  lemma {:induction false} RulesAreOfRoutes(order: seq<Route>, alone: bool, rule: HttpRoute)
    requires rule in Rules(order, alone)
    ensures exists r :: r in order && rule == RuleOf(r) && HasRule(r, alone)
  {
    var n := |order| - 1;
    if rule in Rules(order[..n], alone) {
      RulesAreOfRoutes(order[..n], alone, rule);
    } else {
      assert order[n] in order;
    }
  }

  /** What an accepted list makes of the weights of its rule. The total is 100 modulo 2^32
      whatever was declared. It is 100 without any modulus for default weights, and for
      explicit ones exactly when their true total exceeds 100 by what the conversion to 32
      bits takes away, in particular when each fits and the true total is 100; and this is
      exactly when they also reach Istio as declared. */
  ghost predicate WeightsTotal(destinations: seq<RouteDestination>, emitted: seq<int>)
  {
    var declared := Declared(destinations);
    && Sum(emitted) % 0x1_0000_0000 == ISTIO_EXPECTED_WEIGHT
    && (NoneSet(destinations) ==> Percentages(emitted))
    && (AllSet(destinations) ==>
          && (Sum(emitted) == ISTIO_EXPECTED_WEIGHT <==> Sum(declared) == ISTIO_EXPECTED_WEIGHT + 0x1_0000_0000 * Sum(Carries(declared)))
          && (emitted == declared && Sum(emitted) == ISTIO_EXPECTED_WEIGHT <==> Fits32(declared) && Sum(declared) == ISTIO_EXPECTED_WEIGHT))
  }

  lemma {:induction false} AcceptedWeightsTotal(destinations: seq<RouteDestination>)
    requires destinations != [] && WeightsValid(destinations)
    ensures WeightsTotal(destinations, Emitted(destinations))
  {
    hide Emitted, Declared, Carries, Fits32;
    AcceptedWeightsTotalModulo(destinations);
    assert destinations[0] in destinations;
    if NoneSet(destinations) {
      DefaultWeights(destinations);
    } else {
      EmittedTotalIff(destinations);
      ExplicitWeightsAreKept(destinations);
    }
  }

  /** Every rule of a VirtualService that was built is either the placeholder of a lone route
      without destinations or carries its route's weights, of which the exact total is known. */
  lemma RuleWeightsTotal(order: seq<Route>, rule: HttpRoute)
    requires GroupValid(Elements(order)) && rule in Rules(order, |order| == 1)
    ensures
      || (rule.destinations == PlaceholderDestinations() && |order| == 1)
      || (exists r :: r in order && r.spec.destinations != [] && rule == RuleOf(r) && WeightsTotal(r.spec.destinations, WeightsOf(rule)))
  {
    hide Rules, WeightsTotal;
    RulesAreOfRoutes(order, |order| == 1, rule);
    var r :| r in order && rule == RuleOf(r) && HasRule(r, |order| == 1);
    assert r in Elements(order) && DestinationsValid(r);
    if r.spec.destinations != [] {
      RuleWeightsAreEmitted(r);
      AcceptedWeightsTotal(r.spec.destinations);
    }
  }
}
