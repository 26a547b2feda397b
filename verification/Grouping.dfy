/** Grouping a list of routes by FQDN, and when a whole list can be built. */
module Grouping {
  import opened RouteTypes
  import opened Resources
  import opened GoStrings
  import opened ObjectFields
  import opened Weights
  import opened VirtualServiceSpec
  import opened RenderFields

  // ---- groups ----

  lemma GroupAppend(items: seq<Route>, route: Route, fqdn: string)
    ensures GroupFor(items + [route], fqdn) == GroupFor(items, fqdn) + if route.FQDN() == fqdn then [route] else []
  {
    assert (items + [route])[..|items|] == items;
  }

  lemma FqdnsAppend(items: seq<Route>, route: Route)
    ensures FqdnsOf(items + [route]) == FqdnsOf(items) + {route.FQDN()}
  {
    var longer := items + [route];
    forall f
      ensures f in FqdnsOf(longer) <==> f in FqdnsOf(items) || f == route.FQDN()
    {
      if f in FqdnsOf(items) {
        var r :| r in items && r.FQDN() == f;
        assert r in longer;
      }
      assert route in longer;
    }
  }

  lemma {:induction false} GroupWithinList(items: seq<Route>, fqdn: string)
    ensures forall r :: r in GroupFor(items, fqdn) <==> r in items && r.FQDN() == fqdn
  {
    if items != [] {
      var n := |items| - 1;
      GroupWithinList(items[..n], fqdn);
      assert items == items[..n] + [items[n]];
    }
  }

  lemma GroupIsEmptyIff(items: seq<Route>, fqdn: string)
    ensures GroupFor(items, fqdn) == [] <==> fqdn !in FqdnsOf(items)
  {
    hide GroupFor;
    GroupWithinList(items, fqdn);
    var group := GroupFor(items, fqdn);
    assert group != [] ==> group[0] in group;
    if fqdn in FqdnsOf(items) {
      var r :| r in items && r.FQDN() == fqdn;
      assert r in group;
    }
  }

  lemma GroupingNone()
    ensures IsGrouping(map[], [])
  {
  }

  lemma GroupingStep(fqdns: map<string, seq<Route>>, items: seq<Route>, route: Route)
    requires IsGrouping(fqdns, items)
    ensures var n := route.FQDN();
      IsGrouping(fqdns[n := (if n in fqdns then fqdns[n] else []) + [route]], items + [route])
  {
    hide GroupFor, FqdnsOf;
    var n, longer := route.FQDN(), items + [route];
    FqdnsAppend(items, route);
    if n !in fqdns {
      GroupIsEmptyIff(items, n);
    }
    forall f | f in FqdnsOf(longer)
      ensures GroupFor(longer, f) == GroupFor(items, f) + if n == f then [route] else []
    {
      GroupAppend(items, route, f);
    }
  }

  lemma ExplainsMore(e: BuildError, items: seq<Route>, fqdn: string)
    requires Explains(e, Elements(GroupFor(items, fqdn)))
    ensures Explains(e, Elements(items))
  {
    GroupWithinList(items, fqdn);
  }

  lemma {:induction false} GroupCounts(items: seq<Route>, fqdn: string, r: Route)
    ensures multiset(GroupFor(items, fqdn))[r] == if r.FQDN() == fqdn then multiset(items)[r] else 0
  {
    if items != [] {
      var n := |items| - 1;
      GroupCounts(items[..n], fqdn, r);
      assert items == items[..n] + [items[n]];
    }
  }

  lemma SpelledIff(r: Route, fqdn: string)
    ensures Spells(fqdn, r.spec.host, r.spec.domain.name) <==> r.FQDN() == fqdn
  {
    FqdnIsSpelled(r);
    if Spells(fqdn, r.spec.host, r.spec.domain.name) {
      SpelledInOneWay(fqdn, r.FQDN(), r.spec.host, r.spec.domain.name);
    }
  }

  /** A group is exactly the routes served under its name. */
  lemma GroupIsNamed(items: seq<Route>, fqdn: string)
    requires fqdn in FqdnsOf(items)
    ensures IsGroupNamed(GroupFor(items, fqdn), items, fqdn)
  {
    hide GroupFor, FqdnsOf;
    GroupIsEmptyIff(items, fqdn);
    forall r
      ensures multiset(GroupFor(items, fqdn))[r] == if Spells(fqdn, r.spec.host, r.spec.domain.name) then multiset(items)[r] else 0
    {
      GroupCounts(items, fqdn, r);
      SpelledIff(r, fqdn);
    }
  }

  /** Two routes of one domain fall in one group only if they have the same host. */
  lemma OneDomainOneHost(group: seq<Route>, items: seq<Route>, fqdn: string, a: Route, b: Route)
    requires IsGroupNamed(group, items, fqdn) && a in group && b in group && a.spec.domain.name == b.spec.domain.name
    ensures a.spec.host == b.spec.host
  {
    assert a in multiset(group) && b in multiset(group);
    SpelledIff(a, fqdn);
    SpelledIff(b, fqdn);
    SameDomainSharesFqdnIff(a, b);
  }

  // ---- validity ----

  lemma BadWeightsIff(r: Route)
    ensures DestinationsValid(r) <==> !BadWeights(r)
  {
    WeightsValidIff(r.spec.destinations);
  }

  lemma GroupValidIff(group: set<Route>)
    ensures GroupValid(group) <==>
      && (forall a, b :: a in group && b in group ==>
            a.meta.namespace == b.meta.namespace && a.spec.domain.isInternal == b.spec.domain.isInternal)
      && (forall r :: r in group ==> !BadWeights(r))
  {
    hide WeightsValid, BadWeights;
    forall r | r in group
      ensures DestinationsValid(r) <==> !BadWeights(r)
    {
      BadWeightsIff(r);
    }
    if GroupValid(group) {
      forall a, b | a in group && b in group
        ensures a.meta.namespace == b.meta.namespace && a.spec.domain.isInternal == b.spec.domain.isInternal
      {
        assert Agree(a, b);
      }
    }
  }

  lemma ClashIsInvalid(items: seq<Route>, a: Route, b: Route)
    requires a in items && b in items && Clash(a, b)
    ensures !ListValid(items)
  {
    hide GroupFor, DestinationsValid;
    var f :| Spells(f, a.spec.host, a.spec.domain.name) && Spells(f, b.spec.host, b.spec.domain.name);
    SpelledIff(a, f);
    SpelledIff(b, f);
    GroupWithinList(items, f);
    assert a in Elements(GroupFor(items, f)) && b in Elements(GroupFor(items, f));
    GroupValidIff(Elements(GroupFor(items, f)));
    assert f in FqdnsOf(items) && !FqdnValid(items, f);
  }

  lemma BadWeightsAreInvalid(items: seq<Route>, r: Route)
    requires r in items && BadWeights(r)
    ensures !ListValid(items)
  {
    hide GroupFor, BadWeights;
    var f := r.FQDN();
    GroupWithinList(items, f);
    assert r in Elements(GroupFor(items, f));
    GroupValidIff(Elements(GroupFor(items, f)));
    assert f in FqdnsOf(items) && !FqdnValid(items, f);
  }

  lemma InvalidIsRefused(items: seq<Route>, f: string)
    requires f in FqdnsOf(items) && !FqdnValid(items, f)
    ensures Refused(items)
  {
    hide GroupFor, BadWeights;
    var group := Elements(GroupFor(items, f));
    GroupWithinList(items, f);
    GroupValidIff(group);
    forall r | r in group
      ensures r in items && Spells(f, r.spec.host, r.spec.domain.name)
    {
      SpelledIff(r, f);
    }
    if a, b :| && a in group && b in group
               && (a.meta.namespace != b.meta.namespace || a.spec.domain.isInternal != b.spec.domain.isInternal) {
      assert Clash(a, b);
    }
  }

  /** A list is refused exactly when two of its routes clash or one has bad weights. */
  lemma ListValidIff(items: seq<Route>)
    ensures ListValid(items) <==> !Refused(items)
  {
    hide BadWeights, Clash, FqdnValid, FqdnsOf;
    if a, b :| a in items && b in items && Clash(a, b) {
      ClashIsInvalid(items, a, b);
    } else if r :| r in items && BadWeights(r) {
      BadWeightsAreInvalid(items, r);
    }
    if !ListValid(items) {
      var f :| f in FqdnsOf(items) && !FqdnValid(items, f);
      InvalidIsRefused(items, f);
    }
  }

  // ---- what is built ----

  lemma RenderingShowsGroup(gateways: seq<string>, items: seq<Route>, fqdn: string, vs: VirtualService)
    requires fqdn in FqdnsOf(items) && FqdnValid(items, fqdn) && Renders(gateways, vs, fqdn, GroupFor(items, fqdn))
    ensures ShowsGroupNamed(vs, gateways, fqdn, items)
  {
    hide GroupFor, FqdnsOf, Render, ShowsGroup, GroupValid;
    var order :| order != [] && Arranges(order, GroupFor(items, fqdn)) && vs == Render(gateways, fqdn, order);
    ArrangesKeeps(order, GroupFor(items, fqdn));
    RenderShowsGroup(gateways, fqdn, order);
    GroupIsNamed(items, fqdn);
    assert IsGroupNamed(order, items, fqdn);
  }

  lemma AscendingIsDistinct(fqdns: seq<string>)
    requires StrictlyAscending(fqdns)
    ensures NoDuplicates(fqdns)
  {
    forall i, j | 0 <= i < j < |fqdns|
      ensures fqdns[i] != fqdns[j]
    {
      LessIrreflexive(fqdns[i]);
    }
  }

  lemma RoutesAreNamed(fqdns: seq<string>, items: seq<Route>)
    requires Elements(fqdns) == FqdnsOf(items)
    ensures forall r :: r in items ==> Named(fqdns, r)
  {
    forall r | r in items
      ensures Named(fqdns, r)
    {
      assert r.FQDN() in FqdnsOf(items);
      var i :| 0 <= i < |fqdns| && fqdns[i] == r.FQDN();
      FqdnIsSpelled(r);
    }
  }

  /** What a successful build returns, without reference to how it is rendered. */
  lemma BuildShowsList(gateways: seq<string>, items: seq<Route>, fqdns: seq<string>, vss: seq<VirtualService>)
    requires ListValid(items) && IsBuildOf(gateways, items, fqdns, vss)
    ensures ShowsList(vss, gateways, fqdns, items)
  {
    hide FqdnsOf, FqdnValid, Renders, ShowsGroupNamed, Named, GroupFor;
    AscendingIsDistinct(fqdns);
    RoutesAreNamed(fqdns, items);
    forall i | 0 <= i < |vss|
      ensures ShowsGroupNamed(vss[i], gateways, fqdns[i], items)
    {
      assert fqdns[i] in Elements(fqdns);
      RenderingShowsGroup(gateways, items, fqdns[i], vss[i]);
    }
  }

  lemma GroupingIsNamed(groups: map<string, seq<Route>>, items: seq<Route>)
    requires IsGrouping(groups, items)
    ensures GroupedByName(groups, items)
  {
    hide GroupFor, IsGroupNamed, Spells;
    forall f | f in groups
      ensures IsGroupNamed(groups[f], items, f)
    {
      GroupIsNamed(items, f);
    }
    forall r | r in items
      ensures exists f :: f in groups && Spells(f, r.spec.host, r.spec.domain.name)
    {
      FqdnIsSpelled(r);
      assert r.FQDN() in FqdnsOf(items);
    }
  }

  /** All groups have been built. */
  lemma AllBuilt(gateways: seq<string>, items: seq<Route>, fqdns: seq<string>, vss: seq<VirtualService>)
    requires StrictlyAscending(fqdns) && Elements(fqdns) == FqdnsOf(items) && |vss| == |fqdns|
    requires forall i :: 0 <= i < |fqdns| ==> FqdnValid(items, fqdns[i]) && Renders(gateways, vss[i], fqdns[i], GroupFor(items, fqdns[i]))
    ensures ListValid(items) && !Refused(items)
    ensures IsBuildOf(gateways, items, fqdns, vss) && ShowsList(vss, gateways, fqdns, items)
  {
    hide FqdnValid, Renders, GroupFor, Refused, ShowsList, FqdnsOf;
    forall f | f in FqdnsOf(items)
      ensures FqdnValid(items, f)
    {
      assert f in Elements(fqdns);
    }
    ListValidIff(items);
    BuildShowsList(gateways, items, fqdns, vss);
  }

  /** One has not. */
  lemma OneRefused(items: seq<Route>, fqdn: string)
    requires fqdn in FqdnsOf(items) && !FqdnValid(items, fqdn)
    ensures !ListValid(items) && Refused(items)
  {
    hide FqdnValid, FqdnsOf, Refused;
    ListValidIff(items);
  }
}
