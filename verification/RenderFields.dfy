/** The rendering of a valid group, field by field. */
module RenderFields {
  import opened RouteTypes
  import opened Resources
  import opened ObjectFields
  import opened Weights
  import opened VirtualServiceSpec

  // ---- rules ----

  lemma {:induction false} WeightSumAppend(destinations: seq<RouteDestination>, d: RouteDestination)
    ensures WeightSum(destinations + [d]) == WeightSum(destinations) + if d.weight.Some? then d.weight.value else 0
  {
    if destinations != [] {
      assert (destinations + [d])[1..] == destinations[1..] + [d];
      WeightSumAppend(destinations[1..], d);
    }
  }

  lemma {:induction false} DeclaredTotal(destinations: seq<RouteDestination>)
    ensures Sum(Declared(destinations)) == WeightSum(destinations)
  {
    if destinations != [] {
      var n := |destinations| - 1;
      DeclaredTotal(destinations[..n]);
      WeightSumAppend(destinations[..n], destinations[n]);
      assert destinations == destinations[..n] + [destinations[n]];
      assert Declared(destinations)[..n] == Declared(destinations[..n]);
    }
  }

  lemma Wraps64To100(x: int)
    ensures Wrap64(x) == 100 <==> (x - 100) % 0x1_0000_0000_0000_0000 == 0
  {
    var m := 0x1_0000_0000_0000_0000;
    var q := (x + 0x8000_0000_0000_0000) / m;
    assert Wrap64(x) == x - m * q;
    if (x - 100) % m == 0 {
      var k := (x - 100) / m;
      assert x - 100 == m * k;
      assert x + 0x8000_0000_0000_0000 == m * k + (100 + 0x8000_0000_0000_0000);
      assert q == k;
    } else {
      assert Wrap64(x) == 100 ==> x - 100 == m * q;
    }
  }

  /** Accepted means: no destination differs from another in whether it sets a weight, and set
      weights total 100 in 64 bits. */
  lemma WeightsValidIff(destinations: seq<RouteDestination>)
    ensures WeightsValid(destinations) <==>
      && !MixedWeights(destinations)
      && (destinations != [] && destinations[0].weight.Some? ==> Totals100(destinations))
  {
    DeclaredTotal(destinations);
    Wraps64To100(WeightSum(destinations));
    hide Wrap64, Sum, Declared, WeightSum;
    if MixedWeights(destinations) {
      var i, j :| 0 <= i < |destinations| && 0 <= j < |destinations|
        && destinations[i].weight.Some? && destinations[j].weight.None?;
      assert destinations[i] in destinations && destinations[j] in destinations;
    } else if destinations != [] {
      assert destinations[0] in destinations;
      forall d | d in destinations
        ensures d.weight.Some? == destinations[0].weight.Some?
      {
        var k :| 0 <= k < |destinations| && destinations[k] == d;
      }
    }
  }

  lemma EmittedWeightShows(r: Route, i: nat)
    requires i < |r.spec.destinations| && WeightsValid(r.spec.destinations)
    ensures WeightShows(EmittedWeight(r.spec.destinations, i), r, i)
  {
    var ds := r.spec.destinations;
    var n := |ds|;
    assert ds[0] in ds && ds[i] in ds;
    if ds[i].weight.Some? {
      ToInt32IsLow32(ds[i].weight.value);
    } else {
      ShareOf100(n);
    }
  }

  lemma HeadersOfDestination(r: Route, i: nat)
    requires i < |r.spec.destinations|
    ensures HeadersShow(DestinationFor(r, i).setHeaders, r, r.spec.destinations[i])
  {
    hide EmittedWeight;
  }

  lemma DestinationForShows(r: Route, i: nat)
    requires i < |r.spec.destinations| && WeightsValid(r.spec.destinations)
    ensures DestinationShows(DestinationFor(r, i), r, i)
  {
    hide EmittedWeight, HeadersShow, WeightShows;
    ServiceNameNames(r.spec.destinations[i]);
    EmittedWeightShows(r, i);
    HeadersOfDestination(r, i);
  }

  lemma DestinationsForShow(r: Route)
    requires r.spec.destinations != [] && DestinationsValid(r)
    ensures DestinationsShow(DestinationsFor(r), r)
  {
    hide DestinationShows, DestinationFor, WeightsValid;
    forall i | 0 <= i < |r.spec.destinations|
      ensures DestinationShows(DestinationsFor(r)[i], r, i)
    {
      DestinationForShows(r, i);
    }
  }

  lemma RuleOfShows(r: Route)
    requires DestinationsValid(r)
    ensures RuleShows(RuleOf(r), r)
  {
    hide DestinationsShow, DestinationsFor, WeightsValid;
    if r.spec.destinations != [] {
      DestinationsForShow(r);
    }
  }

  // ---- whole VirtualServices ----

  lemma HeadOfRendering(gateways: seq<string>, fqdn: string, order: seq<Route>, r: Route)
    requires r in order && GroupValid(Elements(order))
    ensures HeadShows(Render(gateways, fqdn, order), gateways, fqdn, r)
  {
    hide Rules, OwnerRefs, DestinationsValid;
    assert order[0] in Elements(order) && r in Elements(order);
    assert Agree(order[0], r);
  }

  ghost predicate RuleOfOne(rule: HttpRoute, order: seq<Route>, alone: bool)
  {
    exists i :: 0 <= i < |order| && RuleShows(rule, order[i]) && HasRule(order[i], alone)
  }

  ghost predicate OneIsRuleOf(rules: seq<HttpRoute>, r: Route)
  {
    exists i :: 0 <= i < |rules| && RuleShows(rules[i], r)
  }

  lemma RuleOfOneMore(rule: HttpRoute, order: seq<Route>, r: Route, alone: bool)
    requires RuleOfOne(rule, order, alone) || (RuleShows(rule, r) && HasRule(r, alone))
    ensures RuleOfOne(rule, order + [r], alone)
  {
    hide RuleShows;
    var longer := order + [r];
    if RuleOfOne(rule, order, alone) {
      var i :| 0 <= i < |order| && RuleShows(rule, order[i]) && HasRule(order[i], alone);
      assert longer[i] == order[i];
    } else {
      assert longer[|order|] == r;
    }
  }

  lemma {:induction false} RulesAreOfRoutes(order: seq<Route>, alone: bool, rule: HttpRoute)
    requires forall r :: r in order ==> DestinationsValid(r)
    requires rule in Rules(order, alone)
    ensures RuleOfOne(rule, order, alone)
  {
    hide RuleOf, RuleShows, DestinationsValid, RuleOfOne;
    var n := |order| - 1;
    assert order == order[..n] + [order[n]] && order[n] in order;
    if rule in Rules(order[..n], alone) {
      RulesAreOfRoutes(order[..n], alone, rule);
    } else {
      RuleOfShows(order[n]);
    }
    RuleOfOneMore(rule, order[..n], order[n], alone);
  }

  lemma {:induction false} RoutesHaveRules(order: seq<Route>, alone: bool, r: Route)
    requires r in order && DestinationsValid(r) && HasRule(r, alone)
    ensures OneIsRuleOf(Rules(order, alone), r)
  {
    hide RuleOf, RuleShows, DestinationsValid;
    var n := |order| - 1;
    var before, now := Rules(order[..n], alone), Rules(order, alone);
    if r in order[..n] {
      RoutesHaveRules(order[..n], alone, r);
      var i :| 0 <= i < |before| && RuleShows(before[i], r);
      assert now[i] == before[i];
    } else {
      assert order == order[..n] + [order[n]];
      RuleOfShows(r);
      assert now[|now| - 1] == RuleOf(r);
    }
  }

  lemma {:induction false} RuleCountAppend(group: seq<Route>, r: Route, alone: bool)
    ensures RuleCount(group + [r], alone) == RuleCount(group, alone) + if HasRule(r, alone) then 1 else 0
  {
    if group != [] {
      assert (group + [r])[1..] == group[1..] + [r];
      RuleCountAppend(group[1..], r, alone);
    }
  }

  lemma {:induction false} RulesAreCounted(order: seq<Route>, alone: bool)
    ensures |Rules(order, alone)| == RuleCount(order, alone)
  {
    if order != [] {
      var n := |order| - 1;
      RulesAreCounted(order[..n], alone);
      RuleCountAppend(order[..n], order[n], alone);
      assert order == order[..n] + [order[n]];
    }
  }

  lemma OwnersShow(order: seq<Route>)
    ensures forall o :: o in OwnerRefs(order) ==> OwnerIn(o, order)
    ensures forall r :: r in order ==> exists i :: 0 <= i < |OwnerRefs(order)| && IsOwner(OwnerRefs(order)[i], r)
  {
    hide IsOwner, RouteToOwnerRef;
    forall o | o in OwnerRefs(order)
      ensures OwnerIn(o, order)
    {
      var i :| 0 <= i < |order| && OwnerRefs(order)[i] == o;
      OwnerRefIsOwner(order[i]);
      assert IsOwner(o, order[i]);
    }
    forall r | r in order
      ensures exists i :: 0 <= i < |OwnerRefs(order)| && IsOwner(OwnerRefs(order)[i], r)
    {
      var i :| 0 <= i < |order| && order[i] == r;
      OwnerRefIsOwner(r);
      assert IsOwner(OwnerRefs(order)[i], r);
    }
  }

  /** Whatever the order, the rendering of a valid group shows all its routes and nothing else. */
  lemma RenderShowsGroup(gateways: seq<string>, fqdn: string, order: seq<Route>)
    requires order != [] && GroupValid(Elements(order))
    ensures ShowsGroup(Render(gateways, fqdn, order), gateways, fqdn, order)
  {
    hide Rules, RuleShows, HeadShows, IsOwner, DestinationsValid, RuleCount, Agree;
    var vs, alone := Render(gateways, fqdn, order), |order| == 1;
    forall r | r in order
      ensures DestinationsValid(r) && HeadShows(vs, gateways, fqdn, r) && (HasRule(r, alone) ==> OneIsRuleOf(vs.http, r))
    {
      assert r in Elements(order);
      HeadOfRendering(gateways, fqdn, order, r);
      if HasRule(r, alone) {
        RoutesHaveRules(order, alone, r);
      }
    }
    forall rule | rule in vs.http
      ensures RuleOfOne(rule, order, alone)
    {
      RulesAreOfRoutes(order, alone, rule);
    }
    RulesAreCounted(order, alone);
    OwnersShow(order);
  }
}
