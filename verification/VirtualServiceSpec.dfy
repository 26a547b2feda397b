/** What a VirtualService for one FQDN must look like, given its routes in the order
    that the URL sort produced. */
module VirtualServiceSpec {
  import opened RouteTypes
  import opened Resources
  import opened GoStrings
  import opened Weights

  const MESH_INTERNAL_GATEWAY := "mesh"

  datatype BuildError =
    | DomainsDisagree(first: Route, other: Route)
    | NamespacesDisagree(first: Route, other: Route)
    | WeightsOnAllOrNone(route: Route)
    | WeightsTotal(route: Route)

  // ---- validity of a group ----

  predicate Agree(a: Route, b: Route)
  {
    a.spec.domain.isInternal == b.spec.domain.isInternal && a.meta.namespace == b.meta.namespace
  }

  predicate DestinationsValid(r: Route)
  {
    r.spec.destinations != [] ==> WeightsValid(r.spec.destinations)
  }

  /** A group of routes that share an FQDN can be served: every pair agrees on namespace and
      internal flag, and every non-empty destination list has acceptable weights. */
  ghost predicate GroupValid(group: set<Route>)
  {
    && (forall a, b :: a in group && b in group ==> Agree(a, b))
    && (forall r :: r in group ==> DestinationsValid(r))
  }

  ghost function Elements<T>(s: seq<T>): set<T>
  {
    set x | x in s
  }

  /** An error names routes of the group that really violate the rule. */
  ghost predicate Explains(e: BuildError, group: set<Route>)
  {
    match e
    case DomainsDisagree(a, b) => a in group && b in group && a.spec.domain.isInternal != b.spec.domain.isInternal
    case NamespacesDisagree(a, b) => a in group && b in group && a.meta.namespace != b.meta.namespace
    case WeightsOnAllOrNone(r) => r in group && !NoneSet(r.spec.destinations) && !AllSet(r.spec.destinations)
    case WeightsTotal(r) =>
      && r in group && AllSet(r.spec.destinations)
      && Wrap64(Sum(Declared(r.spec.destinations))) != ISTIO_EXPECTED_WEIGHT
  }

  // ---- the rules ----

  function DestinationFor(r: Route, i: nat): HttpDestination
    requires i < |r.spec.destinations|
  {
    var d := r.spec.destinations[i];
    HttpDestination(
      ServiceName(d),
      EmittedWeight(r.spec.destinations, i),
      map["CF-App-Id" := d.appGuid,
          "CF-App-Process-Type" := d.processType,
          "CF-Space-Id" := LabelOf(r.meta.labels, "cloudfoundry.org/space_guid"),
          "CF-Organization-Id" := LabelOf(r.meta.labels, "cloudfoundry.org/org_guid")])
  }

  function DestinationsFor(r: Route): (ds: seq<HttpDestination>)
    ensures |ds| == |r.spec.destinations|
  {
    seq(|r.spec.destinations|, i requires 0 <= i < |r.spec.destinations| => DestinationFor(r, i))
  }

  function PlaceholderDestinations(): seq<HttpDestination>
  {
    [HttpDestination(PLACEHOLDER_NON_EXISTING_DESTINATION, 0, map[])]
  }

  function PrefixOf(r: Route): Option<string>
  {
    if r.spec.path == "" then None else Some(r.spec.path)
  }

  function RuleOf(r: Route): HttpRoute
  {
    HttpRoute(PrefixOf(r), if r.spec.destinations == [] then PlaceholderDestinations() else DestinationsFor(r))
  }

  /** A route without destinations gives no rule, unless it is alone on its FQDN. */
  predicate HasRule(r: Route, alone: bool)
  {
    r.spec.destinations != [] || alone
  }

  function Rules(order: seq<Route>, alone: bool): seq<HttpRoute>
  {
    if order == [] then [] else
      var n := |order| - 1;
      Rules(order[..n], alone) + if HasRule(order[n], alone) then [RuleOf(order[n])] else []
  }

  function OwnerRefs(order: seq<Route>): (owners: seq<OwnerReference>)
    ensures |owners| == |order|
  {
    seq(|order|, i requires 0 <= i < |order| => RouteToOwnerRef(order[i]))
  }

  function Render(gateways: seq<string>, fqdn: string, order: seq<Route>): VirtualService
    requires order != []
  {
    VirtualService(
      order[0].meta.namespace,
      VirtualServiceName(fqdn),
      OwnerRefs(order),
      map[],
      map["cloudfoundry.org/fqdn" := fqdn],
      [fqdn],
      if order[0].spec.domain.isInternal then [MESH_INTERNAL_GATEWAY] else gateways,
      Rules(order, |order| == 1))
  }

  // ---- the order ----

  predicate UrlGreater(a: Route, b: Route)
  {
    Less(b.spec.url, a.spec.url)
  }

  predicate SortedByUrl(s: seq<Route>)
  {
    forall i, j :: 0 <= i < j < |s| ==> !UrlGreater(s[j], s[i])
  }

  /** All that an unstable sort promises. */
  ghost predicate Arranges(order: seq<Route>, group: seq<Route>)
  {
    multiset(order) == multiset(group) && SortedByUrl(order)
  }

  ghost predicate Renders(gateways: seq<string>, vs: VirtualService, fqdn: string, group: seq<Route>)
  {
    exists order :: order != [] && Arranges(order, group) && vs == Render(gateways, fqdn, order)
  }

  lemma ArrangesKeeps(order: seq<Route>, group: seq<Route>)
    requires multiset(order) == multiset(group)
    ensures |order| == |group| && Elements(order) == Elements(group)
  {
    assert |multiset(order)| == |order| && |multiset(group)| == |group|;
    forall r
      ensures r in order <==> r in group
    {
      assert r in order <==> r in multiset(order);
      assert r in group <==> r in multiset(group);
    }
  }

  // ---- canonical order ----

  ghost predicate UrlsUnique(group: set<Route>)
  {
    forall a, b :: a in group && b in group && a.spec.url == b.spec.url ==> a == b
  }

  ghost predicate IsGreatest(r: Route, group: set<Route>)
  {
    r in group && forall s :: s in group ==> !UrlGreater(s, r)
  }

  lemma {:induction false} GreatestExists(group: set<Route>)
    requires group != {}
    ensures exists r :: IsGreatest(r, group)
  {
    var r :| r in group;
    var rest := group - {r};
    if rest == {} {
      forall s | s in group
        ensures !UrlGreater(s, r)
      {
        assert s !in rest;
        LessIrreflexive(r.spec.url);
      }
      assert IsGreatest(r, group);
    } else {
      GreatestExists(rest);
      var m :| IsGreatest(m, rest);
      var best := if UrlGreater(r, m) then r else m;
      forall s | s in group
        ensures !UrlGreater(s, best)
      {
        LessIrreflexive(r.spec.url);
        if s != r {
          assert s in rest && !UrlGreater(s, m);
          if UrlGreater(r, m) && UrlGreater(s, r) {
            LessTransitive(m.spec.url, r.spec.url, s.spec.url);
          }
        }
      }
      assert IsGreatest(best, group);
    }
  }

  /** The routes of a group in descending URL order. */
  ghost function InUrlOrder(group: set<Route>): (order: seq<Route>)
    ensures |order| == |group|
  {
    if group == {} then [] else
      GreatestExists(group);
      var r :| IsGreatest(r, group);
      [r] + InUrlOrder(group - {r})
  }

  lemma InUrlOrderUnfold(group: set<Route>)
    requires group != {}
    ensures var r := InUrlOrder(group)[0];
      IsGreatest(r, group) && InUrlOrder(group) == [r] + InUrlOrder(group - {r})
  {
    GreatestExists(group);
  }

  lemma {:induction false} InUrlOrderElements(group: set<Route>)
    ensures Elements(InUrlOrder(group)) == group
  {
    if group != {} {
      InUrlOrderUnfold(group);
      var r := InUrlOrder(group)[0];
      InUrlOrderElements(group - {r});
      assert Elements([r] + InUrlOrder(group - {r})) == {r} + Elements(InUrlOrder(group - {r}));
    }
  }

  ghost predicate NoDuplicates<T>(s: seq<T>)
  {
    forall i, j :: 0 <= i < j < |s| ==> s[i] != s[j]
  }

  lemma TailElements<T>(s: seq<T>)
    requires s != [] && NoDuplicates(s)
    ensures Elements(s[1..]) == Elements(s) - {s[0]} && NoDuplicates(s[1..])
  {
    assert s == [s[0]] + s[1..];
    assert s[0] !in s[1..];
  }

  lemma {:induction false} ElementsCount<T>(s: seq<T>)
    requires NoDuplicates(s)
    ensures |Elements(s)| == |s|
  {
    if s != [] {
      TailElements(s);
      ElementsCount(s[1..]);
    }
  }

  lemma GreatestIsFirst(order: seq<Route>, r: Route)
    requires order != [] && SortedByUrl(order) && IsGreatest(r, Elements(order)) && UrlsUnique(Elements(order))
    ensures order[0] == r
  {
    assert order[0] in Elements(order) && r in Elements(order);
    LessTotal(order[0].spec.url, r.spec.url);
    var i :| 0 <= i < |order| && order[i] == r;
    if i > 0 {
      assert !UrlGreater(order[i], order[0]);
    }
  }

  /** When URLs are distinct, sorting is canonical: every descending arrangement of the
      same routes is the same list. */
  lemma {:induction false} SortIsCanonical(order: seq<Route>, group: set<Route>)
    requires UrlsUnique(group)
    requires SortedByUrl(order) && NoDuplicates(order) && Elements(order) == group
    ensures order == InUrlOrder(group)
  {
    if order != [] {
      assert order[0] in group;
      InUrlOrderUnfold(group);
      GreatestIsFirst(order, InUrlOrder(group)[0]);
      TailElements(order);
      SortIsCanonical(order[1..], group - {order[0]});
    }
  }

  lemma ElementsSnoc<T>(s: seq<T>, x: T)
    ensures Elements(s + [x]) == Elements(s) + {x}
  {
  }

  ghost predicate IsOrderOf<T>(list: seq<T>, s: set<T>)
  {
    NoDuplicates(list) && Elements(list) == s
  }

  /** Every finite set can be listed. */
  lemma {:induction false} SomeOrder<T>(s: set<T>) returns (list: seq<T>)
    ensures IsOrderOf(list, s)
  {
    if s == {} {
      list := [];
    } else {
      var x :| x in s;
      var rest := SomeOrder(s - {x});
      list := rest + [x];
      assert x !in Elements(rest);
      ElementsSnoc(rest, x);
    }
  }

  lemma {:induction false} InUrlOrderIsSorted(group: set<Route>)
    ensures SortedByUrl(InUrlOrder(group)) && NoDuplicates(InUrlOrder(group))
  {
    if group != {} {
      InUrlOrderUnfold(group);
      var r := InUrlOrder(group)[0];
      var rest := InUrlOrder(group - {r});
      InUrlOrderIsSorted(group - {r});
      InUrlOrderElements(group - {r});
      assert InUrlOrder(group) == [r] + rest;
      forall j | 0 <= j < |rest|
        ensures rest[j] != r && !UrlGreater(rest[j], r)
      {
        assert rest[j] in Elements(rest);
      }
    }
  }

  lemma {:induction false} NoDuplicatesCount<T>(t: seq<T>, x: T)
    requires NoDuplicates(t)
    ensures multiset(t)[x] <= 1
  {
    if t != [] {
      NoDuplicatesCount(t[1..], x);
      assert t == [t[0]] + t[1..];
      if x == t[0] {
        assert x !in t[1..];
      }
    }
  }

  lemma NoDuplicatesFromMultiset<T>(s: seq<T>, t: seq<T>)
    requires multiset(s) == multiset(t) && NoDuplicates(t)
    ensures NoDuplicates(s)
  {
    forall i, j | 0 <= i < j < |s|
      ensures s[i] != s[j]
    {
      if s[i] == s[j] {
        assert s == s[..i] + [s[i]] + s[i + 1..j] + [s[j]] + s[j + 1..];
        assert multiset(s)[s[i]] >= 2;
        NoDuplicatesCount(t, s[i]);
        assert false;
      }
    }
  }

  // ---- grouping ----

  function FqdnsOf(items: seq<Route>): set<string>
  {
    set r | r in items :: r.FQDN()
  }

  /** The routes of one FQDN, in list order. */
  function GroupFor(items: seq<Route>, fqdn: string): seq<Route>
  {
    if items == [] then [] else
      var n := |items| - 1;
      GroupFor(items[..n], fqdn) + if items[n].FQDN() == fqdn then [items[n]] else []
  }

  ghost predicate IsGrouping(groups: map<string, seq<Route>>, items: seq<Route>)
  {
    groups.Keys == FqdnsOf(items) && forall f :: f in groups ==> groups[f] == GroupFor(items, f)
  }

  ghost predicate StrictlyAscending(s: seq<string>)
  {
    forall i, j :: 0 <= i < j < |s| ==> Less(s[i], s[j])
  }

  ghost predicate FqdnValid(items: seq<Route>, fqdn: string)
  {
    GroupValid(Elements(GroupFor(items, fqdn)))
  }

  /** Every FQDN group of the list is valid. */
  ghost predicate ListValid(items: seq<Route>)
  {
    forall f :: f in FqdnsOf(items) ==> FqdnValid(items, f)
  }

  /** What a successful build returns: exactly one VirtualService for each FQDN of the list,
      FQDNs ascending, each rendering all routes of its group. */
  ghost predicate IsBuildOf(gateways: seq<string>, items: seq<Route>, fqdns: seq<string>, vss: seq<VirtualService>)
  {
    && StrictlyAscending(fqdns) && Elements(fqdns) == FqdnsOf(items) && |vss| == |fqdns|
    && forall i :: 0 <= i < |vss| ==> Renders(gateways, vss[i], fqdns[i], GroupFor(items, fqdns[i]))
  }
}
