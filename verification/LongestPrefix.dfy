/** Istio takes the first rule that matches; Cloud Foundry promises the longest path
    prefix. This module proves that the URL sort makes the two coincide. */
module LongestPrefix {
  import opened RouteTypes
  import opened Resources
  import opened GoStrings
  import opened VirtualServiceSpec

  // ---- Istio's reading of a rule list ----

  predicate RuleMatches(rule: HttpRoute, path: string)
  {
    rule.prefix.None? || rule.prefix.value <= path
  }

  function FirstMatch(http: seq<HttpRoute>, path: string): Option<HttpRoute>
  {
    if http == [] then None
    else if RuleMatches(http[0], path) then Some(http[0])
    else FirstMatch(http[1..], path)
  }

  // ---- Cloud Foundry's reading of a group of routes ----

  /** The route can answer: it has a rule and its path is a prefix of the request's. */
  predicate Serves(r: Route, alone: bool, path: string)
  {
    HasRule(r, alone) && r.spec.path <= path
  }

  ghost predicate IsLongestMatch(r: Route, group: set<Route>, path: string)
  {
    var alone := |group| == 1;
    && r in group && Serves(r, alone, path)
    && forall s :: s in group && Serves(s, alone, path) ==> |s.spec.path| <= |r.spec.path|
  }

  // ---- first match on the rules of an ordered list ----

  ghost predicate IsFirstServing(order: seq<Route>, alone: bool, path: string, i: nat)
  {
    && i < |order| && Serves(order[i], alone, path)
    && forall j :: 0 <= j < i ==> !Serves(order[j], alone, path)
  }

  lemma {:induction false} FirstMatchAppend(http: seq<HttpRoute>, rule: HttpRoute, path: string)
    ensures FirstMatch(http + [rule], path) ==
      if FirstMatch(http, path).Some? then FirstMatch(http, path) else if RuleMatches(rule, path) then Some(rule) else None
  {
    if http != [] {
      assert (http + [rule])[1..] == http[1..] + [rule];
      FirstMatchAppend(http[1..], rule, path);
    }
  }

  ghost function FirstServer(order: seq<Route>, alone: bool, path: string): Option<Route>
  {
    if order == [] then None else
      var n := |order| - 1;
      var earlier := FirstServer(order[..n], alone, path);
      if earlier.Some? then earlier else if Serves(order[n], alone, path) then Some(order[n]) else None
  }

  /** The rules replay the list: the first matching rule is that of the first route that
      serves the request, and no rule matches when no route does. */
  lemma {:induction false} FirstMatchOfRules(order: seq<Route>, alone: bool, path: string)
    ensures FirstMatch(Rules(order, alone), path) ==
      match FirstServer(order, alone, path) case None => None case Some(r) => Some(RuleOf(r))
  {
    if order != [] {
      var n := |order| - 1;
      FirstMatchOfRules(order[..n], alone, path);
      if HasRule(order[n], alone) {
        FirstMatchAppend(Rules(order[..n], alone), RuleOf(order[n]), path);
      } else {
        assert Rules(order, alone) == Rules(order[..n], alone);
      }
    }
  }

  lemma {:induction false} FirstServerIsFirst(order: seq<Route>, alone: bool, path: string)
    ensures match FirstServer(order, alone, path)
      case None => forall r :: r in order ==> !Serves(r, alone, path)
      case Some(r) => exists i: nat :: IsFirstServing(order, alone, path, i) && order[i] == r
  {
    if order != [] {
      var n := |order| - 1;
      var init := order[..n];
      FirstServerIsFirst(init, alone, path);
      if FirstServer(init, alone, path).Some? {
        var i: nat :| IsFirstServing(init, alone, path, i) && init[i] == FirstServer(init, alone, path).value;
        assert IsFirstServing(order, alone, path, i);
      } else {
        assert forall j :: 0 <= j < n ==> init[j] in init && order[j] == init[j];
        assert Serves(order[n], alone, path) ==> IsFirstServing(order, alone, path, n);
      }
    }
  }

  // ---- when first match is longest match ----

  ghost predicate FirstIsLongest(order: seq<Route>, alone: bool, path: string)
  {
    forall i: nat, j: nat :: IsFirstServing(order, alone, path, i) && j < |order| && Serves(order[j], alone, path) ==>
      |order[j].spec.path| <= |order[i].spec.path|
  }

  /** Route `j` comes too late: an earlier route `i` has a shorter path that is a prefix of
      its own, and no route with the same path comes before `i`. */
  ghost predicate Shadowed(order: seq<Route>, alone: bool, i: nat, j: nat)
  {
    && i < j < |order| && HasRule(order[i], alone) && HasRule(order[j], alone)
    && order[i].spec.path < order[j].spec.path
    && forall k :: 0 <= k < i && HasRule(order[k], alone) ==> order[k].spec.path != order[j].spec.path
  }

  lemma PrefixesOfOnePathCompare(shorter: string, longer: string, path: string)
    requires shorter <= path && longer <= path && |shorter| < |longer|
    ensures shorter < longer
  {
    assert shorter == path[..|shorter|] == longer[..|shorter|];
  }

  lemma ShorterFirstIsShadowing(order: seq<Route>, alone: bool, path: string, i: nat, j: nat)
    requires IsFirstServing(order, alone, path, i) && j < |order| && Serves(order[j], alone, path)
    ensures |order[i].spec.path| < |order[j].spec.path| ==> Shadowed(order, alone, i, j)
  {
    if |order[i].spec.path| < |order[j].spec.path| {
      PrefixesOfOnePathCompare(order[i].spec.path, order[j].spec.path, path);
    }
  }

  lemma {:induction false} FirstServingExists(order: seq<Route>, alone: bool, path: string, j: nat) returns (i: nat)
    requires j < |order| && Serves(order[j], alone, path)
    ensures i <= j && IsFirstServing(order, alone, path, i)
  {
    i := 0;
    while !Serves(order[i], alone, path)
      invariant i <= j
      invariant forall k :: 0 <= k < i ==> !Serves(order[k], alone, path)
      decreases j - i
    {
      i := i + 1;
    }
  }

  /** Whatever the URLs say: a list of rules answers every request with the longest match
      if and only if no route is shadowed by an earlier one. */
  lemma {:induction false} LongestMatchIffUnshadowed(order: seq<Route>, alone: bool)
    ensures (forall path :: FirstIsLongest(order, alone, path)) <==>
            (forall i: nat, j: nat :: !Shadowed(order, alone, i, j))
  {
    if i: nat, j: nat :| Shadowed(order, alone, i, j) {
      var path := order[j].spec.path;
      var first := FirstServingExists(order, alone, path, i);
      assert |order[first].spec.path| < |path| && Serves(order[j], alone, path);
      assert !FirstIsLongest(order, alone, path);
    } else {
      forall path, i: nat, j: nat | IsFirstServing(order, alone, path, i) && j < |order| && Serves(order[j], alone, path)
        ensures |order[j].spec.path| <= |order[i].spec.path|
      {
        ShorterFirstIsShadowing(order, alone, path, i, j);
      }
    }
  }

  lemma ExtensionHasGreaterUrl(r: Route, s: Route)
    requires r.UrlIsFqdnAndPath() && s.UrlIsFqdnAndPath() && r.FQDN() == s.FQDN()
    ensures r.spec.path < s.spec.path ==> UrlGreater(s, r)
  {
    if r.spec.path < s.spec.path {
      ExtensionIsGreater(r.FQDN(), r.spec.path, s.spec.path);
    }
  }

  /** The descending URL sort leaves no route shadowed, as every URL is the common FQDN
      followed by the route's path. */
  lemma UrlSortUnshadows(order: seq<Route>, alone: bool, fqdn: string)
    requires SortedByUrl(order)
    requires forall r :: r in order ==> r.UrlIsFqdnAndPath() && r.FQDN() == fqdn
    ensures forall i: nat, j: nat :: !Shadowed(order, alone, i, j)
  {
    forall i: nat, j: nat
      ensures !Shadowed(order, alone, i, j)
    {
      if i < j < |order| {
        ExtensionHasGreaterUrl(order[i], order[j]);
        assert !UrlGreater(order[j], order[i]);
      }
    }
  }

  /** First match equals longest match. For any routes of one FQDN and any request path,
      the first matching rule of the rendered VirtualService is that of a route with the
      longest matching path; no rule matches only if no route can serve the request. */
  lemma FirstMatchIsLongestMatch(gateways: seq<string>, fqdn: string, group: seq<Route>, order: seq<Route>, path: string)
    requires group != [] && NoDuplicates(group) && Arranges(order, group) && order != []
    requires forall r :: r in group ==> r.UrlIsFqdnAndPath() && r.FQDN() == fqdn
    ensures match FirstMatch(Render(gateways, fqdn, order).http, path)
      case None => forall r :: r in group ==> !Serves(r, |group| == 1, path)
      case Some(rule) => exists r :: IsLongestMatch(r, Elements(group), path) && rule == RuleOf(r)
  {
    var alone := |order| == 1;
    ArrangesKeeps(order, group);
    ElementsCount(group);
    forall r
      ensures r in order <==> r in group
    {
      assert r in Elements(order) <==> r in Elements(group);
    }
    FirstMatchOfRules(order, alone, path);
    FirstServerIsFirst(order, alone, path);
    UrlSortUnshadows(order, alone, fqdn);
    LongestMatchIffUnshadowed(order, alone);
    if FirstServer(order, alone, path).Some? {
      var i: nat :| IsFirstServing(order, alone, path, i) && order[i] == FirstServer(order, alone, path).value;
      assert FirstIsLongest(order, alone, path);
      assert IsLongestMatch(order[i], Elements(group), path);
    }
  }

  /** With distinct URLs there is only one longest match, so the answer is a function of
      the set of routes. */
  lemma LongestMatchIsUnique(group: set<Route>, fqdn: string, path: string, a: Route, b: Route)
    requires UrlsUnique(group)
    requires forall r :: r in group ==> r.UrlIsFqdnAndPath() && r.FQDN() == fqdn
    requires IsLongestMatch(a, group, path) && IsLongestMatch(b, group, path)
    ensures a == b
  {
    assert a.spec.path == path[..|a.spec.path|] == b.spec.path;
  }

  lemma {:induction false} RulesEmptyIff(order: seq<Route>, alone: bool)
    ensures Rules(order, alone) == [] <==> forall r :: r in order ==> !HasRule(r, alone)
  {
    if order != [] {
      var n := |order| - 1;
      RulesEmptyIff(order[..n], alone);
      assert order == order[..n] + [order[n]];
    }
  }

  /** Two or more routes on one FQDN, none with destinations: the VirtualService has no rule
      at all, and in no other case. */
  lemma {:induction false} NoRulesIff(order: seq<Route>)
    ensures order != [] ==> (Rules(order, |order| == 1) == [] <==> |order| > 1 && forall r :: r in order ==> r.spec.destinations == [])
  {
    RulesEmptyIff(order, |order| == 1);
    if |order| == 1 {
      assert order[0] in order;
    }
  }
}
