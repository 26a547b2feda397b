/** What the built objects must contain, field by field, in terms of the fields of the Route
    resources and of nothing else. The builders are proved against it. */
module ObjectFields {
  import opened RouteTypes
  import opened Resources

  // ---- Services ----

  predicate IsOwner(o: OwnerReference, r: Route)
  {
    && o.apiVersion == "networking.cloudfoundry.org/v1alpha1" && o.kind == r.kind
    && o.name == r.meta.name && o.uid == r.meta.uid
  }

  predicate NamesDestination(host: string, d: RouteDestination)
  {
    |host| == 2 + |d.guid| && host[0] == 's' && host[1] == '-' && host[2..] == d.guid
  }

  /** The number that is left of `x` in 32 bits. */
  predicate IsLow32(y: int32, x: int)
  {
    (y - x) % 0x1_0000_0000 == 0
  }

  predicate LabelsShow(labels: map<string, string>, r: Route, d: RouteDestination)
  {
    && labels.Keys == {"cloudfoundry.org/app_guid", "cloudfoundry.org/process_type", "cloudfoundry.org/route_guid"}
    && labels["cloudfoundry.org/app_guid"] == d.appGuid
    && labels["cloudfoundry.org/process_type"] == d.processType
    && labels["cloudfoundry.org/route_guid"] == r.meta.name
  }

  predicate AnnotationsShow(annotations: map<string, string>, r: Route)
  {
    && annotations.Keys == {"cloudfoundry.org/route-fqdn"}
    && Spells(annotations["cloudfoundry.org/route-fqdn"], r.spec.host, r.spec.domain.name)
  }

  /** The Service exposes this destination of the route. */
  predicate ServiceShows(sv: Service, r: Route, d: RouteDestination)
  {
    && sv.namespace == r.meta.namespace && NamesDestination(sv.name, d)
    && |sv.owners| == 1 && IsOwner(sv.owners[0], r)
    && LabelsShow(sv.labels, r, d) && AnnotationsShow(sv.annotations, r)
    && sv.selector == d.matchLabels
    && |sv.ports| == 1 && sv.ports[0].name == "http" && IsLow32(sv.ports[0].port, d.port)
  }

  // ---- names, owners and numbers as they are computed ----

  lemma OwnerRefIsOwner(r: Route)
    ensures IsOwner(RouteToOwnerRef(r), r)
  {
  }

  lemma ServiceNameNames(d: RouteDestination)
    ensures NamesDestination(ServiceName(d), d)
  {
  }

  lemma ToInt32IsLow32(x: int)
    ensures IsLow32(ToInt32(x), x)
  {
    var q := (x + 0x8000_0000) / 0x1_0000_0000;
    assert ToInt32(x) - x == 0x1_0000_0000 * (-q);
  }

  // ---- rules ----

  /** The value of the route's label, empty without one. */
  predicate ShowsLabel(value: string, r: Route, name: string)
  {
    if name in r.meta.labels then value == r.meta.labels[name] else value == ""
  }

  predicate HeadersShow(headers: map<string, string>, r: Route, d: RouteDestination)
  {
    && headers.Keys == {"CF-App-Id", "CF-App-Process-Type", "CF-Space-Id", "CF-Organization-Id"}
    && headers["CF-App-Id"] == d.appGuid
    && headers["CF-App-Process-Type"] == d.processType
    && ShowsLabel(headers["CF-Space-Id"], r, "cloudfoundry.org/space_guid")
    && ShowsLabel(headers["CF-Organization-Id"], r, "cloudfoundry.org/org_guid")
  }

  /** Declared weights in 32 bits; otherwise equal shares of 100, the remainder to the first. */
  predicate WeightShows(weight: int32, r: Route, i: nat)
    requires i < |r.spec.destinations|
  {
    var n := |r.spec.destinations|;
    if r.spec.destinations[i].weight.Some? then IsLow32(weight, r.spec.destinations[i].weight.value)
    else weight == 100 / n + if i == 0 then 100 % n else 0
  }

  predicate DestinationShows(hd: HttpDestination, r: Route, i: nat)
    requires i < |r.spec.destinations|
  {
    var d := r.spec.destinations[i];
    NamesDestination(hd.host, d) && HeadersShow(hd.setHeaders, r, d) && WeightShows(hd.weight, r, i)
  }

  predicate DestinationsShow(hds: seq<HttpDestination>, r: Route)
  {
    |hds| == |r.spec.destinations| && forall i :: 0 <= i < |hds| ==> DestinationShows(hds[i], r, i)
  }

  predicate IsPlaceholder(hds: seq<HttpDestination>)
  {
    |hds| == 1 && hds[0].host == "no-destinations" && hds[0].weight == 0 && hds[0].setHeaders == map[]
  }

  /** The rule is that of this route. */
  predicate RuleShows(rule: HttpRoute, r: Route)
  {
    && (rule.prefix.None? <==> r.spec.path == "") && (rule.prefix.Some? ==> rule.prefix.value == r.spec.path)
    && (if r.spec.destinations == [] then IsPlaceholder(rule.destinations) else DestinationsShow(rule.destinations, r))
  }

  // ---- VirtualServices ----

  /** The VirtualService is one for this FQDN, and such as the route asks for. */
  predicate HeadShows(vs: VirtualService, gateways: seq<string>, fqdn: string, r: Route)
  {
    && vs.namespace == r.meta.namespace && vs.name == Sha256Name(fqdn) && vs.hosts == [fqdn]
    && vs.labels == map[] && vs.annotations.Keys == {"cloudfoundry.org/fqdn"} && vs.annotations["cloudfoundry.org/fqdn"] == fqdn
    && (if r.spec.domain.isInternal then vs.gateways == ["mesh"] else vs.gateways == gateways)
  }

  ghost predicate OwnedByRoute(vs: VirtualService, r: Route)
  {
    exists i :: 0 <= i < |vs.owners| && IsOwner(vs.owners[i], r)
  }

  ghost predicate RuleFor(vs: VirtualService, r: Route)
  {
    exists i :: 0 <= i < |vs.http| && RuleShows(vs.http[i], r)
  }

  /** The VirtualService shows this route, which may be alone on its FQDN. */
  ghost predicate ShowsRoute(vs: VirtualService, gateways: seq<string>, fqdn: string, r: Route, alone: bool)
  {
    && HeadShows(vs, gateways, fqdn, r) && OwnedByRoute(vs, r)
    && (r.spec.destinations != [] || alone ==> RuleFor(vs, r))
  }

  /** How many of the routes are to have a rule: those with destinations, and a lone one. */
  function RuleCount(group: seq<Route>, alone: bool): nat
  {
    if group == [] then 0
    else RuleCount(group[1..], alone) + if group[0].spec.destinations != [] || alone then 1 else 0
  }

  ghost predicate OwnerIn(o: OwnerReference, group: seq<Route>)
  {
    exists i :: 0 <= i < |group| && IsOwner(o, group[i])
  }

  ghost predicate RuleIn(rule: HttpRoute, group: seq<Route>)
  {
    exists i :: 0 <= i < |group| && RuleShows(rule, group[i]) && (group[i].spec.destinations != [] || |group| == 1)
  }

  /** It shows all routes of the group, and nothing else. */
  ghost predicate ShowsGroup(vs: VirtualService, gateways: seq<string>, fqdn: string, group: seq<Route>)
  {
    && (forall r :: r in group ==> ShowsRoute(vs, gateways, fqdn, r, |group| == 1))
    && |vs.owners| == |group| && (forall o :: o in vs.owners ==> OwnerIn(o, group))
    && |vs.http| == RuleCount(group, |group| == 1) && (forall rule :: rule in vs.http ==> RuleIn(rule, group))
  }

  // ---- lists of routes ----

  /** The routes of the list that are served under this name, in some order. */
  ghost predicate IsGroupNamed(group: seq<Route>, items: seq<Route>, fqdn: string)
  {
    group != [] && forall r :: multiset(group)[r] == if Spells(fqdn, r.spec.host, r.spec.domain.name) then multiset(items)[r] else 0
  }

  /** Every route of the list is in the group of its name, and in no other. */
  ghost predicate GroupedByName(groups: map<string, seq<Route>>, items: seq<Route>)
  {
    && (forall f :: f in groups ==> IsGroupNamed(groups[f], items, f))
    && forall r :: r in items ==> exists f :: f in groups && Spells(f, r.spec.host, r.spec.domain.name)
  }

  ghost predicate ShowsGroupNamed(vs: VirtualService, gateways: seq<string>, fqdn: string, items: seq<Route>)
  {
    exists group :: IsGroupNamed(group, items, fqdn) && ShowsGroup(vs, gateways, fqdn, group)
  }

  ghost predicate Named(fqdns: seq<string>, r: Route)
  {
    exists i :: 0 <= i < |fqdns| && Spells(fqdns[i], r.spec.host, r.spec.domain.name)
  }

  /** One VirtualService for each name under which a route of the list is served. */
  ghost predicate ShowsList(vss: seq<VirtualService>, gateways: seq<string>, fqdns: seq<string>, items: seq<Route>)
  {
    && |vss| == |fqdns| && (forall r :: r in items ==> Named(fqdns, r))
    && (forall i, j :: 0 <= i < j < |fqdns| ==> fqdns[i] != fqdns[j])
    && forall i :: 0 <= i < |vss| ==> ShowsGroupNamed(vss[i], gateways, fqdns[i], items)
  }

  /** The two routes are served under one name but cannot be served together. */
  ghost predicate Clash(a: Route, b: Route)
  {
    && (exists f :: Spells(f, a.spec.host, a.spec.domain.name) && Spells(f, b.spec.host, b.spec.domain.name))
    && (a.meta.namespace != b.meta.namespace || a.spec.domain.isInternal != b.spec.domain.isInternal)
  }

  /** Of the destinations, some set a weight and some do not. */
  predicate MixedWeights(destinations: seq<RouteDestination>)
  {
    exists i, j :: 0 <= i < |destinations| && 0 <= j < |destinations|
                   && destinations[i].weight.Some? && destinations[j].weight.None?
  }

  /** The true total of the weights that are set. */
  function WeightSum(destinations: seq<RouteDestination>): int
  {
    if destinations == [] then 0
    else (if destinations[0].weight.Some? then destinations[0].weight.value else 0) + WeightSum(destinations[1..])
  }

  /** In 64 bits the total is 100. */
  predicate Totals100(destinations: seq<RouteDestination>)
  {
    (WeightSum(destinations) - 100) % 0x1_0000_0000_0000_0000 == 0
  }

  /** The route's weights are refused: set on some destinations only, or of another total. */
  predicate BadWeights(r: Route)
  {
    || MixedWeights(r.spec.destinations)
    || (r.spec.destinations != [] && r.spec.destinations[0].weight.Some? && !Totals100(r.spec.destinations))
  }

  /** The list cannot be built. */
  ghost predicate Refused(items: seq<Route>)
  {
    || (exists a, b :: a in items && b in items && Clash(a, b))
    || (exists r :: r in items && BadWeights(r))
  }
}
