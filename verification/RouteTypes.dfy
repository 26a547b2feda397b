/** The Route custom resource and Go's fixed-width integers. */
module RouteTypes {

  datatype Option<+T> = None | Some(value: T)

  datatype Result<+T, +E> = Ok(value: T) | Err(error: E)

  type int64 = x: int | -0x8000_0000_0000_0000 <= x < 0x8000_0000_0000_0000

  type int32 = x: int | -0x8000_0000 <= x < 0x8000_0000

  /** Go's `int` on a 64-bit platform: addition wraps around. */
  function Wrap64(x: int): int64
  {
    (x + 0x8000_0000_0000_0000) % 0x1_0000_0000_0000_0000 - 0x8000_0000_0000_0000
  }

  /** Go's conversion `int32(x)`: the low 32 bits, read as a signed number. */
  function ToInt32(x: int): int32
  {
    (x + 0x8000_0000) % 0x1_0000_0000 - 0x8000_0000
  }

  /** `weight` is the only optional field; the CRD requires the others, `port` included. */
  datatype RouteDestination = RouteDestination(
    guid: string,
    weight: Option<int64>,
    port: int64,
    appGuid: string,
    processType: string,
    matchLabels: map<string, string>)

  datatype RouteDomain = RouteDomain(name: string, isInternal: bool)

  datatype RouteSpec = RouteSpec(
    host: string,
    path: string,
    url: string,
    domain: RouteDomain,
    destinations: seq<RouteDestination>)

  datatype ObjectMeta = ObjectMeta(
    namespace: string,
    name: string,
    uid: string,
    labels: map<string, string>)

  /** The part of a Route that the resource builders read. The lifecycle metadata that
      only the reconciler looks at (version, finalizers, deletion mark) is kept beside it,
      in `ClusterStore.StoredRoute`. */
  datatype Route = Route(kind: string, meta: ObjectMeta, spec: RouteSpec) {

    function FQDN(): string
    {
      if spec.host == "" then spec.domain.name else spec.host + "." + spec.domain.name
    }

    /** Cloud Controller's contract for the redundant `url` field. */
    predicate UrlIsFqdnAndPath()
    {
      spec.url == FQDN() + spec.path
    }
  }

  /** How a fully qualified name is spelled: the domain alone, or host, dot, domain. */
  predicate Spells(fqdn: string, host: string, domain: string)
  {
    if host == "" then fqdn == domain
    else |fqdn| == |host| + 1 + |domain| && fqdn[..|host|] == host && fqdn[|host|] == '.' && fqdn[|host| + 1..] == domain
  }

  lemma FqdnIsSpelled(r: Route)
    ensures Spells(r.FQDN(), r.spec.host, r.spec.domain.name)
  {
  }

  lemma SpelledInOneWay(f: string, g: string, host: string, domain: string)
    requires Spells(f, host, domain) && Spells(g, host, domain)
    ensures f == g
  {
    if host != "" {
      assert f == f[..|host|] + [f[|host|]] + f[|host| + 1..];
      assert g == g[..|host|] + [g[|host|]] + g[|host| + 1..];
    }
  }

  /** Two routes of one domain share their FQDN exactly when they have the same host. */
  lemma SameDomainSharesFqdnIff(a: Route, b: Route)
    requires a.spec.domain.name == b.spec.domain.name
    ensures a.FQDN() == b.FQDN() <==> a.spec.host == b.spec.host
  {
    FqdnIsSpelled(a);
    FqdnIsSpelled(b);
    if a.FQDN() == b.FQDN() && a.spec.host != "" && b.spec.host != "" {
      assert |a.spec.host| == |b.spec.host|;
      assert a.spec.host == a.FQDN()[..|a.spec.host|] == b.spec.host;
    }
  }

  /** Go's map read: a missing key yields the empty string. */
  function LabelOf(labels: map<string, string>, key: string): string
  {
    if key in labels then labels[key] else ""
  }

  /** `routes.Items`: a slice, that is a backing array and a length. */
  class RouteList {
    var items: array<Route>
    var len: nat

    ghost predicate Valid()
      reads this
    {
      len <= items.Length
    }

    ghost function Contents(): seq<Route>
      requires Valid()
      reads this, items
    {
      items[..len]
    }

    constructor (contents: seq<Route>)
      ensures Valid() && Contents() == contents && fresh(items)
    {
      items := new Route[|contents|](i requires 0 <= i < |contents| => contents[i]);
      len := |contents|;
    }
  }
}
