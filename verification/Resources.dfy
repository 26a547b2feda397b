/** The Kubernetes and Istio objects that the controller writes, restricted to the
    fields that its mutate functions assign. */
module Resources {
  import opened RouteTypes

  const API_VERSION := "networking.cloudfoundry.org/v1alpha1"

  datatype OwnerReference = OwnerReference(apiVersion: string, kind: string, name: string, uid: string)

  function RouteToOwnerRef(r: Route): OwnerReference
  {
    OwnerReference(API_VERSION, r.kind, r.meta.name, r.meta.uid)
  }

  datatype ServicePort = ServicePort(name: string, port: int32)

  datatype Service = Service(
    namespace: string,
    name: string,
    owners: seq<OwnerReference>,
    labels: map<string, string>,
    annotations: map<string, string>,
    selector: map<string, string>,
    ports: seq<ServicePort>)

  /** `vs-` followed by the SHA-256 digest of the FQDN. A free constructor: the digest is
      assumed collision free and nothing else is known about it. */
  datatype VsName = Sha256Name(fqdn: string)

  function VirtualServiceName(fqdn: string): VsName
  {
    Sha256Name(fqdn)
  }

  datatype HttpDestination = HttpDestination(
    host: string,
    weight: int32,
    setHeaders: map<string, string>)

  /** `prefix` is None when the rule has no match clause, so that it matches every request. */
  datatype HttpRoute = HttpRoute(prefix: Option<string>, destinations: seq<HttpDestination>)

  datatype VirtualService = VirtualService(
    namespace: string,
    name: VsName,
    owners: seq<OwnerReference>,
    labels: map<string, string>,
    annotations: map<string, string>,
    hosts: seq<string>,
    gateways: seq<string>,
    http: seq<HttpRoute>)

  function ServiceName(dest: RouteDestination): string
  {
    "s-" + dest.guid
  }

  const PLACEHOLDER_NON_EXISTING_DESTINATION := "no-destinations"

  lemma {:induction false} ServiceNamesAreInjective(d: RouteDestination, e: RouteDestination)
    requires ServiceName(d) == ServiceName(e)
    ensures d.guid == e.guid
  {
    assert d.guid == ServiceName(d)[2..] && e.guid == ServiceName(e)[2..];
  }

  /** A Service can never answer for the placeholder host. */
  lemma PlaceholderIsNoService(d: RouteDestination)
    ensures ServiceName(d) != PLACEHOLDER_NON_EXISTING_DESTINATION
  {
    assert ServiceName(d)[0] == 's' && PLACEHOLDER_NON_EXISTING_DESTINATION[0] == 'n';
  }
}
