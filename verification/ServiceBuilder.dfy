/** resourcebuilders/service_builder.go */
module ServiceBuilder {
  import opened RouteTypes
  import opened Resources
  import opened ObjectFields

  const HTTP_PORT_NAME := "http"

  /** The Service that exposes one destination of a route. */
  function DesiredService(r: Route, d: RouteDestination): Service
  {
    Service(
      r.meta.namespace,
      ServiceName(d),
      [RouteToOwnerRef(r)],
      map["cloudfoundry.org/app_guid" := d.appGuid,
          "cloudfoundry.org/process_type" := d.processType,
          "cloudfoundry.org/route_guid" := r.meta.name],
      map["cloudfoundry.org/route-fqdn" := r.FQDN()],
      d.matchLabels,
      [ServicePort(HTTP_PORT_NAME, ToInt32(d.port))])
  }

  function DesiredServiceList(r: Route): (services: seq<Service>)
    ensures |services| == |r.spec.destinations|
  {
    seq(|r.spec.destinations|, i requires 0 <= i < |r.spec.destinations| => DesiredService(r, r.spec.destinations[i]))
  }

  lemma DesiredServiceShows(r: Route, d: RouteDestination)
    ensures ServiceShows(DesiredService(r, d), r, d)
  {
    OwnerRefIsOwner(r);
    ServiceNameNames(d);
    ToInt32IsLow32(d.port);
    FqdnIsSpelled(r);
    hide IsOwner, NamesDestination, IsLow32, Spells, ToInt32, RouteToOwnerRef, ServiceName;
  }

  /** One Service for each destination, and each such as its destination asks for. */
  method Build(route: Route) returns (services: seq<Service>)
    ensures services == DesiredServiceList(route)
    ensures |services| == |route.spec.destinations|
    ensures forall i :: 0 <= i < |services| ==> ServiceShows(services[i], route, route.spec.destinations[i])
  {
    hide ServiceShows;
    services := [];
    for i := 0 to |route.spec.destinations|
      invariant services == DesiredServiceList(route)[..i]
    {
      var dest := route.spec.destinations[i];
      var labels: map<string, string>, annotations: map<string, string> := map[], map[];
      labels := labels["cloudfoundry.org/app_guid" := dest.appGuid];
      labels := labels["cloudfoundry.org/process_type" := dest.processType];
      labels := labels["cloudfoundry.org/route_guid" := route.meta.name];
      annotations := annotations["cloudfoundry.org/route-fqdn" := route.FQDN()];
      services := services + [Service(route.meta.namespace, ServiceName(dest), [RouteToOwnerRef(route)],
                                      labels, annotations, dest.matchLabels,
                                      [ServicePort(HTTP_PORT_NAME, ToInt32(dest.port))])];
    }
    forall i | 0 <= i < |services|
      ensures ServiceShows(services[i], route, route.spec.destinations[i])
    {
      DesiredServiceShows(route, route.spec.destinations[i]);
    }
  }
}
