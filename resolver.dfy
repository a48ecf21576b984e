/**
  The service resolvers. The cluster resolver turns a route into a target
  from the service's first declared port; the development stand-in always
  targets http://localhost:3000. The cluster's service lookup is a plain
  function argument and the clock is the integer `now`, in seconds.
 */
module Resolvers {
  import opened Text
  import opened Types

  /** One declared port of a cluster service. */
  datatype ServicePort = ServicePort(name: string, port: int)

  /** What the cluster answers when asked for a service by namespace and name. */
  datatype Lookup = Found(ports: seq<ServicePort>) | LookupFailed(reason: string)

  /** The two interchangeable resolvers: the cluster-backed one, carrying the
      service lookup `getService(namespace, name)`, and the development stand-in. */
  datatype Resolver =
    | Cluster(getService: (string, string) -> Lookup)
    | Mock

  /** Freshness window of a resolution: five minutes. */
  const TtlSeconds := 300

  const MockTarget := TargetUrl(Http, "localhost", 3000)

  function ClusterHostName(service: string, namespace: string): string
  {
    service + "." + namespace + ".svc.cluster.local"
  }

  /** Target derived from a service's declared ports: port 80 over http when there is
      none, else the first port, over https when that port is 443 or named "https". */
  function ClusterTarget(route: RouteInfo, ports: seq<ServicePort>): TargetUrl
  {
    var target := TargetUrl(Http, ClusterHostName(route.service, route.namespace), 80);
    if |ports| > 0 then
      var port := ports[0].port;
      var target := target.(port := port);
      if port == 443 || ports[0].name == "https" then target.(scheme := Https) else target
    else target
  }

  /** A healthy resolution of `route` to `target`, checked at `now` and fresh for five minutes. */
  function Fresh(route: RouteInfo, target: TargetUrl, now: int): ServiceRecord
  {
    ServiceRecord(route.service, route.namespace, target, true, now, now + TtlSeconds)
  }

  /** ResolveService of either resolver, as a value. */
  function Resolve(resolver: Resolver, route: RouteInfo, now: int): Result<ServiceRecord, string>
  {
    match resolver
    case Cluster(getService) =>
      (match getService(route.namespace, route.service)
       case LookupFailed(reason) => Err("service not found: " + reason)
       case Found(ports) => Ok(Fresh(route, ClusterTarget(route, ports), now)))
    case Mock => Ok(Fresh(route, MockTarget, now))
  }

  /** Whether a health check of the service finds it: the lookup succeeds (always, for the stand-in). */
  function Reachable(resolver: Resolver, service: string, namespace: string): bool
  {
    match resolver
    case Cluster(getService) => getService(namespace, service).Found?
    case Mock => true
  }

  /** Resolves a route into a newly allocated ServiceInfo, or fails with no ServiceInfo at all. */
  method ResolveService(resolver: Resolver, route: RouteInfo, now: int) returns (result: Result<ServiceInfo, string>)
    ensures result.Err? <==> Resolve(resolver, route, now).Err?
    ensures result.Err? ==> result.error == Resolve(resolver, route, now).error
    ensures result.Ok? ==> fresh(result.value) && result.value.Record() == Resolve(resolver, route, now).value
  {
    match Resolve(resolver, route, now)
    case Err(e) =>
      result := Err(e);
    case Ok(record) =>
      var info := new ServiceInfo(record);
      result := Ok(info);
  }

  /** Re-checks a service the caller owns: overwrites its check time and health
      flag, returns the new flag and leaves every other field as it was. */
  method HealthCheck(resolver: Resolver, info: ServiceInfo, now: int) returns (healthy: bool)
    modifies info
    ensures healthy == Reachable(resolver, old(info.service), old(info.namespace))
    ensures info.Record() == old(info.Record()).(healthy := healthy, lastCheck := now)
  {
    match resolver {
      case Cluster(getService) =>
        var answer := getService(info.namespace, info.service);
        info.lastCheck := now;
        info.healthy := answer.Found?;
      case Mock =>
        info.lastCheck := now;
        info.healthy := true;
    }
    healthy := info.healthy;
  }

  /** A failed lookup fails the resolution; a successful one never does. */
  lemma ClusterResolutionFails(getService: (string, string) -> Lookup, route: RouteInfo, now: int)
    ensures Resolve(Cluster(getService), route, now).Err?
        <==> getService(route.namespace, route.service).LookupFailed?
  {
  }

  /** Every successful resolution echoes the route, is healthy, checked now and fresh for five minutes. */
  lemma ResolutionIsFresh(resolver: Resolver, route: RouteInfo, now: int)
    requires Resolve(resolver, route, now).Ok?
    ensures var info := Resolve(resolver, route, now).value;
            && info.service == route.service && info.namespace == route.namespace
            && info.healthy && info.lastCheck == now && info.ttl == now + 5 * 60
  {
  }

  /** Without declared ports the target is http on port 80 of the cluster-internal host name. */
  lemma NoPortsTarget(route: RouteInfo)
    ensures Render(ClusterTarget(route, []))
         == "http://" + route.service + "." + route.namespace + ".svc.cluster.local:80"
  {
    assert IntText(80) == "80" by {
      assert NatText(8) == "8";
    }
  }

  /** Only the first declared port counts: the target is that port of the cluster-internal host name. */
  lemma FirstPortTarget(route: RouteInfo, ports: seq<ServicePort>)
    requires |ports| > 0
    ensures var t := ClusterTarget(route, ports);
            && HostPort(t) == route.service + "." + route.namespace + ".svc.cluster.local:" + IntText(ports[0].port)
            && t == ClusterTarget(route, ports[..1])
  {
  }

  /** The scheme is https exactly when the first declared port is 443 or is named "https". */
  lemma HttpsIff(route: RouteInfo, ports: seq<ServicePort>)
    ensures ClusterTarget(route, ports).scheme == Https
        <==> |ports| > 0 && (ports[0].port == 443 || ports[0].name == "https")
  {
  }

  /** The stand-in never fails, ignores which service is asked for beyond echoing it,
      and always targets http://localhost:3000. */
  lemma MockResolution(route: RouteInfo, now: int)
    ensures Resolve(Mock, route, now) == Ok(Fresh(route, MockTarget, now))
    ensures Render(MockTarget) == "http://localhost:3000"
  {
    assert IntText(3000) == "3000" by {
      assert NatText(3) == "3";
      assert NatText(30) == "30";
      assert NatText(300) == "300";
    }
  }

  /** A service on port 8443 named "https" is reached over https on that port. */
  lemma NamedHttpsPortExample()
    ensures ClusterTarget(RouteInfo("checkout", "orders", "", "", true), [ServicePort("https", 8443)])
         == TargetUrl(Https, "checkout.orders.svc.cluster.local", 8443)
  {
  }
}
