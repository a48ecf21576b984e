/**
  The request path of the proxy: the path multiplexer, the decision chain
  that turns a Host header into exactly one outcome, and the tagging of a
  forwarded response. The upstream round trip is a function argument
  `forward`, from the target to what came back (a response or a transport
  failure); the clock is the integer `now`.
 */
module Proxy {
  import opened Text
  import opened Types
  import opened HostParsing
  import opened Resolvers
  import opened Configuration

  /** Response header fields: each name carries its list of values. */
  type Header = map<string, seq<string>>

  const ServiceHeader := "X-Proxy-Service"
  const NamespaceHeader := "X-Proxy-Namespace"
  const TargetHeader := "X-Proxy-Target"

  const StatusOK := 200
  const StatusBadRequest := 400
  const StatusNotFound := 404
  const StatusBadGateway := 502
  const StatusServiceUnavailable := 503

  const InvalidHostMessage := "Invalid hostname format"
  const NotFoundMessage := "Service not found"
  const UnavailableMessage := "Service unavailable"
  const BadGatewayMessage := "Service temporarily unavailable"

  /** What the upstream round trip produced. */
  datatype Upstream =
    | Responded(status: int, header: Header)
    | TransportFailed(reason: string)

  /** The body of the /routes listing. */
  datatype RoutesListing = RoutesListing(
    baseDomain: string,
    defaultEnv: string,
    allowedNamespaces: seq<string>,
    patterns: seq<string>)

  /** What a request ends in. */
  datatype Response =
    | HealthReply(timestamp: int)
    | RoutesReply(listing: RoutesListing)
    | ErrorReply(status: int, message: string)
    | Forwarded(target: TargetUrl, status: int, header: Header)

  function Status(r: Response): int
  {
    match r
    case HealthReply(_) => StatusOK
    case RoutesReply(_) => StatusOK
    case ErrorReply(status, _) => status
    case Forwarded(_, status, _) => status
  }

  /** The configuration part of the /routes listing and the two accepted hostname shapes. */
  function Listing(config: Config): RoutesListing
  {
    RoutesListing(config.baseDomain, config.defaultEnv, config.allowedNamespaces,
      ["{service}.{namespace}.svc.{env}.{base_domain}", "{service}.{namespace}.{domain}"])
  }

  /** The upstream header after the three tagging fields are set. Setting a field
      replaces whatever values it had with exactly one. */
  function Tagged(h: Header, route: RouteInfo, target: TargetUrl): (r: Header)
    ensures r.Keys == h.Keys + {ServiceHeader, NamespaceHeader, TargetHeader}
    ensures r[ServiceHeader] == [route.service]
    ensures r[NamespaceHeader] == [route.namespace]
    ensures r[TargetHeader] == [Render(target)]
    ensures forall k :: k in h && k != ServiceHeader && k != NamespaceHeader && k != TargetHeader ==> r[k] == h[k]
  {
    h[ServiceHeader := [route.service]][NamespaceHeader := [route.namespace]][TargetHeader := [Render(target)]]
  }

  /** A response's header, which the response hook edits in place. */
  class ResponseHeader {
    var fields: Header

    constructor (fields: Header)
      ensures this.fields == fields
    {
      this.fields := fields;
    }

    /** Header.Set: `key` now carries the single value `value`; no other field changes. */
    method Set(key: string, value: string)
      modifies this
      ensures fields == old(fields)[key := [value]]
    {
      fields := fields[key := [value]];
    }
  }

  /** The response hook of the reverse proxy: tags the upstream response with the route and the target. */
  method ModifyResponse(header: ResponseHeader, route: RouteInfo, target: TargetUrl)
    modifies header
    ensures header.fields == Tagged(old(header.fields), route, target)
  {
    header.Set(ServiceHeader, route.service);
    header.Set(NamespaceHeader, route.namespace);
    header.Set(TargetHeader, Render(target));
  }

  /** The outcome of the proxy handler for a decoded route: the checks run in a fixed
      order, validity, health namespace, resolution, health flag, forwarding. */
  function Dispatch(route: RouteInfo, resolver: Resolver, now: int, forward: TargetUrl -> Upstream): Response
  {
    if !route.isValid then ErrorReply(StatusBadRequest, InvalidHostMessage)
    else if route.namespace == "health" then HealthReply(now)
    else
      match Resolve(resolver, route, now)
      case Err(_) => ErrorReply(StatusNotFound, NotFoundMessage)
      case Ok(info) =>
        if !info.healthy then ErrorReply(StatusServiceUnavailable, UnavailableMessage)
        else
          match forward(info.targetUrl)
          case TransportFailed(_) => ErrorReply(StatusBadGateway, BadGatewayMessage)
          case Responded(status, header) => Forwarded(info.targetUrl, status, Tagged(header, route, info.targetUrl))
  }

  /** The server's collaborators, fixed at start-up. */
  datatype Server = Server(config: Config, parser: HostParser, resolver: Resolver)

  datatype Endpoint = HealthEndpoint | RoutesEndpoint | ProxyEndpoint

  /** The path multiplexer: two health paths, the listing, and everything else to the proxy. */
  function Mux(path: string): Endpoint
  {
    if path == "/health" || path == "/healthz" then HealthEndpoint
    else if path == "/routes" then RoutesEndpoint
    else ProxyEndpoint
  }

  /** The proxy handler: decodes the Host header, then returns at the first check that fails. */
  method ProxyHandler(s: Server, host: string, now: int, forward: TargetUrl -> Upstream) returns (response: Response)
    ensures response == Dispatch(Decode(host, s.parser.defaultEnv, s.parser.allowedNamespaces), s.resolver, now, forward)
  {
    var route := s.parser.ParseHostname(host);
    if !route.isValid {
      response := ErrorReply(StatusBadRequest, InvalidHostMessage);
      return;
    }
    if route.namespace == "health" {
      response := HealthReply(now);
      return;
    }
    var resolved := ResolveService(s.resolver, route, now);
    if resolved.Err? {
      response := ErrorReply(StatusNotFound, NotFoundMessage);
      return;
    }
    var info := resolved.value;
    if !info.healthy {
      response := ErrorReply(StatusServiceUnavailable, UnavailableMessage);
      return;
    }
    var target := info.targetUrl;
    match forward(target) {
      case TransportFailed(_) =>
        response := ErrorReply(StatusBadGateway, BadGatewayMessage);
      case Responded(status, fields) =>
        var header := new ResponseHeader(fields);
        ModifyResponse(header, route, target);
        response := Forwarded(target, status, header.fields);
    }
  }

  /** Serves one request: the path picks the handler, the Host header the route. */
  method Handle(s: Server, path: string, host: string, now: int, forward: TargetUrl -> Upstream) returns (response: Response)
    ensures Mux(path) == HealthEndpoint ==> response == HealthReply(now)
    ensures Mux(path) == RoutesEndpoint ==> response == RoutesReply(Listing(s.config))
    ensures Mux(path) == ProxyEndpoint ==>
              response == Dispatch(Decode(host, s.parser.defaultEnv, s.parser.allowedNamespaces), s.resolver, now, forward)
  {
    match Mux(path) {
      case HealthEndpoint =>
        response := HealthReply(now);
      case RoutesEndpoint =>
        response := RoutesReply(Listing(s.config));
      case ProxyEndpoint =>
        response := ProxyHandler(s, host, now, forward);
    }
  }

  /** An invalid route is answered 400 whatever the resolver and the upstream would have done. */
  lemma InvalidRouteRejected(route: RouteInfo, r1: Resolver, r2: Resolver, now: int, f1: TargetUrl -> Upstream, f2: TargetUrl -> Upstream)
    requires !route.isValid
    ensures Dispatch(route, r1, now, f1) == ErrorReply(400, "Invalid hostname format")
    ensures Dispatch(route, r1, now, f1) == Dispatch(route, r2, now, f2)
  {
  }

  /** A valid route into the `health` namespace gets the health reply without resolution or forwarding. */
  lemma HealthNamespaceShortCircuit(route: RouteInfo, r1: Resolver, r2: Resolver, now: int, f1: TargetUrl -> Upstream, f2: TargetUrl -> Upstream)
    requires route.isValid && route.namespace == "health"
    ensures Dispatch(route, r1, now, f1) == HealthReply(now) == Dispatch(route, r2, now, f2)
    ensures Status(Dispatch(route, r1, now, f1)) == 200
  {
  }

  /** The allow-list runs before the health check: with a non-empty allow-list lacking `health`,
      no hostname reaches the health reply through the proxy handler. */
  lemma DisallowedHealthRejected(host: string, defaultEnv: string, allowed: seq<string>, resolver: Resolver, now: int, forward: TargetUrl -> Upstream)
    requires |allowed| > 0 && "health" !in allowed
    ensures !Dispatch(Decode(host, defaultEnv, allowed), resolver, now, forward).HealthReply?
  {
    AllowListDecides(host, defaultEnv, allowed);
  }

  /** Any well-formed hostname whose second segment is `health` is a health probe when no allow-list is set. */
  lemma {:induction false} HealthProbeHost(parts: seq<string>, defaultEnv: string, resolver: Resolver, now: int, forward: TargetUrl -> Upstream)
    requires DotFree(parts) && |parts| >= 3 && parts[1] == "health"
    ensures Dispatch(Decode(Join(parts, '.'), defaultEnv, []), resolver, now, forward) == HealthReply(now)
  {
    HostPartsOfJoin(parts);
  }

  /** Each request ends in exactly one outcome, decided by the first check that fails, in the fixed order. */
  lemma DispatchOutcome(route: RouteInfo, resolver: Resolver, now: int, forward: TargetUrl -> Upstream)
    ensures var d, res := Dispatch(route, resolver, now, forward), Resolve(resolver, route, now);
            && (d == ErrorReply(400, "Invalid hostname format") <==> !route.isValid)
            && (d.HealthReply? <==> route.isValid && route.namespace == "health")
            && (d == ErrorReply(404, "Service not found")
                <==> route.isValid && route.namespace != "health" && res.Err?)
            && (d == ErrorReply(503, "Service unavailable")
                <==> route.isValid && route.namespace != "health" && res.Ok? && !res.value.healthy)
            && (d == ErrorReply(502, "Service temporarily unavailable")
                <==> route.isValid && route.namespace != "health" && res.Ok? && res.value.healthy
                     && forward(res.value.targetUrl).TransportFailed?)
            && (d.Forwarded?
                <==> route.isValid && route.namespace != "health" && res.Ok? && res.value.healthy
                     && forward(res.value.targetUrl).Responded?)
  {
  }

  /** A forwarded response goes to the resolved target, keeps the upstream status and fields,
      and carries the route and the rendered target in the three tagging fields. */
  lemma ForwardedTagging(route: RouteInfo, resolver: Resolver, now: int, forward: TargetUrl -> Upstream)
    requires Dispatch(route, resolver, now, forward).Forwarded?
    ensures var d, res := Dispatch(route, resolver, now, forward), Resolve(resolver, route, now);
            && res.Ok? && d.target == res.value.targetUrl
            && forward(d.target).Responded? && d.status == forward(d.target).status
            && d.header["X-Proxy-Service"] == [route.service]
            && d.header["X-Proxy-Namespace"] == [route.namespace]
            && d.header["X-Proxy-Target"] == [Render(d.target)]
            && forall k :: k in forward(d.target).header && k !in {ServiceHeader, NamespaceHeader, TargetHeader} ==>
                 k in d.header && d.header[k] == forward(d.target).header[k]
  {
  }

  /** Both resolvers mark every resolution healthy, so the 503 outcome never occurs. */
  lemma NeverUnavailable(route: RouteInfo, resolver: Resolver, now: int, forward: TargetUrl -> Upstream)
    ensures Dispatch(route, resolver, now, forward) != ErrorReply(503, "Service unavailable")
  {
  }

  /** Tagging twice with the same route and target is the same as tagging once. */
  lemma TaggingIdempotent(h: Header, route: RouteInfo, target: TargetUrl)
    ensures Tagged(Tagged(h, route, target), route, target) == Tagged(h, route, target)
  {
  }

  /** The X-Proxy-Target field names the target unambiguously. */
  lemma TargetFieldIdentifiesTarget(h1: Header, r1: RouteInfo, t1: TargetUrl, h2: Header, r2: RouteInfo, t2: TargetUrl)
    requires Tagged(h1, r1, t1)[TargetHeader] == Tagged(h2, r2, t2)[TargetHeader]
    ensures t1 == t2
  {
    RenderInjective(t1, t2);
  }
}
