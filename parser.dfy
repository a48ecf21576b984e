/**
  The hostname decoder: turns a Host header into a route, preferring the
  pattern `{service}.{namespace}.svc.{env}.{base...}` and falling back to
  `{service}.{namespace}.{domain...}`, then applies the namespace allow-list.
 */
module HostParsing {
  import opened Text
  import opened Types

  /** The first segment with its `:port` suffix removed: the text before its first colon. */
  function StripPort(segment: string): (r: string)
    ensures ':' !in r && r <= segment
    ensures |r| < |segment| ==> segment[|r|] == ':'
  {
    SplitFirstPiece(segment, ':');
    if ':' in segment then Split(segment, ':')[0] else segment
  }

  /** The dot-separated segments of a hostname, only the first one stripped of its port. */
  function HostParts(hostname: string): (parts: seq<string>)
    ensures |parts| == Count(hostname, '.') + 1
    ensures parts[0] == StripPort(Split(hostname, '.')[0])
    ensures parts[1..] == Split(hostname, '.')[1..]
  {
    SplitCount(hostname, '.');
    var parts := Split(hostname, '.');
    parts[0 := StripPort(parts[0])]
  }

  /** Structural decoding of the segments, before the allow-list is consulted. */
  function MatchPattern(parts: seq<string>, defaultEnv: string): RouteInfo
  {
    if |parts| < 3 then InvalidRoute
    else if |parts| >= 5 && parts[2] == "svc" then
      RouteInfo(parts[0], parts[1], parts[3], Join(parts[4..], '.'), true)
    else
      RouteInfo(parts[0], parts[1], defaultEnv, Join(parts[2..], '.'), true)
  }

  /** A non-empty allow-list invalidates a valid route whose namespace is not exactly one of its entries. */
  function ApplyAllowList(route: RouteInfo, allowed: seq<string>): RouteInfo
  {
    if route.isValid && |allowed| > 0 && route.namespace !in allowed then route.(isValid := false)
    else route
  }

  /** What ParseHostname returns for `hostname` under a default env and an allow-list. */
  function Decode(hostname: string, defaultEnv: string, allowed: seq<string>): RouteInfo
  {
    ApplyAllowList(MatchPattern(HostParts(hostname), defaultEnv), allowed)
  }

  /** The configured decoder. Its fields are set once and never change. */
  class HostParser {
    const baseDomain: string
    const defaultEnv: string
    const allowedNamespaces: seq<string>

    constructor (baseDomain: string, defaultEnv: string, allowedNamespaces: seq<string>)
      ensures this.baseDomain == baseDomain && this.defaultEnv == defaultEnv
      ensures this.allowedNamespaces == allowedNamespaces
    {
      this.baseDomain := baseDomain;
      this.defaultEnv := defaultEnv;
      this.allowedNamespaces := allowedNamespaces;
    }

    /** Decodes a Host header; the configured base domain plays no part. */
    method ParseHostname(hostname: string) returns (route: RouteInfo)
      ensures route == Decode(hostname, defaultEnv, allowedNamespaces)
    {
      var parts := Split(hostname, '.');
      if ':' in parts[0] {
        parts := parts[0 := Split(parts[0], ':')[0]];
      }
      route := RouteInfo("", "", "", "", false);
      if |parts| < 3 {
        return;
      }
      if |parts| >= 5 && parts[2] == "svc" {
        route := route.(service := parts[0]);
        route := route.(namespace := parts[1]);
        route := route.(env := parts[3]);
        route := route.(baseDomain := Join(parts[4..], '.'));
        route := route.(isValid := true);
      } else if |parts| >= 3 {
        route := route.(service := parts[0]);
        route := route.(namespace := parts[1]);
        route := route.(env := defaultEnv);
        route := route.(baseDomain := Join(parts[2..], '.'));
        route := route.(isValid := true);
      }
      if route.isValid && |allowedNamespaces| > 0 {
        var allowed := false;
        for i := 0 to |allowedNamespaces|
          invariant !allowed
          invariant route.namespace !in allowedNamespaces[..i]
        {
          if allowedNamespaces[i] == route.namespace {
            allowed := true;
            break;
          }
        }
        if !allowed {
          route := route.(isValid := false);
        }
      }
    }
  }

  /** The parser is never changed by parsing: the same hostname decodes to the same route every time. */
  method ParseTwice(parser: HostParser, hostname: string) returns (first: RouteInfo, second: RouteInfo)
    ensures first == second
  {
    first := parser.ParseHostname(hostname);
    second := parser.ParseHostname(hostname);
  }

  /** Every segment of `parts` is free of dots, so they are the segments of their join. */
  predicate DotFree(parts: seq<string>)
  {
    forall i :: 0 <= i < |parts| ==> '.' !in parts[i]
  }

  lemma HostPartsOfJoin(parts: seq<string>)
    requires |parts| >= 1 && DotFree(parts)
    ensures HostParts(Join(parts, '.')) == parts[0 := StripPort(parts[0])]
  {
    SplitJoin(parts, '.');
  }

  /** A hostname with fewer than two dots has fewer than 3 segments: it decodes
      to the invalid route with every field empty, whatever the allow-list. */
  lemma FewSegmentsInvalid(hostname: string, defaultEnv: string, allowed: seq<string>)
    requires Count(hostname, '.') < 2
    ensures Decode(hostname, defaultEnv, allowed) == InvalidRoute
  {
  }

  /** The empty hostname is a single empty segment, hence invalid. */
  lemma EmptyHostnameInvalid(defaultEnv: string, allowed: seq<string>)
    ensures Decode("", defaultEnv, allowed) == InvalidRoute
  {
    FewSegmentsInvalid("", defaultEnv, allowed);
  }

  /** With at least 5 segments and `svc` third, the route is
      service.namespace.svc.env.base, valid before the allow-list step. */
  lemma {:induction false} SvcPatternDecoded(parts: seq<string>, defaultEnv: string)
    requires DotFree(parts) && |parts| >= 5 && parts[2] == "svc"
    ensures Decode(Join(parts, '.'), defaultEnv, [])
         == RouteInfo(StripPort(parts[0]), parts[1], parts[3], Join(parts[4..], '.'), true)
  {
    HostPartsOfJoin(parts);
  }

  /** Otherwise, with at least 3 segments (3 or 4 segments even with `svc` third), the route is
      service.namespace.domain with the default env, valid before the allow-list step. */
  lemma {:induction false} DomainPatternDecoded(parts: seq<string>, defaultEnv: string)
    requires DotFree(parts) && |parts| >= 3 && !(|parts| >= 5 && parts[2] == "svc")
    ensures Decode(Join(parts, '.'), defaultEnv, [])
         == RouteInfo(StripPort(parts[0]), parts[1], defaultEnv, Join(parts[2..], '.'), true)
  {
    HostPartsOfJoin(parts);
  }

  /** An empty allow-list never invalidates a route. */
  lemma EmptyAllowListAdmitsAll(hostname: string, defaultEnv: string)
    ensures Decode(hostname, defaultEnv, []) == MatchPattern(HostParts(hostname), defaultEnv)
  {
  }

  /** A non-empty allow-list keeps a route valid iff it was structurally valid and its
      namespace is exactly one of the entries; a rejected route keeps its decoded fields. */
  lemma AllowListDecides(hostname: string, defaultEnv: string, allowed: seq<string>)
    requires |allowed| > 0
    ensures var structural := MatchPattern(HostParts(hostname), defaultEnv);
            var r := Decode(hostname, defaultEnv, allowed);
            && (r.isValid <==> structural.isValid && structural.namespace in allowed)
            && r == structural.(isValid := r.isValid)
  {
  }

  /** A well-formed hostname whose namespace segment is missing from a non-empty allow-list is rejected. */
  lemma {:induction false} NamespaceOutsideAllowListRejected(parts: seq<string>, defaultEnv: string, allowed: seq<string>)
    requires DotFree(parts) && |parts| >= 3
    requires |allowed| > 0 && parts[1] !in allowed
    ensures !Decode(Join(parts, '.'), defaultEnv, allowed).isValid
  {
    HostPartsOfJoin(parts);
  }

  /** A `:port` on the first segment is ignored: the hostname decodes as if it were absent. */
  lemma {:induction false} PortSuffixIgnored(first: string, port: string, rest: string, defaultEnv: string, allowed: seq<string>)
    requires ':' !in first && '.' !in first && '.' !in port
    ensures Decode(first + ":" + port + "." + rest, defaultEnv, allowed)
         == Decode(first + "." + rest, defaultEnv, allowed)
  {
    var withPort := first + [':'] + port;
    var h1, h2 := withPort + ['.'] + rest, first + ['.'] + rest;
    assert first + ":" + port + "." + rest == h1;
    assert first + "." + rest == h2;
    assert '.' !in withPort;
    SplitAfterFirst(withPort, rest, '.');
    SplitAfterFirst(first, rest, '.');
    SplitAfterFirst(first, port, ':');
    SplitSepFree(first, ':');
    var tail := Split(rest, '.');
    assert HostParts(h1) == [first] + tail;
    assert HostParts(h2) == [first] + tail;
  }

  lemma NoPortToStrip(segment: string)
    requires ':' !in segment
    ensures StripPort(segment) == segment
  {
  }

  /** A port on a later segment is not stripped: `service.namespace.last:port` keeps `last:port`
      as its base domain. */
  lemma PortOnLastSegmentKept(service: string, namespace: string, last: string, port: string, defaultEnv: string)
    requires '.' !in service && ':' !in service && '.' !in namespace && '.' !in last && '.' !in port
    ensures Decode(service + "." + namespace + "." + last + ":" + port, defaultEnv, [])
         == RouteInfo(service, namespace, defaultEnv, last + ":" + port, true)
  {
    var route := RouteInfo(service, namespace, defaultEnv, last + ":" + port, true);
    assert service + "." + namespace + "." + last + ":" + port == FallbackHost(route);
    SplitSepFree(route.baseDomain, '.');
    SplitCount(route.baseDomain, '.');
    FallbackHostRoundTrip(route, defaultEnv);
  }

  /** Empty service and namespace segments are not rejected. */
  lemma EmptyLabelsAccepted(defaultEnv: string)
    ensures Decode("..x", defaultEnv, []) == RouteInfo("", "", defaultEnv, "x", true)
  {
    var parts := ["", "", "x"];
    assert Join(parts, '.') == "..x";
    DomainPatternDecoded(parts, defaultEnv);
  }

  /** The hostname of the preferred pattern that names `route`. */
  function CanonicalHost(route: RouteInfo): string
  {
    route.service + "." + route.namespace + ".svc." + route.env + "." + route.baseDomain
  }

  /** The hostname of the fallback pattern that names `route`; its env is left to the default. */
  function FallbackHost(route: RouteInfo): string
  {
    route.service + "." + route.namespace + "." + route.baseDomain
  }

  /** Labels that survive decoding unchanged: no dot anywhere, and no colon in the service label. */
  predicate PlainLabels(route: RouteInfo)
  {
    '.' !in route.service && ':' !in route.service && '.' !in route.namespace
  }

  lemma CanonicalHostParts(route: RouteInfo)
    requires PlainLabels(route) && '.' !in route.env
    ensures HostParts(CanonicalHost(route))
         == [route.service, route.namespace, "svc", route.env] + Split(route.baseDomain, '.')
  {
    var base := route.baseDomain;
    var t3 := route.env + ['.'] + base;
    var t2 := "svc" + ['.'] + t3;
    var t1 := route.namespace + ['.'] + t2;
    assert CanonicalHost(route) == route.service + ['.'] + t1;
    SplitAfterFirst(route.env, base, '.');
    SplitAfterFirst("svc", t3, '.');
    SplitAfterFirst(route.namespace, t2, '.');
    SplitAfterFirst(route.service, t1, '.');
    NoPortToStrip(route.service);
  }

  /** Decoding the preferred-pattern hostname of a route gives the route back, valid. */
  lemma {:induction false} CanonicalHostRoundTrip(route: RouteInfo, defaultEnv: string)
    requires PlainLabels(route) && '.' !in route.env
    ensures Decode(CanonicalHost(route), defaultEnv, []) == route.(isValid := true)
  {
    var parts := HostParts(CanonicalHost(route));
    CanonicalHostParts(route);
    assert parts[4..] == Split(route.baseDomain, '.');
    JoinSplit(route.baseDomain, '.');
  }

  /** Whether a domain, placed after service and namespace, would itself read as `svc.{env}.{base...}`. */
  predicate LooksLikeSvc(domain: string)
  {
    Count(domain, '.') >= 2 && Split(domain, '.')[0] == "svc"
  }

  lemma FallbackHostParts(route: RouteInfo)
    requires PlainLabels(route)
    ensures HostParts(FallbackHost(route)) == [route.service, route.namespace] + Split(route.baseDomain, '.')
  {
    var base := route.baseDomain;
    var t1 := route.namespace + ['.'] + base;
    assert FallbackHost(route) == route.service + ['.'] + t1;
    SplitAfterFirst(route.namespace, base, '.');
    SplitAfterFirst(route.service, t1, '.');
    NoPortToStrip(route.service);
  }

  /** Decoding the fallback-pattern hostname of a route gives its service, namespace and domain
      back, valid, with the default env; unless the domain would read as the preferred pattern. */
  lemma {:induction false} FallbackHostRoundTrip(route: RouteInfo, defaultEnv: string)
    requires PlainLabels(route) && !LooksLikeSvc(route.baseDomain)
    ensures Decode(FallbackHost(route), defaultEnv, []) == route.(env := defaultEnv, isValid := true)
  {
    var parts := HostParts(FallbackHost(route));
    FallbackHostParts(route);
    SplitCount(route.baseDomain, '.');
    assert parts[2..] == Split(route.baseDomain, '.');
    JoinSplit(route.baseDomain, '.');
  }

  lemma DisallowedNamespaceJoin()
    ensures Join(["checkout", "payments", "example", "com"], '.') == "checkout.payments.example.com"
  {
  }

  lemma DisallowedNamespaceExample(defaultEnv: string)
    ensures !Decode("checkout.payments.example.com", defaultEnv, ["orders", "billing"]).isValid
  {
    DisallowedNamespaceJoin();
    NamespaceOutsideAllowListRejected(["checkout", "payments", "example", "com"], defaultEnv, ["orders", "billing"]);
  }
}
