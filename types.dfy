/**
  The records shared by the routing pipeline: the decoded route, the
  forwarding target, and the resolved service whose health fields a
  health check overwrites in place.
 */
module Types {
  import opened Text

  datatype Result<+T, +E> = Ok(value: T) | Err(error: E)

  /** The route decoded from a Host header. */
  datatype RouteInfo = RouteInfo(
    service: string,
    namespace: string,
    env: string,
    baseDomain: string,
    isValid: bool)

  /** The zero route: every text field empty and not valid. */
  const InvalidRoute := RouteInfo("", "", "", "", false)

  datatype Scheme = Http | Https

  /** A forwarding destination: scheme, host name and port. */
  datatype TargetUrl = TargetUrl(scheme: Scheme, hostName: string, port: int)

  function SchemeName(s: Scheme): string
  {
    match s
    case Http => "http"
    case Https => "https"
  }

  /** The `host:port` text that Go keeps in a URL's Host field. */
  function HostPort(t: TargetUrl): string
  {
    t.hostName + ":" + IntText(t.port)
  }

  /** The text form of a target, `scheme://host:port`, as Go's URL.String()
      prints a URL with a scheme and a Host and nothing else. */
  function Render(t: TargetUrl): string
  {
    SchemeName(t.scheme) + "://" + HostPort(t)
  }

  lemma IntTextColonFree(n: int)
    ensures ':' !in IntText(n)
  {
    var d := NatText(if n < 0 then -n else n);
    assert forall k :: 0 <= k < |d| ==> d[k] != ':';
    if n < 0 {
      assert IntText(n) == "-" + d;
    }
  }

  /** Number of characters after the last colon of `s` (all of `s` when it has none). */
  function AfterLastColon(s: string): nat
  {
    if |s| == 0 || s[|s| - 1] == ':' then 0 else 1 + AfterLastColon(s[..|s| - 1])
  }

  lemma {:induction false} AfterLastColonOf(x: string, d: string)
    requires ':' !in d
    ensures AfterLastColon(x + ":" + d) == |d|
  {
    if |d| > 0 {
      var s := x + ":" + d;
      AfterLastColonOf(x, d[..|d| - 1]);
      assert s[..|s| - 1] == x + ":" + d[..|d| - 1];
    }
  }

  /** A text ending in `:` followed by a colon-free tail is cut at that last colon in one way only. */
  lemma LastColonUnique(x1: string, d1: string, x2: string, d2: string)
    requires ':' !in d1 && ':' !in d2
    requires x1 + ":" + d1 == x2 + ":" + d2
    ensures x1 == x2 && d1 == d2
  {
    var s := x1 + ":" + d1;
    AfterLastColonOf(x1, d1);
    AfterLastColonOf(x2, d2);
    assert x1 == s[..|x1|];
    assert d1 == s[|x1| + 1..];
  }

  lemma RenderedScheme(a: TargetUrl, b: TargetUrl)
    requires Render(a) == Render(b)
    ensures a.scheme == b.scheme
  {
    assert Render(a)[4] == (if a.scheme == Http then ':' else 's');
    assert Render(b)[4] == (if b.scheme == Http then ':' else 's');
  }

  /** Different targets render to different texts, so the rendered form identifies the target. */
  lemma RenderInjective(a: TargetUrl, b: TargetUrl)
    requires Render(a) == Render(b)
    ensures a == b
  {
    RenderedScheme(a, b);
    var prefix := SchemeName(a.scheme) + "://";
    assert HostPort(a) == Render(a)[|prefix|..];
    assert HostPort(b) == Render(b)[|prefix|..];
    IntTextColonFree(a.port);
    IntTextColonFree(b.port);
    LastColonUnique(a.hostName, IntText(a.port), b.hostName, IntText(b.port));
    IntTextInjective(a.port, b.port);
  }

  /** The value view of a resolved service. */
  datatype ServiceRecord = ServiceRecord(
    service: string,
    namespace: string,
    targetUrl: TargetUrl,
    healthy: bool,
    lastCheck: int,
    ttl: int)

  /** A resolved service, owned by its caller; a health check overwrites
      `healthy` and `lastCheck` in place. Times are whole seconds. */
  class ServiceInfo {
    var service: string
    var namespace: string
    var targetUrl: TargetUrl
    var healthy: bool
    var lastCheck: int
    var ttl: int

    constructor (r: ServiceRecord)
      ensures Record() == r
    {
      service := r.service;
      namespace := r.namespace;
      targetUrl := r.targetUrl;
      healthy := r.healthy;
      lastCheck := r.lastCheck;
      ttl := r.ttl;
    }

    function Record(): ServiceRecord
      reads this
    {
      ServiceRecord(service, namespace, targetUrl, healthy, lastCheck, ttl)
    }
  }
}
