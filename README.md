# kubi8al-dns routing pipeline in Dafny

This project models how the kubi8al-dns ingress proxy routes a request by its Host
header, and proves properties of that model. The pipeline has four parts:

- **Hostname decoding** (`HostParsing`, parser.dfy).
  - The Host header is split on `.`, and only the first segment loses its `:port`.
  - The decoder prefers `{service}.{namespace}.svc.{env}.{base...}`.
  - Otherwise it falls back to `{service}.{namespace}.{domain...}` with the configured default env.
  - An optional exact-match namespace allow-list is applied last.
  - `HostParser` is a class with constant fields. `ParseHostname` is imperative (it overwrites segment 0, fills the route field by field, and scans the allow-list in a flagged loop) and is proved equal to the pure `Decode`.
- **Service resolution** (`Resolvers`, resolver.dfy).
  - The cluster resolver builds `scheme://service.namespace.svc.cluster.local:port` from the first declared port. The default is port 80 over http; https applies when that port is 443 or is named `https`.
  - A resolution is healthy, checked at `now`, and valid until `now + 300` seconds.
  - The development stand-in always targets `http://localhost:3000`.
  - `ServiceInfo` is a class because `HealthCheck` overwrites its `healthy` and `lastCheck` fields in place.
  - The Kubernetes service lookup is a function argument: given `(namespace, name)` it returns either the declared ports or a failure.
- **Request dispatch** (`Proxy`, server.dfy).
  - The path multiplexer sends `/health` and `/healthz` to the health reply, `/routes` to the configuration listing, and everything else to the proxy handler.
  - The proxy handler runs a fixed chain of early returns: 400, health reply, 404, 503, forward. A transport failure on forwarding becomes 502.
  - A forwarded response is tagged in place with `X-Proxy-Service`, `X-Proxy-Namespace` and `X-Proxy-Target`.
  - The upstream round trip is a function argument, `forward`, from the target to either a response or a transport failure.
- **Configuration** (`Configuration`, config.dfy).
  - The environment is a map from variable name to value.
  - `getEnv` applies the "non-empty value, else default" rule, with literal defaults.
  - `ALLOWED_NAMESPACES` is split on `,`, and each entry is trimmed in place in an array.
  - Durations are integer nanoseconds. `time.ParseDuration` is a function argument that may fail.

Two shared modules support these:

- `Types` (types.dfy) holds the records. `RouteInfo` and `ServiceRecord` are datatypes, `ServiceInfo` is a class, and the target is a structured `(scheme, host name, port)` value with a `Render` function.
- `Text` (text.dfy) holds stand-ins for `strings.Split`, `strings.Join`, `strings.TrimSpace` and `%d`.

Where the design notes and the code disagree, the model follows the code:

- The design calls service and namespace "required, non-empty", but the decoder never checks this. `..x` decodes to a valid route with empty service and namespace (`EmptyLabelsAccepted`).
- The default for `DEFAULT_ENV` in the code is the literal `"true"`, and the model keeps it.
- Both resolvers mark every resolution healthy, so the 503 branch of the proxy handler can never be reached (`NeverUnavailable`).

## Model

| member | source | states |
|---|---|---|
| `HostParsing.StripPort` | cmd/parser.go:25-27 | the first segment loses everything from its first colon: the result has no colon, is a prefix of the segment, and is followed there by a colon when shorter |
| `HostParsing.HostParts` | cmd/parser.go:23-27 | one segment per dot plus one; only segment 0 is port-stripped, the rest are exactly the pieces of the split |
| `HostParsing.HostParser.constructor` | cmd/parser.go:14-20 | the parser keeps the base domain, default env and allow-list it is given |
| `HostParsing.HostParser.ParseHostname` | cmd/parser.go:22-67 | the imperative decoder (port strip in place, field-by-field fill, allow-list loop with a flag and break) returns exactly `Decode` of the hostname under the parser's default env and allow-list |
| `HostParsing.ParseTwice` | cmd/parser.go:14-67 | parsing never changes the parser: the same hostname decodes to the same route twice |
| `HostParsing.FewSegmentsInvalid` | cmd/parser.go:29-34 | fewer than two dots gives the invalid route with every text field empty, whatever the allow-list |
| `HostParsing.EmptyHostnameInvalid` | cmd/parser.go:23-34 | the empty hostname is one empty segment, hence the invalid route |
| `HostParsing.SvcPatternDecoded` | cmd/parser.go:37-42 | at least 5 dot-free segments with `svc` third give service, namespace, env = segment 3, base = join of segments 4.., valid |
| `HostParsing.DomainPatternDecoded` | cmd/parser.go:43-49 | otherwise at least 3 segments (3 or 4 even with `svc` third) give the default env and base = join of segments 2.., valid |
| `HostParsing.CanonicalHostRoundTrip` | cmd/parser.go:37-42 | decoding `service.namespace.svc.env.base` gives back exactly that route, valid, for any base (dots and colons included) |
| `HostParsing.FallbackHostRoundTrip` | cmd/parser.go:43-49 | decoding `service.namespace.domain` gives back service, namespace and domain with the default env, unless the domain itself reads as `svc.env.base` |
| `HostParsing.EmptyAllowListAdmitsAll` | cmd/parser.go:52 | an empty allow-list leaves the structural decoding untouched |
| `HostParsing.AllowListDecides` | cmd/parser.go:52-64 | with a non-empty allow-list the route is valid iff it was structurally valid and its namespace is exactly an entry; a rejected route keeps every decoded field |
| `HostParsing.NamespaceOutsideAllowListRejected` | cmd/parser.go:52-64 | a well-formed hostname whose namespace segment is not in a non-empty allow-list is invalid |
| `HostParsing.DisallowedNamespaceExample` | cmd/parser.go:52-64 | `checkout.payments.example.com` under the allow-list `orders,billing` is invalid |
| `HostParsing.PortSuffixIgnored` | cmd/parser.go:25-27 | a `:port` on the first segment changes nothing: the hostname decodes as if it were absent |
| `HostParsing.PortOnLastSegmentKept` | cmd/parser.go:25-48 | a `:port` after the last dot is not stripped and stays inside the base domain |
| `HostParsing.EmptyLabelsAccepted` | cmd/parser.go:43-49 | `..x` decodes to a valid route with empty service and namespace: emptiness is not checked |
| `Text.SplitCount` | cmd/parser.go:23 | `strings.Split` yields one more piece than there are separators |
| `Text.SplitPiecesSepFree` | cmd/parser.go:23 | no piece of a split contains the separator |
| `Text.SplitFirstPiece` | cmd/parser.go:26 | the first piece of a split is the text before the first separator |
| `Text.JoinSplit` | cmd/parser.go:41 | joining the pieces of a split restores the string |
| `Text.SplitJoin` | cmd/parser.go:41 | splitting a join of separator-free pieces gives the pieces back |
| `Text.IntTextRoundTrip` | cmd/resolver.go:38 | the `%d` text of a port reads back as that port |
| `Types.ServiceInfo.constructor` | cmd/types.go:17-24 | a new ServiceInfo holds exactly the given service, namespace, target, health, check time and expiry |
| `Types.RenderInjective` | cmd/types.go:20 | different targets render to different `scheme://host:port` texts |
| `Resolvers.ResolveService` | cmd/resolver.go:23-55 | a failed lookup gives the error `service not found: ...` and no ServiceInfo; otherwise a newly allocated ServiceInfo holding the resolution |
| `Resolvers.HealthCheck` | cmd/resolver.go:57-67 | sets lastCheck to now and healthy to whether the lookup succeeds (always true for the stand-in, lines 94-98), returns the new flag, and leaves service, namespace, target and expiry as they were |
| `Resolvers.ClusterResolutionFails` | cmd/resolver.go:24-29 | the cluster resolution fails iff the lookup fails |
| `Resolvers.ResolutionIsFresh` | cmd/resolver.go:45-52 | every resolution echoes service and namespace, is healthy, checked now and expires five minutes later |
| `Resolvers.NoPortsTarget` | cmd/resolver.go:31-34 | without declared ports the target renders as `http://service.namespace.svc.cluster.local:80` |
| `Resolvers.FirstPortTarget` | cmd/resolver.go:36-38 | with ports, the host is `service.namespace.svc.cluster.local:<first port>` and later ports are ignored |
| `Resolvers.HttpsIff` | cmd/resolver.go:31-43 | the scheme is https iff there is a port and the first one is 443 or named `https` |
| `Resolvers.NamedHttpsPortExample` | cmd/resolver.go:40-42 | a first port 8443 named `https` is reached over https on 8443 |
| `Resolvers.MockResolution` | cmd/resolver.go:76-92 | the stand-in never fails, echoes the route, and targets `http://localhost:3000` |
| `Configuration.LoadConfig` | cmd/config.go:19-37 | the loaded configuration is `ConfigFrom` the environment: each field by getEnv/getDurationEnv with its literal default, and the allow-list split on commas and trimmed |
| `Configuration.TrimInPlace` | cmd/config.go:31-33 | the loop trims every entry in place and changes nothing else |
| `Configuration.GetEnvRule` | cmd/config.go:39-44 | a non-empty value is returned as is; unset and empty both give the default |
| `Configuration.UnparsableDurationFallsBack` | cmd/config.go:46-53 | a duration that does not parse leaves the default |
| `Configuration.Defaults` | cmd/config.go:20-27 | with nothing set: port 8080, base domain code-craft.co.in, default env "true", no allow-list, timeouts 15 s, 15 s, 60 s |
| `Configuration.NoAllowListWhenUnset` | cmd/config.go:29 | an unset or empty ALLOWED_NAMESPACES gives an empty allow-list |
| `Configuration.AllowListEntries` | cmd/config.go:29-33 | a non-empty value gives one entry per comma plus one, each the trimmed piece: no comma inside, no white space at either end |
| `Configuration.TrimmedPiece` | cmd/config.go:32 | trimming a comma-free piece gives a comma-free entry without white space at either end |
| `Configuration.LoneCommaExample` | cmd/config.go:29-33 | `","` gives two empty entries |
| `Text.TrimSpaceInfix` | cmd/config.go:32 | TrimSpace keeps one contiguous stretch of its input |
| `Text.TrimSpaceRemovesSpace` | cmd/config.go:32 | what TrimSpace removes at either end is white space |
| `Text.TrimSpaceEnds` | cmd/config.go:32 | the trimmed text neither starts nor ends with white space |
| `Proxy.Tagged` | cmd/server.go:111-116 | the tagged header has the three X-Proxy fields set to exactly the service, the namespace and the rendered target; every other field is kept |
| `Proxy.ResponseHeader.Set` | cmd/server.go:112 | Header.Set replaces the values of one field with the single given value |
| `Proxy.ModifyResponse` | cmd/server.go:111-116 | the response hook turns the header in place into its tagged form |
| `Proxy.ProxyHandler` | cmd/server.go:77-119 | the handler's chain of early returns yields exactly `Dispatch` of the decoded route |
| `Proxy.Handle` | cmd/server.go:26-75 | `/health` and `/healthz` give the health reply, `/routes` the configuration listing with the two hostname patterns, anything else the proxy handler's outcome |
| `Proxy.DispatchOutcome` | cmd/server.go:77-119 | each outcome happens iff all earlier checks passed and its own failed: 400 iff invalid, health iff namespace `health`, 404 iff resolution fails, 503 iff unhealthy, 502 iff transport fails, forwarded iff upstream responds |
| `Proxy.InvalidRouteRejected` | cmd/server.go:78-83 | an invalid route gets 400 whatever the resolver and upstream |
| `Proxy.HealthNamespaceShortCircuit` | cmd/server.go:85-88 | a valid route into namespace `health` gets the 200 health reply whatever the resolver and upstream |
| `Proxy.DisallowedHealthRejected` | cmd/server.go:78-88 | with a non-empty allow-list lacking `health`, no hostname reaches the health reply |
| `Proxy.HealthProbeHost` | cmd/server.go:85-88 | any hostname with `health` as its second segment is a health probe when no allow-list is set |
| `Proxy.ForwardedTagging` | cmd/server.go:106-118 | a forwarded response goes to the resolved target with the upstream status, the three tags, and every other upstream field |
| `Proxy.NeverUnavailable` | cmd/server.go:100-104 | neither resolver ever yields an unhealthy resolution, so 503 never happens |
| `Proxy.TaggingIdempotent` | cmd/server.go:111-116 | tagging twice is tagging once |
| `Proxy.TargetFieldIdentifiesTarget` | cmd/server.go:114 | the X-Proxy-Target field determines the target |

## Left out

- cmd/main.go (bootstrap, choosing between cluster and stand-in resolver, signal handling, graceful shutdown) is not part of this model. Its resolver choice is the `Resolver` datatype.
- server/setup.go is not part of this model. It is a separate web-framework stub that takes no part in routing.
- The Kubernetes client and the 5-second request context are not modelled. The lookup is a function argument, and cancellation is not modelled.
- Streaming of the forwarded request and response, hop-by-hop header removal and connection reuse by the reverse proxy are not modelled. Only the target, the upstream status and fields, the tagging and the 502 mapping are modelled.
- Logging (the middleware and every log line) is not modelled, because it has no effect on outcomes.
- The JSON bodies and the RFC 3339 timestamp are not modelled in text form. The health reply carries the `now` of the request, and the listing is a record.
- `http.Error` also sets a plain-text content type and appends a newline to the message. `ErrorReply` keeps only the status and the message.
- `ResolveService` calls `time.Now()` twice. The model uses one `now`, so the expiry is exactly `now + 300`.
- Time is whole seconds and durations are whole nanoseconds. The wall clock and calendar are not modelled.
- `time.ParseDuration` is a function argument, and its syntax is not modelled.
- The target is a structured value, not Go's `url.URL`, so URL escaping is not modelled.
- `Header.Set` canonicalises field names. The three names used are already in canonical form, so the model uses them as given.
- `ServeMux` path cleaning and redirects are not modelled. Paths are matched exactly as given.
- White space is the list of Unicode White_Space characters that `unicode.IsSpace` accepts. Decoding of invalid UTF-8 is not modelled, because strings are sequences of characters.
- The decoder's second branch tests `len(parts) >= 3` again, which always holds at that point. `ParseHostname` keeps the test, and `MatchPattern` writes it as a plain `else`.
- Caching of resolutions is not modelled, because the source has none. `HealthCheck` is never called on the request path.
