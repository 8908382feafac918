/**
 * The parts of the web platform's Fetch objects that the middleware touches:
 * a mutable `Headers` object, immutable `Response` values, and the values a
 * `throw` can carry.
 *
 * Header names are case-insensitive. The model names every header the
 * middleware reads or writes by its own constructor of `HeaderName`; any other
 * header is `Custom` with its lower-cased name, which the type `CustomName`
 * keeps from being the name of a named header. The names are grouped by what
 * the sentinel does with them.
 */
module Fetch {
  import opened Strings

  /** The hardening headers the sentinel overwrites with fixed values, in the order it sets them. */
  datatype Hardening =
    | AccessControlAllowOrigin | CacheControl | ContentSecurityPolicy
    | CrossOriginEmbedderPolicy | CrossOriginOpenerPolicy | CrossOriginResourcePolicy
    | ExpectCt | Expires | OriginAgentCluster | PermissionsPolicy | Pragma | ReferrerPolicy
    | StrictTransportSecurity | TimingAllowOrigin | XContentTypeOptions | XDnsPrefetchControl
    | XDownloadOptions | XFrameOptions | XPermittedCrossDomainPolicies | XXssProtection

  /** The server-identifying headers the sentinel deletes. */
  datatype Fingerprinting = Server | XPoweredBy | XAspNetVersion | XAspNetMvcVersion

  /** The lower-case wire name of every header that has its own constructor. */
  const NAMED_WIRE_NAMES: set<string> := {
    "access-control-allow-origin", "cache-control", "content-security-policy",
    "cross-origin-embedder-policy", "cross-origin-opener-policy", "cross-origin-resource-policy",
    "expect-ct", "expires", "origin-agent-cluster", "permissions-policy", "pragma", "referrer-policy",
    "strict-transport-security", "timing-allow-origin", "x-content-type-options", "x-dns-prefetch-control",
    "x-download-options", "x-frame-options", "x-permitted-cross-domain-policies", "x-xss-protection",
    "x-rate-limit", "x-rate-limit-remaining",
    "server", "x-powered-by", "x-aspnet-version", "x-aspnetmvc-version",
    "content-type", "x-response-time", "location", "x-purpose", "x-forwarded-for", "upgrade"}

  /**
   * A name `Headers` stores as given: already lower-cased, as header names are
   * compared without regard to case, and not the name of a named header, so no
   * header can be represented twice.
   */
  predicate IsCustomName(s: string) {
    ToLower(s) == s && s !in NAMED_WIRE_NAMES
  }

  type CustomName = s: string | IsCustomName(s) witness "x-request-id"

  datatype HeaderName =
    | Hardened(policy: Hardening)
    | XRateLimit | XRateLimitRemaining
    | Fingerprint(fingerprint: Fingerprinting)
    | ContentType | XResponseTime | Location | XPurpose | XForwardedFor | Upgrade
    | Custom(name: CustomName)

  /** The hardening headers' wire names. */
  function HardeningName(w: Hardening): string {
    match w
    case AccessControlAllowOrigin => "access-control-allow-origin"
    case CacheControl => "cache-control"
    case ContentSecurityPolicy => "content-security-policy"
    case CrossOriginEmbedderPolicy => "cross-origin-embedder-policy"
    case CrossOriginOpenerPolicy => "cross-origin-opener-policy"
    case CrossOriginResourcePolicy => "cross-origin-resource-policy"
    case ExpectCt => "expect-ct"
    case Expires => "expires"
    case OriginAgentCluster => "origin-agent-cluster"
    case PermissionsPolicy => "permissions-policy"
    case Pragma => "pragma"
    case ReferrerPolicy => "referrer-policy"
    case StrictTransportSecurity => "strict-transport-security"
    case TimingAllowOrigin => "timing-allow-origin"
    case XContentTypeOptions => "x-content-type-options"
    case XDnsPrefetchControl => "x-dns-prefetch-control"
    case XDownloadOptions => "x-download-options"
    case XFrameOptions => "x-frame-options"
    case XPermittedCrossDomainPolicies => "x-permitted-cross-domain-policies"
    case XXssProtection => "x-xss-protection"
  }

  /** The lower-case name a header travels under. */
  function WireName(n: HeaderName): string {
    match n
    case Hardened(w) => HardeningName(w)
    case XRateLimit => "x-rate-limit"
    case XRateLimitRemaining => "x-rate-limit-remaining"
    case Fingerprint(f) =>
      (match f
       case Server => "server"
       case XPoweredBy => "x-powered-by"
       case XAspNetVersion => "x-aspnet-version"
       case XAspNetMvcVersion => "x-aspnetmvc-version")
    case ContentType => "content-type"
    case XResponseTime => "x-response-time"
    case Location => "location"
    case XPurpose => "x-purpose"
    case XForwardedFor => "x-forwarded-for"
    case Upgrade => "upgrade"
    case Custom(name) => name
  }

  /**
   * The wire name of a named header is never a custom name, so a `Custom` key
   * can never alias a header the middleware sets, reads or deletes.
   */
  lemma NamedNeverCustom(n: HeaderName)
    ensures n.Custom? <==> WireName(n) !in NAMED_WIRE_NAMES
    ensures !n.Custom? ==> !IsCustomName(WireName(n))
  {
    if n.Hardened? {
      match n.policy
      case AccessControlAllowOrigin =>
      case CacheControl =>
      case ContentSecurityPolicy =>
      case CrossOriginEmbedderPolicy =>
      case CrossOriginOpenerPolicy =>
      case CrossOriginResourcePolicy =>
      case ExpectCt =>
      case Expires =>
      case OriginAgentCluster =>
      case PermissionsPolicy =>
      case Pragma =>
      case ReferrerPolicy =>
      case StrictTransportSecurity =>
      case TimingAllowOrigin =>
      case XContentTypeOptions =>
      case XDnsPrefetchControl =>
      case XDownloadOptions =>
      case XFrameOptions =>
      case XPermittedCrossDomainPolicies =>
      case XXssProtection =>
    }
  }

  type HeaderMap = map<HeaderName, string>

  /** A `Headers` object that is changed in place through `set` and `delete`. */
  class Headers {
    var fields: HeaderMap

    constructor (init: HeaderMap)
      ensures fields == init
    {
      fields := init;
    }

    method Set(name: HeaderName, value: string)
      modifies this
      ensures fields == old(fields)[name := value]
    {
      fields := fields[name := value];
    }

    method Delete(name: HeaderName)
      modifies this
      ensures fields == old(fields) - {name}
    {
      fields := fields - {name};
    }
  }

  /** A header's value in a header map, `null` when absent. */
  function Lookup(h: HeaderMap, name: HeaderName): Option<string> {
    if name in h then Some(h[name]) else None
  }

  /**
   * The parts of an inbound request that the middleware reads: its method, its
   * URL's pathname and query parameters, its headers, and the peer's host name
   * (`ctx.remoteAddr.hostname`).
   */
  datatype Request = Request(httpMethod: string, pathname: string, query: map<string, string>,
                             headers: HeaderMap, remoteHost: string)

  /** A response body: none (`null`), a text, or a stream produced downstream. */
  datatype Body = NullBody | TextBody(text: string) | StreamBody(id: nat)

  datatype Response = Response(status: int, statusText: string, headers: HeaderMap, body: Body)

  /** What a `throw` carries: an `Error` object, or any other value shown as `String(value)`. */
  datatype Thrown = ErrorObject(message: string) | OtherValue(text: string)

  /** The outcome of awaiting a downstream handler (`ctx.next()`). */
  datatype NextResult = Returned(response: Response) | Threw(error: Thrown)

  const TEXT_CONTENT_TYPE := "text/plain;charset=UTF-8"

  /**
   * `new Response(text, { status })`: a string body makes the platform add its
   * text content type; the status text is empty.
   */
  function TextResponse(status: int, text: string): Response {
    Response(status, "", map[ContentType := TEXT_CONTENT_TYPE], TextBody(text))
  }

  /** `new Response(null, { status, headers })`. */
  function EmptyResponse(status: int, headers: HeaderMap): Response {
    Response(status, "", headers, NullBody)
  }
}
