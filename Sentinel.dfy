/**
 * The sentinel: a per-client request counter kept in process memory, and the
 * header policy that every protected response passes through.
 */
module Sentinel {
  import opened Strings
  import opened Fetch

  /** Requests allowed per client before `limited` is reported. */
  const RATE_LIMIT: nat := 1000
  /** Idle time, in milliseconds, after which a client's counter starts again at 1. */
  const RATE_LIMIT_WINDOW: nat := 60 * 1000 * 60

  /** Methods the limiter neither counts nor limits. */
  predicate Exempt(httpMethod: string) {
    httpMethod == "HEAD" || httpMethod == "OPTIONS"
  }

  /** A client's counter: requests counted so far and the time of the last counted one. */
  datatype Window = Window(count: nat, timestamp: int)

  /** The limiter's answer for one request. */
  datatype Decision = Decision(limited: bool, count: nat)

  /** The answer together with the client table as the request leaves it. */
  datatype Tick = Tick(decision: Decision, clients: map<string, Window>)

  /**
   * `rateLimit` on the client table `clients` at time `now` (milliseconds).
   * An unseen client's timestamp defaults to `now`, so its first request is
   * counted as 1. Every counted request stores `now` as the timestamp, so the
   * reset happens after an idle gap longer than the window, measured from the
   * last counted request.
   */
  function RateLimit(clients: map<string, Window>, remoteIp: string, httpMethod: string, now: int): (t: Tick)
    ensures Exempt(httpMethod) ==> t == Tick(Decision(false, 0), clients)
    ensures !Exempt(httpMethod) ==> t.clients == clients[remoteIp := Window(t.decision.count, now)]
    ensures !Exempt(httpMethod) && remoteIp !in clients ==> t.decision == Decision(false, 1)
    ensures !Exempt(httpMethod) && remoteIp in clients && now - clients[remoteIp].timestamp > RATE_LIMIT_WINDOW ==>
              t.decision == Decision(false, 1)
    ensures !Exempt(httpMethod) && remoteIp in clients && now - clients[remoteIp].timestamp <= RATE_LIMIT_WINDOW ==>
              t.decision.count == clients[remoteIp].count + 1
    ensures t.decision.limited <==> t.decision.count > RATE_LIMIT
  {
    if Exempt(httpMethod) then Tick(Decision(false, 0), clients)
    else
      var last := if remoteIp in clients then clients[remoteIp].timestamp else now;
      if now - last > RATE_LIMIT_WINDOW then
        Tick(Decision(false, 1), clients[remoteIp := Window(1, now)])
      else
        var count := (if remoteIp in clients then clients[remoteIp].count else 0) + 1;
        Tick(Decision(count > RATE_LIMIT, count), clients[remoteIp := Window(count, now)])
  }

  /** Only the requesting client's counter is written; every other client's is unchanged. */
  lemma RateLimitFrame(clients: map<string, Window>, remoteIp: string, httpMethod: string, now: int, other: string)
    requires other != remoteIp
    ensures var t := RateLimit(clients, remoteIp, httpMethod, now);
      && (other in t.clients <==> other in clients)
      && (other in clients ==> t.clients[other] == clients[other])
  {
  }

  /** The limiter applied to a run of requests from one client at the given times, in order. */
  function Run(clients: map<string, Window>, remoteIp: string, httpMethod: string, times: seq<int>): Tick
    decreases |times|
  {
    if times == [] then Tick(Decision(false, 0), clients)
    else
      var before := Run(clients, remoteIp, httpMethod, times[..|times| - 1]);
      RateLimit(before.clients, remoteIp, httpMethod, times[|times| - 1])
  }

  /** Consecutive requests of a run are never more than a window apart. */
  ghost predicate Busy(times: seq<int>) {
    forall i :: 0 < i < |times| ==> times[i] - times[i - 1] <= RATE_LIMIT_WINDOW
  }

  /**
   * For a client the table has not seen, the n-th request of a busy run is
   * counted as n, and it is limited exactly when n exceeds the quota.
   */
  lemma {:induction false} RunCounts(clients: map<string, Window>, remoteIp: string, httpMethod: string, times: seq<int>)
    requires remoteIp !in clients && !Exempt(httpMethod) && Busy(times) && |times| > 0
    ensures var t := Run(clients, remoteIp, httpMethod, times);
      && remoteIp in t.clients
      && t.clients[remoteIp] == Window(|times|, times[|times| - 1])
      && t.decision == Decision(|times| > RATE_LIMIT, |times|)
  {
    if |times| > 1 {
      var prefix := times[..|times| - 1];
      assert Busy(prefix) by {
        forall i | 0 < i < |prefix| ensures prefix[i] - prefix[i - 1] <= RATE_LIMIT_WINDOW {
          assert prefix[i] == times[i] && prefix[i - 1] == times[i - 1];
        }
      }
      RunCounts(clients, remoteIp, httpMethod, prefix);
    }
  }

  /** The 1000th request of a busy run from a new client passes; the 1001st is limited. */
  lemma QuotaBoundary(clients: map<string, Window>, remoteIp: string, httpMethod: string, times: seq<int>)
    requires remoteIp !in clients && !Exempt(httpMethod) && Busy(times) && |times| == RATE_LIMIT + 1
    ensures !Run(clients, remoteIp, httpMethod, times[..RATE_LIMIT]).decision.limited
    ensures Run(clients, remoteIp, httpMethod, times).decision.limited
  {
    var first := times[..RATE_LIMIT];
    assert Busy(first) by {
      forall i | 0 < i < |first| ensures first[i] - first[i - 1] <= RATE_LIMIT_WINDOW {
        assert first[i] == times[i] && first[i - 1] == times[i - 1];
      }
    }
    RunCounts(clients, remoteIp, httpMethod, first);
    RunCounts(clients, remoteIp, httpMethod, times);
  }

  /** However many exempt requests a client sends, the table is unchanged and none is limited. */
  lemma {:induction false} ExemptRunNeverCounts(clients: map<string, Window>, remoteIp: string, httpMethod: string, times: seq<int>)
    requires Exempt(httpMethod)
    ensures Run(clients, remoteIp, httpMethod, times) == Tick(Decision(false, 0), clients)
  {
    if times != [] {
      ExemptRunNeverCounts(clients, remoteIp, httpMethod, times[..|times| - 1]);
    }
  }

  /** The module-level client table of the limiter, updated in place by every counted request. */
  class RateLimiter {
    var clients: map<string, Window>

    constructor ()
      ensures clients == map[]
    {
      clients := map[];
    }

    /** `rateLimit`, reading the clock value `now`. */
    method Check(remoteIp: string, httpMethod: string, now: int) returns (d: Decision)
      modifies this
      ensures RateLimit(old(clients), remoteIp, httpMethod, now) == Tick(d, clients)
    {
      if Exempt(httpMethod) {
        return Decision(false, 0);
      }
      var last := if remoteIp in clients then clients[remoteIp].timestamp else now;
      if now - last > RATE_LIMIT_WINDOW {
        clients := clients[remoteIp := Window(1, now)];
        d := Decision(false, 1);
      } else {
        var count := (if remoteIp in clients then clients[remoteIp].count else 0) + 1;
        clients := clients[remoteIp := Window(count, now)];
        d := Decision(count > RATE_LIMIT, count);
      }
    }
  }

  /** The Content-Security-Policy directives, in the order the policy lists them. */
  const CSP_DIRECTIVES: seq<string> := [
    "default-src 'self'", "script-src 'self' 'unsafe-inline' 'unsafe-eval' https:", "script-src-attr 'none'",
    "upgrade-insecure-requests", "base-uri 'self'", "form-action 'self'", "connect-src 'self' https:",
    "img-src 'self' https: data:", "style-src 'self' 'unsafe-inline' https:", "font-src 'self' https: data:",
    "frame-ancestors 'self'", "object-src 'none'"]

  /** The directives joined by "; " and closed by ";". */
  const CONTENT_SECURITY_POLICY := Join(CSP_DIRECTIVES, "; ") + ";"

  /** Every capability the Permissions-Policy denies. */
  const DENIED_FEATURES: seq<string> := [
    "accelerometer=()", "autoplay=()", "camera=()", "cross-origin-isolated=()", "display-capture=()",
    "encrypted-media=()", "fullscreen=()", "geolocation=()", "gyroscope=()", "keyboard-map=()",
    "magnetometer=()", "microphone=()", "midi=()", "payment=()", "picture-in-picture=()",
    "publickey-credentials-get=()", "screen-wake-lock=()", "sync-xhr=()", "usb=()", "web-share=()",
    "xr-spatial-tracking=()"]

  /** The denied capabilities joined by ", ". */
  const PERMISSIONS_POLICY := Join(DENIED_FEATURES, ", ")

  /** The fixed value of each hardening header. */
  function Fixed(w: Hardening): string {
    match w
    case AccessControlAllowOrigin => "https://nvll.me, https://www.nvll.me, https://nvll.deno.dev"
    case CacheControl => "no-store, max-age=0"
    case ContentSecurityPolicy => CONTENT_SECURITY_POLICY
    case CrossOriginEmbedderPolicy => "require-corp"
    case CrossOriginOpenerPolicy => "same-origin"
    case CrossOriginResourcePolicy => "same-origin"
    case ExpectCt => "max-age=86400, enforce"
    case Expires => "0"
    case OriginAgentCluster => "?1"
    case PermissionsPolicy => PERMISSIONS_POLICY
    case Pragma => "no-cache"
    case ReferrerPolicy => "no-referrer"
    case StrictTransportSecurity => "max-age=63072000; includeSubDomains; preload"
    case TimingAllowOrigin => "same-origin"
    case XContentTypeOptions => "nosniff"
    case XDnsPrefetchControl => "off"
    case XDownloadOptions => "noopen"
    case XFrameOptions => "SAMEORIGIN"
    case XPermittedCrossDomainPolicies => "none"
    case XXssProtection => "1; mode=block"
  }

  /** Every hardening header. */
  const HARDENINGS: set<Hardening> := {
    AccessControlAllowOrigin, CacheControl, ContentSecurityPolicy, CrossOriginEmbedderPolicy, CrossOriginOpenerPolicy,
    CrossOriginResourcePolicy, ExpectCt, Expires, OriginAgentCluster, PermissionsPolicy,
    Pragma, ReferrerPolicy, StrictTransportSecurity, TimingAllowOrigin, XContentTypeOptions,
    XDnsPrefetchControl, XDownloadOptions, XFrameOptions, XPermittedCrossDomainPolicies, XXssProtection}

  const HARDENED_NAMES: set<HeaderName> := set w | w in HARDENINGS :: Hardened(w)

  lemma EveryHardening(w: Hardening)
    ensures w in HARDENINGS
  {
  }

  /** Quota left, floored at zero. */
  function Remaining(count: nat): (r: nat)
    ensures r <= RATE_LIMIT
    ensures count <= RATE_LIMIT ==> r + count == RATE_LIMIT
    ensures count >= RATE_LIMIT ==> r == 0
  {
    if count < RATE_LIMIT then RATE_LIMIT - count else 0
  }

  /** `X-Rate-Limit`: the count over the quota. */
  function RateLimitValue(count: nat): string {
    NatToString(count) + "/" + NatToString(RATE_LIMIT)
  }

  /** `X-Rate-Limit-Remaining`: the floored remainder. */
  function RemainingValue(count: nat): string {
    NatToString(Remaining(count))
  }

  /**
   * The headers as the policy leaves them, given the headers it starts from and
   * the limiter's count: the hardening and telemetry headers hold the policy's
   * values, the fingerprint headers are gone, and every other header is kept.
   */
  function Secured(h: HeaderMap, count: nat): HeaderMap {
    map k | k in h.Keys + {XRateLimit, XRateLimitRemaining} + HARDENED_NAMES && !k.Fingerprint?
      :: match k
         case Hardened(w) => Fixed(w)
         case XRateLimit => RateLimitValue(count)
         case XRateLimitRemaining => RemainingValue(count)
         case Fingerprint(_) => "" // excluded by the range
         case _ => h[k]
  }

  /** Every hardening header holds its fixed value, whatever the request. */
  lemma SecuredFixed(h: HeaderMap, count: nat, w: Hardening)
    ensures Hardened(w) in Secured(h, count) && Secured(h, count)[Hardened(w)] == Fixed(w)
  {
    EveryHardening(w);
  }

  /** The telemetry headers report the count over the quota and the floored remainder. */
  lemma SecuredTelemetry(h: HeaderMap, count: nat)
    ensures XRateLimit in Secured(h, count) && Secured(h, count)[XRateLimit] == RateLimitValue(count)
    ensures XRateLimitRemaining in Secured(h, count)
    ensures Secured(h, count)[XRateLimitRemaining] == NatToString(Remaining(count))
  {
  }

  /** The fingerprint headers are gone. */
  lemma SecuredStripped(h: HeaderMap, count: nat, f: Fingerprinting)
    ensures Fingerprint(f) !in Secured(h, count)
  {
  }

  /** Every header the policy neither writes nor deletes is left as it was. */
  lemma SecuredKeepsOthers(h: HeaderMap, count: nat, k: HeaderName)
    requires !k.Hardened? && !k.Fingerprint? && k != XRateLimit && k != XRateLimitRemaining
    ensures k in Secured(h, count) <==> k in h
    ensures k in h ==> Secured(h, count)[k] == h[k]
  {
  }

  /** Applying the policy a second time with the same count changes nothing. */
  lemma SecuredIdempotent(h: HeaderMap, count: nat)
    ensures Secured(Secured(h, count), count) == Secured(h, count)
  {
  }

  /** The position of each hardening header in the order the policy sets them. */
  function Rank(w: Hardening): (r: nat)
    ensures r < 20
  {
    match w
    case AccessControlAllowOrigin => 0
    case CacheControl => 1
    case ContentSecurityPolicy => 2
    case CrossOriginEmbedderPolicy => 3
    case CrossOriginOpenerPolicy => 4
    case CrossOriginResourcePolicy => 5
    case ExpectCt => 6
    case Expires => 7
    case OriginAgentCluster => 8
    case PermissionsPolicy => 9
    case Pragma => 10
    case ReferrerPolicy => 11
    case StrictTransportSecurity => 12
    case TimingAllowOrigin => 13
    case XContentTypeOptions => 14
    case XDnsPrefetchControl => 15
    case XDownloadOptions => 16
    case XFrameOptions => 17
    case XPermittedCrossDomainPolicies => 18
    case XXssProtection => 19
  }

  function ByRank(i: nat): (w: Hardening)
    requires i < 20
    ensures Rank(w) == i
  {
    if i == 0 then AccessControlAllowOrigin else
    if i == 1 then CacheControl else
    if i == 2 then ContentSecurityPolicy else
    if i == 3 then CrossOriginEmbedderPolicy else
    if i == 4 then CrossOriginOpenerPolicy else
    if i == 5 then CrossOriginResourcePolicy else
    if i == 6 then ExpectCt else
    if i == 7 then Expires else
    if i == 8 then OriginAgentCluster else
    if i == 9 then PermissionsPolicy else
    if i == 10 then Pragma else
    if i == 11 then ReferrerPolicy else
    if i == 12 then StrictTransportSecurity else
    if i == 13 then TimingAllowOrigin else
    if i == 14 then XContentTypeOptions else
    if i == 15 then XDnsPrefetchControl else
    if i == 16 then XDownloadOptions else
    if i == 17 then XFrameOptions else
    if i == 18 then XPermittedCrossDomainPolicies else
    XXssProtection
  }

  lemma ByRankRank(w: Hardening)
    ensures ByRank(Rank(w)) == w
  {
  }

  /** `X-XSS-Protection` is the only hardening header set after the telemetry headers. */
  lemma LastRank(w: Hardening)
    ensures Rank(w) < 19 <==> w != XXssProtection
  {
  }

  /** The first `n` hardening headers, in the policy's order, set on `h` to the values `fixed` gives. */
  function HardenUpTo(h: HeaderMap, n: nat, fixed: Hardening -> string): HeaderMap
    requires n <= 20
  {
    if n == 0 then h else HardenUpTo(h, n - 1, fixed)[Hardened(ByRank(n - 1)) := fixed(ByRank(n - 1))]
  }

  lemma {:induction false} HardenUpToLookup(h: HeaderMap, n: nat, fixed: Hardening -> string, k: HeaderName)
    requires n <= 20
    ensures k in HardenUpTo(h, n, fixed) <==> k in h || (k.Hardened? && Rank(k.policy) < n)
    ensures k in HardenUpTo(h, n, fixed) ==>
      HardenUpTo(h, n, fixed)[k] == if k.Hardened? && Rank(k.policy) < n then fixed(k.policy) else h[k]
  {
    if n > 0 {
      HardenUpToLookup(h, n - 1, fixed, k);
      if k.Hardened? {
        ByRankRank(k.policy);
      }
    }
  }

  /** The four `delete` calls. */
  function Strip(m: HeaderMap): HeaderMap {
    m - {Fingerprint(Server)} - {Fingerprint(XPoweredBy)} - {Fingerprint(XAspNetVersion)} - {Fingerprint(XAspNetMvcVersion)}
  }

  lemma StripLookup(m: HeaderMap, k: HeaderName)
    ensures k in Strip(m) <==> k in m && !k.Fingerprint?
    ensures k in Strip(m) ==> Strip(m)[k] == m[k]
  {
    if k.Fingerprint? {
      match k.fingerprint {
        case Server =>
        case XPoweredBy =>
        case XAspNetVersion =>
        case XAspNetMvcVersion =>
      }
    }
  }

  /**
   * The policy's `set` and `delete` calls, in the order it makes them, with the
   * hardening values `fixed` gives and the two telemetry values given.
   */
  function InOrder(h: HeaderMap, fixed: Hardening -> string, limit: string, remaining: string): HeaderMap {
    Strip(HardenUpTo(h, 19, fixed)[XRateLimit := limit][XRateLimitRemaining := remaining]
            [Hardened(XXssProtection) := fixed(XXssProtection)])
  }

  lemma InOrderHardened(h: HeaderMap, fixed: Hardening -> string, limit: string, remaining: string, w: Hardening)
    ensures var m := InOrder(h, fixed, limit, remaining);
      Hardened(w) in m && m[Hardened(w)] == fixed(w)
  {
    var m := HardenUpTo(h, 19, fixed)[XRateLimit := limit][XRateLimitRemaining := remaining]
               [Hardened(XXssProtection) := fixed(XXssProtection)];
    StripLookup(m, Hardened(w));
    if w != XXssProtection {
      LastRank(w);
      HardenUpToLookup(h, 19, fixed, Hardened(w));
    }
  }

  lemma InOrderStripped(h: HeaderMap, fixed: Hardening -> string, limit: string, remaining: string, f: Fingerprinting)
    ensures Fingerprint(f) !in InOrder(h, fixed, limit, remaining)
  {
    StripLookup(HardenUpTo(h, 19, fixed)[XRateLimit := limit][XRateLimitRemaining := remaining]
                  [Hardened(XXssProtection) := fixed(XXssProtection)], Fingerprint(f));
  }

  lemma InOrderTelemetry(h: HeaderMap, fixed: Hardening -> string, limit: string, remaining: string)
    ensures var m := InOrder(h, fixed, limit, remaining);
      && XRateLimit in m && m[XRateLimit] == limit
      && XRateLimitRemaining in m && m[XRateLimitRemaining] == remaining
  {
    var m := HardenUpTo(h, 19, fixed)[XRateLimit := limit][XRateLimitRemaining := remaining]
               [Hardened(XXssProtection) := fixed(XXssProtection)];
    StripLookup(m, XRateLimit);
    StripLookup(m, XRateLimitRemaining);
  }

  lemma InOrderKeepsOthers(h: HeaderMap, fixed: Hardening -> string, limit: string, remaining: string, k: HeaderName)
    requires !k.Hardened? && !k.Fingerprint? && k != XRateLimit && k != XRateLimitRemaining
    ensures k in InOrder(h, fixed, limit, remaining) <==> k in h
    ensures k in h ==> InOrder(h, fixed, limit, remaining)[k] == h[k]
  {
    StripLookup(HardenUpTo(h, 19, fixed)[XRateLimit := limit][XRateLimitRemaining := remaining]
                  [Hardened(XXssProtection) := fixed(XXssProtection)], k);
    HardenUpToLookup(h, 19, fixed, k);
  }

  /** Setting the headers one by one in the policy's order yields `Secured`. */
  lemma InOrderSecured(h: HeaderMap, count: nat)
    ensures InOrder(h, Fixed, RateLimitValue(count), RemainingValue(count)) == Secured(h, count)
  {
    var limit, remaining := RateLimitValue(count), RemainingValue(count);
    var c, s := InOrder(h, Fixed, limit, remaining), Secured(h, count);
    forall k: HeaderName ensures (k in c <==> k in s) && (k in c ==> c[k] == s[k]) {
      match k
      case Hardened(w) => InOrderHardened(h, Fixed, limit, remaining, w); SecuredFixed(h, count, w);
      case Fingerprint(f) => InOrderStripped(h, Fixed, limit, remaining, f); SecuredStripped(h, count, f);
      case XRateLimit => InOrderTelemetry(h, Fixed, limit, remaining);
      case XRateLimitRemaining => InOrderTelemetry(h, Fixed, limit, remaining);
      case _ => InOrderKeepsOthers(h, Fixed, limit, remaining, k); SecuredKeepsOthers(h, count, k);
    }
  }

  /**
   * The first nineteen `set` calls of `sentinel`, in the policy's order, with
   * the values `fixed` gives; after the k-th, the first k hardening headers by
   * rank hold their values.
   */
  method SetHardenings(headers: Headers, fixed: Hardening -> string)
    modifies headers
    ensures headers.fields == HardenUpTo(old(headers.fields), 19, fixed)
  {
    ghost var h0 := headers.fields;
    headers.Set(Hardened(AccessControlAllowOrigin), fixed(AccessControlAllowOrigin));
    assert headers.fields == HardenUpTo(h0, 1, fixed);
    headers.Set(Hardened(CacheControl), fixed(CacheControl));
    assert headers.fields == HardenUpTo(h0, 2, fixed);
    headers.Set(Hardened(ContentSecurityPolicy), fixed(ContentSecurityPolicy));
    assert headers.fields == HardenUpTo(h0, 3, fixed);
    headers.Set(Hardened(CrossOriginEmbedderPolicy), fixed(CrossOriginEmbedderPolicy));
    assert headers.fields == HardenUpTo(h0, 4, fixed);
    headers.Set(Hardened(CrossOriginOpenerPolicy), fixed(CrossOriginOpenerPolicy));
    assert headers.fields == HardenUpTo(h0, 5, fixed);
    headers.Set(Hardened(CrossOriginResourcePolicy), fixed(CrossOriginResourcePolicy));
    assert headers.fields == HardenUpTo(h0, 6, fixed);
    headers.Set(Hardened(ExpectCt), fixed(ExpectCt));
    assert headers.fields == HardenUpTo(h0, 7, fixed);
    headers.Set(Hardened(Expires), fixed(Expires));
    assert headers.fields == HardenUpTo(h0, 8, fixed);
    headers.Set(Hardened(OriginAgentCluster), fixed(OriginAgentCluster));
    assert headers.fields == HardenUpTo(h0, 9, fixed);
    headers.Set(Hardened(PermissionsPolicy), fixed(PermissionsPolicy));
    assert headers.fields == HardenUpTo(h0, 10, fixed);
    headers.Set(Hardened(Pragma), fixed(Pragma));
    assert headers.fields == HardenUpTo(h0, 11, fixed);
    headers.Set(Hardened(ReferrerPolicy), fixed(ReferrerPolicy));
    assert headers.fields == HardenUpTo(h0, 12, fixed);
    headers.Set(Hardened(StrictTransportSecurity), fixed(StrictTransportSecurity));
    assert headers.fields == HardenUpTo(h0, 13, fixed);
    headers.Set(Hardened(TimingAllowOrigin), fixed(TimingAllowOrigin));
    assert headers.fields == HardenUpTo(h0, 14, fixed);
    headers.Set(Hardened(XContentTypeOptions), fixed(XContentTypeOptions));
    assert headers.fields == HardenUpTo(h0, 15, fixed);
    headers.Set(Hardened(XDnsPrefetchControl), fixed(XDnsPrefetchControl));
    assert headers.fields == HardenUpTo(h0, 16, fixed);
    headers.Set(Hardened(XDownloadOptions), fixed(XDownloadOptions));
    assert headers.fields == HardenUpTo(h0, 17, fixed);
    headers.Set(Hardened(XFrameOptions), fixed(XFrameOptions));
    assert headers.fields == HardenUpTo(h0, 18, fixed);
    headers.Set(Hardened(XPermittedCrossDomainPolicies), fixed(XPermittedCrossDomainPolicies));
    assert headers.fields == HardenUpTo(h0, 19, fixed);
  }

  /**
   * `sentinel`: counts the request, then overwrites the hardening and telemetry
   * headers on `headers` and deletes the fingerprint headers; reports whether
   * the client is over quota. The audit log line is not modelled.
   */
  method Apply(headers: Headers, limiter: RateLimiter, remoteIp: string, httpMethod: string, now: int)
    returns (rateLimited: bool)
    modifies headers, limiter
    ensures var t := RateLimit(old(limiter.clients), remoteIp, httpMethod, now);
      && limiter.clients == t.clients
      && rateLimited == t.decision.limited
      && headers.fields == Secured(old(headers.fields), t.decision.count)
  {
    ghost var h0 := headers.fields;
    var d := limiter.Check(remoteIp, httpMethod, now);
    SetHardenings(headers, Fixed);
    headers.Set(XRateLimit, RateLimitValue(d.count));
    headers.Set(XRateLimitRemaining, RemainingValue(d.count));
    headers.Set(Hardened(XXssProtection), Fixed(XXssProtection));
    headers.Delete(Fingerprint(Server));
    headers.Delete(Fingerprint(XPoweredBy));
    headers.Delete(Fingerprint(XAspNetVersion));
    headers.Delete(Fingerprint(XAspNetMvcVersion));
    InOrderSecured(h0, d.count);
    rateLimited := d.limited;
  }
}
