/**
 * `Middlewares`: the route wrapper that admits protected requests through the
 * traffic-jam ledger, calls the downstream handler, resolves the ledger and
 * passes the response through the sentinel; and the two static-file wrappers
 * that do the same for worker scripts and text files.
 *
 * Each operation is a method over the store (`Kv`), the limiter's client table
 * (`RateLimiter`) and fresh `Headers` objects, proved equal to a function of
 * the inputs and the old state; the properties the middleware promises are
 * lemmas about those functions.
 */
module Middlewares {
  import opened Strings
  import opened Fetch
  import opened Http
  import opened Sentinel
  import opened Ledger

  const PROTECTED_METHODS: set<string> := {"POST", "PUT", "DELETE", "PATCH"}
  const OPEN_METHODS: set<string> := {"GET", "HEAD", "OPTIONS", "CONNECT", "TRACE"}

  const TRAFFIC_JAM_PATH := "/api/v0/traffic-jam"
  const INTERNAL_ERROR_PREFIX := "-ERR internal server error: "
  const UNKNOWN_ERROR := "unknown error"
  const JAVASCRIPT_CONTENT_TYPE := "application/javascript"
  const PLAIN_TEXT_CONTENT_TYPE := "text/plain; charset=utf-8"

  /**
   * Whether a method goes through the ledger: a protected method, or any
   * method that is not one of the open ones. Unknown methods are therefore
   * checked, and the protected list adds nothing to the open list's complement.
   */
  function TrafficJam(httpMethod: string): (r: bool)
    ensures r <==> httpMethod !in OPEN_METHODS
  {
    httpMethod in PROTECTED_METHODS || httpMethod !in OPEN_METHODS
  }

  /** Protected methods and methods the middleware does not know are both checked. */
  lemma TrafficJamMethods(httpMethod: string)
    ensures httpMethod in PROTECTED_METHODS ==> TrafficJam(httpMethod)
    ensures httpMethod !in PROTECTED_METHODS && httpMethod !in OPEN_METHODS ==> TrafficJam(httpMethod)
    ensures httpMethod in OPEN_METHODS ==> !TrafficJam(httpMethod)
  {
  }

  /** The text a caught downstream failure contributes to the 500 body. */
  function Reason(error: Thrown): string {
    match error
    case ErrorObject(message) => message
    case OtherValue(_) => UNKNOWN_ERROR
  }

  /**
   * The downstream call wrapped in `try`: its response, or a 500 text response
   * naming the failure. The message is kept as the handler wrote it.
   */
  function Downstream(next: NextResult): (r: Response)
    ensures next.Returned? ==> r == next.response
    ensures next.Threw? ==> r.status == 500 && r.body.TextBody?
    ensures next.Threw? && next.error.ErrorObject? ==> r.body.text == INTERNAL_ERROR_PREFIX + next.error.message
    ensures next.Threw? && next.error.OtherValue? ==> r.body.text == INTERNAL_ERROR_PREFIX + UNKNOWN_ERROR
  {
    match next
    case Returned(response) => response
    case Threw(error) => TextResponse(500, INTERNAL_ERROR_PREFIX + Reason(error))
  }

  /**
   * The end of `route`, `worker` and `text`: after the sentinel has counted the
   * request with decision `d` and secured the downstream headers, an over-quota
   * client gets an empty 429; otherwise the downstream response is passed on
   * with the secured headers, the content type forced when one is given, and
   * `X-Response-Time` set.
   */
  function Finalize(resp: Response, d: Decision, contentType: Option<string>, responseTime: string): (r: Response)
    ensures d.limited ==> r.status == 429 && r.body == NullBody
    ensures !d.limited ==> r.status == resp.status && r.statusText == resp.statusText && r.body == resp.body
  {
    var secured := Secured(resp.headers, d.count);
    if d.limited then EmptyResponse(429, secured)
    else
      var typed := if contentType.Some? then secured[ContentType := contentType.value] else secured;
      Response(resp.status, resp.statusText, typed[XResponseTime := responseTime], resp.body)
  }

  /**
   * The headers of a finalized response: the secured downstream headers alone
   * when the client is over quota; otherwise the secured headers with the
   * content type (when given) and `X-Response-Time` added, and nothing else.
   */
  lemma FinalizeHeaders(resp: Response, d: Decision, contentType: Option<string>, responseTime: string)
    ensures var r := Finalize(resp, d, contentType, responseTime);
      var secured := Secured(resp.headers, d.count);
      && (d.limited ==> r.headers == secured)
      && (!d.limited ==> XResponseTime in r.headers && r.headers[XResponseTime] == responseTime)
      && (!d.limited && contentType.Some? ==> ContentType in r.headers && r.headers[ContentType] == contentType.value)
      && (!d.limited ==> forall k :: k != XResponseTime && (contentType.Some? ==> k != ContentType) ==>
            (k in r.headers <==> k in secured) && (k in secured ==> r.headers[k] == secured[k]))
  {
  }

  /**
   * Whatever the decision, a finalized response carries every hardening header
   * with its fixed value, the two rate-limit headers, and none of the
   * fingerprint headers.
   */
  lemma FinalizeSecured(resp: Response, d: Decision, contentType: Option<string>, responseTime: string)
    ensures var r := Finalize(resp, d, contentType, responseTime);
      && (forall w :: Hardened(w) in r.headers && r.headers[Hardened(w)] == Fixed(w))
      && (forall f :: Fingerprint(f) !in r.headers)
      && r.headers[XRateLimit] == RateLimitValue(d.count)
      && r.headers[XRateLimitRemaining] == RemainingValue(d.count)
  {
    var r := Finalize(resp, d, contentType, responseTime);
    forall w ensures Hardened(w) in r.headers && r.headers[Hardened(w)] == Fixed(w) {
      SecuredFixed(resp.headers, d.count, w);
    }
    forall f ensures Fingerprint(f) !in r.headers {
      SecuredStripped(resp.headers, d.count, f);
    }
    SecuredTelemetry(resp.headers, d.count);
  }

  /** The response to a request the ledger rejects: 429 when over quota, else a 303 to the traffic-jam page. */
  function Rejected(d: Decision): (r: Response)
    ensures r.body == NullBody
    ensures r.status == if d.limited then 429 else 303
  {
    var secured := Secured(map[], d.count);
    if d.limited then EmptyResponse(429, secured)
    else EmptyResponse(303, secured[Location := TRAFFIC_JAM_PATH])
  }

  /**
   * The headers of a rejection: the sentinel's headers over an empty set, plus
   * the location of the traffic-jam page on a redirect.
   */
  lemma RejectedHeaders(d: Decision)
    ensures var r := Rejected(d);
      && (d.limited ==> r.headers == Secured(map[], d.count))
      && (!d.limited ==> Location in r.headers && r.headers[Location] == TRAFFIC_JAM_PATH)
      && (!d.limited ==> r.headers - {Location} == Secured(map[], d.count))
  {
    SecuredKeepsOthers(map[], d.count, Location);
  }

  /**
   * What other requests do to this client's ledger between the admission
   * write and the re-read: nothing, a write of some other entry, or a delete.
   */
  datatype Between = Untouched | Rewritten(stored: Stored) | Erased

  function Interleave(entries: map<Key, Stored>, key: Key, between: Between): (r: map<Key, Stored>)
    ensures forall k :: k != key ==> Read(r, k) == Read(entries, k)
  {
    match between
    case Untouched => entries
    case Rewritten(stored) => entries[key := stored]
    case Erased => entries - {key}
  }

  /** The store after the resolve step: the resolve write when there is one, else unchanged. */
  function Resolved(entries: map<Key, Stored>, key: Key, admitted: Entry, xPurpose: Option<string>): map<Key, Stored> {
    match Resolution(Read(entries, key), admitted, xPurpose)
    case None => entries
    case Some(v) => entries[key := Stored(v, Some(LEDGER_TTL))]
  }

  /**
   * The inputs `route` takes from outside the model: the fresh request id, the
   * wall clock at admission and at the sentinel (milliseconds), the formatted
   * response time, the downstream outcome and the interleaved store change.
   */
  datatype Env = Env(requestId: string, admittedAt: nat, checkedAt: int, responseTime: string,
                     next: NextResult, between: Between)

  /** The response `route` returns, with the store and the client table it leaves. */
  datatype Outcome = Outcome(response: Response, entries: map<Key, Stored>, clients: map<string, Window>)

  /** The record admitted for a request of method `httpMethod` to `pathname`. */
  function Admitted(h: seq<Traffic>, remoteIp: string, pathname: string, httpMethod: string, env: Env): Entry {
    Admission(h, Pending(env.requestId, remoteIp, pathname, httpMethod, env.admittedAt))
  }

  /**
   * `route` as a function of the store, the client table and the inputs. A
   * checked request that a blocking record rejects never reaches downstream;
   * otherwise the downstream response is finalized, and for a checked request
   * the store shows the admission write, the interleaved change and the
   * resolve write, in that order.
   */
  function RouteResult(entries: map<Key, Stored>, clients: map<string, Window>, app: string, req: Request,
                       remoteIp: string, env: Env): Outcome
  {
    var m := req.httpMethod;
    var key := TrafficKey(app, remoteIp);
    var h := Histories(Read(entries, key));
    var t := RateLimit(clients, remoteIp, m, env.checkedAt);
    if TrafficJam(m) && Find(h, req.pathname, m).Some? then
      Outcome(Rejected(t.decision), entries, t.clients)
    else
      var resp := Downstream(env.next);
      var after :=
        if TrafficJam(m) then
          var admitted := Admitted(h, remoteIp, req.pathname, m, env);
          Resolved(Interleave(entries[key := Stored(admitted, None)], key, env.between), key, admitted,
                   Lookup(resp.headers, XPurpose))
        else entries;
      Outcome(Finalize(resp, t.decision, None, env.responseTime), after, t.clients)
  }

  /** An open method never touches the ledger and always reaches downstream. */
  lemma OpenMethodSkipsLedger(entries: map<Key, Stored>, clients: map<string, Window>, app: string, req: Request,
                              remoteIp: string, env: Env)
    requires req.httpMethod in OPEN_METHODS
    ensures var o := RouteResult(entries, clients, app, req, remoteIp, env);
      var t := RateLimit(clients, remoteIp, req.httpMethod, env.checkedAt);
      && o.entries == entries
      && o.response == Finalize(Downstream(env.next), t.decision, None, env.responseTime)
  {
  }

  /**
   * A checked request whose ledger holds a blocking record is answered 429 or
   * 303 to the traffic-jam page, leaves the store as it was, and does not
   * depend on the downstream outcome or on the rest of the inputs.
   */
  lemma BlockedIsRejected(entries: map<Key, Stored>, clients: map<string, Window>, app: string, req: Request,
                          remoteIp: string, env: Env, env': Env)
    requires TrafficJam(req.httpMethod)
    requires Find(Histories(Read(entries, TrafficKey(app, remoteIp))), req.pathname, req.httpMethod).Some?
    requires env'.checkedAt == env.checkedAt
    ensures var o := RouteResult(entries, clients, app, req, remoteIp, env);
      && o.entries == entries
      && o.response.body == NullBody
      && (o.response.status == 429 || o.response.status == 303)
      && (o.response.status == 303 ==> o.response.headers[Location] == TRAFFIC_JAM_PATH)
      && RouteResult(entries, clients, app, req, remoteIp, env') == o
  {
    RejectedHeaders(RateLimit(clients, remoteIp, req.httpMethod, env.checkedAt).decision);
  }

  /** Every response of `route` whose client is over quota is an empty 429, whatever the ledger says. */
  lemma OverQuotaIs429(entries: map<Key, Stored>, clients: map<string, Window>, app: string, req: Request,
                       remoteIp: string, env: Env)
    requires RateLimit(clients, remoteIp, req.httpMethod, env.checkedAt).decision.limited
    ensures var o := RouteResult(entries, clients, app, req, remoteIp, env);
      o.response.status == 429 && o.response.body == NullBody
  {
  }

  /** A downstream failure reaches a client under quota as a 500 naming the failure. */
  lemma ThrownIs500(entries: map<Key, Stored>, clients: map<string, Window>, app: string, req: Request,
                    remoteIp: string, env: Env)
    requires env.next.Threw?
    requires !RateLimit(clients, remoteIp, req.httpMethod, env.checkedAt).decision.limited
    requires !TrafficJam(req.httpMethod) ||
             Find(Histories(Read(entries, TrafficKey(app, remoteIp))), req.pathname, req.httpMethod).None?
    ensures var o := RouteResult(entries, clients, app, req, remoteIp, env);
      && o.response.status == 500
      && o.response.body == TextBody(INTERNAL_ERROR_PREFIX + Reason(env.next.error))
  {
  }

  /** `route` writes nothing but the requesting client's ledger. */
  lemma RouteFrame(entries: map<Key, Stored>, clients: map<string, Window>, app: string, req: Request,
                   remoteIp: string, env: Env, other: Key)
    requires other != TrafficKey(app, remoteIp)
    ensures Read(RouteResult(entries, clients, app, req, remoteIp, env).entries, other) == Read(entries, other)
  {
    var key := TrafficKey(app, remoteIp);
    var m := req.httpMethod;
    var h := Histories(Read(entries, key));
    if TrafficJam(m) && Find(h, req.pathname, m).None? {
      var admitted := Admitted(h, remoteIp, req.pathname, m, env);
      var e1 := entries[key := Stored(admitted, None)];
      assert Read(e1, other) == Read(entries, other);
    }
  }

  /**
   * Run sequentially, with nothing else writing the ledger in between, an
   * admitted request with a fresh id leaves its record solved at the end of
   * the old history, written with the 24-hour expiry, and an identical later
   * request finds no blocking record.
   */
  lemma AdmittedRunClears(entries: map<Key, Stored>, clients: map<string, Window>, app: string, req: Request,
                          remoteIp: string, env: Env)
    requires TrafficJam(req.httpMethod) && env.between == Untouched
    requires var h := Histories(Read(entries, TrafficKey(app, remoteIp)));
      && (forall j :: 0 <= j < |h| ==> !Blocks(h[j], req.pathname, req.httpMethod))
      && (forall j :: 0 <= j < |h| ==> h[j].request != env.requestId)
    ensures var key := TrafficKey(app, remoteIp);
      var h := Histories(Read(entries, key));
      var o := RouteResult(entries, clients, app, req, remoteIp, env);
      var rec := Pending(env.requestId, remoteIp, req.pathname, req.httpMethod, env.admittedAt);
      var purpose := OrElse(Lookup(Downstream(env.next).headers, XPurpose), UNCLEAR);
      && key in o.entries
      && o.entries[key].expireIn == Some(LEDGER_TTL)
      && HistoriesOf(o.entries[key].value) == h + [Solve(rec, purpose)]
      && Find(HistoriesOf(o.entries[key].value), req.pathname, req.httpMethod).None?
  {
    var key := TrafficKey(app, remoteIp);
    var h := Histories(Read(entries, key));
    var m := req.httpMethod;
    var rec := Pending(env.requestId, remoteIp, req.pathname, m, env.admittedAt);
    var xPurpose := Lookup(Downstream(env.next).headers, XPurpose);
    assert Find(h, req.pathname, m).None?;
    var admitted := Admission(h, rec);
    var e1 := entries[key := Stored(admitted, None)];
    assert Read(e1, key) == Some(Stored(admitted, None));
    AdmitThenResolveHistory(h, rec, xPurpose);
    AdmitThenResolve(h, rec, xPurpose);
  }

  /**
   * When the ledger was deleted before the re-read, or rewritten without the
   * admitted id, the resolve step writes nothing: the store keeps the
   * interleaved change.
   */
  lemma LostRecordNotWritten(entries: map<Key, Stored>, clients: map<string, Window>, app: string, req: Request,
                             remoteIp: string, env: Env)
    requires TrafficJam(req.httpMethod)
    requires Find(Histories(Read(entries, TrafficKey(app, remoteIp))), req.pathname, req.httpMethod).None?
    requires env.between.Erased? ||
             (env.between.Rewritten? &&
              forall j :: 0 <= j < |HistoriesOf(env.between.stored.value)| ==>
                HistoriesOf(env.between.stored.value)[j].request != env.requestId)
    ensures var key := TrafficKey(app, remoteIp);
      var o := RouteResult(entries, clients, app, req, remoteIp, env);
      && (env.between.Erased? ==> o.entries == entries - {key})
      && (env.between.Rewritten? ==> o.entries == entries[key := env.between.stored])
  {
    var key := TrafficKey(app, remoteIp);
    var h := Histories(Read(entries, key));
    var m := req.httpMethod;
    var admitted := Admitted(h, remoteIp, req.pathname, m, env);
    assert HistoriesOf(admitted)[|HistoriesOf(admitted)| - 1].request == env.requestId;
    var e2 := Interleave(entries[key := Stored(admitted, None)], key, env.between);
    if env.between.Erased? {
      assert Read(e2, key) == None;
      assert e2 == entries - {key};
    } else {
      assert Read(e2, key) == Some(env.between.stored);
    }
  }

  /**
   * `Middlewares.route`. The store and the limiter are changed in place; the
   * method performs the interleaved store change itself, at the point where
   * other requests could make it.
   */
  method Route(kv: Kv, limiter: RateLimiter, app: string, req: Request, remoteIp: string, env: Env)
    returns (response: Response)
    modifies kv, limiter
    ensures RouteResult(old(kv.entries), old(limiter.clients), app, req, remoteIp, env)
            == Outcome(response, kv.entries, limiter.clients)
  {
    var m := req.httpMethod;
    var trafficJam := m in PROTECTED_METHODS || m !in OPEN_METHODS;
    var key := TrafficKey(app, remoteIp);
    var serverData: Option<Entry> := None;
    if trafficJam {
      var traffic := kv.Get(key);
      var histories := Histories(traffic);
      var existing := Find(histories, req.pathname, m);
      if existing.Some? {
        response := Reject(limiter, remoteIp, m, env.checkedAt);
        return;
      }
      var admitted := Admission(histories, Pending(env.requestId, remoteIp, req.pathname, m, env.admittedAt));
      serverData := Some(admitted);
      kv.Set(key, admitted, None);
    }
    var downstream := Downstream(env.next);
    if trafficJam && serverData.Some? {
      Interfere(kv, key, env.between);
      Resolve(kv, key, serverData.value, Lookup(downstream.headers, XPurpose));
    }
    response := Pass(downstream, limiter, remoteIp, m, env.checkedAt, None, env.responseTime);
  }

  /** The rejection branch of `route`: the sentinel over empty headers, then 429 or the redirect. */
  method Reject(limiter: RateLimiter, remoteIp: string, httpMethod: string, now: int) returns (response: Response)
    modifies limiter
    ensures var t := RateLimit(old(limiter.clients), remoteIp, httpMethod, now);
      response == Rejected(t.decision) && limiter.clients == t.clients
  {
    var headers := new Headers(map[]);
    var rateLimited := Apply(headers, limiter, remoteIp, httpMethod, now);
    if rateLimited {
      return EmptyResponse(429, headers.fields);
    }
    headers.Set(Location, TRAFFIC_JAM_PATH);
    response := EmptyResponse(303, headers.fields);
  }

  /** The store change other requests make between the admission write and the re-read. */
  method Interfere(kv: Kv, key: Key, between: Between)
    modifies kv
    ensures kv.entries == Interleave(old(kv.entries), key, between)
  {
    match between
    case Untouched =>
    case Rewritten(stored) => kv.Set(key, stored.value, stored.expireIn);
    case Erased => kv.Delete(key);
  }

  /**
   * The resolve step of `route`: re-read the ledger, mark the admitted record
   * solved in place, recompute the status and write it back with the 24-hour
   * expiry; nothing is written when the history is empty or lacks the id.
   */
  method Resolve(kv: Kv, key: Key, serverData: Entry, xPurpose: Option<string>)
    modifies kv
    ensures kv.entries == Resolved(old(kv.entries), key, serverData, xPurpose)
  {
    var traffic := kv.Get(key);
    var histories := Histories(traffic);
    var sent := HistoriesOf(serverData);
    if |histories| > 0 && |sent| > 0 {
      var last := sent[|sent| - 1].request;
      var i := FindIndex(histories, last);
      if i != -1 {
        histories := histories[i := histories[i].(purpose := OrElse(xPurpose, UNCLEAR), status := SOLVED,
                                                  processing := false)];
        var active := AnyProcessing(histories);
        var updated := traffic.value.value.(success := !active,
                                            code := if active then ACTIVE_CODE else IDLE_CODE,
                                            message := if active then ACTIVE_MESSAGE else IDLE_MESSAGE,
                                            data := Some(Ledger(Some(histories))));
        kv.Set(key, updated, Some(LEDGER_TTL));
      }
    }
  }

  /**
   * The common end of `route`, `worker` and `text`: the sentinel over the
   * downstream headers (`route` changes them in place; `worker` and `text`
   * copy them first), then 429 or the response passed on with the
   * content type (when given) and `X-Response-Time` set.
   */
  method Pass(downstream: Response, limiter: RateLimiter, remoteIp: string, httpMethod: string, now: int,
              contentType: Option<string>, responseTime: string)
    returns (response: Response)
    modifies limiter
    ensures var t := RateLimit(old(limiter.clients), remoteIp, httpMethod, now);
      response == Finalize(downstream, t.decision, contentType, responseTime) && limiter.clients == t.clients
  {
    var headers := new Headers(downstream.headers);
    var rateLimited := Apply(headers, limiter, remoteIp, httpMethod, now);
    if rateLimited {
      return EmptyResponse(429, headers.fields);
    }
    if contentType.Some? {
      headers.Set(ContentType, contentType.value);
    }
    headers.Set(XResponseTime, responseTime);
    response := Response(downstream.status, downstream.statusText, headers.fields, downstream.body);
  }

  /** `Middlewares.worker`: a worker script passed on as JavaScript. */
  method Worker(downstream: Response, limiter: RateLimiter, remoteIp: string, httpMethod: string, now: int,
                responseTime: string)
    returns (response: Response)
    modifies limiter
    ensures var t := RateLimit(old(limiter.clients), remoteIp, httpMethod, now);
      response == Finalize(downstream, t.decision, Some(JAVASCRIPT_CONTENT_TYPE), responseTime)
      && limiter.clients == t.clients
  {
    response := Pass(downstream, limiter, remoteIp, httpMethod, now, Some(JAVASCRIPT_CONTENT_TYPE), responseTime);
  }

  /** `Middlewares.text`: a text file passed on as UTF-8 plain text. */
  method Text(downstream: Response, limiter: RateLimiter, remoteIp: string, httpMethod: string, now: int,
              responseTime: string)
    returns (response: Response)
    modifies limiter
    ensures var t := RateLimit(old(limiter.clients), remoteIp, httpMethod, now);
      response == Finalize(downstream, t.decision, Some(PLAIN_TEXT_CONTENT_TYPE), responseTime)
      && limiter.clients == t.clients
  {
    response := Pass(downstream, limiter, remoteIp, httpMethod, now, Some(PLAIN_TEXT_CONTENT_TYPE), responseTime);
  }
}
