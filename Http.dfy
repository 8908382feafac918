/**
 * Response-envelope helpers of the `Http` class: the server-data envelope and
 * its defaults, the responder that either redirects a form post or answers in
 * JSON, the request-payload extractor, and the client identifier.
 */
module Http {
  import opened Strings
  import opened Fetch

  /** One entry of the envelope's `errors` record; the `unknown` value is kept as its text. */
  datatype Issue = Issue(issue: string, value: string)

  /**
   * The server-data envelope. `kind` is the envelope's `type` field; `D` is the
   * shape of its `data` record.
   */
  datatype ServerData<D> = ServerData(success: bool, code: int, kind: string, message: string,
                                      data: Option<D>, errors: Option<map<string, Issue>>,
                                      feedback: Option<string>)

  /** The same envelope with every field optional, as a caller of `data` supplies it. */
  datatype Partial<D> = Partial(success: Option<bool>, code: Option<int>, kind: Option<string>,
                                message: Option<string>, data: Option<D>,
                                errors: Option<map<string, Issue>>, feedback: Option<string>)

  const DEFAULT_CODE := 500
  const DEFAULT_KIND := "request"

  /** `Http.data`: a supplied field passes through; a missing one takes its default. */
  function Data<D>(p: Partial<D>): (r: ServerData<D>)
    ensures p.success.Some? ==> r.success == p.success.value
    ensures p.success.None? ==> !r.success
    ensures p.code.Some? ==> r.code == p.code.value
    ensures p.code.None? ==> r.code == DEFAULT_CODE
    ensures p.kind.Some? ==> r.kind == p.kind.value
    ensures p.kind.None? ==> r.kind == DEFAULT_KIND
    ensures p.message.Some? ==> r.message == p.message.value
    ensures p.message.None? ==> r.message == ""
    ensures r.data == p.data && r.errors == p.errors && r.feedback == p.feedback
  {
    ServerData(p.success.GetOr(false), p.code.GetOr(DEFAULT_CODE), p.kind.GetOr(DEFAULT_KIND),
               p.message.GetOr(""), p.data, p.errors, p.feedback)
  }

  /** A complete envelope seen as a partial one with every field supplied. */
  function Lift<D>(s: ServerData<D>): Partial<D> {
    Partial(Some(s.success), Some(s.code), Some(s.kind), Some(s.message), s.data, s.errors, s.feedback)
  }

  /** `data` leaves a complete envelope as it is. */
  lemma DataOfComplete<D>(s: ServerData<D>)
    ensures Data(Lift(s)) == s
  {
  }

  /** Applying `data` twice is the same as applying it once. */
  lemma DataIdempotent<D>(p: Partial<D>)
    ensures Data(Lift(Data(p))) == Data(p)
  {
    DataOfComplete(Data(p));
  }

  /** The cookie's `SameSite` attribute. */
  datatype SameSite = Strict | Lax | NoRestriction

  /** The cookie the responder sets; its value is the envelope (its URI-encoded JSON text is not modelled). */
  datatype Cookie<D> = Cookie(name: string, value: ServerData<D>, path: string, sameSite: SameSite,
                              secure: bool, httpOnly: bool, maxAge: nat)

  /** Why the `Response` constructor refuses a status for a JSON body. */
  datatype ResponseError =
    | RangeError  // the status is outside 200-599
    | TypeError   // the status is a null-body status, and a JSON body is never null

  /**
   * What the responder answers: a 303 redirect carrying a cookie, a JSON body
   * with a status, or the exception `Response.json` throws for a status it
   * refuses.
   */
  datatype Reply<D> =
    | SeeOther(headers: HeaderMap, cookie: Cookie<D>)
    | Json(status: int, body: ServerData<D>)
    | Throws(error: ResponseError)

  /** The statuses whose responses carry no body, as the Fetch standard lists them. */
  const NULL_BODY_STATUSES: set<int> := {101, 103, 204, 205, 304}

  const FORM_CONTENT_TYPE := "application/x-www-form-urlencoded"
  const JSON_CONTENT_TYPE := "application/json"
  const DEFAULT_PATHNAME := "/entrance"
  const UNCLEAR := "unclear"
  const COOKIE_MAX_AGE: nat := 60

  /**
   * `Http.json`: the envelope as a JSON response whose status is the
   * envelope's code. The constructor first rejects a status outside 200-599,
   * then a null-body status, since the serialized envelope is a body.
   */
  function JsonReply<D>(data: ServerData<D>): (r: Reply<D>)
    ensures r.Json? <==> 200 <= data.code <= 599 && data.code !in NULL_BODY_STATUSES
    ensures r.Json? ==> r.status == data.code && r.body == data
    ensures !(200 <= data.code <= 599) ==> r == Throws(RangeError)
    ensures 200 <= data.code <= 599 && data.code in NULL_BODY_STATUSES ==> r == Throws(TypeError)
    ensures !r.SeeOther?
  {
    if !(200 <= data.code <= 599) then Throws(RangeError)
    else if data.code in NULL_BODY_STATUSES then Throws(TypeError)
    else Json(data.code, data)
  }

  /**
   * An envelope `data` completes without a code is sent with status 500; only
   * an informational, null-body or out-of-range code makes `json` throw.
   */
  lemma JsonReplyOfDefaults<D>(p: Partial<D>)
    requires p.code.None?
    ensures JsonReply(Data(p)) == Json(DEFAULT_CODE, Data(p))
  {
  }

  /** Exactly the codes 200-599 other than 204, 205 and 304 are sent. */
  lemma JsonReplyAccepted<D>(data: ServerData<D>)
    ensures JsonReply(data).Json? <==> 200 <= data.code <= 599 && data.code != 204 && data.code != 205 && data.code != 304
  {
  }

  /**
   * `Http.responder`. The copies the source makes of `data`, `errors` and
   * `feedback` write back the values the spread already copied, so the body is
   * the envelope itself.
   */
  function Responder<D>(contentType: string, data: ServerData<D>, pathname: Option<string>): (r: Reply<D>)
    ensures Contains(contentType, FORM_CONTENT_TYPE) ==>
      var path := pathname.GetOr(DEFAULT_PATHNAME);
      && r.SeeOther?
      && r.headers.Keys == {Location, XPurpose}
      && r.headers[Location] == path
      && r.headers[XPurpose] == (if data.kind == "" then UNCLEAR else data.kind)
      && r.cookie == Cookie("data", data, path, Strict, true, true, COOKIE_MAX_AGE)
    ensures !Contains(contentType, FORM_CONTENT_TYPE) ==>
      && (r.Json? <==> 200 <= data.code <= 599 && data.code !in NULL_BODY_STATUSES)
      && (r.Json? ==> r.status == data.code && r.body == data)
      && (!(200 <= data.code <= 599) ==> r == Throws(RangeError))
      && (200 <= data.code <= 599 && data.code in NULL_BODY_STATUSES ==> r == Throws(TypeError))
  {
    var responseData := data;
    var path := pathname.GetOr(DEFAULT_PATHNAME);
    if Contains(contentType, FORM_CONTENT_TYPE) then
      var cookie := Cookie("data", responseData, path, Strict, true, true, COOKIE_MAX_AGE);
      SeeOther(map[Location := path, XPurpose := OrElse(Some(data.kind), UNCLEAR)], cookie)
    else
      JsonReply(responseData)
  }

  /** The result of parsing a request body: its fields, or a parse failure. */
  datatype Parsed = Fields(fields: map<string, string>) | Malformed

  const REMOTE_IP_FIELD := "remoteIp"

  /**
   * `Http.payloadExtractor`: the content type is compared exactly with the two
   * supported ones; an unsupported type or a body that fails to parse yields an
   * empty payload; otherwise `remoteIp` is set first and a payload field of the
   * same name overrides it.
   */
  function PayloadExtractor(contentType: Option<string>, parsed: Parsed, clientId: string): (r: map<string, string>)
    ensures contentType != Some(FORM_CONTENT_TYPE) && contentType != Some(JSON_CONTENT_TYPE) ==> r == map[]
    ensures parsed.Malformed? ==> r == map[]
    ensures contentType in {Some(FORM_CONTENT_TYPE), Some(JSON_CONTENT_TYPE)} && parsed.Fields? ==>
      && r.Keys == parsed.fields.Keys + {REMOTE_IP_FIELD}
      && (forall k :: k in parsed.fields ==> r[k] == parsed.fields[k])
      && (REMOTE_IP_FIELD !in parsed.fields ==> r[REMOTE_IP_FIELD] == clientId)
  {
    match contentType
    case Some(t) =>
      if t == FORM_CONTENT_TYPE || t == JSON_CONTENT_TYPE then
        match parsed
        case Fields(f) => map[REMOTE_IP_FIELD := clientId] + f
        case Malformed => map[]
      else map[]
    case None => map[]
  }

  /**
   * The client identifier: the `X-Forwarded-For` header when present and not
   * empty, else the peer's host name.
   */
  function ClientId(req: Request): (id: string)
    ensures XForwardedFor in req.headers && req.headers[XForwardedFor] != "" ==>
      id == req.headers[XForwardedFor]
    ensures XForwardedFor !in req.headers || req.headers[XForwardedFor] == "" ==>
      id == req.remoteHost
  {
    OrElse(Lookup(req.headers, XForwardedFor), req.remoteHost)
  }
}
