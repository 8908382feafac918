/**
 * The application middleware: the `AppContext` that is set up once and then
 * gates every request through its ready flag, and the handler that sends a
 * request to the 404 answer, the socket upgrade, the static-file wrappers,
 * the route wrapper or straight downstream.
 */
module AppMiddleware {
  import opened Strings
  import opened Fetch
  import opened Http
  import opened Sentinel
  import opened Ledger
  import opened Middlewares

  const NOT_INITIALIZED := "-ERR app context is not initialized"
  const NOT_FOUND := "-ERR 404 not found"
  const WORKERS_PREFIX := "/workers/"
  const WEBSOCKET := "websocket"

  /** `error instanceof Error ? error.message.toLowerCase() : String(error)`. */
  function Describe(error: Thrown): (s: string)
    ensures error.ErrorObject? ==> |s| == |error.message| && forall i :: 0 <= i < |s| ==> s[i] == LowerChar(error.message[i])
    ensures error.OtherValue? ==> s == error.text
  {
    match error
    case ErrorObject(message) => ToLower(message)
    case OtherValue(text) => text
  }

  /** The outcome of the database probe that `setup` runs. */
  datatype Probe = Connected | ProbeFailed(error: Thrown)

  /** The application context: an id, an environment name, and whether setup has completed. */
  class AppContext {
    const id: string
    const env: string
    var ready: bool

    constructor (id: string, env: string)
      ensures this.id == id && this.env == env && !ready
    {
      this.id := id;
      this.env := env;
      ready := false;
    }

    /**
     * `setup`: nothing to do once ready; otherwise the probe decides. A failed
     * probe leaves the context not ready and rethrows the failure as a string,
     * an `Error`'s message lower-cased.
     */
    method Setup(probe: Probe) returns (failure: Option<string>)
      modifies this
      ensures old(ready) ==> ready && failure == None
      ensures !old(ready) && probe.Connected? ==> ready && failure == None
      ensures !old(ready) && probe.ProbeFailed? ==> !ready && failure == Some(Describe(probe.error))
    {
      if ready {
        return None;
      }
      match probe
      case Connected =>
        ready := true;
        failure := None;
      case ProbeFailed(error) =>
        failure := Some(Describe(error));
    }
  }

  /** What `initialize` settles to: the context, or the string `setup` threw. */
  datatype Initialized = Initialized(context: AppContext) | InitFailed(thrown: string)

  /** What `newInstance` gives: the ready context, or the error it throws. */
  datatype Acquired = Acquired(context: AppContext) | Refused(error: Thrown)

  /** The class-level slot that holds the single `AppContext`. */
  class Registry {
    var instance: AppContext?

    constructor ()
      ensures instance == null
    {
      instance := null;
    }

    /**
     * `AppContext.initialize`: the first call creates the context and runs
     * `setup` with the probe's outcome; the slot keeps the context even when
     * setup fails. A later call returns the stored context without running
     * setup again, so a failed setup is never retried.
     */
    method Initialize(id: string, env: string, probe: Probe) returns (r: Initialized)
      modifies this
      ensures old(instance) != null ==> instance == old(instance) && r == Initialized(instance)
      ensures old(instance) != null ==> instance.ready == old(instance.ready)
      ensures old(instance) == null ==> instance != null && fresh(instance)
      ensures old(instance) == null ==> instance.id == id && instance.env == env
      ensures old(instance) == null && probe.Connected? ==> instance.ready && r == Initialized(instance)
      ensures old(instance) == null && probe.ProbeFailed? ==>
                !instance.ready && r == InitFailed(Describe(probe.error))
    {
      if instance == null {
        var context := new AppContext(id, env);
        instance := context;
        var failure := context.Setup(probe);
        if failure.Some? {
          return InitFailed(failure.value);
        }
      }
      r := Initialized(instance);
    }

    /** `AppContext.newInstance`: the context when it exists and is ready, else the not-initialized error. */
    function NewInstance(): (r: Acquired)
      reads this, instance
      ensures r.Acquired? <==> instance != null && instance.ready
      ensures r.Acquired? ==> r.context == instance
      ensures r.Refused? ==> r.error == ErrorObject(NOT_INITIALIZED)
    {
      if instance == null || !instance.ready then Refused(ErrorObject(NOT_INITIALIZED)) else Acquired(instance)
    }
  }

  /** A fresh registry's first successful initialization makes every later `newInstance` succeed. */
  method InitializeThenAcquire(id: string, env: string, probe: Probe, later: Probe)
    returns (first: Initialized, second: Initialized, acquired: Acquired)
    ensures probe.Connected? ==> first.Initialized? && second == first && acquired == Acquired(first.context)
    ensures probe.ProbeFailed? ==> first.InitFailed? && second.Initialized? && acquired.Refused?
  {
    var registry := new Registry();
    first := registry.Initialize(id, env, probe);
    second := registry.Initialize(id, env, later);
    acquired := registry.NewInstance();
  }

  /** Where the framework routed the request (`ctx.destination`). */
  datatype Destination = Internal | Static | Routed | NotFound

  /** The branch the handler takes, in the order it tests them. */
  datatype Branch =
    | Uninitialized | Missing | Socket | TextFile | WorkerScript | OtherStatic | RouteRequest | Fallback

  /** `request.headers.get('upgrade')?.toLowerCase() === 'websocket'`. */
  predicate IsWebsocket(req: Request) {
    Upgrade in req.headers && ToLower(req.headers[Upgrade]) == WEBSOCKET
  }

  /**
   * The handler's dispatch. `newInstance` runs first, so an unready context
   * answers every request; then a 404 destination, then a socket upgrade, then
   * static files (text files before worker scripts), then routes, then the
   * fallback.
   */
  function Classify(ready: bool, destination: Destination, req: Request): (b: Branch)
    ensures b == Uninitialized <==> !ready
    ensures b == Missing <==> ready && destination == NotFound
    ensures b == Socket <==> ready && destination != NotFound && IsWebsocket(req)
    ensures b in {TextFile, WorkerScript, OtherStatic} <==> ready && destination == Static && !IsWebsocket(req)
    ensures b == RouteRequest <==> ready && destination == Routed && !IsWebsocket(req)
    ensures b == Fallback <==> ready && destination == Internal && !IsWebsocket(req)
  {
    if !ready then Uninitialized
    else if destination == NotFound then Missing
    else if IsWebsocket(req) then Socket
    else if destination == Static then
      if EndsWith(req.pathname, ".txt") then TextFile
      else if StartsWith(req.pathname, WORKERS_PREFIX) && EndsWith(req.pathname, ".js") then WorkerScript
      else OtherStatic
    else if destination == Routed then RouteRequest
    else
      assert destination.Internal?;
      Fallback
  }

  /** A static `.txt` path goes to the text wrapper even under `/workers/`; only `.js` there goes to the worker wrapper. */
  lemma StaticSelection(destination: Destination, req: Request)
    requires destination == Static && !IsWebsocket(req)
    ensures EndsWith(req.pathname, ".txt") ==> Classify(true, destination, req) == TextFile
    ensures Classify(true, destination, req) == WorkerScript <==>
              !EndsWith(req.pathname, ".txt") && StartsWith(req.pathname, WORKERS_PREFIX) && EndsWith(req.pathname, ".js")
  {
  }

  /** What the handler settles to: a response, the socket upgrade, or a rejection that escapes its `catch`. */
  datatype Handled = Responded(response: Response) | SocketUpgrade | Propagated(error: Thrown)

  /** The handled request with the store and client table it leaves. */
  datatype Dispatched = Dispatched(handled: Handled, entries: map<Key, Stored>, clients: map<string, Window>)

  /** A static request's outcome with the client table it leaves; static files never touch the store. */
  datatype Served = Served(handled: Handled, clients: map<string, Window>)

  /** The handler's `catch`: a 500 naming the caught value. */
  function Caught(error: Thrown): Response {
    TextResponse(500, INTERNAL_ERROR_PREFIX + Describe(error))
  }

  /**
   * The static branch: the downstream file, or the 500 for its failure;
   * a text file or worker script passes through its wrapper, any other file
   * is returned as it came.
   */
  function StaticResult(branch: Branch, req: Request, clients: map<string, Window>, env: Env): Served
  {
    var t := RateLimit(clients, ClientId(req), req.httpMethod, env.checkedAt);
    match env.next
    case Threw(error) => Served(Responded(Caught(error)), clients)
    case Returned(response) =>
      if branch == TextFile then
        Served(Responded(Finalize(response, t.decision, Some(PLAIN_TEXT_CONTENT_TYPE), env.responseTime)), t.clients)
      else if branch == WorkerScript then
        Served(Responded(Finalize(response, t.decision, Some(JAVASCRIPT_CONTENT_TYPE), env.responseTime)), t.clients)
      else Served(Responded(response), clients)
  }

  function Serve(served: Served, entries: map<Key, Stored>): Dispatched {
    Dispatched(served.handled, entries, served.clients)
  }

  /**
   * `handler` as a function of the context's readiness, the destination, the
   * request, the store, the client table and the route inputs; `env.next` is
   * the one downstream call the chosen branch makes.
   */
  function HandleResult(ready: bool, destination: Destination, req: Request, entries: map<Key, Stored>,
                        clients: map<string, Window>, app: string, env: Env): Dispatched
  {
    var branch := Classify(ready, destination, req);
    match branch
    case Uninitialized => Dispatched(Responded(Caught(ErrorObject(NOT_INITIALIZED))), entries, clients)
    case Missing => Dispatched(Responded(TextResponse(404, NOT_FOUND)), entries, clients)
    case Socket => Dispatched(SocketUpgrade, entries, clients)
    case TextFile => Serve(StaticResult(branch, req, clients, env), entries)
    case WorkerScript => Serve(StaticResult(branch, req, clients, env), entries)
    case OtherStatic => Serve(StaticResult(branch, req, clients, env), entries)
    case RouteRequest =>
      var o := RouteResult(entries, clients, app, req, ClientId(req), env);
      Dispatched(Responded(o.response), o.entries, o.clients)
    case Fallback =>
      match env.next
      case Returned(response) => Dispatched(Responded(response), entries, clients)
      case Threw(error) => Dispatched(Propagated(error), entries, clients)
  }

  /** The lower-cased not-initialized message. */
  lemma NotInitializedLowered()
    ensures ToLower(NOT_INITIALIZED) == "-err app context is not initialized"
  {
  }

  /** Without a ready context every request is a 500 and nothing is counted or stored. */
  lemma UninitializedIs500(destination: Destination, req: Request, entries: map<Key, Stored>,
                           clients: map<string, Window>, app: string, env: Env)
    ensures HandleResult(false, destination, req, entries, clients, app, env)
            == Dispatched(Responded(TextResponse(500, INTERNAL_ERROR_PREFIX + "-err app context is not initialized")),
                          entries, clients)
  {
    NotInitializedLowered();
  }

  /** A static response that is neither a text file nor a worker script is returned as it came: no headers, no counting. */
  lemma OtherStaticUntouched(req: Request, entries: map<Key, Stored>, clients: map<string, Window>, app: string, env: Env)
    requires Classify(true, Static, req) == OtherStatic && env.next.Returned?
    ensures HandleResult(true, Static, req, entries, clients, app, env)
            == Dispatched(Responded(env.next.response), entries, clients)
  {
  }

  /** A failed static download is caught and answered with a 500 whose message is lower-cased. */
  lemma StaticFailureIs500(req: Request, entries: map<Key, Stored>, clients: map<string, Window>, app: string,
                           env: Env)
    requires !IsWebsocket(req) && env.next.Threw?
    ensures var d := HandleResult(true, Static, req, entries, clients, app, env);
      && d.handled.Responded? && d.handled.response.status == 500
      && d.handled.response.body == TextBody(INTERNAL_ERROR_PREFIX + Describe(env.next.error))
      && d.entries == entries && d.clients == clients
  {
  }

  /** The fallback returns the downstream promise unawaited, so its rejection is not turned into a 500. */
  lemma FallbackPropagates(req: Request, entries: map<Key, Stored>, clients: map<string, Window>, app: string,
                           env: Env)
    requires !IsWebsocket(req) && env.next.Threw?
    ensures HandleResult(true, Internal, req, entries, clients, app, env).handled == Propagated(env.next.error)
  {
  }

  /** A routed request is admitted under the client id the handler derives: `X-Forwarded-For`, else the peer's host. */
  lemma RouteUsesClientId(req: Request, entries: map<Key, Stored>, clients: map<string, Window>, app: string,
                          env: Env)
    requires !IsWebsocket(req)
    ensures var remoteIp := if XForwardedFor in req.headers && req.headers[XForwardedFor] != ""
                            then req.headers[XForwardedFor] else req.remoteHost;
      var o := RouteResult(entries, clients, app, req, remoteIp, env);
      HandleResult(true, Routed, req, entries, clients, app, env) == Dispatched(Responded(o.response), o.entries, o.clients)
  {
  }

  /**
   * `handler`. The store and the client table change only through the
   * wrappers; the registry is read, never written. Assigning the context to
   * the request state is not modelled.
   */
  method Handle(registry: Registry, kv: Kv, limiter: RateLimiter, app: string, destination: Destination,
                req: Request, env: Env)
    returns (handled: Handled)
    modifies kv, limiter
    ensures var ready := registry.NewInstance().Acquired?;
      HandleResult(ready, destination, req, old(kv.entries), old(limiter.clients), app, env)
      == Dispatched(handled, kv.entries, limiter.clients)
  {
    var gate := registry.NewInstance();
    if gate.Refused? {
      return Responded(Caught(gate.error));
    }
    var remoteIp := ClientId(req);
    if destination == NotFound {
      return Responded(TextResponse(404, NOT_FOUND));
    }
    if Upgrade in req.headers && ToLower(req.headers[Upgrade]) == WEBSOCKET {
      return SocketUpgrade;
    }
    if destination == Static {
      handled := ServeStatic(limiter, req, remoteIp, env);
      return;
    }
    if destination == Routed {
      var r := Route(kv, limiter, app, req, remoteIp, env);
      return Responded(r);
    }
    match env.next
    case Returned(response) => handled := Responded(response);
    case Threw(error) => handled := Propagated(error);
  }

  /** The static branch of `handler`, after the download: pick the wrapper by the path. */
  method ServeStatic(limiter: RateLimiter, req: Request, remoteIp: string, env: Env) returns (handled: Handled)
    modifies limiter
    requires remoteIp == ClientId(req) && !IsWebsocket(req)
    ensures StaticResult(Classify(true, Static, req), req, old(limiter.clients), env) == Served(handled, limiter.clients)
  {
    if env.next.Threw? {
      return Responded(Caught(env.next.error));
    }
    var response := env.next.response;
    var workerPathname := StartsWith(req.pathname, WORKERS_PREFIX);
    var jsFile := EndsWith(req.pathname, ".js");
    var txtFile := EndsWith(req.pathname, ".txt");
    if txtFile {
      var r := Text(response, limiter, remoteIp, req.httpMethod, env.checkedAt, env.responseTime);
      return Responded(r);
    }
    if workerPathname && jsFile {
      var r := Worker(response, limiter, remoteIp, req.httpMethod, env.checkedAt, env.responseTime);
      return Responded(r);
    }
    return Responded(response);
  }
}
