/**
 * The traffic-jam status endpoint (`GET /api/v0/traffic-jam`): it reads one
 * client's ledger and reports its records split by whether they are still
 * processing, as the `active` and `history` query flags select.
 */
module TrafficJamApi {
  import opened Strings
  import opened Fetch
  import opened Http
  import opened Ledger

  const REMOTE_IP_PARAM := "remoteIp"
  const ACTIVE_PARAM := "active"
  const HISTORY_PARAM := "history"

  /** `url.searchParams.get(name)`. */
  function Param(req: Request, name: string): Option<string> {
    if name in req.query then Some(req.query[name]) else None
  }

  /** A query flag is set only by the exact text `true`. */
  predicate Flag(req: Request, name: string) {
    Param(req, name) == Some("true")
  }

  /**
   * The client whose ledger is reported: the `remoteIp` query parameter, else
   * `X-Forwarded-For`, else the peer's host name; an empty value falls through.
   */
  function ClientKey(req: Request): (ip: string)
    ensures REMOTE_IP_PARAM in req.query && req.query[REMOTE_IP_PARAM] != "" ==> ip == req.query[REMOTE_IP_PARAM]
    ensures (REMOTE_IP_PARAM !in req.query || req.query[REMOTE_IP_PARAM] == "") ==> ip == ClientId(req)
  {
    OrElse(Param(req, REMOTE_IP_PARAM), ClientId(req))
  }

  /** The three sources in order of preference, as one statement. */
  lemma ClientKeyPreference(req: Request)
    ensures var q := Param(req, REMOTE_IP_PARAM);
      var xff := Lookup(req.headers, XForwardedFor);
      && (q.Some? && q.value != "" ==> ClientKey(req) == q.value)
      && ((q.None? || q.value == "") && xff.Some? && xff.value != "" ==> ClientKey(req) == xff.value)
      && ((q.None? || q.value == "") && (xff.None? || xff.value == "") ==> ClientKey(req) == req.remoteHost)
  {
  }

  /** `Array.prototype.filter` by `processing`: the records whose flag equals `processing`, in order. */
  function Filter(h: seq<Traffic>, processing: bool): (r: seq<Traffic>)
    ensures |r| <= |h|
    ensures forall i :: 0 <= i < |r| ==> r[i].processing == processing
  {
    if h == [] then []
    else (if h[0].processing == processing then [h[0]] else []) + Filter(h[1..], processing)
  }

  /** Filtering distributes over concatenation, so the kept records stay in their original order. */
  lemma {:induction false} FilterAppend(a: seq<Traffic>, b: seq<Traffic>, processing: bool)
    ensures Filter(a + b, processing) == Filter(a, processing) + Filter(b, processing)
  {
    if a == [] {
      assert a + b == b;
    } else {
      assert (a + b)[0] == a[0] && (a + b)[1..] == a[1..] + b;
      FilterAppend(a[1..], b, processing);
    }
  }

  /** The processing and the finished records together are exactly the history, counted with multiplicity. */
  lemma {:induction false} FilterPartition(h: seq<Traffic>)
    ensures multiset(Filter(h, true)) + multiset(Filter(h, false)) == multiset(h)
  {
    if h != [] {
      FilterPartition(h[1..]);
      assert h == [h[0]] + h[1..];
    }
  }

  /** A record is kept exactly when it is in the history and its flag matches. */
  lemma {:induction false} FilterMembers(h: seq<Traffic>, processing: bool, t: Traffic)
    ensures t in Filter(h, processing) <==> t in h && t.processing == processing
  {
    if h != [] {
      FilterMembers(h[1..], processing, t);
      assert t in h <==> t == h[0] || t in h[1..];
    }
  }

  /** The `data` record of the answer: either list may be missing from it. */
  datatype Report = Report(actives: Option<seq<Traffic>>, histories: Option<seq<Traffic>>)

  type Answer = ServerData<Report>

  /**
   * The lists the flags select: both lists with both flags, only the one
   * named by a single flag, and the processing records when neither is set.
   */
  function Selection(active: bool, history: bool, h: seq<Traffic>): (r: Report)
    ensures r.actives.Some? <==> active || !history
    ensures r.histories.Some? <==> history
    ensures r.actives.Some? ==> r.actives.value == Filter(h, true)
    ensures r.histories.Some? ==> r.histories.value == Filter(h, false)
  {
    if active && history then Report(Some(Filter(h, true)), Some(Filter(h, false)))
    else if active then Report(Some(Filter(h, true)), None)
    else if history then Report(None, Some(Filter(h, false)))
    else Report(Some(Filter(h, true)), None)
  }

  /**
   * The `GET` handler's answer for the store `entries`. It is always a success
   * with code 200 and the idle message, whatever the records say; the data
   * holds two empty lists unless the client's ledger has a history list
   * (even an empty one), in which case it holds the selected lists.
   */
  function Answered(entries: map<Key, Stored>, app: string, req: Request): (r: Answer)
    ensures r.success && r.code == IDLE_CODE && r.kind == DEFAULT_KIND && r.message == IDLE_MESSAGE
    ensures r.errors == None && r.feedback == None && r.data.Some?
  {
    var stored := Read(entries, TrafficKey(app, ClientKey(req)));
    var empty := Report(Some([]), Some([]));
    var data :=
      if stored.Some? && stored.value.value.data.Some? && stored.value.value.data.value.histories.Some? then
        Selection(Flag(req, ACTIVE_PARAM), Flag(req, HISTORY_PARAM), stored.value.value.data.value.histories.value)
      else empty;
    ServerData(true, IDLE_CODE, DEFAULT_KIND, IDLE_MESSAGE, Some(data), None, None)
  }

  /** With no ledger, or a ledger without a history list, both lists are empty. */
  lemma NoLedgerIsEmpty(entries: map<Key, Stored>, app: string, req: Request)
    requires var key := TrafficKey(app, ClientKey(req));
      key !in entries || entries[key].value.data.None? || entries[key].value.data.value.histories.None?
    ensures Answered(entries, app, req).data == Some(Report(Some([]), Some([])))
  {
  }

  /**
   * With both flags set, the two lists split the stored history: every record
   * lands in exactly one of them, with its multiplicity, and each list keeps
   * the history's order.
   */
  lemma BothFlagsPartition(entries: map<Key, Stored>, app: string, req: Request)
    requires Flag(req, ACTIVE_PARAM) && Flag(req, HISTORY_PARAM)
    requires var key := TrafficKey(app, ClientKey(req));
      key in entries && entries[key].value.data.Some? && entries[key].value.data.value.histories.Some?
    ensures var h := entries[TrafficKey(app, ClientKey(req))].value.data.value.histories.value;
      var report := Answered(entries, app, req).data.value;
      && report.actives == Some(Filter(h, true))
      && report.histories == Some(Filter(h, false))
      && multiset(report.actives.value) + multiset(report.histories.value) == multiset(h)
  {
    var h := entries[TrafficKey(app, ClientKey(req))].value.data.value.histories.value;
    FilterPartition(h);
  }

  /** Without the `history` flag only the processing records are reported; with only it, only the finished ones. */
  lemma SingleFlagSelects(entries: map<Key, Stored>, app: string, req: Request)
    requires var key := TrafficKey(app, ClientKey(req));
      key in entries && entries[key].value.data.Some? && entries[key].value.data.value.histories.Some?
    ensures var h := entries[TrafficKey(app, ClientKey(req))].value.data.value.histories.value;
      var report := Answered(entries, app, req).data.value;
      && (!Flag(req, HISTORY_PARAM) ==> report == Report(Some(Filter(h, true)), None))
      && (!Flag(req, ACTIVE_PARAM) && Flag(req, HISTORY_PARAM) ==> report == Report(None, Some(Filter(h, false))))
  {
  }

  /**
   * The `GET` handler against the store. It has no `modifies` clause, so the
   * store is only read.
   */
  method Get(kv: Kv, app: string, req: Request) returns (r: Answer)
    ensures r == Answered(kv.entries, app, req)
  {
    var traffic := kv.Get(TrafficKey(app, ClientKey(req)));
    var data := Report(Some([]), Some([]));
    if traffic.Some? && traffic.value.value.data.Some? && traffic.value.value.data.value.histories.Some? {
      var histories := traffic.value.value.data.value.histories.value;
      data := Selection(Flag(req, ACTIVE_PARAM), Flag(req, HISTORY_PARAM), histories);
    }
    r := ServerData(true, IDLE_CODE, DEFAULT_KIND, IDLE_MESSAGE, Some(data), None, None);
  }
}
