/**
 * The traffic-jam ledger: per client, a history of the protected requests it
 * sent, kept in the key-value store under `[APP_NAME, "traffics", ip]`. A
 * request is admitted by appending a pending record and resolved by marking
 * that record solved once the downstream handler has answered.
 */
module Ledger {
  import opened Strings
  import opened Http

  /** `TrafficSchema`: one request in a client's history. */
  datatype Traffic = Traffic(request: string, purpose: string, status: string, remoteIp: string,
                             endpoint: string, httpMethod: string, processing: bool, timestamp: int)

  /** The `data` record of a ledger entry. */
  datatype Ledger = Ledger(histories: Option<seq<Traffic>>)

  /** A ledger entry is a server-data envelope whose data is a `Ledger`. */
  type Entry = ServerData<Ledger>

  /** What the store holds under a key: the value and the expiry it was written with. */
  datatype Stored = Stored(value: Entry, expireIn: Option<nat>)

  type Key = seq<string>

  const TRAFFICS := "traffics"
  const PENDING := "pending"
  const SOLVED := "solved"
  const ACTIVE_MESSAGE := "+OK active traffic jam found"
  const IDLE_MESSAGE := "+OK no active traffic jam found"
  const ACTIVE_CODE := 102
  const IDLE_CODE := 200
  /** The expiry of a resolved ledger, in milliseconds: 24 hours. */
  const LEDGER_TTL: nat := 60 * 60 * 1000 * 24

  function TrafficKey(app: string, remoteIp: string): Key {
    [app, TRAFFICS, remoteIp]
  }

  /** `Kv.get`: the stored entry, `None` when the key holds nothing. */
  function Read(entries: map<Key, Stored>, key: Key): Option<Stored> {
    if key in entries then Some(entries[key]) else None
  }

  /** The store, as far as the ledger uses it: a map that `set` overwrites. */
  class Kv {
    var entries: map<Key, Stored>

    constructor (init: map<Key, Stored>)
      ensures entries == init
    {
      entries := init;
    }

    function Get(key: Key): (v: Option<Stored>)
      reads this
      ensures v.Some? <==> key in entries
      ensures v.Some? ==> v.value == entries[key]
    {
      Read(entries, key)
    }

    /** `Kv.set`: the value replaces whatever the key held; the expiry is recorded, not enforced. */
    method Set(key: Key, value: Entry, expireIn: Option<nat>)
      modifies this
      ensures entries == old(entries)[key := Stored(value, expireIn)]
    {
      entries := entries[key := Stored(value, expireIn)];
    }

    /** `Kv.del`: the key holds nothing afterwards. */
    method Delete(key: Key)
      modifies this
      ensures entries == old(entries) - {key}
    {
      entries := entries - {key};
    }
  }

  /** `value?.data?.histories || []` of an envelope. */
  function HistoriesOf(e: Entry): seq<Traffic> {
    if e.data.Some? && e.data.value.histories.Some? then e.data.value.histories.value else []
  }

  /** `traffic.value?.data?.histories || []` of a store read. */
  function Histories(v: Option<Stored>): seq<Traffic> {
    if v.Some? then HistoriesOf(v.value.value) else []
  }

  /** A record blocks a request to the same endpoint with the same method while it is processing or unsolved. */
  predicate Blocks(t: Traffic, endpoint: string, httpMethod: string) {
    t.endpoint == endpoint && t.httpMethod == httpMethod && (t.processing || t.status != SOLVED)
  }

  /** `Array.prototype.find` with `Blocks`: the first blocking record. */
  function Find(h: seq<Traffic>, endpoint: string, httpMethod: string): (r: Option<Traffic>)
    ensures r.None? <==> forall i :: 0 <= i < |h| ==> !Blocks(h[i], endpoint, httpMethod)
    ensures r.Some? ==> exists i :: 0 <= i < |h| && h[i] == r.value && Blocks(h[i], endpoint, httpMethod)
                                    && forall j :: 0 <= j < i ==> !Blocks(h[j], endpoint, httpMethod)
  {
    if h == [] then None
    else if Blocks(h[0], endpoint, httpMethod) then
      Some(h[0])
    else
      var r := Find(h[1..], endpoint, httpMethod);
      if r.Some? then
        var i :| 0 <= i < |h[1..]| && h[1..][i] == r.value && Blocks(h[1..][i], endpoint, httpMethod)
                 && forall j :: 0 <= j < i ==> !Blocks(h[1..][j], endpoint, httpMethod);
        assert forall j :: 0 <= j < i + 1 ==> !Blocks(h[j], endpoint, httpMethod) by {
          forall j | 0 <= j < i + 1 ensures !Blocks(h[j], endpoint, httpMethod) {
            if j > 0 {
              assert h[j] == h[1..][j - 1];
            }
          }
        }
        assert h[i + 1] == r.value;
        r
      else
        assert forall j :: 0 <= j < |h| ==> !Blocks(h[j], endpoint, httpMethod) by {
          forall j | 0 <= j < |h| ensures !Blocks(h[j], endpoint, httpMethod) {
            if j > 0 {
              assert h[j] == h[1..][j - 1];
            }
          }
        }
        None
  }

  /** `Array.prototype.findIndex` by request id: the first index holding `id`, or -1. */
  function FindIndex(h: seq<Traffic>, id: string): (i: int)
    ensures -1 <= i < |h|
    ensures i == -1 <==> forall j :: 0 <= j < |h| ==> h[j].request != id
    ensures i >= 0 ==> h[i].request == id && forall j :: 0 <= j < i ==> h[j].request != id
  {
    if h == [] then -1
    else if h[0].request == id then 0
    else
      var i := FindIndex(h[1..], id);
      if i == -1 then
        assert forall j :: 0 <= j < |h| ==> h[j].request != id by {
          forall j | 0 <= j < |h| ensures h[j].request != id {
            if j > 0 {
              assert h[j] == h[1..][j - 1];
            }
          }
        }
        -1
      else
        assert forall j :: 0 <= j < i + 1 ==> h[j].request != id by {
          forall j | 0 <= j < i + 1 ensures h[j].request != id {
            if j > 0 {
              assert h[j] == h[1..][j - 1];
            }
          }
        }
        i + 1
  }

  /** `Array.prototype.some` with `processing`. */
  function AnyProcessing(h: seq<Traffic>): (r: bool)
    ensures r <==> exists i :: 0 <= i < |h| && h[i].processing
  {
    if h == [] then false
    else
      var r := AnyProcessing(h[1..]);
      assert r ==> exists i :: 0 <= i < |h| && h[i].processing by {
        if r {
          var i :| 0 <= i < |h[1..]| && h[1..][i].processing;
          assert h[i + 1].processing;
        }
      }
      assert (exists i :: 0 <= i < |h| && h[i].processing) ==> h[0].processing || r by {
        if exists i :: 0 <= i < |h| && h[i].processing {
          var i :| 0 <= i < |h| && h[i].processing;
          if i > 0 {
            assert h[1..][i - 1].processing;
          }
        }
      }
      h[0].processing || r
  }

  /**
   * The record appended for an admitted request; `id` is the fresh request id
   * and `nowMs` the clock in milliseconds, truncated to seconds.
   */
  function Pending(id: string, remoteIp: string, endpoint: string, httpMethod: string, nowMs: nat): (t: Traffic)
    ensures t.processing && t.status == PENDING && t.purpose == UNCLEAR
    ensures t.request == id && t.remoteIp == remoteIp && t.endpoint == endpoint && t.httpMethod == httpMethod
  {
    Traffic(id, UNCLEAR, PENDING, remoteIp, endpoint, httpMethod, true, nowMs / 1000)
  }

  /**
   * The admission write: `Http.data` over an envelope that reports an active
   * jam and carries the old history with `rec` appended.
   */
  function Admission(h: seq<Traffic>, rec: Traffic): (e: Entry)
    ensures HistoriesOf(e) == h + [rec]
    ensures e.success && e.code == ACTIVE_CODE && e.message == ACTIVE_MESSAGE && e.kind == DEFAULT_KIND
  {
    Data(Partial(Some(true), Some(ACTIVE_CODE), Some(DEFAULT_KIND), Some(ACTIVE_MESSAGE),
                 Some(Ledger(Some(h + [rec]))), None, None))
  }

  /** A resolved record: solved, no longer processing, with the downstream handler's purpose. */
  function Solve(t: Traffic, purpose: string): Traffic {
    t.(purpose := purpose, status := SOLVED, processing := false)
  }

  /**
   * The resolve write, or `None` when nothing is written. `cur` is the
   * re-read ledger, `admitted` the envelope the admission wrote, and
   * `xPurpose` the downstream response's `X-Purpose` header. The first record
   * carrying the id of the last record of `admitted` is solved; the rest of
   * the stored envelope is kept, and its status is recomputed from whether any
   * record is still processing.
   */
  function Resolution(cur: Option<Stored>, admitted: Entry, xPurpose: Option<string>): (r: Option<Entry>)
    ensures var h, sent := Histories(cur), HistoriesOf(admitted);
      r.None? <==> |h| == 0 || |sent| == 0 || forall j :: 0 <= j < |h| ==> h[j].request != sent[|sent| - 1].request
  {
    var h, sent := Histories(cur), HistoriesOf(admitted);
    if |h| > 0 && |sent| > 0 then
      var i := FindIndex(h, sent[|sent| - 1].request);
      if i != -1 then
        var after := h[i := Solve(h[i], OrElse(xPurpose, UNCLEAR))];
        var active := AnyProcessing(after);
        Some(cur.value.value.(success := !active,
                              code := if active then ACTIVE_CODE else IDLE_CODE,
                              message := if active then ACTIVE_MESSAGE else IDLE_MESSAGE,
                              data := Some(Ledger(Some(after)))))
      else None
    else None
  }

  /**
   * Once a request is admitted, a second request to the same endpoint with the
   * same method finds the appended record and is rejected.
   */
  lemma AdmissionBlocksRepeat(h: seq<Traffic>, rec: Traffic)
    requires Find(h, rec.endpoint, rec.httpMethod).None?
    requires rec.processing
    ensures Find(HistoriesOf(Admission(h, rec)), rec.endpoint, rec.httpMethod) == Some(rec)
  {
    var after := HistoriesOf(Admission(h, rec));
    assert after == h + [rec];
    assert forall j :: 0 <= j < |h| ==> after[j] == h[j];
    assert after[|h|] == rec;
  }

  /** An id no earlier record carries is found at the end of the history it was appended to. */
  lemma FindIndexAppended(h: seq<Traffic>, rec: Traffic)
    requires forall j :: 0 <= j < |h| ==> h[j].request != rec.request
    ensures FindIndex(h + [rec], rec.request) == |h|
  {
    assert (h + [rec])[|h|] == rec;
  }

  /**
   * Run sequentially, resolving the admission of a request with a fresh id
   * writes the old history with the solved record appended.
   */
  lemma AdmitThenResolveHistory(h: seq<Traffic>, rec: Traffic, xPurpose: Option<string>)
    requires forall j :: 0 <= j < |h| ==> h[j].request != rec.request
    ensures var admitted := Admission(h, rec);
      var r := Resolution(Some(Stored(admitted, None)), admitted, xPurpose);
      && r.Some?
      && HistoriesOf(r.value) == h + [Solve(rec, OrElse(xPurpose, UNCLEAR))]
  {
    var sent := HistoriesOf(Admission(h, rec));
    FindIndexAppended(h, rec);
    var solved := Solve(rec, OrElse(xPurpose, UNCLEAR));
    assert sent[|h| := solved] == h + [solved];
  }

  /**
   * Run sequentially, admitting a request with a fresh id and then resolving it
   * leaves no record that would reject an identical later request.
   */
  lemma AdmitThenResolve(h: seq<Traffic>, rec: Traffic, xPurpose: Option<string>)
    requires forall j :: 0 <= j < |h| ==> !Blocks(h[j], rec.endpoint, rec.httpMethod)
    requires forall j :: 0 <= j < |h| ==> h[j].request != rec.request
    ensures var admitted := Admission(h, rec);
      var r := Resolution(Some(Stored(admitted, None)), admitted, xPurpose);
      r.Some? && Find(HistoriesOf(r.value), rec.endpoint, rec.httpMethod).None?
  {
    var admitted := Admission(h, rec);
    var solved := Solve(rec, OrElse(xPurpose, UNCLEAR));
    var r := Resolution(Some(Stored(admitted, None)), admitted, xPurpose);
    AdmitThenResolveHistory(h, rec, xPurpose);
    FindAppendedSolved(h, solved, HistoriesOf(r.value), rec.endpoint, rec.httpMethod);
  }

  /** Appending a record that is solved and not processing keeps a history free of blockers. */
  lemma FindAppendedSolved(h: seq<Traffic>, t: Traffic, after: seq<Traffic>, endpoint: string, httpMethod: string)
    requires forall j :: 0 <= j < |h| ==> !Blocks(h[j], endpoint, httpMethod)
    requires !t.processing && t.status == SOLVED
    requires after == h + [t]
    ensures Find(after, endpoint, httpMethod).None?
  {
    forall j | 0 <= j < |after| ensures !Blocks(after[j], endpoint, httpMethod) {
      if j < |h| {
        assert after[j] == h[j];
      }
    }
  }

  /**
   * A resolve that writes changes exactly one record, the first carrying the
   * admitted id, to solved with the downstream purpose; every other record
   * keeps its value and position.
   */
  lemma ResolutionSolves(cur: Option<Stored>, admitted: Entry, xPurpose: Option<string>)
    requires Resolution(cur, admitted, xPurpose).Some?
    ensures var h, sent := Histories(cur), HistoriesOf(admitted);
      var i := FindIndex(h, sent[|sent| - 1].request);
      var after := HistoriesOf(Resolution(cur, admitted, xPurpose).value);
      && 0 <= i < |h| && |after| == |h|
      && (forall j :: 0 <= j < |h| && j != i ==> after[j] == h[j])
      && after[i] == h[i].(purpose := OrElse(xPurpose, UNCLEAR), status := SOLVED, processing := false)
  {
  }

  /**
   * The status a resolve writes: success exactly when no record is still
   * processing, with the matching code and message; the stored envelope's
   * other fields are kept.
   */
  lemma ResolutionStatus(cur: Option<Stored>, admitted: Entry, xPurpose: Option<string>)
    requires Resolution(cur, admitted, xPurpose).Some?
    ensures var e := Resolution(cur, admitted, xPurpose).value;
      var after := HistoriesOf(e);
      && (e.success <==> forall j :: 0 <= j < |after| ==> !after[j].processing)
      && e.code == (if e.success then IDLE_CODE else ACTIVE_CODE)
      && e.message == (if e.success then IDLE_MESSAGE else ACTIVE_MESSAGE)
      && cur.Some?
      && e.kind == cur.value.value.kind && e.errors == cur.value.value.errors
      && e.feedback == cur.value.value.feedback
  {
    var h, sent := Histories(cur), HistoriesOf(admitted);
    var i := FindIndex(h, sent[|sent| - 1].request);
    var after := h[i := Solve(h[i], OrElse(xPurpose, UNCLEAR))];
    var active := AnyProcessing(after);
    assert HistoriesOf(Resolution(cur, admitted, xPurpose).value) == after;
  }
}
