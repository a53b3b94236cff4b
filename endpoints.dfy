/**
 * `custom_endpoints_health`: one GET per configured endpoint. The configuration is the
 * value `json.loads` gave for CUSTOM_ENDPOINTS (None when it raised); the probe outcome
 * of the entry at position i of the list is `probe(i)`.
 */
module Endpoints {
  import opened Wrappers
  import opened Text
  import opened Json
  import opened Alerts

  /** What `client.get(url)` did: answered with a status code, or raised; with the measured latency. */
  datatype Probe = Response(statusCode: int, latencyMs: int) | Raised(detail: string, latencyMs: int)

  datatype EndpointStatus = Up | Down

  datatype EndpointResult = EndpointResult(
    name: Value, url: Value, status: EndpointStatus,
    httpStatus: Option<int>, latencyMs: int, error: Option<string>)

  datatype CustomSnapshot = CustomSnapshot(configured: bool, results: seq<EndpointResult>, warnings: seq<Warning>)

  /** `ep.get(key) if isinstance(ep, dict) else None`. */
  function EntryField(ep: Value, key: string): Value {
    if ep.JObject? then Field(ep, key) else JNull
  }

  /** Entries with a falsy name or url are skipped. */
  predicate Probed(ep: Value) {
    Truthy(EntryField(ep, "name")) && Truthy(EntryField(ep, "url"))
  }

  /** One endpoint's result: UP exactly for a 2xx/3xx answer. */
  function CheckEndpoint(ep: Value, probe: Probe): (r: EndpointResult)
    ensures r.name == EntryField(ep, "name") && r.url == EntryField(ep, "url")
    ensures r.latencyMs == probe.latencyMs
    ensures r.status == Up <==> probe.Response? && 200 <= probe.statusCode < 400
    ensures probe.Response? ==> r.httpStatus == Some(probe.statusCode)
    ensures probe.Raised? ==> r.status == Down && r.httpStatus == None && r.error == Some(probe.detail)
    ensures r.status == Up ==> r.error == None
    ensures r.status == Down && probe.Response? ==> r.error == Some("Bad status " + IntToString(probe.statusCode))
  {
    var name := EntryField(ep, "name");
    var url := EntryField(ep, "url");
    match probe
    case Response(code, ms) =>
      if 200 <= code < 400 then EndpointResult(name, url, Up, Some(code), ms, None)
      else EndpointResult(name, url, Down, Some(code), ms, Some("Bad status " + IntToString(code)))
    case Raised(detail, ms) =>
      EndpointResult(name, url, Down, None, ms, Some(detail))
  }

  /** The results for the entries, in configuration order, skipping unprobed entries. */
  function Checks(entries: seq<Value>, probe: nat -> Probe): (rs: seq<EndpointResult>)
    ensures |rs| <= |entries|
  {
    if entries == [] then []
    else
      var n := |entries| - 1;
      Checks(entries[..n], probe) + (if Probed(entries[n]) then [CheckEndpoint(entries[n], probe(n))] else [])
  }

  predicate IsUp(r: EndpointResult) { r.status == Up }

  function DownWarning(r: EndpointResult): Warning { EndpointDown(r.name, r.error) }

  /** The endpoint list in effect: what `_safe_json_loads(CUSTOM_ENDPOINTS_RAW, [])` returns. */
  function EndpointsConfig(parsed: Option<Value>): Value {
    parsed.GetOr(JArray([]))
  }

  /** The `custom` object of the health report: not a list, or one result per probed entry. */
  function CustomSnapshotOf(parsed: Option<Value>, probe: nat -> Probe): CustomSnapshot {
    var endpoints := EndpointsConfig(parsed);
    if !endpoints.JArray? then CustomSnapshot(false, [], [EndpointsNotAList])
    else
      var results := Checks(endpoints.items, probe);
      CustomSnapshot(true, results, Flagged(results, IsUp, DownWarning))
  }

  /** `custom_endpoints_health`: the entries probed one after the other. */
  method CustomEndpointsHealth(parsed: Option<Value>, probe: nat -> Probe) returns (snap: CustomSnapshot)
    ensures !EndpointsConfig(parsed).JArray? ==> snap == CustomSnapshot(false, [], [EndpointsNotAList])
    ensures EndpointsConfig(parsed).JArray? ==>
              && snap.configured
              && snap.results == Checks(EndpointsConfig(parsed).items, probe)
              && snap.warnings == Flagged(snap.results, IsUp, DownWarning)
    ensures snap == CustomSnapshotOf(parsed, probe)
  {
    var endpoints := EndpointsConfig(parsed);
    if !endpoints.JArray? {
      return CustomSnapshot(false, [], [EndpointsNotAList]);
    }
    var entries := endpoints.items;
    var results: seq<EndpointResult> := [];
    var warnings: seq<Warning> := [];
    var i := 0;
    while i < |entries|
      invariant 0 <= i <= |entries|
      invariant results == Checks(entries[..i], probe)
      invariant warnings == Flagged(results, IsUp, DownWarning)
    {
      var ep := entries[i];
      assert entries[..i + 1][..i] == entries[..i];
      if Probed(ep) {
        var result := CheckEndpoint(ep, probe(i));
        FlaggedSnoc(results, result, IsUp, DownWarning);
        results := results + [result];
        if result.status != Up {
          warnings := warnings + [DownWarning(result)];
        }
      }
      i := i + 1;
    }
    assert entries[..i] == entries;
    snap := CustomSnapshot(true, results, warnings);
  }

  /** When every entry is probed, result i is the check of entry i with probe i. */
  lemma {:induction false} ChecksInOrder(entries: seq<Value>, probe: nat -> Probe)
    requires forall i :: 0 <= i < |entries| ==> Probed(entries[i])
    ensures |Checks(entries, probe)| == |entries|
    ensures forall i :: 0 <= i < |entries| ==> Checks(entries, probe)[i] == CheckEndpoint(entries[i], probe(i))
  {
    if entries != [] {
      var n := |entries| - 1;
      ChecksInOrder(entries[..n], probe);
    }
  }

  /**
   * Checking a list in two parts: the results for the first part, then those for the
   * second part, whose entries are probed at their positions in the whole list.
   */
  lemma {:induction false} ChecksAppend(a: seq<Value>, b: seq<Value>, probe: nat -> Probe)
    ensures Checks(a + b, probe) == Checks(a, probe) + Checks(b, (j: nat) => probe(|a| + j))
    decreases |b|
  {
    var shifted: nat -> Probe := (j: nat) => probe(|a| + j);
    if b == [] {
      assert a + b == a;
    } else {
      var n := |b| - 1;
      ChecksAppend(a, b[..n], probe);
      assert (a + b)[..|a| + n] == a + b[..n];
      assert (a + b)[|a| + n] == b[n];
      assert shifted(n) == probe(|a| + n);
    }
  }

  /** An entry without a name or url adds neither a result nor a warning. */
  lemma UnprobedEntryIgnored(entries: seq<Value>, ep: Value, probe: nat -> Probe)
    requires !Probed(ep)
    ensures Checks(entries + [ep], probe) == Checks(entries, probe)
  {
    assert (entries + [ep])[..|entries|] == entries;
  }

  /** There is one warning per result that is not UP, and every warning is about a DOWN result. */
  lemma WarningPerDownResult(results: seq<EndpointResult>)
    ensures |Flagged(results, IsUp, DownWarning)| == Unhealthy(results, IsUp)
    ensures Flagged(results, IsUp, DownWarning) == [] <==> forall i :: 0 <= i < |results| ==> results[i].status == Up
    ensures forall i :: 0 <= i < |results| && results[i].status == Down ==>
              EndpointDown(results[i].name, results[i].error) in Flagged(results, IsUp, DownWarning)
  {
    FlaggedCovers(results, IsUp, DownWarning);
    FlaggedCount(results, IsUp, DownWarning);
    FlaggedEmptyIff(results, IsUp, DownWarning);
  }
}
