/** The health endpoint of pages/api/health.ts: each monitored DEX API is
    classified from the outcome of one request, and the overall status and
    HTTP code follow from the heap usage and the share of healthy APIs. The
    requests, the timers and the process statistics are inputs. */
module Health {
  import opened Wrappers

  /** The status of one external API. */
  datatype ApiStatus = ApiHealthy | ApiDegraded | ApiDown

  /** The overall status the endpoint reports. */
  datatype Status = Healthy | Degraded | Unhealthy

  /** What one `fetch` of an API ended with: a response with its HTTP status,
      or a thrown error (including the five-second abort). */
  datatype HttpOutcome = Response(code: int) | Thrown

  /** `response.ok`: a status in the range 200-299. */
  predicate IsOk(o: HttpOutcome)
  {
    o.Response? && 200 <= o.code <= 299
  }

  predicate IsClientError(o: HttpOutcome)
  {
    o.Response? && 400 <= o.code < 500
  }

  /** The classification of one response. */
  function Classify(o: HttpOutcome): (s: ApiStatus)
    ensures s == ApiHealthy <==> IsOk(o)
    ensures s == ApiDegraded <==> IsClientError(o)
    ensures s == ApiDown <==> !IsOk(o) && !IsClientError(o)
  {
    match o
    case Thrown => ApiDown
    case Response(code) =>
      if 200 <= code <= 299 then ApiHealthy
      else if code >= 400 && code < 500 then ApiDegraded
      else ApiDown
  }

  /** The four monitored APIs, in the order they are checked. */
  const MonitoredApis: seq<string> := ["raydium", "traderjoe", "osmosis", "pancakeswap"]

  /** The result object as its entries in insertion order. */
  type ApiResults = seq<(string, ApiStatus)>

  /** The entries the check produces, one per name and in order. The only
      names checked are the four distinct monitored APIs, so the object's
      keys and these entries correspond one to one. */
  function ResultsOf(names: seq<string>, outcomes: seq<HttpOutcome>): (rs: ApiResults)
    requires |names| == |outcomes|
    ensures |rs| == |names|
    ensures forall i :: 0 <= i < |rs| ==> rs[i] == (names[i], Classify(outcomes[i]))
  {
    seq(|names|, i requires 0 <= i < |names| => (names[i], Classify(outcomes[i])))
  }

  /** `checkExternalAPIs`: one request per monitored API, its classification
      stored under the API's name. */
  method CheckExternalApis(outcomes: seq<HttpOutcome>) returns (results: ApiResults)
    requires |outcomes| == |MonitoredApis|
    ensures results == ResultsOf(MonitoredApis, outcomes)
  {
    results := [];
    for i := 0 to |MonitoredApis|
      invariant results == ResultsOf(MonitoredApis[..i], outcomes[..i])
    {
      results := results + [(MonitoredApis[i], Classify(outcomes[i]))];
    }
    assert MonitoredApis[..|MonitoredApis|] == MonitoredApis;
    assert outcomes[..|outcomes|] == outcomes;
  }

  /** `Object.values(results).filter(s => s === 'healthy').length`. */
  function CountHealthy(rs: ApiResults): (n: nat)
    ensures n <= |rs|
  {
    if |rs| == 0 then 0
    else CountHealthy(rs[..|rs| - 1]) + (if rs[|rs| - 1].1 == ApiHealthy then 1 else 0)
  }

  /** The number of successful responses. */
  function CountOk(outcomes: seq<HttpOutcome>): nat
  {
    if |outcomes| == 0 then 0
    else CountOk(outcomes[..|outcomes| - 1]) + (if IsOk(outcomes[|outcomes| - 1]) then 1 else 0)
  }

  /** The healthy APIs are exactly those whose request succeeded. */
  lemma {:induction false} HealthyCountIsOkCount(names: seq<string>, outcomes: seq<HttpOutcome>)
    requires |names| == |outcomes|
    ensures CountHealthy(ResultsOf(names, outcomes)) == CountOk(outcomes)
    decreases |names|
  {
    if |names| > 0 {
      var n := |names| - 1;
      var rs := ResultsOf(names, outcomes);
      assert rs[..n] == ResultsOf(names[..n], outcomes[..n]);
      HealthyCountIsOkCount(names[..n], outcomes[..n]);
    }
  }

  // ---------------------------------------------------------------------------
  // The overall status

  /** The decision of the handler, branch for branch: memory above 90% is
      unhealthy; memory above 75%, or under half of the APIs healthy, is
      degraded; under 80% of the APIs healthy is degraded too. */
  function OverallStatus(memoryPercentage: real, healthyApis: nat, totalApis: nat): (s: Status)
    requires healthyApis <= totalApis
    ensures s == Unhealthy <==> memoryPercentage > 90.0
    ensures s == Healthy <==> memoryPercentage <= 75.0
                              && (totalApis == 0 || healthyApis as real / totalApis as real >= 0.8)
  {
    if memoryPercentage > 90.0 then Unhealthy
    else if memoryPercentage > 75.0 || (totalApis > 0 && healthyApis as real / totalApis as real < 0.5) then Degraded
    else if totalApis > 0 && healthyApis as real / totalApis as real < 0.8 then Degraded
    else Healthy
  }

  /** The same decision without the test against one half. */
  function ThreeBands(memoryPercentage: real, healthyApis: nat, totalApis: nat): Status
  {
    if memoryPercentage > 90.0 then Unhealthy
    else if memoryPercentage > 75.0 then Degraded
    else if totalApis > 0 && healthyApis as real / totalApis as real < 0.8 then Degraded
    else Healthy
  }

  /** The test against one half never decides anything: every share below a
      half is also below 0.8. */
  lemma HalfTestIsSubsumed(memoryPercentage: real, healthyApis: nat, totalApis: nat)
    requires healthyApis <= totalApis
    ensures OverallStatus(memoryPercentage, healthyApis, totalApis) == ThreeBands(memoryPercentage, healthyApis, totalApis)
  {
  }

  /** Memory between 75% and 90% is degraded whatever the APIs report. */
  lemma HighMemoryIsDegraded(memoryPercentage: real, healthyApis: nat, totalApis: nat)
    requires healthyApis <= totalApis && 75.0 < memoryPercentage <= 90.0
    ensures OverallStatus(memoryPercentage, healthyApis, totalApis) == Degraded
  {
  }

  /** With memory at most 75%, too few healthy APIs is degraded. */
  lemma FewHealthyApisIsDegraded(memoryPercentage: real, healthyApis: nat, totalApis: nat)
    requires healthyApis <= totalApis && memoryPercentage <= 75.0
    requires totalApis > 0 && healthyApis as real / totalApis as real < 0.8
    ensures OverallStatus(memoryPercentage, healthyApis, totalApis) == Degraded
  {
  }

  /** `overallStatus === 'healthy' ? 200 : overallStatus === 'degraded' ? 200 : 503`. */
  function StatusCode(s: Status): (code: int)
    ensures code == 503 <==> s == Unhealthy
    ensures code != 503 ==> code == 200
  {
    match s
    case Healthy => 200
    case Degraded => 200
    case Unhealthy => 503
  }

  // ---------------------------------------------------------------------------
  // The handler

  /** Whether the API checks finished before the eight-second race timer. */
  datatype CheckOutcome = Completed(outcomes: seq<HttpOutcome>) | TimedOut

  /** The parts of the response the model keeps: the HTTP code, the status,
      the external API results and `arbitrage_metrics.active_chains` (absent
      from the 405 response). */
  datatype HealthResponse = HealthResponse(
    httpCode: int, status: Status, externalApis: ApiResults, activeChains: Option<nat>)

  /** The results the race yields: the check's, or an empty object on timeout. */
  function RaceResults(check: CheckOutcome): (rs: ApiResults)
    requires check.Completed? ==> |check.outcomes| == |MonitoredApis|
    ensures check.TimedOut? ==> rs == []
    ensures check.Completed? ==> rs == ResultsOf(MonitoredApis, check.outcomes)
  {
    match check
    case TimedOut => []
    case Completed(outcomes) => ResultsOf(MonitoredApis, outcomes)
  }

  /** `handler`: anything but GET is refused with 405; a GET reports the
      status decided from the memory percentage and the API results. */
  function Handle(httpMethod: string, memoryPercentage: real, check: CheckOutcome): (r: HealthResponse)
    requires check.Completed? ==> |check.outcomes| == |MonitoredApis|
    ensures httpMethod != "GET" ==> r == HealthResponse(405, Unhealthy, [], None)
    ensures httpMethod == "GET" ==>
      && r.externalApis == RaceResults(check)
      && r.status == OverallStatus(memoryPercentage, CountHealthy(r.externalApis), |r.externalApis|)
      && r.httpCode == StatusCode(r.status)
      && r.activeChains == Some(|r.externalApis|)
  {
    if httpMethod != "GET" then HealthResponse(405, Unhealthy, [], None)
    else
      var apis := RaceResults(check);
      var status := OverallStatus(memoryPercentage, CountHealthy(apis), |apis|);
      HealthResponse(StatusCode(status), status, apis, Some(|apis|))
  }

  /** A GET answers 503 exactly when memory is above 90%, whatever the APIs report. */
  lemma ServiceUnavailableIffMemoryCritical(memoryPercentage: real, check: CheckOutcome)
    requires check.Completed? ==> |check.outcomes| == |MonitoredApis|
    ensures Handle("GET", memoryPercentage, check).httpCode == 503 <==> memoryPercentage > 90.0
    ensures Handle("GET", memoryPercentage, check).httpCode != 503 ==> Handle("GET", memoryPercentage, check).httpCode == 200
  {
  }

  /** A timed-out check leaves no API results, which reads as healthy when
      memory is at most 75%. */
  lemma TimeoutReadsHealthy(memoryPercentage: real)
    requires memoryPercentage <= 75.0
    ensures var r := Handle("GET", memoryPercentage, TimedOut);
            r.status == Healthy && r.httpCode == 200 && r.activeChains == Some(0)
  {
  }

  /** A completed check reports four chains and is healthy at modest memory
      exactly when at least four fifths of the requests, here all four,
      succeeded. */
  lemma {:induction false} CompletedCheckHealthyIff(memoryPercentage: real, outcomes: seq<HttpOutcome>)
    requires |outcomes| == |MonitoredApis| && memoryPercentage <= 75.0
    ensures var r := Handle("GET", memoryPercentage, Completed(outcomes));
            && r.activeChains == Some(4)
            && (r.status == Healthy <==> CountOk(outcomes) == 4)
  {
    var rs := ResultsOf(MonitoredApis, outcomes);
    HealthyCountIsOkCount(MonitoredApis, outcomes);
    var k := CountHealthy(rs);
    assert k <= 4;
    assert k as real / 4.0 >= 0.8 <==> k == 4;
  }
}
