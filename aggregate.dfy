/** `aggregate_summary` and `api_healthcheck`: the three sources merged into one report. */
module Aggregate {
  import opened Wrappers
  import opened Json
  import opened Alerts
  import opened Host
  import opened Azure
  import opened Endpoints

  /** `total_checks = 3 + 1 + 1`: three local readings, Azure, custom endpoints. */
  const TotalChecks := 3 + 1 + 1

  datatype Summary = Summary(total: int, warnings: int, healthy: int, warningsList: seq<Warning>)

  /** `aggregate_summary`: the warnings concatenated local, Azure, custom (None read as empty), and the counts. */
  function AggregateSummary(local: Option<seq<Warning>>, azure: Option<seq<Warning>>, custom: Option<seq<Warning>>): (s: Summary)
    ensures s.warningsList == local.GetOr([]) + azure.GetOr([]) + custom.GetOr([])
    ensures s.total == 5
    ensures s.warnings == |s.warningsList|
    ensures 0 <= s.healthy <= s.total
    ensures s.healthy + s.warnings >= s.total
    ensures s.healthy + s.warnings == s.total <==> s.warnings <= s.total
    ensures s.healthy == if s.warnings < 5 then 5 - s.warnings else 0
  {
    var list := local.GetOr([]) + azure.GetOr([]) + custom.GetOr([]);
    var healthy := if TotalChecks - |list| > 0 then TotalChecks - |list| else 0;
    Summary(TotalChecks, |list|, healthy, list)
  }

  /** The `data` object of `/api/healthcheck`. */
  datatype HealthReport = HealthReport(
    timestamp: int,
    total: int, healthy: int, warningCount: int,
    warnings: seq<Warning>,
    local: LocalSnapshot, azure: AzureSnapshot, custom: CustomSnapshot)

  /** Everything the three sources observe: psutil readings, Azure answers, endpoint probes. */
  datatype Observations = Observations(
    reading: Reading, thresholds: Thresholds,
    azureConfig: AzureConfig, token: Result<string, string>,
    vmListing: Listing<VmItem>, appListing: Listing<AppItem>, storageListing: Listing<StorageItem>,
    endpointsConfig: Option<Value>, probe: nat -> Probe)

  /** `api_healthcheck`: local, then Azure, then custom endpoints, one after the other, then the summary. */
  method HealthCheck(obs: Observations, timestamp: int) returns (report: HealthReport)
    ensures report.timestamp == timestamp
    ensures report.warnings == report.local.warnings + report.azure.warnings + report.custom.warnings
    ensures report.total == 5 && report.warningCount == |report.warnings|
    ensures report.healthy == if |report.warnings| < 5 then 5 - |report.warnings| else 0
    ensures report.local == LocalSnapshotOf(obs.reading, obs.thresholds)
    ensures report.azure == AzureSnapshotOf(obs.azureConfig, obs.token, obs.vmListing, obs.appListing, obs.storageListing)
    ensures report.custom == CustomSnapshotOf(obs.endpointsConfig, obs.probe)
    ensures report.local.cpuPercent == obs.reading.cpu
    ensures (report.local.warnings == []) <==>
              obs.reading.cpu < obs.thresholds.cpu && obs.reading.memory < obs.thresholds.memory
              && obs.reading.disk < obs.thresholds.disk
    ensures !Configured(obs.azureConfig) ==> !report.azure.configured && report.azure.warnings == []
    ensures Configured(obs.azureConfig) && obs.token.Ok? ==>
              report.azure.warnings == VmSection(obs.vmListing).1 + AppSection(obs.appListing).1
                                       + StorageSection(obs.storageListing).1
    ensures report.custom.configured <==> EndpointsConfig(obs.endpointsConfig).JArray?
    ensures EndpointsConfig(obs.endpointsConfig).JArray? ==>
              && report.custom.results == Checks(EndpointsConfig(obs.endpointsConfig).items, obs.probe)
              && report.custom.warnings == Flagged(report.custom.results, IsUp, DownWarning)
  {
    var local := LocalHealth(obs.reading, obs.thresholds);
    var azure := AzureHealth(obs.azureConfig, obs.token, obs.vmListing, obs.appListing, obs.storageListing);
    var custom := CustomEndpointsHealth(obs.endpointsConfig, obs.probe);
    var summary := AggregateSummary(Some(local.warnings), Some(azure.warnings), Some(custom.warnings));
    report := HealthReport(timestamp, summary.total, summary.healthy, summary.warnings,
                           summary.warningsList, local, azure, custom);
  }

  /** With no Azure scope and no endpoints, the report counts exactly the local warnings. */
  lemma LocalOnlySummary(localWarnings: seq<Warning>)
    requires |localWarnings| <= 3
    ensures var s := AggregateSummary(Some(localWarnings), Some([]), Some([]));
            s.warningsList == localWarnings && s.healthy == 5 - |localWarnings| && s.healthy >= 2
  {
    assert localWarnings + [] + [] == localWarnings;
  }
}
