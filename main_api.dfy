/**
 * The `/api/simulate` and `/api/simulate/execute` endpoints of
 * backend-engines/main.py: which data each collects, what it records in
 * the outcome tracker, and how a health report that asks for rollback
 * turns an execution into a failure.
 *
 * Each engine the endpoints import optionally is present or not according
 * to a flag. The CloudTrail collector's answer is a parameter; the
 * historical data comes from the in-memory tracker.
 */
module MainApi {
  import opened Common
  import opened DecisionEngine
  import opened InlineEngine
  import opened HealthChecker
  import opened HistoricalTracker

  /**
   * `finding.get("resource_type", finding.get("resourceType", "Unknown"))`:
   * each key is absent (None), or present with a value that may itself be None.
   */
  function FindingResourceType(snakeKey: Option<Option<string>>, camelKey: Option<Option<string>>): (r: Option<string>)
    ensures snakeKey.Some? ==> r == snakeKey.value
    ensures snakeKey.None? && camelKey.Some? ==> r == camelKey.value
    ensures snakeKey.None? && camelKey.None? ==> r == Some("Unknown")
  {
    match snakeKey
    case Some(v) => v
    case None => if camelKey.Some? then camelKey.value else Some("Unknown")
  }

  /** HistoricalMetrics.to_dict as read by the decision engine. */
  function HistoryDictOf(m: HistoricalMetrics): (h: HistoryDict)
    ensures h.total == Some(m.total) && h.successes == Some(m.successes) && h.rollbacks == Some(m.rollbacks)
    ensures h.similarResourceTypeSuccessRate == Some(m.similarResourceTypeSuccessRate)
    ensures h.lastFailureDaysAgo == m.lastFailureDaysAgo
  {
    HistoryDict(Some(m.total), Some(m.successes), Some(m.rollbacks), Some(m.similarResourceTypeSuccessRate),
                m.lastFailureDaysAgo)
  }

  /**
   * get_historical_data_for_finding: the metrics of the finding's resource
   * type over the default lookback, or the neutral defaults when reading
   * them raised (`failure`).
   */
  function HistoricalDataForFinding(t: HistoricalTracker, snakeKey: Option<Option<string>>,
                                    camelKey: Option<Option<string>>, now: int, failure: bool): (h: HistoryDict)
    reads t
    ensures failure ==> h == HistoryDictOf(DefaultMetrics())
    ensures !failure ==>
      h == HistoryDictOf(t.GetMetrics(FindingResourceType(snakeKey, camelKey), now, DefaultLookbackDays))
    ensures GetOr(h.successes, 0) <= GetOr(h.total, 0)
  {
    if failure then HistoryDictOf(DefaultMetrics())
    else HistoryDictOf(t.GetMetrics(FindingResourceType(snakeKey, camelKey), now, DefaultLookbackDays))
  }

  /**
   * Whatever the tracker holds, the historical score the inline engine
   * derives from its metrics is 0.70 for no history and otherwise lies
   * in [0.50, 0.90].
   */
  lemma TrackedHistoryScore(records: seq<RemediationRecord>)
    ensures var h := HistoryDictOf(MetricsOf(records));
      (records == [] ==> InlineHistoricalScore(h) == 0.70)
      && 0.50 <= InlineHistoricalScore(h) <= 0.90
  {
  }

  // ---------------------------------------------------------------------
  // /api/simulate
  // ---------------------------------------------------------------------

  /** The fixed simulation analysis of /api/simulate. */
  const SimulateSimulation := SimulationDict(Some("SAFE"), Some(0.94), Some(false), Some(0.1), None, None, Some([]))
  /** The usage data used when the CloudTrail collector is not available. */
  const FallbackUsage := UsageDict(Some(0), Some(100), Some(0), Some(0), Some("MEDIUM"))
  /** The fixed graph data of /api/simulate. */
  const SimulateGraph := GraphDict(Some(5), Some(5), Some(8), Some(10), Some([]), None, None)
  /** The history used when the tracker is not available. */
  const FallbackHistory := HistoryDict(Some(0), Some(0), Some(0), None, None)
  /** Environment tier 2 (the region entry is not read by the engine). */
  const SimulateEnv := EnvDict(Some(2), None, None)

  datatype SimulateResponse = SimulateResponse(
    success: bool, findingId: string, confidence: int, decision: InlineDecision, usage: UsageDict,
    cloudtrailAvailable: bool, historicalAvailable: bool)

  /**
   * simulate: `cloudtrail` is the collector's usage data when the collector
   * is available; with the tracker available the history is read for the
   * request's resource type (default "IAMRole", possibly null).
   */
  function Simulate(m: Math, findingId: string, resourceType: Option<string>, cloudtrail: Option<UsageDict>,
                    tracker: Option<HistoricalTracker>, historyFailure: bool, now: int): (r: SimulateResponse)
    reads if tracker.Some? then {tracker.value} else {}
    ensures r.success && r.findingId == findingId
    ensures r.cloudtrailAvailable == cloudtrail.Some? && r.historicalAvailable == tracker.Some?
    ensures r.usage == GetOr(cloudtrail, FallbackUsage)
    ensures r.decision.autoAllowed && r.decision.warnings == []
    ensures r.decision.action == AutoRemediate <==> r.decision.safety >= ThresholdAuto
    ensures 0 <= r.confidence <= 100
    ensures r.decision.breakdown.simulation == 0.9215
    ensures 0.50 <= r.decision.breakdown.historical <= 0.90
    ensures tracker.None? ==> r.decision.breakdown.historical == 0.70
  {
    var usage := GetOr(cloudtrail, FallbackUsage);
    var history := if tracker.Some? then HistoricalDataForFinding(tracker.value, Some(resourceType), None, now, historyFailure)
                   else FallbackHistory;
    var d := InlineEvaluate(m, SimulateSimulation, usage, SimulateGraph, history, SimulateEnv, MainSimulatePolicy);
    SimulateEndpointDecision(m, SimulateSimulation, usage, SimulateGraph, history, SimulateEnv, MainSimulatePolicy);
    SimulateEndpointSimulationScore(SimulateSimulation);
    SimulateResponse(true, findingId, LegacyConfidence(d.confidence), d, usage, cloudtrail.Some?, tracker.Some?)
  }

  // ---------------------------------------------------------------------
  // /api/simulate/execute
  // ---------------------------------------------------------------------

  datatype ExecuteResponse =
    | Executed(findingId: string, healthReport: Option<HealthReport>, recordId: Option<nat>)
      /** `success: False`, "Health check failed", `rolled_back: True`. */
    | HealthCheckFailed(report: HealthReport)
      /** HTTPException with this status code and detail. */
    | HttpFailure(statusCode: nat, detail: string)

  /** `request.resource_id or finding_id`. */
  function ResourceIdOr(resourceId: Option<string>, findingId: string): (r: string)
    ensures resourceId.Some? && resourceId.value != "" ==> r == resourceId.value
    ensures resourceId.None? || resourceId.value == "" ==> r == findingId
  {
    if resourceId.Some? && resourceId.value != "" then resourceId.value else findingId
  }

  /** The error text recorded for a health report that asks for rollback. */
  function RecordedReason(report: HealthReport): Option<string>
  {
    if report.rollbackReason.Some? then Some(RollbackReasonText(report.rollbackReason.value)) else None
  }

  /** The record execute opens: IAMRole, AUTO_REMEDIATE, confidence 0.9, safety 0.85. */
  function StartedRecord(id: nat, findingId: string, resourceId: Option<string>, now: int): RemediationRecord
  {
    RemediationRecord(id, findingId, "IAMRole", ResourceIdOr(resourceId, findingId), "AUTO_REMEDIATE",
                      PendingOutcome, 0.9, 0.85, now, None, None, None)
  }

  /** A record closed for a response: SUCCESS for an executed fix, FAILED with the reason otherwise. */
  function Closed(r: RemediationRecord, resp: ExecuteResponse, now: int): RemediationRecord
  {
    r.(outcome := if resp.Executed? then Success else FailedOutcome,
       completedAt := Some(now),
       errorMessage := match resp
         case Executed(_, _, _) => None
         case HealthCheckFailed(report) => RecordedReason(report)
         case HttpFailure(_, detail) => Some(detail))
  }

  /** How execute closes its record for a response. */
  method CloseRecord(t: HistoricalTracker, id: nat, resp: ExecuteResponse, now: int)
    requires t.Valid() && id < |t.records|
    modifies t
    ensures t.Valid()
    ensures t.records == old(t.records)[id := Closed(old(t.records)[id], resp, now)]
  {
    match resp
    case Executed(_, _, _) => t.RecordSuccess(id, now);
    case HealthCheckFailed(report) => t.RecordFailure(id, RecordedReason(report), now);
    case HttpFailure(_, detail) => t.RecordFailure(id, Some(detail), now);
  }

  /**
   * execute. `tracker` is the outcome tracker when it is available,
   * `healthAvailable` whether the health checker is; `probe` and
   * `checkCrash` are what running the checks gives, and `healthCallRaised`
   * the exception the synchronous health-check call itself raised, if any.
   */
  method Execute(tracker: Option<HistoricalTracker>, healthAvailable: bool, findingId: string,
                 resourceId: Option<string>, probe: string -> ProbeOutcome, checkCrash: Option<string>,
                 healthCallRaised: Option<string>, now: int)
    returns (resp: ExecuteResponse)
    requires tracker.Some? ==> tracker.value.Valid()
    modifies if tracker.Some? then {tracker.value} else {}
    ensures tracker.Some? ==> tracker.value.Valid()
    ensures var report := PostCheckReport("IAMRole", probe, checkCrash);
      var recordId := if tracker.Some? then Some(|old(tracker.value.records)|) else None;
      (!healthAvailable ==> resp == Executed(findingId, None, recordId))
      && (healthAvailable && healthCallRaised.Some? ==> resp == HttpFailure(500, healthCallRaised.value))
      && (healthAvailable && healthCallRaised.None? && report.shouldRollback ==> resp == HealthCheckFailed(report))
      && (healthAvailable && healthCallRaised.None? && !report.shouldRollback ==>
            resp == Executed(findingId, Some(report), recordId))
    // a health checker that itself crashed yields a report that never asks for rollback
    ensures healthAvailable && healthCallRaised.None? && checkCrash.Some? ==> resp.Executed?
    // exactly one record is opened and closed: SUCCESS when success is reported, FAILED otherwise
    ensures tracker.Some? ==>
      var t := tracker.value;
      var id := |old(t.records)|;
      var started := StartedRecord(id, findingId, resourceId, now);
      t.records == old(t.records) + [Closed(started, resp, now)]
  {
    var recordId: Option<nat> := None;
    ghost var before := if tracker.Some? then tracker.value.records else [];
    if tracker.Some? {
      var id := tracker.value.RecordStart(findingId, "IAMRole", ResourceIdOr(resourceId, findingId),
                                          "AUTO_REMEDIATE", 0.9, 0.85, now);
      recordId := Some(id);
    }
    resp := Respond(healthAvailable, findingId, recordId, probe, checkCrash, healthCallRaised);
    if tracker.Some? {
      CloseRecord(tracker.value, recordId.value, resp, now);
      ghost var started := StartedRecord(|before|, findingId, resourceId, now);
      UpdateLast(before, started, Closed(started, resp, now));
    }
  }

  /** The answer of execute once its record is open: the health check, if available, decides it. */
  method Respond(healthAvailable: bool, findingId: string, recordId: Option<nat>, probe: string -> ProbeOutcome,
                 checkCrash: Option<string>, healthCallRaised: Option<string>)
    returns (resp: ExecuteResponse)
    ensures var report := PostCheckReport("IAMRole", probe, checkCrash);
      (!healthAvailable ==> resp == Executed(findingId, None, recordId))
      && (healthAvailable && healthCallRaised.Some? ==> resp == HttpFailure(500, healthCallRaised.value))
      && (healthAvailable && healthCallRaised.None? && report.shouldRollback ==> resp == HealthCheckFailed(report))
      && (healthAvailable && healthCallRaised.None? && !report.shouldRollback ==>
            resp == Executed(findingId, Some(report), recordId))
    ensures healthAvailable && healthCallRaised.None? && checkCrash.Some? ==> resp.Executed?
  {
    if healthAvailable && healthCallRaised.Some? {
      resp := HttpFailure(500, healthCallRaised.value);
    } else {
      var healthReport: Option<HealthReport> := None;
      if healthAvailable {
        var report := PostRemediationHealthCheck("IAMRole", probe, checkCrash);
        healthReport := Some(report);
      }
      if healthReport.Some? && healthReport.value.shouldRollback {
        resp := HealthCheckFailed(healthReport.value);
      } else {
        resp := Executed(findingId, healthReport, recordId);
      }
    }
  }
}
