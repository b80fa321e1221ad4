/**
 * The in-memory remediation outcome tracker (backend-engines/historical_tracker.py,
 * `storage_backend="memory"`). Records are kept in start order; record ids
 * are their positions. Timestamps are seconds on one clock, passed in.
 */
module HistoricalTracker {
  import opened Common

  datatype RemediationOutcome = Success | FailedOutcome | RolledBackOutcome | Partial | PendingOutcome

  datatype RemediationRecord = RemediationRecord(
    id: nat, findingId: string, resourceType: string, resourceId: string, actionTaken: string,
    outcome: RemediationOutcome, confidenceAtExecution: real, safetyAtExecution: real,
    startedAt: int, completedAt: Option<int>, rolledBackAt: Option<int>, errorMessage: Option<string>)

  datatype HistoricalMetrics = HistoricalMetrics(
    total: nat, successes: nat, failures: nat, rollbacks: nat,
    successRate: real, rollbackRate: real, similarResourceTypeSuccessRate: real,
    lastFailureDaysAgo: Option<int>, avgTimeToCompletionSeconds: Option<real>)

  const SecondsPerDay := 86400
  const DefaultLookbackDays := 90

  /** Number of records with the given outcome. */
  function CountOutcome(records: seq<RemediationRecord>, outcome: RemediationOutcome): (n: nat)
    ensures n <= |records|
  {
    CountWhere(records, (x: RemediationRecord) => x.outcome == outcome)
  }

  /** SUCCESS, FAILED and ROLLED_BACK records are disjoint, so together they never exceed the total. */
  lemma {:induction false} OutcomeCountsBounded(records: seq<RemediationRecord>)
    ensures CountOutcome(records, Success) + CountOutcome(records, FailedOutcome)
            + CountOutcome(records, RolledBackOutcome) <= |records|
  {
    if records != [] {
      OutcomeCountsBounded(records[..|records| - 1]);
    }
  }

  /** The records a metrics query looks at: of the type (when one is given) and started after the cutoff. */
  function InWindow(records: seq<RemediationRecord>, resourceType: Option<string>, cutoff: int): (r: seq<RemediationRecord>)
    ensures forall x :: x in r <==>
      x in records && (resourceType.None? || resourceType.value == "" || x.resourceType == resourceType.value)
      && x.startedAt > cutoff
  {
    var ofType := if resourceType.Some? && resourceType.value != "" then
                    Filter(records, (x: RemediationRecord) => x.resourceType == resourceType.value)
                  else records;
    Filter(ofType, (x: RemediationRecord) => x.startedAt > cutoff)
  }

  /** A share of the window: 0 for an empty window, otherwise part / total. */
  function Rate(part: nat, total: nat): (r: real)
    requires part <= total
    ensures total == 0 ==> r == 0.0
    ensures 0.0 <= r <= 1.0
    ensures total > 0 ==> r == part as real / total as real
  {
    if total > 0 then FractionInUnit(part, total); part as real / total as real else 0.0
  }

  /** _get_metrics_memory on the records of the window. */
  function MetricsOf(records: seq<RemediationRecord>): (m: HistoricalMetrics)
    ensures m.total == |records|
    ensures m.successes == CountOutcome(records, Success) && m.failures == CountOutcome(records, FailedOutcome)
            && m.rollbacks == CountOutcome(records, RolledBackOutcome)
    ensures m.successes + m.failures + m.rollbacks <= m.total
    ensures m.total == 0 ==> m.successRate == 0.0 && m.rollbackRate == 0.0
    ensures 0.0 <= m.successRate <= 1.0 && 0.0 <= m.rollbackRate <= 1.0
    ensures m.total > 0 ==> m.successRate == m.successes as real / m.total as real
    ensures m.total > 0 ==> m.rollbackRate == m.rollbacks as real / m.total as real
    ensures m.similarResourceTypeSuccessRate == m.successRate
    ensures m.lastFailureDaysAgo.None? && m.avgTimeToCompletionSeconds.None?
  {
    var total := |records|;
    var successes := CountOutcome(records, Success);
    var failures := CountOutcome(records, FailedOutcome);
    var rollbacks := CountOutcome(records, RolledBackOutcome);
    OutcomeCountsBounded(records);
    var successRate := Rate(successes, total);
    HistoricalMetrics(total, successes, failures, rollbacks, successRate, Rate(rollbacks, total), successRate, None, None)
  }

  /** _get_default_historical_metrics: neutral all-zero metrics. */
  function DefaultMetrics(): (m: HistoricalMetrics)
    ensures m.total == 0 && m.successes == 0 && m.failures == 0 && m.rollbacks == 0
    ensures m.successRate == 0.0 && m.rollbackRate == 0.0 && m.similarResourceTypeSuccessRate == 0.0
    ensures m.lastFailureDaysAgo.None? && m.avgTimeToCompletionSeconds.None?
  {
    HistoricalMetrics(0, 0, 0, 0, 0.0, 0.0, 0.0, None, None)
  }

  /** The default metrics are exactly what an empty window yields. */
  lemma DefaultMetricsAreEmptyWindow()
    ensures DefaultMetrics() == MetricsOf([])
  {
  }

  class HistoricalTracker {
    var records: seq<RemediationRecord>
    var byResourceType: map<string, seq<nat>>

    /** Ids are positions, and the type index lists exactly the records of each type. */
    predicate Valid()
      reads this
    {
      (forall i :: 0 <= i < |records| ==> records[i].id == i)
      && (forall t, k :: t in byResourceType && 0 <= k < |byResourceType[t]| ==>
            byResourceType[t][k] < |records| && records[byResourceType[t][k]].resourceType == t)
      && (forall i :: 0 <= i < |records| ==>
            records[i].resourceType in byResourceType && i in byResourceType[records[i].resourceType])
    }

    constructor ()
      ensures Valid() && records == [] && byResourceType == map[]
    {
      records := [];
      byResourceType := map[];
    }

    /** record_start followed by _save_record: a fresh PENDING record, indexed under its type. */
    method RecordStart(findingId: string, resourceType: string, resourceId: string, action: string,
                       confidence: real, safety: real, now: int) returns (recordId: nat)
      requires Valid()
      modifies this
      ensures Valid()
      ensures recordId == |old(records)|
      ensures records == old(records) + [RemediationRecord(recordId, findingId, resourceType, resourceId, action,
                                                           PendingOutcome, confidence, safety, now, None, None, None)]
      ensures byResourceType == old(byResourceType)[resourceType :=
        (if resourceType in old(byResourceType) then old(byResourceType)[resourceType] else []) + [recordId]]
    {
      recordId := |records|;
      forall t | t in byResourceType
        ensures recordId !in byResourceType[t]
      {
      }
      var record := RemediationRecord(recordId, findingId, resourceType, resourceId, action,
                                      PendingOutcome, confidence, safety, now, None, None, None);
      records := records + [record];
      if resourceType !in byResourceType {
        byResourceType := byResourceType[resourceType := []];
      }
      byResourceType := byResourceType[resourceType := byResourceType[resourceType] + [recordId]];
    }

    /** _update_outcome: a known record gets the outcome, completion time and error; an unknown id changes nothing. */
    method UpdateOutcome(recordId: nat, outcome: RemediationOutcome, error: Option<string>, now: int)
      requires Valid()
      modifies this
      ensures Valid() && byResourceType == old(byResourceType)
      ensures recordId >= |old(records)| ==> records == old(records)
      ensures recordId < |old(records)| ==>
        records == old(records)[recordId := old(records)[recordId].(outcome := outcome, completedAt := Some(now),
                                                                      errorMessage := error)]
    {
      if recordId < |records| {
        records := records[recordId := records[recordId].(outcome := outcome, completedAt := Some(now),
                                                          errorMessage := error)];
        forall t, k | t in byResourceType && 0 <= k < |byResourceType[t]|
          ensures records[byResourceType[t][k]].resourceType == t
        {
          assert old(records)[byResourceType[t][k]].resourceType == t;
        }
      }
    }

    method RecordSuccess(recordId: nat, now: int)
      requires Valid()
      modifies this
      ensures Valid() && byResourceType == old(byResourceType)
      ensures recordId >= |old(records)| ==> records == old(records)
      ensures recordId < |old(records)| ==>
        records == old(records)[recordId := old(records)[recordId].(outcome := Success, completedAt := Some(now),
                                                                      errorMessage := None)]
    {
      UpdateOutcome(recordId, Success, None, now);
    }

    method RecordFailure(recordId: nat, error: Option<string>, now: int)
      requires Valid()
      modifies this
      ensures Valid() && byResourceType == old(byResourceType)
      ensures recordId >= |old(records)| ==> records == old(records)
      ensures recordId < |old(records)| ==>
        records == old(records)[recordId := old(records)[recordId].(outcome := FailedOutcome, completedAt := Some(now),
                                                                      errorMessage := error)]
    {
      UpdateOutcome(recordId, FailedOutcome, error, now);
    }

    /** record_rollback in memory: outcome and rollback time only; completion time and error stay. */
    method RecordRollback(recordId: nat, now: int)
      requires Valid()
      modifies this
      ensures Valid() && byResourceType == old(byResourceType)
      ensures recordId >= |old(records)| ==> records == old(records)
      ensures recordId < |old(records)| ==>
        records == old(records)[recordId := old(records)[recordId].(outcome := RolledBackOutcome,
                                                                      rolledBackAt := Some(now))]
    {
      if recordId < |records| {
        records := records[recordId := records[recordId].(outcome := RolledBackOutcome, rolledBackAt := Some(now))];
        forall t, k | t in byResourceType && 0 <= k < |byResourceType[t]|
          ensures records[byResourceType[t][k]].resourceType == t
        {
          assert old(records)[byResourceType[t][k]].resourceType == t;
        }
      }
    }

    /** get_metrics over the in-memory records, looking back lookbackDays from now. */
    function GetMetrics(resourceType: Option<string>, now: int, lookbackDays: int): (m: HistoricalMetrics)
      reads this
      ensures m == MetricsOf(InWindow(records, resourceType, now - lookbackDays * SecondsPerDay))
      ensures m.successes + m.failures + m.rollbacks <= m.total
    {
      MetricsOf(InWindow(records, resourceType, now - lookbackDays * SecondsPerDay))
    }
  }

  /** The outcome the usage example gives its i-th remediation. */
  function ExampleOutcome(i: int): RemediationOutcome
  {
    if i < 8 then Success else if i == 8 then FailedOutcome else RolledBackOutcome
  }

  /** One round of the usage example: start a remediation, then finish it with its outcome. */
  method ExampleRound(t: HistoricalTracker, i: nat, now: int)
    requires t.Valid()
    modifies t
    ensures t.Valid()
    ensures |t.records| == |old(t.records)| + 1 && t.records[..|old(t.records)|] == old(t.records)
    ensures t.records[|old(t.records)|].resourceType == "IAMRole" && t.records[|old(t.records)|].startedAt == now
    ensures t.records[|old(t.records)|].outcome == ExampleOutcome(i)
  {
    var id := t.RecordStart("finding", "IAMRole", "role", "AUTO_REMEDIATE", 0.95, 0.92, now);
    if i < 8 {
      t.RecordSuccess(id, now);
    } else if i == 8 {
      t.RecordFailure(id, Some("Permission denied"), now);
    } else {
      t.RecordRollback(id, now);
    }
  }

  /**
   * The module's usage example on the in-memory store: ten IAMRole
   * remediations, eight succeeding, one failing and one rolled back, give
   * a total of 10, rates 0.8 and 0.1.
   */
  method TenRemediations(now: int) returns (m: HistoricalMetrics)
    ensures m.total == 10 && m.successes == 8 && m.failures == 1 && m.rollbacks == 1
    ensures m.successRate == 0.8 && m.rollbackRate == 0.1
  {
    var t := new HistoricalTracker();
    var i := 0;
    while i < 10
      invariant 0 <= i <= 10
      invariant t.Valid() && |t.records| == i
      invariant forall j :: 0 <= j < i ==> t.records[j].resourceType == "IAMRole" && t.records[j].startedAt == now
      invariant forall j :: 0 <= j < i ==> t.records[j].outcome == ExampleOutcome(j)
    {
      ExampleRound(t, i, now);
      i := i + 1;
    }
    m := t.GetMetrics(Some("IAMRole"), now, DefaultLookbackDays);
    TenMetrics(t.records, now - DefaultLookbackDays * SecondsPerDay, now);
  }

  lemma TenMetrics(records: seq<RemediationRecord>, cutoff: int, now: int)
    requires cutoff < now && |records| == 10
    requires forall j :: 0 <= j < 10 ==> records[j].resourceType == "IAMRole" && records[j].startedAt == now
    requires forall j :: 0 <= j < 10 ==> records[j].outcome == ExampleOutcome(j)
    ensures var m := MetricsOf(InWindow(records, Some("IAMRole"), cutoff));
      m.total == 10 && m.successes == 8 && m.failures == 1 && m.rollbacks == 1
      && m.successRate == 0.8 && m.rollbackRate == 0.1
  {
    WindowKeepsAll(records, "IAMRole", cutoff);
    CountTen(records);
  }

  /** A window that every record falls in keeps every record, in order. */
  lemma {:induction false} WindowKeepsAll(records: seq<RemediationRecord>, resourceType: string, cutoff: int)
    requires resourceType != ""
    requires forall j :: 0 <= j < |records| ==> records[j].resourceType == resourceType && records[j].startedAt > cutoff
    ensures InWindow(records, Some(resourceType), cutoff) == records
  {
    FilterKeepsAll(records, (x: RemediationRecord) => x.resourceType == resourceType);
    FilterKeepsAll(records, (x: RemediationRecord) => x.startedAt > cutoff);
  }

  lemma CountTen(records: seq<RemediationRecord>)
    requires |records| == 10
    requires forall j :: 0 <= j < 10 ==> records[j].outcome == ExampleOutcome(j)
    ensures CountOutcome(records, Success) == 8
    ensures CountOutcome(records, FailedOutcome) == 1
    ensures CountOutcome(records, RolledBackOutcome) == 1
  {
    assert records[..9][..8] == records[..8];
    forall o: RemediationOutcome
      ensures CountOutcome(records, o) == CountOutcome(records[..8], o)
                + (if records[8].outcome == o then 1 else 0) + (if records[9].outcome == o then 1 else 0)
    {
      CountOutcomeStep(records, o);
      CountOutcomeStep(records[..9], o);
    }
    assert CountOutcome(records[..8], FailedOutcome) == 0 by { NoneOf(records[..8], FailedOutcome); }
    assert CountOutcome(records[..8], RolledBackOutcome) == 0 by { NoneOf(records[..8], RolledBackOutcome); }
    assert CountOutcome(records[..8], Success) == 8 by { AllOf(records[..8], Success); }
  }

  /** One more record adds one to the count of its own outcome. */
  lemma CountOutcomeStep(records: seq<RemediationRecord>, outcome: RemediationOutcome)
    requires records != []
    ensures CountOutcome(records, outcome)
            == CountOutcome(records[..|records| - 1], outcome) + (if records[|records| - 1].outcome == outcome then 1 else 0)
  {
  }

  lemma {:induction false} NoneOf(records: seq<RemediationRecord>, outcome: RemediationOutcome)
    requires forall j :: 0 <= j < |records| ==> records[j].outcome != outcome
    ensures CountOutcome(records, outcome) == 0
  {
    if records != [] {
      NoneOf(records[..|records| - 1], outcome);
    }
  }

  lemma {:induction false} AllOf(records: seq<RemediationRecord>, outcome: RemediationOutcome)
    requires forall j :: 0 <= j < |records| ==> records[j].outcome == outcome
    ensures CountOutcome(records, outcome) == |records|
  {
    if records != [] {
      AllOf(records[..|records| - 1], outcome);
    }
  }
}
