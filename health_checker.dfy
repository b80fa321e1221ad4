/**
 * Post-remediation health checks (backend-engines/health_checker.py): which
 * checks a resource type gets, how their outcomes are collected, and how the
 * collected results are aggregated into a report that may ask for rollback.
 *
 * The probes themselves (IAM, STS and CloudWatch calls) are not modelled:
 * `probe` gives the outcome of running the check with a given name.
 */
module HealthChecker {
  import opened Common

  datatype HealthStatus = Healthy | Degraded | Unhealthy | Unknown

  datatype CheckResult = CheckResult(checkName: string, status: HealthStatus)

  /** What running one check produced: a status, a timeout, or an exception. */
  datatype ProbeOutcome = Returned(status: HealthStatus) | TimedOut | Raised(message: string)

  /** The rollback reason lists the names of the failed checks, in order. */
  datatype HealthReport = HealthReport(
    overallStatus: HealthStatus, checks: seq<CheckResult>,
    passed: nat, failed: nat, degraded: nat,
    shouldRollback: bool, rollbackReason: Option<seq<string>>, error: Option<string>)

  const DefaultFailureThreshold := 2

  /** _get_checks_for_resource: IAM checks first, then the two generic checks. */
  function ChecksFor(resourceType: string): (names: seq<string>)
    ensures resourceType == "IAMRole" ==>
      names == ["iam_policy_validation", "iam_simulate_access", "iam_role_assumable", "cloudwatch_errors", "api_latency"]
    ensures resourceType in {"IAMPolicy", "IAMUser"} ==>
      names == ["iam_policy_validation", "iam_simulate_access", "cloudwatch_errors", "api_latency"]
    ensures resourceType !in {"IAMRole", "IAMPolicy", "IAMUser"} ==> names == ["cloudwatch_errors", "api_latency"]
    ensures names[|names| - 2..] == ["cloudwatch_errors", "api_latency"]
  {
    var iam := if resourceType in ["IAMRole", "IAMPolicy", "IAMUser"] then ["iam_policy_validation", "iam_simulate_access"] else [];
    var role := if resourceType in ["IAMRole"] then ["iam_role_assumable"] else [];
    iam + role + ["cloudwatch_errors", "api_latency"]
  }

  /** A timeout or an exception becomes an UNKNOWN result under the check's own name. */
  function ResultOf(name: string, outcome: ProbeOutcome): (r: CheckResult)
    ensures r.checkName == name
    ensures r.status == Unknown <==> !outcome.Returned? || outcome.status == Unknown
  {
    match outcome
    case Returned(status) => CheckResult(name, status)
    case TimedOut => CheckResult(name, Unknown)
    case Raised(_) => CheckResult(name, Unknown)
  }

  /** Number of results with the given status. */
  function Count(checks: seq<CheckResult>, status: HealthStatus): (n: nat)
    ensures n <= |checks|
    ensures n > 0 <==> exists i :: 0 <= i < |checks| && checks[i].status == status
  {
    CountWhereExtremes(checks, (x: CheckResult) => x.status == status);
    CountWhere(checks, (x: CheckResult) => x.status == status)
  }

  /** The four status counts partition the results. */
  lemma {:induction false} CountsPartition(checks: seq<CheckResult>)
    ensures Count(checks, Healthy) + Count(checks, Unhealthy) + Count(checks, Degraded) + Count(checks, Unknown)
      == |checks|
  {
    if checks != [] {
      CountsPartition(checks[..|checks| - 1]);
    }
  }

  /** Names of the UNHEALTHY results, in order. */
  function FailedNames(checks: seq<CheckResult>): (names: seq<string>)
    ensures |names| == Count(checks, Unhealthy)
    ensures forall n :: n in names <==> exists i :: 0 <= i < |checks| && checks[i].status == Unhealthy && checks[i].checkName == n
  {
    if checks == [] then []
    else
      var last := checks[|checks| - 1];
      assert forall i :: 0 <= i < |checks| - 1 ==> checks[..|checks| - 1][i] == checks[i];
      FailedNames(checks[..|checks| - 1]) + (if last.status == Unhealthy then [last.checkName] else [])
  }

  /** The text _build_report gives as rollback reason: the failed check names, comma-separated. */
  function RollbackReasonText(failedNames: seq<string>): (r: string)
    ensures |r| >= |"Health checks failed: "| && r[..|"Health checks failed: "|] == "Health checks failed: "
    ensures |failedNames| == 1 ==> r == "Health checks failed: " + failedNames[0]
  {
    "Health checks failed: " + Join(failedNames, ", ")
  }

  /** _build_report. */
  function BuildReport(checks: seq<CheckResult>, failureThreshold: int): (r: HealthReport)
    ensures r.checks == checks && r.error.None?
    ensures r.passed == Count(checks, Healthy) && r.failed == Count(checks, Unhealthy)
      && r.degraded == Count(checks, Degraded)
    ensures r.overallStatus == Unhealthy <==> exists i :: 0 <= i < |checks| && checks[i].status == Unhealthy
    ensures r.overallStatus == Degraded <==>
      (forall i :: 0 <= i < |checks| ==> checks[i].status != Unhealthy)
      && exists i :: 0 <= i < |checks| && checks[i].status == Degraded
    ensures r.overallStatus == Unknown <==> forall i :: 0 <= i < |checks| ==> checks[i].status == Unknown
    ensures r.shouldRollback <==> Count(checks, Unhealthy) >= failureThreshold
    ensures r.rollbackReason == if r.shouldRollback then Some(FailedNames(checks)) else None
  {
    var passed := Count(checks, Healthy);
    var failed := Count(checks, Unhealthy);
    var degraded := Count(checks, Degraded);
    var unknown := Count(checks, Unknown);
    CountsPartition(checks);
    var overall :=
      if failed > 0 then Unhealthy
      else if degraded > 0 then Degraded
      else if unknown == |checks| then Unknown
      else Healthy;
    var shouldRollback := failed >= failureThreshold;
    HealthReport(overall, checks, passed, failed, degraded, shouldRollback,
      if shouldRollback then Some(FailedNames(checks)) else None, None)
  }

  /** With a positive threshold, DEGRADED and UNKNOWN results never ask for rollback. */
  lemma OnlyFailuresTriggerRollback(checks: seq<CheckResult>, failureThreshold: int)
    requires failureThreshold >= 1
    ensures BuildReport(checks, failureThreshold).shouldRollback ==>
      exists i :: 0 <= i < |checks| && checks[i].status == Unhealthy
    ensures (forall i :: 0 <= i < |checks| ==> checks[i].status != Unhealthy) ==>
      !BuildReport(checks, failureThreshold).shouldRollback
  {
  }

  /** With the default threshold a single failed check does not ask for rollback, two do. */
  lemma DefaultThreshold(checks: seq<CheckResult>)
    ensures BuildReport(checks, DefaultFailureThreshold).shouldRollback <==> Count(checks, Unhealthy) >= 2
    ensures Count(checks, Unhealthy) == 1 ==> !BuildReport(checks, DefaultFailureThreshold).shouldRollback
  {
  }

  /** No checks at all give an UNKNOWN report. */
  lemma NoChecksIsUnknown(failureThreshold: int)
    requires failureThreshold >= 1
    ensures BuildReport([], failureThreshold).overallStatus == Unknown
    ensures !BuildReport([], failureThreshold).shouldRollback
  {
  }

  /** The results of running the checks of a resource type, in order. */
  function CheckResults(resourceType: string, probe: string -> ProbeOutcome): (checks: seq<CheckResult>)
    ensures |checks| == |ChecksFor(resourceType)|
    ensures forall i :: 0 <= i < |checks| ==> checks[i].checkName == ChecksFor(resourceType)[i]
  {
    var names := ChecksFor(resourceType);
    seq(|names|, i requires 0 <= i < |names| => ResultOf(names[i], probe(names[i])))
  }

  /**
   * run_health_checks: every selected check yields exactly one result, in
   * order, and the report aggregates them.
   */
  method RunHealthChecks(resourceType: string, probe: string -> ProbeOutcome, failureThreshold: int)
    returns (report: HealthReport)
    ensures |report.checks| == |ChecksFor(resourceType)|
    ensures forall i :: 0 <= i < |report.checks| ==>
      report.checks[i] == ResultOf(ChecksFor(resourceType)[i], probe(ChecksFor(resourceType)[i]))
    ensures report == BuildReport(report.checks, failureThreshold)
    ensures report == BuildReport(CheckResults(resourceType, probe), failureThreshold)
  {
    var checks := ProbeChecks(ChecksFor(resourceType), probe);
    ResultsInOrder(checks, resourceType, probe);
    report := BuildReport(checks, failureThreshold);
  }

  /** Results listed one per check, in the checks' order, are CheckResults. */
  lemma ResultsInOrder(checks: seq<CheckResult>, resourceType: string, probe: string -> ProbeOutcome)
    requires |checks| == |ChecksFor(resourceType)|
    requires forall j :: 0 <= j < |checks| ==>
      checks[j] == ResultOf(ChecksFor(resourceType)[j], probe(ChecksFor(resourceType)[j]))
    ensures checks == CheckResults(resourceType, probe)
  {
  }

  /** The loop of run_health_checks: one result per check, in order. */
  method ProbeChecks(names: seq<string>, probe: string -> ProbeOutcome) returns (checks: seq<CheckResult>)
    ensures |checks| == |names|
    ensures forall j :: 0 <= j < |names| ==> checks[j] == ResultOf(names[j], probe(names[j]))
  {
    checks := [];
    var i := 0;
    while i < |names|
      invariant 0 <= i <= |names|
      invariant |checks| == i
      invariant forall j :: 0 <= j < i ==> checks[j] == ResultOf(names[j], probe(names[j]))
    {
      checks := checks + [ResultOf(names[i], probe(names[i]))];
      i := i + 1;
    }
  }

  /** The report run_post_remediation_health_check returns when running the checks raised. */
  function FallbackReport(message: string): (r: HealthReport)
    ensures r.overallStatus == Unknown && r.checks == [] && !r.shouldRollback && r.rollbackReason.None?
    ensures r.passed == 0 && r.failed == 0 && r.degraded == 0 && r.error == Some(message)
  {
    HealthReport(Unknown, [], 0, 0, 0, false, None, Some(message))
  }

  /** The report run_post_remediation_health_check returns, as a value. */
  function PostCheckReport(resourceType: string, probe: string -> ProbeOutcome, crash: Option<string>): (r: HealthReport)
    ensures crash.Some? ==> !r.shouldRollback && r.error == crash
    ensures crash.None? ==> (r.shouldRollback <==> Count(CheckResults(resourceType, probe), Unhealthy) >= DefaultFailureThreshold)
  {
    if crash.Some? then FallbackReport(crash.value)
    else BuildReport(CheckResults(resourceType, probe), DefaultFailureThreshold)
  }

  /**
   * run_post_remediation_health_check with the default checker; `crash`
   * is the exception running the checks raised, if any.
   */
  method PostRemediationHealthCheck(resourceType: string, probe: string -> ProbeOutcome, crash: Option<string>)
    returns (report: HealthReport)
    ensures crash.Some? ==> report == FallbackReport(crash.value)
    ensures crash.None? ==>
      report == BuildReport(report.checks, DefaultFailureThreshold) && |report.checks| == |ChecksFor(resourceType)|
    ensures report == PostCheckReport(resourceType, probe, crash)
  {
    if crash.Some? {
      report := FallbackReport(crash.value);
    } else {
      report := RunHealthChecks(resourceType, probe, DefaultFailureThreshold);
    }
  }
}
