/**
 * The remediation workflow orchestrator (backend-engines/workflow_orchestrator.py).
 *
 * The orchestrator keeps three registries: workflows, approval requests and
 * canary deployments. A workflow owns at most one approval or one canary, and
 * the registry entry and the workflow's reference are the same object, so
 * updating one updates the other. The model keeps each registry as a sequence
 * indexed by id: a fresh id is the next index, and a workflow refers to its
 * approval or canary by index, which keeps that sharing.
 *
 * The execute, rollback and health-check callbacks are optional; each call
 * takes the outcome of the callbacks it may invoke as a parameter, and the
 * clock as a number of seconds (`now`) or an hour of the day (`hour`).
 */
module Orchestrator {
  import opened Common

  datatype WorkflowStatus =
    | Pending | AwaitingApproval | Approved | Rejected
    | CanaryDeploying | CanaryMonitoring | CanaryPromoting
    | Executing | HealthCheck | Completed | Failed | RolledBack | Expired

  datatype WorkflowType = AutoRemediateFlow | CanaryFlow | ApprovalFlow | ScheduledFlow

  /** The `status` string of an approval request. */
  datatype ReviewStatus = ReviewPending | ReviewApproved | ReviewRejected

  datatype StageStatus = StagePending | StageInProgress | StageCompleted

  datatype Stage = Stage(percentage: int, status: StageStatus)

  /** The `status` string of a canary deployment. */
  datatype CanaryStatus = Deploying | Promoted

  /** The decision dictionary the engine hands over; every key may be missing. */
  datatype DecisionDict = DecisionDict(
    action: Option<string>, confidence: Option<real>, safety: Option<real>,
    reasons: Option<seq<string>>, warnings: Option<seq<string>>)

  datatype Approval = Approval(
    id: nat, workflowId: nat, findingId: string, resourceType: string, resourceId: string,
    requestedAction: string, confidence: real, safety: real,
    reasons: seq<string>, warnings: seq<string>,
    requestedBy: string, requestedAt: int, expiresAt: int, status: ReviewStatus,
    reviewedBy: Option<string>, reviewedAt: Option<int>, reviewComment: Option<string>)

  datatype Canary = Canary(
    id: nat, workflowId: nat, findingId: string, resourceId: string, totalInstances: int,
    canaryPercentage: int, currentPercentage: int, stages: seq<Stage>,
    healthChecksPassed: nat, healthChecksFailed: nat, startedAt: int,
    lastStageAt: Option<int>, promotedAt: Option<int>, status: CanaryStatus)

  /**
   * What the health-check callback reports. The `rollback_reason` key may be
   * missing (None), present and null (Some(None)), or hold a text.
   */
  datatype HealthResult = HealthResult(shouldRollback: bool, rollbackReason: Option<Option<string>>)

  /** `health_result.get("rollback_reason", "Health check failed")`; None is Python's None. */
  function ReasonOf(report: HealthResult): (r: Option<string>)
    ensures report.rollbackReason.None? ==> r == Some("Health check failed")
    ensures report.rollbackReason.Some? ==> r == report.rollbackReason.value
  {
    match report.rollbackReason
    case None => Some("Health check failed")
    case Some(given) => given
  }

  /** The outcome of calling the execute callback: its result, or the exception it raised. */
  datatype ExecOutcome = Executed(result: string) | ExecRaised(message: string)

  /** The outcome of calling the health-check callback. */
  datatype CheckOutcome = Checked(report: HealthResult) | CheckRaised(message: string)

  /** The outcome of calling the rollback callback. */
  datatype RollbackOutcome = RolledBackOk | RollbackRaised(message: string)

  /** Which callbacks have been set. */
  datatype Callbacks = Callbacks(onExecute: bool, onRollback: bool, onHealthCheck: bool)

  datatype Workflow = Workflow(
    id: nat, findingId: string, resourceType: string, resourceId: string,
    workflowType: WorkflowType, status: WorkflowStatus, decision: DecisionDict,
    createdAt: int, updatedAt: int, scheduledFor: Option<string>,
    approval: Option<nat>, canary: Option<nat>,
    healthReport: Option<HealthResult>, executionResult: Option<string>, error: Option<string>)

  const DefaultCanaryStages: seq<int> := [10, 25, 50, 100]
  const DefaultApprovalTimeoutHours := 24
  const DefaultChangeWindowStart := 6
  const DefaultChangeWindowEnd := 22

  /** A missing action counts as BLOCK; BLOCK and every unknown action need approval. */
  function ActionToWorkflowType(action: Option<string>): (t: WorkflowType)
    ensures t == AutoRemediateFlow <==> action == Some("AUTO_REMEDIATE")
    ensures t == CanaryFlow <==> action == Some("CANARY")
    ensures t == ApprovalFlow <==> action != Some("AUTO_REMEDIATE") && action != Some("CANARY")
    ensures action.None? ==> t == ApprovalFlow
  {
    match GetOr(action, "BLOCK")
    case "AUTO_REMEDIATE" => AutoRemediateFlow
    case "CANARY" => CanaryFlow
    case "REQUIRE_APPROVAL" => ApprovalFlow
    case "BLOCK" => ApprovalFlow
    case _ => ApprovalFlow
  }

  predicate IsTerminal(s: WorkflowStatus)
  {
    s in {Completed, Failed, RolledBack, Rejected, Expired}
  }

  /** _rollback: the rollback callback's failure message is overwritten by the reason. */
  function RollbackWorkflow(w: Workflow, reason: Option<string>, cb: Callbacks, rb: RollbackOutcome, now: int): (r: Workflow)
    ensures r == w.(status := RolledBack, error := reason, updatedAt := now)
  {
    var w1 := if cb.onRollback && rb.RollbackRaised? then w.(error := Some("Rollback failed: " + rb.message)) else w;
    w1.(status := RolledBack, error := reason, updatedAt := now)
  }

  /** The execute callback raised (or, failing that, the health-check callback did). */
  predicate ExecutionRaises(cb: Callbacks, exec: ExecOutcome, check: CheckOutcome)
  {
    (cb.onExecute && exec.ExecRaised?) || (cb.onHealthCheck && check.CheckRaised?)
  }

  predicate HealthAsksRollback(cb: Callbacks, check: CheckOutcome)
  {
    cb.onHealthCheck && check.Checked? && check.report.shouldRollback
  }

  /** _execute_remediation: execute, health check, then complete or roll back; an exception fails. */
  function ExecuteRemediation(w: Workflow, cb: Callbacks, exec: ExecOutcome, check: CheckOutcome,
                              rb: RollbackOutcome, now: int): (r: Workflow)
    ensures r.status in {Completed, RolledBack, Failed}
    ensures r.status == Failed <==> ExecutionRaises(cb, exec, check)
    ensures r.status == RolledBack <==> !ExecutionRaises(cb, exec, check) && HealthAsksRollback(cb, check)
    ensures r.status == Failed ==>
      r.error == Some(if cb.onExecute && exec.ExecRaised? then exec.message else check.message)
    ensures r.status == RolledBack ==> r.error == ReasonOf(check.report)
    ensures r.status == RolledBack && check.report.rollbackReason == Some(None) ==> r.error.None?
    ensures r.status == Completed ==> r.error == w.error
    ensures r.updatedAt == now
    // identity, type, decision and links never change
    ensures r.(status := w.status, updatedAt := w.updatedAt, error := w.error,
               healthReport := w.healthReport, executionResult := w.executionResult) == w
  {
    var w1 := w.(status := Executing, updatedAt := now);
    if cb.onExecute && exec.ExecRaised? then
      w1.(status := Failed, error := Some(exec.message))
    else
      var w2 := if cb.onExecute then w1.(executionResult := Some(exec.result)) else w1;
      var w3 := w2.(status := HealthCheck);
      if !cb.onHealthCheck then w3.(status := Completed)
      else if check.CheckRaised? then w3.(status := Failed, error := Some(check.message))
      else
        var w4 := w3.(healthReport := Some(check.report));
        if check.report.shouldRollback then
          RollbackWorkflow(w4, ReasonOf(check.report), cb, rb, now)
        else w4.(status := Completed)
  }

  /** A new approval request for workflow w: PENDING, expiring timeoutHours after now. */
  function NewApproval(id: nat, w: Workflow, requestedBy: string, now: int, timeoutHours: int): (a: Approval)
    ensures a.id == id && a.workflowId == w.id && a.status == ReviewPending
    ensures a.expiresAt == a.requestedAt + timeoutHours * 3600 && a.requestedAt == now
    ensures a.requestedAction == GetOr(w.decision.action, "UNKNOWN")
    ensures a.reviewedBy.None? && a.reviewedAt.None? && a.reviewComment.None?
  {
    Approval(id, w.id, w.findingId, w.resourceType, w.resourceId,
      GetOr(w.decision.action, "UNKNOWN"), GetOr(w.decision.confidence, 0.0), GetOr(w.decision.safety, 0.0),
      GetOr(w.decision.reasons, []), GetOr(w.decision.warnings, []),
      requestedBy, now, now + timeoutHours * 3600, ReviewPending, None, None, None)
  }

  function PendingStages(percentages: seq<int>): (r: seq<Stage>)
    ensures |r| == |percentages|
    ensures forall i :: 0 <= i < |r| ==> r[i] == Stage(percentages[i], StagePending)
  {
    if percentages == [] then []
    else PendingStages(percentages[..|percentages| - 1]) + [Stage(percentages[|percentages| - 1], StagePending)]
  }

  /** A new canary for workflow w: every stage pending, at 0%, aiming for the first stage. */
  function NewCanary(id: nat, w: Workflow, percentages: seq<int>, now: int): (c: Canary)
    requires |percentages| > 0
    ensures c.id == id && c.workflowId == w.id
    ensures |c.stages| == |percentages|
    ensures forall i :: 0 <= i < |c.stages| ==> c.stages[i] == Stage(percentages[i], StagePending)
    ensures c.currentPercentage == 0 && c.canaryPercentage == percentages[0]
    ensures c.healthChecksPassed == 0 && c.healthChecksFailed == 0 && c.status == Deploying
  {
    Canary(id, w.id, w.findingId, w.resourceId, 1, percentages[0], 0, PendingStages(percentages),
      0, 0, now, None, None, Deploying)
  }

  /** Index of the first stage not yet COMPLETED, or -1 when every stage is. */
  function FirstOpen(stages: seq<Stage>): (r: int)
    ensures -1 <= r < |stages|
    ensures r == -1 <==> forall i :: 0 <= i < |stages| ==> stages[i].status == StageCompleted
    ensures r >= 0 ==> (stages[r].status != StageCompleted
                        && forall j :: 0 <= j < r ==> stages[j].status == StageCompleted)
  {
    if stages == [] then -1
    else if stages[0].status != StageCompleted then 0
    else
      var k := FirstOpen(stages[1..]);
      if k == -1 then -1 else k + 1
  }

  /**
   * One advance_canary step on a workflow and its canary, given the index
   * the stage scan found: Err when the health-check callback raised,
   * otherwise the new workflow and canary.
   */
  function AdvanceStep(w: Workflow, c: Canary, cb: Callbacks, check: CheckOutcome, rb: RollbackOutcome,
                       now: int): Result<(Workflow, Canary)>
  {
    var idx := FirstOpen(c.stages);
    if idx == -1 then
      Ok((w.(status := Completed), c.(status := Promoted, promotedAt := Some(now))))
    else if cb.onHealthCheck && check.CheckRaised? then
      Err(check.message)
    else
      var failedCheck := cb.onHealthCheck && check.report.shouldRollback;
      var c1 :=
        if !cb.onHealthCheck then c
        else if failedCheck then c.(healthChecksFailed := c.healthChecksFailed + 1)
        else c.(healthChecksPassed := c.healthChecksPassed + 1);
      if failedCheck && c1.healthChecksFailed >= 2 then
        Ok((RollbackWorkflow(w, Some("Canary health check failed"), cb, rb, now), c1))
      else
        var pct := c1.stages[idx].percentage;
        var c2 := c1.(stages := c1.stages[idx := Stage(pct, StageCompleted)],
                      currentPercentage := pct, lastStageAt := Some(now));
        if pct >= 100 then
          Ok((w.(status := Completed, updatedAt := now), c2.(status := Promoted, promotedAt := Some(now))))
        else if idx + 1 < |c2.stages| then
          var next := c2.stages[idx + 1];
          Ok((w.(status := CanaryMonitoring, updatedAt := now),
              c2.(stages := c2.stages[idx + 1 := Stage(next.percentage, StageInProgress)],
                  canaryPercentage := next.percentage)))
        else
          Ok((w.(updatedAt := now), c2))
  }

  /** With every stage completed, advancing completes the workflow without a health check. */
  lemma AdvanceWhenAllStagesDone(w: Workflow, c: Canary, cb: Callbacks, check: CheckOutcome, rb: RollbackOutcome, now: int)
    requires forall i :: 0 <= i < |c.stages| ==> c.stages[i].status == StageCompleted
    ensures AdvanceStep(w, c, cb, check, rb, now).Ok?
    ensures AdvanceStep(w, c, cb, check, rb, now).value.0.status == Completed
    ensures AdvanceStep(w, c, cb, check, rb, now).value.1.healthChecksFailed == c.healthChecksFailed
    ensures AdvanceStep(w, c, cb, check, rb, now).value.1.healthChecksPassed == c.healthChecksPassed
  {
  }

  /**
   * A failed health check below the second failure still completes the
   * stage; the second failure rolls the workflow back and completes nothing.
   */
  lemma FailedCheckStillCompletesStage(w: Workflow, c: Canary, cb: Callbacks, report: HealthResult,
                                       rb: RollbackOutcome, now: int)
    requires cb.onHealthCheck && report.shouldRollback
    requires FirstOpen(c.stages) >= 0
    ensures var r := AdvanceStep(w, c, cb, Checked(report), rb, now);
      r.Ok? && r.value.1.healthChecksFailed == c.healthChecksFailed + 1
      && (c.healthChecksFailed == 0 ==>
            r.value.1.stages[FirstOpen(c.stages)].status == StageCompleted
            && r.value.1.currentPercentage == c.stages[FirstOpen(c.stages)].percentage
            && r.value.0.status in {Completed, CanaryMonitoring, w.status} && r.value.0.error == w.error)
      && (c.healthChecksFailed >= 1 ==>
            r.value.0.status == RolledBack && r.value.0.error == Some("Canary health check failed")
            && r.value.1.stages == c.stages)
  {
  }

  /** start_canary's effect on a workflow and its canary (the execute callback did not raise). */
  function StartStep(w: Workflow, c: Canary, cb: Callbacks, exec: ExecOutcome, now: int): (r: (Workflow, Canary))
    requires |c.stages| > 0 && !(cb.onExecute && exec.ExecRaised?)
    ensures r.1.stages == c.stages[0 := Stage(c.stages[0].percentage, StageInProgress)]
    ensures r.0.status == CanaryMonitoring && r.1.stages[0].status == StageInProgress
    ensures r.1.currentPercentage == c.currentPercentage
  {
    var w1 := if cb.onExecute then w.(executionResult := Some(exec.result)) else w;
    (w1.(status := CanaryMonitoring, updatedAt := now),
     c.(stages := c.stages[0 := Stage(c.stages[0].percentage, StageInProgress)]))
  }

  /** The scan finds stage k when the stages before it are completed and it is not. */
  lemma FirstOpenAt(stages: seq<Stage>, k: nat)
    requires k < |stages| && stages[k].status != StageCompleted
    requires forall j :: 0 <= j < k ==> stages[j].status == StageCompleted
    ensures FirstOpen(stages) == k
  {
  }

  /**
   * A passing (or absent) health check completes the first open stage k and
   * moves the canary to its percentage: at 100 the workflow completes,
   * otherwise the next stage starts and the workflow is monitoring.
   */
  lemma PassingAdvance(w: Workflow, c: Canary, cb: Callbacks, check: CheckOutcome, rb: RollbackOutcome,
                       now: int, k: nat)
    requires k < |c.stages| && c.stages[k].status != StageCompleted
    requires forall j :: 0 <= j < k ==> c.stages[j].status == StageCompleted
    requires !cb.onHealthCheck || (check.Checked? && !check.report.shouldRollback)
    ensures var r := AdvanceStep(w, c, cb, check, rb, now);
      var pct := c.stages[k].percentage;
      r.Ok? && r.value.1.currentPercentage == pct && r.value.1.healthChecksFailed == c.healthChecksFailed
      && (pct >= 100 ==>
            r.value.0.status == Completed && r.value.1.status == Promoted
            && r.value.1.stages == c.stages[k := Stage(pct, StageCompleted)])
      && (pct < 100 && k + 1 < |c.stages| ==>
            r.value.0.status == CanaryMonitoring && r.value.1.canaryPercentage == c.stages[k + 1].percentage
            && r.value.1.stages == c.stages[k := Stage(pct, StageCompleted)]
                                           [k + 1 := Stage(c.stages[k + 1].percentage, StageInProgress)])
  {
    FirstOpenAt(c.stages, k);
  }

  /** The default stages after k passing advances following start_canary. */
  function DefaultStagesAfter(k: nat): (r: seq<Stage>)
    ensures |r| == 4
  {
    seq(4, i requires 0 <= i < 4 =>
      Stage(DefaultCanaryStages[i], if i < k then StageCompleted else if i == k then StageInProgress else StagePending))
  }

  /**
   * With the default stages [10, 25, 50, 100] and a passing health check,
   * each advance completes the stage in progress: the canary moves to 10,
   * 25 and 50 while monitoring, and the fourth advance reaches 100 and
   * completes the workflow.
   */
  lemma DefaultAdvance(w: Workflow, c: Canary, cb: Callbacks, rb: RollbackOutcome, now: int, k: nat)
    requires k < 4 && c.stages == DefaultStagesAfter(k)
    ensures var r := AdvanceStep(w, c, cb, Checked(HealthResult(false, None)), rb, now);
      r.Ok? && r.value.1.currentPercentage == DefaultCanaryStages[k] && r.value.0.canary == w.canary
      && (k < 3 ==> r.value.0.status == CanaryMonitoring && r.value.1.stages == DefaultStagesAfter(k + 1))
      && (k == 3 ==> r.value.0.status == Completed && r.value.1.status == Promoted)
  {
    var pass := Checked(HealthResult(false, None));
    PassingAdvance(w, c, cb, pass, rb, now, k);
    if k < 3 {
      var pct := c.stages[k].percentage;
      var next := c.stages[k := Stage(pct, StageCompleted)][k + 1 := Stage(c.stages[k + 1].percentage, StageInProgress)];
      assert next == DefaultStagesAfter(k + 1);
    }
  }

  /** The registry's ids are positions and every link points into its registry. */
  predicate WellLinked(w: Workflow, i: nat, approvalCount: nat, canaryCount: nat)
  {
    w.id == i
    && (w.approval.Some? ==> w.approval.value < approvalCount)
    && (w.canary.Some? ==> w.canary.value < canaryCount)
  }

  /** Advancing keeps the workflow's id and links and the canary's id and number of stages. */
  lemma AdvanceStepKeepsLinks(w: Workflow, c: Canary, cb: Callbacks, check: CheckOutcome, rb: RollbackOutcome, now: int)
    requires AdvanceStep(w, c, cb, check, rb, now).Ok?
    ensures var p := AdvanceStep(w, c, cb, check, rb, now).value;
      p.0.id == w.id && p.0.approval == w.approval && p.0.canary == w.canary
      && p.1.id == c.id && |p.1.stages| == |c.stages|
  {
  }

  /** The stage scan of advance_canary: the first stage not yet COMPLETED, or -1. */
  method ScanStages(stages: seq<Stage>) returns (idx: int)
    ensures idx == FirstOpen(stages)
  {
    idx := -1;
    var i := 0;
    while i < |stages|
      invariant 0 <= i <= |stages|
      invariant forall j :: 0 <= j < i ==> stages[j].status == StageCompleted
      decreases |stages| - i
    {
      if stages[i].status != StageCompleted {
        idx := i;
        break;
      }
      i := i + 1;
    }
    assert idx == FirstOpen(stages);
  }

  /** advance_canary on one workflow and its canary, updated in turn as the source does. */
  method AdvanceCanaryState(w0: Workflow, c0: Canary, cb: Callbacks, check: CheckOutcome, rb: RollbackOutcome,
                            now: int)
    returns (r: Result<(Workflow, Canary)>)
    ensures r == AdvanceStep(w0, c0, cb, check, rb, now)
  {
    var w, c := w0, c0;
    var idx := ScanStages(c.stages);
    if idx == -1 {
      w := w.(status := Completed);
      c := c.(status := Promoted, promotedAt := Some(now));
      return Ok((w, c));
    }
    if cb.onHealthCheck {
      if check.CheckRaised? {
        return Err(check.message);
      }
      if check.report.shouldRollback {
        c := c.(healthChecksFailed := c.healthChecksFailed + 1);
        if c.healthChecksFailed >= 2 {
          w := RollbackWorkflow(w, Some("Canary health check failed"), cb, rb, now);
          return Ok((w, c));
        }
      } else {
        c := c.(healthChecksPassed := c.healthChecksPassed + 1);
      }
    }
    var pct := c.stages[idx].percentage;
    c := c.(stages := c.stages[idx := Stage(pct, StageCompleted)], currentPercentage := pct,
            lastStageAt := Some(now));
    if pct >= 100 {
      w := w.(status := Completed);
      c := c.(status := Promoted, promotedAt := Some(now));
    } else if idx + 1 < |c.stages| {
      var next := c.stages[idx + 1];
      c := c.(stages := c.stages[idx + 1 := Stage(next.percentage, StageInProgress)],
              canaryPercentage := next.percentage);
      w := w.(status := CanaryMonitoring);
    }
    w := w.(updatedAt := now);
    r := Ok((w, c));
  }

  class WorkflowOrchestrator {
    var approvalTimeoutHours: int
    var canaryStages: seq<int>
    var canaryMonitoringMinutes: int
    var changeWindowStart: int
    var changeWindowEnd: int
    var callbacks: Callbacks
    var workflows: seq<Workflow>
    var approvals: seq<Approval>
    var canaries: seq<Canary>

    predicate Valid()
      reads this
    {
      |canaryStages| > 0
      && (forall i :: 0 <= i < |workflows| ==> WellLinked(workflows[i], i, |approvals|, |canaries|))
      && (forall i :: 0 <= i < |approvals| ==> approvals[i].id == i)
      && (forall i :: 0 <= i < |canaries| ==> canaries[i].id == i && |canaries[i].stages| > 0)
    }

    /** An empty stage list falls back to the default stages; no callback is set. */
    constructor (approvalTimeoutHours: int, canaryStages: seq<int>, canaryMonitoringMinutes: int,
                 changeWindowStart: int, changeWindowEnd: int)
      ensures Valid()
      ensures this.canaryStages == if canaryStages == [] then DefaultCanaryStages else canaryStages
      ensures this.approvalTimeoutHours == approvalTimeoutHours
      ensures this.changeWindowStart == changeWindowStart && this.changeWindowEnd == changeWindowEnd
      ensures callbacks == Callbacks(false, false, false)
      ensures workflows == [] && approvals == [] && canaries == []
    {
      this.approvalTimeoutHours := approvalTimeoutHours;
      this.canaryStages := if canaryStages == [] then DefaultCanaryStages else canaryStages;
      this.canaryMonitoringMinutes := canaryMonitoringMinutes;
      this.changeWindowStart := changeWindowStart;
      this.changeWindowEnd := changeWindowEnd;
      callbacks := Callbacks(false, false, false);
      workflows := [];
      approvals := [];
      canaries := [];
    }

    method SetCallbacks(onExecute: bool, onRollback: bool, onHealthCheck: bool)
      modifies this
      ensures callbacks == Callbacks(onExecute, onRollback, onHealthCheck)
      ensures unchanged(this`workflows) && unchanged(this`approvals) && unchanged(this`canaries)
      ensures unchanged(this`canaryStages)
    {
      callbacks := Callbacks(onExecute, onRollback, onHealthCheck);
    }

    /** _in_change_window: start <= hour < end. */
    predicate InChangeWindow(hour: int)
      reads this
    {
      changeWindowStart <= hour < changeWindowEnd
    }

    method CreateWorkflow(findingId: string, resourceType: string, resourceId: string, decision: DecisionDict,
                          requestedBy: string, scheduledFor: Option<string>, now: int, hour: int,
                          exec: ExecOutcome, check: CheckOutcome, rb: RollbackOutcome)
      returns (w: Workflow)
      requires Valid()
      modifies this
      ensures Valid()
      ensures w.id == |old(workflows)| && workflows == old(workflows) + [w]
      ensures w.workflowType == ActionToWorkflowType(decision.action)
      ensures var base := Workflow(w.id, findingId, resourceType, resourceId, w.workflowType, Pending, decision,
                                   now, now, scheduledFor, None, None, None, None, None);
        match w.workflowType
        case ApprovalFlow =>
          w == base.(status := AwaitingApproval, approval := Some(|old(approvals)|))
          && approvals == old(approvals) + [NewApproval(|old(approvals)|, base, requestedBy, now, approvalTimeoutHours)]
          && canaries == old(canaries)
        case CanaryFlow =>
          w == base.(status := CanaryDeploying, canary := Some(|old(canaries)|))
          && canaries == old(canaries) + [NewCanary(|old(canaries)|, base, canaryStages, now)]
          && approvals == old(approvals)
        case AutoRemediateFlow =>
          approvals == old(approvals) && canaries == old(canaries)
          && (if scheduledFor.Some? && scheduledFor.value != "" && !InChangeWindow(hour) then w == base
              else w == ExecuteRemediation(base, callbacks, exec, check, rb, now))
        case ScheduledFlow => false
      ensures callbacks == old(callbacks) && canaryStages == old(canaryStages)
    {
      var workflowType := ActionToWorkflowType(decision.action);
      w := Workflow(|workflows|, findingId, resourceType, resourceId, workflowType, Pending, decision,
                    now, now, scheduledFor, None, None, None, None, None);
      match workflowType {
        case ApprovalFlow =>
          w := OpenApproval(w, requestedBy, now);
        case CanaryFlow =>
          w := OpenCanary(w, now);
        case AutoRemediateFlow =>
          if !(scheduledFor.Some? && scheduledFor.value != "" && !InChangeWindow(hour)) {
            w := ExecuteRemediation(w, callbacks, exec, check, rb, now);
          }
        case ScheduledFlow =>
          assert false;
      }
      Register(w);
    }

    /** The pending approval of a new workflow, filed under the next approval id. */
    method OpenApproval(base: Workflow, requestedBy: string, now: int) returns (w: Workflow)
      requires Valid() && WellLinked(base, |workflows|, |approvals|, |canaries|)
      modifies this
      ensures Valid() && WellLinked(w, |workflows|, |approvals|, |canaries|)
      ensures w == base.(status := AwaitingApproval, approval := Some(|old(approvals)|))
      ensures approvals == old(approvals) + [NewApproval(|old(approvals)|, base, requestedBy, now, approvalTimeoutHours)]
      ensures workflows == old(workflows) && canaries == old(canaries)
      ensures callbacks == old(callbacks) && canaryStages == old(canaryStages)
      ensures approvalTimeoutHours == old(approvalTimeoutHours)
    {
      var approval := NewApproval(|approvals|, base, requestedBy, now, approvalTimeoutHours);
      approvals := approvals + [approval];
      w := base.(status := AwaitingApproval, approval := Some(approval.id));
    }

    /** The canary of a new workflow, over the configured stages, filed under the next canary id. */
    method OpenCanary(base: Workflow, now: int) returns (w: Workflow)
      requires Valid() && WellLinked(base, |workflows|, |approvals|, |canaries|)
      modifies this
      ensures Valid() && WellLinked(w, |workflows|, |approvals|, |canaries|)
      ensures w == base.(status := CanaryDeploying, canary := Some(|old(canaries)|))
      ensures canaries == old(canaries) + [NewCanary(|old(canaries)|, base, canaryStages, now)]
      ensures workflows == old(workflows) && approvals == old(approvals)
      ensures callbacks == old(callbacks) && canaryStages == old(canaryStages)
      ensures approvalTimeoutHours == old(approvalTimeoutHours)
    {
      var canary := NewCanary(|canaries|, base, canaryStages, now);
      canaries := canaries + [canary];
      w := base.(status := CanaryDeploying, canary := Some(canary.id));
    }

    /** Stores a workflow whose links are in range under the next workflow id. */
    method Register(w: Workflow)
      requires Valid() && WellLinked(w, |workflows|, |approvals|, |canaries|)
      modifies this
      ensures Valid()
      ensures workflows == old(workflows) + [w]
      ensures approvals == old(approvals) && canaries == old(canaries)
      ensures callbacks == old(callbacks) && canaryStages == old(canaryStages)
      ensures approvalTimeoutHours == old(approvalTimeoutHours)
      ensures changeWindowStart == old(changeWindowStart) && changeWindowEnd == old(changeWindowEnd)
    {
      workflows := workflows + [w];
    }

    /** approve: only a known workflow awaiting approval; the approval is marked, then the remediation runs. */
    method Approve(id: nat, approvedBy: string, comment: Option<string>, now: int,
                   exec: ExecOutcome, check: CheckOutcome, rb: RollbackOutcome)
      returns (r: Result<Workflow>)
      requires Valid()
      modifies this
      ensures Valid()
      ensures r.Err? <==> id >= |old(workflows)| || old(workflows)[id].status != AwaitingApproval
      ensures r.Err? ==> workflows == old(workflows) && approvals == old(approvals)
      ensures r.Ok? ==>
        var w := old(workflows)[id];
        r.value == ExecuteRemediation(w.(status := Approved, updatedAt := now), callbacks, exec, check, rb, now)
        && workflows == old(workflows)[id := r.value]
        && approvals == (if w.approval.Some? then
                           old(approvals)[w.approval.value := old(approvals)[w.approval.value].(
                             status := ReviewApproved, reviewedBy := Some(approvedBy),
                             reviewedAt := Some(now), reviewComment := comment)]
                         else old(approvals))
      ensures canaries == old(canaries) && callbacks == old(callbacks) && canaryStages == old(canaryStages)
    {
      if id >= |workflows| {
        return Err("Workflow not found");
      }
      var w := workflows[id];
      if w.status != AwaitingApproval {
        return Err("Workflow not awaiting approval");
      }
      if w.approval.Some? {
        var a := approvals[w.approval.value];
        approvals := approvals[w.approval.value := a.(status := ReviewApproved, reviewedBy := Some(approvedBy),
                                                      reviewedAt := Some(now), reviewComment := comment)];
      }
      w := w.(status := Approved, updatedAt := now);
      w := ExecuteRemediation(w, callbacks, exec, check, rb, now);
      workflows := workflows[id := w];
      r := Ok(w);
    }

    /** reject: any known workflow, whatever its status. */
    method Reject(id: nat, rejectedBy: string, reason: Option<string>, now: int) returns (r: Result<Workflow>)
      requires Valid()
      modifies this
      ensures Valid()
      ensures r.Err? <==> id >= |old(workflows)|
      ensures r.Err? ==> workflows == old(workflows) && approvals == old(approvals)
      ensures r.Ok? ==>
        var w := old(workflows)[id];
        r.value == w.(status := Rejected, updatedAt := now)
        && workflows == old(workflows)[id := r.value]
        && approvals == (if w.approval.Some? then
                           old(approvals)[w.approval.value := old(approvals)[w.approval.value].(
                             status := ReviewRejected, reviewedBy := Some(rejectedBy),
                             reviewedAt := Some(now), reviewComment := reason)]
                         else old(approvals))
      ensures canaries == old(canaries) && callbacks == old(callbacks) && canaryStages == old(canaryStages)
    {
      if id >= |workflows| {
        return Err("Workflow not found");
      }
      var w := workflows[id];
      if w.approval.Some? {
        var a := approvals[w.approval.value];
        approvals := approvals[w.approval.value := a.(status := ReviewRejected, reviewedBy := Some(rejectedBy),
                                                      reviewedAt := Some(now), reviewComment := reason)];
      }
      w := w.(status := Rejected, updatedAt := now);
      workflows := workflows[id := w];
      r := Ok(w);
    }

    /** rollback: a known workflow ends ROLLED_BACK with the reason as its error, however often it is called. */
    method Rollback(id: nat, reason: string, now: int, rb: RollbackOutcome) returns (r: Result<Workflow>)
      requires Valid()
      modifies this
      ensures Valid()
      ensures r.Err? <==> id >= |old(workflows)|
      ensures r.Err? ==> workflows == old(workflows)
      ensures r.Ok? ==> (r.value == old(workflows)[id].(status := RolledBack, error := Some(reason), updatedAt := now)
                         && workflows == old(workflows)[id := r.value])
      ensures approvals == old(approvals) && canaries == old(canaries)
      ensures callbacks == old(callbacks) && canaryStages == old(canaryStages)
    {
      if id >= |workflows| {
        return Err("Workflow not found");
      }
      var w := RollbackWorkflow(workflows[id], Some(reason), callbacks, rb, now);
      workflows := workflows[id := w];
      r := Ok(w);
    }

    /** start_canary: an execute failure propagates and changes nothing. */
    method StartCanary(id: nat, exec: ExecOutcome, now: int) returns (r: Result<Workflow>)
      requires Valid()
      modifies this
      ensures Valid()
      ensures r.Err? <==> id >= |old(workflows)| || old(workflows)[id].canary.None?
                          || (callbacks.onExecute && exec.ExecRaised?)
      ensures r.Err? ==> workflows == old(workflows) && canaries == old(canaries)
      ensures r.Ok? ==>
        var cid := old(workflows)[id].canary.value;
        var s := StartStep(old(workflows)[id], old(canaries)[cid], callbacks, exec, now);
        r.value == s.0 && workflows == old(workflows)[id := s.0] && canaries == old(canaries)[cid := s.1]
      ensures approvals == old(approvals) && callbacks == old(callbacks) && canaryStages == old(canaryStages)
    {
      if id >= |workflows| || workflows[id].canary.None? {
        return Err("Canary workflow not found");
      }
      if callbacks.onExecute && exec.ExecRaised? {
        return Err(exec.message);
      }
      var w := workflows[id];
      var cid := w.canary.value;
      var c := canaries[cid];
      if callbacks.onExecute {
        w := w.(executionResult := Some(exec.result));
      }
      c := c.(stages := c.stages[0 := Stage(c.stages[0].percentage, StageInProgress)]);
      w := w.(status := CanaryMonitoring, updatedAt := now);
      workflows := workflows[id := w];
      canaries := canaries[cid := c];
      r := Ok(w);
    }

    /** advance_canary: scan for the first open stage, check health, complete it and open the next. */
    method AdvanceCanary(id: nat, check: CheckOutcome, rb: RollbackOutcome, now: int) returns (r: Result<Workflow>)
      requires Valid()
      modifies this
      ensures Valid()
      ensures id >= |old(workflows)| || old(workflows)[id].canary.None? ==>
        r.Err? && workflows == old(workflows) && canaries == old(canaries)
      ensures id < |old(workflows)| && old(workflows)[id].canary.Some? ==>
        var cid := old(workflows)[id].canary.value;
        match AdvanceStep(old(workflows)[id], old(canaries)[cid], callbacks, check, rb, now)
        case Err(m) => r == Err(m) && workflows == old(workflows) && canaries == old(canaries)
        case Ok(p) => r == Ok(p.0) && workflows == old(workflows)[id := p.0] && canaries == old(canaries)[cid := p.1]
      ensures approvals == old(approvals) && callbacks == old(callbacks) && canaryStages == old(canaryStages)
    {
      if id >= |workflows| || workflows[id].canary.None? {
        return Err("Canary workflow not found");
      }
      var w := workflows[id];
      var cid := w.canary.value;
      var step := AdvanceCanaryState(w, canaries[cid], callbacks, check, rb, now);
      if step.Err? {
        return Err(step.message);
      }
      AdvanceStepKeepsLinks(w, canaries[cid], callbacks, check, rb, now);
      workflows := workflows[id := step.value.0];
      canaries := canaries[cid := step.value.1];
      r := Ok(step.value.0);
    }

    function GetWorkflow(id: nat): (r: Option<Workflow>)
      reads this
      ensures r.Some? <==> id < |workflows|
      ensures r.Some? ==> r.value == workflows[id]
    {
      if id < |workflows| then Some(workflows[id]) else None
    }

    function WorkflowsByStatus(status: WorkflowStatus): (r: seq<Workflow>)
      reads this
      ensures forall w :: w in r <==> w in workflows && w.status == status
    {
      Filter(workflows, (w: Workflow) => w.status == status)
    }

    /** The workflows not in a terminal status. */
    function ActiveWorkflows(): (r: seq<Workflow>)
      reads this
      ensures forall w :: w in r <==> w in workflows && !IsTerminal(w.status)
    {
      Filter(workflows, (w: Workflow) => !IsTerminal(w.status))
    }

    /** The approval requests still PENDING. */
    function PendingApprovals(): (r: seq<Approval>)
      reads this
      ensures forall a :: a in r <==> a in approvals && a.status == ReviewPending
    {
      Filter(approvals, (a: Approval) => a.status == ReviewPending)
    }
  }

  /**
   * Rejecting is allowed in any status and is final for approval: after a
   * successful reject, approve on the same id fails and changes nothing.
   */
  method RejectThenApprove(o: WorkflowOrchestrator, id: nat, approver: string, now: int,
                           exec: ExecOutcome, check: CheckOutcome, rb: RollbackOutcome)
    returns (rejected: Result<Workflow>, approved: Result<Workflow>)
    requires o.Valid()
    modifies o
    ensures rejected.Ok? <==> id < |old(o.workflows)|
    ensures |o.workflows| == |old(o.workflows)|
    ensures rejected.Ok? ==> approved.Err? && o.workflows[id].status == Rejected
  {
    rejected := o.Reject(id, approver, None, now);
    ghost var afterReject := o.workflows;
    approved := o.Approve(id, approver, None, now, exec, check, rb);
    assert rejected.Ok? ==> afterReject[id].status == Rejected && o.workflows == afterReject;
  }

  /** A default orchestrator with one CANARY workflow whose canary has just started. */
  method StartDefaultCanary(now: int) returns (o: WorkflowOrchestrator, r: Result<Workflow>)
    ensures fresh(o) && o.Valid() && |o.workflows| == 1 && o.workflows[0].canary == Some(0) && |o.canaries| == 1
    ensures o.callbacks == Callbacks(false, false, true)
    ensures o.canaries[0].stages == DefaultStagesAfter(0)
  {
    o := new WorkflowOrchestrator(DefaultApprovalTimeoutHours, [], 5, DefaultChangeWindowStart, DefaultChangeWindowEnd);
    o.SetCallbacks(false, false, true);
    var decision := DecisionDict(Some("CANARY"), Some(0.82), Some(0.78), None, None);
    var pass := Checked(HealthResult(false, None));
    var w := o.CreateWorkflow("finding-456", "IAMRole", "staging-role", decision, "system", None, now, 12,
                              Executed(""), pass, RolledBackOk);
    assert w.canary == Some(0) && |o.canaries| == 1;
    r := o.StartCanary(0, Executed(""), now);
    assert o.canaries[0].stages == DefaultStagesAfter(0);
  }

  /**
   * The default configuration run end to end: a CANARY decision creates a
   * canary workflow; start_canary and three passing advances leave it at
   * 50% and monitoring, and a fourth reaches 100% and completes it.
   */
  method DefaultCanaryRun(now: int) returns (percentAfterThree: int, statusAfterThree: WorkflowStatus,
                                             percentAfterFour: int, statusAfterFour: WorkflowStatus)
    ensures percentAfterThree == 50 && statusAfterThree == CanaryMonitoring
    ensures percentAfterFour == 100 && statusAfterFour == Completed
  {
    var o, r := StartDefaultCanary(now);
    var pass := Checked(HealthResult(false, None));
    var k := 0;
    while k < 3
      invariant 0 <= k <= 3
      invariant o.Valid() && |o.workflows| == 1 && o.workflows[0].canary == Some(0) && |o.canaries| == 1
      invariant o.callbacks == Callbacks(false, false, true)
      invariant o.canaries[0].stages == DefaultStagesAfter(k)
      invariant k > 0 ==> r.Ok? && r.value.status == CanaryMonitoring
                          && o.canaries[0].currentPercentage == DefaultCanaryStages[k - 1]
    {
      DefaultAdvance(o.workflows[0], o.canaries[0], o.callbacks, RolledBackOk, now, k);
      r := o.AdvanceCanary(0, pass, RolledBackOk, now);
      k := k + 1;
    }
    percentAfterThree := o.canaries[0].currentPercentage;
    statusAfterThree := r.value.status;
    DefaultAdvance(o.workflows[0], o.canaries[0], o.callbacks, RolledBackOk, now, 3);
    r := o.AdvanceCanary(0, pass, RolledBackOk, now);
    percentAfterFour := o.canaries[0].currentPercentage;
    statusAfterFour := r.value.status;
  }
}
