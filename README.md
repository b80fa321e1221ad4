# SafeRemediate backend — a verified Dafny model

SafeRemediate is a cloud-security backend. It finds over-permissive IAM roles and exposed security groups. It decides how confidently a fix can be applied and applies the fix through a workflow. It snapshots the resource first, so the fix can be rolled back. This project models the backend's decision and remediation core in Dafny and proves what each part promises.

Modules, one file each:

- `Common` (common.dfy): optional values, the `Reply` of an HTTP endpoint (an answer or a status code with a detail), clamp01 and safe_div, and the Python string operations the engines use (`in`, `endswith`, `split(sep)[-1]`, `join`).
- `SortedSets` (sorted_sets.dfy): Python's `sorted(set(xs))` on strings.
- `DecisionEngine` (decision_engine.dfy): the confidence/safety engine. Five per-signal scores in [0, 1] are combined into a confidence. An ordered chain of caps, boosts and penalties turns it into a safety. Fixed thresholds map the safety to AUTO_REMEDIATE, CANARY, REQUIRE_APPROVAL or BLOCK.
- `InlineEngine` (inline_engine.dfy): the trimmed copy of the engine in backend-engines/main.py and backend-simulate-endpoint.py, plus the simulate endpoint's legacy confidence.
- `Orchestrator` (orchestrator.dfy): the workflow registry. It covers approvals, staged canary rollouts, the execute → health-check → complete/rollback sub-flow, and the queries.
- `HealthChecker` (health_checker.dfy): which checks a resource gets, result collection, and the report that may ask for rollback.
- `HistoricalTracker` (historical_tracker.dfy): the in-memory outcome tracker and its metrics.
- `MainApi` (main_api.dfy): the simulate and execute endpoints of backend-engines/main.py.
- `LeastPrivilege` (least_privilege.dfy): risk assessment, usage classification, the LP score, recommendations and the component scores.
- `UsageCollector` (usage_collector.dfy): the CloudTrail and Access Advisor usage summary and the usage pattern.
- `IamRemediation` (iam_remediation.dfy): the issue → simulation → execution → rollback pipeline of iam-remediation-engine.py.
- `SecurityGroups` (security_groups.dfy): rule analysis, the exposure score and the scan summary.
- `PolicyRewrite` (policy_rewrite.dfy): removing unused actions from an IAM policy document, the IAM calls that result, and the role-name extraction. Both remediation backends share these.
- `LocalBackend` (local_backend.dfy) and `CompleteBackend` (complete_backend.dfy): the two remediation backends, run-local-backend.py and complete-backend-main.py.
- `FindingLifecycle` (finding_lifecycle.dfy): the finding-status lifecycle of backend-remediation-engine.py.
- `DiskCaching` (disk_cache.dfy): the TTL file cache of docs/backend-disk-cache.py. The disk is modelled as a map.

Each piece of in-memory state the source mutates is a class field: a dictionary becomes a `map` or an id-indexed `seq`, and the methods reassign it. Each method's `ensures` states the whole new state and the answer, in terms of specification functions. Lemmas prove the promised properties about those functions. AWS calls, clocks, ids and callbacks are parameters:

- a read is the value it returned;
- a raising write is the position of the write that raises and its message;
- a callback is the outcome it produced.

## Model

| member | source | states |
|---|---|---|
| Common.Clamp01 | backend-engines/remediation_decision_engine.py:62-64 | the result lies in [0, 1]: the input itself inside, 0 below and 1 above |
| Common.MinR | backend-engines/remediation_decision_engine.py:64 | the smaller of two numbers, and one of them |
| Common.MaxR | backend-engines/remediation_decision_engine.py:64 | the larger of two numbers, and one of them |
| Common.SafeDiv | backend-engines/remediation_decision_engine.py:67-69 | the default for a zero divisor, otherwise the quotient |
| Common.FractionInUnit | backend-engines/least_privilege_engine.py:714 | a count over a larger positive total is a fraction in [0, 1] |
| Common.Filter | iam-remediation-engine.py:550 | exactly the elements that satisfy the predicate, never more than the input |
| Common.FilterMultiplicity | iam-remediation-engine.py:550 | a passing element is kept as many times as the list holds it, a failing one never |
| Common.FilterAppend | iam-remediation-engine.py:550 | the comprehension keeps the list's order: filtering a concatenation concatenates the filtered parts |
| Common.CountWhere | backend-engines/least_privilege_engine.py:455-456 | a count of the passing items never exceeds the number of items |
| Common.CountWhereExtremes | backend-engines/least_privilege_engine.py:455-456 | the count is 0 exactly when no item passes, and the length exactly when every item does |
| Common.CountWhereIsFilterLength | backend-engines/least_privilege_engine.py:455-456 | the count equals the length of the list comprehension keeping the passing items |
| Common.IndexOf | complete-backend-main.py:228 | a found position is one where the substring occurs |
| Common.IndexOfLeftmost | complete-backend-main.py:228 | the position found is the leftmost occurrence |
| Common.ContainsIff | complete-backend-main.py:228 | a string contains a substring exactly when it occurs at some position |
| Common.LastPieceStart | complete-backend-main.py:229 | where the last piece of a split begins lies within the string |
| Common.LastPieceHasNoSeparator | complete-backend-main.py:229 | the last piece of a split contains no separator |
| Common.LastPieceFollowsSeparator | complete-backend-main.py:229 | when the separator occurs, the last piece comes right after an occurrence of it |
| Common.SplitLast | complete-backend-main.py:229 | the last piece of a split is a separator-free suffix, the whole string when there is no separator and otherwise preceded by one |
| Common.Join | backend-engines/health_checker.py:481 | joining nothing gives "", one item gives that item, and a join ends with its last item |
| DecisionEngine.EmptyInputDefaults | backend-engines/remediation_decision_engine.py:89-209 | each `from_dict` fills every missing key with its default: simulation CAUTION with reachability 0.8, 90 observation days, one resource and one service, no history, environment tier 0 (production), policy tier 2 with rollback and an open change window |
| DecisionEngine.SimulationScore | backend-engines/remediation_decision_engine.py:345-365 | the simulation score is a number in [0, 1] |
| DecisionEngine.SimulationScoreAtMostBase | backend-engines/remediation_decision_engine.py:355-365 | when no more permissions are safe than were tested, the score never exceeds the base value of the simulation status |
| DecisionEngine.UsageScore | backend-engines/remediation_decision_engine.py:367-388 | the usage score is in [0, 1] whatever `exp` and `log10` return |
| DecisionEngine.UsageScoreByPattern | backend-engines/remediation_decision_engine.py:382-385 | a NONE usage pattern scores exactly 0.95 and LOW exactly 0.85, independent of the counts and of the maths functions |
| DecisionEngine.DataScore | backend-engines/remediation_decision_engine.py:390-409 | the data-quality score is in [0, 1] |
| DecisionEngine.Impact | backend-engines/remediation_decision_engine.py:427-430 | the summed criticality impact lies between 0 and the number of impacted services |
| DecisionEngine.DependencyScore | backend-engines/remediation_decision_engine.py:411-436 | the dependency score is in [0, 1] |
| DecisionEngine.HistoricalScore | backend-engines/remediation_decision_engine.py:438-465 | the historical score is in [0, 1] and exactly 0.70 with no history |
| DecisionEngine.HistoricalBaseRange | backend-engines/remediation_decision_engine.py:446-455 | with some history, the success-rate base lies in [0.50, 0.90] |
| DecisionEngine.HistoricalScoreRange | backend-engines/remediation_decision_engine.py:446-465 | with some history, the adjusted historical score lies in [0.425, 0.945] |
| DecisionEngine.ZeroDenominatorDefaults | backend-engines/remediation_decision_engine.py:360-449 | every ratio with a zero denominator falls back to its default: permission coverage 1.0, telemetry and edge coverage 0.5, success rate 0.5 |
| DecisionEngine.ApplySafetyRules | backend-engines/remediation_decision_engine.py:471-513 | the safety after the rules is in [0, 1] |
| DecisionEngine.PenaltiesNeverRaise | backend-engines/remediation_decision_engine.py:497-511 | the change-window, compliance, worst-path-severity and multi-region penalties never raise a non-negative score |
| DecisionEngine.SafetyAtMostConfidenceOrBoostCap | backend-engines/remediation_decision_engine.py:471-513 | the safety rules raise the confidence only through the boosts, which stop at 0.89 |
| DecisionEngine.ProductionOrSharedCap | backend-engines/remediation_decision_engine.py:483-496 | in production or on a shared resource the safety is at most 0.805, below the auto-remediation threshold |
| DecisionEngine.DecideAction | backend-engines/remediation_decision_engine.py:519-528 | AUTO_REMEDIATE exactly when safety reaches 0.90 and the policy allows auto-remediation; BLOCK exactly below 0.60; at least approval exactly from 0.60; at least canary from 0.75 |
| DecisionEngine.DecideActionMonotone | backend-engines/remediation_decision_engine.py:519-528 | a higher safety never yields a more restrictive action |
| DecisionEngine.Explain | backend-engines/remediation_decision_engine.py:553-608 | between 5 and 8 reasons: the simulation, usage, dependency and history lines in that order, then exactly the policy lines, then the final safety line |
| DecisionEngine.ExplainMentions | backend-engines/remediation_decision_engine.py:590-605 | the shared-resource, change-window and rollback lines appear exactly when their condition holds, and the no-history line exactly without history |
| DecisionEngine.SimulationLine | backend-engines/remediation_decision_engine.py:567-573 | SAFE exactly for status SAFE, CAUTION exactly for status CAUTION, risky for every other status |
| DecisionEngine.UsageLine | backend-engines/remediation_decision_engine.py:575-581 | no usage exactly for pattern NONE; inactive exactly for another pattern last used over 90 days ago; otherwise observed usage |
| DecisionEngine.DependencyLine | backend-engines/remediation_decision_engine.py:583-588 | no critical paths exactly without impacted services, otherwise the count of impacted services |
| DecisionEngine.HistoryLine | backend-engines/remediation_decision_engine.py:590-595 | the success-rate line exactly with history, the no-history line exactly without |
| DecisionEngine.SimulationWarnings | backend-engines/remediation_decision_engine.py:621-622 | one warning per simulation warning, in order |
| DecisionEngine.OwnWarnings | backend-engines/remediation_decision_engine.py:624-645 | at most seven warnings, and a warning is present exactly when its condition holds |
| DecisionEngine.GenerateWarnings | backend-engines/remediation_decision_engine.py:610-647 | the simulation's warnings come first, in order, followed by exactly the engine's own warnings whose condition holds |
| DecisionEngine.Confidence | backend-engines/remediation_decision_engine.py:310-317 | the weighted confidence is in [0, 1] |
| DecisionEngine.Scores | backend-engines/remediation_decision_engine.py:301-307 | all five component scores are in [0, 1] |
| DecisionEngine.Evaluate | backend-engines/remediation_decision_engine.py:261-339 | a critical path blocks first and circular dependencies next, with no breakdown; otherwise the breakdown is the five component scores, the confidence is their combination and the safety is the safety rules applied to it. The action is the one the thresholds give and auto-remediation needs the policy's permission. For a path severity in its documented range [0, 1], production or shared resources never auto-remediate. The reasons and warnings are the specified explanation and warnings: the explanation ends with the final line and the warnings start with the simulation's |
| DecisionEngine.MissingEnvironmentNeverAutoRemediates | backend-engines/remediation_decision_engine.py:178-185 | a request without an environment is treated as production, so for a path severity in its documented range [0, 1] it never auto-remediates |
| DecisionEngine.PolicyLines | backend-engines/remediation_decision_engine.py:597-603 | the shared-resource, change-window and rollback lines appear exactly when the shared flag is set, the window is closed and a rollback exists, respectively |
| DecisionEngine.EvidenceWarnings | backend-engines/remediation_decision_engine.py:623-631 | a short-observation, single-source or cross-account warning is present exactly when its condition holds, and no other warning is |
| DecisionEngine.ContextWarnings | backend-engines/remediation_decision_engine.py:633-645 | a production, compliance, no-rollback or outside-window warning is present exactly when its condition holds, and no other warning is |
| InlineEngine.InlineSimulationScore | backend-engines/main.py:176-180 | the inline simulation score is in [0, 1] |
| InlineEngine.InlineSimulationScoreBounds | backend-engines/main.py:176-180 | the score lies between half the status base and the status base, and an unknown status has base 0.50 |
| InlineEngine.InlineDependencyScore | backend-engines/main.py:198-203 | the inline dependency score, without the cross-account penalty, is in [0, 1] |
| InlineEngine.InlineHistoricalScore | backend-engines/main.py:205-210 | the inline historical score is in [0, 1], exactly 0.70 with no history and within [0.50, 0.90] whenever successes do not exceed the total |
| InlineEngine.InlineSafetyRules | backend-engines/main.py:212-225 | the inline safety is in [0, 1] |
| InlineEngine.InlinePenaltiesNeverRaise | backend-engines/main.py:222-224 | the change-window and severity penalties never raise a non-negative score |
| InlineEngine.InlineCappedBounds | backend-engines/main.py:213-221 | the caps and the rollback adjustment keep a score in [0, max(score, 0.89)], and at most 0.805 in production or on a shared resource |
| InlineEngine.InlineSafetyBounds | backend-engines/main.py:212-225 | the same consequences as for the full engine: safety at most max(confidence, 0.89), and at most 0.805 under the production or shared cap |
| InlineEngine.InlineExplain | backend-engines/main.py:250-274 | three to five reasons, first the simulation status and last the final safety. The second line is no usage detected exactly for pattern NONE, otherwise the usage count. The shared-resource and rollback lines appear exactly when the policy says so |
| InlineEngine.InlineScores | backend-engines/main.py:150-156 | all five inline component scores are in [0, 1] |
| InlineEngine.InlineEvaluate | backend-engines/main.py:145-174 | only a critical path blocks; otherwise the action is the thresholds' choice, auto-remediation needs the policy's permission, the reasons end with the final safety and the warnings are exactly the simulation's |
| InlineEngine.CircularDependenciesDoNotBlock | backend-engines/main.py:147-148 | circular dependencies, which block the full engine, do not block the inline engine: it goes on to score the request |
| InlineEngine.LegacyConfidence | backend-engines/main.py:366 | `int(confidence * 100)` truncates to a whole percentage between 0 and 100 |
| InlineEngine.SimulatePoliciesAllowAuto | backend-engines/main.py:351-352 | the policies both simulate endpoints pass allow auto-remediation |
| InlineEngine.SimulateEndpointSimulationScore | backend-engines/main.py:311-317 | the fixed simulation of the simulate endpoint (SAFE, reachability 0.94) scores 0.95 × 0.97 |
| InlineEngine.SimulateEndpointDecision | backend-simulate-endpoint.py:365-402 | with either simulate endpoint's policy and no critical path, the decision allows auto-remediation, auto-remediates exactly from safety 0.90 and reports a legacy confidence in 0..100 |
| Orchestrator.ActionToWorkflowType | backend-engines/workflow_orchestrator.py:266-278 | AUTO_REMEDIATE maps to the auto flow and CANARY to the canary flow, exactly; every other action, including a missing one, needs approval |
| Orchestrator.RollbackWorkflow | backend-engines/workflow_orchestrator.py:530-548 | the workflow ends ROLLED_BACK with the given reason, possibly None, as its error, even when the rollback callback failed |
| Orchestrator.ExecuteRemediation | backend-engines/workflow_orchestrator.py:490-528 | execution ends COMPLETED, ROLLED_BACK or FAILED: FAILED exactly when a callback raised, with that message; ROLLED_BACK exactly when the health check asks for it, with its reason: "Health check failed" when the key is missing, None when it holds null |
| Orchestrator.NewApproval | backend-engines/workflow_orchestrator.py:280-304 | a new approval is pending, unreviewed, for the workflow's action (UNKNOWN if none) and expires the timeout in hours after the request |
| Orchestrator.PendingStages | backend-engines/workflow_orchestrator.py:378 | one pending stage per configured percentage, in order |
| Orchestrator.NewCanary | backend-engines/workflow_orchestrator.py:376-396 | a new canary starts deploying at 0% with the first stage's percentage as its target, all stages pending and no health checks counted |
| Orchestrator.FirstOpen | backend-engines/workflow_orchestrator.py:409-416 | the current stage is the first one not completed, or -1 exactly when every stage is completed |
| Orchestrator.AdvanceWhenAllStagesDone | backend-engines/workflow_orchestrator.py:418-423 | with every stage completed, advancing completes the workflow without running a health check |
| Orchestrator.FailedCheckStillCompletesStage | backend-engines/workflow_orchestrator.py:425-441 | a first failed health check is counted but the stage is still completed; the second failure rolls the workflow back with "Canary health check failed" and completes nothing |
| Orchestrator.StartStep | backend-engines/workflow_orchestrator.py:464-488 | starting a canary marks the first stage in progress and the workflow CANARY_MONITORING, and moves nothing else |
| Orchestrator.FirstOpenAt | backend-engines/workflow_orchestrator.py:409-416 | the stage search stops at the first stage that is not completed |
| Orchestrator.PassingAdvance | backend-engines/workflow_orchestrator.py:425-462 | a passing (or absent) health check completes the current stage and sets its percentage; at 100% the canary is promoted and the workflow completed, otherwise the next stage starts |
| Orchestrator.DefaultStagesAfter | backend-engines/workflow_orchestrator.py:172 | the default 10/25/50/100 stages after k advances: four stages, the first k completed |
| Orchestrator.DefaultAdvance | backend-engines/workflow_orchestrator.py:439-462 | with the default stages, each passing advance moves to the next percentage and the fourth completes the workflow and promotes the canary |
| Orchestrator.WorkflowOrchestrator.constructor | backend-engines/workflow_orchestrator.py:164-184 | an empty stage list falls back to 10/25/50/100; no callbacks, workflows, approvals or canaries |
| Orchestrator.WorkflowOrchestrator.SetCallbacks | backend-engines/workflow_orchestrator.py:186-199 | only the callbacks change |
| Orchestrator.WorkflowOrchestrator.CreateWorkflow | backend-engines/workflow_orchestrator.py:201-264 | the new workflow is appended with the type its action gives; approval flows get a pending approval, canary flows a new canary, and auto flows run at once unless scheduled outside the change window |
| Orchestrator.WorkflowOrchestrator.Approve | backend-engines/workflow_orchestrator.py:306-343 | fails, changing nothing, unless the workflow exists and awaits approval; otherwise the approval is marked approved and the remediation is run on the approved workflow |
| Orchestrator.WorkflowOrchestrator.Reject | backend-engines/workflow_orchestrator.py:345-366 | fails only for an unknown workflow; otherwise the workflow becomes REJECTED and its approval, if any, is marked rejected by the approver |
| Orchestrator.WorkflowOrchestrator.Rollback | backend-engines/workflow_orchestrator.py:550-560 | fails only for an unknown workflow; otherwise the workflow is ROLLED_BACK with the reason and nothing else changes |
| Orchestrator.WorkflowOrchestrator.StartCanary | backend-engines/workflow_orchestrator.py:464-488 | fails for an unknown or non-canary workflow or a raising execute callback; otherwise the workflow and its canary take the start step |
| Orchestrator.WorkflowOrchestrator.AdvanceCanary | backend-engines/workflow_orchestrator.py:398-462 | fails for an unknown or non-canary workflow or a raising health check, changing nothing; otherwise the workflow and canary take the advance step |
| Orchestrator.WorkflowOrchestrator.GetWorkflow | backend-engines/workflow_orchestrator.py:572-574 | a workflow is found exactly when its id is known |
| Orchestrator.WorkflowOrchestrator.WorkflowsByStatus | backend-engines/workflow_orchestrator.py:576-578 | exactly the workflows in the given status |
| Orchestrator.WorkflowOrchestrator.ActiveWorkflows | backend-engines/workflow_orchestrator.py:580-590 | exactly the workflows not in a terminal status |
| Orchestrator.WorkflowOrchestrator.PendingApprovals | backend-engines/workflow_orchestrator.py:368-374 | exactly the approvals still pending |
| Orchestrator.RejectThenApprove | backend-engines/workflow_orchestrator.py:306-366 | after a successful reject, approving the same workflow fails and it stays REJECTED |
| Orchestrator.DefaultCanaryRun | backend-engines/workflow_orchestrator.py:721-752 | in the default configuration, starting a canary and advancing three times leaves it monitoring at 50%; a fourth advance reaches 100% and completes it |
| Orchestrator.ScanStages | backend-engines/workflow_orchestrator.py:411-416 | the loop stops at the first stage that is pending or in progress, or reports -1 when every stage is completed |
| Orchestrator.AdvanceCanaryState | backend-engines/workflow_orchestrator.py:398-462 | the step-by-step update of the workflow and its canary gives exactly the specified advance |
| Orchestrator.WorkflowOrchestrator.OpenApproval | backend-engines/workflow_orchestrator.py:246-248 | the workflow awaits approval under the next approval id, and a pending approval for it is appended; workflows and canaries are unchanged |
| Orchestrator.WorkflowOrchestrator.OpenCanary | backend-engines/workflow_orchestrator.py:250-252 | the workflow is CANARY_DEPLOYING under the next canary id, and a new canary over the configured stages is appended; workflows and approvals are unchanged |
| Orchestrator.WorkflowOrchestrator.Register | backend-engines/workflow_orchestrator.py:261 | the workflow is appended under the next id; approvals, canaries and settings are unchanged |
| Orchestrator.StartDefaultCanary | backend-engines/workflow_orchestrator.py:721-736 | a default orchestrator given a CANARY decision holds one canary workflow whose canary starts with the default stages, none completed |
| HealthChecker.ChecksFor | backend-engines/health_checker.py:179-200 | IAM roles get five checks, IAM policies and users four, any other resource type only the two generic ones, which always come last |
| HealthChecker.ResultOf | backend-engines/health_checker.py:146-174 | a check keeps its name, and is UNKNOWN exactly when it timed out, raised or itself reported UNKNOWN |
| HealthChecker.Count | backend-engines/health_checker.py:461-464 | a status count is at most the number of checks and positive exactly when some check has that status |
| HealthChecker.CountsPartition | backend-engines/health_checker.py:461-464 | the four status counts add up to the number of checks |
| HealthChecker.FailedNames | backend-engines/health_checker.py:479 | the failed-check names are exactly the names of the UNHEALTHY checks, one per failure |
| HealthChecker.RollbackReasonText | backend-engines/health_checker.py:480 | the reason starts with "Health checks failed: " and, for one failure, names it |
| HealthChecker.BuildReport | backend-engines/health_checker.py:459-494 | the counts are the status counts; the overall status is UNHEALTHY iff any check failed, else DEGRADED iff any degraded, else UNKNOWN iff every check is unknown, else HEALTHY; rollback is asked for exactly when failures reach the threshold, with the failed names as reason |
| HealthChecker.OnlyFailuresTriggerRollback | backend-engines/health_checker.py:476-480 | with a positive threshold, only an UNHEALTHY check can trigger a rollback |
| HealthChecker.DefaultThreshold | backend-engines/health_checker.py:100-119 | with the default threshold of 2, a rollback is asked for exactly when two or more checks fail; a single failure never rolls back |
| HealthChecker.NoChecksIsUnknown | backend-engines/health_checker.py:468-471 | an empty check list is UNKNOWN and never rolls back |
| HealthChecker.CheckResults | backend-engines/health_checker.py:144-174 | one result per applicable check, in the order of the check list |
| HealthChecker.RunHealthChecks | backend-engines/health_checker.py:121-177 | each applicable check runs in order and yields its result, and the report is built from exactly those results |
| HealthChecker.ProbeChecks | backend-engines/health_checker.py:147-174 | the check loop appends exactly one result per check, in order: the returned status, or UNKNOWN on a timeout or an exception |
| HealthChecker.FallbackReport | backend-engines/health_checker.py:526-538 | a crashed health run reports UNKNOWN with no checks, no counts, no rollback and the error message |
| HealthChecker.PostCheckReport | backend-engines/health_checker.py:499-538 | a crash never asks for a rollback; otherwise a rollback is asked for exactly when at least two checks fail |
| HealthChecker.PostRemediationHealthCheck | backend-engines/health_checker.py:499-538 | a crash yields the fallback report, otherwise the report of the checks run with the default threshold |
| HistoricalTracker.CountOutcome | backend-engines/historical_tracker.py:380-382 | an outcome count never exceeds the number of records |
| HistoricalTracker.OutcomeCountsBounded | backend-engines/historical_tracker.py:380-382 | successes, failures and rollbacks together never exceed the total, since each record has one outcome |
| HistoricalTracker.InWindow | backend-engines/historical_tracker.py:373-378 | a record is kept exactly when it matches the resource type (when one is given and non-empty) and started after the cutoff |
| HistoricalTracker.MetricsOf | backend-engines/historical_tracker.py:380-399 | the total is the number of records and the successes, failures and rollbacks are their outcome counts; the rates are in [0, 1], zero with no records, and otherwise the successes and the rollbacks divided by the total; the similar-type rate equals the success rate; no last failure or completion time |
| HistoricalTracker.DefaultMetrics | backend-engines/historical_tracker.py:470-482 | the neutral defaults: all counts and rates zero, nothing else known |
| HistoricalTracker.DefaultMetricsAreEmptyWindow | backend-engines/historical_tracker.py:470-482 | the defaults are exactly the metrics of an empty window |
| HistoricalTracker.HistoricalTracker.constructor | backend-engines/historical_tracker.py:104-120 | a new tracker holds no records and no index |
| HistoricalTracker.HistoricalTracker.RecordStart | backend-engines/historical_tracker.py:174-212 | appends one PENDING record with the given fields and start time, and adds its id to its resource type's index |
| HistoricalTracker.HistoricalTracker.UpdateOutcome | backend-engines/historical_tracker.py:237-253 | a known record gets the outcome, the completion time and the error; an unknown id changes nothing |
| HistoricalTracker.HistoricalTracker.RecordSuccess | backend-engines/historical_tracker.py:214-216 | a known record becomes SUCCESS, completed now, with no error |
| HistoricalTracker.HistoricalTracker.RecordFailure | backend-engines/historical_tracker.py:218-220 | a known record becomes FAILED, completed now, with the error |
| HistoricalTracker.HistoricalTracker.RecordRollback | backend-engines/historical_tracker.py:222-235 | a known record becomes ROLLED_BACK with its rollback time; the completion time and the error are untouched |
| HistoricalTracker.HistoricalTracker.GetMetrics | backend-engines/historical_tracker.py:281-297 | the metrics of the records of the type that started within the lookback period |
| HistoricalTracker.ExampleRound | backend-engines/historical_tracker.py:506-521 | one round of the usage example appends one IAMRole record started now, with the outcome the example gives it |
| HistoricalTracker.TenRemediations | backend-engines/historical_tracker.py:503-524 | the usage example's ten remediations give 10 total, 8 successes, 1 failure, 1 rollback, a success rate of 0.8 and a rollback rate of 0.1 |
| HistoricalTracker.TenMetrics | backend-engines/historical_tracker.py:371-399 | the metrics of those ten records, all IAMRole and in the window, are 10/8/1/1 with rates 0.8 and 0.1 |
| HistoricalTracker.WindowKeepsAll | backend-engines/historical_tracker.py:373-378 | the window keeps every record of the requested type that started after the cutoff |
| HistoricalTracker.Rate | backend-engines/historical_tracker.py:330-331 | a rate is 0 over an empty window and otherwise the part divided by the total, always within [0, 1] |
| MainApi.FindingResourceType | backend-engines/historical_tracker.py:430 | the snake_case key wins when present (even holding null), else the camelCase key, else "Unknown" |
| MainApi.HistoryDictOf | backend-engines/historical_tracker.py:75-86 | the dictionary handed to the engine carries the tracker's total, successes, rollbacks, similar-type rate and last failure |
| MainApi.HistoricalDataForFinding | backend-engines/historical_tracker.py:418-438 | a failing tracker gives the neutral defaults, otherwise the metrics for the finding's resource type over 90 days; successes never exceed the total |
| MainApi.TrackedHistoryScore | backend-engines/main.py:339-345 | whatever the tracker holds, the inline historical score is 0.70 without history and always within [0.50, 0.90] |
| MainApi.Simulate | backend-engines/main.py:303-376 | always succeeds for the finding; uses the collector's usage or the fallback; the decision allows auto-remediation, auto-remediates exactly from safety 0.90, has no warnings, scores the fixed simulation 0.9215 and history within [0.50, 0.90] (0.70 without a tracker); the legacy confidence is 0..100 |
| MainApi.ResourceIdOr | backend-engines/main.py:394 | `resource_id or finding_id`: the resource id unless it is missing or empty |
| MainApi.Execute | backend-engines/main.py:379-438 | without a health checker the execution succeeds; a raising health call is a 500 with its message; a report asking for rollback fails the execution; otherwise it succeeds with the report; the one record opened is closed SUCCESS exactly on success and FAILED with the reason otherwise |
| MainApi.CloseRecord | backend-engines/main.py:411-436 | an executed fix closes its record as SUCCESS with no error; a failed health check or a raised error closes it as FAILED with the rollback reason or the message; no other record changes |
| MainApi.Respond | backend-engines/main.py:402-431 | without a health checker the fix is executed with no report; a raising health call is a 500 with its message; a report asking for rollback is a failed health check; any other report, including a crashed checker's, lets the fix execute |
| LeastPrivilege.SplitOn | backend-engines/least_privilege_engine.py:306 | `str.split` on one character gives at least one piece and no piece contains the separator |
| LeastPrivilege.SplitTrailing | backend-engines/least_privilege_engine.py:306 | splitting a piece followed by the separator gives the piece and an empty string |
| LeastPrivilege.SplitSurrounded | backend-engines/least_privilege_engine.py:306 | splitting a piece surrounded by separators gives empty, the piece, empty |
| LeastPrivilege.StarPieceStar | backend-engines/least_privilege_engine.py:302-312 | a pattern `*x*` matches exactly the permissions containing x |
| LeastPrivilege.StarColonStarMatchesEveryServiceAction | backend-engines/least_privilege_engine.py:83 | the pattern `*:*` matches exactly the permissions containing a colon, i.e. every service action |
| LeastPrivilege.RiskReasons | backend-engines/least_privilege_engine.py:279-287 | the wildcard reason appears exactly when the resource is `*` |
| LeastPrivilege.RiskReasonsExactly | backend-engines/least_privilege_engine.py:279-287 | one reason for each high-risk pattern the permission matches and no other |
| LeastPrivilege.MatchedPatterns | backend-engines/least_privilege_engine.py:281-283 | at most one reason per pattern, and every reason is a pattern reason |
| LeastPrivilege.MatchedPatternsExactly | backend-engines/least_privilege_engine.py:281-283 | a reason for exactly the listed patterns the permission matches |
| LeastPrivilege.AssessRisk | backend-engines/least_privilege_engine.py:271-299 | the pattern loop collects exactly the risk reasons, and the level is read off them |
| LeastPrivilege.ContainsItself | backend-engines/least_privilege_engine.py:304-309 | every string contains itself, so a pattern without `*` matches itself |
| LeastPrivilege.ServiceActionsAreCritical | backend-engines/least_privilege_engine.py:290-291 | any permission containing a colon or "Admin" is rated CRITICAL, whatever its resource |
| LeastPrivilege.ClassifyByUsage | backend-engines/least_privilege_engine.py:315-364 | never used with no count: INACTIVE_SAFE exactly from 90 observation days; used within 7 days: ACTIVE_REQUIRED; INACTIVE_SAFE exactly for those cases and for old non-critical use; ACTIVE_ANOMALOUS exactly for 8-30 days with fewer than 5 uses; an unparseable date is INACTIVE_NEEDED |
| LeastPrivilege.CriticalUsedIsNeverSafe | backend-engines/least_privilege_engine.py:355-358 | a CRITICAL permission that was ever used is never classified safe to remove |
| LeastPrivilege.QualityFactor | backend-engines/least_privilege_engine.py:387-396 | the data-quality factor is one of 0.95, 0.90 and 0.60 |
| LeastPrivilege.ClassificationConfidence | backend-engines/least_privilege_engine.py:367-403 | the classification confidence is in [0, 1], and with 90 days and 3 sources it is 0.7 plus 0.3 times the quality factor |
| LeastPrivilege.ConfidenceMonotoneInDays | backend-engines/least_privilege_engine.py:380-403 | a longer observation period never lowers the classification confidence |
| LeastPrivilege.ClassifyPermission | backend-engines/least_privilege_engine.py:208-269 | the permission is the specified classification: it keeps its action, resource, last use and count (0 by default), and gets the risk, status and confidence the helpers give for its evidence |
| LeastPrivilege.UsedServiceActionsAreNeverSafe | backend-engines/least_privilege_engine.py:290-358 | a service action that was ever used is never safe to remove, since the `*:*` pattern makes it CRITICAL |
| LeastPrivilege.CountStatus | backend-engines/least_privilege_engine.py:455-456 | a status count never exceeds the number of permissions |
| LeastPrivilege.CountStatusExtremes | backend-engines/least_privilege_engine.py:455-456 | a count is zero exactly when no permission has the status, and full exactly when all have it |
| LeastPrivilege.StatusCountsPartition | backend-engines/least_privilege_engine.py:447-456 | the four status counts add up to the number of permissions |
| LeastPrivilege.LpScore | backend-engines/least_privilege_engine.py:481-504 | the LP score is in [0, 100], and 100 for no permissions |
| LeastPrivilege.LpScoreExtremes | backend-engines/least_privilege_engine.py:481-504 | a non-empty list scores 100 exactly when every permission is ACTIVE_REQUIRED; an all-INACTIVE_SAFE list scores 0 |
| LeastPrivilege.AnalyzeIdentity | backend-engines/least_privilege_engine.py:410-478 | the permissions are the specified classifications of the entries, in order, each with the entry's usage or the empty usage; each keeps its action and its resource, `*` by default; the status counts are the counts of the classified list and sum to the total; the LP score and recommendations are those of the list |
| LeastPrivilege.CountAll | backend-engines/least_privilege_engine.py:455-456 | the counting loop yields exactly the four status counts |
| LeastPrivilege.AvgConfidence | backend-engines/least_privilege_engine.py:574-578 | the average is 0 for no permissions and lies in [0, 1] when every confidence does |
| LeastPrivilege.AvgConfidenceIsMean | backend-engines/least_privilege_engine.py:574-578 | the average times the number of permissions is the sum of their confidences |
| LeastPrivilege.DetermineAction | backend-engines/least_privilege_engine.py:581-613 | never BLOCKED; AUTO_APPLY, at least CANARY and at least APPROVAL_REQUIRED exactly when the context-adjusted confidence reaches 0.90, 0.75 and 0.60 |
| LeastPrivilege.ContextOnlyLowersAction | backend-engines/least_privilege_engine.py:588-601 | a system context can only make the action more cautious, and PRODUCTION never auto-applies |
| LeastPrivilege.HighRiskUnusedMembers | backend-engines/least_privilege_engine.py:525-530 | the high-risk candidates are exactly the INACTIVE_SAFE permissions rated CRITICAL or HIGH |
| LeastPrivilege.HighRiskUnusedNonEmpty | backend-engines/least_privilege_engine.py:525-530 | there are high-risk candidates exactly when some INACTIVE_SAFE permission is rated CRITICAL or HIGH |
| LeastPrivilege.Removal | backend-engines/least_privilege_engine.py:532-557 | a removal names the given actions with their average confidence and the action that confidence gives, never BLOCKED |
| LeastPrivilege.HighRiskRecommendation | backend-engines/least_privilege_engine.py:529-541 | the high-risk removal is made exactly when there are high-risk candidates, and names them |
| LeastPrivilege.RemoveAllRecommendation | backend-engines/least_privilege_engine.py:544-556 | the remove-all removal is made exactly with five or more INACTIVE_SAFE permissions, and names them all |
| LeastPrivilege.InvestigateRecommendation | backend-engines/least_privilege_engine.py:559-569 | the investigation is made exactly when some permission is anomalous, with confidence 0.5 and MANUAL_ONLY |
| LeastPrivilege.Recommendations | backend-engines/least_privilege_engine.py:507-571 | at most three recommendations, none BLOCKED, and an investigation always has confidence 0.5 and MANUAL_ONLY |
| LeastPrivilege.RecommendationsMade | backend-engines/least_privilege_engine.py:523-569 | the high-risk removal, the remove-all removal and the investigation each appear exactly when their condition holds |
| LeastPrivilege.RecommendationKinds | backend-engines/least_privilege_engine.py:523-569 | each kind of recommendation is made exactly when its list of permissions is non-empty (five or more for remove-all) |
| LeastPrivilege.AnomalousMembers | backend-engines/least_privilege_engine.py:559-560 | the anomalous list is non-empty exactly when some permission is ACTIVE_ANOMALOUS |
| LeastPrivilege.RemoveAllNamesEveryUnused | backend-engines/least_privilege_engine.py:544-549 | a remove-all recommendation names every INACTIVE_SAFE permission |
| LeastPrivilege.RecommendationConfidencesInUnit | backend-engines/least_privilege_engine.py:507-578 | with every classification confidence in [0, 1], every recommendation's confidence is in [0, 1] |
| LeastPrivilege.CountClearUnused | backend-engines/least_privilege_engine.py:684-687 | the clearly unused count never exceeds the number of permissions |
| LeastPrivilege.ClearUnusedAreSafe | backend-engines/least_privilege_engine.py:684-687 | clearly unused permissions are all INACTIVE_SAFE |
| LeastPrivilege.ScoreUsageEvidence | backend-engines/least_privilege_engine.py:678-695 | 0.5 with no permissions, in [0, 1] otherwise, and 0 when nothing is INACTIVE_SAFE |
| LeastPrivilege.UsageEvidenceIsClearShare | backend-engines/least_privilege_engine.py:684-692 | below 180 days the usage score times the number of permissions is the clearly-unused count |
| LeastPrivilege.ScoreTimeCoverage | backend-engines/least_privilege_engine.py:698-705 | 0.3 with no observation, and strictly between 0.3 and 1 with any |
| LeastPrivilege.CountEnabled | backend-engines/least_privilege_engine.py:713 | the enabled count never exceeds the number of sources |
| LeastPrivilege.ScoreSourceCompleteness | backend-engines/least_privilege_engine.py:708-720 | 0.5 with no sources, 0 when none is enabled, and in [0, 1] when every coverage is |
| LeastPrivilege.ScoreSystemContext | backend-engines/least_privilege_engine.py:723-738 | 0.7 without context, otherwise 0.8, 0.9 or 1.0, with 1.0 exactly when boundaries and dependencies are both known |
| LeastPrivilege.ScoreSimulation | backend-engines/least_privilege_engine.py:741-755 | 0.7 without a result; otherwise 0.95 exactly for SAFE, 0.75 exactly for CAUTION or no status, 0.40 for RISKY and 0 for anything else |
| LeastPrivilege.MatchPatterns | backend-engines/least_privilege_engine.py:281-283 | the loop collects one reason per matching pattern, in the patterns' order |
| LeastPrivilege.ClassifyEntries | backend-engines/least_privilege_engine.py:434-444 | the loop yields the specified classification of every entry, in order |
| LeastPrivilege.ClassifiedAll | backend-engines/least_privilege_engine.py:434-444 | one permission per entry |
| LeastPrivilege.ClassifiedAllAt | backend-engines/least_privilege_engine.py:434-444 | permission i is the classification of entry i with `usage_data.get(action, {})` |
| LeastPrivilege.ClassifiedAllKeys | backend-engines/least_privilege_engine.py:435-443 | permission i keeps entry i's action and its resource, "*" when absent |
| LeastPrivilege.ClassifyEntry | backend-engines/least_privilege_engine.py:435-443 | the permission is the classification of the entry with its usage, empty when the action has none; it keeps the entry's action and its resource, "*" when absent; an action without usage data is never used, with count 0 |
| UsageCollector.ClassifyUsagePattern | backend-engines/cloudtrail_usage_collector.py:329-353 | NONE exactly when there are no events or the last use is outside the window; LOW exactly for fewer than 10 events or a use older than 30 days; HIGH exactly for over 100 events within 7 days; MEDIUM otherwise |
| UsageCollector.PatternMonotone | backend-engines/cloudtrail_usage_collector.py:339-348 | more events and a more recent use never give a lower pattern |
| UsageCollector.DedupById | backend-engines/cloudtrail_usage_collector.py:168 | the dictionary keyed by EventId holds at most as many entries as there were events |
| UsageCollector.DedupKeys | backend-engines/cloudtrail_usage_collector.py:168-169 | the keys, in first-insertion order, are listed once each, and a repeated id keeps the last event with it |
| UsageCollector.DedupIds | backend-engines/cloudtrail_usage_collector.py:168 | the keys are exactly the ids of the events |
| UsageCollector.DedupEntries | backend-engines/cloudtrail_usage_collector.py:168 | every entry is one of the events, stored under its own id |
| UsageCollector.UniqueEvents | backend-engines/cloudtrail_usage_collector.py:168-169 | the deduplicated list holds the events under the dict's keys in insertion order: no two share an id, every input id is kept, and all are taken from the input |
| UsageCollector.FirstSeen | backend-engines/cloudtrail_usage_collector.py:172-173 | the set of names has no more items than the list it is built from |
| UsageCollector.FirstSeenItems | backend-engines/cloudtrail_usage_collector.py:172-177 | the collected set holds each name once and exactly the names seen |
| UsageCollector.FirstSeenSnoc | backend-engines/cloudtrail_usage_collector.py:177 | adding a name adds it once, only if new |
| UsageCollector.Names | backend-engines/cloudtrail_usage_collector.py:177 | one event name per event, "Unknown" when absent |
| UsageCollector.PrincipalsNamed | backend-engines/cloudtrail_usage_collector.py:180-188 | the principals are exactly those that the parsable events name |
| UsageCollector.LatestTimeIsMaximum | backend-engines/cloudtrail_usage_collector.py:190-192 | the last event time is the time of some event and no event is later; it is absent exactly when no event has a time |
| UsageCollector.ServicesPartitioned | backend-engines/cloudtrail_usage_collector.py:243-254 | each Access Advisor service is listed exactly once, as accessed or as not accessed |
| UsageCollector.Later | backend-engines/cloudtrail_usage_collector.py:288-296 | the last activity is the later of the two timestamps, and absent only when both are |
| UsageCollector.BuildUsageMetrics | backend-engines/cloudtrail_usage_collector.py:278-327 | days since use count from the later timestamp, or lookback + 1 with none; the count is the CloudTrail event count, the pattern is the classification of count and recency, and the last user is one of the principals when there are any |
| UsageCollector.NoTimestampMeansNone | backend-engines/cloudtrail_usage_collector.py:298-307 | with no timestamp from either source, days since use is lookback + 1 and the pattern is NONE |
| UsageCollector.DefaultsAreConservative | backend-engines/cloudtrail_usage_collector.py:383-396 | the defaults are MEDIUM with 100 uses, used today, no observation and no source, and MEDIUM is what that count and recency would be classified as |
| UsageCollector.CloudTrailUsageCollector.constructor | backend-engines/cloudtrail_usage_collector.py:71-97 | a new collector has counted no sources |
| UsageCollector.CloudTrailUsageCollector.SummarizeEvents | backend-engines/cloudtrail_usage_collector.py:172-192 | the loop yields the distinct event names and principals in first-seen order and the latest event time |
| UsageCollector.CloudTrailUsageCollector.SummaryStep | backend-engines/cloudtrail_usage_collector.py:176-192 | how one more event extends the names, the principals and the latest time |
| UsageCollector.CloudTrailUsageCollector.GetCloudTrailEvents | backend-engines/cloudtrail_usage_collector.py:118-213 | a failed user-name query returns the unavailable summary and counts no source; otherwise the source is counted once and the summary is that of the deduplicated events of both queries, a failed ARN query adding none; the result is the specified CloudTrail summary |
| UsageCollector.CloudTrailUsageCollector.SummarizeServices | backend-engines/cloudtrail_usage_collector.py:243-254 | the loop splits the services into accessed and not accessed and keeps the latest access |
| UsageCollector.CloudTrailUsageCollector.GetAccessAdvisorData | backend-engines/cloudtrail_usage_collector.py:215-276 | a failed job or query returns the unavailable data and counts no source; otherwise the source is counted and the services are summarised; the result is the specified Access Advisor summary |
| UsageCollector.CloudTrailUsageCollector.GetUsageMetrics | backend-engines/cloudtrail_usage_collector.py:99-116 | the metrics are those built from the two specified summaries and the new source count; the count grows by one per source that answered and is never reset; without CloudTrail there are no uses and no user, and with neither source the pattern is NONE |
| UsageCollector.UsageDataForFinding | backend-engines/cloudtrail_usage_collector.py:355-380 | with no role name, or a failing collector, the conservative defaults; otherwise the metrics built over 90 days from the two specified summaries, with one source counted per answering source |
| UsageCollector.RoleNameOf | backend-engines/cloudtrail_usage_collector.py:368 | the role name if non-empty, otherwise the last '/' segment of the resource id, which holds no '/' |
| IamRemediation.ExtractRoleName | iam-remediation-engine.py:148-153 | without ":role/" the input is returned unchanged; otherwise the result is the text after the last ":role/", which contains no further ":role/" |
| IamRemediation.Difference | iam-remediation-engine.py:550 | the set difference: exactly the items of the first list that are not in the second |
| IamRemediation.Get | iam-remediation-engine.py:239-241 | a dictionary lookup finds an entry with the key exactly when one is stored |
| IamRemediation.PutThenGet | iam-remediation-engine.py:564 | after storing an entry under its key, that key finds it and every other key finds what it found before |
| IamRemediation.LatestIsNewest | iam-remediation-engine.py:243-248 | the latest lookup finds nothing exactly when the issue has no entry; otherwise an entry of the issue that no other entry of it postdates |
| IamRemediation.NewIssue | iam-remediation-engine.py:546-562 | an OPEN issue whose role name is extracted from the ARN, with sorted, duplicate-free observed, allowed and unused lists, the unused ones being exactly the allowed actions not observed |
| IamRemediation.FindingIssue | iam-remediation-engine.py:739-764 | an issue created from a finding is OPEN, linked to the finding, with no actions |
| IamRemediation.ProposedActions | iam-remediation-engine.py:279 | the proposed actions are the sorted observed actions, or logs:CreateLogGroup when none is observed, so every observed action is kept |
| IamRemediation.SimulationConfidence | iam-remediation-engine.py:290 | the confidence never exceeds 99, is 70 + 0.29 × coverage for a coverage up to 100, and is at least 70 |
| IamRemediation.Simulate | iam-remediation-engine.py:261-322 | the simulation belongs to the issue; it removes exactly the allowed actions not observed and keeps the sorted observed actions, both sorted |
| IamRemediation.SimulationIsSafe | iam-remediation-engine.py:286-298 | a simulation is always safe, never removes a kept action, says "already least-privilege" exactly when nothing is removed, and otherwise states the count |
| IamRemediation.DefaultConfidence | iam-remediation-engine.py:261 | at the default coverage of 80 the confidence is 93.2 |
| IamRemediation.SimulationRemovesUnused | iam-remediation-engine.py:307-310 | simulating a newly created issue removes exactly its unused actions and keeps exactly its observed ones |
| IamRemediation.IamRemediationStore.constructor | iam-remediation-engine.py:100-111 | the store starts with no issues, simulations, snapshots or executions |
| IamRemediation.IamRemediationStore.CreateIssue | iam-remediation-engine.py:538-572 | stores the new issue under its id, touches no other table and reports its number of unused actions |
| IamRemediation.IamRemediationStore.CreateFromFinding | iam-remediation-engine.py:739-776 | stores the finding's issue under its id and touches no other table |
| IamRemediation.IamRemediationStore.ListIssues | iam-remediation-engine.py:576-586 | every issue for a missing or empty status; otherwise exactly the issues whose status text equals the requested status in upper case, and none for a status that is no issue status |
| IamRemediation.IamRemediationStore.ListIssuesIgnoresCase | iam-remediation-engine.py:579-580 | a status and its upper-case form list the same issues |
| IamRemediation.UpperIdempotent | iam-remediation-engine.py:580 | upper-casing an upper-cased status changes nothing |
| IamRemediation.IamRemediationStore.GetIssue | iam-remediation-engine.py:589-595 | the stored issue with that id, or 404 exactly when there is none |
| IamRemediation.IamRemediationStore.SimulateFix | iam-remediation-engine.py:598-624 | 404 "Issue not found" for an unknown issue, changing nothing; otherwise the simulation at the default coverage is stored and the issue becomes SIMULATED |
| IamRemediation.IamRemediationStore.ResolveSimulation | iam-remediation-engine.py:640-643 | the simulation with the given id, or the issue's latest when none is given |
| IamRemediation.IamRemediationStore.ExecuteFix | iam-remediation-engine.py:627-667 | 404 for an unknown issue and 400 without a simulation, changing nothing; a snapshot is stored only when asked for and captured; a failed capture or write records a FAILED execution, answers 500 and leaves the issue's status, a failed capture with the text "500: Failed to create snapshot for <role>: <error>" of the raised HTTPException; success records a SUCCESS execution and marks the issue APPLIED |
| IamRemediation.IamRemediationStore.RollbackFix | iam-remediation-engine.py:670-712 | 404 for an unknown issue and 400 without a snapshot, changing nothing; a failed restore records a FAILED rollback and answers 500; success records it and marks the issue ROLLED_BACK |
| IamRemediation.ResolveSnapshotIn | iam-remediation-engine.py:681-698 | the explicit snapshot id wins; otherwise the execution's snapshot, else the issue's latest; whatever is found is a stored snapshot |
| IamRemediation.RollbackDefaultsToNewest | iam-remediation-engine.py:243-248 | with neither id given, the rollback finds a snapshot exactly when the issue has one, and it is the issue's newest |
| IamRemediation.IamRemediationStore.ApplyFix | iam-remediation-engine.py:350-435 | a failed snapshot read or a failed write records a FAILED execution and answers 500 with `str(e)` ("500: Failed to create snapshot for <role>: <error>" for the snapshot, the write's message otherwise), leaving the issue alone; otherwise a SUCCESS execution is recorded and the issue becomes APPLIED; a snapshot is stored only when one was asked for and read |
| SecurityGroups.ServiceOf | BACKEND_FILES/security_groups_scan_v2.py:247-249 | the high-risk table names a service for a port exactly when the port is listed, and the named pair is in the table |
| SecurityGroups.FirstListedIn | BACKEND_FILES/security_groups_scan_v2.py:237-241 | finds nothing exactly when no listed port lies in the range; otherwise a listed port inside the range |
| SecurityGroups.NatText | BACKEND_FILES/security_groups_scan_v2.py:204 | the decimal text of a port number is non-empty and all digits |
| SecurityGroups.ParseNat | BACKEND_FILES/security_groups_scan_v2.py:236 | parsing succeeds exactly on a non-empty string of digits |
| SecurityGroups.ParseNatText | BACKEND_FILES/security_groups_scan_v2.py:204 | parsing the decimal text of a number gives the number back |
| SecurityGroups.Split | BACKEND_FILES/security_groups_scan_v2.py:236 | splitting a string always yields at least one piece |
| SecurityGroups.SplitWithout | BACKEND_FILES/security_groups_scan_v2.py:236 | a string without the separator splits into itself alone |
| SecurityGroups.SplitConcat | BACKEND_FILES/security_groups_scan_v2.py:208 | splitting "x-y" on "-" gives the pieces of x followed by the pieces of y |
| SecurityGroups.ProtocolLabel | BACKEND_FILES/security_groups_scan_v2.py:211-213 | a missing protocol or "-1" is shown as "All", any other protocol as given |
| SecurityGroups.CidrOf | BACKEND_FILES/security_groups_scan_v2.py:215-222 | the first IPv4 range decides, else the first IPv6 range, else the first group pair as "SG: id", else "N/A" |
| SecurityGroups.RuleAnalysisOf | BACKEND_FILES/security_groups_scan_v2.py:196-280 | a rule is high-risk exactly when it has a risk reason; it is exposed exactly when its CIDR is 0.0.0.0/0 or ::/0 |
| SecurityGroups.NatTextFacts | BACKEND_FILES/security_groups_scan_v2.py:203-208 | the text of a single port is never "All" and contains no "-", so it is read back as that port |
| SecurityGroups.SinglePortRisk | BACKEND_FILES/security_groups_scan_v2.py:245-251 | a single non-zero port is risky exactly when it is positive and in the high-risk table |
| SecurityGroups.NonNegativeRangeRisk | BACKEND_FILES/security_groups_scan_v2.py:233-242 | a range of non-negative ports other than 0-65535 is risky exactly when it contains a listed port |
| SecurityGroups.NegativeRangeRisk | BACKEND_FILES/security_groups_scan_v2.py:233-244 | a range with a negative bound (ICMP) is never risky, because its text does not split into two numbers |
| SecurityGroups.HighRiskPortRanges | BACKEND_FILES/security_groups_scan_v2.py:200-251 | the port is "All" exactly for 0-0 and 0-65535, and a rule is high-risk exactly when all ports are open, its single positive port is listed, or its non-negative range contains a listed port |
| SecurityGroups.RuleConfidenceOrder | BACKEND_FILES/security_groups_scan_v2.py:253-265 | confidence is 95 exactly for exposed and risky, 85 for exposed only, 70 for risky only and 90 for neither, and only the last is "appears safe" |
| SecurityGroups.FindListedPort | BACKEND_FILES/security_groups_scan_v2.py:237-241 | the loop finds the first listed port of the range, as the specification function does |
| SecurityGroups.AnalyzeRule | BACKEND_FILES/security_groups_scan_v2.py:196-280 | the imperative analysis equals the rule's specified analysis |
| SecurityGroups.AnalyzeAll | BACKEND_FILES/security_groups_scan_v2.py:299-314 | one analysis per rule |
| SecurityGroups.CountExposed | BACKEND_FILES/security_groups_scan_v2.py:301-302 | the number of exposed rules never exceeds the number of rules |
| SecurityGroups.CriticalRules | BACKEND_FILES/security_groups_scan_v2.py:327 | exactly the rules that are exposed, risky and ingress |
| SecurityGroups.Assemble | BACKEND_FILES/security_groups_scan_v2.py:343-355 | the group's rules are its ingress then egress analyses, with the counts and the high-risk ports taken from the ingress analyses |
| SecurityGroups.GroupAnalysisOf | BACKEND_FILES/security_groups_scan_v2.py:283-355 | the group's rules are its analysed ingress then egress rules, and their number is the total |
| SecurityGroups.ExposureScoreBounds | BACKEND_FILES/security_groups_scan_v2.py:317-331 | the score is the sum of the three capped parts (45, 30, 25), never exceeds 100, and is 0 exactly when all three counts are 0 |
| SecurityGroups.AnalyzedRules | BACKEND_FILES/security_groups_scan_v2.py:299-314 | every analysis carries the direction it was made for and is internally consistent |
| SecurityGroups.EgressNeverCritical | BACKEND_FILES/security_groups_scan_v2.py:327 | egress rules never add to the critical rules |
| SecurityGroups.RiskyPortsAreListed | BACKEND_FILES/security_groups_scan_v2.py:303-308 | every port in the high-risk port set is in the high-risk table |
| SecurityGroups.AssembledSeverity | BACKEND_FILES/security_groups_scan_v2.py:333-341 | CRITICAL exactly when the score is at least 70 or an ingress rule is critical; HIGH exactly when the score is 50 to 69 with no critical rule |
| SecurityGroups.GroupSeverity | BACKEND_FILES/security_groups_scan_v2.py:283-355 | for any group, the score is at most 100, the severity follows the same thresholds, the exposed count is at most the ingress count, and the risky ports are listed |
| SecurityGroups.AnalyzeIngress | BACKEND_FILES/security_groups_scan_v2.py:299-308 | the loop's analyses, exposed count and risky-port set equal the specified ones |
| SecurityGroups.IngressStep | BACKEND_FILES/security_groups_scan_v2.py:301-308 | one more rule adds one to the count exactly when it is exposed, and adds its port exactly when it is a single risky port |
| SecurityGroups.AnalyzeEgress | BACKEND_FILES/security_groups_scan_v2.py:311-314 | the loop's analyses equal the specified egress analyses |
| SecurityGroups.AnalyzeSecurityGroup | BACKEND_FILES/security_groups_scan_v2.py:283-355 | the imperative group analysis equals the specified one |
| SecurityGroups.CountSeverity | BACKEND_FILES/security_groups_scan_v2.py:466-467 | a severity count never exceeds the number of groups |
| SecurityGroups.Summarize | BACKEND_FILES/security_groups_scan_v2.py:466-479 | the summary counts every group, the CRITICAL and HIGH ones, and their sum as the total findings |
| SecurityGroups.FindingsAtMostGroups | BACKEND_FILES/security_groups_scan_v2.py:441-468 | there are never more findings than groups, and no groups give the all-zero summary |
| PolicyRewrite.AllowActions | run-local-backend.py:164-170 | exactly the actions granted by some Allow statement, a single-string Action counting as a one-element list |
| PolicyRewrite.ActionsToRemove | run-local-backend.py:173 | exactly the unused actions that the policy grants |
| PolicyRewrite.RewriteStatement | run-local-backend.py:133-148 | one statement becomes at most one statement |
| PolicyRewrite.RewriteStatements | run-local-backend.py:133-148 | the rewrite never adds statements |
| PolicyRewrite.Rewritten | run-local-backend.py:126-150 | the new document keeps the version, defaulting to 2012-10-17, and has no more statements than the old |
| PolicyRewrite.RemovePermissionsFromPolicy | run-local-backend.py:126-150 | the loop builds the specified rewritten document |
| PolicyRewrite.CollectAllowActions | run-local-backend.py:163-170 | the loop collects exactly the specified Allow actions |
| PolicyRewrite.RewriteKeepsOthers | run-local-backend.py:134-136 | every statement that is not an Allow is kept, verbatim and in order |
| PolicyRewrite.OthersAppend | run-local-backend.py:133-136 | the non-Allow statements of two lists are those of each, in order |
| PolicyRewrite.RewriteRemoves | run-local-backend.py:138-148 | every remaining Allow statement has a non-empty action list without removed actions, and the remaining granted actions are exactly the old ones not removed |
| PolicyRewrite.RewriteStatementStable | run-local-backend.py:138-148 | rewriting a rewritten statement again changes nothing |
| Common.FilterKeepsAll | run-local-backend.py:142 | a filter that keeps every element returns the list unchanged |
| PolicyRewrite.RewriteStatementsAppend | run-local-backend.py:133-148 | the statement rewrite distributes over concatenation |
| PolicyRewrite.RewriteStatementsIdempotent | run-local-backend.py:133-148 | rewriting the statements twice is the same as once |
| PolicyRewrite.RewriteIdempotent | run-local-backend.py:126-150 | removing the same actions from a rewritten document changes nothing more |
| PolicyRewrite.RewriteDependsOnGrantedOnly | complete-backend-main.py:131-143 | two removal lists that agree on the granted actions give the same rewrite |
| PolicyRewrite.FilterCongruent | complete-backend-main.py:138 | filters that agree on every element give the same result |
| PolicyRewrite.RemovingGrantedOnlySuffices | complete-backend-main.py:127-143 | filtering by all unused actions, as one backend does, equals filtering by the granted unused ones, as the other does |
| PolicyRewrite.PolicyEffectSpec | complete-backend-main.py:118-170 | a policy is touched exactly when it grants an unused action; the removed actions are exactly the unused ones it grants; a policy put back grants exactly its old actions minus the unused; a deleted policy held only Allow statements granting only unused actions |
| PolicyRewrite.Outcomes | run-local-backend.py:159-208 | at most one outcome per inline policy |
| PolicyRewrite.OutcomesCover | run-local-backend.py:159-208 | every touched policy has its outcome in the list, and every outcome comes from one of the policies |
| PolicyRewrite.OutcomesPrefix | run-local-backend.py:159-208 | the outcomes of the first policies are a prefix of all the outcomes |
| PolicyRewrite.OutcomesStep | run-local-backend.py:159-208 | one more policy appends its outcome, if it has one |
| PolicyRewrite.CallsBeforeFailure | complete-backend-main.py:145-156 | when an IAM call fails, the calls already made are a prefix of the full run's calls |
| PolicyRewrite.Calls | run-local-backend.py:182-199 | the IAM calls of the outcomes, one per outcome, in order |
| PolicyRewrite.Changes | run-local-backend.py:188-205 | the change records of the outcomes, one per outcome, in order |
| PolicyRewrite.ApplyCallsAppend | run-local-backend.py:228-244 | applying two lists of IAM calls in turn equals applying their concatenation |
| PolicyRewrite.Deletes | run-local-backend.py:230-232 | one delete call per current policy name |
| PolicyRewrite.Puts | run-local-backend.py:238-244 | one put call per snapshot policy |
| PolicyRewrite.NameSet | run-local-backend.py:230 | exactly the names in the list |
| PolicyRewrite.PutsPrefix | complete-backend-main.py:195-203 | the puts of the first snapshot policies are a prefix of all the puts |
| PolicyRewrite.DeletesRemove | run-local-backend.py:228-234 | deleting the listed policies removes exactly those names from the role |
| PolicyRewrite.PutsBuild | run-local-backend.py:238-244 | putting every snapshot policy into an empty role gives the snapshot's policies |
| PolicyRewrite.RollbackRestoresSnapshot | run-local-backend.py:221-253 | when the delete listing covers the role's policies, a rollback leaves the role with exactly the snapshot's inline policies |
| PolicyRewrite.RoleNameFromResource | complete-backend-main.py:227-231 | with "/role/" the result is a suffix of the id without "/role/"; otherwise a suffix without "/" |
| PolicyRewrite.LocalRoleNameFromResource | run-local-backend.py:277-284 | as the other backend when "/role/" is present or "role/" is absent; with only "role/" a suffix without "role/" |
| PolicyRewrite.RoleMarkerImpliesSuffix | run-local-backend.py:279-282 | an id containing "/role/" also contains "role/", so the local backend's first branch is the stricter one |
| PolicyRewrite.RequestRoleName | run-local-backend.py:276-286 | a given role name wins; otherwise the name is taken from the resource id when one is given, and stays missing when neither is |
| PolicyRewrite.StopAtFailure | complete-backend-main.py:119-163 | a write raising at one touched policy stops the run with its error and exactly the writes made up to and including it |
| LocalBackend.RemediatePolicy | run-local-backend.py:159-206 | one inline policy is left alone, put back rewritten or deleted, exactly as the specified policy effect says |
| LocalBackend.RemediatePolicies | run-local-backend.py:158-206 | the loop makes the specified outcomes' IAM calls in order and, when a write raises, stops right after it with that error |
| LocalBackend.LocalRemediationBackend.constructor | run-local-backend.py:62-63 | no snapshots and no executions |
| LocalBackend.LocalRemediationBackend.CreateSnapshot | run-local-backend.py:98-124 | stores the role's inline and attached policies and trust policy under the new id and changes nothing else |
| LocalBackend.LocalRemediationBackend.ApplyRemediation | run-local-backend.py:152-219 | a raising write returns its error after the calls made so far and records nothing; otherwise every specified call is made and a SUCCESS execution with the changes is recorded; snapshots are untouched |
| LocalBackend.LocalRemediationBackend.ExecuteRemediation | run-local-backend.py:265-330 | 400 with no change when no role name can be found; a snapshot is taken only when asked for; no unused actions means no IAM call and no record; a raising write answers 500 with the calls made so far; otherwise the changes are answered and the execution recorded |
| LocalBackend.LocalRemediationBackend.RollbackRemediation | run-local-backend.py:221-253 | an unknown snapshot answers 500 "404: Snapshot … not found" with no call; otherwise the listed policies are deleted and the snapshot's put back, a raising put answering 500 after the calls made so far |
| CompleteBackend.AllowedIn | complete-backend-main.py:239-247 | exactly the actions some read policy grants in an Allow statement |
| CompleteBackend.ReadAllowedActions | complete-backend-main.py:239-247 | the loop collects the specified allowed actions |
| CompleteBackend.SimulatedFinding | complete-backend-main.py:226-268 | the role comes from the resource id; given unused actions, or no role, are kept as sent; otherwise the read policies' actions are added to the allowed ones, and the unused ones become none after a failed read, all allowed when nothing is observed, or else exactly the allowed actions not observed, without duplicates |
| CompleteBackend.SimulateConfidence | complete-backend-main.py:271 | the confidence is positive exactly when there are unused actions, and never above 95 |
| CompleteBackend.FirstWildcard | complete-backend-main.py:329-332 | finds nothing exactly when no action is "*" or ends in ":*"; otherwise a wildcard action of the list |
| CompleteBackend.FirstWildcardOfPrefix | complete-backend-main.py:329-332 | a wildcard found in a prefix is the one found in the whole list |
| CompleteBackend.FirstWildcardIsFirst | complete-backend-main.py:329-332 | the wildcard reported is the first one, with none before it |
| CompleteBackend.FindWildcard | complete-backend-main.py:329-332 | the loop reports the first wildcard, as the specification function does |
| CompleteBackend.UnusedFor | complete-backend-main.py:319-322 | non-empty requested actions win; otherwise the stored finding's unused actions, or none |
| CompleteBackend.Rejection | complete-backend-main.py:324-332 | no rejection exactly when a role is known and the unused actions are non-empty and wildcard-free; otherwise the first failing check's message |
| CompleteBackend.ChangesAppend | complete-backend-main.py:150-163 | one more outcome appends its change record |
| CompleteBackend.PolicyEffectRemovedCount | complete-backend-main.py:127-129 | a touched policy removes at least one and at most all of the unused actions |
| CompleteBackend.TotalRemovedAppend | complete-backend-main.py:165 | one more change adds its removed-action count to the total |
| CompleteBackend.TotalRemovedBounds | complete-backend-main.py:118-165 | the total removed is at least the number of touched policies and at most that number times the number of unused actions |
| CompleteBackend.RemovePolicyPermissions | complete-backend-main.py:119-163 | one inline policy is left alone, put back rewritten or deleted, as the specified policy effect says |
| CompleteBackend.RemovePolicies | complete-backend-main.py:118-165 | the loop makes the specified calls in order, stops after a raising write with its error, and otherwise totals the removed actions |
| CompleteBackend.CompleteBackend.constructor | complete-backend-main.py:50-53 | no snapshots, executions or findings |
| CompleteBackend.CompleteBackend.Simulate | complete-backend-main.py:221-299 | stores the simulated finding under its id, answers with its role, unused and observed actions, allowed count and confidence, and touches nothing else |
| CompleteBackend.CompleteBackend.GetFullSnapshot | complete-backend-main.py:79-106 | stores the role's ARN and inline policies under the new id and changes nothing else |
| CompleteBackend.CompleteBackend.RemovePermissions | complete-backend-main.py:108-177 | 404 "Snapshot … not found" with no call for a missing snapshot; a raising write answers 500 after the calls made so far; otherwise every specified call is made and the execution with its total is recorded |
| CompleteBackend.CompleteBackend.Execute | complete-backend-main.py:301-367 | the first failing check answers 400 with no change; without a rollback snapshot the answer is 404 "Snapshot None not found"; otherwise a snapshot is stored and the policies remediated, a raising write answering 500 |
| CompleteBackend.CompleteBackend.Rollback | complete-backend-main.py:179-207 | an unknown snapshot answers 500 "404: Snapshot … not found"; otherwise the listed policies are deleted and the snapshot's put back, answering the restored names, or 500 after a raising put |
| CompleteBackend.PolicyNames | complete-backend-main.py:196-204 | the names of the restored policies, in the snapshot's order |
| CompleteBackend.AddRemoved | complete-backend-main.py:168 | the running total after one more touched policy is the total removed over the longer list of changes |
| CompleteBackend.DeleteListed | complete-backend-main.py:188-192 | one delete call per listed policy name, in order |
| CompleteBackend.CompleteBackend.SnapshotAndRemove | complete-backend-main.py:335-359 | without a rollback snapshot the answer is 404 "Snapshot None not found" with no call; with one the snapshot is stored, then a raising write answers 500 after the calls made so far and otherwise the execution is stored with its changes and total |
| CompleteBackend.ComputeFinding | complete-backend-main.py:226-268 | the finding built step by step is the specified simulated finding |
| FindingLifecycle.LastSegment | backend-remediation-engine.py:94 | the role name is a suffix of the resource id containing no "/" |
| FindingLifecycle.SnapshotOf | backend-remediation-engine.py:85-164 | a failed read gives an error snapshot; otherwise ":role/" gives a role snapshot named by the last segment, else ":policy/" a policy snapshot, else an unknown-resource one |
| FindingLifecycle.DeleteCalls | backend-remediation-engine.py:243-245 | one delete call per inline policy name, in order |
| FindingLifecycle.PutCalls | backend-remediation-engine.py:181-187 | one put call per snapshot inline policy, in order |
| FindingLifecycle.RestoreOf | backend-remediation-engine.py:167-221 | a raising IAM client fails every snapshot before any write; otherwise an error or unknown snapshot restores nothing and succeeds; a role snapshot puts back its inline policies, stopping after a raising put; a policy snapshot creates one default version; an error carries the raised message |
| FindingLifecycle.RestoreInlinePolicies | backend-remediation-engine.py:181-187 | the loop makes the specified puts and stops after a raising one |
| FindingLifecycle.RemovalOf | backend-remediation-engine.py:232-273 | the removal fails exactly when creating the IAM client raises (with its error, before any write and for every resource), the role's policy listing raises, a write raises, or the id is neither a role nor a policy; a raising listing issues no write; otherwise a role deletes every listed inline policy, stopping after a raising delete |
| FindingLifecycle.DeleteInlinePolicies | backend-remediation-engine.py:243-246 | the loop deletes every named policy or stops after the raising delete with its error |
| FindingLifecycle.PermissionsToRemove | backend-remediation-engine.py:307-313 | never empty: the simulation's permissions when present and non-empty, otherwise s3:*, iam:* and ec2:* |
| FindingLifecycle.StepOf | backend-remediation-engine.py:316-322 | without a resource id the step is the demo success with no write; otherwise it is the removal, including its listing failure |
| FindingLifecycle.FinalStatus | backend-remediation-engine.py:329-339 | REMEDIATED exactly when the step succeeded, otherwise FAILED |
| FindingLifecycle.RollbackSnapshotId | backend-remediation-engine.py:375-381 | a given snapshot id wins; otherwise the known execution's snapshot; otherwise none |
| FindingLifecycle.StatusOf | backend-remediation-engine.py:425 | an unknown finding is OPEN, a known one has its recorded status |
| FindingLifecycle.RemediationEngine.constructor | backend-remediation-engine.py:47-50 | keeps the given simulations, with no executions, snapshots or statuses |
| FindingLifecycle.RemediationEngine.FindingStatusOf | backend-remediation-engine.py:421-428 | an unknown finding reads as OPEN |
| FindingLifecycle.RemediationEngine.ExecutionStatus | backend-remediation-engine.py:412-418 | 404 "Execution not found" exactly for an unknown id, otherwise the stored record |
| FindingLifecycle.RemediationEngine.CreateIamSnapshot | backend-remediation-engine.py:85-164 | stores the specified snapshot under the new id and changes nothing else |
| FindingLifecycle.RemediationEngine.RemoveUnusedPermissions | backend-remediation-engine.py:232-273 | the imperative removal equals the specified one |
| FindingLifecycle.RemediationEngine.RunStep | backend-remediation-engine.py:316-322 | the imperative step equals the specified one |
| FindingLifecycle.RemediationEngine.Execute | backend-remediation-engine.py:280-366 | a snapshot is taken only with a resource id and the rollback flag; a raised error marks the finding FAILED, records a FAILED execution and answers 500; otherwise the step's outcome decides REMEDIATED or FAILED for both records, so a raising policy listing answers 200 with success false and leaves both FAILED |
| FindingLifecycle.RemediationEngine.Settle | backend-remediation-engine.py:316-366 | after the snapshot: a raised error marks FAILED and answers 500; otherwise the step runs and its final status is recorded for the execution and the finding |
| FindingLifecycle.RemediationEngine.Rollback | backend-remediation-engine.py:369-409 | 400 without a snapshot id and 500 for an unknown snapshot or a failed restore, including a raising IAM client, leaving statuses alone; a successful restore marks the given finding ROLLED_BACK |
| FindingLifecycle.RemediationEngine.SnapshotStep | backend-remediation-engine.py:298-300 | a snapshot is stored under the new id exactly when rollback is asked for and a resource id is given; nothing else changes |
| DiskCaching.FileName | docs/backend-disk-cache.py:53-58 | a key of at most 100 characters names its own file; a longer key is replaced by its hash |
| DiskCaching.ShortKeysDoNotCollide | docs/backend-disk-cache.py:53-58 | two short keys with the same file are the same key |
| DiskCaching.ExpiryOf | docs/backend-disk-cache.py:94 | an entry expires exactly when its ttl is positive, and then strictly after it was stored |
| DiskCaching.Lookup | docs/backend-disk-cache.py:60-81 | the default for a missing or unreadable file; the default for an expired entry, whose file is deleted; the stored value otherwise, with the files unchanged |
| DiskCaching.StoreThenLookup | docs/backend-disk-cache.py:60-104 | reading a key right after setting it gives the value back, unless its positive ttl has run out by the time of the read |
| DiskCaching.StoreLeavesOthers | docs/backend-disk-cache.py:83-104 | setting one key does not change what any other key reads |
| DiskCaching.InNamespace | docs/backend-disk-cache.py:118 | exactly the cache files of the namespace |
| DiskCaching.Outside | docs/backend-disk-cache.py:115-121 | exactly the files of other namespaces, unchanged |
| DiskCaching.Disk.constructor | docs/backend-disk-cache.py:31-34 | an empty cache directory |
| DiskCaching.DiskCache.constructor | docs/backend-disk-cache.py:48-51 | a cache over the given namespace and disk |
| DiskCaching.DiskCache.Get | docs/backend-disk-cache.py:60-81 | the answer and the files afterwards are those of the specified lookup |
| DiskCaching.DiskCache.Set | docs/backend-disk-cache.py:83-104 | the key's file now holds the value with its ttl and time, every other file unchanged |
| DiskCaching.DiskCache.Delete | docs/backend-disk-cache.py:106-113 | true exactly when the key's file existed, which is gone afterwards |
| DiskCaching.DiskCache.Clear | docs/backend-disk-cache.py:115-121 | returns the number of the namespace's files and removes exactly those |
| DiskCaching.CachedCall | docs/backend-disk-cache.py:164-187 | a non-null cached value is returned without calling the function; otherwise the computed result is returned and stored |
| SortedSets.StrLessIrreflexive | iam-remediation-engine.py:556-558 | no string is less than itself in Python's string order |
| SortedSets.StrLessTransitive | iam-remediation-engine.py:556-558 | the string order is transitive |
| SortedSets.StrLessTotal | iam-remediation-engine.py:556-558 | of two different strings, one is less than the other |
| SortedSets.StrLessAsymmetric | iam-remediation-engine.py:556-558 | the string order is asymmetric |
| SortedSets.SortedIsDistinct | iam-remediation-engine.py:556-558 | a strictly sorted list has no duplicates |
| SortedSets.Insert | iam-remediation-engine.py:556-558 | inserting into a sorted set keeps it sorted and adds exactly the element |
| SortedSets.SortedSet | iam-remediation-engine.py:556-558 | sorted(set(xs)) is strictly sorted, holds exactly the items of xs and is no longer |
| SortedSets.SortedSetLength | iam-remediation-engine.py:556-558 | an insertion adds at most one element |
| SortedSets.SortedUnique | iam-remediation-engine.py:556-558 | two strictly sorted lists with the same items are equal |
| SortedSets.SortedSetOfSameItems | iam-remediation-engine.py:556-558 | lists with the same items give the same sorted set, whatever their order and duplicates |

## Behaviour kept as written

The model follows the code where it differs from what its comments or documentation suggest:

- The full engine's environment tier defaults to 0 (production) when the context omits it (backend-engines/remediation_decision_engine.py). The inline copies default it to 2. A request without an environment therefore never auto-remediates in the full engine, for a path severity in its documented range [0, 1]. `from_dict` does not enforce that range: a negative severity can lift the safety above the production cap.
- In backend-engines/least_privilege_engine.py the pattern `*:*` matches every action containing a colon, so every service action is assessed CRITICAL. An LP score over permissions that are all INACTIVE_SAFE is 0, not 100, because INACTIVE_SAFE adds neither score nor penalty.
- A failed post-remediation health check in backend-engines/main.py answers `rolled_back: true`, although nothing is rolled back.
- Only the first IPv4 range of a security-group rule decides its exposure. A rule with a negative port (ICMP) is never high-risk, because its port text does not split into two numbers.
- In both remediation backends, rollback turns the 404 for an unknown snapshot into a 500 whose detail reads "404: Snapshot … not found". The complete backend's execute without `create_rollback` always fails with 404 "Snapshot None not found".
- backend-remediation-engine.py deletes every inline policy of the role, whatever the list of permissions to remove. A failed removal still answers 200 with `success` false.
- The orchestrator's `reject` does not check the workflow status. Its `_rollback` always overwrites `error` with the reason. A single failed canary health check still completes the stage.

## Left out

- AWS itself (IAM, STS, CloudTrail, Access Advisor, CloudWatch, EC2) is not modelled. What a read returned, whether and where a write raises, and the probe outcomes are parameters. Pagination, polling with sleeps and the boto3 error types are left out.
- asyncio: awaiting and `wait_for` timeouts are not modelled. A timeout or exception is an UNKNOWN or raising outcome parameter.
- Wall-clock time, UUIDs and ISO-8601 text are parameters. Times are seconds or day numbers, and hours of the day are integers.
- exp, log10 and fractional powers are left out: they are arbitrary functions passed in as a `Math` value. Every stated property holds whatever those functions are. Float rounding and `round(x, n)` are left out, and arithmetic is on exact reals.
- The weighted geometric mean of `calculate_confidence`, `_explain_confidence` and the SHA-256 `SnapshotManager` of backend-engines/least_privilege_engine.py are not modelled.
- The SQLite and Postgres storage paths of backend-engines/historical_tracker.py are not modelled; only the in-memory backend is.
- Neo4j storage of findings (backend-fixes/neo4j_client_optional.py and the Neo4j helpers of the security-group scan) is not modelled.
- The traffic generators under demo-pack/scripts are not modelled.
- FastAPI routing, Pydantic models, CORS and logging are not modelled. Only each endpoint's answers and error codes are.
- Reason and warning texts are tags. Order and presence are modelled, not wording.
- The module-level singletons (`get_orchestrator`, `get_tracker`, the global engines) are not modelled.
- The GET snapshot endpoints of the two remediation backends and DiskCache.get_stats are read-only reporting and are not modelled.
- IamRemediation.SimulationConfidence: does not model `round(…, 2)`. It states the unrounded value.
- IamRemediation.IamRemediationStore.ExecuteFix: does not check that a given simulation id belongs to the issue, because the source does not either.
- UsageCollector.CloudTrailUsageCollector.GetCloudTrailEvents and UsageCollector.CloudTrailUsageCollector.SummarizeEvents: model `list(set(...))` of the action names and principals in first-seen order. Python leaves that order to the hashes of the strings, so only the membership and the absence of duplicates are promises of the source. The same holds for `last_used_by`, the first principal of that list.
- CompleteBackend.SimulatedFinding: models `list(set(allowed) - set(observed))` as the sorted distinct difference. Python leaves the order to the hash of the strings, so only the membership and the absence of duplicates are promises of the source.
- SecurityGroups.ParseNat: models `int()` on digit strings only, the only texts the port labels produce. Signs, whitespace and underscores are not modelled.
- LeastPrivilege.ServiceActionsAreCritical: proves only that an action containing ':' or 'Admin' is CRITICAL. The converse (every other action is LOW) is not proved.
- LeastPrivilege.CountStatus: states only that a count is at most the number of permissions. The extremes are in LeastPrivilege.CountStatusExtremes.
- DiskCaching.DiskCache.Set: does not model write errors (a full disk, a value JSON cannot encode), so it always succeeds.
- DiskCaching.FileName: the md5 hash is a parameter. A short key equal to another key's hash would share its file; this is not ruled out.
- DiskCaching.CachedCall: the function call is a parameter (its result), and the default key built from the arguments' md5 is not modelled.
- LocalBackend.LocalRemediationBackend.ExecuteRemediation: one read of the role serves both the snapshot and the rewrite, as if IAM did not change in between.
- AllowActions: a policy whose `Statement` is one object rather than a list is not modelled. The source iterates the object's keys, and `stmt.get` on a key raises AttributeError (run-local-backend.py:165-167, complete-backend-main.py:120). The local backend's execute then answers 500 and the complete backend's simulate swallows the error. Modelling it would add an error path to every rewrite lemma of both backends.
- Rewritten: the same single-object `Statement` is not modelled. remove_permissions_from_policy raises on it (run-local-backend.py:133-134, complete-backend-main.py:132), so the source never rewrites such a policy.
- FindingLifecycle.RemediationEngine.Execute: the exception point `raised` is placed after the snapshot. An exception while taking the snapshot is the snapshot's own error record, which the source stores.
- MainApi.Execute: which engines were importable is a flag per engine. The exception from running the health check synchronously is a parameter.
