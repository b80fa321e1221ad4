/**
 * The confidence/safety decision engine (RemediationDecisionEngine).
 *
 * Signals (simulation, usage, dependency graph, history, environment,
 * policy) become five per-signal scores in [0,1]; a weighted geometric mean
 * of them is the confidence; an ordered chain of policy caps, boosts and
 * penalties turns the confidence into the safety; fixed thresholds map the
 * safety to an action.
 *
 * Python's exp, log10 and `**` are not modelled: they are passed in as the
 * arbitrary functions of a `Math` value, and every property below holds
 * whatever those functions are.
 */
module DecisionEngine {
  import opened Common

  /** The transcendental functions the engine borrows from Python's math module. */
  datatype Math = Math(exp: real -> real, log10: real -> real, pow: (real, real) -> real)

  datatype Action = AutoRemediate | Canary | RequireApproval | Block

  /** How permissive an action is: BLOCK < REQUIRE_APPROVAL < CANARY < AUTO_REMEDIATE. */
  function Rank(a: Action): nat
  {
    match a
    case Block => 0
    case RequireApproval => 1
    case Canary => 2
    case AutoRemediate => 3
  }

  const ThresholdAuto: real := 0.90
  const ThresholdCanary: real := 0.75
  const ThresholdApproval: real := 0.60

  // ---------------------------------------------------------------------
  // Inputs as the caller passes them: every key may be absent
  // ---------------------------------------------------------------------

  datatype SimulationDict = SimulationDict(
    status: Option<string>, reachabilityPreserved: Option<real>, criticalPathAffected: Option<bool>,
    worstPathSeverity: Option<real>, permissionsTested: Option<nat>, permissionsSafe: Option<nat>,
    warnings: Option<seq<string>>)

  datatype UsageDict = UsageDict(
    daysSinceLastUse: Option<int>, usageCount90d: Option<nat>, observationDays: Option<int>,
    sourcesAvailable: Option<nat>, usagePattern: Option<string>)

  /** impactedServices lists each impacted service's optional "criticality" entry. */
  datatype GraphDict = GraphDict(
    totalResources: Option<nat>, resourcesWithTelemetry: Option<nat>, edgesObserved: Option<nat>,
    edgesEstimated: Option<nat>, impactedServices: Option<seq<Option<nat>>>,
    crossAccountDependencies: Option<nat>, circularDependencies: Option<bool>)

  datatype HistoryDict = HistoryDict(
    total: Option<nat>, successes: Option<nat>, rollbacks: Option<nat>,
    similarResourceTypeSuccessRate: Option<real>, lastFailureDaysAgo: Option<int>)

  datatype EnvDict = EnvDict(
    tier: Option<int>, isMultiRegion: Option<bool>, complianceFrameworks: Option<seq<string>>)

  datatype PolicyDict = PolicyDict(
    sharedResource: Option<bool>, revenueGenerating: Option<bool>, hasRollback: Option<bool>,
    changeWindowOpen: Option<bool>, tier: Option<int>)

  // ---------------------------------------------------------------------
  // Typed contexts (the dataclasses) and their from_dict defaults
  // ---------------------------------------------------------------------

  datatype SimulationResult = SimulationResult(
    status: string, reachabilityPreserved: real, criticalPathAffected: bool, worstPathSeverity: real,
    permissionsTested: nat, permissionsSafe: nat, warnings: seq<string>)

  datatype UsageMetrics = UsageMetrics(
    daysSinceLastUse: int, usageCount90d: nat, observationDays: int, sourcesAvailable: nat,
    usagePattern: string)

  datatype DependencyContext = DependencyContext(
    totalResources: nat, resourcesWithTelemetry: nat, edgesObserved: nat, edgesEstimated: nat,
    impactedServices: seq<Option<nat>>, crossAccountDependencies: nat, circularDependencies: bool)

  datatype HistoricalContext = HistoricalContext(
    total: nat, successes: nat, rollbacks: nat, similarResourceTypeSuccessRate: real,
    lastFailureDaysAgo: Option<int>)

  datatype EnvironmentContext = EnvironmentContext(
    tier: int, isMultiRegion: bool, complianceFrameworks: seq<string>)

  datatype PolicyContext = PolicyContext(
    sharedResource: bool, revenueGenerating: bool, hasRollback: bool, changeWindowOpen: bool, tier: int)

  function SimulationFromDict(d: SimulationDict): SimulationResult
  {
    SimulationResult(GetOr(d.status, "CAUTION"), GetOr(d.reachabilityPreserved, 0.8),
      GetOr(d.criticalPathAffected, false), GetOr(d.worstPathSeverity, 0.0),
      GetOr(d.permissionsTested, 0), GetOr(d.permissionsSafe, 0), GetOr(d.warnings, []))
  }

  function UsageFromDict(d: UsageDict): UsageMetrics
  {
    UsageMetrics(GetOr(d.daysSinceLastUse, 0), GetOr(d.usageCount90d, 0), GetOr(d.observationDays, 90),
      GetOr(d.sourcesAvailable, 1), GetOr(d.usagePattern, "MEDIUM"))
  }

  function DependencyFromDict(d: GraphDict): DependencyContext
  {
    DependencyContext(GetOr(d.totalResources, 1), GetOr(d.resourcesWithTelemetry, 1),
      GetOr(d.edgesObserved, 0), GetOr(d.edgesEstimated, 1), GetOr(d.impactedServices, []),
      GetOr(d.crossAccountDependencies, 0), GetOr(d.circularDependencies, false))
  }

  function HistoryFromDict(d: HistoryDict): HistoricalContext
  {
    HistoricalContext(GetOr(d.total, 0), GetOr(d.successes, 0), GetOr(d.rollbacks, 0),
      GetOr(d.similarResourceTypeSuccessRate, 0.0), d.lastFailureDaysAgo)
  }

  /** Note the default tier: 0, i.e. PRODUCTION. */
  function EnvironmentFromDict(d: EnvDict): EnvironmentContext
  {
    EnvironmentContext(GetOr(d.tier, 0), GetOr(d.isMultiRegion, false), GetOr(d.complianceFrameworks, []))
  }

  function PolicyFromDict(d: PolicyDict): PolicyContext
  {
    PolicyContext(GetOr(d.sharedResource, false), GetOr(d.revenueGenerating, false),
      GetOr(d.hasRollback, true), GetOr(d.changeWindowOpen, true), GetOr(d.tier, 2))
  }

  /** The defaults an empty input produces, field by field. */
  lemma EmptyInputDefaults()
    ensures SimulationFromDict(SimulationDict(None, None, None, None, None, None, None))
      == SimulationResult("CAUTION", 0.8, false, 0.0, 0, 0, [])
    ensures UsageFromDict(UsageDict(None, None, None, None, None)) == UsageMetrics(0, 0, 90, 1, "MEDIUM")
    ensures DependencyFromDict(GraphDict(None, None, None, None, None, None, None))
      == DependencyContext(1, 1, 0, 1, [], 0, false)
    ensures HistoryFromDict(HistoryDict(None, None, None, None, None)) == HistoricalContext(0, 0, 0, 0.0, None)
    ensures EnvironmentFromDict(EnvDict(None, None, None)) == EnvironmentContext(0, false, [])
    ensures PolicyFromDict(PolicyDict(None, None, None, None, None)) == PolicyContext(false, false, true, true, 2)
  {
  }

  // ---------------------------------------------------------------------
  // Per-signal scores
  // ---------------------------------------------------------------------

  function StatusBase(status: string): real
  {
    if status == "SAFE" then 0.95
    else if status == "CAUTION" then 0.75
    else if status == "RISKY" then 0.40
    else 0.50
  }

  /** Share of tested permissions found safe; 1.0 when none were tested. */
  function PermissionCoverage(sim: SimulationResult): real
  {
    SafeDiv(sim.permissionsSafe as real, sim.permissionsTested as real, 1.0)
  }

  function SimulationScore(sim: SimulationResult): (r: real)
    ensures 0.0 <= r <= 1.0
  {
    var reach := Clamp01(sim.reachabilityPreserved);
    Clamp01(StatusBase(sim.status) * (0.5 + 0.3 * reach + 0.2 * PermissionCoverage(sim)))
  }

  /** A score at most the status base when no more permissions are safe than were tested. */
  lemma SimulationScoreAtMostBase(sim: SimulationResult)
    requires sim.permissionsSafe <= sim.permissionsTested
    ensures SimulationScore(sim) <= StatusBase(sim.status)
  {
    var reach := Clamp01(sim.reachabilityPreserved);
    var cov := PermissionCoverage(sim);
    if sim.permissionsTested != 0 {
      FractionInUnit(sim.permissionsSafe, sim.permissionsTested);
    }
    assert 0.0 <= cov <= 1.0;
    var f := 0.5 + 0.3 * reach + 0.2 * cov;
    assert 0.5 <= f <= 1.0;
    assert StatusBase(sim.status) * f <= StatusBase(sim.status);
  }

  function UsageScore(m: Math, u: UsageMetrics): (r: real)
    ensures 0.0 <= r <= 1.0
  {
    var recencyRisk := m.exp(-(u.daysSinceLastUse as real) / 30.0);
    var freqRisk := MinR(1.0, m.log10((u.usageCount90d + 1) as real) / 2.5);
    if u.usagePattern == "NONE" then 0.95
    else if u.usagePattern == "LOW" then 0.85
    else Clamp01(1.0 - MaxR(recencyRisk, freqRisk))
  }

  /**
   * For the NONE and LOW patterns the usage score is a constant: neither the
   * counts, nor the recency, nor the math functions matter.
   */
  lemma UsageScoreByPattern(m1: Math, m2: Math, u1: UsageMetrics, u2: UsageMetrics)
    requires u1.usagePattern == u2.usagePattern
    requires u1.usagePattern == "NONE" || u1.usagePattern == "LOW"
    ensures UsageScore(m1, u1) == UsageScore(m2, u2)
    ensures UsageScore(m1, u1) == (if u1.usagePattern == "NONE" then 0.95 else 0.85)
  {
  }

  /** Share of resources with telemetry; 0.5 for an empty graph. */
  function TelemetryCoverage(g: DependencyContext): real
  {
    SafeDiv(g.resourcesWithTelemetry as real, g.totalResources as real, 0.5)
  }

  /** Share of estimated edges actually observed; 0.5 when none are estimated. */
  function EdgeCoverage(g: DependencyContext): real
  {
    SafeDiv(g.edgesObserved as real, g.edgesEstimated as real, 0.5)
  }

  function DataScore(m: Math, u: UsageMetrics, g: DependencyContext): (r: real)
    ensures 0.0 <= r <= 1.0
  {
    var timeCoverage := 1.0 - m.exp(-(u.observationDays as real) / 40.0);
    var sourceCoverage := MinR(1.0, u.sourcesAvailable as real / 4.0);
    Clamp01(timeCoverage * 0.4 + sourceCoverage * 0.3 + TelemetryCoverage(g) * 0.3)
  }

  /** Sum over impacted services of min(1, criticality / 10), a missing criticality counting 0. */
  function Impact(services: seq<Option<nat>>): (r: real)
    ensures 0.0 <= r <= |services| as real
  {
    if services == [] then 0.0
    else
      var last := MinR(1.0, GetOr(services[|services| - 1], 0) as real / 10.0);
      Impact(services[..|services| - 1]) + last
  }

  function DependencyScore(g: DependencyContext): (r: real)
    ensures 0.0 <= r <= 1.0
  {
    var sizePenalty := 1.0 / (1.0 + Impact(g.impactedServices));
    var crossAccountPenalty := 1.0 / (1.0 + g.crossAccountDependencies as real * 0.2);
    Clamp01(TelemetryCoverage(g) * EdgeCoverage(g) * sizePenalty * crossAccountPenalty)
  }

  /** Success rate of past remediations; 0.5 when there are none. */
  function SuccessRate(h: HistoricalContext): real
  {
    SafeDiv(h.successes as real, h.total as real, 0.5)
  }

  /** The history formula before the clamp. */
  function HistoricalBase(h: HistoricalContext): real
  {
    0.70 + (SuccessRate(h) - 0.5) * 0.4 * MinR(1.0, h.total as real / 10.0)
  }

  function HistoricalScore(h: HistoricalContext): (r: real)
    ensures 0.0 <= r <= 1.0
    ensures h.total == 0 ==> r == 0.70
  {
    if h.total == 0 then 0.70
    else
      var base := HistoricalBase(h);
      var boosted := if h.similarResourceTypeSuccessRate > 0.9 then base * 1.05 else base;
      var penalised :=
        if h.lastFailureDaysAgo.Some? && h.lastFailureDaysAgo.value < 7 then boosted * 0.85 else boosted;
      Clamp01(penalised)
  }

  /** The unadjusted history formula moves at most 0.20 away from the neutral 0.70. */
  lemma HistoricalBaseRange(h: HistoricalContext)
    requires 0 < h.total && h.successes <= h.total
    ensures 0.50 <= HistoricalBase(h) <= 0.90
  {
    FractionInUnit(h.successes, h.total);
    var rate := SuccessRate(h);
    var w := MinR(1.0, h.total as real / 10.0);
    assert 0.0 <= w <= 1.0;
    var d := (rate - 0.5) * 0.4;
    assert -0.2 <= d <= 0.2;
    MulBetween(d, w);
  }

  lemma MulBetween(d: real, w: real)
    requires -0.2 <= d <= 0.2 && 0.0 <= w <= 1.0
    ensures -0.2 <= d * w <= 0.2
  {
    if d >= 0.0 {
      assert d * w <= d * 1.0;
    } else {
      assert d * w >= d * 1.0;
    }
  }

  /**
   * With recorded history the score lies in [0.425, 0.945]: the formula's
   * [0.50, 0.90] widened by the ×1.05 bonus and the ×0.85 recent-failure penalty.
   */
  lemma HistoricalScoreRange(h: HistoricalContext)
    requires 0 < h.total && h.successes <= h.total
    ensures 0.425 <= HistoricalScore(h) <= 0.945
  {
    HistoricalBaseRange(h);
  }

  /** Zero denominators fall back to the documented defaults. */
  lemma ZeroDenominatorDefaults(sim: SimulationResult, g: DependencyContext, h: HistoricalContext)
    ensures sim.permissionsTested == 0 ==> PermissionCoverage(sim) == 1.0
    ensures g.totalResources == 0 ==> TelemetryCoverage(g) == 0.5
    ensures g.edgesEstimated == 0 ==> EdgeCoverage(g) == 0.5
    ensures h.total == 0 ==> SuccessRate(h) == 0.5
  {
  }

  // ---------------------------------------------------------------------
  // Safety rules, action, auto permission
  // ---------------------------------------------------------------------

  /** The ordered chain of caps, boosts and penalties. */
  function ApplySafetyRules(safety: real, sim: SimulationResult, env: EnvironmentContext, policy: PolicyContext): (r: real)
    ensures 0.0 <= r <= 1.0
  {
    var s1 := if env.tier == 0 || policy.sharedResource then MinR(safety, 0.70) else safety;
    var s2 := if policy.revenueGenerating then MinR(s1, 0.75) else s1;
    var s3 := RollbackAdjust(s2, policy.hasRollback);
    Clamp01(Penalties(s3, sim, env, policy))
  }

  /** With rollback, a score below 0.75 is boosted by 15% up to 0.89; without, it loses 15%. */
  function RollbackAdjust(s: real, hasRollback: bool): real
  {
    if hasRollback then (if s < 0.75 then MinR(s * 1.15, 0.89) else s) else s * 0.85
  }

  /** Change window, compliance, worst-path severity and multi-region penalties, in that order. */
  function Penalties(s: real, sim: SimulationResult, env: EnvironmentContext, policy: PolicyContext): real
  {
    var s4 := if !policy.changeWindowOpen then s * 0.70 else s;
    var s5 := if |env.complianceFrameworks| >= 2 then s4 * 0.95 else s4;
    var s6 := s5 * (1.0 - sim.worstPathSeverity * 0.3);
    if env.isMultiRegion then s6 * 0.90 else s6
  }

  /** For a severity in [0,1] the penalties never raise a non-negative score. */
  lemma PenaltiesNeverRaise(s: real, sim: SimulationResult, env: EnvironmentContext, policy: PolicyContext)
    requires 0.0 <= s && 0.0 <= sim.worstPathSeverity <= 1.0
    ensures Penalties(s, sim, env, policy) <= s
  {
    var s4 := if !policy.changeWindowOpen then s * 0.70 else s;
    var s5 := if |env.complianceFrameworks| >= 2 then s4 * 0.95 else s4;
    var f := 1.0 - sim.worstPathSeverity * 0.3;
    assert 0.7 <= f <= 1.0;
    assert 0.0 <= s5 <= s;
    assert s5 * f <= s5 * 1.0;
  }

  /**
   * The rules can raise a score only through the rollback boost, which stops
   * at 0.89: safety <= max(confidence, 0.89).
   */
  lemma SafetyAtMostConfidenceOrBoostCap(c: real, sim: SimulationResult, env: EnvironmentContext, policy: PolicyContext)
    requires 0.0 <= c <= 1.0 && 0.0 <= sim.worstPathSeverity <= 1.0
    ensures ApplySafetyRules(c, sim, env, policy) <= MaxR(c, 0.89)
  {
    var s1 := if env.tier == 0 || policy.sharedResource then MinR(c, 0.70) else c;
    var s2 := if policy.revenueGenerating then MinR(s1, 0.75) else s1;
    var s3 := RollbackAdjust(s2, policy.hasRollback);
    assert 0.0 <= s3 <= MaxR(c, 0.89);
    PenaltiesNeverRaise(s3, sim, env, policy);
  }

  /** Production or a shared resource keeps safety at or below 0.70 × 1.15 = 0.805. */
  lemma ProductionOrSharedCap(c: real, sim: SimulationResult, env: EnvironmentContext, policy: PolicyContext)
    requires 0.0 <= c <= 1.0 && 0.0 <= sim.worstPathSeverity <= 1.0
    requires env.tier == 0 || policy.sharedResource
    ensures ApplySafetyRules(c, sim, env, policy) <= 0.805
  {
    var s1 := MinR(c, 0.70);
    var s2 := if policy.revenueGenerating then MinR(s1, 0.75) else s1;
    var s3 := RollbackAdjust(s2, policy.hasRollback);
    assert 0.0 <= s3 <= 0.805;
    PenaltiesNeverRaise(s3, sim, env, policy);
  }

  /** auto_allowed: never for policy tier 0/1 (production, staging) or shared resources. */
  predicate AutoAllowed(policy: PolicyContext)
  {
    !(policy.tier <= 1 || policy.sharedResource)
  }

  function DecideAction(safety: real, policy: PolicyContext): (a: Action)
    ensures a == AutoRemediate <==> safety >= ThresholdAuto && AutoAllowed(policy)
    ensures Rank(a) >= Rank(Canary) ==> safety >= ThresholdCanary
    ensures Rank(a) >= Rank(RequireApproval) <==> safety >= ThresholdApproval
    ensures a == Block <==> safety < ThresholdApproval
    ensures safety >= ThresholdCanary ==> Rank(a) >= Rank(Canary)
  {
    if safety >= ThresholdAuto && AutoAllowed(policy) then AutoRemediate
    else if safety >= ThresholdCanary then Canary
    else if safety >= ThresholdApproval then RequireApproval
    else Block
  }

  /** For a fixed policy a higher safety never yields a less permissive action. */
  lemma DecideActionMonotone(s1: real, s2: real, policy: PolicyContext)
    requires s1 <= s2
    ensures Rank(DecideAction(s1, policy)) <= Rank(DecideAction(s2, policy))
  {
  }

  // ---------------------------------------------------------------------
  // Decision, explanations and warnings
  // ---------------------------------------------------------------------

  datatype BlockCause = CriticalPath | CircularDependencies

  datatype Breakdown = Breakdown(simulation: real, usage: real, data: real, dependency: real, historical: real)

  predicate InUnit(b: Breakdown)
  {
    0.0 <= b.simulation <= 1.0 && 0.0 <= b.usage <= 1.0 && 0.0 <= b.data <= 1.0
    && 0.0 <= b.dependency <= 1.0 && 0.0 <= b.historical <= 1.0
  }

  /** One explanation line each; the text of the line is not modelled. */
  datatype Reason =
    | BlockReason(cause: BlockCause)
    | SimulationSafe | SimulationCaution | SimulationRisky
    | NoUsage | Inactive | UsageObserved
    | NoCriticalPaths | ServicesImpacted(count: nat)
    | HistoricalSuccessRate | NoHistory
    | SharedResourceCap | OutsideChangeWindow | RollbackAvailable
    | FinalSafety(action: Action)

  datatype Warning =
    | BlockWarning(cause: BlockCause)
    | SimulationWarning(text: string)
    | LimitedObservation | SingleDataSource | CrossAccount(count: nat)
    | ProductionEnvironment | ComplianceFrameworksApply
    | NoRollbackMechanism | OutsideDesignatedWindow

  /** Breakdown is None for the empty `{}` of a blocked decision. */
  datatype Decision = Decision(
    confidence: real, safety: real, action: Action, autoAllowed: bool,
    reasons: seq<Reason>, breakdown: Option<Breakdown>, warnings: seq<Warning>)

  function BlockDecision(cause: BlockCause): Decision
  {
    Decision(0.0, 0.0, Block, false, [BlockReason(cause)], None, [BlockWarning(cause)])
  }

  /** The simulation line: the verdict the status names, risky for anything else. */
  function SimulationLine(status: string): (r: Reason)
    ensures r == SimulationSafe <==> status == "SAFE"
    ensures r == SimulationCaution <==> status == "CAUTION"
    ensures r == SimulationRisky <==> status != "SAFE" && status != "CAUTION"
  {
    if status == "SAFE" then SimulationSafe
    else if status == "CAUTION" then SimulationCaution
    else SimulationRisky
  }

  /** The usage line: no usage for pattern NONE, inactive beyond 90 days, otherwise observed. */
  function UsageLine(usage: UsageMetrics): (r: Reason)
    ensures r == NoUsage <==> usage.usagePattern == "NONE"
    ensures r == Inactive <==> usage.usagePattern != "NONE" && usage.daysSinceLastUse > 90
    ensures r == UsageObserved <==> usage.usagePattern != "NONE" && usage.daysSinceLastUse <= 90
  {
    if usage.usagePattern == "NONE" then NoUsage
    else if usage.daysSinceLastUse > 90 then Inactive
    else UsageObserved
  }

  /** The dependency line: no critical paths without impacted services, otherwise their count. */
  function DependencyLine(graph: DependencyContext): (r: Reason)
    ensures r == NoCriticalPaths <==> |graph.impactedServices| == 0
    ensures r != NoCriticalPaths ==> r == ServicesImpacted(|graph.impactedServices|)
  {
    if |graph.impactedServices| == 0 then NoCriticalPaths else ServicesImpacted(|graph.impactedServices|)
  }

  /** The history line: the success rate with history, otherwise no history. */
  function HistoryLine(history: HistoricalContext): (r: Reason)
    ensures r == HistoricalSuccessRate <==> history.total > 0
    ensures r == NoHistory <==> history.total == 0
  {
    if history.total > 0 then HistoricalSuccessRate else NoHistory
  }

  /** _generate_explanation: four fixed lines, the policy lines, then the final safety line. */
  function Explain(sim: SimulationResult, usage: UsageMetrics, graph: DependencyContext,
                   history: HistoricalContext, action: Action, policy: PolicyContext): (r: seq<Reason>)
    ensures 5 <= |r| <= 8 && r[|r| - 1] == FinalSafety(action)
    ensures r[..4] == [SimulationLine(sim.status), UsageLine(usage), DependencyLine(graph), HistoryLine(history)]
    ensures r[4..|r| - 1] == PolicyLines(policy)
  {
    var head := [SimulationLine(sim.status), UsageLine(usage), DependencyLine(graph), HistoryLine(history)];
    var r := head + PolicyLines(policy) + [FinalSafety(action)];
    assert r[..4] == head && r[4..|r| - 1] == PolicyLines(policy);
    r
  }

  /**
   * The shared-resource, change-window and rollback lines appear exactly when
   * their condition holds, and the no-history line exactly without history.
   */
  lemma ExplainMentions(sim: SimulationResult, usage: UsageMetrics, graph: DependencyContext,
                        history: HistoricalContext, action: Action, policy: PolicyContext)
    ensures var r := Explain(sim, usage, graph, history, action, policy);
      (SharedResourceCap in r <==> policy.sharedResource)
      && (OutsideChangeWindow in r <==> !policy.changeWindowOpen)
      && (RollbackAvailable in r <==> policy.hasRollback)
      && (NoHistory in r <==> history.total == 0)
  {
    var r := Explain(sim, usage, graph, history, action, policy);
    var a, b, c, d := SimulationLine(sim.status), UsageLine(usage), DependencyLine(graph), HistoryLine(history);
    assert a.SimulationSafe? || a.SimulationCaution? || a.SimulationRisky?;
    assert b.NoUsage? || b.Inactive? || b.UsageObserved?;
    assert c.NoCriticalPaths? || c.ServicesImpacted?;
    assert d == NoHistory <==> history.total == 0;
    var head := [a, b, c, d];
    assert SharedResourceCap !in head && OutsideChangeWindow !in head && RollbackAvailable !in head;
    assert NoHistory in head <==> history.total == 0;
    var lines := PolicyLines(policy);
    assert NoHistory !in lines;
    assert r == head + lines + [FinalSafety(action)] by {
      assert r == r[..4] + r[4..|r| - 1] + [r[|r| - 1]];
    }
    ExplainMentionsOf(head, lines, FinalSafety(action), SharedResourceCap);
    ExplainMentionsOf(head, lines, FinalSafety(action), OutsideChangeWindow);
    ExplainMentionsOf(head, lines, FinalSafety(action), RollbackAvailable);
    ExplainMentionsOf(head, lines, FinalSafety(action), NoHistory);
  }

  /** A line is in the explanation exactly when it is in one of its three parts. */
  lemma ExplainMentionsOf(head: seq<Reason>, lines: seq<Reason>, last: Reason, x: Reason)
    ensures x in head + lines + [last] <==> x in head || x in lines || x == last
  {
  }

  /** The explanation lines about the policy context: shared resource, change window, rollback. */
  function PolicyLines(policy: PolicyContext): (r: seq<Reason>)
    ensures |r| <= 3
    ensures forall x :: x in r ==> x.SharedResourceCap? || x.OutsideChangeWindow? || x.RollbackAvailable?
    ensures (SharedResourceCap in r <==> policy.sharedResource)
    ensures (OutsideChangeWindow in r <==> !policy.changeWindowOpen)
    ensures (RollbackAvailable in r <==> policy.hasRollback)
  {
    When(policy.sharedResource, SharedResourceCap)
    + When(!policy.changeWindowOpen, OutsideChangeWindow)
    + When(policy.hasRollback, RollbackAvailable)
  }

  function SimulationWarnings(texts: seq<string>): (r: seq<Warning>)
    ensures |r| == |texts|
    ensures forall i :: 0 <= i < |r| ==> r[i] == SimulationWarning(texts[i])
  {
    if texts == [] then [] else SimulationWarnings(texts[..|texts| - 1]) + [SimulationWarning(texts[|texts| - 1])]
  }

  /** When the engine itself raises warning `w`. */
  predicate Raised(w: Warning, usage: UsageMetrics, graph: DependencyContext, env: EnvironmentContext,
                   policy: PolicyContext)
  {
    match w
    case LimitedObservation => usage.observationDays < 30
    case SingleDataSource => usage.sourcesAvailable < 2
    case CrossAccount(n) => n == graph.crossAccountDependencies && n > 0
    case ProductionEnvironment => env.tier == 0
    case ComplianceFrameworksApply => |env.complianceFrameworks| > 0
    case NoRollbackMechanism => !policy.hasRollback
    case OutsideDesignatedWindow => !policy.changeWindowOpen
    case _ => false
  }

  /** The engine's own warnings, in the order the source appends them. */
  function OwnWarnings(usage: UsageMetrics, graph: DependencyContext, env: EnvironmentContext,
                       policy: PolicyContext): (r: seq<Warning>)
    ensures |r| <= 7
    ensures forall w :: w in r <==> Raised(w, usage, graph, env, policy)
  {
    EvidenceWarnings(usage, graph, env, policy) + ContextWarnings(usage, graph, env, policy)
  }

  /** Warnings about the evidence behind the decision. */
  predicate IsEvidenceWarning(w: Warning)
  {
    w.LimitedObservation? || w.SingleDataSource? || w.CrossAccount?
  }

  /** The first three of the engine's warnings: short observation, one data source, cross-account use. */
  function EvidenceWarnings(usage: UsageMetrics, graph: DependencyContext, env: EnvironmentContext,
                            policy: PolicyContext): (r: seq<Warning>)
    ensures |r| <= 3
    ensures forall w :: w in r <==> IsEvidenceWarning(w) && Raised(w, usage, graph, env, policy)
  {
    When(usage.observationDays < 30, LimitedObservation)
    + When(usage.sourcesAvailable < 2, SingleDataSource)
    + When(graph.crossAccountDependencies > 0, CrossAccount(graph.crossAccountDependencies))
  }

  /** The last four: production, compliance, no rollback, outside the change window. */
  function ContextWarnings(usage: UsageMetrics, graph: DependencyContext, env: EnvironmentContext,
                           policy: PolicyContext): (r: seq<Warning>)
    ensures |r| <= 4
    ensures forall w :: w in r <==> !IsEvidenceWarning(w) && Raised(w, usage, graph, env, policy)
  {
    When(env.tier == 0, ProductionEnvironment)
    + When(|env.complianceFrameworks| > 0, ComplianceFrameworksApply)
    + When(!policy.hasRollback, NoRollbackMechanism)
    + When(!policy.changeWindowOpen, OutsideDesignatedWindow)
  }

  /** A one-line list when the condition holds. */
  function When<T(!new)>(c: bool, w: T): (r: seq<T>)
    ensures |r| <= 1
    ensures forall x :: x in r <==> c && x == w
  {
    if c then [w] else []
  }

  function GenerateWarnings(sim: SimulationResult, usage: UsageMetrics, graph: DependencyContext,
                            env: EnvironmentContext, policy: PolicyContext): (r: seq<Warning>)
    ensures |sim.warnings| <= |r| <= |sim.warnings| + 7
    ensures r[..|sim.warnings|] == SimulationWarnings(sim.warnings)
    ensures forall w: Warning :: !w.SimulationWarning? ==> (w in r <==> Raised(w, usage, graph, env, policy))
  {
    var passthrough := SimulationWarnings(sim.warnings);
    var own := OwnWarnings(usage, graph, env, policy);
    assert (passthrough + own)[..|sim.warnings|] == passthrough;
    passthrough + own
  }

  /** The weighted geometric mean 0.30/0.25/0.20/0.15/0.10 of the breakdown, clamped. */
  function Confidence(m: Math, b: Breakdown): (r: real)
    ensures 0.0 <= r <= 1.0
  {
    Clamp01(m.pow(b.simulation, 0.30) * m.pow(b.usage, 0.25) * m.pow(b.data, 0.20)
      * m.pow(b.dependency, 0.15) * m.pow(b.historical, 0.10))
  }

  function Scores(m: Math, sim: SimulationResult, use: UsageMetrics, dep: DependencyContext,
                  hist: HistoricalContext): (b: Breakdown)
    ensures InUnit(b)
  {
    Breakdown(SimulationScore(sim), UsageScore(m, use), DataScore(m, use, dep), DependencyScore(dep),
      HistoricalScore(hist))
  }

  /** evaluate: hard blocks, then scores, confidence, safety, action, explanations. */
  function Evaluate(m: Math, simulation: SimulationDict, usage: UsageDict, graph: GraphDict,
                    history: HistoryDict, env: EnvDict, policy: PolicyDict): (d: Decision)
    ensures 0.0 <= d.confidence <= 1.0 && 0.0 <= d.safety <= 1.0
    ensures d.breakdown.Some? ==> InUnit(d.breakdown.value)
    // the hard blocks, critical path first
    ensures SimulationFromDict(simulation).criticalPathAffected ==> d == BlockDecision(CriticalPath)
    ensures !SimulationFromDict(simulation).criticalPathAffected && DependencyFromDict(graph).circularDependencies
      ==> d == BlockDecision(CircularDependencies)
    ensures d.breakdown.None?
      <==> SimulationFromDict(simulation).criticalPathAffected || DependencyFromDict(graph).circularDependencies
    // permission to auto-remediate
    ensures d.autoAllowed <==> d.breakdown.Some? && AutoAllowed(PolicyFromDict(policy))
    ensures d.action == AutoRemediate ==> d.autoAllowed && d.safety >= ThresholdAuto
    ensures d.breakdown.Some? ==> d.action == DecideAction(d.safety, PolicyFromDict(policy))
    // the scores, the confidence and the safety the decision reports
    ensures d.breakdown.Some? ==>
      var sim := SimulationFromDict(simulation);
      d.breakdown.value == Scores(m, sim, UsageFromDict(usage), DependencyFromDict(graph), HistoryFromDict(history))
      && d.confidence == Confidence(m, d.breakdown.value)
      && d.safety == ApplySafetyRules(d.confidence, sim, EnvironmentFromDict(env), PolicyFromDict(policy))
    ensures d.breakdown.Some? ==>
      d.reasons == Explain(SimulationFromDict(simulation), UsageFromDict(usage), DependencyFromDict(graph),
                           HistoryFromDict(history), d.action, PolicyFromDict(policy))
      && d.warnings == GenerateWarnings(SimulationFromDict(simulation), UsageFromDict(usage), DependencyFromDict(graph),
                                        EnvironmentFromDict(env), PolicyFromDict(policy))
    // what the safety rules guarantee
    ensures 0.0 <= SimulationFromDict(simulation).worstPathSeverity <= 1.0
      ==> d.safety <= MaxR(d.confidence, 0.89)
    ensures 0.0 <= SimulationFromDict(simulation).worstPathSeverity <= 1.0
      && (EnvironmentFromDict(env).tier == 0 || PolicyFromDict(policy).sharedResource)
      ==> d.safety <= 0.805 && d.action != AutoRemediate
    // explanations
    ensures d.breakdown.Some? ==> |d.reasons| >= 5 && d.reasons[|d.reasons| - 1] == FinalSafety(d.action)
    ensures d.breakdown.Some? ==>
      (|SimulationFromDict(simulation).warnings| <= |d.warnings|
       && d.warnings[..|SimulationFromDict(simulation).warnings|] == SimulationWarnings(SimulationFromDict(simulation).warnings))
  {
    var sim := SimulationFromDict(simulation);
    var use := UsageFromDict(usage);
    var dep := DependencyFromDict(graph);
    var hist := HistoryFromDict(history);
    var environ := EnvironmentFromDict(env);
    var pol := PolicyFromDict(policy);
    if sim.criticalPathAffected then BlockDecision(CriticalPath)
    else if dep.circularDependencies then BlockDecision(CircularDependencies)
    else
      var scores := Scores(m, sim, use, dep, hist);
      var confidence := Confidence(m, scores);
      var safety := ApplySafetyRules(confidence, sim, environ, pol);
      var action := DecideAction(safety, pol);
      if 0.0 <= sim.worstPathSeverity <= 1.0 then
        SafetyAtMostConfidenceOrBoostCap(confidence, sim, environ, pol);
        if environ.tier == 0 || pol.sharedResource then
          ProductionOrSharedCap(confidence, sim, environ, pol);
          Decision(confidence, safety, action, AutoAllowed(pol),
            Explain(sim, use, dep, hist, action, pol), Some(scores), GenerateWarnings(sim, use, dep, environ, pol))
        else
          Decision(confidence, safety, action, AutoAllowed(pol),
            Explain(sim, use, dep, hist, action, pol), Some(scores), GenerateWarnings(sim, use, dep, environ, pol))
      else
        Decision(confidence, safety, action, AutoAllowed(pol),
          Explain(sim, use, dep, hist, action, pol), Some(scores), GenerateWarnings(sim, use, dep, environ, pol))
  }

  /**
   * A caller that leaves out the environment gets the production tier, so the
   * full engine never auto-remediates then (the inline copies default to tier 2).
   */
  lemma MissingEnvironmentNeverAutoRemediates(m: Math, simulation: SimulationDict, usage: UsageDict,
      graph: GraphDict, history: HistoryDict, policy: PolicyDict)
    requires 0.0 <= SimulationFromDict(simulation).worstPathSeverity <= 1.0
    ensures Evaluate(m, simulation, usage, graph, history, EnvDict(None, None, None), policy).action != AutoRemediate
    ensures Evaluate(m, simulation, usage, graph, history, EnvDict(None, None, None), policy).safety <= 0.805
  {
    assert EnvironmentFromDict(EnvDict(None, None, None)).tier == 0;
  }
}
