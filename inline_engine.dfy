/**
 * The trimmed decision engine that the API services embed (class
 * DecisionEngine, identical in backend-engines/main.py and
 * backend-simulate-endpoint.py). It reads its inputs straight from the
 * request dictionaries with `.get` defaults, blocks only on a critical path,
 * has no cross-account, compliance or multi-region terms, and passes the
 * simulation's warnings through unchanged.
 *
 * Where a step is the same as in the full engine (usage and data scores, the
 * rollback adjustment, the thresholds and the auto permission, which read the
 * same defaults) the full engine's definition is reused.
 */
module InlineEngine {
  import opened Common
  import opened DecisionEngine

  /** simulation score: base(status) * (0.5 + 0.5 * reach), status CAUTION and reach 0.8 by default. */
  function InlineSimulationScore(sim: SimulationDict): (r: real)
    ensures 0.0 <= r <= 1.0
  {
    var base := StatusBase(GetOr(sim.status, "CAUTION"));
    var reach := Clamp01(GetOr(sim.reachabilityPreserved, 0.8));
    Clamp01(base * (0.5 + 0.5 * reach))
  }

  /** The simulation score never exceeds its status base, and an unknown status has base 0.50. */
  lemma InlineSimulationScoreBounds(sim: SimulationDict)
    ensures InlineSimulationScore(sim) <= StatusBase(GetOr(sim.status, "CAUTION"))
    ensures InlineSimulationScore(sim) >= 0.5 * StatusBase(GetOr(sim.status, "CAUTION"))
    ensures GetOr(sim.status, "CAUTION") !in {"SAFE", "CAUTION", "RISKY"} ==> StatusBase(GetOr(sim.status, "CAUTION")) == 0.50
  {
    var base := StatusBase(GetOr(sim.status, "CAUTION"));
    var reach := Clamp01(GetOr(sim.reachabilityPreserved, 0.8));
    assert 0.5 <= 0.5 + 0.5 * reach <= 1.0;
    assert base * (0.5 + 0.5 * reach) <= base * 1.0;
    assert base * (0.5 + 0.5 * reach) >= base * 0.5;
  }

  /** dependency score without the cross-account penalty. */
  function InlineDependencyScore(g: GraphDict): (r: real)
    ensures 0.0 <= r <= 1.0
  {
    var dep := DependencyFromDict(g);
    var sizePenalty := 1.0 / (1.0 + Impact(dep.impactedServices));
    Clamp01(TelemetryCoverage(dep) * EdgeCoverage(dep) * sizePenalty)
  }

  /** historical score: no similar-type bonus and no recent-failure penalty. */
  function InlineHistoricalScore(h: HistoryDict): (r: real)
    ensures 0.0 <= r <= 1.0
    ensures GetOr(h.total, 0) == 0 ==> r == 0.70
    ensures GetOr(h.successes, 0) <= GetOr(h.total, 0) ==> 0.50 <= r <= 0.90
  {
    var hist := HistoryFromDict(h);
    if hist.total == 0 then 0.70
    else
      if hist.successes <= hist.total then
        HistoricalBaseRange(hist);
        Clamp01(HistoricalBase(hist))
      else
        Clamp01(HistoricalBase(hist))
  }

  /** Safety rules: caps, rollback adjustment, change window and severity; env tier defaults to 2. */
  function InlineSafetyRules(s: real, sim: SimulationDict, env: EnvDict, pol: PolicyDict): (r: real)
    ensures 0.0 <= r <= 1.0
  {
    Clamp01(InlinePenalties(InlineCapped(s, env, pol), sim, pol))
  }

  /** The production/shared cap, the revenue cap and the rollback adjustment. */
  function InlineCapped(s: real, env: EnvDict, pol: PolicyDict): real
  {
    var s1 := if GetOr(env.tier, 2) == 0 || GetOr(pol.sharedResource, false) then MinR(s, 0.70) else s;
    var s2 := if GetOr(pol.revenueGenerating, false) then MinR(s1, 0.75) else s1;
    RollbackAdjust(s2, GetOr(pol.hasRollback, true))
  }

  /** The change-window and worst-path-severity penalties. */
  function InlinePenalties(s: real, sim: SimulationDict, pol: PolicyDict): real
  {
    var s4 := if !GetOr(pol.changeWindowOpen, true) then s * 0.70 else s;
    s4 * (1.0 - GetOr(sim.worstPathSeverity, 0.0) * 0.3)
  }

  lemma InlinePenaltiesNeverRaise(s: real, sim: SimulationDict, pol: PolicyDict)
    requires 0.0 <= s && 0.0 <= GetOr(sim.worstPathSeverity, 0.0) <= 1.0
    ensures InlinePenalties(s, sim, pol) <= s
  {
    var s4 := if !GetOr(pol.changeWindowOpen, true) then s * 0.70 else s;
    assert 0.0 <= s4 <= s;
    var f := 1.0 - GetOr(sim.worstPathSeverity, 0.0) * 0.3;
    assert 0.7 <= f <= 1.0;
    assert s4 * f <= s4 * 1.0;
  }

  lemma InlineCappedBounds(c: real, env: EnvDict, pol: PolicyDict)
    requires 0.0 <= c <= 1.0
    ensures 0.0 <= InlineCapped(c, env, pol) <= MaxR(c, 0.89)
    ensures GetOr(env.tier, 2) == 0 || GetOr(pol.sharedResource, false) ==> InlineCapped(c, env, pol) <= 0.805
  {
  }

  /** The same consequences as the full chain: safety <= max(confidence, 0.89), and <= 0.805 under a cap of 0.70. */
  lemma InlineSafetyBounds(c: real, sim: SimulationDict, env: EnvDict, pol: PolicyDict)
    requires 0.0 <= c <= 1.0
    ensures 0.0 <= GetOr(sim.worstPathSeverity, 0.0) <= 1.0 ==> InlineSafetyRules(c, sim, env, pol) <= MaxR(c, 0.89)
    ensures 0.0 <= GetOr(sim.worstPathSeverity, 0.0) <= 1.0 && (GetOr(env.tier, 2) == 0 || GetOr(pol.sharedResource, false))
      ==> InlineSafetyRules(c, sim, env, pol) <= 0.805
  {
    if 0.0 <= GetOr(sim.worstPathSeverity, 0.0) <= 1.0 {
      InlineCappedBounds(c, env, pol);
      InlinePenaltiesNeverRaise(InlineCapped(c, env, pol), sim, pol);
    }
  }

  datatype InlineReason =
    | SimulationStatus(status: string)
    | NoUsageDetected | UsageCount
    | SharedResourceCapApplied | RollbackIsAvailable
    | FinalSafetyLine(action: Action)
    | Blocked

  datatype InlineDecision = InlineDecision(
    confidence: real, safety: real, action: Action, autoAllowed: bool,
    breakdown: Breakdown, reasons: seq<InlineReason>, warnings: seq<string>)

  function InlineExplain(sim: SimulationDict, usage: UsageDict, action: Action, pol: PolicyDict): (r: seq<InlineReason>)
    ensures 3 <= |r| <= 5
    ensures r[0] == SimulationStatus(GetOr(sim.status, "CAUTION"))
    ensures r[1] == NoUsageDetected <==> GetOr(usage.usagePattern, "MEDIUM") == "NONE"
    ensures r[1] == NoUsageDetected || r[1] == UsageCount
    ensures r[|r| - 1] == FinalSafetyLine(action)
    ensures (SharedResourceCapApplied in r <==> GetOr(pol.sharedResource, false))
    ensures (RollbackIsAvailable in r <==> GetOr(pol.hasRollback, true))
  {
    var usageLine := if GetOr(usage.usagePattern, "MEDIUM") == "NONE" then NoUsageDetected else UsageCount;
    [SimulationStatus(GetOr(sim.status, "CAUTION")), usageLine]
      + (if GetOr(pol.sharedResource, false) then [SharedResourceCapApplied] else [])
      + (if GetOr(pol.hasRollback, true) then [RollbackIsAvailable] else [])
      + [FinalSafetyLine(action)]
  }

  const ZeroBreakdown := Breakdown(0.0, 0.0, 0.0, 0.0, 0.0)
  /** The block reason, which a blocked decision also reports as its only warning. */
  const CriticalPathText := "Critical path affected"

  function InlineScores(m: Math, simulation: SimulationDict, usage: UsageDict, graph: GraphDict,
                        history: HistoryDict): (b: Breakdown)
    ensures InUnit(b)
  {
    Breakdown(InlineSimulationScore(simulation), UsageScore(m, UsageFromDict(usage)),
      DataScore(m, UsageFromDict(usage), DependencyFromDict(graph)), InlineDependencyScore(graph),
      InlineHistoricalScore(history))
  }

  /** evaluate of the inline engine. */
  function InlineEvaluate(m: Math, simulation: SimulationDict, usage: UsageDict, graph: GraphDict,
                          history: HistoryDict, env: EnvDict, policy: PolicyDict): (d: InlineDecision)
    ensures 0.0 <= d.confidence <= 1.0 && 0.0 <= d.safety <= 1.0 && InUnit(d.breakdown)
    // only the critical path blocks; circular dependencies are not looked at
    ensures GetOr(simulation.criticalPathAffected, false) ==>
      d == InlineDecision(0.0, 0.0, Block, false, ZeroBreakdown, [Blocked], [CriticalPathText])
    ensures d.autoAllowed <==> !GetOr(simulation.criticalPathAffected, false) && AutoAllowed(PolicyFromDict(policy))
    ensures d.action == AutoRemediate ==> d.autoAllowed && d.safety >= ThresholdAuto
    ensures !GetOr(simulation.criticalPathAffected, false) ==>
      d.warnings == GetOr(simulation.warnings, [])
      && |d.reasons| >= 3 && d.reasons[|d.reasons| - 1] == FinalSafetyLine(d.action)
      && d.action == DecideAction(d.safety, PolicyFromDict(policy))
    ensures 0.0 <= GetOr(simulation.worstPathSeverity, 0.0) <= 1.0 ==> d.safety <= MaxR(d.confidence, 0.89)
  {
    if GetOr(simulation.criticalPathAffected, false) then
      InlineDecision(0.0, 0.0, Block, false, ZeroBreakdown, [Blocked], [CriticalPathText])
    else
      var scores := InlineScores(m, simulation, usage, graph, history);
      var confidence := Confidence(m, scores);
      var safety := InlineSafetyRules(confidence, simulation, env, policy);
      var action := DecideAction(safety, PolicyFromDict(policy));
      InlineSafetyBounds(confidence, simulation, env, policy);
      InlineDecision(confidence, safety, action, AutoAllowed(PolicyFromDict(policy)), scores,
        InlineExplain(simulation, usage, action, policy), GetOr(simulation.warnings, []))
  }

  /**
   * Circular dependencies, which block the full engine, do not block the
   * inline engine: it goes on to score the request.
   */
  lemma CircularDependenciesDoNotBlock(m: Math, simulation: SimulationDict, usage: UsageDict, graph: GraphDict,
                                       history: HistoryDict, env: EnvDict, policy: PolicyDict)
    requires !GetOr(simulation.criticalPathAffected, false)
    requires GetOr(graph.circularDependencies, false)
    ensures InlineEvaluate(m, simulation, usage, graph, history, env, policy).breakdown
      == InlineScores(m, simulation, usage, graph, history)
    ensures Evaluate(m, simulation, usage, graph, history, env, policy) == BlockDecision(CircularDependencies)
  {
  }

  /** `int(confidence * 100)`: truncation of a non-negative value, so 0..100 for a confidence in [0,1]. */
  function LegacyConfidence(confidence: real): (r: int)
    requires 0.0 <= confidence <= 1.0
    ensures 0 <= r <= 100
    ensures r as real <= confidence * 100.0 < r as real + 1.0
  {
    (confidence * 100.0).Floor
  }

  /** The policy /api/simulate (main.py) passes: rollback on, change window open, nothing else. */
  const MainSimulatePolicy := PolicyDict(None, None, Some(true), Some(true), None)
  /** The policy /api/simulate (backend-simulate-endpoint.py) passes: tier 2, not shared. */
  const EndpointSimulatePolicy := PolicyDict(Some(false), Some(false), Some(true), Some(true), Some(2))

  /** Neither simulate endpoint's policy forbids auto-remediation. */
  lemma SimulatePoliciesAllowAuto()
    ensures AutoAllowed(PolicyFromDict(MainSimulatePolicy))
    ensures AutoAllowed(PolicyFromDict(EndpointSimulatePolicy))
  {
  }

  /** The fixed simulation of /api/simulate (status SAFE, reach 0.94) scores 0.95 * 0.97. */
  lemma SimulateEndpointSimulationScore(sim: SimulationDict)
    requires sim.status == Some("SAFE") && sim.reachabilityPreserved == Some(0.94)
    ensures InlineSimulationScore(sim) == 0.9215
  {
  }

  /**
   * With a non-blocking simulation, the endpoints' policies let the engine
   * reach AUTO_REMEDIATE exactly when safety reaches 0.90, and the legacy
   * confidence they report lies in 0..100.
   */
  lemma SimulateEndpointDecision(m: Math, simulation: SimulationDict, usage: UsageDict, graph: GraphDict,
                                 history: HistoryDict, env: EnvDict, policy: PolicyDict)
    requires policy == MainSimulatePolicy || policy == EndpointSimulatePolicy
    requires !GetOr(simulation.criticalPathAffected, false)
    ensures var d := InlineEvaluate(m, simulation, usage, graph, history, env, policy);
      d.autoAllowed && (d.action == AutoRemediate <==> d.safety >= ThresholdAuto)
      && 0 <= LegacyConfidence(d.confidence) <= 100
  {
    SimulatePoliciesAllowAuto();
  }
}
