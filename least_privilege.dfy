/**
 * The least-privilege engine (backend-engines/least_privilege_engine.py):
 * risk assessment of an IAM action against the high-risk patterns, usage
 * classification of a permission, the classification confidence, the
 * per-identity analysis (status counts, LP score, recommendations) and
 * the component scores of the enforcement confidence.
 *
 * Dates are given as "days ago"; the weighted geometric mean of
 * calculate_confidence and the snapshot hashing are not modelled.
 */
module LeastPrivilege {
  import opened Common

  datatype PermissionStatus = ActiveRequired | ActiveAnomalous | InactiveNeeded | InactiveSafe

  datatype RiskLevel = Critical | High | Medium | Low

  datatype EnforcementAction = AutoApply | CanaryRollout | ApprovalRequired | ManualOnly | Blocked

  /** One entry of risk_reasons: a matched high-risk pattern, or the wildcard resource. */
  datatype RiskReason = MatchesHighRiskPattern(pattern: string) | WildcardResource

  const HighRiskPatterns: seq<string> := [
    "iam:PassRole", "iam:CreateRole", "iam:PutRolePolicy", "iam:AttachRolePolicy",
    "*:Delete*", "*:Terminate*", "s3:DeleteBucket", "rds:DeleteDBInstance",
    "ec2:TerminateInstances", "lambda:DeleteFunction", "dynamodb:DeleteTable",
    "Admin", "Full", "*:*"]

  const ThresholdAutoApply: real := 0.90
  const ThresholdCanary: real := 0.75
  const ThresholdApproval: real := 0.60

  // ---------------------------------------------------------------------
  // Pattern matching and risk assessment
  // ---------------------------------------------------------------------

  /** Python `s.split(c)` for a one-character separator. */
  function SplitOn(s: string, c: char): (parts: seq<string>)
    ensures |parts| >= 1
    ensures forall i :: 0 <= i < |parts| ==> c !in parts[i]
  {
    if s == [] then [""]
    else
      var rest := SplitOn(s[1..], c);
      if s[0] == c then [""] + rest
      else [[s[0]] + rest[0]] + rest[1..]
  }

  /**
   * _matches_pattern: a pattern with '*' matches when each non-empty piece
   * between the stars occurs in the action (in any order); any other
   * pattern matches as a substring.
   */
  predicate MatchesPattern(permission: string, pattern: string)
  {
    if '*' in pattern then
      var parts := SplitOn(pattern, '*');
      forall i :: 0 <= i < |parts| && parts[i] != "" ==> Contains(permission, parts[i])
    else Contains(permission, pattern)
  }

  /** A string without the separator is one piece. */
  lemma {:induction false} SplitTrailing(piece: string, c: char)
    requires c !in piece
    ensures SplitOn(piece + [c], c) == [piece, ""]
  {
    if piece == [] {
      assert piece + [c] == [c];
      assert [c][1..] == [];
    } else {
      assert (piece + [c])[1..] == piece[1..] + [c];
      SplitTrailing(piece[1..], c);
      assert [piece[0]] + piece[1..] == piece;
    }
  }

  /** A star-surrounded piece splits into "", the piece, "". */
  lemma SplitSurrounded(piece: string, c: char)
    requires c !in piece
    ensures SplitOn([c] + piece + [c], c) == ["", piece, ""]
  {
    assert ([c] + piece + [c])[1..] == piece + [c];
    SplitTrailing(piece, c);
  }

  /** A pattern `*piece*` matches exactly the actions holding the piece. */
  lemma StarPieceStar(permission: string, piece: string)
    requires '*' !in piece && piece != ""
    ensures MatchesPattern(permission, ['*'] + piece + ['*']) <==> Contains(permission, piece)
  {
    var pattern := ['*'] + piece + ['*'];
    assert pattern[0] == '*';
    SplitSurrounded(piece, '*');
    var parts := SplitOn(pattern, '*');
    assert parts[1] == piece && parts[0] == "" && parts[2] == "";
  }

  /** "*:*" splits into "", ":" and "", so it matches every action holding a colon. */
  lemma StarColonStarMatchesEveryServiceAction(permission: string)
    ensures MatchesPattern(permission, "*:*") <==> Contains(permission, ":")
  {
    assert "*:*" == ['*'] + ":" + ['*'];
    StarPieceStar(permission, ":");
  }

  /** The reasons _assess_risk collects, in pattern order, then the wildcard resource. */
  function RiskReasons(permission: string, resource: string): (r: seq<RiskReason>)
    ensures WildcardResource in r <==> resource == "*"
  {
    MatchedPatterns(permission, HighRiskPatterns) + (if resource == "*" then [WildcardResource] else [])
  }

  /** The pattern reasons are exactly the high-risk patterns the permission matches. */
  lemma RiskReasonsExactly(permission: string, resource: string)
    ensures forall p :: MatchesHighRiskPattern(p) in RiskReasons(permission, resource) <==>
      p in HighRiskPatterns && MatchesPattern(permission, p)
  {
    MatchedPatternsExactly(permission, HighRiskPatterns);
  }

  function MatchedPatterns(permission: string, patterns: seq<string>): (r: seq<RiskReason>)
    ensures |r| <= |patterns|
    ensures forall x :: x in r ==> x.MatchesHighRiskPattern?
  {
    if patterns == [] then []
    else
      var last := patterns[|patterns| - 1];
      MatchedPatterns(permission, patterns[..|patterns| - 1])
        + (if MatchesPattern(permission, last) then [MatchesHighRiskPattern(last)] else [])
  }

  /** One reason for each listed pattern the permission matches, and no other. */
  lemma {:induction false} MatchedPatternsExactly(permission: string, patterns: seq<string>)
    ensures forall p :: MatchesHighRiskPattern(p) in MatchedPatterns(permission, patterns) <==>
      p in patterns && MatchesPattern(permission, p)
  {
    if patterns != [] {
      var init, last := patterns[..|patterns| - 1], patterns[|patterns| - 1];
      MatchedPatternsExactly(permission, init);
      assert init + [last] == patterns;
    }
  }

  /** Whether some reason's text mentions the keyword; the fixed prefix of the text mentions none. */
  predicate Mentions(reasons: seq<RiskReason>, keyword: string)
  {
    exists i :: 0 <= i < |reasons| && reasons[i].MatchesHighRiskPattern? && Contains(reasons[i].pattern, keyword)
  }

  /** The level _assess_risk derives from the reasons and the action's suffix. */
  function LevelOf(permission: string, reasons: seq<RiskReason>): RiskLevel
  {
    if Mentions(reasons, "PassRole") || Mentions(reasons, "Admin") || Mentions(reasons, "*:*") then Critical
    else if Mentions(reasons, "Delete") || Mentions(reasons, "Terminate") then High
    else if EndsWith(permission, ":Put*") || EndsWith(permission, ":Create*") then Medium
    else Low
  }

  /** _assess_risk: scans the high-risk patterns in order. */
  method AssessRisk(permission: string, resource: string) returns (level: RiskLevel, reasons: seq<RiskReason>)
    ensures reasons == RiskReasons(permission, resource)
    ensures level == LevelOf(permission, reasons)
  {
    reasons := MatchPatterns(permission, HighRiskPatterns);
    if resource == "*" {
      reasons := reasons + [WildcardResource];
    }
    level := LevelOf(permission, reasons);
  }

  /** The pattern loop of _assess_risk, in order. */
  method MatchPatterns(permission: string, patterns: seq<string>) returns (reasons: seq<RiskReason>)
    ensures reasons == MatchedPatterns(permission, patterns)
  {
    reasons := [];
    var i := 0;
    while i < |patterns|
      invariant 0 <= i <= |patterns|
      invariant reasons == MatchedPatterns(permission, patterns[..i])
    {
      assert patterns[..i + 1][..i] == patterns[..i];
      if MatchesPattern(permission, patterns[i]) {
        reasons := reasons + [MatchesHighRiskPattern(patterns[i])];
      }
      i := i + 1;
    }
    assert patterns[..i] == patterns;
  }

  lemma ContainsItself(s: string)
    ensures Contains(s, s)
  {
    assert s[..|s|] == s;
  }

  /**
   * Because "*:*" matches every action with a colon, every `service:Action`
   * is CRITICAL whatever its name, and so is any action holding "Admin".
   */
  lemma ServiceActionsAreCritical(permission: string, resource: string)
    ensures Contains(permission, ":") || Contains(permission, "Admin") ==>
      LevelOf(permission, RiskReasons(permission, resource)) == Critical
  {
    if Contains(permission, ":") {
      ColonActionIsCritical(permission, resource);
    } else if Contains(permission, "Admin") {
      AdminActionIsCritical(permission, resource);
    }
  }

  /** An action with a colon matches "*:*", so its reasons name that pattern. */
  lemma ColonActionIsCritical(permission: string, resource: string)
    requires Contains(permission, ":")
    ensures Mentions(RiskReasons(permission, resource), "*:*")
  {
    var reasons := RiskReasons(permission, resource);
    RiskReasonsExactly(permission, resource);
    StarColonStarMatchesEveryServiceAction(permission);
    assert MatchesHighRiskPattern("*:*") in reasons;
    ContainsItself("*:*");
    var i :| 0 <= i < |reasons| && reasons[i] == MatchesHighRiskPattern("*:*");
  }

  /** An action holding "Admin" matches the "Admin" pattern, so its reasons name it. */
  lemma AdminActionIsCritical(permission: string, resource: string)
    requires Contains(permission, "Admin")
    ensures Mentions(RiskReasons(permission, resource), "Admin")
  {
    var reasons := RiskReasons(permission, resource);
    RiskReasonsExactly(permission, resource);
    assert MatchesPattern(permission, "Admin") by {
      assert '*' !in "Admin";
    }
    assert MatchesHighRiskPattern("Admin") in reasons;
    ContainsItself("Admin");
    var i :| 0 <= i < |reasons| && reasons[i] == MatchesHighRiskPattern("Admin");
  }

  // ---------------------------------------------------------------------
  // Usage classification
  // ---------------------------------------------------------------------

  /**
   * The `last_used` entry: missing or empty, a timestamp this many days
   * ago, or a value that fails to parse as a timestamp.
   */
  datatype LastUsed = NeverUsed | UsedDaysAgo(days: int) | Unparseable

  /** _classify_by_usage. */
  function ClassifyByUsage(lastUsed: LastUsed, usageCount: int, observationDays: int, risk: RiskLevel)
    : (status: PermissionStatus)
    ensures lastUsed == NeverUsed && usageCount == 0 ==>
      status == (if observationDays >= 90 then InactiveSafe else InactiveNeeded)
    ensures lastUsed.UsedDaysAgo? && lastUsed.days <= 7 ==> status == ActiveRequired
    ensures status == InactiveSafe <==>
      (lastUsed == NeverUsed && usageCount == 0 && observationDays >= 90)
      || (lastUsed.UsedDaysAgo? && lastUsed.days > 90 && risk != Critical)
    ensures status == ActiveAnomalous <==> lastUsed.UsedDaysAgo? && 7 < lastUsed.days <= 30 && usageCount < 5
    ensures status == ActiveRequired <==>
      lastUsed.UsedDaysAgo? && (lastUsed.days <= 7 || (lastUsed.days <= 30 && usageCount >= 5))
    // a permission that was ever used, or whose last use is unknown, is never safe to remove within 90 days
    ensures lastUsed.UsedDaysAgo? && lastUsed.days <= 90 ==> status != InactiveSafe
    ensures lastUsed == Unparseable ==> status == InactiveNeeded
  {
    if lastUsed == NeverUsed && usageCount == 0 then
      if observationDays >= 90 then InactiveSafe else InactiveNeeded
    else
      match lastUsed
      case UsedDaysAgo(days) =>
        if days <= 7 then ActiveRequired
        else if days <= 30 then (if usageCount < 5 then ActiveAnomalous else ActiveRequired)
        else if days <= 90 then InactiveNeeded
        else if risk == Critical then InactiveNeeded
        else InactiveSafe
      case _ => InactiveNeeded
  }

  /** Critical permissions are never classified safe to remove once used. */
  lemma CriticalUsedIsNeverSafe(days: int, usageCount: int, observationDays: int)
    ensures ClassifyByUsage(UsedDaysAgo(days), usageCount, observationDays, Critical) != InactiveSafe
  {
  }

  /** The data-quality factor of _classification_confidence. */
  function QualityFactor(observationDays: int, hasLastUsed: bool, hasUsage: bool): (q: real)
    ensures q in {0.95, 0.90, 0.60}
  {
    if !hasUsage && observationDays >= 90 then 0.95
    else if hasLastUsed then 0.90
    else 0.60
  }

  /** _classification_confidence. */
  function ClassificationConfidence(observationDays: int, sourcesCount: int, hasLastUsed: bool, hasUsage: bool)
    : (c: real)
    ensures 0.0 <= c <= 1.0
    ensures observationDays >= 90 && sourcesCount >= 3 ==>
      c == 0.7 + 0.3 * QualityFactor(observationDays, hasLastUsed, hasUsage)
  {
    var timeFactor := MinR(1.0, observationDays as real / 90.0);
    var sourceFactor := MinR(1.0, sourcesCount as real / 3.0);
    var qualityFactor := QualityFactor(observationDays, hasLastUsed, hasUsage);
    Clamp01(timeFactor * 0.4 + sourceFactor * 0.3 + qualityFactor * 0.3)
  }

  /** More observation days never lower the classification confidence. */
  lemma ConfidenceMonotoneInDays(d1: int, d2: int, sourcesCount: int, hasLastUsed: bool, hasUsage: bool)
    requires d1 <= d2
    ensures ClassificationConfidence(d1, sourcesCount, hasLastUsed, hasUsage)
      <= ClassificationConfidence(d2, sourcesCount, hasLastUsed, hasUsage)
  {
    assert QualityFactor(d1, hasLastUsed, hasUsage) <= QualityFactor(d2, hasLastUsed, hasUsage);
    assert MinR(1.0, d1 as real / 90.0) <= MinR(1.0, d2 as real / 90.0);
  }

  /** One permission's entry of the usage data; absent keys take the source's defaults. */
  datatype PermissionUsage = PermissionUsage(
    lastUsed: LastUsed, usageCount90d: Option<int>, observationDays: Option<int>,
    sourcesCount: Option<int>, requiredByServices: Option<seq<string>>, usedInCriticalPath: Option<bool>)

  const EmptyUsage := PermissionUsage(NeverUsed, None, None, None, None, None)

  datatype Permission = Permission(
    action: string, resource: string, status: PermissionStatus, lastUsed: LastUsed, usageCount90d: int,
    riskLevel: RiskLevel, riskReasons: seq<RiskReason>, requiredByServices: seq<string>,
    usedInCriticalPath: bool, classificationConfidence: real)

  /** The usage data of one action: `usage_data.get(action, {})`. */
  function UsageOf(action: string, usageData: map<string, PermissionUsage>): PermissionUsage
  {
    if action in usageData then usageData[action] else EmptyUsage
  }

  /** The permission classify_permission builds, field by field from the helper functions. */
  function ClassifiedPermission(permission: string, resource: string, usage: PermissionUsage): Permission
  {
    var usageCount := GetOr(usage.usageCount90d, 0);
    var observationDays := GetOr(usage.observationDays, 0);
    var reasons := RiskReasons(permission, resource);
    var level := LevelOf(permission, reasons);
    Permission(permission, resource, ClassifyByUsage(usage.lastUsed, usageCount, observationDays, level),
               usage.lastUsed, usageCount, level, reasons, GetOr(usage.requiredByServices, []),
               GetOr(usage.usedInCriticalPath, false),
               ClassificationConfidence(observationDays, GetOr(usage.sourcesCount, 1),
                                        usage.lastUsed != NeverUsed, usageCount > 0))
  }

  /** The permission analyze_identity builds for one entry, with the entry's usage. */
  function ClassifiedEntry(e: PermissionEntry, usageData: map<string, PermissionUsage>): Permission
  {
    ClassifiedPermission(e.action, GetOr(e.resource, "*"), UsageOf(e.action, usageData))
  }

  /** The permissions analyze_identity builds, one per entry in order. */
  function ClassifiedAll(entries: seq<PermissionEntry>, usageData: map<string, PermissionUsage>)
    : (perms: seq<Permission>)
    ensures |perms| == |entries|
  {
    if entries == [] then []
    else ClassifiedAll(entries[..|entries| - 1], usageData) + [ClassifiedEntry(entries[|entries| - 1], usageData)]
  }

  /** Entry i of the analysis is the classification of entry i with its usage. */
  lemma {:induction false} ClassifiedAllAt(entries: seq<PermissionEntry>, usageData: map<string, PermissionUsage>, i: int)
    requires 0 <= i < |entries|
    ensures ClassifiedAll(entries, usageData)[i] == ClassifiedEntry(entries[i], usageData)
  {
    if i < |entries| - 1 {
      var init := entries[..|entries| - 1];
      ClassifiedAllAt(init, usageData, i);
      assert init[i] == entries[i];
    }
  }

  /** Each permission keeps its entry's action and its resource, "*" when absent. */
  lemma ClassifiedAllKeys(entries: seq<PermissionEntry>, usageData: map<string, PermissionUsage>)
    ensures forall i :: 0 <= i < |entries| ==>
      ClassifiedAll(entries, usageData)[i].action == entries[i].action
      && ClassifiedAll(entries, usageData)[i].resource == GetOr(entries[i].resource, "*")
  {
    forall i | 0 <= i < |entries|
      ensures ClassifiedAll(entries, usageData)[i].action == entries[i].action
      ensures ClassifiedAll(entries, usageData)[i].resource == GetOr(entries[i].resource, "*")
    {
      ClassifiedAllAt(entries, usageData, i);
    }
  }

  /** classify_permission. */
  method ClassifyPermission(permission: string, resource: string, usage: PermissionUsage)
    returns (p: Permission)
    ensures p == ClassifiedPermission(permission, resource, usage)
    ensures p.action == permission && p.resource == resource && p.lastUsed == usage.lastUsed
    ensures p.riskReasons == RiskReasons(permission, resource) && p.riskLevel == LevelOf(permission, p.riskReasons)
    ensures p.usageCount90d == GetOr(usage.usageCount90d, 0)
    ensures p.status == ClassifyByUsage(usage.lastUsed, p.usageCount90d, GetOr(usage.observationDays, 0), p.riskLevel)
    ensures p.classificationConfidence == ClassificationConfidence(GetOr(usage.observationDays, 0),
      GetOr(usage.sourcesCount, 1), usage.lastUsed != NeverUsed, p.usageCount90d > 0)
    ensures 0.0 <= p.classificationConfidence <= 1.0
    ensures p.requiredByServices == GetOr(usage.requiredByServices, [])
      && p.usedInCriticalPath == GetOr(usage.usedInCriticalPath, false)
  {
    var usageCount := GetOr(usage.usageCount90d, 0);
    var observationDays := GetOr(usage.observationDays, 0);
    var level, reasons := AssessRisk(permission, resource);
    var status := ClassifyByUsage(usage.lastUsed, usageCount, observationDays, level);
    var confidence := ClassificationConfidence(observationDays, GetOr(usage.sourcesCount, 1),
                                               usage.lastUsed != NeverUsed, usageCount > 0);
    p := Permission(permission, resource, status, usage.lastUsed, usageCount, level, reasons,
                    GetOr(usage.requiredByServices, []), GetOr(usage.usedInCriticalPath, false), confidence);
  }

  /** Any service action that has gone unused is kept (INACTIVE_NEEDED), never offered for removal, once it was used. */
  lemma UsedServiceActionsAreNeverSafe(permission: string, resource: string, days: int, usageCount: int,
                                       observationDays: int)
    requires Contains(permission, ":")
    ensures ClassifyByUsage(UsedDaysAgo(days), usageCount, observationDays,
                            LevelOf(permission, RiskReasons(permission, resource))) != InactiveSafe
  {
    ServiceActionsAreCritical(permission, resource);
  }

  // ---------------------------------------------------------------------
  // Identity analysis
  // ---------------------------------------------------------------------

  /** Number of permissions with the given status. */
  function CountStatus(perms: seq<Permission>, status: PermissionStatus): (n: nat)
    ensures n <= |perms|
  {
    CountWhere(perms, (x: Permission) => x.status == status)
  }

  /** No permission has the status exactly when the count is 0, and all have it exactly when it is the length. */
  lemma {:induction false} CountStatusExtremes(perms: seq<Permission>, status: PermissionStatus)
    ensures CountStatus(perms, status) == 0 <==> forall i :: 0 <= i < |perms| ==> perms[i].status != status
    ensures CountStatus(perms, status) == |perms| <==> forall i :: 0 <= i < |perms| ==> perms[i].status == status
  {
    CountWhereExtremes(perms, (x: Permission) => x.status == status);
  }

  /** The four status counts add up to the number of permissions. */
  lemma {:induction false} StatusCountsPartition(perms: seq<Permission>)
    ensures CountStatus(perms, ActiveRequired) + CountStatus(perms, ActiveAnomalous)
      + CountStatus(perms, InactiveNeeded) + CountStatus(perms, InactiveSafe) == |perms|
  {
    if perms != [] {
      StatusCountsPartition(perms[..|perms| - 1]);
    }
  }

  /** _calculate_lp_score. */
  function LpScore(perms: seq<Permission>): (score: real)
    ensures 0.0 <= score <= 100.0
    ensures perms == [] ==> score == 100.0
  {
    if perms == [] then 100.0
    else
      var n := |perms| as real;
      var score := (CountStatus(perms, ActiveRequired) as real / n) * 100.0;
      var penalty := ((CountStatus(perms, InactiveNeeded) + CountStatus(perms, ActiveAnomalous)) as real / n) * 20.0;
      MaxR(0.0, MinR(100.0, score - penalty))
  }

  /**
   * The score is 100 exactly when every permission is ACTIVE_REQUIRED; an
   * identity whose permissions are all INACTIVE_SAFE scores 0, not 100 as
   * the formula's comment suggests.
   */
  lemma LpScoreExtremes(perms: seq<Permission>)
    requires perms != []
    ensures LpScore(perms) == 100.0 <==> forall i :: 0 <= i < |perms| ==> perms[i].status == ActiveRequired
    ensures (forall i :: 0 <= i < |perms| ==> perms[i].status == InactiveSafe) ==> LpScore(perms) == 0.0
  {
    StatusCountsPartition(perms);
    CountStatusExtremes(perms, ActiveRequired);
    LpScoreArithmetic(CountStatus(perms, ActiveRequired),
                      CountStatus(perms, InactiveNeeded) + CountStatus(perms, ActiveAnomalous), |perms|);
  }

  /** The arithmetic of the score: it reaches 100 only at a full share, and a zero share with no penalty is 0. */
  lemma LpScoreArithmetic(ar: nat, other: nat, n: nat)
    requires 0 < n && ar + other <= n
    ensures var v := MaxR(0.0, MinR(100.0, (ar as real / n as real) * 100.0 - (other as real / n as real) * 20.0));
      (v == 100.0 <==> ar == n) && (ar == 0 ==> v == 0.0)
  {
    var share := ar as real / n as real;
    var penalty := (other as real / n as real) * 20.0;
    QuotientTimesDivisor(share, ar as real, n as real);
    assert 0.0 <= penalty;
    if ar == n {
      assert share == 1.0;
      assert other == 0 && penalty == 0.0;
    } else {
      assert share < 1.0;
    }
  }

  /** One classified permission per input entry, in order: the `action` and `resource` (default "*") keys. */
  datatype PermissionEntry = PermissionEntry(action: string, resource: Option<string>)

  datatype StatusCounts = StatusCounts(activeRequired: nat, activeAnomalous: nat, inactiveNeeded: nat, inactiveSafe: nat)

  datatype RecommendationKind = RemoveHighRisk | RemoveAllUnused | InvestigateAnomalous

  /** A recommendation: the permissions it names, its confidence and its enforcement action. */
  datatype Recommendation = Recommendation(
    kind: RecommendationKind, permissions: seq<string>, confidence: real, action: EnforcementAction)

  datatype Analysis = Analysis(
    identityId: string, identityType: string, totalPermissions: nat, lpScore: real,
    statusCounts: StatusCounts, permissions: seq<Permission>, recommendations: seq<Recommendation>)

  /** analyze_identity: classifies each entry with its usage (empty when absent), then aggregates. */
  method AnalyzeIdentity(identityId: string, identityType: string, entries: seq<PermissionEntry>,
                         usageData: map<string, PermissionUsage>, context: Option<SystemContext>)
    returns (a: Analysis)
    ensures |a.permissions| == |entries| && a.totalPermissions == |entries|
    ensures a.permissions == ClassifiedAll(entries, usageData)
    ensures forall i :: 0 <= i < |entries| ==>
      a.permissions[i].action == entries[i].action && a.permissions[i].resource == GetOr(entries[i].resource, "*")
    ensures a.statusCounts == StatusCounts(CountStatus(a.permissions, ActiveRequired),
      CountStatus(a.permissions, ActiveAnomalous), CountStatus(a.permissions, InactiveNeeded),
      CountStatus(a.permissions, InactiveSafe))
    ensures a.statusCounts.activeRequired + a.statusCounts.activeAnomalous + a.statusCounts.inactiveNeeded
      + a.statusCounts.inactiveSafe == a.totalPermissions
    ensures a.lpScore == LpScore(a.permissions)
    ensures a.recommendations == Recommendations(a.permissions, context)
  {
    var perms := ClassifyEntries(entries, usageData);
    ClassifiedAllKeys(entries, usageData);
    var counts := CountAll(perms);
    StatusCountsPartition(perms);
    a := Analysis(identityId, identityType, |perms|, LpScore(perms), counts, perms, Recommendations(perms, context));
  }

  /** The classification loop of analyze_identity: one permission per entry, in order. */
  method ClassifyEntries(entries: seq<PermissionEntry>, usageData: map<string, PermissionUsage>)
    returns (perms: seq<Permission>)
    ensures |perms| == |entries|
    ensures perms == ClassifiedAll(entries, usageData)
  {
    ghost var spec := ClassifiedAll(entries, usageData);
    perms := [];
    var i := 0;
    while i < |entries|
      invariant 0 <= i <= |entries| && perms == spec[..i]
    {
      var p := ClassifyEntry(entries[i], usageData);
      ClassifiedAllAt(entries, usageData, i);
      PrefixSnoc(spec, i);
      perms := perms + [p];
      i := i + 1;
    }
  }

  /** One entry of the loop: its usage, empty when absent, and its classification. */
  method ClassifyEntry(e: PermissionEntry, usageData: map<string, PermissionUsage>) returns (p: Permission)
    ensures p == ClassifiedEntry(e, usageData)
    ensures p.action == e.action && p.resource == GetOr(e.resource, "*")
    ensures p.usageCount90d == GetOr(UsageOf(e.action, usageData).usageCount90d, 0)
    ensures e.action !in usageData ==> p.lastUsed == NeverUsed && p.usageCount90d == 0
  {
    var usage := if e.action in usageData then usageData[e.action] else EmptyUsage;
    p := ClassifyPermission(e.action, GetOr(e.resource, "*"), usage);
  }

  /** The status_counts loop of analyze_identity. */
  method CountAll(perms: seq<Permission>) returns (counts: StatusCounts)
    ensures counts == StatusCounts(CountStatus(perms, ActiveRequired), CountStatus(perms, ActiveAnomalous),
                                   CountStatus(perms, InactiveNeeded), CountStatus(perms, InactiveSafe))
  {
    counts := StatusCounts(0, 0, 0, 0);
    var i := 0;
    while i < |perms|
      invariant 0 <= i <= |perms|
      invariant counts == StatusCounts(CountStatus(perms[..i], ActiveRequired), CountStatus(perms[..i], ActiveAnomalous),
                                       CountStatus(perms[..i], InactiveNeeded), CountStatus(perms[..i], InactiveSafe))
    {
      assert perms[..i + 1][..i] == perms[..i];
      match perms[i].status {
      case ActiveRequired => counts := counts.(activeRequired := counts.activeRequired + 1);
      case ActiveAnomalous => counts := counts.(activeAnomalous := counts.activeAnomalous + 1);
      case InactiveNeeded => counts := counts.(inactiveNeeded := counts.inactiveNeeded + 1);
      case InactiveSafe => counts := counts.(inactiveSafe := counts.inactiveSafe + 1);
      }
      i := i + 1;
    }
    assert perms[..i] == perms;
  }

  // ---------------------------------------------------------------------
  // Recommendations and enforcement action
  // ---------------------------------------------------------------------

  /** The system context fields the engine reads. */
  datatype SystemContext = SystemContext(
    tier: string, revenueGenerating: bool, complianceFrameworks: seq<string>,
    identities: seq<string>, resources: seq<string>, dependsOn: seq<string>, dependedBy: seq<string>)

  function SumConfidence(perms: seq<Permission>): real
  {
    if perms == [] then 0.0 else SumConfidence(perms[..|perms| - 1]) + perms[|perms| - 1].classificationConfidence
  }

  predicate ConfidencesInUnit(perms: seq<Permission>)
  {
    forall i :: 0 <= i < |perms| ==> 0.0 <= perms[i].classificationConfidence <= 1.0
  }

  lemma {:induction false} SumConfidenceBounds(perms: seq<Permission>)
    requires ConfidencesInUnit(perms)
    ensures 0.0 <= SumConfidence(perms) <= |perms| as real
  {
    if perms != [] {
      SumConfidenceBounds(perms[..|perms| - 1]);
    }
  }

  /** _avg_confidence: 0 for no permissions, otherwise the mean, which stays in [0,1]. */
  function AvgConfidence(perms: seq<Permission>): (r: real)
    ensures perms == [] ==> r == 0.0
    ensures ConfidencesInUnit(perms) ==> 0.0 <= r <= 1.0
  {
    if perms == [] then 0.0
    else
      if ConfidencesInUnit(perms) then
        SumConfidenceBounds(perms);
        SumConfidence(perms) / |perms| as real
      else SumConfidence(perms) / |perms| as real
  }

  /** The average times the number of permissions is the sum of their confidences. */
  lemma AvgConfidenceIsMean(perms: seq<Permission>)
    requires perms != []
    ensures AvgConfidence(perms) * (|perms| as real) == SumConfidence(perms)
  {
    QuotientTimesDivisor(AvgConfidence(perms), SumConfidence(perms), |perms| as real);
  }

  /** The confidence after the context's reductions: production 0.85, revenue 0.90, compliance 0.95. */
  function AdjustedConfidence(confidence: real, context: Option<SystemContext>): real
  {
    match context
    case None => confidence
    case Some(ctx) =>
      var c1 := if ctx.tier == "PRODUCTION" then confidence * 0.85 else confidence;
      var c2 := if ctx.revenueGenerating then c1 * 0.90 else c1;
      if |ctx.complianceFrameworks| > 0 then c2 * 0.95 else c2
  }

  function ActionRank(a: EnforcementAction): nat
  {
    match a
    case Blocked => 0
    case ManualOnly => 1
    case ApprovalRequired => 2
    case CanaryRollout => 3
    case AutoApply => 4
  }

  /** _determine_action: thresholds 0.90 / 0.75 / 0.60 on the adjusted confidence; never BLOCKED. */
  function DetermineAction(confidence: real, context: Option<SystemContext>): (a: EnforcementAction)
    ensures a != Blocked
    ensures a == AutoApply <==> AdjustedConfidence(confidence, context) >= ThresholdAutoApply
    ensures ActionRank(a) >= ActionRank(CanaryRollout) <==> AdjustedConfidence(confidence, context) >= ThresholdCanary
    ensures ActionRank(a) >= ActionRank(ApprovalRequired) <==> AdjustedConfidence(confidence, context) >= ThresholdApproval
  {
    var adjusted := AdjustedConfidence(confidence, context);
    if adjusted >= ThresholdAutoApply then AutoApply
    else if adjusted >= ThresholdCanary then CanaryRollout
    else if adjusted >= ThresholdApproval then ApprovalRequired
    else ManualOnly
  }

  /** A context only ever lowers the action, and a production context never auto-applies a confidence up to 1. */
  lemma ContextOnlyLowersAction(confidence: real, ctx: SystemContext)
    requires 0.0 <= confidence
    ensures ActionRank(DetermineAction(confidence, Some(ctx))) <= ActionRank(DetermineAction(confidence, None))
    ensures confidence <= 1.0 && ctx.tier == "PRODUCTION" ==> DetermineAction(confidence, Some(ctx)) != AutoApply
  {
    assert AdjustedConfidence(confidence, Some(ctx)) <= confidence;
  }

  function Actions(perms: seq<Permission>): (r: seq<string>)
    ensures |r| == |perms| && forall i :: 0 <= i < |perms| ==> r[i] == perms[i].action
  {
    seq(|perms|, i requires 0 <= i < |perms| => perms[i].action)
  }

  function SafeToRemove(perms: seq<Permission>): seq<Permission>
  {
    Filter(perms, (p: Permission) => p.status == InactiveSafe)
  }

  function HighRiskUnused(perms: seq<Permission>): seq<Permission>
  {
    Filter(SafeToRemove(perms), (p: Permission) => p.riskLevel == Critical)
      + Filter(SafeToRemove(perms), (p: Permission) => p.riskLevel == High)
  }

  lemma HighRiskUnusedMembers(perms: seq<Permission>)
    ensures forall p :: p in HighRiskUnused(perms) <==>
      p in perms && p.status == InactiveSafe && p.riskLevel in {Critical, High}
  {
    var safe := SafeToRemove(perms);
    var critical := Filter(safe, (p: Permission) => p.riskLevel == Critical);
    var high := Filter(safe, (p: Permission) => p.riskLevel == High);
    assert forall p :: p in HighRiskUnused(perms) <==> p in critical || p in high;
  }

  /** There are high-risk candidates exactly when some INACTIVE_SAFE permission is rated CRITICAL or HIGH. */
  lemma HighRiskUnusedNonEmpty(perms: seq<Permission>)
    ensures (exists p :: p in perms && p.status == InactiveSafe && p.riskLevel in {Critical, High})
      <==> HighRiskUnused(perms) != []
  {
    HighRiskUnusedMembers(perms);
    if HighRiskUnused(perms) != [] {
      assert HighRiskUnused(perms)[0] in HighRiskUnused(perms);
    }
  }

  function Anomalous(perms: seq<Permission>): seq<Permission>
  {
    Filter(perms, (p: Permission) => p.status == ActiveAnomalous)
  }

  /** A REMOVE recommendation for the given permissions, with their mean confidence. */
  function Removal(kind: RecommendationKind, ps: seq<Permission>, context: Option<SystemContext>): (r: Recommendation)
    ensures r.kind == kind && r.permissions == Actions(ps) && r.confidence == AvgConfidence(ps)
    ensures r.action == DetermineAction(AvgConfidence(ps), context) && r.action != Blocked
  {
    Recommendation(kind, Actions(ps), AvgConfidence(ps), DetermineAction(AvgConfidence(ps), context))
  }

  /** The first recommendation: the CRITICAL then HIGH risk unused permissions, when there are any. */
  function HighRiskRecommendation(perms: seq<Permission>, context: Option<SystemContext>): (r: seq<Recommendation>)
    ensures r == [] <==> HighRiskUnused(perms) == []
    ensures r != [] ==> r == [Removal(RemoveHighRisk, HighRiskUnused(perms), context)]
    ensures forall x :: x in r ==> x.kind == RemoveHighRisk && x.action != Blocked
  {
    if HighRiskUnused(perms) != [] then [Removal(RemoveHighRisk, HighRiskUnused(perms), context)] else []
  }

  /** The second: all unused permissions, when there are at least five. */
  function RemoveAllRecommendation(perms: seq<Permission>, context: Option<SystemContext>): (r: seq<Recommendation>)
    ensures r == [] <==> |SafeToRemove(perms)| < 5
    ensures r != [] ==> r == [Removal(RemoveAllUnused, SafeToRemove(perms), context)]
    ensures forall x :: x in r ==> x.kind == RemoveAllUnused && x.action != Blocked
  {
    if |SafeToRemove(perms)| >= 5 then [Removal(RemoveAllUnused, SafeToRemove(perms), context)] else []
  }

  /** The third: investigate the anomalous permissions, with confidence 0.5 and MANUAL_ONLY. */
  function InvestigateRecommendation(perms: seq<Permission>): (r: seq<Recommendation>)
    ensures r == [] <==> Anomalous(perms) == []
    ensures r != [] ==> r == [Recommendation(InvestigateAnomalous, Actions(Anomalous(perms)), 0.5, ManualOnly)]
    ensures forall x :: x in r ==> x.kind == InvestigateAnomalous && x.action == ManualOnly && x.confidence == 0.5
  {
    if Anomalous(perms) != [] then [Recommendation(InvestigateAnomalous, Actions(Anomalous(perms)), 0.5, ManualOnly)]
    else []
  }

  /** _generate_recommendations. */
  function Recommendations(perms: seq<Permission>, context: Option<SystemContext>): (r: seq<Recommendation>)
    ensures |r| <= 3
    ensures forall x :: x in r ==> x.action != Blocked
    ensures forall x :: x in r && x.kind == InvestigateAnomalous ==> x.confidence == 0.5 && x.action == ManualOnly
  {
    HighRiskRecommendation(perms, context) + RemoveAllRecommendation(perms, context) + InvestigateRecommendation(perms)
  }

  function KindsOf(r: seq<Recommendation>): (kinds: seq<RecommendationKind>)
    ensures |kinds| == |r| && forall i :: 0 <= i < |r| ==> kinds[i] == r[i].kind
  {
    seq(|r|, i requires 0 <= i < |r| => r[i].kind)
  }

  /**
   * Which recommendations are made, in order: removing the high-risk
   * unused permissions exactly when some INACTIVE_SAFE permission is
   * CRITICAL or HIGH risk, removing all unused ones exactly when at least
   * five are INACTIVE_SAFE, and investigating exactly when one is
   * ACTIVE_ANOMALOUS.
   */
  lemma RecommendationsMade(perms: seq<Permission>, context: Option<SystemContext>)
    ensures var kinds := KindsOf(Recommendations(perms, context));
      (RemoveHighRisk in kinds <==> exists p :: p in perms && p.status == InactiveSafe && p.riskLevel in {Critical, High})
      && (RemoveAllUnused in kinds <==> |SafeToRemove(perms)| >= 5)
      && (InvestigateAnomalous in kinds <==> exists p :: p in perms && p.status == ActiveAnomalous)
  {
    RecommendationKinds(perms, context);
    HighRiskUnusedNonEmpty(perms);
    AnomalousMembers(perms);
  }

  /** Each kind of recommendation is made exactly when its list of permissions is non-empty. */
  lemma RecommendationKinds(perms: seq<Permission>, context: Option<SystemContext>)
    ensures RemoveHighRisk in KindsOf(Recommendations(perms, context)) <==> HighRiskUnused(perms) != []
    ensures RemoveAllUnused in KindsOf(Recommendations(perms, context)) <==> |SafeToRemove(perms)| >= 5
    ensures InvestigateAnomalous in KindsOf(Recommendations(perms, context)) <==> Anomalous(perms) != []
  {
    KindsOfThree(HighRiskRecommendation(perms, context), RemoveAllRecommendation(perms, context),
                 InvestigateRecommendation(perms));
  }

  /** The kinds of three at-most-one lists of one kind each. */
  lemma KindsOfThree(a: seq<Recommendation>, b: seq<Recommendation>, c: seq<Recommendation>)
    requires |a| <= 1 && forall x :: x in a ==> x.kind == RemoveHighRisk
    requires |b| <= 1 && forall x :: x in b ==> x.kind == RemoveAllUnused
    requires |c| <= 1 && forall x :: x in c ==> x.kind == InvestigateAnomalous
    ensures RemoveHighRisk in KindsOf(a + b + c) <==> a != []
    ensures RemoveAllUnused in KindsOf(a + b + c) <==> b != []
    ensures InvestigateAnomalous in KindsOf(a + b + c) <==> c != []
  {
    KindsOfAppend(a + b, c);
    KindsOfAppend(a, b);
    KindsOfOne(a, RemoveHighRisk);
    KindsOfOne(b, RemoveAllUnused);
    KindsOfOne(c, InvestigateAnomalous);
  }

  /** The kinds of an at-most-one list of one kind. */
  lemma KindsOfOne(r: seq<Recommendation>, k: RecommendationKind)
    requires |r| <= 1 && forall x :: x in r ==> x.kind == k
    ensures KindsOf(r) == if r == [] then [] else [k]
  {
    if r != [] {
      assert r[0] in r;
    }
  }

  lemma KindsOfAppend(x: seq<Recommendation>, y: seq<Recommendation>)
    ensures KindsOf(x + y) == KindsOf(x) + KindsOf(y)
  {
  }

  lemma AnomalousMembers(perms: seq<Permission>)
    ensures (exists p :: p in perms && p.status == ActiveAnomalous) <==> Anomalous(perms) != []
  {
    if exists p :: p in perms && p.status == ActiveAnomalous {
      var p :| p in perms && p.status == ActiveAnomalous;
      assert p in Anomalous(perms);
    }
    if Anomalous(perms) != [] {
      assert Anomalous(perms)[0] in Anomalous(perms);
    }
  }

  /** The remove-all recommendation names every INACTIVE_SAFE permission, in order. */
  lemma RemoveAllNamesEveryUnused(perms: seq<Permission>, context: Option<SystemContext>)
    ensures forall x: Recommendation :: x in Recommendations(perms, context) && x.kind == RemoveAllUnused ==>
      x.permissions == Actions(SafeToRemove(perms))
  {
    var a := HighRiskRecommendation(perms, context);
    var b := RemoveAllRecommendation(perms, context);
    var c := InvestigateRecommendation(perms);
    assert Recommendations(perms, context) == a + b + c;
    forall x: Recommendation | x in a + b + c && x.kind == RemoveAllUnused
      ensures x.permissions == Actions(SafeToRemove(perms))
    {
      assert x in b;
    }
  }

  /** With every classification confidence in [0,1], so is every recommendation's confidence. */
  lemma RecommendationConfidencesInUnit(perms: seq<Permission>, context: Option<SystemContext>)
    requires ConfidencesInUnit(perms)
    ensures var r := Recommendations(perms, context);
      forall i :: 0 <= i < |r| ==> 0.0 <= r[i].confidence <= 1.0
  {
    var a := HighRiskRecommendation(perms, context);
    var b := RemoveAllRecommendation(perms, context);
    var c := InvestigateRecommendation(perms);
    HighRiskConfidenceInUnit(perms, context);
    RemoveAllConfidenceInUnit(perms, context);
    assert forall i :: 0 <= i < |c| ==> c[i].confidence == 0.5;
    assert Recommendations(perms, context) == a + b + c;
  }

  lemma HighRiskConfidenceInUnit(perms: seq<Permission>, context: Option<SystemContext>)
    requires ConfidencesInUnit(perms)
    ensures var a := HighRiskRecommendation(perms, context);
      forall i :: 0 <= i < |a| ==> 0.0 <= a[i].confidence <= 1.0
  {
    var highRisk := HighRiskUnused(perms);
    HighRiskUnusedMembers(perms);
    SubsetConfidences(perms, highRisk);
    assert 0.0 <= AvgConfidence(highRisk) <= 1.0;
  }

  lemma RemoveAllConfidenceInUnit(perms: seq<Permission>, context: Option<SystemContext>)
    requires ConfidencesInUnit(perms)
    ensures var b := RemoveAllRecommendation(perms, context);
      forall i :: 0 <= i < |b| ==> 0.0 <= b[i].confidence <= 1.0
  {
    var safe := SafeToRemove(perms);
    SubsetConfidences(perms, safe);
    assert 0.0 <= AvgConfidence(safe) <= 1.0;
  }

  lemma SubsetConfidences(perms: seq<Permission>, sub: seq<Permission>)
    requires forall p :: p in sub ==> p in perms
    ensures ConfidencesInUnit(perms) ==> ConfidencesInUnit(sub)
  {
    if ConfidencesInUnit(perms) {
      forall i | 0 <= i < |sub|
        ensures 0.0 <= sub[i].classificationConfidence <= 1.0
      {
        assert sub[i] in perms;
      }
    }
  }

  // ---------------------------------------------------------------------
  // Component scores of calculate_confidence
  // ---------------------------------------------------------------------

  /** Number of INACTIVE_SAFE permissions classified with confidence at least 0.8. */
  function CountClearUnused(perms: seq<Permission>): (n: nat)
    ensures n <= |perms|
  {
    if perms == [] then 0
    else
      var last := perms[|perms| - 1];
      CountClearUnused(perms[..|perms| - 1])
        + (if last.status == InactiveSafe && last.classificationConfidence >= 0.8 then 1 else 0)
  }

  lemma {:induction false} ClearUnusedAreSafe(perms: seq<Permission>)
    ensures CountClearUnused(perms) <= CountStatus(perms, InactiveSafe)
  {
    if perms != [] {
      ClearUnusedAreSafe(perms[..|perms| - 1]);
    }
  }

  /** _score_usage_evidence: 0.5 without permissions; the clearly-unused share, boosted by 10% from 180 days. */
  function ScoreUsageEvidence(perms: seq<Permission>, observationDays: int): (r: real)
    ensures perms == [] ==> r == 0.5
    ensures 0.0 <= r <= 1.0
    ensures perms != [] && CountStatus(perms, InactiveSafe) == 0 ==> r == 0.0
  {
    if perms == [] then 0.5
    else
      var clear := CountClearUnused(perms);
      var n := |perms| as real;
      var score := clear as real / n;
      FractionInUnit(clear, |perms|);
      ClearUnusedAreSafe(perms);
      if observationDays >= 180 then MinR(1.0, score * 1.1) else score
  }

  /** Below 180 days of observation the usage score is the share of clearly unused permissions. */
  lemma UsageEvidenceIsClearShare(perms: seq<Permission>, observationDays: int)
    requires perms != [] && observationDays < 180
    ensures ScoreUsageEvidence(perms, observationDays) * (|perms| as real) == CountClearUnused(perms) as real
  {
    QuotientTimesDivisor(ScoreUsageEvidence(perms, observationDays), CountClearUnused(perms) as real, |perms| as real);
  }

  /** x^n for a natural exponent. */
  function Power(x: real, n: nat): real
  {
    if n == 0 then 1.0 else x * Power(x, n - 1)
  }

  lemma {:induction false} PowerOfFractionBounds(n: nat)
    requires n >= 1
    ensures 0.0 < Power(0.99, n) <= 0.99
  {
    if n > 1 {
      PowerOfFractionBounds(n - 1);
    }
  }

  /** _score_time_coverage: 0.3 for no observation, otherwise 1 - 0.7 * 0.99^days, kept in [0.3, 1]. */
  function ScoreTimeCoverage(observationDays: int): (r: real)
    ensures observationDays <= 0 ==> r == 0.3
    ensures 0.3 <= r <= 1.0
    // any observation at all scores strictly above the no-observation score
    ensures observationDays > 0 ==> 0.3 < r < 1.0
  {
    if observationDays <= 0 then 0.3
    else
      PowerOfFractionBounds(observationDays);
      var score := 1.0 - 0.7 * Power(0.99, observationDays);
      MinR(1.0, MaxR(0.3, score))
  }

  /** The evidence-source fields the score reads. */
  datatype EvidenceSource = EvidenceSource(enabled: bool, coveragePercent: real)

  function CountEnabled(sources: seq<EvidenceSource>): (n: nat)
    ensures n <= |sources|
  {
    if sources == [] then 0
    else CountEnabled(sources[..|sources| - 1]) + (if sources[|sources| - 1].enabled then 1 else 0)
  }

  function SumEnabledCoverage(sources: seq<EvidenceSource>): real
  {
    if sources == [] then 0.0
    else
      var last := sources[|sources| - 1];
      SumEnabledCoverage(sources[..|sources| - 1]) + (if last.enabled then last.coveragePercent else 0.0)
  }

  predicate CoverageInUnit(sources: seq<EvidenceSource>)
  {
    forall i :: 0 <= i < |sources| ==> 0.0 <= sources[i].coveragePercent <= 1.0
  }

  lemma {:induction false} SumEnabledCoverageBounds(sources: seq<EvidenceSource>)
    ensures CoverageInUnit(sources) ==> 0.0 <= SumEnabledCoverage(sources) <= CountEnabled(sources) as real
  {
    if sources != [] && CoverageInUnit(sources) {
      var init := sources[..|sources| - 1];
      assert forall i :: 0 <= i < |init| ==> init[i] == sources[i];
      SumEnabledCoverageBounds(init);
    }
  }

  /**
   * _score_source_completeness: 0.5 without sources; otherwise 0.6 times
   * the enabled share of three sources plus 0.4 times the mean coverage
   * of the enabled ones, so a list of only disabled sources scores 0.
   */
  function ScoreSourceCompleteness(sources: seq<EvidenceSource>): (r: real)
    ensures sources == [] ==> r == 0.5
    ensures sources != [] && CountEnabled(sources) == 0 ==> r == 0.0
    ensures CoverageInUnit(sources) ==> 0.0 <= r <= 1.0
  {
    if sources == [] then 0.5
    else
      var enabled := CountEnabled(sources);
      var denominator := if enabled > 1 then enabled else 1;
      var coverage := SumEnabledCoverage(sources) / denominator as real;
      var sourceScore := MinR(1.0, enabled as real / 3.0);
      SumEnabledCoverageBounds(sources);
      ZeroEnabledCoverage(sources);
      assert CoverageInUnit(sources) ==> 0.0 <= coverage <= 1.0 by {
        if CoverageInUnit(sources) {
          MeanInUnit(SumEnabledCoverage(sources), denominator as real);
        }
      }
      sourceScore * 0.6 + coverage * 0.4
  }

  lemma {:induction false} ZeroEnabledCoverage(sources: seq<EvidenceSource>)
    ensures CountEnabled(sources) == 0 ==> SumEnabledCoverage(sources) == 0.0
  {
    if sources != [] {
      ZeroEnabledCoverage(sources[..|sources| - 1]);
    }
  }

  /** _score_system_context: 0.7 without context, otherwise 0.8 plus 0.1 per kind of known structure. */
  function ScoreSystemContext(context: Option<SystemContext>): (r: real)
    ensures context.None? ==> r == 0.7
    ensures context.Some? ==> r in {0.8, 0.9, 1.0}
    ensures context.Some? ==> (r == 1.0 <==>
      |context.value.identities| > 0 && |context.value.resources| > 0
      && (|context.value.dependsOn| > 0 || |context.value.dependedBy| > 0))
  {
    match context
    case None => 0.7
    case Some(ctx) =>
      var boundaries := if |ctx.identities| > 0 && |ctx.resources| > 0 then 0.1 else 0.0;
      var dependencies := if |ctx.dependsOn| > 0 || |ctx.dependedBy| > 0 then 0.1 else 0.0;
      MinR(1.0, 0.8 + boundaries + dependencies)
  }

  /**
   * _score_simulation. `None` stands for no result or an empty one; a
   * result without a status counts as CAUTION.
   */
  function ScoreSimulation(result: Option<Option<string>>): (r: real)
    ensures result.None? ==> r == 0.7
    ensures result.Some? ==> r in {0.95, 0.75, 0.40, 0.0}
    ensures result.Some? ==> (r == 0.95 <==> result.value == Some("SAFE"))
    ensures result.Some? ==> (r == 0.75 <==> GetOr(result.value, "CAUTION") == "CAUTION")
    ensures result.Some? ==> (r == 0.0 <==> GetOr(result.value, "CAUTION") !in {"SAFE", "CAUTION", "RISKY"})
  {
    match result
    case None => 0.7
    case Some(status) =>
      var s := GetOr(status, "CAUTION");
      if s == "SAFE" then 0.95
      else if s == "CAUTION" then 0.75
      else if s == "RISKY" then 0.40
      else 0.0
  }
}
