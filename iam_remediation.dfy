/**
 * The IAM least-privilege remediation pipeline (iam-remediation-engine.py):
 * an issue records a role's observed and allowed actions; a simulation
 * proposes a policy of only the observed actions; execution applies it
 * after an optional snapshot; rollback restores a snapshot. Issues move
 * OPEN -> SIMULATED -> APPLIED -> ROLLED_BACK.
 *
 * The four in-memory tables are insertion-ordered dictionaries keyed by
 * id. Ids and timestamps are parameters; every IAM call is an outcome
 * parameter (its result, or the message of the exception it raised).
 */
module IamRemediation {
  import opened Common
  import opened SortedSets

  /** extract_role_name: the text after the last ":role/", or the whole ARN without one. */
  function ExtractRoleName(roleArn: string): (r: string)
    ensures !Contains(roleArn, ":role/") ==> r == roleArn
    ensures Contains(roleArn, ":role/") ==>
      !Contains(r, ":role/") && EndsWith(roleArn, r) && OccursAt(roleArn, ":role/", |roleArn| - |r| - 6)
  {
    if Contains(roleArn, ":role/") then SplitLast(roleArn, ":role/") else roleArn
  }

  /** `set(xs) - set(ys)` as a list, before sorting. */
  function Difference(xs: seq<string>, ys: seq<string>): (r: seq<string>)
    ensures forall a :: a in r <==> a in xs && a !in ys
  {
    Filter(xs, (a: string) => a !in ys)
  }

  // ---------------------------------------------------------------------
  // Records of the four tables
  // ---------------------------------------------------------------------

  datatype IssueStatus = Open | Simulated | Applied | RolledBack

  /** The text stored in an issue's `status` field. */
  function StatusText(s: IssueStatus): (r: string)
    ensures r in {"OPEN", "SIMULATED", "APPLIED", "ROLLED_BACK"}
  {
    match s
    case Open => "OPEN"
    case Simulated => "SIMULATED"
    case Applied => "APPLIED"
    case RolledBack => "ROLLED_BACK"
  }

  /**
   * Python's `str.upper` on one character, as far as a comparison with a
   * status text can tell: the ASCII letters, and the two other characters
   * whose capital is an ASCII letter (dotless i and long s). Every other
   * character either has no capital or one that no status text contains.
   */
  function UpperChar(c: char): char
  {
    if 'a' <= c <= 'z' then (c as int - 32) as char
    else if c == '\U{0131}' then 'I'
    else if c == '\U{017F}' then 'S'
    else c
  }

  function Upper(s: string): (r: string)
    ensures |r| == |s|
  {
    seq(|s|, k requires 0 <= k < |s| => UpperChar(s[k]))
  }

  lemma UpperIdempotent(s: string)
    ensures Upper(Upper(s)) == Upper(s)
  {
    forall k | 0 <= k < |s|
      ensures Upper(Upper(s))[k] == Upper(s)[k]
    {
      var c := s[k];
      assert UpperChar(UpperChar(c)) == UpperChar(c);
    }
  }

  datatype Issue = Issue(
    issueId: string, findingId: Option<string>, roleName: string, roleArn: string,
    observedActions: seq<string>, allowedActions: seq<string>, unusedActions: seq<string>,
    status: IssueStatus, createdAt: int, updatedAt: int)

  /** The reason a simulation gives. */
  datatype SimulationReason = NotSafe | AlreadyLeastPrivilege | SafeToRemove(count: nat)

  datatype Simulation = Simulation(
    simulationId: string, issueId: string, proposedActions: seq<string>, confidence: real, safe: bool,
    reason: SimulationReason, removed: seq<string>, kept: seq<string>, createdAt: int)

  /** A snapshot; of the captured configuration only the inline policy names matter here. */
  datatype Snapshot = Snapshot(
    snapshotId: string, issueId: string, roleName: string, roleArn: string, inlinePolicyNames: seq<string>,
    createdAt: int)

  /** What reading the role's configuration gave. */
  datatype RoleCapture = RoleCapture(roleArn: string, inlinePolicyNames: seq<string>)

  datatype ExecutionAction = Apply | Rollback

  datatype ExecutionStatus = ExecSuccess | ExecFailed

  datatype Execution = Execution(
    executionId: string, issueId: string, snapshotId: Option<string>, action: ExecutionAction,
    status: ExecutionStatus, error: Option<string>, createdAt: int)

  // ---------------------------------------------------------------------
  // Insertion-ordered dictionaries
  // ---------------------------------------------------------------------

  /** Position of the entry stored under `id`. */
  function Position<T>(xs: seq<T>, key: T -> string, id: string): (r: Option<nat>)
    ensures r.Some? ==> r.value < |xs| && key(xs[r.value]) == id
    ensures r.None? ==> forall i :: 0 <= i < |xs| ==> key(xs[i]) != id
  {
    if xs == [] then None
    else if key(xs[0]) == id then Some(0)
    else
      match Position(xs[1..], key, id)
      case None => None
      case Some(i) => Some(i + 1)
  }

  /** `d.get(id)`. */
  function Get<T>(xs: seq<T>, key: T -> string, id: string): (r: Option<T>)
    ensures r.Some? ==> r.value in xs && key(r.value) == id
    ensures r.None? <==> forall i :: 0 <= i < |xs| ==> key(xs[i]) != id
  {
    match Position(xs, key, id)
    case None => None
    case Some(i) => Some(xs[i])
  }

  /** `d[key(x)] = x`: replaces the entry in place, or appends a new one. */
  function Put<T>(xs: seq<T>, key: T -> string, x: T): (r: seq<T>)
    ensures Position(xs, key, key(x)).Some? ==> |r| == |xs|
    ensures Position(xs, key, key(x)).None? ==> r == xs + [x]
  {
    match Position(xs, key, key(x))
    case None => xs + [x]
    case Some(i) => xs[i := x]
  }

  /** After storing `x`, its id reads back `x` and every other id reads back what it did before. */
  lemma {:induction false} PutThenGet<T>(xs: seq<T>, key: T -> string, x: T, id: string)
    ensures Get(Put(xs, key, x), key, id) == if id == key(x) then Some(x) else Get(xs, key, id)
  {
    if xs != [] {
      PutThenGet(xs[1..], key, x, id);
      match Position(xs, key, key(x))
      case None =>
        assert Put(xs, key, x)[1..] == xs[1..] + [x];
      case Some(i) =>
        if i > 0 {
          assert Put(xs, key, x)[1..] == Put(xs[1..], key, x);
        }
    }
  }

  function IssueId(i: Issue): string { i.issueId }
  function SimulationId(s: Simulation): string { s.simulationId }
  function SnapshotId(s: Snapshot): string { s.snapshotId }
  function ExecutionId(e: Execution): string { e.executionId }

  /**
   * `max(rows for the issue, key=created_at)`: the first row of the issue
   * with the greatest creation time, or None for an issue without rows.
   */
  function Latest<T>(xs: seq<T>, issueOf: T -> string, createdAt: T -> int, issueId: string): (r: Option<T>)
  {
    if xs == [] then None
    else
      var rest := Latest(xs[..|xs| - 1], issueOf, createdAt, issueId);
      var x := xs[|xs| - 1];
      if issueOf(x) == issueId && (rest.None? || createdAt(x) > createdAt(rest.value)) then Some(x) else rest
  }

  /** Latest is a row of the issue created no earlier than any other, and absent only when there is none. */
  lemma {:induction false} LatestIsNewest<T>(xs: seq<T>, issueOf: T -> string, createdAt: T -> int, issueId: string)
    ensures var r := Latest(xs, issueOf, createdAt, issueId);
      (r.None? <==> forall i :: 0 <= i < |xs| ==> issueOf(xs[i]) != issueId)
      && (r.Some? ==>
            r.value in xs && issueOf(r.value) == issueId
            && forall i :: 0 <= i < |xs| && issueOf(xs[i]) == issueId ==> createdAt(xs[i]) <= createdAt(r.value))
  {
    if xs != [] {
      var init := xs[..|xs| - 1];
      LatestIsNewest(init, issueOf, createdAt, issueId);
      assert forall i :: 0 <= i < |init| ==> init[i] == xs[i];
    }
  }

  function SimulationIssue(s: Simulation): string { s.issueId }
  function SimulationTime(s: Simulation): int { s.createdAt }
  function SnapshotIssue(s: Snapshot): string { s.issueId }
  function SnapshotTime(s: Snapshot): int { s.createdAt }

  // ---------------------------------------------------------------------
  // Issues and simulations
  // ---------------------------------------------------------------------

  /** The issue create_issue stores: sorted, duplicate-free lists with unused = allowed - observed. */
  function NewIssue(issueId: string, roleArn: string, observed: seq<string>, allowed: seq<string>, now: int)
    : (i: Issue)
    ensures i.issueId == issueId && i.roleName == ExtractRoleName(roleArn) && i.status == Open
    ensures StrictlySorted(i.observedActions) && StrictlySorted(i.allowedActions) && StrictlySorted(i.unusedActions)
    ensures forall a :: a in i.observedActions <==> a in observed
    ensures forall a :: a in i.allowedActions <==> a in allowed
    ensures forall a :: a in i.unusedActions <==> a in allowed && a !in observed
  {
    Issue(issueId, None, ExtractRoleName(roleArn), roleArn, SortedSet(observed), SortedSet(allowed),
          SortedSet(Difference(allowed, observed)), Open, now, now)
  }

  /** The issue create_from_finding stores: linked to the finding, with empty action lists. */
  function FindingIssue(issueId: string, findingId: string, roleArn: string, now: int): (i: Issue)
    ensures i.findingId == Some(findingId) && i.status == Open && i.roleName == ExtractRoleName(roleArn)
    ensures i.observedActions == [] && i.allowedActions == [] && i.unusedActions == []
  {
    Issue(issueId, Some(findingId), ExtractRoleName(roleArn), roleArn, [], [], [], Open, now, now)
  }

  const FallbackAction := "logs:CreateLogGroup"
  const DefaultTelemetryCoverage := 80.0

  /** The proposed policy's actions: the sorted observed actions, or the fallback action without any. */
  function ProposedActions(observed: seq<string>): (r: seq<string>)
    ensures observed == [] ==> r == [FallbackAction]
    ensures observed != [] ==> r == SortedSet(observed)
    ensures forall a :: a in observed ==> a in r
  {
    if observed == [] then [FallbackAction] else SortedSet(observed)
  }

  /** `min(99, 70 + coverage * 0.29)`; rounding to two places is not modelled. */
  function SimulationConfidence(coverage: real): (c: real)
    ensures c <= 99.0
    ensures coverage <= 100.0 ==> c == 70.0 + coverage * 0.29
    ensures coverage >= 0.0 ==> c >= 70.0
  {
    MinR(99.0, 70.0 + coverage * 0.29)
  }

  /** IAMSimulationService.simulate, without the status update. */
  function Simulate(issue: Issue, coverage: real, simulationId: string, now: int): (s: Simulation)
    ensures s.issueId == issue.issueId && s.simulationId == simulationId
    ensures s.confidence == SimulationConfidence(coverage)
    ensures s.kept == SortedSet(issue.observedActions)
    ensures forall a :: a in s.removed <==> a in issue.allowedActions && a !in issue.observedActions
    ensures StrictlySorted(s.removed) && StrictlySorted(s.kept)
  {
    var observed := issue.observedActions;
    var unused := SortedSet(Difference(issue.allowedActions, observed));
    var proposed := ProposedActions(observed);
    var safe := forall a :: a in observed ==> a in proposed;
    var reason := if !safe then NotSafe
                  else if |unused| == 0 then AlreadyLeastPrivilege
                  else SafeToRemove(|unused|);
    Simulation(simulationId, issue.issueId, proposed, SimulationConfidence(coverage), safe, reason, unused,
               SortedSet(observed), now)
  }

  /**
   * The safety check always passes, removed and kept are disjoint, and the
   * reason counts the removed actions (or says there are none).
   */
  lemma SimulationIsSafe(issue: Issue, coverage: real, simulationId: string, now: int)
    ensures var s := Simulate(issue, coverage, simulationId, now);
      s.safe && s.reason != NotSafe
      && (forall a :: !(a in s.removed && a in s.kept))
      && (s.reason == AlreadyLeastPrivilege <==> s.removed == [])
      && (s.removed != [] ==> s.reason == SafeToRemove(|s.removed|))
  {
  }

  /** At the default coverage of 80 the confidence is 93.2. */
  lemma DefaultConfidence()
    ensures SimulationConfidence(DefaultTelemetryCoverage) == 93.2
  {
  }

  /** Simulating a created issue removes exactly the issue's unused actions, in the same order. */
  lemma SimulationRemovesUnused(issueId: string, roleArn: string, observed: seq<string>, allowed: seq<string>,
                                now: int, coverage: real, simulationId: string, later: int)
    ensures var issue := NewIssue(issueId, roleArn, observed, allowed, now);
      Simulate(issue, coverage, simulationId, later).removed == issue.unusedActions
      && Simulate(issue, coverage, simulationId, later).kept == issue.observedActions
  {
    var issue := NewIssue(issueId, roleArn, observed, allowed, now);
    var s := Simulate(issue, coverage, simulationId, later);
    SortedUnique(s.removed, issue.unusedActions);
    SortedUnique(s.kept, issue.observedActions);
  }

  function WithStatus(issue: Issue, status: IssueStatus, now: int): Issue
  {
    issue.(status := status, updatedAt := now)
  }

  /** The response of a successful execute or rollback. */
  datatype ChangeResult = ChangeResult(executionId: string, snapshotId: Option<string>, issueId: string)

  /** The in-memory tables and the endpoints that read and write them. */
  class IamRemediationStore {
    var issues: seq<Issue>
    var simulations: seq<Simulation>
    var snapshots: seq<Snapshot>
    var executions: seq<Execution>

    constructor()
      ensures issues == [] && simulations == [] && snapshots == [] && executions == []
    {
      issues := [];
      simulations := [];
      snapshots := [];
      executions := [];
    }

    /** create_issue: returns the id and the number of unused actions. */
    method CreateIssue(issueId: string, roleArn: string, observed: seq<string>, allowed: seq<string>, now: int)
      returns (unusedCount: nat)
      modifies this
      ensures issues == Put(old(issues), IssueId, NewIssue(issueId, roleArn, observed, allowed, now))
      ensures simulations == old(simulations) && snapshots == old(snapshots) && executions == old(executions)
      ensures unusedCount == |NewIssue(issueId, roleArn, observed, allowed, now).unusedActions|
    {
      var issue := NewIssue(issueId, roleArn, observed, allowed, now);
      issues := Put(issues, IssueId, issue);
      unusedCount := |issue.unusedActions|;
    }

    /** create_from_finding. */
    method CreateFromFinding(issueId: string, findingId: string, roleArn: string, now: int)
      modifies this
      ensures issues == Put(old(issues), IssueId, FindingIssue(issueId, findingId, roleArn, now))
      ensures simulations == old(simulations) && snapshots == old(snapshots) && executions == old(executions)
    {
      issues := Put(issues, IssueId, FindingIssue(issueId, findingId, roleArn, now));
    }

    /**
     * list_issues: every issue when the status is missing or empty, otherwise
     * those whose status text equals the requested one in upper case.
     */
    function ListIssues(status: Option<string>): (r: seq<Issue>)
      reads this
      ensures status.None? || status.value == "" ==> r == issues
      ensures forall i :: i in r <==>
        i in issues && (status.None? || status.value == "" || StatusText(i.status) == Upper(status.value))
      ensures status.Some? && status.value != "" && Upper(status.value) !in {"OPEN", "SIMULATED", "APPLIED", "ROLLED_BACK"} ==> r == []
    {
      if status.None? || status.value == "" then issues
      else
        var r := Filter(issues, (i: Issue) => StatusText(i.status) == Upper(status.value));
        assert r != [] ==> r[0] in r;
        r
    }

    /** The filter ignores case: a status and its upper-case form list the same issues. */
    lemma ListIssuesIgnoresCase(status: string)
      ensures ListIssues(Some(status)) == ListIssues(Some(Upper(status)))
    {
      UpperIdempotent(status);
    }

    /** get_issue. */
    function GetIssue(issueId: string): (r: Reply<Issue>)
      reads this
      ensures r.HttpError? <==> Get(issues, IssueId, issueId).None?
      ensures r.HttpError? ==> r.statusCode == 404
      ensures r.Answer? ==> r.value in issues && r.value.issueId == issueId
    {
      match Get(issues, IssueId, issueId)
      case None => HttpError(404, "Issue not found")
      case Some(issue) => Answer(issue)
    }

    /** simulate_fix: 404 for an unknown issue; otherwise stores the simulation and marks the issue SIMULATED. */
    method SimulateFix(issueId: string, simulationId: string, now: int) returns (r: Reply<Simulation>)
      modifies this
      ensures Get(old(issues), IssueId, issueId).None? ==>
        r == HttpError(404, "Issue not found") && issues == old(issues) && simulations == old(simulations)
      ensures Get(old(issues), IssueId, issueId).Some? ==>
        var issue := Get(old(issues), IssueId, issueId).value;
        r == Answer(Simulate(issue, DefaultTelemetryCoverage, simulationId, now))
        && simulations == Put(old(simulations), SimulationId, r.value)
        && issues == Put(old(issues), IssueId, WithStatus(issue, Simulated, now))
      ensures snapshots == old(snapshots) && executions == old(executions)
    {
      var found := Get(issues, IssueId, issueId);
      if found.None? {
        return HttpError(404, "Issue not found");
      }
      var simulation := Simulate(found.value, DefaultTelemetryCoverage, simulationId, now);
      simulations := Put(simulations, SimulationId, simulation);
      issues := Put(issues, IssueId, WithStatus(found.value, Simulated, now));
      r := Answer(simulation);
    }

    /**
     * `str(e)` of the HTTPException create_snapshot raises when reading the
     * role fails: its status code, then its detail.
     */
    function SnapshotError(roleName: string, message: string): string
    {
      "500: Failed to create snapshot for " + roleName + ": " + message
    }

    /** The simulation execute_fix uses: the requested one, else the issue's latest. */
    function ResolveSimulation(issueId: string, simulationId: Option<string>): (r: Option<Simulation>)
      reads this
      ensures Given(simulationId) ==> r == Get(simulations, SimulationId, simulationId.value)
      ensures !Given(simulationId) ==> r == Latest(simulations, SimulationIssue, SimulationTime, issueId)
    {
      if Given(simulationId) then Get(simulations, SimulationId, simulationId.value)
      else Latest(simulations, SimulationIssue, SimulationTime, issueId)
    }

    /**
     * execute_fix. `capture` is what reading the role for the snapshot gave
     * and `putFailure` the error of writing the new policy, if any.
     */
    method ExecuteFix(issueId: string, simulationId: Option<string>, createSnapshot: bool, executionId: string,
                      snapshotId: string, capture: Result<RoleCapture>, putFailure: Option<string>, now: int)
      returns (r: Reply<ChangeResult>)
      modifies this
      ensures Get(old(issues), IssueId, issueId).None? ==>
        r == HttpError(404, "Issue not found") && UnchangedTables()
      ensures Get(old(issues), IssueId, issueId).Some? && ResolveSimulationIn(old(simulations), issueId, simulationId).None? ==>
        r == HttpError(400, "No simulation found. Run /simulate first.") && UnchangedTables()
      ensures simulations == old(simulations)
      ensures Get(old(issues), IssueId, issueId).Some? && ResolveSimulationIn(old(simulations), issueId, simulationId).Some? ==>
        var issue := Get(old(issues), IssueId, issueId).value;
        var snapshotFailed := createSnapshot && capture.Err?;
        var taken := if createSnapshot && capture.Ok? then Some(snapshotId) else None;
        (snapshots == if taken.Some?
           then Put(old(snapshots), SnapshotId, Snapshot(snapshotId, issueId, issue.roleName, capture.value.roleArn,
                                                         capture.value.inlinePolicyNames, now))
           else old(snapshots))
        && (snapshotFailed || putFailure.Some? ==>
              var message := if snapshotFailed then SnapshotError(issue.roleName, capture.message) else putFailure.value;
              r == HttpError(500, "Execution failed: " + message)
              && executions == Put(old(executions), ExecutionId,
                                   Execution(executionId, issueId, taken, Apply, ExecFailed, Some(message), now))
              && issues == old(issues))
        && (!snapshotFailed && putFailure.None? ==>
              r == Answer(ChangeResult(executionId, taken, issueId))
              && executions == Put(old(executions), ExecutionId,
                                   Execution(executionId, issueId, taken, Apply, ExecSuccess, None, now))
              && issues == Put(old(issues), IssueId, WithStatus(issue, Applied, now)))
    {
      var found := Get(issues, IssueId, issueId);
      if found.None? {
        return HttpError(404, "Issue not found");
      }
      var simulation := ResolveSimulation(issueId, simulationId);
      if simulation.None? {
        return HttpError(400, "No simulation found. Run /simulate first.");
      }
      r := ApplyFix(found.value, issueId, createSnapshot, executionId, snapshotId, capture, putFailure, now);
    }

    /** execute_fix once the issue and its simulation are found: snapshot, write, record. */
    method ApplyFix(issue: Issue, issueId: string, createSnapshot: bool, executionId: string,
                    snapshotId: string, capture: Result<RoleCapture>, putFailure: Option<string>, now: int)
      returns (r: Reply<ChangeResult>)
      modifies this
      ensures simulations == old(simulations)
      ensures var snapshotFailed := createSnapshot && capture.Err?;
        var taken := if createSnapshot && capture.Ok? then Some(snapshotId) else None;
        (snapshots == if taken.Some?
           then Put(old(snapshots), SnapshotId, Snapshot(snapshotId, issueId, issue.roleName, capture.value.roleArn,
                                                         capture.value.inlinePolicyNames, now))
           else old(snapshots))
        && (snapshotFailed || putFailure.Some? ==>
              var message := if snapshotFailed then SnapshotError(issue.roleName, capture.message) else putFailure.value;
              r == HttpError(500, "Execution failed: " + message)
              && executions == Put(old(executions), ExecutionId,
                                   Execution(executionId, issueId, taken, Apply, ExecFailed, Some(message), now))
              && issues == old(issues))
        && (!snapshotFailed && putFailure.None? ==>
              r == Answer(ChangeResult(executionId, taken, issueId))
              && executions == Put(old(executions), ExecutionId,
                                   Execution(executionId, issueId, taken, Apply, ExecSuccess, None, now))
              && issues == Put(old(issues), IssueId, WithStatus(issue, Applied, now)))
    {
      var taken: Option<string> := None;
      if createSnapshot {
        if capture.Err? {
          executions := Put(executions, ExecutionId,
                            Execution(executionId, issueId, None, Apply, ExecFailed,
                                      Some(SnapshotError(issue.roleName, capture.message)), now));
          return HttpError(500, "Execution failed: " + SnapshotError(issue.roleName, capture.message));
        }
        snapshots := Put(snapshots, SnapshotId, Snapshot(snapshotId, issueId, issue.roleName,
                                                         capture.value.roleArn, capture.value.inlinePolicyNames, now));
        taken := Some(snapshotId);
      }
      if putFailure.Some? {
        executions := Put(executions, ExecutionId,
                          Execution(executionId, issueId, taken, Apply, ExecFailed, Some(putFailure.value), now));
        return HttpError(500, "Execution failed: " + putFailure.value);
      }
      executions := Put(executions, ExecutionId, Execution(executionId, issueId, taken, Apply, ExecSuccess, None, now));
      issues := Put(issues, IssueId, WithStatus(issue, Applied, now));
      r := Answer(ChangeResult(executionId, taken, issueId));
    }

    twostate predicate UnchangedTables()
      reads this
    {
      issues == old(issues) && simulations == old(simulations) && snapshots == old(snapshots)
      && executions == old(executions)
    }

    /** The snapshot rollback_fix uses: the requested one, else the execution's, else the issue's latest. */
    function ResolveSnapshot(issueId: string, snapshotId: Option<string>, executionId: Option<string>)
      : (r: Option<Snapshot>)
      reads this
    {
      ResolveSnapshotIn(snapshots, executions, issueId, snapshotId, executionId)
    }

    /**
     * rollback_fix. `restoreFailure` is the error of deleting the added
     * policy or restoring an inline policy, if any.
     */
    method RollbackFix(issueId: string, snapshotId: Option<string>, executionId: Option<string>,
                       newExecutionId: string, restoreFailure: Option<string>, now: int)
      returns (r: Reply<ChangeResult>)
      modifies this
      ensures Get(old(issues), IssueId, issueId).None? ==>
        r == HttpError(404, "Issue not found") && UnchangedTables()
      ensures (Get(old(issues), IssueId, issueId).Some?
               && ResolveSnapshotIn(old(snapshots), old(executions), issueId, snapshotId, executionId).None?) ==>
        r == HttpError(400, "No snapshot found. Cannot rollback without a snapshot.") && UnchangedTables()
      ensures simulations == old(simulations) && snapshots == old(snapshots)
      ensures (Get(old(issues), IssueId, issueId).Some?
               && ResolveSnapshotIn(old(snapshots), old(executions), issueId, snapshotId, executionId).Some?) ==>
        var issue := Get(old(issues), IssueId, issueId).value;
        var snapshot := ResolveSnapshotIn(old(snapshots), old(executions), issueId, snapshotId, executionId).value;
        (restoreFailure.Some? ==>
           r == HttpError(500, "Rollback failed: " + restoreFailure.value)
           && executions == Put(old(executions), ExecutionId,
                                Execution(newExecutionId, issueId, Some(snapshot.snapshotId), Rollback, ExecFailed,
                                          restoreFailure, now))
           && issues == old(issues))
        && (restoreFailure.None? ==>
           r == Answer(ChangeResult(newExecutionId, Some(snapshot.snapshotId), issueId))
           && executions == Put(old(executions), ExecutionId,
                                Execution(newExecutionId, issueId, Some(snapshot.snapshotId), Rollback, ExecSuccess,
                                          None, now))
           && issues == Put(old(issues), IssueId, WithStatus(issue, RolledBack, now)))
    {
      var found := Get(issues, IssueId, issueId);
      if found.None? {
        return HttpError(404, "Issue not found");
      }
      var snapshot := ResolveSnapshot(issueId, snapshotId, executionId);
      if snapshot.None? {
        return HttpError(400, "No snapshot found. Cannot rollback without a snapshot.");
      }
      var id := snapshot.value.snapshotId;
      if restoreFailure.Some? {
        executions := Put(executions, ExecutionId,
                          Execution(newExecutionId, issueId, Some(id), Rollback, ExecFailed, restoreFailure, now));
        return HttpError(500, "Rollback failed: " + restoreFailure.value);
      }
      executions := Put(executions, ExecutionId,
                        Execution(newExecutionId, issueId, Some(id), Rollback, ExecSuccess, None, now));
      issues := Put(issues, IssueId, WithStatus(found.value, RolledBack, now));
      r := Answer(ChangeResult(newExecutionId, Some(id), issueId));
    }
  }

  function ResolveSimulationIn(simulations: seq<Simulation>, issueId: string, simulationId: Option<string>)
    : Option<Simulation>
  {
    if Given(simulationId) then Get(simulations, SimulationId, simulationId.value)
    else Latest(simulations, SimulationIssue, SimulationTime, issueId)
  }

  /**
   * Snapshot precedence of rollback_fix: a requested snapshot id is looked
   * up alone (an unknown one is not replaced by another); otherwise the
   * snapshot of the requested execution, when it has one that exists, and
   * failing that the issue's latest snapshot.
   */
  function ResolveSnapshotIn(snapshots: seq<Snapshot>, executions: seq<Execution>, issueId: string,
                             snapshotId: Option<string>, executionId: Option<string>): (r: Option<Snapshot>)
    ensures Given(snapshotId) ==> r == Get(snapshots, SnapshotId, snapshotId.value)
    ensures !Given(snapshotId) && r.None? ==> Latest(snapshots, SnapshotIssue, SnapshotTime, issueId).None?
    ensures r.Some? ==> r.value in snapshots
  {
    if Given(snapshotId) then Get(snapshots, SnapshotId, snapshotId.value)
    else
      LatestIsNewest(snapshots, SnapshotIssue, SnapshotTime, issueId);
      var viaExecution :=
        if Given(executionId) then
          match Get(executions, ExecutionId, executionId.value)
          case Some(e) => if Given(e.snapshotId) then Get(snapshots, SnapshotId, e.snapshotId.value) else None
          case None => None
        else None;
      if viaExecution.Some? then viaExecution else Latest(snapshots, SnapshotIssue, SnapshotTime, issueId)
  }

  /** Without a requested snapshot or execution, rollback uses the issue's newest snapshot, if any. */
  lemma RollbackDefaultsToNewest(snapshots: seq<Snapshot>, executions: seq<Execution>, issueId: string)
    ensures var r := ResolveSnapshotIn(snapshots, executions, issueId, None, None);
      (r.None? <==> forall i :: 0 <= i < |snapshots| ==> snapshots[i].issueId != issueId)
      && (r.Some? ==>
            r.value.issueId == issueId
            && forall i :: 0 <= i < |snapshots| && snapshots[i].issueId == issueId ==>
                 snapshots[i].createdAt <= r.value.createdAt)
  {
    LatestIsNewest(snapshots, SnapshotIssue, SnapshotTime, issueId);
  }
}
