/**
 * The remediation engine with its finding-status lifecycle
 * (backend-remediation-engine.py): execute marks the finding EXECUTING,
 * takes a snapshot of the resource, deletes its inline policies (or the
 * managed policy) and ends REMEDIATED or FAILED; rollback restores a
 * snapshot and marks the finding ROLLED_BACK.
 *
 * IAM reads are parameters; a raising IAM write is the parameter
 * `failure`, the position of the write that raises and its message.
 * Policy documents are carried as opaque text.
 */
module FindingLifecycle {
  import opened Common

  datatype FindingStatus = Open | Simulated | Approved | Executing | Remediated | Failed | RolledBack

  // ---------------------------------------------------------------------
  // Snapshots
  // ---------------------------------------------------------------------

  /** The IAM writes this engine issues. */
  datatype IamWrite =
    | DeleteRolePolicy(roleName: string, policyName: string)
    | DeletePolicy(policyArn: string)
    | PutRolePolicy(roleName: string, policyName: string, document: string)
    | CreatePolicyVersion(policyArn: string, document: string)

  /** The resource state a snapshot holds, by resource type. */
  datatype SnapshotBody =
    | IamRole(roleName: string, trustPolicy: Option<string>, attachedPolicies: seq<string>,
              inlinePolicies: seq<(string, string)>)
    | IamPolicy(policyArn: string, policyDocument: string, versionId: string)
    | UnknownResource
    | ReadError(error: string)

  datatype SnapshotRecord = SnapshotRecord(snapshotId: string, resourceId: string, body: SnapshotBody, createdAt: int)

  /** What the IAM reads of create_iam_snapshot returned, or the error one of them raised. */
  datatype ResourceRead = ResourceRead(
    trustPolicy: Option<string>, attachedPolicies: seq<string>, inlinePolicies: seq<(string, string)>,
    policyDocument: string, versionId: string, error: Option<string>)

  /** The last '/' segment of a resource id. */
  function LastSegment(resourceId: string): (r: string)
    ensures !Contains(r, "/")
    ensures EndsWith(resourceId, r)
  {
    SplitLast(resourceId, "/")
  }

  /**
   * create_iam_snapshot: a role for ':role/', a managed policy for
   * ':policy/', an empty record otherwise; any read error gives the
   * minimal record carrying the error, which is stored all the same.
   */
  function SnapshotOf(snapshotId: string, resourceId: string, read: ResourceRead, now: int): (s: SnapshotRecord)
    ensures s.snapshotId == snapshotId && s.resourceId == resourceId && s.createdAt == now
    ensures read.error.Some? <==> s.body.ReadError?
    ensures read.error.None? ==>
      (s.body.IamRole? <==> Contains(resourceId, ":role/"))
      && (s.body.IamPolicy? <==> !Contains(resourceId, ":role/") && Contains(resourceId, ":policy/"))
      && (s.body.UnknownResource? <==> !Contains(resourceId, ":role/") && !Contains(resourceId, ":policy/"))
    ensures s.body.IamRole? ==>
      s.body.roleName == LastSegment(resourceId) && s.body.inlinePolicies == read.inlinePolicies
    ensures s.body.IamPolicy? ==> s.body.policyArn == resourceId && s.body.policyDocument == read.policyDocument
  {
    var body :=
      if read.error.Some? then ReadError(read.error.value)
      else if Contains(resourceId, ":role/") then
        IamRole(LastSegment(resourceId), read.trustPolicy, read.attachedPolicies, read.inlinePolicies)
      else if Contains(resourceId, ":policy/") then
        IamPolicy(resourceId, read.policyDocument, read.versionId)
      else UnknownResource;
    SnapshotRecord(snapshotId, resourceId, body, now)
  }

  /** Deleting each named inline policy of a role, in order. */
  function DeleteCalls(roleName: string, names: seq<string>): (r: seq<IamWrite>)
    ensures |r| == |names| && forall i :: 0 <= i < |names| ==> r[i] == DeleteRolePolicy(roleName, names[i])
  {
    seq(|names|, i requires 0 <= i < |names| => DeleteRolePolicy(roleName, names[i]))
  }

  /** Putting back each inline policy of a role, in order. */
  function PutCalls(roleName: string, policies: seq<(string, string)>): (r: seq<IamWrite>)
    ensures |r| == |policies|
    ensures forall i :: 0 <= i < |policies| ==> r[i] == PutRolePolicy(roleName, policies[i].0, policies[i].1)
  {
    seq(|policies|, i requires 0 <= i < |policies| => PutRolePolicy(roleName, policies[i].0, policies[i].1))
  }

  /**
   * restore_snapshot on a stored snapshot: a role gets its inline
   * policies put back, a managed policy a new default version; the other
   * records restore nothing. `client` is the message of the exception
   * creating the IAM client raised, if it did: every record then fails with
   * it before any write. The first raising write ends it with its error.
   */
  function RestoreOf(body: SnapshotBody, client: Option<string>, failure: Option<(nat, string)>)
    : (r: (Result<bool>, seq<IamWrite>))
    ensures client.Some? ==> r == (Err(client.value), [])
    ensures r.0.Err? && client.None? ==> failure.Some? && r.0.message == failure.value.1
    ensures client.None? && (body.UnknownResource? || body.ReadError?) ==> r == (Ok(true), [])
    ensures client.None? && body.IamRole? && !Fails(failure, |body.inlinePolicies|) ==>
      r == (Ok(true), PutCalls(body.roleName, body.inlinePolicies))
    ensures client.None? && body.IamRole? && Fails(failure, |body.inlinePolicies|) ==>
      r.0.Err? && r.1 == PutCalls(body.roleName, body.inlinePolicies)[..failure.value.0 + 1]
    ensures client.None? && body.IamPolicy? ==> r.1 == [CreatePolicyVersion(body.policyArn, body.policyDocument)]
  {
    if client.Some? then (Err(client.value), [])
    else
    match body
    case IamRole(role, _, _, inline) =>
      var puts := PutCalls(role, inline);
      if Fails(failure, |inline|) then (Err(failure.value.1), puts[..failure.value.0 + 1]) else (Ok(true), puts)
    case IamPolicy(arn, doc, _) =>
      var call := [CreatePolicyVersion(arn, doc)];
      if Fails(failure, 1) then (Err(failure.value.1), call) else (Ok(true), call)
    case _ => (Ok(true), [])
  }

  /** A write at `failure.0` raises `failure.1`, when there is such a write among `n`. */
  predicate Fails(failure: Option<(nat, string)>, n: nat)
  {
    failure.Some? && failure.value.0 < n
  }

  /** The put loop of restore_snapshot for a role. */
  method RestoreInlinePolicies(roleName: string, policies: seq<(string, string)>, failure: Option<(nat, string)>)
    returns (ok: Result<bool>, calls: seq<IamWrite>)
    ensures (ok, calls) == RestoreOf(IamRole(roleName, None, [], policies), None, failure)
  {
    calls := [];
    var i := 0;
    while i < |policies|
      invariant 0 <= i <= |policies|
      invariant calls == PutCalls(roleName, policies[..i])
      invariant failure.Some? ==> i <= failure.value.0
    {
      calls := calls + [PutRolePolicy(roleName, policies[i].0, policies[i].1)];
      if failure.Some? && failure.value.0 == i {
        assert calls == PutCalls(roleName, policies)[..i + 1];
        return Err(failure.value.1), calls;
      }
      i := i + 1;
    }
    assert policies[..i] == policies;
    ok := Ok(true);
  }

  // ---------------------------------------------------------------------
  // Removal
  // ---------------------------------------------------------------------

  /** What remove_unused_permissions reports. */
  datatype RemovalResult =
    | InlineDeleted(policiesDeleted: seq<string>)
    | ManagedDeleted
    | RemovalFailed(error: string)

  /**
   * remove_unused_permissions: for a role every inline policy is deleted,
   * whatever permissions were asked for; for a managed policy the policy
   * itself is deleted; any other resource is unsupported. `client` is the
   * message of the exception creating the IAM client raised, if it did: it
   * fails every resource, before any write. `listing` is what the
   * list_role_policies read gave: the role's inline policy names, or the
   * message of the exception it raised. A raising listing or write ends the
   * removal with its error.
   */
  function RemovalOf(resourceId: string, client: Option<string>, listing: Result<seq<string>>,
                     failure: Option<(nat, string)>)
    : (r: (RemovalResult, seq<IamWrite>))
    ensures !r.0.RemovalFailed? <==>
      (client.None? &&
       ((Contains(resourceId, ":role/") && listing.Ok? && !Fails(failure, |listing.value|))
        || (!Contains(resourceId, ":role/") && Contains(resourceId, ":policy/") && !Fails(failure, 1))))
    ensures client.Some? ==> r == (RemovalFailed(client.value), [])
    ensures client.None? && Contains(resourceId, ":role/") && listing.Err? ==>
      r == (RemovalFailed(listing.message), [])
    ensures r.0.InlineDeleted? ==>
      listing.Ok? && r.0.policiesDeleted == listing.value
      && r.1 == DeleteCalls(LastSegment(resourceId), listing.value)
    ensures r.0.RemovalFailed? && client.None? && Contains(resourceId, ":role/") && listing.Ok? ==>
      r.1 == DeleteCalls(LastSegment(resourceId), listing.value)[..failure.value.0 + 1]
    ensures client.None? && !Contains(resourceId, ":role/") && !Contains(resourceId, ":policy/") ==>
      r == (RemovalFailed("Unsupported resource type"), [])
  {
    if client.Some? then (RemovalFailed(client.value), [])
    else if Contains(resourceId, ":role/") then
      if listing.Err? then (RemovalFailed(listing.message), [])
      else
        var deletes := DeleteCalls(LastSegment(resourceId), listing.value);
        if Fails(failure, |listing.value|) then (RemovalFailed(failure.value.1), deletes[..failure.value.0 + 1])
        else (InlineDeleted(listing.value), deletes)
    else if Contains(resourceId, ":policy/") then
      if Fails(failure, 1) then (RemovalFailed(failure.value.1), [DeletePolicy(resourceId)])
      else (ManagedDeleted, [DeletePolicy(resourceId)])
    else (RemovalFailed("Unsupported resource type"), [])
  }

  /** The delete loop of remove_unused_permissions for a role. */
  method DeleteInlinePolicies(roleName: string, names: seq<string>, failure: Option<(nat, string)>)
    returns (deleted: Result<seq<string>>, calls: seq<IamWrite>)
    ensures !Fails(failure, |names|) ==> deleted == Ok(names) && calls == DeleteCalls(roleName, names)
    ensures Fails(failure, |names|) ==>
      deleted == Err(failure.value.1) && calls == DeleteCalls(roleName, names)[..failure.value.0 + 1]
  {
    calls := [];
    var done: seq<string> := [];
    var i := 0;
    while i < |names|
      invariant 0 <= i <= |names|
      invariant calls == DeleteCalls(roleName, names[..i]) && done == names[..i]
      invariant failure.Some? ==> i <= failure.value.0
    {
      calls := calls + [DeleteRolePolicy(roleName, names[i])];
      if failure.Some? && failure.value.0 == i {
        assert calls == DeleteCalls(roleName, names)[..i + 1];
        return Err(failure.value.1), calls;
      }
      done := done + [names[i]];
      i := i + 1;
    }
    assert names[..i] == names;
    deleted := Ok(done);
  }

  /** The removal list: the simulation's permissionsToRemove, else the broad default. */
  function PermissionsToRemove(simulation: Option<seq<string>>): (r: seq<string>)
    ensures r != []
    ensures simulation.Some? && simulation.value != [] ==> r == simulation.value
    ensures (simulation.None? || simulation.value == []) ==> r == ["s3:*", "iam:*", "ec2:*"]
  {
    if simulation.Some? && simulation.value != [] then simulation.value else ["s3:*", "iam:*", "ec2:*"]
  }

  // ---------------------------------------------------------------------
  // The engine's state
  // ---------------------------------------------------------------------

  /** The outcome of the remediation step: the demo default without a resource id. */
  datatype StepResult = DemoSuccess | Removal(result: RemovalResult)

  predicate Succeeded(r: StepResult)
  {
    r.DemoSuccess? || !r.result.RemovalFailed?
  }

  /** The remediation step of execute, with the writes it issues. */
  function StepOf(resourceId: Option<string>, client: Option<string>, listing: Result<seq<string>>,
                  failure: Option<(nat, string)>)
    : (r: (StepResult, seq<IamWrite>))
    ensures !Given(resourceId) ==> r == (DemoSuccess, [])
    ensures Given(resourceId) ==> r.0 == Removal(RemovalOf(resourceId.value, client, listing, failure).0)
                                  && r.1 == RemovalOf(resourceId.value, client, listing, failure).1
  {
    if Given(resourceId) then
      var removal := RemovalOf(resourceId.value, client, listing, failure);
      (Removal(removal.0), removal.1)
    else (DemoSuccess, [])
  }

  /** REMEDIATED exactly when the step succeeded. */
  function FinalStatus(r: StepResult): (s: FindingStatus)
    ensures s == Remediated <==> Succeeded(r)
    ensures s == Remediated || s == Failed
  {
    if Succeeded(r) then Remediated else Failed
  }

  datatype ExecutionRecord = ExecutionRecord(
    executionId: string, findingId: string, snapshotId: Option<string>, status: FindingStatus,
    result: Option<StepResult>, error: Option<string>)

  datatype ExecuteAnswer = ExecuteAnswer(
    success: bool, executionId: string, snapshotId: Option<string>, findingId: string, details: StepResult)

  datatype RollbackAnswer = RollbackAnswer(snapshotId: string, executionId: Option<string>, findingId: Option<string>)

  /** The snapshot a rollback uses: the given one, else the one on the given execution. */
  function RollbackSnapshotId(snapshotId: Option<string>, executionId: Option<string>,
                              executions: map<string, ExecutionRecord>): (r: Option<string>)
    ensures Given(snapshotId) ==> r == snapshotId
    ensures !Given(snapshotId) && Given(executionId) && executionId.value in executions ==>
      r == executions[executionId.value].snapshotId
    ensures !Given(snapshotId) && !(Given(executionId) && executionId.value in executions) ==> !Given(r)
  {
    if !Given(snapshotId) && Given(executionId) && executionId.value in executions
    then executions[executionId.value].snapshotId
    else snapshotId
  }

  /** get_finding_status: a finding never written reports OPEN. */
  function StatusOf(statuses: map<string, FindingStatus>, findingId: string): (s: FindingStatus)
    ensures findingId !in statuses ==> s == Open
    ensures findingId in statuses ==> s == statuses[findingId]
  {
    if findingId in statuses then statuses[findingId] else Open
  }

  class RemediationEngine {
    var simulations: map<string, seq<string>>
    var executions: map<string, ExecutionRecord>
    var snapshots: map<string, SnapshotRecord>
    var findingStatus: map<string, FindingStatus>

    /** `simulations` maps a simulation id to its permissionsToRemove; nothing here writes it. */
    constructor(simulations: map<string, seq<string>>)
      ensures this.simulations == simulations
      ensures executions == map[] && snapshots == map[] && findingStatus == map[]
    {
      this.simulations := simulations;
      executions := map[];
      snapshots := map[];
      findingStatus := map[];
    }

    /** get_finding_status. */
    function FindingStatusOf(findingId: string): (s: FindingStatus)
      reads this
      ensures findingId !in findingStatus ==> s == Open
    {
      StatusOf(findingStatus, findingId)
    }

    /** get_execution_status: 404 for an unknown execution id. */
    function ExecutionStatus(executionId: string): (r: Reply<ExecutionRecord>)
      reads this
      ensures r.HttpError? <==> executionId !in executions
      ensures r.HttpError? ==> r == HttpError(404, "Execution not found")
      ensures r.Answer? ==> r.value == executions[executionId]
    {
      if executionId in executions then Answer(executions[executionId]) else HttpError(404, "Execution not found")
    }

    /** create_iam_snapshot: the record is stored whatever the reads returned. */
    method CreateIamSnapshot(resourceId: string, snapshotId: string, read: ResourceRead, now: int)
      modifies this
      ensures snapshots == old(snapshots)[snapshotId := SnapshotOf(snapshotId, resourceId, read, now)]
      ensures simulations == old(simulations) && executions == old(executions)
      ensures findingStatus == old(findingStatus)
    {
      snapshots := snapshots[snapshotId := SnapshotOf(snapshotId, resourceId, read, now)];
    }

    /** remove_unused_permissions, issuing the writes. */
    method RemoveUnusedPermissions(resourceId: string, client: Option<string>, listing: Result<seq<string>>,
                                   failure: Option<(nat, string)>)
      returns (r: RemovalResult, calls: seq<IamWrite>)
      ensures (r, calls) == RemovalOf(resourceId, client, listing, failure)
    {
      if client.Some? {
        return RemovalFailed(client.value), [];
      }
      if Contains(resourceId, ":role/") {
        if listing.Err? {
          return RemovalFailed(listing.message), [];
        }
        var deleted;
        deleted, calls := DeleteInlinePolicies(LastSegment(resourceId), listing.value, failure);
        r := if deleted.Ok? then InlineDeleted(deleted.value) else RemovalFailed(deleted.message);
      } else if Contains(resourceId, ":policy/") {
        calls := [DeletePolicy(resourceId)];
        r := if Fails(failure, 1) then RemovalFailed(failure.value.1) else ManagedDeleted;
      } else {
        r, calls := RemovalFailed("Unsupported resource type"), [];
      }
    }

    /** The remediation step of execute: the removal, or the demo success without a resource id. */
    method RunStep(resourceId: Option<string>, client: Option<string>, listing: Result<seq<string>>,
                   failure: Option<(nat, string)>)
      returns (step: StepResult, calls: seq<IamWrite>)
      ensures (step, calls) == StepOf(resourceId, client, listing, failure)
    {
      if Given(resourceId) {
        var removal;
        removal, calls := RemoveUnusedPermissions(resourceId.value, client, listing, failure);
        step := Removal(removal);
      } else {
        step, calls := DemoSuccess, [];
      }
    }

    /**
     * execute_remediation. The finding is EXECUTING while the step runs
     * and ends REMEDIATED or FAILED, in agreement with the stored record.
     * `raised` is an exception raised after the snapshot step: it leaves
     * the finding FAILED, stores a FAILED record and is answered with 500.
     */
    method Execute(findingId: string, simulationId: Option<string>, createRollback: bool,
                   resourceId: Option<string>, executionId: string, snapshotId: string, read: ResourceRead,
                   client: Option<string>, listing: Result<seq<string>>, failure: Option<(nat, string)>,
                   raised: Option<string>, now: int)
      returns (r: Reply<ExecuteAnswer>, calls: seq<IamWrite>)
      modifies this
      ensures simulations == old(simulations)
      ensures var taken := if createRollback && Given(resourceId) then Some(snapshotId) else None;
        (snapshots == if taken.Some?
           then old(snapshots)[snapshotId := SnapshotOf(snapshotId, resourceId.value, read, now)]
           else old(snapshots))
        && (raised.Some? ==>
              r == HttpError(500, raised.value) && calls == []
              && findingStatus == old(findingStatus)[findingId := Failed]
              && executions == old(executions)[executionId :=
                   ExecutionRecord(executionId, findingId, taken, Failed, None, raised)])
        && (raised.None? ==>
              var step := StepOf(resourceId, client, listing, failure).0;
              calls == StepOf(resourceId, client, listing, failure).1
              && findingStatus == old(findingStatus)[findingId := FinalStatus(step)]
              && executions == old(executions)[executionId :=
                   ExecutionRecord(executionId, findingId, taken, FinalStatus(step), Some(step), None)]
              && r == Answer(ExecuteAnswer(Succeeded(step), executionId, taken, findingId, step)))
    {
      findingStatus := findingStatus[findingId := Executing];
      var taken := SnapshotStep(createRollback, resourceId, snapshotId, read, now);
      var simulation := if simulationId.Some? && simulationId.value in simulations
        then Some(simulations[simulationId.value]) else None;
      var permissions := PermissionsToRemove(simulation);
      ghost var executing := findingStatus;
      r, calls := Settle(findingId, executionId, taken, resourceId, client, listing, failure, raised);
      assert executing[findingId := findingStatus[findingId]] == old(findingStatus)[findingId := findingStatus[findingId]];
    }

    /** The snapshot step of execute: a snapshot is taken only with the rollback flag and a resource id. */
    method SnapshotStep(createRollback: bool, resourceId: Option<string>, snapshotId: string, read: ResourceRead,
                        now: int)
      returns (taken: Option<string>)
      modifies this
      ensures taken == if createRollback && Given(resourceId) then Some(snapshotId) else None
      ensures snapshots == if taken.Some?
        then old(snapshots)[snapshotId := SnapshotOf(snapshotId, resourceId.value, read, now)]
        else old(snapshots)
      ensures simulations == old(simulations) && executions == old(executions)
      ensures findingStatus == old(findingStatus)
    {
      taken := None;
      if createRollback && Given(resourceId) {
        CreateIamSnapshot(resourceId.value, snapshotId, read, now);
        taken := Some(snapshotId);
      }
    }

    /** The rest of execute once the snapshot is taken: the step, the record and the final status. */
    method Settle(findingId: string, executionId: string, taken: Option<string>, resourceId: Option<string>,
                  client: Option<string>, listing: Result<seq<string>>, failure: Option<(nat, string)>,
                  raised: Option<string>)
      returns (r: Reply<ExecuteAnswer>, calls: seq<IamWrite>)
      modifies this
      ensures simulations == old(simulations) && snapshots == old(snapshots)
      ensures raised.Some? ==>
        r == HttpError(500, raised.value) && calls == []
        && findingStatus == old(findingStatus)[findingId := Failed]
        && executions == old(executions)[executionId := ExecutionRecord(executionId, findingId, taken, Failed, None, raised)]
      ensures raised.None? ==>
        var step := StepOf(resourceId, client, listing, failure).0;
        calls == StepOf(resourceId, client, listing, failure).1
        && findingStatus == old(findingStatus)[findingId := FinalStatus(step)]
        && executions == old(executions)[executionId :=
             ExecutionRecord(executionId, findingId, taken, FinalStatus(step), Some(step), None)]
        && r == Answer(ExecuteAnswer(Succeeded(step), executionId, taken, findingId, step))
    {
      if raised.Some? {
        findingStatus := findingStatus[findingId := Failed];
        executions := executions[executionId := ExecutionRecord(executionId, findingId, taken, Failed, None, raised)];
        return HttpError(500, raised.value), [];
      }
      var step;
      step, calls := RunStep(resourceId, client, listing, failure);
      var status := FinalStatus(step);
      executions := executions[executionId := ExecutionRecord(executionId, findingId, taken, status, Some(step), None)];
      findingStatus := findingStatus[findingId := status];
      r := Answer(ExecuteAnswer(Succeeded(step), executionId, taken, findingId, step));
    }

    /**
     * rollback_execution: 400 without a snapshot id; 500 for an unknown
     * snapshot or a failed restore, leaving the status as it was; on
     * success ROLLED_BACK when a finding id is given.
     */
    method Rollback(executionId: Option<string>, snapshotId: Option<string>, findingId: Option<string>,
                    client: Option<string>, failure: Option<(nat, string)>)
      returns (r: Reply<RollbackAnswer>, calls: seq<IamWrite>)
      modifies this
      ensures simulations == old(simulations) && executions == old(executions) && snapshots == old(snapshots)
      ensures var sid := RollbackSnapshotId(snapshotId, executionId, executions);
        (!Given(sid) ==>
           r == HttpError(400, "No snapshot_id available for rollback") && calls == []
           && findingStatus == old(findingStatus))
        && (Given(sid) && sid.value !in snapshots ==>
           r == HttpError(500, "Snapshot " + sid.value + " not found") && calls == []
           && findingStatus == old(findingStatus))
        && (Given(sid) && sid.value in snapshots ==>
           var restore := RestoreOf(snapshots[sid.value].body, client, failure);
           calls == restore.1
           && (restore.0.Err? ==>
                 r == HttpError(500, restore.0.message) && findingStatus == old(findingStatus))
           && (restore.0.Ok? ==>
                 r == Answer(RollbackAnswer(sid.value, executionId, findingId))
                 && findingStatus == if Given(findingId) then old(findingStatus)[findingId.value := RolledBack]
                                     else old(findingStatus)))
    {
      var sid := RollbackSnapshotId(snapshotId, executionId, executions);
      if !Given(sid) {
        return HttpError(400, "No snapshot_id available for rollback"), [];
      }
      if sid.value !in snapshots {
        return HttpError(500, "Snapshot " + sid.value + " not found"), [];
      }
      var body := snapshots[sid.value].body;
      var ok: Result<bool>;
      if client.Some? {
        return HttpError(500, client.value), [];
      }
      match body {
        case IamRole(role, _, _, inline) =>
          ok, calls := RestoreInlinePolicies(role, inline, failure);
        case IamPolicy(arn, doc, _) =>
          calls := [CreatePolicyVersion(arn, doc)];
          ok := if Fails(failure, 1) then Err(failure.value.1) else Ok(true);
        case _ =>
          ok, calls := Ok(true), [];
      }
      if ok.Err? {
        return HttpError(500, ok.message), calls;
      }
      if Given(findingId) {
        findingStatus := findingStatus[findingId.value := RolledBack];
      }
      r := Answer(RollbackAnswer(sid.value, executionId, findingId));
    }
  }
}
