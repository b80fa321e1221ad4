/**
 * The local remediation backend (run-local-backend.py): execute takes a
 * snapshot of the role, strips the unused actions from its inline
 * policies and records the execution; rollback puts the snapshot's
 * policies back.
 *
 * What the IAM reads returned is a parameter (their errors are swallowed,
 * so a failed read is just a shorter answer). A raising IAM write is the
 * parameter `failure`: the position of the write that raises, and its
 * message. Ids and timestamps are parameters.
 */
module LocalBackend {
  import opened Common
  import opened PolicyRewrite

  /** What get_role_policies and get_role returned. */
  datatype RoleRead = RoleRead(
    inlinePolicies: seq<(string, PolicyDocument)>, attachedPolicies: seq<string>, trustPolicy: Option<string>)

  datatype Snapshot = Snapshot(
    snapshotId: string, roleName: string, inlinePolicies: seq<(string, PolicyDocument)>,
    attachedPolicies: seq<string>, trustPolicy: Option<string>, createdAt: int)

  datatype Execution = Execution(
    executionId: string, snapshotId: Option<string>, roleName: string, status: string, changes: seq<PolicyChange>,
    actionsRemoved: seq<string>, createdAt: int)

  datatype ExecuteResult = ExecuteResult(
    executionId: string, snapshotId: Option<string>, findingId: string, roleName: string, changes: seq<PolicyChange>)

  datatype RollbackResult = RollbackResult(snapshotId: string, roleName: string, restoredCount: nat)

  function SnapshotOf(snapshotId: string, roleName: string, read: RoleRead, now: int): Snapshot
  {
    Snapshot(snapshotId, roleName, read.inlinePolicies, read.attachedPolicies, read.trustPolicy, now)
  }

  /** One pass of the apply_remediation loop: what happens to one inline policy. */
  method RemediatePolicy(name: string, doc: PolicyDocument, unused: seq<string>) returns (effect: Option<PolicyOutcome>)
    ensures effect == PolicyEffect(name, doc, unused)
  {
    var granted := CollectAllowActions(doc.statements);
    var remove := ActionsToRemove(unused, granted);
    if remove == [] {
      return None;
    }
    var rewritten := RemovePermissionsFromPolicy(doc, remove);
    if rewritten.statements != [] {
      effect := Some(PolicyOutcome(PutRolePolicy(name, rewritten), PolicyChange(name, Updated, remove)));
    } else {
      effect := Some(PolicyOutcome(DeleteRolePolicy(name), PolicyChange(name, Deleted, remove)));
    }
  }

  /** The policy loop of apply_remediation, stopped by the first raising write. */
  method RemediatePolicies(policies: seq<(string, PolicyDocument)>, unused: seq<string>, failure: Option<(nat, string)>)
    returns (outcomes: Result<seq<PolicyOutcome>>, calls: seq<IamCall>)
    ensures (outcomes, calls) == StoppedAt(Outcomes(policies, unused), failure)
  {
    var done: seq<PolicyOutcome> := [];
    var i := 0;
    while i < |policies|
      invariant 0 <= i <= |policies|
      invariant done == Outcomes(policies[..i], unused)
      invariant failure.Some? ==> |done| <= failure.value.0
    {
      OutcomesStep(policies, i, unused);
      var effect := RemediatePolicy(policies[i].0, policies[i].1, unused);
      if effect.Some? {
        if failure.Some? && failure.value.0 == |done| {
          StopAtFailure(policies, i, unused, failure);
          return Err(failure.value.1), Calls(done + [effect.value]);
        }
        done := done + [effect.value];
      }
      i := i + 1;
    }
    assert policies[..i] == policies;
    outcomes := Ok(done);
    calls := Calls(done);
  }

  class LocalRemediationBackend {
    var snapshots: map<string, Snapshot>
    var executions: map<string, Execution>

    constructor()
      ensures snapshots == map[] && executions == map[]
    {
      snapshots := map[];
      executions := map[];
    }

    /** create_snapshot: stores what the reads returned under a fresh id. */
    method CreateSnapshot(roleName: string, snapshotId: string, read: RoleRead, now: int)
      modifies this
      ensures snapshots == old(snapshots)[snapshotId := SnapshotOf(snapshotId, roleName, read, now)]
      ensures executions == old(executions)
    {
      snapshots := snapshots[snapshotId := SnapshotOf(snapshotId, roleName, read, now)];
    }

    /**
     * apply_remediation: each inline policy granting an unused action is
     * rewritten and put back, or deleted when nothing remains; the SUCCESS
     * execution lists the whole requested list as removed. A raising write
     * ends the loop with no execution stored.
     */
    method ApplyRemediation(roleName: string, unused: seq<string>, snapshotId: Option<string>,
                            policies: seq<(string, PolicyDocument)>, executionId: string,
                            failure: Option<(nat, string)>, now: int)
      returns (result: Result<Execution>, calls: seq<IamCall>)
      modifies this
      ensures snapshots == old(snapshots)
      ensures var all := Calls(Outcomes(policies, unused));
        (Fails(failure, |all|) ==>
           result == Err(failure.value.1) && calls == all[..failure.value.0 + 1] && executions == old(executions))
        && (!Fails(failure, |all|) ==>
           calls == all
           && result == Ok(Execution(executionId, snapshotId, roleName, "SUCCESS", Changes(Outcomes(policies, unused)),
                                     unused, now))
           && executions == old(executions)[executionId := result.value])
    {
      var outcomes;
      outcomes, calls := RemediatePolicies(policies, unused, failure);
      if outcomes.Err? {
        return Err(outcomes.message), calls;
      }
      var execution := Execution(executionId, snapshotId, roleName, "SUCCESS", Changes(outcomes.value), unused, now);
      executions := executions[executionId := execution];
      result := Ok(execution);
    }

    /**
     * execute_remediation: 400 without a role name; a snapshot when asked;
     * the remediation when unused actions are given, otherwise a SUCCESS
     * answer that changes nothing and stores no execution. A raising write
     * becomes a 500 (the snapshot stays stored).
     */
    method ExecuteRemediation(findingId: string, resourceId: Option<string>, roleNameRequested: Option<string>,
                              unusedRequested: Option<seq<string>>, createRollback: bool, snapshotId: string,
                              executionId: string, read: RoleRead, failure: Option<(nat, string)>, now: int)
      returns (r: Reply<ExecuteResult>, calls: seq<IamCall>)
      modifies this
      ensures var role := RequestRoleName(roleNameRequested, resourceId, true);
        !Given(role) ==>
          r == HttpError(400, "Could not determine role name") && calls == []
          && snapshots == old(snapshots) && executions == old(executions)
      ensures var role := RequestRoleName(roleNameRequested, resourceId, true);
        Given(role) ==>
          var unused := GetOr(unusedRequested, []);
          var taken := if createRollback then Some(snapshotId) else None;
          var outcomes := Outcomes(read.inlinePolicies, unused);
          (snapshots == if createRollback
             then old(snapshots)[snapshotId := SnapshotOf(snapshotId, role.value, read, now)]
             else old(snapshots))
          && (unused == [] ==>
                calls == [] && executions == old(executions)
                && r == Answer(ExecuteResult(executionId, taken, findingId, role.value, [])))
          && (unused != [] && Fails(failure, |outcomes|) ==>
                r == HttpError(500, failure.value.1) && calls == Calls(outcomes)[..failure.value.0 + 1]
                && executions == old(executions))
          && (unused != [] && !Fails(failure, |outcomes|) ==>
                calls == Calls(outcomes)
                && r == Answer(ExecuteResult(executionId, taken, findingId, role.value, Changes(outcomes)))
                && executions == old(executions)[executionId := Execution(executionId, taken, role.value, "SUCCESS",
                                                                          Changes(outcomes), unused, now)])
    {
      var role := RequestRoleName(roleNameRequested, resourceId, true);
      if !Given(role) {
        return HttpError(400, "Could not determine role name"), [];
      }
      var unused := GetOr(unusedRequested, []);
      var taken: Option<string> := None;
      if createRollback {
        CreateSnapshot(role.value, snapshotId, read, now);
        taken := Some(snapshotId);
      }
      if unused == [] {
        return Answer(ExecuteResult(executionId, taken, findingId, role.value, [])), [];
      }
      var result;
      result, calls := ApplyRemediation(role.value, unused, taken, read.inlinePolicies, executionId, failure, now);
      if result.Err? {
        return HttpError(500, result.message), calls;
      }
      r := Answer(ExecuteResult(executionId, taken, findingId, role.value, result.value.changes));
    }

    /**
     * rollback_remediation: an unknown snapshot raises 404, which the
     * endpoint turns into a 500 carrying the text "404: ..."; otherwise the
     * listed current policies are deleted and the snapshot's policies are
     * put back, a raising put becoming a 500.
     * `deleted` are the current policy names listed and deleted before any
     * error (those errors are swallowed).
     */
    method RollbackRemediation(snapshotId: string, deleted: seq<string>, failure: Option<(nat, string)>)
      returns (r: Reply<RollbackResult>, calls: seq<IamCall>)
      ensures snapshotId !in snapshots ==>
        r == HttpError(500, "404: Snapshot " + snapshotId + " not found") && calls == []
      ensures snapshotId in snapshots ==>
        var snap := snapshots[snapshotId];
        var puts := Puts(snap.inlinePolicies);
        (Fails(failure, |puts|) ==>
           r == HttpError(500, failure.value.1) && calls == Deletes(deleted) + puts[..failure.value.0 + 1])
        && (!Fails(failure, |puts|) ==>
           r == Answer(RollbackResult(snapshotId, snap.roleName, |snap.inlinePolicies|))
           && calls == RollbackCalls(deleted, snap.inlinePolicies))
    {
      if snapshotId !in snapshots {
        return HttpError(500, "404: Snapshot " + snapshotId + " not found"), [];
      }
      var snap := snapshots[snapshotId];
      calls := [];
      var i := 0;
      while i < |deleted|
        invariant 0 <= i <= |deleted|
        invariant calls == Deletes(deleted[..i])
      {
        assert deleted[..i + 1][..i] == deleted[..i];
        calls := calls + [DeleteRolePolicy(deleted[i])];
        i := i + 1;
      }
      assert deleted[..i] == deleted;
      var policies := snap.inlinePolicies;
      var j := 0;
      while j < |policies|
        invariant 0 <= j <= |policies|
        invariant calls == Deletes(deleted) + Puts(policies[..j])
        invariant failure.Some? ==> j <= failure.value.0
      {
        assert policies[..j + 1][..j] == policies[..j];
        calls := calls + [PutRolePolicy(policies[j].0, policies[j].1)];
        if failure.Some? && failure.value.0 == j {
          PutsPrefix(policies, j + 1);
          return HttpError(500, failure.value.1), calls;
        }
        j := j + 1;
      }
      assert policies[..j] == policies;
      r := Answer(RollbackResult(snapshotId, snap.roleName, |policies|));
    }
  }
}
