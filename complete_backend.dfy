/**
 * The complete remediation backend (complete-backend-main.py): simulate
 * infers the unused actions of a role and stores the finding; execute
 * checks its guards, takes a snapshot, strips the unused actions from the
 * snapshot's inline policies and records the execution; rollback restores
 * the snapshot's policies.
 *
 * IAM reads are parameters (their errors are swallowed, so a failed read
 * is a shorter answer); a raising IAM write is the parameter `failure`,
 * the position of the write that raises and its message.
 */
module CompleteBackend {
  import opened Common
  import opened PolicyRewrite
  import opened SortedSets

  datatype Snapshot = Snapshot(
    snapshotId: string, roleName: string, roleArn: Option<string>,
    inlinePolicies: seq<(string, PolicyDocument)>, createdAt: int)

  datatype Execution = Execution(
    executionId: string, snapshotId: string, changes: seq<PolicyChange>, totalRemoved: nat)

  datatype Finding = Finding(
    findingId: string, resourceId: Option<string>, roleName: Option<string>,
    unusedActions: seq<string>, observedActions: seq<string>, allowedActions: seq<string>)

  datatype SimulateResult = SimulateResult(
    findingId: string, roleName: Option<string>, confidence: nat,
    permissionsToRemove: seq<string>, permissionsToKeep: seq<string>, totalAllowed: nat)

  datatype ExecuteResult = ExecuteResult(
    executionId: string, snapshotId: string, findingId: string, roleName: string,
    changes: seq<PolicyChange>, totalRemoved: nat)

  datatype RollbackResult = RollbackResult(snapshotId: string, roleName: string, restored: seq<string>)

  // ---------------------------------------------------------------------
  // simulate
  // ---------------------------------------------------------------------

  /** The Allow actions of the documents read, in order. */
  function AllowedIn(docs: seq<PolicyDocument>): (r: seq<string>)
    ensures forall a :: a in r <==> exists d :: d in docs && a in AllowActions(d.statements)
  {
    if docs == [] then []
    else
      var r := AllowedIn(docs[..|docs| - 1]) + AllowActions(docs[|docs| - 1].statements);
      assert forall d :: d in docs <==> d in docs[..|docs| - 1] || d == docs[|docs| - 1];
      r
  }

  /** The policy-reading loop of simulate: the Allow actions of every document read. */
  method ReadAllowedActions(docs: seq<PolicyDocument>) returns (actions: seq<string>)
    ensures actions == AllowedIn(docs)
  {
    actions := [];
    var i := 0;
    while i < |docs|
      invariant 0 <= i <= |docs|
      invariant actions == AllowedIn(docs[..i])
    {
      assert docs[..i + 1][..i] == docs[..i];
      var more := CollectAllowActions(docs[i].statements);
      actions := actions + more;
      i := i + 1;
    }
    assert docs[..i] == docs;
  }

  /**
   * The finding simulate stores. With a role and no requested unused
   * actions, the Allow actions read are appended to the allowed list;
   * unless the read raised, the unused actions are then all of them when
   * nothing is observed, else the allowed actions not observed, without
   * repetitions. `docs` are the documents read before any error.
   */
  function SimulatedFinding(findingId: string, resourceId: Option<string>, unusedRequested: Option<seq<string>>,
                            observedRequested: Option<seq<string>>, allowedRequested: Option<seq<string>>,
                            docs: seq<PolicyDocument>, readFailed: bool): (f: Finding)
    ensures f.findingId == findingId && f.resourceId == resourceId
    ensures f.roleName == RequestRoleName(None, resourceId, false)
    ensures f.observedActions == GetOr(observedRequested, [])
    ensures !(Given(f.roleName) && GetOr(unusedRequested, []) == []) ==>
      f.unusedActions == GetOr(unusedRequested, []) && f.allowedActions == GetOr(allowedRequested, [])
    ensures Given(f.roleName) && GetOr(unusedRequested, []) == [] ==>
      f.allowedActions == GetOr(allowedRequested, []) + AllowedIn(docs)
      && (readFailed ==> f.unusedActions == [])
      && (!readFailed && f.observedActions == [] ==> f.unusedActions == f.allowedActions)
      && (!readFailed && f.observedActions != [] ==>
            StrictlySorted(f.unusedActions)
            && forall a :: a in f.unusedActions <==> a in f.allowedActions && a !in f.observedActions)
  {
    var role := RequestRoleName(None, resourceId, false);
    var unused := GetOr(unusedRequested, []);
    var observed := GetOr(observedRequested, []);
    var allowed := GetOr(allowedRequested, []);
    if Given(role) && unused == [] then
      var allowed' := allowed + AllowedIn(docs);
      var unused' :=
        if readFailed then []
        else if observed == [] then allowed'
        else SortedSet(Filter(allowed', (a: string) => a !in observed));
      Finding(findingId, resourceId, role, unused', observed, allowed')
    else
      Finding(findingId, resourceId, role, unused, observed, allowed)
  }

  /** The confidence simulate reports. */
  function SimulateConfidence(unused: seq<string>): (c: nat)
    ensures c > 0 <==> unused != []
    ensures c <= 95
  {
    if |unused| > 0 then 95 else 0
  }

  // ---------------------------------------------------------------------
  // execute's guards
  // ---------------------------------------------------------------------

  /** An action execute refuses to remove: "*" or a whole service. */
  predicate IsWildcard(action: string)
  {
    action == "*" || EndsWith(action, ":*")
  }

  /** The first wildcard action, in order. */
  function FirstWildcard(actions: seq<string>): (r: Option<string>)
    ensures r.None? <==> forall a :: a in actions ==> !IsWildcard(a)
    ensures r.Some? ==> r.value in actions && IsWildcard(r.value)
  {
    if actions == [] then None
    else
      var earlier := FirstWildcard(actions[..|actions| - 1]);
      assert forall a :: a in actions <==> a in actions[..|actions| - 1] || a == actions[|actions| - 1];
      if earlier.Some? then earlier
      else if IsWildcard(actions[|actions| - 1]) then Some(actions[|actions| - 1])
      else None
  }

  /** A wildcard found in a prefix is the first wildcard of the whole list. */
  lemma {:induction false} FirstWildcardOfPrefix(actions: seq<string>, k: nat)
    requires k <= |actions|
    requires FirstWildcard(actions[..k]).Some?
    ensures FirstWildcard(actions) == FirstWildcard(actions[..k])
  {
    if k < |actions| {
      assert actions[..|actions| - 1][..k] == actions[..k];
      FirstWildcardOfPrefix(actions[..|actions| - 1], k);
    } else {
      assert actions[..k] == actions;
    }
  }

  /** The first wildcard has no wildcard before it. */
  lemma {:induction false} FirstWildcardIsFirst(actions: seq<string>)
    requires FirstWildcard(actions).Some?
    ensures exists i :: 0 <= i < |actions| && actions[i] == FirstWildcard(actions).value
                        && forall j :: 0 <= j < i ==> !IsWildcard(actions[j])
  {
    var prefix := actions[..|actions| - 1];
    var i: nat;
    if FirstWildcard(prefix).Some? {
      FirstWildcardIsFirst(prefix);
      i :| 0 <= i < |prefix| && prefix[i] == FirstWildcard(prefix).value
           && forall j :: 0 <= j < i ==> !IsWildcard(prefix[j]);
    } else {
      i := |prefix|;
      forall j | 0 <= j < i
        ensures !IsWildcard(prefix[j])
      {
        assert prefix[j] in prefix;
      }
    }
    assert forall j :: 0 <= j < i ==> actions[j] == prefix[j];
  }

  /** The wildcard check of execute, a loop stopping at the first wildcard. */
  method FindWildcard(actions: seq<string>) returns (found: Option<string>)
    ensures found == FirstWildcard(actions)
  {
    var i := 0;
    while i < |actions|
      invariant 0 <= i <= |actions|
      invariant FirstWildcard(actions[..i]) == None
    {
      assert actions[..i + 1][..i] == actions[..i];
      if IsWildcard(actions[i]) {
        FirstWildcardOfPrefix(actions, i + 1);
        return Some(actions[i]);
      }
      i := i + 1;
    }
    assert actions[..i] == actions;
    found := None;
  }

  /** The unused actions execute works on: the requested ones, else the stored finding's. */
  function UnusedFor(unusedRequested: Option<seq<string>>, stored: Option<Finding>): (r: seq<string>)
    ensures GetOr(unusedRequested, []) != [] ==> r == unusedRequested.value
    ensures GetOr(unusedRequested, []) == [] && stored.None? ==> r == []
    ensures GetOr(unusedRequested, []) == [] && stored.Some? ==> r == stored.value.unusedActions
  {
    if GetOr(unusedRequested, []) != [] then unusedRequested.value
    else if stored.Some? then stored.value.unusedActions
    else []
  }

  /** The 400 answer of execute, if any, checked before any snapshot or IAM call. */
  function Rejection(role: Option<string>, unused: seq<string>): (r: Option<string>)
    ensures r.None? <==> Given(role) && unused != [] && forall a :: a in unused ==> !IsWildcard(a)
    ensures !Given(role) ==> r == Some("Could not determine role name")
    ensures Given(role) && unused == [] ==> r == Some("No unused actions to remove")
    ensures Given(role) && unused != [] && FirstWildcard(unused).Some? ==>
      r == Some("Blocked unsafe wildcard action: " + FirstWildcard(unused).value)
  {
    if !Given(role) then Some("Could not determine role name")
    else if unused == [] then Some("No unused actions to remove")
    else match FirstWildcard(unused)
      case Some(w) => Some("Blocked unsafe wildcard action: " + w)
      case None => None
  }

  // ---------------------------------------------------------------------
  // remove_permissions
  // ---------------------------------------------------------------------

  /** The sum of the per-policy removed counts. */
  function TotalRemoved(changes: seq<PolicyChange>): nat
  {
    if changes == [] then 0
    else TotalRemoved(changes[..|changes| - 1]) + |changes[|changes| - 1].removedActions|
  }

  lemma ChangesAppend(outcomes: seq<PolicyOutcome>, o: PolicyOutcome)
    ensures Changes(outcomes + [o]) == Changes(outcomes) + [o.change]
  {
    assert Changes(outcomes + [o])[..|outcomes|] == Changes(outcomes);
  }

  /** A touched policy loses at least one action and at most the whole unused list. */
  lemma PolicyEffectRemovedCount(name: string, doc: PolicyDocument, unused: seq<string>)
    requires PolicyEffect(name, doc, unused).Some?
    ensures 1 <= |PolicyEffect(name, doc, unused).value.change.removedActions| <= |unused|
  {
  }

  lemma TotalRemovedAppend(before: seq<PolicyOutcome>, o: PolicyOutcome)
    ensures TotalRemoved(Changes(before + [o])) == TotalRemoved(Changes(before)) + |o.change.removedActions|
  {
    ChangesAppend(before, o);
    assert Changes(before + [o])[..|before|] == Changes(before);
  }

  /**
   * total_removed lies between the number of touched policies and that
   * number times the length of the unused list.
   */
  lemma {:induction false} TotalRemovedBounds(policies: seq<(string, PolicyDocument)>, unused: seq<string>)
    ensures var outcomes := Outcomes(policies, unused);
      |outcomes| <= TotalRemoved(Changes(outcomes)) <= |outcomes| * |unused|
  {
    var outcomes := Outcomes(policies, unused);
    if policies == [] {
      assert Changes(outcomes) == [];
    } else {
      var prefix := policies[..|policies| - 1];
      var last := policies[|policies| - 1];
      TotalRemovedBounds(prefix, unused);
      var before := Outcomes(prefix, unused);
      var effect := PolicyEffect(last.0, last.1, unused);
      if effect.None? {
        assert outcomes == before;
      } else {
        assert outcomes == before + [effect.value];
        TotalRemovedAppend(before, effect.value);
        PolicyEffectRemovedCount(last.0, last.1, unused);
        var n, m := |before|, |unused|;
        var t, k := TotalRemoved(Changes(before)), |effect.value.change.removedActions|;
        assert TotalRemoved(Changes(outcomes)) == t + k;
        assert |outcomes| == n + 1;
        assert n <= t <= n * m && 1 <= k <= m;
        MulSucc(n, m);
      }
    }
  }

  lemma MulSucc(a: nat, b: nat)
    ensures (a + 1) * b == a * b + b
  {
  }

  /**
   * One pass of the remove_permissions loop. The rewrite filters by the
   * whole unused list, which gives the same document as filtering by the
   * unused actions the policy grants.
   */
  method RemovePolicyPermissions(name: string, doc: PolicyDocument, unused: seq<string>)
    returns (effect: Option<PolicyOutcome>)
    ensures effect == PolicyEffect(name, doc, unused)
  {
    var granted := CollectAllowActions(doc.statements);
    var remove := ActionsToRemove(unused, granted);
    if remove == [] {
      return None;
    }
    var rewritten := RemovePermissionsFromPolicy(doc, unused);
    RemovingGrantedOnlySuffices(doc, unused);
    if rewritten.statements != [] {
      effect := Some(PolicyOutcome(PutRolePolicy(name, rewritten), PolicyChange(name, Updated, remove)));
    } else {
      effect := Some(PolicyOutcome(DeleteRolePolicy(name), PolicyChange(name, Deleted, remove)));
    }
  }

  /** `total_removed += len(actions_to_remove)` for one more touched policy. */
  method AddRemoved(done: seq<PolicyOutcome>, o: PolicyOutcome, total: nat) returns (sum: nat)
    requires total == TotalRemoved(Changes(done))
    ensures sum == TotalRemoved(Changes(done + [o]))
  {
    TotalRemovedAppend(done, o);
    sum := total + |o.change.removedActions|;
  }

  /** The policy loop of remove_permissions, with its running total, stopped by the first raising write. */
  method RemovePolicies(policies: seq<(string, PolicyDocument)>, unused: seq<string>, failure: Option<(nat, string)>)
    returns (outcomes: Result<seq<PolicyOutcome>>, calls: seq<IamCall>, total: nat)
    ensures (outcomes, calls) == StoppedAt(Outcomes(policies, unused), failure)
    ensures outcomes.Ok? ==> total == TotalRemoved(Changes(outcomes.value))
  {
    var done: seq<PolicyOutcome> := [];
    total := 0;
    var i := 0;
    while i < |policies|
      invariant 0 <= i <= |policies|
      invariant done == Outcomes(policies[..i], unused)
      invariant total == TotalRemoved(Changes(done))
      invariant failure.Some? ==> |done| <= failure.value.0
    {
      OutcomesStep(policies, i, unused);
      var effect := RemovePolicyPermissions(policies[i].0, policies[i].1, unused);
      if effect.Some? {
        if failure.Some? && failure.value.0 == |done| {
          StopAtFailure(policies, i, unused, failure);
          return Err(failure.value.1), Calls(done + [effect.value]), total;
        }
        total := AddRemoved(done, effect.value, total);
        done := done + [effect.value];
      }
      i := i + 1;
    }
    assert policies[..i] == policies;
    assert !Fails(failure, |done|);
    outcomes := Ok(done);
    calls := Calls(done);
  }

  /** How a missing snapshot id reads in the 404 detail. */
  function IdText(id: Option<string>): string
  {
    if id.Some? then id.value else "None"
  }

  class CompleteBackend {
    var snapshots: map<string, Snapshot>
    var executions: map<string, Execution>
    var findings: map<string, Finding>

    constructor()
      ensures snapshots == map[] && executions == map[] && findings == map[]
    {
      snapshots := map[];
      executions := map[];
      findings := map[];
    }

    /** simulate: stores the finding and reports what would be removed. */
    method Simulate(findingId: string, resourceId: Option<string>, unusedRequested: Option<seq<string>>,
                    observedRequested: Option<seq<string>>, allowedRequested: Option<seq<string>>,
                    docs: seq<PolicyDocument>, readFailed: bool)
      returns (r: SimulateResult)
      modifies this
      ensures var f := SimulatedFinding(findingId, resourceId, unusedRequested, observedRequested, allowedRequested,
                                        docs, readFailed);
        findings == old(findings)[findingId := f]
        && r == SimulateResult(findingId, f.roleName, SimulateConfidence(f.unusedActions),
                               f.unusedActions, f.observedActions, |f.allowedActions|)
      ensures snapshots == old(snapshots) && executions == old(executions)
    {
      var f := ComputeFinding(findingId, resourceId, unusedRequested, observedRequested, allowedRequested,
                              docs, readFailed);
      findings := findings[findingId := f];
      r := SimulateResult(findingId, f.roleName, SimulateConfidence(f.unusedActions), f.unusedActions,
                          f.observedActions, |f.allowedActions|);
    }

    /** get_full_snapshot: always stored, whatever the reads returned. */
    method GetFullSnapshot(roleName: string, snapshotId: string, roleArn: Option<string>,
                           policies: seq<(string, PolicyDocument)>, now: int)
      modifies this
      ensures snapshots == old(snapshots)[snapshotId := Snapshot(snapshotId, roleName, roleArn, policies, now)]
      ensures executions == old(executions) && findings == old(findings)
    {
      snapshots := snapshots[snapshotId := Snapshot(snapshotId, roleName, roleArn, policies, now)];
    }

    /**
     * remove_permissions: 404 for an unknown or missing snapshot id;
     * otherwise the snapshot's inline policies are rewritten and the
     * execution is stored. A raising write is answered with 500 and its
     * message, as execute does.
     */
    method RemovePermissions(roleName: string, unused: seq<string>, snapshotId: Option<string>,
                             executionId: string, failure: Option<(nat, string)>)
      returns (r: Reply<Execution>, calls: seq<IamCall>)
      modifies this
      ensures snapshots == old(snapshots) && findings == old(findings)
      ensures !(snapshotId.Some? && snapshotId.value in snapshots) ==>
        r == HttpError(404, "Snapshot " + IdText(snapshotId) + " not found") && calls == []
        && executions == old(executions)
      ensures snapshotId.Some? && snapshotId.value in snapshots ==>
        var all := Outcomes(snapshots[snapshotId.value].inlinePolicies, unused);
        (Fails(failure, |all|) ==>
           r == HttpError(500, failure.value.1) && calls == Calls(all)[..failure.value.0 + 1]
           && executions == old(executions))
        && (!Fails(failure, |all|) ==>
           calls == Calls(all)
           && r == Answer(Execution(executionId, snapshotId.value, Changes(all), TotalRemoved(Changes(all))))
           && executions == old(executions)[executionId := r.value])
    {
      if !(snapshotId.Some? && snapshotId.value in snapshots) {
        return HttpError(404, "Snapshot " + IdText(snapshotId) + " not found"), [];
      }
      var snap := snapshots[snapshotId.value];
      var outcomes, total;
      outcomes, calls, total := RemovePolicies(snap.inlinePolicies, unused, failure);
      if outcomes.Err? {
        return HttpError(500, outcomes.message), calls;
      }
      var execution := Execution(executionId, snapshotId.value, Changes(outcomes.value), total);
      executions := executions[executionId := execution];
      r := Answer(execution);
    }

    /**
     * execute: the 400 guards, then a snapshot when asked and the removal.
     * Without create_rollback the removal looks up the snapshot None and
     * the request fails with 404.
     */
    method Execute(findingId: string, resourceId: Option<string>, roleNameRequested: Option<string>,
                   unusedRequested: Option<seq<string>>, createRollback: bool, snapshotId: string,
                   executionId: string, roleArn: Option<string>, policies: seq<(string, PolicyDocument)>,
                   failure: Option<(nat, string)>, now: int)
      returns (r: Reply<ExecuteResult>, calls: seq<IamCall>)
      modifies this
      ensures findings == old(findings)
      ensures var role := RequestRoleName(roleNameRequested, resourceId, false);
        var unused := UnusedFor(unusedRequested, if findingId in old(findings) then Some(old(findings)[findingId]) else None);
        var rejection := Rejection(role, unused);
        (rejection.Some? ==>
           r == HttpError(400, rejection.value) && calls == []
           && snapshots == old(snapshots) && executions == old(executions))
        && (rejection.None? && !createRollback ==>
           r == HttpError(404, "Snapshot None not found") && calls == []
           && snapshots == old(snapshots) && executions == old(executions))
        && (rejection.None? && createRollback ==>
           var all := Outcomes(policies, unused);
           snapshots == old(snapshots)[snapshotId := Snapshot(snapshotId, role.value, roleArn, policies, now)]
           && (Fails(failure, |all|) ==>
                 r == HttpError(500, failure.value.1) && calls == Calls(all)[..failure.value.0 + 1]
                 && executions == old(executions))
           && (!Fails(failure, |all|) ==>
                 calls == Calls(all)
                 && r == Answer(ExecuteResult(executionId, snapshotId, findingId, role.value,
                                              Changes(all), TotalRemoved(Changes(all))))
                 && executions == old(executions)[executionId := Execution(executionId, snapshotId, Changes(all),
                                                                           TotalRemoved(Changes(all)))]))
    {
      var role := RequestRoleName(roleNameRequested, resourceId, false);
      var stored := if findingId in findings then Some(findings[findingId]) else None;
      var unused := UnusedFor(unusedRequested, stored);
      if !Given(role) {
        return HttpError(400, "Could not determine role name"), [];
      }
      if unused == [] {
        return HttpError(400, "No unused actions to remove"), [];
      }
      var wildcard := FindWildcard(unused);
      if wildcard.Some? {
        return HttpError(400, "Blocked unsafe wildcard action: " + wildcard.value), [];
      }
      var reply;
      reply, calls := SnapshotAndRemove(role.value, unused, createRollback, snapshotId, executionId, roleArn,
                                        policies, failure, now);
      r := if reply.HttpError? then HttpError(reply.statusCode, reply.detail)
           else Answer(ExecuteResult(executionId, snapshotId, findingId, role.value,
                                     reply.value.changes, reply.value.totalRemoved));
    }

    /** The part of execute after validation: the snapshot when asked for, then the removal against it. */
    method SnapshotAndRemove(roleName: string, unused: seq<string>, createRollback: bool, snapshotId: string,
                             executionId: string, roleArn: Option<string>, policies: seq<(string, PolicyDocument)>,
                             failure: Option<(nat, string)>, now: int)
      returns (r: Reply<Execution>, calls: seq<IamCall>)
      modifies this
      ensures findings == old(findings)
      ensures !createRollback ==>
        r == HttpError(404, "Snapshot None not found") && calls == []
        && snapshots == old(snapshots) && executions == old(executions)
      ensures createRollback ==>
        var all := Outcomes(policies, unused);
        snapshots == old(snapshots)[snapshotId := Snapshot(snapshotId, roleName, roleArn, policies, now)]
        && (Fails(failure, |all|) ==>
              r == HttpError(500, failure.value.1) && calls == Calls(all)[..failure.value.0 + 1]
              && executions == old(executions))
        && (!Fails(failure, |all|) ==>
              calls == Calls(all)
              && r == Answer(Execution(executionId, snapshotId, Changes(all), TotalRemoved(Changes(all))))
              && executions == old(executions)[executionId := r.value])
    {
      var taken: Option<string> := None;
      if createRollback {
        GetFullSnapshot(roleName, snapshotId, roleArn, policies, now);
        taken := Some(snapshotId);
      }
      r, calls := RemovePermissions(roleName, unused, taken, executionId, failure);
    }

    /**
     * rollback: an unknown snapshot raises 404, which the endpoint turns
     * into a 500 carrying the text "404: ..."; otherwise the listed current
     * policies are deleted and the snapshot's policies put back, a raising
     * put becoming a 500. `deleted` are the current policy names listed and
     * deleted before any error (those errors are swallowed).
     */
    method Rollback(snapshotId: string, deleted: seq<string>, failure: Option<(nat, string)>)
      returns (r: Reply<RollbackResult>, calls: seq<IamCall>)
      ensures snapshotId !in snapshots ==>
        r == HttpError(500, "404: Snapshot " + snapshotId + " not found") && calls == []
      ensures snapshotId in snapshots ==>
        var snap := snapshots[snapshotId];
        var puts := Puts(snap.inlinePolicies);
        (Fails(failure, |puts|) ==>
           r == HttpError(500, failure.value.1) && calls == Deletes(deleted) + puts[..failure.value.0 + 1])
        && (!Fails(failure, |puts|) ==>
           r == Answer(RollbackResult(snapshotId, snap.roleName, PolicyNames(snap.inlinePolicies)))
           && calls == RollbackCalls(deleted, snap.inlinePolicies))
    {
      if snapshotId !in snapshots {
        return HttpError(500, "404: Snapshot " + snapshotId + " not found"), [];
      }
      var snap := snapshots[snapshotId];
      calls := DeleteListed(deleted);
      var policies := snap.inlinePolicies;
      var restored: seq<string> := [];
      var j := 0;
      while j < |policies|
        invariant 0 <= j <= |policies|
        invariant calls == Deletes(deleted) + Puts(policies[..j])
        invariant restored == PolicyNames(policies[..j])
        invariant failure.Some? ==> j <= failure.value.0
      {
        assert policies[..j + 1][..j] == policies[..j];
        calls := calls + [PutRolePolicy(policies[j].0, policies[j].1)];
        if failure.Some? && failure.value.0 == j {
          PutsPrefix(policies, j + 1);
          return HttpError(500, failure.value.1), calls;
        }
        restored := restored + [policies[j].0];
        j := j + 1;
      }
      assert policies[..j] == policies;
      r := Answer(RollbackResult(snapshotId, snap.roleName, restored));
    }
  }

  /** The finding simulate builds, step by step as the source does. */
  method ComputeFinding(findingId: string, resourceId: Option<string>, unusedRequested: Option<seq<string>>,
                        observedRequested: Option<seq<string>>, allowedRequested: Option<seq<string>>,
                        docs: seq<PolicyDocument>, readFailed: bool)
    returns (f: Finding)
    ensures f == SimulatedFinding(findingId, resourceId, unusedRequested, observedRequested, allowedRequested,
                                  docs, readFailed)
  {
    var role := RequestRoleName(None, resourceId, false);
    var unused := GetOr(unusedRequested, []);
    var observed := GetOr(observedRequested, []);
    var allowed := GetOr(allowedRequested, []);
    if Given(role) && unused == [] {
      var read := ReadAllowedActions(docs);
      allowed := allowed + read;
      if !readFailed {
        if observed == [] {
          unused := allowed;
        } else {
          unused := SortedSet(Filter(allowed, (a: string) => a !in observed));
        }
      }
    }
    f := Finding(findingId, resourceId, role, unused, observed, allowed);
  }

  /** The first loop of rollback: delete every listed current policy, in order. */
  method DeleteListed(deleted: seq<string>) returns (calls: seq<IamCall>)
    ensures calls == Deletes(deleted)
  {
    calls := [];
    var i := 0;
    while i < |deleted|
      invariant 0 <= i <= |deleted|
      invariant calls == Deletes(deleted[..i])
    {
      assert deleted[..i + 1][..i] == deleted[..i];
      calls := calls + [DeleteRolePolicy(deleted[i])];
      i := i + 1;
    }
    assert deleted[..i] == deleted;
  }

  /** The names of the policies, in order. */
  function PolicyNames(policies: seq<(string, PolicyDocument)>): (r: seq<string>)
    ensures |r| == |policies| && forall i :: 0 <= i < |policies| ==> r[i] == policies[i].0
  {
    if policies == [] then [] else PolicyNames(policies[..|policies| - 1]) + [policies[|policies| - 1].0]
  }
}
