/**
 * IAM policy-document rewriting shared by the two remediation backends
 * (run-local-backend.py and complete-backend-main.py): strip a list of
 * actions from every Allow statement, drop Allow statements left empty,
 * and keep every other statement verbatim and in order. Also the role-name
 * extraction both backends apply to a resource id.
 */
module PolicyRewrite {
  import opened Common

  /** A statement's Action key: absent, a single string, or a list. */
  datatype ActionField = NoAction | OneAction(action: string) | ActionList(actions: seq<string>)

  /** A statement; `rest` stands for its other keys (Sid, Resource, Condition), which are copied unchanged. */
  datatype Statement = Statement(effect: Option<string>, action: ActionField, rest: string)

  /** A policy document; an absent Statement key reads as the empty list. */
  datatype PolicyDocument = PolicyDocument(version: Option<string>, statements: seq<Statement>)

  const DefaultVersion := "2012-10-17"

  /** `stmt.get('Action', [])`, with a string turned into a one-element list. */
  function ActionsOf(a: ActionField): seq<string>
  {
    match a
    case NoAction => []
    case OneAction(x) => [x]
    case ActionList(xs) => xs
  }

  predicate IsAllow(s: Statement)
  {
    s.effect == Some("Allow")
  }

  predicate NotAllow(s: Statement)
  {
    !IsAllow(s)
  }

  /** The actions of the Allow statements, in order (`policy_actions`). */
  function AllowActions(stmts: seq<Statement>): (r: seq<string>)
    ensures forall a :: a in r <==> exists s :: s in stmts && IsAllow(s) && a in ActionsOf(s.action)
  {
    if stmts == [] then []
    else
      var last := stmts[|stmts| - 1];
      var r := AllowActions(stmts[..|stmts| - 1]) + (if IsAllow(last) then ActionsOf(last.action) else []);
      assert forall s :: s in stmts <==> s in stmts[..|stmts| - 1] || s == last;
      r
  }

  /** `[a for a in unused if a in policy_actions]`. */
  function ActionsToRemove(unused: seq<string>, policyActions: seq<string>): (r: seq<string>)
    ensures forall a :: a in r <==> a in unused && a in policyActions
  {
    Filter(unused, (a: string) => a in policyActions)
  }

  /** One statement of the rewrite: a non-Allow statement as it is; an Allow statement with its remaining actions, or nothing. */
  function RewriteStatement(s: Statement, remove: seq<string>): (r: seq<Statement>)
    ensures |r| <= 1
  {
    if !IsAllow(s) then [s]
    else
      var remaining := Filter(ActionsOf(s.action), (a: string) => a !in remove);
      if remaining != [] then [s.(action := ActionList(remaining))] else []
  }

  function RewriteStatements(stmts: seq<Statement>, remove: seq<string>): (r: seq<Statement>)
    ensures |r| <= |stmts|
  {
    if stmts == [] then []
    else RewriteStatements(stmts[..|stmts| - 1], remove) + RewriteStatement(stmts[|stmts| - 1], remove)
  }

  /** remove_permissions_from_policy, as a function of the document. */
  function Rewritten(doc: PolicyDocument, remove: seq<string>): (r: PolicyDocument)
    ensures r.version == Some(GetOr(doc.version, DefaultVersion))
    ensures |r.statements| <= |doc.statements|
  {
    PolicyDocument(Some(GetOr(doc.version, DefaultVersion)), RewriteStatements(doc.statements, remove))
  }

  /** remove_permissions_from_policy: the statement loop. */
  method RemovePermissionsFromPolicy(doc: PolicyDocument, remove: seq<string>) returns (r: PolicyDocument)
    ensures r == Rewritten(doc, remove)
  {
    var statements: seq<Statement> := [];
    var i := 0;
    while i < |doc.statements|
      invariant 0 <= i <= |doc.statements|
      invariant statements == RewriteStatements(doc.statements[..i], remove)
    {
      var s := doc.statements[i];
      assert doc.statements[..i + 1][..i] == doc.statements[..i];
      if !IsAllow(s) {
        statements := statements + [s];
      } else {
        var remaining := Filter(ActionsOf(s.action), (a: string) => a !in remove);
        if remaining != [] {
          statements := statements + [s.(action := ActionList(remaining))];
        }
      }
      i := i + 1;
    }
    assert doc.statements[..i] == doc.statements;
    r := PolicyDocument(Some(GetOr(doc.version, DefaultVersion)), statements);
  }

  /** The `policy_actions` loop: the actions of the Allow statements, in order. */
  method CollectAllowActions(stmts: seq<Statement>) returns (actions: seq<string>)
    ensures actions == AllowActions(stmts)
  {
    actions := [];
    var i := 0;
    while i < |stmts|
      invariant 0 <= i <= |stmts|
      invariant actions == AllowActions(stmts[..i])
    {
      assert stmts[..i + 1][..i] == stmts[..i];
      if IsAllow(stmts[i]) {
        actions := actions + ActionsOf(stmts[i].action);
      }
      i := i + 1;
    }
    assert stmts[..i] == stmts;
  }

  /** The non-Allow statements, in order. */
  function Others(stmts: seq<Statement>): seq<Statement>
  {
    Filter(stmts, NotAllow)
  }

  /** Every statement other than Allow survives verbatim and in the same order. */
  lemma {:induction false} RewriteKeepsOthers(stmts: seq<Statement>, remove: seq<string>)
    ensures Others(RewriteStatements(stmts, remove)) == Others(stmts)
  {
    if stmts != [] {
      var init := stmts[..|stmts| - 1];
      var last := stmts[|stmts| - 1];
      RewriteKeepsOthers(init, remove);
      OthersAppend(RewriteStatements(init, remove), RewriteStatement(last, remove));
      assert Others(RewriteStatement(last, remove)) == if IsAllow(last) then [] else [last] by {
        if !IsAllow(last) {
          assert Others([last]) == Others([]) + [last];
        } else if RewriteStatement(last, remove) != [] {
          assert Others(RewriteStatement(last, remove)) == Others([]);
        }
      }
    }
  }

  lemma {:induction false} OthersAppend(xs: seq<Statement>, ys: seq<Statement>)
    ensures Others(xs + ys) == Others(xs) + Others(ys)
  {
    if ys != [] {
      OthersAppend(xs, ys[..|ys| - 1]);
      InitOfAppend(xs, ys);
      AppendAssoc(Others(xs), Others(ys[..|ys| - 1]), if NotAllow(ys[|ys| - 1]) then [ys[|ys| - 1]] else []);
    } else {
      assert xs + ys == xs;
    }
  }

  /**
   * In the result every Allow statement holds a non-empty list of actions,
   * none of them removed, and every action of an Allow statement of the
   * input that is not removed is still granted.
   */
  lemma {:induction false} RewriteRemoves(stmts: seq<Statement>, remove: seq<string>)
    ensures forall s :: s in RewriteStatements(stmts, remove) && IsAllow(s) ==>
      s.action.ActionList? && s.action.actions != [] && forall a :: a in s.action.actions ==> a !in remove
    ensures forall a :: a in AllowActions(RewriteStatements(stmts, remove)) <==>
      a in AllowActions(stmts) && a !in remove
  {
    if stmts != [] {
      var init := stmts[..|stmts| - 1];
      RewriteRemoves(init, remove);
      var r := RewriteStatements(stmts, remove);
      assert r == RewriteStatements(init, remove) + RewriteStatement(stmts[|stmts| - 1], remove);
      assert forall s :: s in r <==> s in RewriteStatements(init, remove) || s in RewriteStatement(stmts[|stmts| - 1], remove);
    }
  }

  /** Rewriting a statement already rewritten with the same list gives it back. */
  lemma RewriteStatementStable(s: Statement, remove: seq<string>)
    requires RewriteStatement(s, remove) != []
    ensures RewriteStatement(RewriteStatement(s, remove)[0], remove) == RewriteStatement(s, remove)
  {
    if IsAllow(s) {
      var remaining := Filter(ActionsOf(s.action), (a: string) => a !in remove);
      FilterKeepsAll(remaining, (a: string) => a !in remove);
    }
  }

  lemma {:induction false} RewriteStatementsAppend(xs: seq<Statement>, ys: seq<Statement>, remove: seq<string>)
    ensures RewriteStatements(xs + ys, remove) == RewriteStatements(xs, remove) + RewriteStatements(ys, remove)
  {
    if ys == [] {
      assert xs + ys == xs;
    } else {
      RewriteStatementsAppend(xs, ys[..|ys| - 1], remove);
      InitOfAppend(xs, ys);
      AppendAssoc(RewriteStatements(xs, remove), RewriteStatements(ys[..|ys| - 1], remove), RewriteStatement(ys[|ys| - 1], remove));
    }
  }

  lemma {:induction false} RewriteStatementsIdempotent(stmts: seq<Statement>, remove: seq<string>)
    ensures RewriteStatements(RewriteStatements(stmts, remove), remove) == RewriteStatements(stmts, remove)
  {
    if stmts != [] {
      var init := stmts[..|stmts| - 1];
      var last := RewriteStatement(stmts[|stmts| - 1], remove);
      RewriteStatementsIdempotent(init, remove);
      RewriteStatementsAppend(RewriteStatements(init, remove), last, remove);
      if last != [] {
        RewriteStatementStable(stmts[|stmts| - 1], remove);
        assert RewriteStatements(last, remove) == RewriteStatements([], remove) + RewriteStatement(last[0], remove);
      }
    }
  }

  /** Applying the rewrite twice with the same list gives the same document as applying it once. */
  lemma RewriteIdempotent(doc: PolicyDocument, remove: seq<string>)
    ensures Rewritten(Rewritten(doc, remove), remove) == Rewritten(doc, remove)
  {
    RewriteStatementsIdempotent(doc.statements, remove);
  }

  /** Two removal lists that agree on the document's Allow actions give the same rewrite. */
  lemma {:induction false} RewriteDependsOnGrantedOnly(stmts: seq<Statement>, l1: seq<string>, l2: seq<string>)
    requires forall a :: a in AllowActions(stmts) ==> (a in l1 <==> a in l2)
    ensures RewriteStatements(stmts, l1) == RewriteStatements(stmts, l2)
  {
    if stmts != [] {
      var init := stmts[..|stmts| - 1];
      var last := stmts[|stmts| - 1];
      RewriteDependsOnGrantedOnly(init, l1, l2);
      if IsAllow(last) {
        FilterCongruent(ActionsOf(last.action), (a: string) => a !in l1, (a: string) => a !in l2);
      }
    }
  }

  lemma {:induction false} FilterCongruent(xs: seq<string>, p: string -> bool, q: string -> bool)
    requires forall x :: x in xs ==> p(x) == q(x)
    ensures Filter(xs, p) == Filter(xs, q)
  {
    if xs != [] {
      FilterCongruent(xs[..|xs| - 1], p, q);
    }
  }

  /**
   * Rewriting with the whole unused list (complete-backend-main.py) gives
   * the same document as rewriting with only the unused actions the
   * policy grants (run-local-backend.py).
   */
  lemma RemovingGrantedOnlySuffices(doc: PolicyDocument, unused: seq<string>)
    ensures Rewritten(doc, unused) == Rewritten(doc, ActionsToRemove(unused, AllowActions(doc.statements)))
  {
    RewriteDependsOnGrantedOnly(doc.statements, unused, ActionsToRemove(unused, AllowActions(doc.statements)));
  }

  // ---------------------------------------------------------------------
  // What remediation does to one inline policy
  // ---------------------------------------------------------------------

  datatype IamCall = PutRolePolicy(policyName: string, document: PolicyDocument) | DeleteRolePolicy(policyName: string)

  datatype ChangeKind = Updated | Deleted

  datatype PolicyChange = PolicyChange(policyName: string, kind: ChangeKind, removedActions: seq<string>)

  datatype PolicyOutcome = PolicyOutcome(call: IamCall, change: PolicyChange)

  /**
   * One inline policy: untouched when it grants none of the unused
   * actions; otherwise rewritten and put back, or deleted when no
   * statement remains.
   */
  function PolicyEffect(name: string, doc: PolicyDocument, unused: seq<string>): Option<PolicyOutcome>
  {
    var remove := ActionsToRemove(unused, AllowActions(doc.statements));
    if remove == [] then None
    else
      var rewritten := Rewritten(doc, remove);
      if rewritten.statements != [] then Some(PolicyOutcome(PutRolePolicy(name, rewritten), PolicyChange(name, Updated, remove)))
      else Some(PolicyOutcome(DeleteRolePolicy(name), PolicyChange(name, Deleted, remove)))
  }

  /**
   * A policy is touched exactly when it grants an unused action; a policy
   * put back grants none of them and keeps every other granted action; a
   * policy is deleted exactly when all its statements are Allow statements
   * granting only unused actions.
   */
  lemma PolicyEffectSpec(name: string, doc: PolicyDocument, unused: seq<string>)
    ensures var e := PolicyEffect(name, doc, unused);
      (e.None? <==> forall a :: a in AllowActions(doc.statements) ==> a !in unused)
      && (e.Some? ==>
            e.value.change.policyName == name && e.value.change.removedActions != []
            && forall a :: a in e.value.change.removedActions <==> a in unused && a in AllowActions(doc.statements))
      && (e.Some? && e.value.call.PutRolePolicy? ==>
            e.value.call.policyName == name
            && forall a :: a in AllowActions(e.value.call.document.statements) <==>
                 a in AllowActions(doc.statements) && a !in unused)
      && (e.Some? && e.value.call.DeleteRolePolicy? ==>
            e.value.call.policyName == name
            && (forall s :: s in doc.statements ==> IsAllow(s))
            && forall a :: a in AllowActions(doc.statements) ==> a in unused)
  {
    var remove := ActionsToRemove(unused, AllowActions(doc.statements));
    if remove == [] {
      assert forall a :: a in unused && a in AllowActions(doc.statements) ==> a in remove;
    } else {
      assert remove[0] in unused;
      RewriteRemoves(doc.statements, remove);
      var rewritten := RewriteStatements(doc.statements, remove);
      if rewritten == [] {
        RewriteKeepsOthers(doc.statements, remove);
        assert Others(rewritten) == [];
        assert forall s :: s in doc.statements && NotAllow(s) ==> s in Others(doc.statements);
      }
    }
  }

  /** The outcomes of remediating every inline policy, in the policies' order. */
  function Outcomes(policies: seq<(string, PolicyDocument)>, unused: seq<string>): (r: seq<PolicyOutcome>)
    ensures |r| <= |policies|
  {
    if policies == [] then []
    else
      var last := policies[|policies| - 1];
      Outcomes(policies[..|policies| - 1], unused)
      + match PolicyEffect(last.0, last.1, unused) case Some(o) => [o] case None => []
  }

  /** Every touched policy has its outcome in the list, and every outcome comes from a policy. */
  lemma {:induction false} OutcomesCover(policies: seq<(string, PolicyDocument)>, unused: seq<string>)
    ensures forall i :: 0 <= i < |policies| && PolicyEffect(policies[i].0, policies[i].1, unused).Some? ==>
      PolicyEffect(policies[i].0, policies[i].1, unused).value in Outcomes(policies, unused)
    ensures forall o :: o in Outcomes(policies, unused) ==>
      exists i :: 0 <= i < |policies| && PolicyEffect(policies[i].0, policies[i].1, unused) == Some(o)
  {
    if policies != [] {
      var init := policies[..|policies| - 1];
      OutcomesCover(init, unused);
      assert forall i :: 0 <= i < |init| ==> init[i] == policies[i];
    }
  }

  /** The outcomes of a prefix of the policies are a prefix of the outcomes. */
  lemma {:induction false} OutcomesPrefix(policies: seq<(string, PolicyDocument)>, j: nat, unused: seq<string>)
    requires j <= |policies|
    ensures Outcomes(policies[..j], unused) <= Outcomes(policies, unused)
  {
    if j < |policies| {
      OutcomesPrefix(policies[..|policies| - 1], j, unused);
      assert policies[..|policies| - 1][..j] == policies[..j];
    } else {
      assert policies[..j] == policies;
    }
  }

  /** A write at `failure.0` raises `failure.1`, when there is such a write among `n`. */
  predicate Fails(failure: Option<(nat, string)>, n: nat)
  {
    failure.Some? && failure.value.0 < n
  }

  /** The outcomes of a run over `all`, and the writes issued, when the write at `failure.0` raises. */
  function StoppedAt(all: seq<PolicyOutcome>, failure: Option<(nat, string)>): (Result<seq<PolicyOutcome>>, seq<IamCall>)
  {
    if Fails(failure, |all|) then (Err(failure.value.1), Calls(all)[..failure.value.0 + 1])
    else (Ok(all), Calls(all))
  }

  lemma OutcomesStep(policies: seq<(string, PolicyDocument)>, i: nat, unused: seq<string>)
    requires i < |policies|
    ensures var effect := PolicyEffect(policies[i].0, policies[i].1, unused);
      Outcomes(policies[..i + 1], unused)
      == Outcomes(policies[..i], unused) + (if effect.Some? then [effect.value] else [])
  {
    assert policies[..i + 1][..i] == policies[..i];
  }

  /** The writes issued up to and including the one for policy `i` are a prefix of all the writes. */
  lemma CallsBeforeFailure(policies: seq<(string, PolicyDocument)>, i: nat, unused: seq<string>)
    requires i < |policies|
    ensures Outcomes(policies[..i + 1], unused) <= Outcomes(policies, unused)
    ensures var before := Outcomes(policies[..i + 1], unused);
      Calls(before) == Calls(Outcomes(policies, unused))[..|before|]
  {
    OutcomesPrefix(policies, i + 1, unused);
  }

  /** A write raising at policy `i` stops the run there, with the writes made up to and including it. */
  lemma StopAtFailure(policies: seq<(string, PolicyDocument)>, i: nat, unused: seq<string>,
                      failure: Option<(nat, string)>)
    requires i < |policies| && PolicyEffect(policies[i].0, policies[i].1, unused).Some?
    requires failure.Some? && failure.value.0 == |Outcomes(policies[..i], unused)|
    ensures StoppedAt(Outcomes(policies, unused), failure)
      == (Err(failure.value.1), Calls(Outcomes(policies[..i + 1], unused)))
  {
    var before := Outcomes(policies[..i + 1], unused);
    OutcomesStep(policies, i, unused);
    assert |before| == failure.value.0 + 1;
    CallsBeforeFailure(policies, i, unused);
    assert Fails(failure, |Outcomes(policies, unused)|);
  }

  function Calls(outcomes: seq<PolicyOutcome>): (r: seq<IamCall>)
    ensures |r| == |outcomes| && forall i :: 0 <= i < |outcomes| ==> r[i] == outcomes[i].call
  {
    seq(|outcomes|, i requires 0 <= i < |outcomes| => outcomes[i].call)
  }

  function Changes(outcomes: seq<PolicyOutcome>): (r: seq<PolicyChange>)
    ensures |r| == |outcomes| && forall i :: 0 <= i < |outcomes| ==> r[i] == outcomes[i].change
  {
    seq(|outcomes|, i requires 0 <= i < |outcomes| => outcomes[i].change)
  }

  // ---------------------------------------------------------------------
  // The role's inline policies as IAM sees them
  // ---------------------------------------------------------------------

  /** A dictionary of inline policies, later entries winning. */
  function PolicyMap(policies: seq<(string, PolicyDocument)>): map<string, PolicyDocument>
  {
    if policies == [] then map[]
    else
      var last := policies[|policies| - 1];
      PolicyMap(policies[..|policies| - 1])[last.0 := last.1]
  }

  function ApplyCall(m: map<string, PolicyDocument>, c: IamCall): map<string, PolicyDocument>
  {
    match c
    case PutRolePolicy(name, doc) => m[name := doc]
    case DeleteRolePolicy(name) => m - {name}
  }

  function ApplyCalls(m: map<string, PolicyDocument>, calls: seq<IamCall>): map<string, PolicyDocument>
  {
    if calls == [] then m else ApplyCall(ApplyCalls(m, calls[..|calls| - 1]), calls[|calls| - 1])
  }

  lemma {:induction false} ApplyCallsAppend(m: map<string, PolicyDocument>, a: seq<IamCall>, b: seq<IamCall>)
    ensures ApplyCalls(m, a + b) == ApplyCalls(ApplyCalls(m, a), b)
  {
    if b == [] {
      assert a + b == a;
    } else {
      ApplyCallsAppend(m, a, b[..|b| - 1]);
      assert (a + b)[..|a + b| - 1] == a + b[..|b| - 1];
    }
  }

  function Deletes(names: seq<string>): (r: seq<IamCall>)
    ensures |r| == |names|
  {
    if names == [] then [] else Deletes(names[..|names| - 1]) + [DeleteRolePolicy(names[|names| - 1])]
  }

  function Puts(policies: seq<(string, PolicyDocument)>): (r: seq<IamCall>)
    ensures |r| == |policies|
  {
    if policies == [] then []
    else Puts(policies[..|policies| - 1]) + [PutRolePolicy(policies[|policies| - 1].0, policies[|policies| - 1].1)]
  }

  function NameSet(names: seq<string>): (r: set<string>)
    ensures forall n :: n in r <==> n in names
  {
    if names == [] then {}
    else
      var r := NameSet(names[..|names| - 1]) + {names[|names| - 1]};
      assert forall n :: n in names <==> n in names[..|names| - 1] || n == names[|names| - 1];
      r
  }

  lemma {:induction false} PutsPrefix(policies: seq<(string, PolicyDocument)>, j: nat)
    requires j <= |policies|
    ensures Puts(policies[..j]) == Puts(policies)[..j]
  {
    if j < |policies| {
      PutsPrefix(policies[..|policies| - 1], j);
      assert policies[..|policies| - 1][..j] == policies[..j];
    } else {
      assert policies[..j] == policies;
    }
  }

  lemma {:induction false} DeletesRemove(m: map<string, PolicyDocument>, names: seq<string>)
    ensures ApplyCalls(m, Deletes(names)) == m - NameSet(names)
  {
    if names != [] {
      DeletesRemove(m, names[..|names| - 1]);
    }
  }

  lemma {:induction false} PutsBuild(policies: seq<(string, PolicyDocument)>)
    ensures ApplyCalls(map[], Puts(policies)) == PolicyMap(policies)
  {
    if policies != [] {
      PutsBuild(policies[..|policies| - 1]);
    }
  }

  /** The calls a rollback makes: delete every current inline policy, then put back each one of the snapshot. */
  function RollbackCalls(current: seq<string>, snapshot: seq<(string, PolicyDocument)>): seq<IamCall>
  {
    Deletes(current) + Puts(snapshot)
  }

  /**
   * When the listed names cover the role's inline policies, a rollback
   * leaves the role with exactly the snapshot's policies.
   */
  lemma RollbackRestoresSnapshot(role: map<string, PolicyDocument>, current: seq<string>,
                                 snapshot: seq<(string, PolicyDocument)>)
    requires forall n :: n in role ==> n in current
    ensures ApplyCalls(role, RollbackCalls(current, snapshot)) == PolicyMap(snapshot)
  {
    ApplyCallsAppend(role, Deletes(current), Puts(snapshot));
    DeletesRemove(role, current);
    assert role - NameSet(current) == map[];
    PutsBuild(snapshot);
  }

  // ---------------------------------------------------------------------
  // Role names
  // ---------------------------------------------------------------------

  /**
   * The role name complete-backend-main.py derives from a resource id: the
   * text after the last "/role/", else the last '/' segment.
   */
  function RoleNameFromResource(resourceId: string): (r: string)
    ensures Contains(resourceId, "/role/") ==> !Contains(r, "/role/") && EndsWith(resourceId, r)
    ensures !Contains(resourceId, "/role/") ==> !Contains(r, "/") && EndsWith(resourceId, r)
  {
    if Contains(resourceId, "/role/") then SplitLast(resourceId, "/role/") else SplitLast(resourceId, "/")
  }

  /**
   * The role name run-local-backend.py derives: after the last "/role/",
   * else after the last "role/", else the last '/' segment.
   */
  function LocalRoleNameFromResource(resourceId: string): (r: string)
    ensures Contains(resourceId, "/role/") ==> r == RoleNameFromResource(resourceId)
    ensures !Contains(resourceId, "/role/") && Contains(resourceId, "role/") ==>
      !Contains(r, "role/") && EndsWith(resourceId, r)
    ensures !Contains(resourceId, "role/") ==> r == RoleNameFromResource(resourceId)
  {
    if Contains(resourceId, "/role/") then SplitLast(resourceId, "/role/")
    else if Contains(resourceId, "role/") then SplitLast(resourceId, "role/")
    else SplitLast(resourceId, "/")
  }

  /** A string holding "/role/" also holds "role/". */
  lemma RoleMarkerImpliesSuffix(s: string)
    requires Contains(s, "/role/")
    ensures Contains(s, "role/")
  {
    var i := IndexOf(s, "/role/").value;
    assert OccursAt(s, "role/", i + 1) by {
      assert s[i + 1..i + 6] == s[i..i + 6][1..];
    }
    ContainsIff(s, "role/");
  }

  /** `request.role_name`, else the name derived from a non-empty resource id, else none. */
  function RequestRoleName(roleName: Option<string>, resourceId: Option<string>, local: bool): (r: Option<string>)
    ensures Given(roleName) ==> r == roleName
    ensures !Given(roleName) && !Given(resourceId) ==> r == roleName
    ensures !Given(roleName) && Given(resourceId) ==>
      r == Some(if local then LocalRoleNameFromResource(resourceId.value) else RoleNameFromResource(resourceId.value))
  {
    if Given(roleName) then roleName
    else if Given(resourceId) then
      Some(if local then LocalRoleNameFromResource(resourceId.value) else RoleNameFromResource(resourceId.value))
    else roleName
  }
}
