// What each response call answers and does, in terms of the operation it is for and of the fields the
// operation, the selection and the response carry.

module ProtocolAnswers {
  import opened Wrappers
  import opened RuntimeModel
  import opened RuntimeReducer
  import opened RuntimeInvariant
  import opened RuntimeProtocol
  import opened ProtocolInvariant
  import opened ProtocolRuns

  /** The slot holds an operation of this id and kind, visible or branch-local as asked; an empty id asks for any. */
  predicate Holds(m: Model, s: Slot, operationId: string, kind: OperationKind, visible: bool) {
    && s.scope in m.scopes && s.key in m.scopes[s.scope].operationsById
    && var op := m.scopes[s.scope].operationsById[s.key];
       (operationId == "" || op.operationId == operationId) && op.kind == kind && op.visible == visible
  }

  /** And no other slot does. */
  ghost predicate HoldsAlone(m: Model, s: Slot, operationId: string, kind: OperationKind, visible: bool) {
    Holds(m, s, operationId, kind, visible) && forall t :: Holds(m, t, operationId, kind, visible) ==> t == s
  }

  /** The operation was begun at this revision, from the selected run, branch and agent run. */
  predicate FromSelected(op: Operation, selected: Option<SelectedIdentity>, revision: int) {
    && op.sourceIdentityRevision == revision && selected.Some?
    && op.sourceSessionRunId == selected.value.sessionRunId
    && op.sourceBranchBindingId == selected.value.branchBindingId
    && op.sourceAgentRunId == selected.value.agentRunId
  }

  /** The response is for the run and agent run the operation was begun from and the branch it is for. */
  predicate Answers(response: Response, op: Operation) {
    && response.sessionRunId == op.sourceSessionRunId
    && response.branchBindingId == op.targetBranchBindingId
    && response.agentRunId == op.sourceAgentRunId
  }

  /** The start was begun at this revision, with the run selected then, if any, selected still. */
  predicate StartFromSelected(op: Operation, selected: Option<SelectedIdentity>, revision: int) {
    && op.sourceIdentityRevision == revision
    && if Present(op.activeSessionRunId) then selected.Some? && selected.value.sessionRunId == op.activeSessionRunId
       else selected.None? || !Present(selected.value.sessionRunId)
  }

  /** The call settles the operation in `s`, with this outcome: the slot is empty then. */
  ghost predicate Settles(m: Model, r: Reduction, s: Slot, outcome: Outcome)
    requires s.scope in m.scopes && s.key in m.scopes[s.scope].operationsById
  {
    var op := m.scopes[s.scope].operationsById[s.key];
    && r == Reduce(m, OperationSettle(outcome, Target(None, None, Some(op.scopeId)), op.operationId, op.kind))
    && !(s.scope in r.model.scopes && s.key in r.model.scopes[s.scope].operationsById)
    && |r.effects| > 0 && r.effects[0] == OperationSettled(s.scope, s.key, op.kind)
  }

  // ---------------------------------------------------------------------------
  // Finding
  // ---------------------------------------------------------------------------

  function Asking(operationId: string, kind: OperationKind, visible: bool): Criteria {
    Criteria(Some(operationId), Some(kind), Some(visible))
  }

  lemma HoldsIsMatches(m: Model, operationId: string, kind: OperationKind, visible: bool)
    ensures forall s :: Holds(m, s, operationId, kind, visible) <==> Matches(m, s, Asking(operationId, kind, visible))
  {
  }

  /** A visible operation is alone: there is no other of its id and kind to be confused with. */
  lemma VisibleHoldsAlone(m: Model, s: Slot, operationId: string, kind: OperationKind)
    requires AtMostOneVisible(m) && Holds(m, s, operationId, kind, true)
    ensures HoldsAlone(m, s, operationId, kind, true)
  {
    HoldsIsMatches(m, operationId, kind, true);
    forall t | Holds(m, t, operationId, kind, true) ensures t == s {
      SameVisible(m, s, t, Asking(operationId, kind, true));
    }
  }

  lemma FoundAlone(m: Model, s: Slot, operationId: string, kind: OperationKind, visible: bool)
    requires HoldsAlone(m, s, operationId, kind, visible)
    ensures Find(m, Asking(operationId, kind, visible)) == Some(At(m, s))
  {
    HoldsIsMatches(m, operationId, kind, visible);
    OnlyMatchIsUnique(m, s, Asking(operationId, kind, visible));
    var t := FindIsUnique(m, Asking(operationId, kind, visible));
  }

  lemma FoundNone(m: Model, operationId: string, kind: OperationKind, visible: bool)
    requires !exists s :: HoldsAlone(m, s, operationId, kind, visible)
    ensures Find(m, Asking(operationId, kind, visible)) == None
  {
    HoldsIsMatches(m, operationId, kind, visible);
    if UniqueMatch(m, Asking(operationId, kind, visible)) {
      var s := FindIsUnique(m, Asking(operationId, kind, visible));
      assert HoldsAlone(m, s, operationId, kind, visible);
    }
  }

  lemma SettlingSettles(m: Model, s: Slot, outcome: Outcome)
    requires Inv(m) && Stored(m, s)
    ensures Settles(m, Reduce(m, SettleEvent(At(m, s), outcome)), s, outcome)
  {
    SettleStored(m, s, outcome);
  }

  /** What every answer comes down to, once its operation is found. */
  lemma ReplyToFound(m: Model, selected: Option<SelectedIdentity>, revision: int, c: Call, s: Slot)
    requires IsResponse(c) && Stored(m, s) && Find(m, Sought(c)) == Some(At(m, s))
    ensures var reply := Exec(m, selected, revision, c);
      && reply.accepted == Accepts(selected, revision, c, At(m, s))
      && reply.reduction == Respond(m, c, At(m, s), reply.accepted)
  {
  }

  lemma ReplyToNone(m: Model, selected: Option<SelectedIdentity>, revision: int, c: Call)
    requires IsResponse(c) && Find(m, Sought(c)) == None
    ensures Exec(m, selected, revision, c) == Reply(Reduction(m, []), false)
  {
  }

  /** A visible operation that is asked for is found; without one the call is refused and does nothing. */
  lemma VisibleReply(m: Model, selected: Option<SelectedIdentity>, revision: int, c: Call, operationId: string, kind: OperationKind)
    requires ProtocolInv(m) && IsResponse(c) && Sought(c) == Asking(operationId, kind, true)
    ensures forall s :: Holds(m, s, operationId, kind, true) ==>
      var reply := Exec(m, selected, revision, c);
      && reply.accepted == Accepts(selected, revision, c, At(m, s))
      && reply.reduction == Respond(m, c, At(m, s), reply.accepted)
    ensures (forall s :: !Holds(m, s, operationId, kind, true)) ==>
      Exec(m, selected, revision, c) == Reply(Reduction(m, []), false)
  {
    forall s | Holds(m, s, operationId, kind, true)
      ensures var reply := Exec(m, selected, revision, c);
        && reply.accepted == Accepts(selected, revision, c, At(m, s))
        && reply.reduction == Respond(m, c, At(m, s), reply.accepted)
    {
      VisibleHoldsAlone(m, s, operationId, kind);
      FoundAlone(m, s, operationId, kind, true);
      ReplyToFound(m, selected, revision, c, s);
    }
    if forall s :: !Holds(m, s, operationId, kind, true) {
      FoundNone(m, operationId, kind, true);
      ReplyToNone(m, selected, revision, c);
    }
  }

  /** The call settles whatever visible operation it asks for: as successful if it accepts, else as failed. */
  ghost predicate AlwaysSettles(m: Model, reply: Reply, operationId: string, kind: OperationKind, visible: bool) {
    && (forall s :: HoldsAlone(m, s, operationId, kind, visible) ==>
          Settles(m, reply.reduction, s, if reply.accepted then Success else Failure))
    && ((!exists s :: HoldsAlone(m, s, operationId, kind, visible)) ==> reply == Reply(Reduction(m, []), false))
  }

  lemma VisibleSettles(m: Model, selected: Option<SelectedIdentity>, revision: int, c: Call, operationId: string, kind: OperationKind)
    requires ProtocolInv(m) && IsResponse(c) && Sought(c) == Asking(operationId, kind, true)
    requires forall op, accepted :: Respond(m, c, op, accepted) == SettleAs(m, op, accepted)
    ensures AlwaysSettles(m, Exec(m, selected, revision, c), operationId, kind, true)
  {
    VisibleReply(m, selected, revision, c, operationId, kind);
    forall s | HoldsAlone(m, s, operationId, kind, true)
      ensures Settles(m, Exec(m, selected, revision, c).reduction, s,
                      if Exec(m, selected, revision, c).accepted then Success else Failure)
    {
      SettlingSettles(m, s, if Exec(m, selected, revision, c).accepted then Success else Failure);
    }
    if !exists s :: HoldsAlone(m, s, operationId, kind, true) {
      forall s ensures !Holds(m, s, operationId, kind, true) {
        if Holds(m, s, operationId, kind, true) {
          VisibleHoldsAlone(m, s, operationId, kind);
        }
      }
    }
  }

  // ---------------------------------------------------------------------------
  // The answers
  // ---------------------------------------------------------------------------

  /** A control response is accepted exactly when its visible operation was begun from what is selected now and
      the response names the operation's run, branch and agent run; either way the operation is settled. */
  lemma ControlAnswer(m: Model, selected: Option<SelectedIdentity>, revision: int,
                      operationId: string, kind: OperationKind, response: Response)
    requires ProtocolInv(m)
    ensures var reply := Exec(m, selected, revision, AcceptControl(operationId, kind, response));
      && (reply.accepted <==>
            exists s :: Holds(m, s, operationId, kind, true)
                        && FromSelected(m.scopes[s.scope].operationsById[s.key], selected, revision)
                        && Answers(response, m.scopes[s.scope].operationsById[s.key]))
      && AlwaysSettles(m, reply, operationId, kind, true)
  {
    var c := AcceptControl(operationId, kind, response);
    VisibleReply(m, selected, revision, c, operationId, kind);
    VisibleSettles(m, selected, revision, c, operationId, kind);
  }

  /** A created branch is accepted exactly when its operation was begun from what is selected now, for that
      branch; either way the operation is settled, a refused creation as failed. */
  lemma BranchCreateAnswer(m: Model, selected: Option<SelectedIdentity>, revision: int, operationId: string, branch: string)
    requires ProtocolInv(m)
    ensures var reply := Exec(m, selected, revision, AcceptBranchCreate(operationId, branch));
      && (reply.accepted <==>
            exists s :: Holds(m, s, operationId, BranchCreate, true)
                        && FromSelected(m.scopes[s.scope].operationsById[s.key], selected, revision)
                        && m.scopes[s.scope].operationsById[s.key].targetBranchBindingId == Some(branch))
      && AlwaysSettles(m, reply, operationId, BranchCreate, true)
  {
    var c := AcceptBranchCreate(operationId, branch);
    VisibleReply(m, selected, revision, c, operationId, BranchCreate);
    VisibleSettles(m, selected, revision, c, operationId, BranchCreate);
  }

  /** A selected branch is still current under the same condition; asking settles nothing. */
  lemma BranchSelectAnswer(m: Model, selected: Option<SelectedIdentity>, revision: int, operationId: string, branch: string)
    requires ProtocolInv(m)
    ensures var reply := Exec(m, selected, revision, CheckBranchSelect(operationId, branch));
      && (reply.accepted <==>
            exists s :: Holds(m, s, operationId, BranchSelect, true)
                        && FromSelected(m.scopes[s.scope].operationsById[s.key], selected, revision)
                        && m.scopes[s.scope].operationsById[s.key].targetBranchBindingId == Some(branch))
      && reply.reduction == Reduction(m, [])
  {
    VisibleReply(m, selected, revision, CheckBranchSelect(operationId, branch), operationId, BranchSelect);
  }

  /** Settling a selection succeeds exactly when there is one, and settles it as successful. */
  lemma BranchSelectSettled(m: Model, selected: Option<SelectedIdentity>, revision: int, operationId: string)
    requires ProtocolInv(m)
    ensures var reply := Exec(m, selected, revision, SettleBranchSelect(operationId));
      && (reply.accepted <==> exists s :: Holds(m, s, operationId, BranchSelect, true))
      && AlwaysSettles(m, reply, operationId, BranchSelect, true)
  {
    var c := SettleBranchSelect(operationId);
    VisibleReply(m, selected, revision, c, operationId, BranchSelect);
    forall s | HoldsAlone(m, s, operationId, BranchSelect, true) ensures Settles(m, Exec(m, selected, revision, c).reduction, s, Success) {
      SettlingSettles(m, s, Success);
    }
    NotAloneMeansNone(m, operationId, BranchSelect);
  }

  lemma NotAloneMeansNone(m: Model, operationId: string, kind: OperationKind)
    requires AtMostOneVisible(m)
    ensures (exists s :: HoldsAlone(m, s, operationId, kind, true)) <==> exists s :: Holds(m, s, operationId, kind, true)
  {
    if s :| Holds(m, s, operationId, kind, true) {
      VisibleHoldsAlone(m, s, operationId, kind);
    }
  }

  /** Rejecting succeeds exactly when there is such a visible operation, and settles it as failed. */
  lemma RejectAnswer(m: Model, selected: Option<SelectedIdentity>, revision: int, operationId: string, kind: OperationKind)
    requires ProtocolInv(m)
    ensures var reply := Exec(m, selected, revision, RejectVisible(operationId, kind));
      && (reply.accepted <==> exists s :: Holds(m, s, operationId, kind, true))
      && (forall s :: Holds(m, s, operationId, kind, true) ==> Settles(m, reply.reduction, s, Failure))
      && (!reply.accepted ==> reply.reduction == Reduction(m, []))
  {
    var c := RejectVisible(operationId, kind);
    VisibleReply(m, selected, revision, c, operationId, kind);
    forall s | Holds(m, s, operationId, kind, true) ensures Settles(m, Exec(m, selected, revision, c).reduction, s, Failure) {
      SettlingSettles(m, s, Failure);
    }
  }

  /** A failure is accepted exactly when its operation was begun from what is selected now, a start with the
      run selected then; only then is the operation settled, as failed. */
  lemma FailureAnswer(m: Model, selected: Option<SelectedIdentity>, revision: int, operationId: string, kind: OperationKind)
    requires ProtocolInv(m)
    ensures var reply := Exec(m, selected, revision, AcceptFailure(operationId, kind));
      && (reply.accepted <==>
            exists s :: Holds(m, s, operationId, kind, true)
                        && if kind == Start then StartFromSelected(m.scopes[s.scope].operationsById[s.key], selected, revision)
                           else FromSelected(m.scopes[s.scope].operationsById[s.key], selected, revision))
      && (forall s :: Holds(m, s, operationId, kind, true) && reply.accepted ==> Settles(m, reply.reduction, s, Failure))
      && (!reply.accepted ==> reply.reduction == Reduction(m, []))
  {
    var c := AcceptFailure(operationId, kind);
    VisibleReply(m, selected, revision, c, operationId, kind);
    if Exec(m, selected, revision, c).accepted {
      forall s | Holds(m, s, operationId, kind, true) ensures Settles(m, Exec(m, selected, revision, c).reduction, s, Failure) {
        SettlingSettles(m, s, Failure);
      }
    }
  }

  /** A start response is accepted exactly when its start was begun at this revision, with the run selected
      then, if any, still selected; without a full scope in the response, and when refused, it is settled in place. */
  lemma StartAnswer(m: Model, selected: Option<SelectedIdentity>, revision: int, operationId: string, response: Response)
    requires ProtocolInv(m)
    ensures var reply := Exec(m, selected, revision, AcceptStart(operationId, response));
      && (reply.accepted <==>
            exists s :: Holds(m, s, operationId, Start, true)
                        && StartFromSelected(m.scopes[s.scope].operationsById[s.key], selected, revision))
      && (!reply.accepted || !Present(response.sessionRunId) || !Present(response.branchBindingId) ==>
            AlwaysSettles(m, reply, operationId, Start, true))
  {
    var c := AcceptStart(operationId, response);
    VisibleReply(m, selected, revision, c, operationId, Start);
    NotAloneMeansNone(m, operationId, Start);
    var reply := Exec(m, selected, revision, c);
    if !reply.accepted || !Present(response.sessionRunId) || !Present(response.branchBindingId) {
      forall s | HoldsAlone(m, s, operationId, Start, true)
        ensures Settles(m, reply.reduction, s, if reply.accepted then Success else Failure)
      {
        SettlingSettles(m, s, if reply.accepted then Success else Failure);
      }
    }
  }

  // ---------------------------------------------------------------------------
  // Branch-local operations
  // ---------------------------------------------------------------------------

  /** A branch-local success is accepted exactly when there is one such operation and no other, and the response
      names its run, branch and agent run, whatever is selected; one that is alone is settled either way. */
  lemma LocalSuccessAnswer(m: Model, selected: Option<SelectedIdentity>, revision: int,
                           operationId: string, kind: OperationKind, response: Response)
    requires ProtocolInv(m)
    ensures var reply := Exec(m, selected, revision, SettleLocalSuccess(operationId, kind, response));
      && (reply.accepted <==>
            exists s :: HoldsAlone(m, s, operationId, kind, false) && Answers(response, m.scopes[s.scope].operationsById[s.key]))
      && AlwaysSettles(m, reply, operationId, kind, false)
  {
    var c := SettleLocalSuccess(operationId, kind, response);
    if s :| HoldsAlone(m, s, operationId, kind, false) {
      FoundAlone(m, s, operationId, kind, false);
      ReplyToFound(m, selected, revision, c, s);
      SettlingSettles(m, s, if Exec(m, selected, revision, c).accepted then Success else Failure);
    } else {
      FoundNone(m, operationId, kind, false);
      ReplyToNone(m, selected, revision, c);
    }
  }

  /** A branch-local failure settles as failed the one operation it is for, if there is exactly one. */
  lemma LocalFailureAnswer(m: Model, selected: Option<SelectedIdentity>, revision: int, operationId: string, kind: OperationKind)
    requires ProtocolInv(m)
    ensures var reply := Exec(m, selected, revision, SettleLocalFailure(operationId, kind));
      && (reply.accepted <==> exists s :: HoldsAlone(m, s, operationId, kind, false))
      && (forall s :: HoldsAlone(m, s, operationId, kind, false) ==> Settles(m, reply.reduction, s, Failure))
      && (!reply.accepted ==> reply.reduction == Reduction(m, []))
  {
    var c := SettleLocalFailure(operationId, kind);
    if s :| HoldsAlone(m, s, operationId, kind, false) {
      FoundAlone(m, s, operationId, kind, false);
      ReplyToFound(m, selected, revision, c, s);
      SettlingSettles(m, s, Failure);
    } else {
      FoundNone(m, operationId, kind, false);
      ReplyToNone(m, selected, revision, c);
    }
  }
}
