// What the calls that put scopes leave in them, field by field: ensuring a scope, recording a cursor,
// restoring a bootstrap scope, beginning an operation, handing a start over.

module ProtocolLaws {
  import opened Wrappers
  import opened RuntimeModel
  import opened RuntimeReducer
  import opened RuntimeInvariant
  import opened RuntimeFrame
  import opened RuntimeLaws
  import opened RuntimeProtocol
  import opened ProtocolInvariant
  import opened ProtocolRuns

  // ---------------------------------------------------------------------------
  // Ensuring
  // ---------------------------------------------------------------------------

  /** Ensuring is refused, and does nothing, exactly when the scope is bound to another agent run than the one
      given, or is bound to none and none is given. */
  lemma EnsureAnswer(m: Model, selected: Option<SelectedIdentity>, revision: int, i: EnsureInput)
    ensures var reply := Exec(m, selected, revision, EnsureScope(i));
      var id := ScopeId(i.sessionRunId, i.branchBindingId);
      var bound := id in m.scopes && m.scopes[id].agentRunId != "";
      && (reply.accepted <==>
            if bound then !Present(i.agentRunId) || i.agentRunId.value == m.scopes[id].agentRunId else Present(i.agentRunId))
      && (!reply.accepted ==> reply.reduction == Reduction(m, []))
      && reply.reduction == Ensure(m, i)
  {
  }

  lemma EnsurePuts(m: Model, i: EnsureInput)
    requires Inv(m) && !EnsureRefused(m, i)
    ensures var id := ScopeId(i.sessionRunId, i.branchBindingId);
      && EnsuredScope(m, i).scopeId == id
      && Ensure(m, i).model.scopes == m.scopes[id := EnsuredScope(m, i)]
      && Ensure(m, i).effects == [ScopeUpdated(id)]
      && Ensure(m, i).model.visible.selectedScopeId == (if i.select then Some(id) else m.visible.selectedScopeId)
      && Inv(Ensure(m, i).model)
  {
    EnsuredIsWellFormed(m, i);
    PuttingSets(m, EnsuredScope(m, i), i.select);
    PuttingKeepsInv(m, EnsuredScope(m, i));
  }

  /** A stored scope takes over what the input gives and keeps what it does not: cursor, revision, activation
      and status; its stats get the status, and everything else stays. */
  lemma EnsureKeepsStored(m: Model, i: EnsureInput)
    requires Inv(m) && !EnsureRefused(m, i) && ScopeId(i.sessionRunId, i.branchBindingId) in m.scopes
    ensures var id := ScopeId(i.sessionRunId, i.branchBindingId);
      var was := m.scopes[id];
      var status := if i.status.Some? then i.status.value else was.status;
      Ensure(m, i).model.scopes == m.scopes[id := was.(
        agentRunId := if was.agentRunId != "" then was.agentRunId else i.agentRunId.value,
        activeActivationId := if Present(i.activeActivationId) then i.activeActivationId
                              else if Present(was.activeActivationId) then was.activeActivationId else None,
        runtimeRevision := if i.runtimeRevision.Some? then i.runtimeRevision.value else was.runtimeRevision,
        status := status,
        streamCursor := if i.streamCursor.Some? then i.streamCursor else was.streamCursor,
        stats := Some(Stats(Some(status), if was.stats.Some? then was.stats.value.fields else map[])))]
  {
    var id := ScopeId(i.sessionRunId, i.branchBindingId);
    assert WellFormedScope(m.scopes[id]) && m.scopes[id].scopeId == id;
    EnsurePuts(m, i);
  }

  /** A scope that was not stored is new but for what the input gives. */
  lemma EnsureCreates(m: Model, i: EnsureInput)
    requires Inv(m) && !EnsureRefused(m, i) && ScopeId(i.sessionRunId, i.branchBindingId) !in m.scopes
    ensures var id := ScopeId(i.sessionRunId, i.branchBindingId);
      var status := if i.status.Some? then i.status.value else Running;
      && i.agentRunId.Some?
      && Ensure(m, i).model.scopes == m.scopes[id := Scope(
           id, i.sessionRunId, i.branchBindingId, i.agentRunId.value,
           if Present(i.activeActivationId) then i.activeActivationId else None,
           if i.runtimeRevision.Some? then i.runtimeRevision.value else 1,
           status, i.streamCursor, [], [], [], map[], None, Some(Stats(Some(status), map[])))]
  {
    EnsurePuts(m, i);
  }

  /** Recording a cursor sets it, moves the revision by one, and changes at most the status besides. */
  lemma CursorSets(m: Model, selected: Option<SelectedIdentity>, revision: int, id: ScopeId, cursor: int, status: Option<Status>)
    requires Inv(m)
    ensures var r := Exec(m, selected, revision, AdvanceCursor(id, cursor, status)).reduction;
      if id !in m.scopes then r == Reduction(m, [])
      else
        var was := m.scopes[id];
        var now := if status.Some? then status.value else was.status;
        r.model.scopes == m.scopes[id := was.(
          streamCursor := Some(cursor), runtimeRevision := was.runtimeRevision + 1, status := now,
          stats := Some(Stats(Some(now), if was.stats.Some? then was.stats.value.fields else map[])))]
  {
    if id in m.scopes {
      assert m.scopes[id].scopeId == id;
      SameOperationsStayFiled(m.scopes[id], CursorScope(m.scopes[id], cursor, status));
      PuttingSets(m, CursorScope(m.scopes[id], cursor, status), false);
    }
  }

  /** A bootstrap scope counts as restored if it is selected, with the agent run given, if any; otherwise it is
      ensured and selected, exactly if nothing is selected and it is not bound to another agent run. */
  lemma RestoreAnswer(m: Model, selected: Option<SelectedIdentity>, revision: int, i: EnsureInput)
    requires Inv(m)
    ensures var reply := Exec(m, selected, revision, Restore(i));
      var id := ScopeId(i.sessionRunId, i.branchBindingId);
      var there := m.visible.selectedScopeId == Some(id) && (Present(i.agentRunId) ==> m.scopes[id].agentRunId == i.agentRunId.value);
      var free := m.visible.selectedScopeId == None
        && (id in m.scopes && m.scopes[id].agentRunId != "" ==> i.agentRunId == Some(m.scopes[id].agentRunId))
        && (id !in m.scopes || m.scopes[id].agentRunId == "" ==> Present(i.agentRunId));
      && (reply.accepted <==> there || free)
      && reply.reduction == (if free then Ensure(m, i.(select := true)) else Reduction(m, []))
  {
    var id := ScopeId(i.sessionRunId, i.branchBindingId);
    if m.visible.selectedScopeId.Some? {
      var s := m.scopes[m.visible.selectedScopeId.value];
      assert WellFormedScope(s) && s.scopeId == m.visible.selectedScopeId.value;
    }
  }

  // ---------------------------------------------------------------------------
  // Beginning
  // ---------------------------------------------------------------------------

  /** Clearing takes the visible operation out of its scope and keeps every other field and operation of every
      scope that is not rolled back with it. */
  lemma ClearingKeeps(m: Model, id: ScopeId)
    requires ProtocolInv(m) && id in m.scopes && ScopeDeleted(id) !in ClearVisible(m).effects
    ensures id in ClearVisible(m).model.scopes
    ensures ClearVisible(m).model.scopes[id] == m.scopes[id].(operationsById :=
      map key | key in m.scopes[id].operationsById && !m.scopes[id].operationsById[key].visible :: m.scopes[id].operationsById[key])
  {
    var ops := m.scopes[id].operationsById;
    var local := map key | key in ops && !ops[key].visible :: ops[key];
    if UniqueMatch(m, VISIBLE) {
      var s := FindIsUnique(m, VISIBLE);
      ClearingOne(m, s, id);
      forall key | key in ops ensures ops[key].visible <==> Slot(id, key) == s {
        assert Matches(m, Slot(id, key), VISIBLE) <==> ops[key].visible;
      }
      assert local == if id == s.scope then ops - {s.key} else ops;
    } else {
      forall key | key in ops ensures !ops[key].visible {
        NoneUnlessUnique(m, Slot(id, key));
      }
      assert local == ops;
    }
  }

  lemma NoneUnlessUnique(m: Model, t: Slot)
    requires AtMostOneVisible(m) && Stored(m, t) && !UniqueMatch(m, VISIBLE)
    ensures !At(m, t).visible
  {
    if At(m, t).visible {
      VisibleMatchIsUnique(m, t, VISIBLE);
    }
  }

  lemma ClearingOne(m: Model, s: Slot, id: ScopeId)
    requires ProtocolInv(m) && Stored(m, s) && id in m.scopes
    requires ScopeDeleted(id) !in Reduce(m, SettleEvent(At(m, s), Failure)).effects
    ensures var after := Reduce(m, SettleEvent(At(m, s), Failure)).model.scopes;
      && id in after
      && after[id] == if id == s.scope then m.scopes[id].(operationsById := m.scopes[id].operationsById - {s.key}) else m.scopes[id]
  {
    var op, scope := At(m, s), m.scopes[s.scope];
    var e := SettleEvent(op, Failure);
    assert scope.scopeId == s.scope && OperationFiled(scope, s.key);
    assert ResolveScope(m, e.target) == Some(s.scope);
    SettleRefusedIff(m, e, s.scope);
    if Undoes(m, e, s.scope, op) {
      UndoingSets(m, e, s.scope);
    } else {
      SettlingSets(m, e, s.scope);
    }
  }

  lemma SourcedIsAllowed(put: Model, a: BeginArgs, id: ScopeId)
    requires Inv(put) && HasSource(a) && id == ScopeId(a.source.value.sessionRunId, a.source.value.branchBindingId)
    requires id in put.scopes && put.scopes[id].agentRunId == a.source.value.agentRunId
    ensures BeginAllowed(put, SourcedOperation(a), None, false) <==>
      a.kind != BranchCreate
      || (id.sessionRunId != "" && id.branchBindingId != "" && a.targetBranchBindingId != Some(id.branchBindingId))
  {
    assert put.scopes[id].scopeId == id && WellFormedScope(put.scopes[id]);
  }

  /** The operation a begin stores, field by field. */
  function SourcedFields(a: BeginArgs, id: ScopeId): Operation
    requires a.source.Some?
  {
    Operation(a.operationId, a.kind, id, a.source.value.sourceIdentityRevision, None,
              Some(a.source.value.sessionRunId), Some(a.source.value.branchBindingId), Some(a.source.value.agentRunId),
              a.targetBranchBindingId, a.sourceScope != Some(BranchLocal), None)
  }

  /** Storing a sourced operation ensures its scope, running, and adds the operation, unless it creates a
      branch without a target of its own. */
  lemma StoringSets(r: Reduction, a: BeginArgs, id: ScopeId, put: Model)
    requires Inv(r.model) && HasSource(a) && id == ScopeId(a.source.value.sessionRunId, a.source.value.branchBindingId)
    requires !EnsureRefused(r.model, SourceInput(a)) && put == Ensure(r.model, SourceInput(a)).model
    ensures id in put.scopes
    ensures var allowed := a.kind != BranchCreate
        || (id.sessionRunId != "" && id.branchBindingId != "" && a.targetBranchBindingId != Some(id.branchBindingId));
      && StoreSourced(r, a).model.scopes ==
           (if allowed then
              put.scopes[id := put.scopes[id].(operationsById := put.scopes[id].operationsById[a.operationId := SourcedFields(a, id)])]
            else put.scopes)
      && StoreSourced(r, a).model.visible.selectedScopeId == put.visible.selectedScopeId
  {
    EnsurePuts(r.model, SourceInput(a));
    SourcedIsAllowed(put, a, id);
    assert SourcedOperation(a) == SourcedFields(a, id);
    AddingSets(put, SourcedFields(a, id));
  }

  /** Beginning without a provisional scope adds the operation if it is allowed, and does nothing if not. */
  lemma AddingSets(m: Model, op: Operation)
    requires Inv(m) && op.scopeId in m.scopes
    ensures var next := Reduce(m, OperationBegin(op, None, false)).model;
      && next.visible.selectedScopeId == m.visible.selectedScopeId
      && next.scopes ==
           if BeginAllowed(m, op, None, false) then
             m.scopes[op.scopeId := m.scopes[op.scopeId].(operationsById := m.scopes[op.scopeId].operationsById[op.operationId := op])]
           else m.scopes
  {
    BeginIsAllowedIff(m, op, None, false);
    if BeginAllowed(m, op, None, false) {
      BeginSets(m, op, None, false);
      BeginKeepsSelection(m, op);
    }
  }

  lemma BeginKeepsSelection(m: Model, op: Operation)
    requires Inv(m)
    ensures Reduce(m, OperationBegin(op, None, false)).model.visible.selectedScopeId == m.visible.selectedScopeId
  {
    if op.scopeId in m.scopes {
      assert m.scopes[op.scopeId].scopeId == op.scopeId;
    }
  }

  /** What beginning on a stored scope, bound as the source says, makes of it: it runs, holds the operation, and
      keeps every other field: cursor, revision, queues, approvals, inputs, transcript and stats. */
  ghost predicate BegunOn(was: Scope, now: Scope, a: BeginArgs, id: ScopeId, clears: bool)
    requires a.source.Some?
  {
    var allowed := a.kind != BranchCreate
      || (id.sessionRunId != "" && id.branchBindingId != "" && a.targetBranchBindingId != Some(id.branchBindingId));
    && now == was.(activeActivationId := now.activeActivationId, status := Running,
                   stats := Some(Stats(Some(Running), if was.stats.Some? then was.stats.value.fields else map[])),
                   operationsById := now.operationsById)
    && now.activeActivationId == (if Present(was.activeActivationId) then was.activeActivationId else None)
    && (allowed ==> a.operationId in now.operationsById && now.operationsById[a.operationId] == SourcedFields(a, id))
    && (forall key :: key != a.operationId || !allowed ==>
          && (key in now.operationsById <==> key in was.operationsById && !(clears && was.operationsById[key].visible))
          && (key in now.operationsById ==> now.operationsById[key] == was.operationsById[key]))
  }

  lemma StoringOn(r: Reduction, a: BeginArgs, id: ScopeId)
    requires Inv(r.model) && HasSource(a) && id == ScopeId(a.source.value.sessionRunId, a.source.value.branchBindingId)
    requires id in r.model.scopes && r.model.scopes[id].agentRunId == a.source.value.agentRunId
    ensures id in StoreSourced(r, a).model.scopes
    ensures BegunOn(r.model.scopes[id], StoreSourced(r, a).model.scopes[id], a, id, false)
    ensures forall other :: other != id ==>
      (other in StoreSourced(r, a).model.scopes <==> other in r.model.scopes)
      && (other in r.model.scopes ==> StoreSourced(r, a).model.scopes[other] == r.model.scopes[other])
    ensures StoreSourced(r, a).model.visible.selectedScopeId ==
      (if a.sourceScope != Some(BranchLocal) then Some(id) else r.model.visible.selectedScopeId)
  {
    EnsurePuts(r.model, SourceInput(a));
    EnsureKeepsStored(r.model, SourceInput(a));
    StoringSets(r, a, id, Ensure(r.model, SourceInput(a)).model);
  }

  /** A branch-local begin on a stored scope. */
  lemma LocalBeginSets(m: Model, a: BeginArgs, id: ScopeId)
    requires ProtocolInv(m) && a.kind != Start && a.sourceScope == Some(BranchLocal)
    requires HasSource(a) && id == ScopeId(a.source.value.sessionRunId, a.source.value.branchBindingId)
    requires id in m.scopes && m.scopes[id].agentRunId == a.source.value.agentRunId
    ensures var next := BeginRun(m, a).model;
      && id in next.scopes && next.scopes == m.scopes[id := next.scopes[id]]
      && BegunOn(m.scopes[id], next.scopes[id], a, id, false)
      && next.visible.selectedScopeId == m.visible.selectedScopeId
  {
    StoringOn(Unchanged(m), a, id);
  }

  /** A visible begin on a stored scope: the operation that was visible is gone, the scope is selected. */
  lemma VisibleBeginSets(m: Model, a: BeginArgs, id: ScopeId)
    requires ProtocolInv(m) && a.kind != Start && a.sourceScope != Some(BranchLocal)
    requires HasSource(a) && id == ScopeId(a.source.value.sessionRunId, a.source.value.branchBindingId)
    requires id in m.scopes && m.scopes[id].agentRunId == a.source.value.agentRunId
    requires ScopeDeleted(id) !in ClearVisible(m).effects
    ensures var next := BeginRun(m, a).model;
      && id in next.scopes && BegunOn(m.scopes[id], next.scopes[id], a, id, true)
      && next.visible.selectedScopeId == Some(id)
  {
    ClearingKeeps(m, id);
    ClearingLeavesNoneVisible(m);
    StoringOn(ClearVisible(m), a, id);
    var mid, next := ClearVisible(m).model.scopes[id], BeginRun(m, a).model;
    assert next == StoreSourced(ClearVisible(m), a).model;
    BegunAfterClearing(m.scopes[id], mid, next.scopes[id], a, id);
  }

  lemma BegunAfterClearing(was: Scope, mid: Scope, now: Scope, a: BeginArgs, id: ScopeId)
    requires a.source.Some? && BegunOn(mid, now, a, id, false)
    requires mid == was.(operationsById :=
      map key | key in was.operationsById && !was.operationsById[key].visible :: was.operationsById[key])
    ensures BegunOn(was, now, a, id, true)
  {
  }

  /** A begin without what it needs stores nothing; a visible one still clears. */
  lemma IncompleteBeginSets(m: Model, a: BeginArgs)
    requires a.kind != Start
    requires a.source.None? || a.source.value.agentRunId == "" || !Present(a.targetBranchBindingId)
    ensures BeginRun(m, a) == if a.sourceScope == Some(BranchLocal) then Reduction(m, []) else ClearVisible(m)
  {
  }

  /** Beginning a start puts a provisional scope of its own, queued and otherwise empty, with the start in it,
      and selects it. */
  lemma StartSets(m: Model, a: BeginArgs)
    requires ProtocolInv(m) && PendingBound(m) && a.kind == Start
    ensures var next, id := BeginRun(m, a).model, ScopeId("__pending_session_run_start__", a.operationId);
      && next.visible.selectedScopeId == Some(id) && id in next.scopes
      && next.scopes[id] == Scope(
           id, "__pending_session_run_start__", a.operationId, "__pending_agent_run__", None, 1, Queued, None, [], [], [],
           map[a.operationId := Operation(
             a.operationId, Start, id, if a.sourceIdentityRevision.Some? then a.sourceIdentityRevision.value else 0,
             if Present(a.activeSessionRunId) then a.activeSessionRunId else None, None, None, None, None, true, None)],
           None, None)
  {
    ClearingLeavesNoneVisible(m);
    ClearKeepsBindings(m, PendingStartId(a.operationId));
    PuttingStart(ClearVisible(m).model, a);
    assert BeginRun(m, a).model == StoreStart(Unchanged(ClearVisible(m).model), a).model;
  }

  /** The scope a start is handed over to is the provisional one under its real names, running, with the agent
      run of the response if it gives one, and with nothing in flight; every other field is kept. */
  lemma HandoverSets(m: Model, s: Slot, target: ScopeId, agent: Option<string>)
    requires ProtocolInv(m) && Stored(m, s) && At(m, s).kind == Start && target.sessionRunId != PENDING_RUN
    requires !HandoverConflicts(m, m.scopes[s.scope], target, agent)
    ensures var after, was := ConfirmStart(m, At(m, s), target, agent).model.scopes, m.scopes[s.scope];
      after == (m.scopes - {s.scope})[target := was.(
        scopeId := target, sessionRunId := target.sessionRunId, branchBindingId := target.branchBindingId,
        agentRunId := if Present(agent) then agent.value else was.agentRunId,
        status := Running, operationsById := map[])]
  {
    HandoverShape(m, s, target, agent);
  }

  /** A handover conflicts exactly with a scope bound to another agent run than it would bring. */
  lemma HandoverConflictsIff(m: Model, source: Scope, target: ScopeId, agent: Option<string>)
    ensures HandoverConflicts(m, source, target, agent) <==>
      var brought := if Present(agent) then agent.value else source.agentRunId;
      target in m.scopes && m.scopes[target].agentRunId != "" && brought != "" && m.scopes[target].agentRunId != brought
  {
  }
}
