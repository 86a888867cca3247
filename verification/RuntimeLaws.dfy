// What each reducer event does, field by field: which events are refused and why, what an accepted
// one leaves in its scope, and what the projection shows then.

module RuntimeLaws {
  import opened Wrappers
  import opened RuntimeModel
  import opened RuntimeReducer
  import opened RuntimeInvariant
  import opened RuntimeFrame

  // ---------------------------------------------------------------------------
  // Names
  // ---------------------------------------------------------------------------

  /** A target names the live scope of its id, if run and branch, where given, are that scope's, or, without
      an id, the one of its run and branch, if both are given. */
  lemma TargetNames(m: Model, t: Target, id: ScopeId)
    requires Inv(m)
    ensures ResolveScope(m, t) == Some(id) <==>
      && id in m.scopes
      && (if t.scopeId.Some? then
            && t.scopeId.value == id
            && (Present(t.sessionRunId) ==> t.sessionRunId.value == id.sessionRunId)
            && (Present(t.branchBindingId) ==> t.branchBindingId.value == id.branchBindingId)
          else
            && t.sessionRunId == Some(id.sessionRunId) && id.sessionRunId != ""
            && t.branchBindingId == Some(id.branchBindingId) && id.branchBindingId != "")
  {
    if t.scopeId.Some? && t.scopeId.value in m.scopes {
      assert WellFormedScope(m.scopes[t.scopeId.value]);
    }
    if id in m.scopes {
      assert WellFormedScope(m.scopes[id]);
    }
  }

  /** An event whose target names nothing is refused: as unknown if it says enough to name a scope. */
  lemma UnnamedIsRefused(m: Model, e: Event)
    requires Scoped(e) && ResolveScope(m, e.target) == None
    ensures var r := Reduce(m, e);
      && r.model == m && |r.effects| == 1 && r.effects[0].EventRejected?
      && (r.effects[0].reason == UnknownScope <==>
            e.target.scopeId.Some? || (Present(e.target.sessionRunId) && Present(e.target.branchBindingId)))
      && (r.effects[0].reason != UnknownScope ==> r.effects[0].reason == MissingProof)
  {
  }

  // ---------------------------------------------------------------------------
  // Status events
  // ---------------------------------------------------------------------------

  /** A status event is refused exactly when it is older than its scope or of another agent run. */
  lemma StatusRefusedIff(m: Model, e: Event, id: ScopeId)
    requires Inv(m) && e.StatusChange? && ResolveScope(m, e.target) == Some(id)
    ensures var r, s := Reduce(m, e), m.scopes[id];
      var stale := e.runtimeRevision.Some? && e.runtimeRevision.value < s.runtimeRevision;
      var foreign := s.agentRunId != "" && Present(e.agentRunId) && e.agentRunId.value != s.agentRunId;
      && (IsRejection(r) <==> stale || foreign)
      && (stale ==> r.effects == [EventRejected(StaleRevision, Some(id))])
      && (!stale && foreign ==> r.effects == [EventRejected(WrongTarget, Some(id))])
  {
    assert m.scopes[id].scopeId == id;
  }

  lemma StatusLeaves(m: Model, e: Event, id: ScopeId)
    requires Inv(m) && e.StatusChange? && ResolveScope(m, e.target) == Some(id) && !IsRejection(Reduce(m, e))
    ensures Reduce(m, e) == UpdateScope(m, ApplyStatus(m.scopes[id], e))
    ensures Reduce(m, e).model.scopes == m.scopes[id := ApplyStatus(m.scopes[id], e)]
  {
    assert m.scopes[id].scopeId == id;
  }

  /** An accepted one sets status and run status alike, to the status it gives or its kind stands for, takes
      over revision, agent run, transcript and stats as far as it gives them, and keeps the rest. */
  lemma StatusSets(m: Model, e: Event, id: ScopeId)
    requires Inv(m) && e.StatusChange? && ResolveScope(m, e.target) == Some(id) && !IsRejection(Reduce(m, e))
    ensures id in Reduce(m, e).model.scopes
    ensures var was, now := m.scopes[id], Reduce(m, e).model.scopes[id];
      && (e.status.Some? ==> now.status == e.status.value)
      && (e.status.None? ==> now.status == match e.statusKind
            case RunRunning => Running case RunWaiting => Waiting case RunStopping => Stopping
            case RunCancelled => Cancelled case RunStopped => Done case RunDone => Done
            case RunError => Errored case RunInterrupted => Interrupted)
      && now.stats.Some? && now.stats.value.runStatus == Some(now.status)
      && now.runtimeRevision == (if e.runtimeRevision.Some? then e.runtimeRevision.value else was.runtimeRevision + 1)
      && now.agentRunId == (if Present(e.agentRunId) then e.agentRunId.value else was.agentRunId)
      && now.transcript == (if e.transcript.Some? then e.transcript else was.transcript)
      && now == was.(status := now.status, runtimeRevision := now.runtimeRevision, agentRunId := now.agentRunId,
                     transcript := now.transcript, stats := now.stats)
  {
    StatusLeaves(m, e, id);
  }

  /** The stats the event gives override those of the scope; every other entry stays. */
  lemma StatusSetsStats(m: Model, e: Event, id: ScopeId)
    requires Inv(m) && e.StatusChange? && ResolveScope(m, e.target) == Some(id) && !IsRejection(Reduce(m, e))
    ensures id in Reduce(m, e).model.scopes && Reduce(m, e).model.scopes[id].stats.Some?
    ensures var was := if m.scopes[id].stats.Some? then m.scopes[id].stats.value.fields else map[];
      var given := if e.stats.Some? then e.stats.value.fields else map[];
      var now := Reduce(m, e).model.scopes[id].stats.value.fields;
      && now.Keys == was.Keys + given.Keys
      && (forall k :: k in given ==> now[k] == given[k])
      && (forall k :: k in was && k !in given ==> now[k] == was[k])
  {
    StatusLeaves(m, e, id);
  }

  // ---------------------------------------------------------------------------
  // Queue events
  // ---------------------------------------------------------------------------

  /** Only a queued turn can come too late. */
  lemma QueueRefusedIff(m: Model, e: Event, id: ScopeId)
    requires Inv(m) && (e.TurnQueued? || e.TurnRemoved? || e.TurnsCleared?) && ResolveScope(m, e.target) == Some(id)
    ensures IsRejection(Reduce(m, e)) <==>
      e.TurnQueued? && e.runtimeRevision.Some? && e.runtimeRevision.value < m.scopes[id].runtimeRevision
    ensures IsRejection(Reduce(m, e)) ==> Reduce(m, e).effects == [EventRejected(StaleRevision, Some(id))]
  {
    assert m.scopes[id].scopeId == id;
  }

  /** A queued turn comes last and moves the revision; clearing leaves none; nothing else changes. */
  lemma QueueingSets(m: Model, e: Event, id: ScopeId)
    requires Inv(m) && (e.TurnQueued? || e.TurnsCleared?) && ResolveScope(m, e.target) == Some(id) && !IsRejection(Reduce(m, e))
    ensures var was := m.scopes[id];
      Reduce(m, e).model.scopes == m.scopes[id :=
        if e.TurnsCleared? then was.(pendingNextTurns := [])
        else was.(pendingNextTurns := was.pendingNextTurns + [e.turn],
                  runtimeRevision := if e.runtimeRevision.Some? then e.runtimeRevision.value else was.runtimeRevision + 1)]
  {
    assert m.scopes[id].scopeId == id;
  }

  lemma {:induction false} RemoveTurnTakesFirst(turns: seq<PendingTurn>, e: Event)
    requires e.TurnRemoved?
    ensures WithoutFirst(turns, RemoveTurn(turns, e), (t: PendingTurn) =>
      || (Present(e.clientRequestId) && t.clientRequestId == e.clientRequestId)
      || (Present(e.queuedAt) && t.queuedAt == e.queuedAt)
      || (Present(e.text) && t.text == e.text))
    decreases |turns|
  {
    var test := (t: PendingTurn) =>
      || (Present(e.clientRequestId) && t.clientRequestId == e.clientRequestId)
      || (Present(e.queuedAt) && t.queuedAt == e.queuedAt)
      || (Present(e.text) && t.text == e.text);
    var after := RemoveTurn(turns, e);
    if forall j :: 0 <= j < |turns| ==> !test(turns[j]) {
      RemoveNothing(turns, e);
      NonePassing(turns, after, test);
    } else {
      var k :| 0 <= k < |turns| && test(turns[k]);
      var i := FirstToRemove(turns, e, k);
      FirstPassing(turns, after, i, test);
    }
  }

  lemma {:induction false} RemoveNothing(turns: seq<PendingTurn>, e: Event)
    requires e.TurnRemoved? && forall j :: 0 <= j < |turns| ==> !RemovalMatches(turns[j], e)
    ensures RemoveTurn(turns, e) == turns
    decreases |turns|
  {
    if turns != [] {
      RemoveNothing(turns[1..], e);
    }
  }

  lemma {:induction false} FirstToRemove(turns: seq<PendingTurn>, e: Event, k: nat) returns (i: nat)
    requires e.TurnRemoved? && k < |turns| && RemovalMatches(turns[k], e)
    ensures i <= k && RemovalMatches(turns[i], e) && forall j :: 0 <= j < i ==> !RemovalMatches(turns[j], e)
    ensures RemoveTurn(turns, e) == turns[..i] + turns[i + 1..]
    decreases |turns|
  {
    if RemovalMatches(turns[0], e) {
      i := 0;
    } else {
      var rest := FirstToRemove(turns[1..], e, k - 1);
      i := rest + 1;
      assert [turns[0]] + (turns[1..][..rest] + turns[1..][rest + 1..]) == turns[..i] + turns[i + 1..];
    }
  }

  /** A removal takes the first turn that agrees in one of the fields it gives, and changes nothing else. */
  lemma RemovingSets(m: Model, e: Event, id: ScopeId)
    requires Inv(m) && e.TurnRemoved? && ResolveScope(m, e.target) == Some(id)
    ensures id in Reduce(m, e).model.scopes
    ensures var was, now := m.scopes[id], Reduce(m, e).model.scopes[id];
      && Reduce(m, e).model.scopes == m.scopes[id := was.(pendingNextTurns := now.pendingNextTurns)]
      && WithoutFirst(was.pendingNextTurns, now.pendingNextTurns, (t: PendingTurn) =>
           || (Present(e.clientRequestId) && t.clientRequestId == e.clientRequestId)
           || (Present(e.queuedAt) && t.queuedAt == e.queuedAt)
           || (Present(e.text) && t.text == e.text))
  {
    assert m.scopes[id].scopeId == id;
    RemoveTurnTakesFirst(m.scopes[id].pendingNextTurns, e);
  }

  /** An accepted status or queue event reports its scope and, if that is selected, the projection. */
  lemma UpdatesAreReported(m: Model, e: Event, id: ScopeId)
    requires Inv(m) && Scoped(e) && !e.OperationSettle? && ResolveScope(m, e.target) == Some(id) && !IsRejection(Reduce(m, e))
    ensures var r := Reduce(m, e);
      && r.model.visible.selectedScopeId == m.visible.selectedScopeId
      && (m.visible.selectedScopeId != Some(id) ==> r.effects == [ScopeUpdated(id)] && r.model.visible == m.visible)
      && (m.visible.selectedScopeId == Some(id) ==> r.effects == [ScopeUpdated(id), ProjectionUpdated(r.model.visible)])
  {
    assert m.scopes[id].scopeId == id;
  }

  // ---------------------------------------------------------------------------
  // Operations
  // ---------------------------------------------------------------------------

  /** A settlement is refused exactly when its scope holds no such operation of that kind. */
  lemma SettleRefusedIff(m: Model, e: Event, id: ScopeId)
    requires Inv(m) && e.OperationSettle? && ResolveScope(m, e.target) == Some(id)
    ensures var ops := m.scopes[id].operationsById;
      IsRejection(Reduce(m, e)) <==> e.operationId !in ops || ops[e.operationId].kind != e.operationKind
  {
    var scope := m.scopes[id];
    assert scope.scopeId == id;
    if e.operationId in scope.operationsById {
      assert OperationFiled(scope, e.operationId);
    }
  }

  /** What makes a settlement undo an optimistic branch creation. */
  predicate Undoes(m: Model, e: Event, id: ScopeId, op: Operation)
    requires e.OperationSettle?
  {
    && e.outcome == Failure && op.kind == BranchCreate && op.rollback.Some?
    && op.targetBranchBindingId == Some(id.branchBindingId)
    && op.sourceSessionRunId == Some(id.sessionRunId) && id.sessionRunId != "" && Present(op.sourceBranchBindingId)
    && Present(op.sourceAgentRunId)
    && var source := ScopeId(id.sessionRunId, op.sourceBranchBindingId.value);
       source in m.scopes && Some(m.scopes[source].agentRunId) == op.sourceAgentRunId
  }

  /** Any other accepted settlement takes the operation out, changes nothing else and reports just that. */
  lemma SettlingSets(m: Model, e: Event, id: ScopeId)
    requires Inv(m) && e.OperationSettle? && ResolveScope(m, e.target) == Some(id) && !IsRejection(Reduce(m, e))
    requires !Undoes(m, e, id, m.scopes[id].operationsById[e.operationId])
    ensures Reduce(m, e).model.scopes
         == m.scopes[id := m.scopes[id].(operationsById := m.scopes[id].operationsById - {e.operationId})]
    ensures Reduce(m, e).model.visible.selectedScopeId == m.visible.selectedScopeId
    ensures Reduce(m, e).effects == [OperationSettled(id, e.operationId, e.operationKind)]
  {
    var scope := m.scopes[id];
    var op := scope.operationsById[e.operationId];
    assert scope.scopeId == id && WellFormedScope(scope) && OperationFiled(scope, e.operationId);
    var settled := UpdateScope(m, WithoutOperation(scope, e.operationId)).model;
    if MustRollBack(scope, op, e.outcome) {
      WithSourceItUndoes(m, e, id, scope, op, settled);
      NoSourceShape(settled, scope, op, [OperationSettled(id, e.operationId, e.operationKind)]);
    }
  }

  lemma WithSourceItUndoes(m: Model, e: Event, id: ScopeId, scope: Scope, op: Operation, settled: Model)
    requires Inv(m) && e.OperationSettle? && id in m.scopes && scope == m.scopes[id] && MustRollBack(scope, op, e.outcome)
    requires settled.scopes == m.scopes[id := WithoutOperation(scope, e.operationId)]
    ensures BranchCreateSource(settled, scope, op).Some? ==> Undoes(m, e, id, op)
  {
    assert scope.scopeId == id && WellFormedScope(scope);
    if BranchCreateSource(settled, scope, op).Some? {
      var source := ScopeId(op.sourceSessionRunId.value, op.sourceBranchBindingId.value);
      assert source in m.scopes && settled.scopes[source].agentRunId == m.scopes[source].agentRunId;
      assert settled.scopes[source].sessionRunId == m.scopes[source].sessionRunId;
      assert WellFormedScope(m.scopes[source]) && m.scopes[source].scopeId == source;
    }
  }

  /** And one that undoes drops the scope, selects the source in its place, and reports all of it. */
  lemma UndoingSets(m: Model, e: Event, id: ScopeId)
    requires Inv(m) && e.OperationSettle? && ResolveScope(m, e.target) == Some(id) && !IsRejection(Reduce(m, e))
    requires Undoes(m, e, id, m.scopes[id].operationsById[e.operationId])
    ensures var op, r := m.scopes[id].operationsById[e.operationId], Reduce(m, e);
      && r.model.scopes == m.scopes - {id}
      && (if m.visible.selectedScopeId == Some(id) then
            && r.model.visible.selectedScopeId == Some(ScopeId(id.sessionRunId, op.sourceBranchBindingId.value))
            && r.effects == [OperationSettled(id, e.operationId, BranchCreate), ScopeDeleted(id),
                             ProjectionUpdated(r.model.visible), VisibleRollback(id, e.operationId, op.rollback.value)]
          else
            && r.model.visible == m.visible
            && r.effects == [OperationSettled(id, e.operationId, BranchCreate), ScopeDeleted(id)])
  {
    var scope := m.scopes[id];
    var op := scope.operationsById[e.operationId];
    assert scope.scopeId == id && WellFormedScope(scope) && OperationFiled(scope, e.operationId);
    var settled := UpdateScope(m, WithoutOperation(scope, e.operationId)).model;
    WithoutStaysFiled(scope, e.operationId);
    PuttingKeepsInv(m, WithoutOperation(scope, e.operationId));
    UndoneSource(m, e, id, scope, op, settled);
    RolledBackReports(settled, scope, op, OperationSettled(id, e.operationId, e.operationKind));
    assert settled.scopes - {id} == m.scopes - {id};
    assert Reduce(m, e) == RolledBack(settled, scope, op, [OperationSettled(id, e.operationId, e.operationKind)]);
  }

  lemma UndoneSource(m: Model, e: Event, id: ScopeId, scope: Scope, op: Operation, settled: Model)
    requires Inv(m) && e.OperationSettle? && id in m.scopes && scope == m.scopes[id] && Undoes(m, e, id, op)
    requires op.targetBranchBindingId != op.sourceBranchBindingId
    requires settled.scopes == m.scopes[id := WithoutOperation(scope, e.operationId)]
    ensures MustRollBack(scope, op, e.outcome)
    ensures var source := ScopeId(id.sessionRunId, op.sourceBranchBindingId.value);
      && source != id && source in m.scopes && m.scopes[source].scopeId == source
      && BranchCreateSource(settled, scope, op) == Some(m.scopes[source])
  {
    var source := ScopeId(id.sessionRunId, op.sourceBranchBindingId.value);
    assert scope.scopeId == id && WellFormedScope(scope);
    assert WellFormedScope(m.scopes[source]) && m.scopes[source].scopeId == source;
    assert source != id && settled.scopes[source] == m.scopes[source];
  }

  lemma RolledBackReports(settled: Model, scope: Scope, op: Operation, done: Effect)
    requires Inv(settled) && WellFormedScope(scope) && op.rollback.Some?
    requires op.targetBranchBindingId == Some(scope.branchBindingId)
    requires op.targetBranchBindingId != op.sourceBranchBindingId
    requires BranchCreateSource(settled, scope, op).Some?
    ensures var r, source := RolledBack(settled, scope, op, [done]), BranchCreateSource(settled, scope, op).value;
      && r.model.scopes == settled.scopes - {scope.scopeId}
      && (if settled.visible.selectedScopeId == Some(scope.scopeId) then
            && r.model.visible.selectedScopeId == Some(source.scopeId)
            && r.effects == [done, ScopeDeleted(scope.scopeId), ProjectionUpdated(r.model.visible),
                             VisibleRollback(scope.scopeId, op.operationId, op.rollback.value)]
          else r.model.visible == settled.visible && r.effects == [done, ScopeDeleted(scope.scopeId)])
  {
    CleanupShape(settled, scope, op);
  }

  /** A begin is refused exactly when its provisional scope is bound elsewhere, its scope is not there, a
      branch creation lacks its source or a target of its own, or the source it names is not the scope. */
  lemma BeginRefusedIff(m: Model, op: Operation, provisional: Option<Scope>, select: bool)
    requires Inv(m) && (provisional.Some? ==> WellFormedScope(provisional.value))
    ensures IsRejection(Reduce(m, OperationBegin(op, provisional, select))) <==> !BeginAllowed(m, op, provisional, select)
    ensures provisional.None? && op.kind != BranchCreate ==>
      (BeginAllowed(m, op, None, select) <==>
        && op.scopeId in m.scopes
        && (Present(op.sourceSessionRunId) ==> op.sourceSessionRunId.value == op.scopeId.sessionRunId)
        && (Present(op.sourceBranchBindingId) ==> op.sourceBranchBindingId.value == op.scopeId.branchBindingId)
        && (Present(op.sourceAgentRunId) ==> op.sourceAgentRunId.value == m.scopes[op.scopeId].agentRunId))
  {
    BeginIsAllowedIff(m, op, provisional, select);
    if op.scopeId in m.scopes {
      assert m.scopes[op.scopeId].scopeId == op.scopeId && WellFormedScope(m.scopes[op.scopeId]);
    }
  }

  /** An optimistic creation, beginning in the provisional scope it brings along, is allowed exactly when that
      scope is free or bound alike and its source is another branch of the same run, of the agent run it names. */
  lemma OptimisticBeginAllowedIff(m: Model, op: Operation, scope: Scope, select: bool)
    requires Inv(m) && WellFormedScope(scope) && scope.scopeId !in m.scopes
    requires op.kind == BranchCreate && op.scopeId == scope.scopeId && op.targetBranchBindingId == Some(scope.branchBindingId)
    ensures BeginAllowed(m, op, Some(scope), select) <==>
      && scope.branchBindingId != ""
      && op.sourceSessionRunId == Some(scope.sessionRunId) && scope.sessionRunId != ""
      && Present(op.sourceBranchBindingId) && op.sourceBranchBindingId != op.targetBranchBindingId
      && Present(op.sourceAgentRunId)
      && ScopeId(scope.sessionRunId, op.sourceBranchBindingId.value) in m.scopes
      && m.scopes[ScopeId(scope.sessionRunId, op.sourceBranchBindingId.value)].agentRunId == op.sourceAgentRunId.value
  {
    var base := BeginBase(m, Some(scope), select);
    assert base.scopes == m.scopes[scope.scopeId := scope];
    if Present(op.sourceSessionRunId) && Present(op.sourceBranchBindingId) {
      var source := ScopeId(op.sourceSessionRunId.value, op.sourceBranchBindingId.value);
      if source in m.scopes {
        assert m.scopes[source].scopeId == source && WellFormedScope(m.scopes[source]);
      }
    }
  }

  /** An allowed begin puts the provisional scope, if there is one, adds the operation to its scope, and
      changes no other field of any scope. */
  lemma BeginSets(m: Model, op: Operation, provisional: Option<Scope>, select: bool)
    requires Inv(m) && (provisional.Some? ==> WellFormedScope(provisional.value))
    requires BeginAllowed(m, op, provisional, select)
    ensures var put := if provisional.Some? then m.scopes[provisional.value.scopeId := provisional.value] else m.scopes;
      && op.scopeId in put
      && Reduce(m, OperationBegin(op, provisional, select)).model.scopes
         == put[op.scopeId := put[op.scopeId].(operationsById := put[op.scopeId].operationsById[op.operationId := op])]
  {
    BeginIsAllowedIff(m, op, provisional, select);
    BeginShape(m, op, provisional, select);
    var base := BeginBase(m, provisional, select);
    BeginBaseShape(m, provisional, select);
    assert base.scopes[op.scopeId].scopeId == op.scopeId;
  }

  // ---------------------------------------------------------------------------
  // The projection
  // ---------------------------------------------------------------------------

  /** Whatever is selected is shown with its own branch, transcript and status, and with its stats, whose
      run status is the status where they give none. */
  lemma ProjectionShows(m: Model, id: ScopeId)
    requires Inv(m) && m.visible.selectedScopeId == Some(id)
    ensures id in m.scopes
    ensures var v, s := m.visible, m.scopes[id];
      && v.selectedBranchBindingId == id.branchBindingId
      && v.selectedRuntimeStatus == s.status
      && v.selectedTranscript == (if s.transcript.Some? then s.transcript.value else [])
      && v.selectedStats.fields == (if s.stats.Some? then s.stats.value.fields else map[])
      && v.selectedStats.runStatus ==
           (if s.stats.Some? && s.stats.value.runStatus.Some? then s.stats.value.runStatus else Some(s.status))
  {
    assert WellFormedScope(m.scopes[id]) && m.scopes[id].scopeId == id;
  }

  /** After an accepted status event the selected scope is shown with its new status everywhere. */
  lemma StatusIsShown(m: Model, e: Event, id: ScopeId)
    requires Inv(m) && e.StatusChange? && ResolveScope(m, e.target) == Some(id) && !IsRejection(Reduce(m, e))
    requires m.visible.selectedScopeId == Some(id)
    ensures var next := Reduce(m, e).model;
      && next.visible.selectedScopeId == Some(id) && id in next.scopes
      && next.visible.selectedRuntimeStatus == next.scopes[id].status
      && next.visible.selectedStats.runStatus == Some(next.scopes[id].status)
      && Some(next.visible.selectedStats) == next.scopes[id].stats
      && (e.transcript.Some? ==> next.visible.selectedTranscript == e.transcript.value)
  {
    StepKeepsInv(m, e);
    UpdatesAreReported(m, e, id);
    StatusSets(m, e, id);
    ProjectionShows(Reduce(m, e).model, id);
    assert Reduce(m, e).model.visible.selectedStats.fields == Reduce(m, e).model.scopes[id].stats.value.fields;
  }

  /** Right after a refresh every summary says what its scope holds, count by count. */
  lemma SummariesSay(m: Model, i: nat)
    requires Inv(m) && Refreshed(m) && i < |m.visible.branchSummaries|
    ensures m.visible.branchSummaries[i].scopeId in m.scopes
    ensures var v := m.visible.branchSummaries[i];
      var s := m.scopes[v.scopeId];
      && v.sessionRunId == s.sessionRunId && v.branchBindingId == s.branchBindingId && v.agentRunId == s.agentRunId
      && v.status == s.status && v.pendingNextTurnCount == |s.pendingNextTurns|
      && v.pendingApprovalCount == |s.pendingApprovals| && v.pendingUserInputCount == |s.pendingUserInputs|
      && v.operationCount == |s.operationsById|
  {
  }

  /** Putting a scope stores it as it is, selects it if asked to, and is refused only if it is bound elsewhere. */
  lemma PuttingSets(m: Model, scope: Scope, select: bool)
    requires Inv(m) && WellFormedScope(scope)
    ensures var r := Reduce(m, ScopeUpsert(scope, select));
      var foreign := scope.scopeId in m.scopes && m.scopes[scope.scopeId].agentRunId != "" && scope.agentRunId != ""
                     && m.scopes[scope.scopeId].agentRunId != scope.agentRunId;
      && (IsRejection(r) <==> foreign)
      && (!foreign ==>
            && r.model.scopes == m.scopes[scope.scopeId := scope] && r.effects == [ScopeUpdated(scope.scopeId)]
            && r.model.visible.selectedScopeId == (if select then Some(scope.scopeId) else m.visible.selectedScopeId))
  {
  }

  /** Deleting drops a live scope that is not selected, and no other. */
  lemma DeletingSets(m: Model, id: ScopeId)
    ensures var r := Reduce(m, ScopeDelete(id));
      && (IsRejection(r) <==> id !in m.scopes || m.visible.selectedScopeId == Some(id))
      && (!IsRejection(r) ==> r == Reduction(m.(scopes := m.scopes - {id}), [ScopeDeleted(id)]))
      && (id !in m.scopes ==> r.effects == [EventRejected(UnknownScope, Some(id))])
  {
  }

  /** Selecting shows the scope the target names, and touches no scope. */
  lemma SelectingSets(m: Model, t: Target)
    ensures var r := Reduce(m, SelectBranch(t));
      && (IsRejection(r) <==> ResolveScope(m, t) == None)
      && r.model.scopes == m.scopes
      && (ResolveScope(m, t).Some? && Inv(m) ==>
            r.model.visible.selectedScopeId == ResolveScope(m, t) && r.effects == [ProjectionUpdated(r.model.visible)])
  {
  }
}
