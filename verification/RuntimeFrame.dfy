// What one event may touch: the scopes it names, their agent-run binding, and the projection.

module RuntimeFrame {
  import opened Wrappers
  import opened RuntimeModel
  import opened RuntimeReducer
  import opened RuntimeInvariant

  /** The scopes an event names in a given model. */
  function NamedScopes(m: Model, e: Event): set<ScopeId> {
    if Scoped(e) then
      if ResolveScope(m, e.target).Some? then {ResolveScope(m, e.target).value} else {}
    else
      match e
      case ScopeUpsert(scope, _) => {scope.scopeId}
      case ScopeDelete(id) => {id}
      case SelectBranch(_) => {}
      case OperationBegin(op, provisional, _) =>
        {op.scopeId} + if provisional.Some? then {provisional.value.scopeId} else {}
  }

  ghost predicate SameOutside(a: map<ScopeId, Scope>, b: map<ScopeId, Scope>, touched: set<ScopeId>) {
    forall id :: id !in touched ==> (id in a <==> id in b) && (id in a ==> a[id] == b[id])
  }

  /** The binding a scope may have after an event: its own, or blank; a blank one may be filled. */
  predicate KeepsBinding(before: string, after: string) {
    before == "" || after == before || after == ""
  }

  /** A filled binding stays. */
  predicate HoldsBinding(before: string, after: string) {
    before == "" || after == before
  }

  ghost predicate NoDeletion(effects: seq<Effect>) {
    forall i :: 0 <= i < |effects| ==> !effects[i].ScopeDeleted?
  }

  /** `id` was put without losing its agent run, and nothing else changed. */
  ghost predicate PutOne(m: Model, r: Reduction, id: ScopeId) {
    && id in r.model.scopes
    && r.model.scopes == m.scopes[id := r.model.scopes[id]]
    && (id in m.scopes ==> HoldsBinding(m.scopes[id].agentRunId, r.model.scopes[id].agentRunId))
    && NoDeletion(r.effects)
  }

  /** `id` was dropped and reported, and nothing else changed. */
  ghost predicate DroppedOne(m: Model, r: Reduction, id: ScopeId) {
    && id in m.scopes
    && r.model.scopes == m.scopes - {id}
    && ScopeDeleted(id) in r.effects
    && forall i :: 0 <= i < |r.effects| && r.effects[i].ScopeDeleted? ==> r.effects[i].scopeId == id
  }

  /** Every projection announced is the final one, rebuilt from a coherent earlier list of summaries. */
  ghost predicate AnnouncesRefresh(r: Reduction) {
    forall i :: 0 <= i < |r.effects| && r.effects[i].ProjectionUpdated? ==>
      r.effects[i].projection == r.model.visible && Refreshed(r.model)
  }

  ghost predicate Refreshed(m: Model) {
    && m.visible.selectedScopeId.Some?
    && m.visible.selectedScopeId.value in m.scopes
    && ExactSummaries(m.scopes, m.visible.selectedScopeId.value.sessionRunId, m.visible.branchSummaries)
    && m.visible.selectedScopeId.value in Ids(m.visible.branchSummaries)
  }

  // ---------------------------------------------------------------------------
  // The shape of each transition
  // ---------------------------------------------------------------------------

  lemma UpdateShape(m: Model, scope: Scope)
    requires Inv(m) && WellFormedScope(scope)
    requires scope.scopeId in m.scopes ==> HoldsBinding(m.scopes[scope.scopeId].agentRunId, scope.agentRunId)
    ensures PutOne(m, UpdateScope(m, scope), scope.scopeId)
    ensures AnnouncesRefresh(UpdateScope(m, scope))
  {
    UpdateAnnouncesRefresh(m, scope);
  }

  lemma UpdateAnnouncesRefresh(m: Model, scope: Scope)
    requires Inv(m) && WellFormedScope(scope)
    ensures AnnouncesRefresh(UpdateScope(m, scope))
  {
    var next := m.(scopes := m.scopes[scope.scopeId := scope]);
    assert Filed(next.scopes);
    ShowingRefreshes(next, scope.scopeId);
  }

  /** The projection of a live scope is refreshed. */
  lemma ShowingRefreshes(m: Model, id: ScopeId)
    requires Filed(m.scopes) && SummariesKeyed(m.visible.branchSummaries) && id in m.scopes
    ensures Refreshed(m.(visible := ProjectionFor(m, m.scopes[id])))
  {
    RefreshedSummaries(m.scopes, id, m.visible.branchSummaries);
  }

  lemma WithoutStaysFiled(scope: Scope, operationId: string)
    requires WellFormedScope(scope)
    ensures WellFormedScope(WithoutOperation(scope, operationId))
  {
    var without := WithoutOperation(scope, operationId);
    forall key | key in without.operationsById ensures OperationFiled(without, key) {
      assert OperationFiled(scope, key);
    }
  }

  lemma SettleShape(m: Model, id: ScopeId, operationId: string, kind: OperationKind, outcome: Outcome)
    requires Inv(m) && id in m.scopes
    ensures var r := Settle(m, m.scopes[id], operationId, kind, outcome);
      && (IsRejection(r) || PutOne(m, r, id) || DroppedOne(m, r, id))
      && AnnouncesRefresh(r)
  {
    var scope := m.scopes[id];
    if !IsRejection(Settle(m, scope, operationId, kind, outcome)) {
      var op := scope.operationsById[operationId];
      WithoutStaysFiled(scope, operationId);
      PuttingKeepsInv(m, WithoutOperation(scope, operationId));
      assert OperationFiled(scope, operationId);
      if MustRollBack(scope, op, outcome) {
        RolledBackShape(m, id, op, UpdateScope(m, WithoutOperation(scope, operationId)).model,
                        OperationSettled(id, operationId, kind));
      }
    }
  }

  /** A rollback drops its scope, or, without a source, just keeps it without the operation. */
  lemma RolledBackShape(m: Model, id: ScopeId, op: Operation, settled: Model, done: Effect)
    requires Inv(m) && Inv(settled) && id in m.scopes && op.rollback.Some? && done.OperationSettled?
    requires settled.scopes == m.scopes[id := WithoutOperation(m.scopes[id], op.operationId)]
    requires op.targetBranchBindingId == Some(m.scopes[id].branchBindingId)
    requires op.targetBranchBindingId != op.sourceBranchBindingId
    ensures var r := RolledBack(settled, m.scopes[id], op, [done]);
      (PutOne(m, r, id) || DroppedOne(m, r, id)) && AnnouncesRefresh(r)
  {
    var scope := m.scopes[id];
    assert scope.scopeId == id && WellFormedScope(scope);
    if BranchCreateSource(settled, scope, op).Some? {
      RollbackShape(settled, scope, op, done);
      RollbackDropsOne(m, id, settled, RolledBack(settled, scope, op, [done]), done);
    } else {
      NoSourceShape(settled, scope, op, [done]);
    }
  }

  lemma RollbackDropsOne(m: Model, id: ScopeId, settled: Model, r: Reduction, done: Effect)
    requires id in m.scopes && id in settled.scopes && settled.scopes == m.scopes[id := settled.scopes[id]]
    requires r.model.scopes == settled.scopes - {id} && done.OperationSettled? && RolledBackEffects(r, id, done)
    ensures DroppedOne(m, r, id)
  {
    assert settled.scopes - {id} == m.scopes - {id};
  }

  /** Without its source nothing is rolled back. */
  lemma NoSourceShape(settled: Model, scope: Scope, op: Operation, done: seq<Effect>)
    requires op.rollback.Some? && BranchCreateSource(settled, scope, op).None?
    ensures RolledBack(settled, scope, op, done) == Reduction(settled, done)
  {
    assert done + [] + [] == done;
  }

  /** Failing an optimistic branch creation drops its scope and, if selected, selects the source. */
  lemma RollbackShape(settled: Model, scope: Scope, op: Operation, done: Effect)
    requires Inv(settled) && WellFormedScope(scope) && op.rollback.Some?
    requires op.targetBranchBindingId == Some(scope.branchBindingId)
    requires op.targetBranchBindingId != op.sourceBranchBindingId
    requires BranchCreateSource(settled, scope, op).Some?
    requires done.OperationSettled?
    ensures var r := RolledBack(settled, scope, op, [done]);
      && r.model.scopes == settled.scopes - {scope.scopeId}
      && (if settled.visible.selectedScopeId == Some(scope.scopeId) then
            r.model.visible.selectedScopeId == Some(BranchCreateSource(settled, scope, op).value.scopeId)
          else r.model.visible == settled.visible)
    ensures RolledBackEffects(RolledBack(settled, scope, op, [done]), scope.scopeId, done)
  {
    CleanupShape(settled, scope, op);
    var (cleaned, deleted, rolledBack) := CleanupFailedBranchCreate(settled, scope, op);
    EffectsShape(cleaned, [done], [ScopeDeleted(scope.scopeId)],
                 if rolledBack then [ProjectionUpdated(cleaned.visible), VisibleRollback(scope.scopeId, op.operationId, op.rollback.value)]
                 else [], scope.scopeId, done);
  }

  /** The settlement, the deletion, and at most one projection, the final one. */
  ghost predicate RolledBackEffects(r: Reduction, id: ScopeId, done: Effect) {
    && |r.effects| >= 2 && r.effects[0] == done && r.effects[1] == ScopeDeleted(id)
    && (forall i :: 1 < i < |r.effects| ==> r.effects[i].ProjectionUpdated? || r.effects[i].VisibleRollback?)
    && AnnouncesRefresh(r)
  }

  lemma EffectsShape(cleaned: Model, done: seq<Effect>, deleted: seq<Effect>, shown: seq<Effect>, id: ScopeId, first: Effect)
    requires done == [first] && first.OperationSettled? && deleted == [ScopeDeleted(id)]
    requires shown == [] || (|shown| == 2 && shown[0] == ProjectionUpdated(cleaned.visible) && shown[1].VisibleRollback? && Refreshed(cleaned))
    ensures RolledBackEffects(Reduction(cleaned, done + deleted + shown), id, first)
  {
    var effects := done + deleted + shown;
    assert forall i :: 1 < i < |effects| ==> effects[i] == shown[i - 2];
  }

  lemma CleanupShape(settled: Model, scope: Scope, op: Operation)
    requires Inv(settled) && WellFormedScope(scope)
    requires op.targetBranchBindingId == Some(scope.branchBindingId)
    requires op.targetBranchBindingId != op.sourceBranchBindingId
    requires BranchCreateSource(settled, scope, op).Some?
    ensures var (cleaned, deleted, rolledBack) := CleanupFailedBranchCreate(settled, scope, op);
      var source := BranchCreateSource(settled, scope, op).value;
      && deleted && cleaned.scopes == settled.scopes - {scope.scopeId}
      && rolledBack == (settled.visible.selectedScopeId == Some(scope.scopeId))
      && (rolledBack ==> Refreshed(cleaned) && cleaned.visible.selectedScopeId == Some(source.scopeId))
      && (!rolledBack ==> cleaned.visible == settled.visible)
  {
    var source := BranchCreateSource(settled, scope, op).value;
    assert source.scopeId in settled.scopes && settled.scopes[source.scopeId] == source by {
      SourceScopeIsTheSearch(settled, scope, op);
    }
    assert source.scopeId != scope.scopeId;
    SelectingRefreshes(settled.(scopes := settled.scopes - {scope.scopeId}), source.scopeId);
  }

  /** Selecting a live scope by its id shows it, with the summaries refreshed. */
  lemma SelectingRefreshes(m: Model, id: ScopeId)
    requires Filed(m.scopes) && SummariesKeyed(m.visible.branchSummaries) && id in m.scopes
    ensures var r := Select(m, ById(id));
      r.model.scopes == m.scopes && Refreshed(r.model) && r.model.visible.selectedScopeId == Some(id)
  {
    ShowingRefreshes(m, id);
  }

  lemma ScopedShape(m: Model, e: Event)
    requires Inv(m) && Scoped(e)
    ensures var r := Reduce(m, e);
      && AnnouncesRefresh(r)
      && (IsRejection(r) ||
          (&& ResolveScope(m, e.target).Some?
           && (PutOne(m, r, ResolveScope(m, e.target).value) || DroppedOne(m, r, ResolveScope(m, e.target).value))))
  {
    if !IsRejection(Reduce(m, e)) {
      var id := ResolveScope(m, e.target).value;
      var scope := m.scopes[id];
      if e.OperationSettle? {
        SettleShape(m, id, e.operationId, e.operationKind, e.outcome);
      } else {
        SameOperationsStayFiled(scope, Patched(scope, e));
        UpdateShape(m, Patched(scope, e));
      }
    }
  }

  lemma BeginBaseShape(m: Model, provisional: Option<Scope>, selectScope: bool)
    requires Inv(m) && (provisional.Some? ==> WellFormedScope(provisional.value))
    requires provisional.Some? ==> !UpsertConflicts(m, provisional.value)
    ensures var base := BeginBase(m, provisional, selectScope);
      && Inv(base)
      && base.scopes == if provisional.Some? then m.scopes[provisional.value.scopeId := provisional.value] else m.scopes
  {
    if provisional.Some? {
      PuttingKeepsInv(m, provisional.value);
    }
  }

  lemma WithStaysFiled(scope: Scope, op: Operation)
    requires WellFormedScope(scope) && op.scopeId == scope.scopeId
    requires op.kind == BranchCreate ==> op.targetBranchBindingId != op.sourceBranchBindingId
    ensures WellFormedScope(WithOperation(scope, op))
  {
    var filed := WithOperation(scope, op);
    forall key | key in filed.operationsById ensures OperationFiled(filed, key) {
      if key != op.operationId {
        assert OperationFiled(scope, key);
      }
    }
  }

  lemma BeginShape(m: Model, op: Operation, provisional: Option<Scope>, selectScope: bool)
    requires Inv(m) && (provisional.Some? ==> WellFormedScope(provisional.value))
    ensures var r := Begin(m, op, provisional, selectScope);
      var base := BeginBase(m, provisional, selectScope);
      && (IsRejection(r) ||
          (&& op.scopeId in base.scopes
           && r == UpdateScope(base, WithOperation(base.scopes[op.scopeId], op))
           && PutOne(base, r, op.scopeId)
           && base.scopes == (if provisional.Some? then m.scopes[provisional.value.scopeId := provisional.value] else m.scopes)
           && (provisional.Some? ==> !UpsertConflicts(m, provisional.value))))
      && AnnouncesRefresh(r)
  {
    if !IsRejection(Begin(m, op, provisional, selectScope)) {
      BeginBaseShape(m, provisional, selectScope);
      var base := BeginBase(m, provisional, selectScope);
      WithStaysFiled(base.scopes[op.scopeId], op);
      UpdateShape(base, WithOperation(base.scopes[op.scopeId], op));
    }
  }

  // ---------------------------------------------------------------------------
  // The three guarantees, for every event
  // ---------------------------------------------------------------------------

  /** An event changes no scope but those it names. */
  lemma Frame(m: Model, e: Event)
    requires Inv(m) && WellFormedEvent(e)
    ensures SameOutside(m.scopes, Reduce(m, e).model.scopes, NamedScopes(m, e))
  {
    if Scoped(e) {
      ScopedShape(m, e);
    } else if e.OperationBegin? {
      BeginShape(m, e.operation, e.provisional, e.selectScope);
    }
  }

  /** A scope disappears exactly when the event reports it deleted. */
  lemma DeletionIsReported(m: Model, e: Event, id: ScopeId)
    requires Inv(m) && WellFormedEvent(e)
    ensures var r := Reduce(m, e);
      id in m.scopes && id !in r.model.scopes <==> ScopeDeleted(id) in r.effects
  {
    if Scoped(e) {
      ScopedShape(m, e);
    } else if e.OperationBegin? {
      BeginShape(m, e.operation, e.provisional, e.selectScope);
    }
  }

  /** No event moves a live scope from one agent run to another; at most it blanks the binding. */
  lemma NoEventRebinds(m: Model, e: Event, id: ScopeId)
    requires Inv(m) && WellFormedEvent(e) && id in m.scopes && id in Reduce(m, e).model.scopes
    ensures KeepsBinding(m.scopes[id].agentRunId, Reduce(m, e).model.scopes[id].agentRunId)
  {
    if Scoped(e) {
      ScopedShape(m, e);
    } else if e.OperationBegin? {
      BeginShape(m, e.operation, e.provisional, e.selectScope);
    }
  }

  /** A projection an event announces is the one it leaves; its summaries are exact, confined to
      the selected run, and include the selected scope. */
  lemma AnnouncedProjection(m: Model, e: Event, v: Projection)
    requires Inv(m) && WellFormedEvent(e) && ProjectionUpdated(v) in Reduce(m, e).effects
    ensures v == Reduce(m, e).model.visible && v.selectedScopeId.Some?
    ensures ExactSummaries(Reduce(m, e).model.scopes, v.selectedScopeId.value.sessionRunId, v.branchSummaries)
    ensures v.selectedScopeId.value in Ids(v.branchSummaries)
  {
    if Scoped(e) {
      ScopedShape(m, e);
    } else if e.OperationBegin? {
      BeginShape(m, e.operation, e.provisional, e.selectScope);
    } else if e.SelectBranch? {
      RefreshedSummaries(m.scopes, ResolveScope(m, e.target).value, m.visible.branchSummaries);
    }
  }

  // ---------------------------------------------------------------------------
  // Binding over whole runs
  // ---------------------------------------------------------------------------

  /** The event puts this very scope without an agent run, and is allowed to. */
  predicate Blanks(m: Model, e: Event, id: ScopeId) {
    || (e.ScopeUpsert? && e.scope.scopeId == id && e.scope.agentRunId == "")
    || (&& e.OperationBegin? && e.provisional.Some?
        && e.provisional.value.scopeId == id && e.provisional.value.agentRunId == ""
        && BeginAllowed(m, e.operation, e.provisional, e.selectScope))
  }

  /** The scope stays live after every event of the run. */
  predicate LiveThroughout(m: Model, events: seq<Event>, id: ScopeId)
    decreases |events|
  {
    id in m.scopes && (events != [] ==> LiveThroughout(Reduce(m, events[0]).model, events[1..], id))
  }

  lemma BeginKeepsBindingIff(m: Model, e: Event, id: ScopeId)
    requires Inv(m) && WellFormedEvent(e) && e.OperationBegin?
    requires id in m.scopes && m.scopes[id].agentRunId != ""
    ensures id in Reduce(m, e).model.scopes
    ensures Reduce(m, e).model.scopes[id].agentRunId == m.scopes[id].agentRunId <==> !Blanks(m, e, id)
  {
    BeginShape(m, e.operation, e.provisional, e.selectScope);
    BeginIsAllowedIff(m, e.operation, e.provisional, e.selectScope);
  }

  lemma BeginIsAllowedIff(m: Model, op: Operation, provisional: Option<Scope>, selectScope: bool)
    ensures BeginAllowed(m, op, provisional, selectScope) <==> !IsRejection(Begin(m, op, provisional, selectScope))
  {
  }

  /** A live scope keeps its agent run through an event exactly when the event does not blank it. */
  lemma EventKeepsBindingIff(m: Model, e: Event, id: ScopeId)
    requires Inv(m) && WellFormedEvent(e)
    requires id in m.scopes && id in Reduce(m, e).model.scopes && m.scopes[id].agentRunId != ""
    ensures Reduce(m, e).model.scopes[id].agentRunId == m.scopes[id].agentRunId <==> !Blanks(m, e, id)
  {
    if Scoped(e) {
      ScopedShape(m, e);
    } else if e.OperationBegin? {
      BeginKeepsBindingIff(m, e, id);
    }
  }

  predicate NeverBlanked(m: Model, events: seq<Event>, id: ScopeId)
    decreases |events|
  {
    events != [] ==> !Blanks(m, events[0], id) && NeverBlanked(Reduce(m, events[0]).model, events[1..], id)
  }

  /** The scope is bound to this agent run in every state of the run. */
  predicate BoundThroughout(m: Model, events: seq<Event>, id: ScopeId, agent: string)
    decreases |events|
  {
    && id in m.scopes && m.scopes[id].agentRunId == agent
    && (events != [] ==> BoundThroughout(Reduce(m, events[0]).model, events[1..], id, agent))
  }

  /** A scope that stays live is bound to one agent run over the whole run exactly when no event blanks it. */
  lemma {:induction false} RunKeepsBindingIff(m: Model, events: seq<Event>, id: ScopeId)
    requires Inv(m) && LiveThroughout(m, events, id) && m.scopes[id].agentRunId != ""
    requires forall e :: e in events ==> WellFormedEvent(e)
    ensures BoundThroughout(m, events, id, m.scopes[id].agentRunId) <==> NeverBlanked(m, events, id)
    decreases |events|
  {
    if events != [] {
      StepKeepsInv(m, events[0]);
      EventKeepsBindingIff(m, events[0], id);
      if !Blanks(m, events[0], id) {
        RunKeepsBindingIff(Reduce(m, events[0]).model, events[1..], id);
      }
    }
  }

  lemma {:induction false} BoundAtTheEnd(m: Model, events: seq<Event>, id: ScopeId, agent: string)
    requires BoundThroughout(m, events, id, agent)
    ensures id in Run(m, events).scopes && Run(m, events).scopes[id].agentRunId == agent
    decreases |events|
  {
    if events != [] {
      BoundAtTheEnd(Reduce(m, events[0]).model, events[1..], id, agent);
    }
  }

  /** If no event blanks it, a live scope has its agent run after the whole run. */
  lemma NoRunRebinds(m: Model, events: seq<Event>, id: ScopeId)
    requires Inv(m) && LiveThroughout(m, events, id) && m.scopes[id].agentRunId != ""
    requires (forall e :: e in events ==> WellFormedEvent(e)) && NeverBlanked(m, events, id)
    ensures id in Run(m, events).scopes
    ensures Run(m, events).scopes[id].agentRunId == m.scopes[id].agentRunId
  {
    RunKeepsBindingIff(m, events, id);
    BoundAtTheEnd(m, events, id, m.scopes[id].agentRunId);
  }

  /** A blank upsert in between does let a live scope change its agent run. */
  lemma BlankUpsertAllowsRebinding(m: Model, scope: Scope, first: string, second: string)
    requires Inv(m) && WellFormedScope(scope) && scope.scopeId in m.scopes
    requires m.scopes[scope.scopeId].agentRunId == first && first != "" && second != "" && first != second
    ensures var events := [ScopeUpsert(scope.(agentRunId := ""), false), ScopeUpsert(scope.(agentRunId := second), false)];
      && LiveThroughout(m, events, scope.scopeId)
      && scope.scopeId in Run(m, events).scopes
      && Run(m, events).scopes[scope.scopeId].agentRunId == second
  {
    var blank, rebound := ScopeUpsert(scope.(agentRunId := ""), false), ScopeUpsert(scope.(agentRunId := second), false);
    var m1 := Reduce(m, blank).model;
    var m2 := Reduce(m1, rebound).model;
    assert [blank, rebound][1..] == [rebound] && [rebound][1..] == [];
    assert Run(m, [blank, rebound]) == Run(m1, [rebound]) == Run(m2, []) == m2;
    assert LiveThroughout(m2, [], scope.scopeId);
    assert LiveThroughout(m1, [rebound], scope.scopeId);
  }
}
