// An optimistic branch creation that fails leaves no trace: whatever status, pending-turn or
// selection events arrived in between, the other scopes end as if it had never begun.

module BranchCreateRollback {
  import opened Wrappers
  import opened RuntimeModel
  import opened RuntimeReducer
  import opened RuntimeInvariant
  import opened RuntimeFrame

  /** The events that may arrive while the creation is in flight. */
  predicate Interlude(e: Event) {
    e.StatusChange? || e.TurnQueued? || e.TurnRemoved? || e.TurnsCleared? || e.SelectBranch?
  }

  predicate AllInterlude(events: seq<Event>) {
    forall e :: e in events ==> Interlude(e)
  }

  /** `long` has the scopes of `short` and, besides, the provisional scope `target`. */
  ghost predicate Extends(long: Model, short: Model, target: ScopeId) {
    target in long.scopes && target !in short.scopes && long.scopes - {target} == short.scopes
  }

  /** What the in-flight creation needs to stay true until it is settled. */
  ghost predicate InFlight(m: Model, target: ScopeId, op: Operation) {
    && target in m.scopes
    && op.operationId in m.scopes[target].operationsById
    && m.scopes[target].operationsById[op.operationId] == op
    && BranchCreateSource(m, m.scopes[target], op).Some?
  }

  predicate IsOptimisticCreate(op: Operation, target: Scope) {
    && op.kind == BranchCreate
    && op.scopeId == target.scopeId
    && op.targetBranchBindingId == Some(target.branchBindingId)
    && op.rollback.Some?
  }

  function SourceId(op: Operation): ScopeId {
    ScopeId(op.sourceSessionRunId.GetOr(""), op.sourceBranchBindingId.GetOr(""))
  }

  function Beginning(op: Operation, target: Scope, select: bool): Event {
    OperationBegin(op, Some(target), select)
  }

  function Failing(op: Operation): Event {
    OperationSettle(Failure, ById(op.scopeId), op.operationId, op.kind)
  }

  /** Beginning adds the provisional scope, holding the operation, and touches no other. */
  lemma BeginningExtends(m: Model, op: Operation, target: Scope, select: bool)
    requires Inv(m) && WellFormedScope(target) && target.scopeId !in m.scopes && IsOptimisticCreate(op, target)
    requires !IsRejection(Reduce(m, Beginning(op, target, select)))
    ensures var begun := Reduce(m, Beginning(op, target, select)).model;
      && Inv(begun)
      && Extends(begun, m, target.scopeId)
      && InFlight(begun, target.scopeId, op)
      && SourceId(op) in m.scopes && SourceId(op) != target.scopeId
      && (select ==> begun.visible.selectedScopeId == Some(target.scopeId))
      && (!select ==> begun.visible.selectedScopeId == m.visible.selectedScopeId)
  {
    StepKeepsInv(m, Beginning(op, target, select));
    BeginningPuts(m, op, target, select);
    var base := BeginBase(m, Some(target), select);
    SourceScopeIsTheSearch(base, base.scopes[op.scopeId], op);
    var begun := Reduce(m, Beginning(op, target, select)).model;
    assert begun.scopes - {target.scopeId} == m.scopes;
  }

  lemma BeginningPuts(m: Model, op: Operation, target: Scope, select: bool)
    requires Inv(m) && WellFormedScope(target) && target.scopeId !in m.scopes && IsOptimisticCreate(op, target)
    requires !IsRejection(Reduce(m, Beginning(op, target, select)))
    ensures var base, begun := BeginBase(m, Some(target), select), Reduce(m, Beginning(op, target, select)).model;
      && Inv(base) && base.scopes == m.scopes[target.scopeId := target]
      && BranchCreateHasSource(base, target, op)
      && begun.scopes == base.scopes[target.scopeId := WithOperation(target, op)]
      && begun.visible.selectedScopeId == (if select then Some(target.scopeId) else m.visible.selectedScopeId)
  {
    BeginShape(m, op, Some(target), select);
    BeginBaseShape(m, Some(target), select);
  }

  /** One event in flight does to the other scopes what it would do without the creation. */
  lemma InterludeStep(long: Model, short: Model, target: ScopeId, op: Operation, e: Event)
    requires Inv(long) && Inv(short) && Extends(long, short, target) && InFlight(long, target, op)
    requires Interlude(e)
    ensures var l, s := Reduce(long, e).model, Reduce(short, e).model;
      && Inv(l) && Inv(s) && Extends(l, s, target) && InFlight(l, target, op)
  {
    StepKeepsInv(long, e);
    StepKeepsInv(short, e);
    assert forall id :: id in short.scopes ==> id in long.scopes && long.scopes[id] == short.scopes[id];
    if Scoped(e) {
      ScopedInterludeStep(long, short, target, op, e);
    }
  }

  /** What a scoped event makes of the scope it reaches, if it is accepted there. */
  predicate AcceptedBy(scope: Scope, e: Event)
    requires Scoped(e)
  {
    && !(RevisionOf(e).Some? && RevisionOf(e).value < scope.runtimeRevision)
    && (e.StatusChange? ==> !AgentRunConflicts(scope.agentRunId, e.agentRunId))
  }

  /** A scoped event other than a settlement rewrites the scope it resolves to, or does nothing. */
  lemma ScopedRewrite(m: Model, e: Event)
    requires Inv(m) && Scoped(e) && !e.OperationSettle?
    ensures var named := ResolveScope(m, e.target);
      Reduce(m, e).model.scopes ==
        if named.Some? && AcceptedBy(m.scopes[named.value], e)
        then m.scopes[named.value := Patched(m.scopes[named.value], e)]
        else m.scopes
  {
  }

  /** Only an event for the target is resolved differently without the target. */
  lemma ResolutionAgrees(long: Model, short: Model, target: ScopeId, t: Target)
    requires Extends(long, short, target)
    ensures ResolveScope(short, t) == if ResolveScope(long, t) == Some(target) then None else ResolveScope(long, t)
  {
    assert forall id :: id in short.scopes <==> id in long.scopes && id != target;
    assert forall id :: id in short.scopes ==> long.scopes[id] == short.scopes[id];
  }

  lemma ScopedInterludeStep(long: Model, short: Model, target: ScopeId, op: Operation, e: Event)
    requires Inv(long) && Inv(short) && Extends(long, short, target) && InFlight(long, target, op)
    requires Interlude(e) && Scoped(e)
    ensures Extends(Reduce(long, e).model, Reduce(short, e).model, target)
    ensures InFlight(Reduce(long, e).model, target, op)
  {
    ScopedRewrite(long, e);
    ScopedRewrite(short, e);
    ResolutionAgrees(long, short, target, e.target);
    var named := ResolveScope(long, e.target);
    if named.Some? && AcceptedBy(long.scopes[named.value], e) {
      var patched := Patched(long.scopes[named.value], e);
      RewriteExtends(long.scopes, short.scopes, target, named.value, patched);
      PatchKeepsSource(long, named.value, e, target, op);
    }
  }

  /** Rewriting the same scope in both keeps them apart by the target only. */
  lemma RewriteExtends(long: map<ScopeId, Scope>, short: map<ScopeId, Scope>, target: ScopeId, id: ScopeId, scope: Scope)
    requires target in long && target !in short && long - {target} == short && id in long
    ensures long[id := scope] - {target} == if id == target then short else short[id := scope]
  {
    if id == target {
      assert long[id := scope] - {target} == long - {target};
    } else {
      assert long[id := scope] - {target} == (long - {target})[id := scope];
    }
  }

  /** Rewriting a scope keeps the operation in flight and the agent run of its source. */
  lemma PatchKeepsSource(m: Model, id: ScopeId, e: Event, target: ScopeId, op: Operation)
    requires Inv(m) && InFlight(m, target, op) && id in m.scopes
    requires Interlude(e) && Scoped(e) && AcceptedBy(m.scopes[id], e)
    ensures forall next: Model :: next.scopes == m.scopes[id := Patched(m.scopes[id], e)] ==> InFlight(next, target, op)
  {
    var patched := Patched(m.scopes[id], e);
    assert patched.operationsById == m.scopes[id].operationsById && patched.sessionRunId == m.scopes[id].sessionRunId;
    assert patched.branchBindingId == m.scopes[id].branchBindingId;
    assert m.scopes[id].agentRunId != "" ==> patched.agentRunId == m.scopes[id].agentRunId;
  }

  lemma {:induction false} InterludeRun(long: Model, short: Model, target: ScopeId, op: Operation, events: seq<Event>)
    requires Inv(long) && Inv(short) && Extends(long, short, target) && InFlight(long, target, op)
    requires AllInterlude(events)
    ensures var l, s := Run(long, events), Run(short, events);
      && Inv(l) && Inv(s) && Extends(l, s, target) && InFlight(l, target, op)
    decreases |events|
  {
    if events != [] {
      InterludeStep(long, short, target, op, events[0]);
      InterludeRun(Reduce(long, events[0]).model, Reduce(short, events[0]).model, target, op, events[1..]);
    }
  }

  /** Failure removes exactly the target scope and hands a selected target's place to the source. */
  lemma FailingUndoes(m: Model, target: ScopeId, op: Operation)
    requires Inv(m) && InFlight(m, target, op) && IsOptimisticCreate(op, m.scopes[target])
    ensures var r := Reduce(m, Failing(op));
      && !IsRejection(r) && Inv(r.model)
      && r.model.scopes == m.scopes - {target}
      && (if m.visible.selectedScopeId == Some(target) then r.model.visible.selectedScopeId == Some(SourceId(op))
          else r.model.visible == m.visible)
  {
    var scope := m.scopes[target];
    StepKeepsInv(m, Failing(op));
    SettledIsReady(m, target, op);
    var settled := UpdateScope(m, WithoutOperation(scope, op.operationId)).model;
    FailingRollsBack(m, target, op, settled);
    RollbackShape(settled, scope, op, OperationSettled(target, op.operationId, op.kind));
  }

  lemma FailingRollsBack(m: Model, target: ScopeId, op: Operation, settled: Model)
    requires Inv(m) && InFlight(m, target, op) && IsOptimisticCreate(op, m.scopes[target])
    requires settled == UpdateScope(m, WithoutOperation(m.scopes[target], op.operationId)).model
    ensures Reduce(m, Failing(op)) == RolledBack(settled, m.scopes[target], op, [OperationSettled(target, op.operationId, op.kind)])
    ensures op.scopeId == target && op.targetBranchBindingId == Some(m.scopes[target].branchBindingId)
    ensures op.targetBranchBindingId != op.sourceBranchBindingId
  {
    assert OperationFiled(m.scopes[target], op.operationId) && WellFormedScope(m.scopes[target]);
  }

  /** Once the operation is taken out, the source is still there, in another scope. */
  lemma SettledIsReady(m: Model, target: ScopeId, op: Operation)
    requires Inv(m) && InFlight(m, target, op) && IsOptimisticCreate(op, m.scopes[target])
    ensures var scope := m.scopes[target];
      var settled := UpdateScope(m, WithoutOperation(scope, op.operationId)).model;
      && Inv(settled) && SourceId(op) != target
      && settled.scopes - {target} == m.scopes - {target}
      && settled.visible.selectedScopeId == m.visible.selectedScopeId
      && (m.visible.selectedScopeId != Some(target) ==> settled.visible == m.visible)
      && BranchCreateSource(settled, scope, op).Some?
      && BranchCreateSource(settled, scope, op).value.scopeId == SourceId(op)
  {
    var scope := m.scopes[target];
    assert OperationFiled(scope, op.operationId) && WellFormedScope(scope);
    WithoutStaysFiled(scope, op.operationId);
    PuttingKeepsInv(m, WithoutOperation(scope, op.operationId));
    var source := BranchCreateSource(m, scope, op).value;
    assert SourceId(op) in m.scopes && m.scopes[SourceId(op)] == source;
  }

  /** The whole excursion, begin to failure, leaves every scope as the same events would have left
      it had the creation never begun, and returns a selection still on the target to the source. */
  lemma FailedCreateLeavesNoTrace(m: Model, op: Operation, target: Scope, select: bool, events: seq<Event>)
    requires Inv(m) && WellFormedScope(target) && target.scopeId !in m.scopes && IsOptimisticCreate(op, target)
    requires !IsRejection(Reduce(m, Beginning(op, target, select)))
    requires AllInterlude(events)
    ensures var before := Run(Reduce(m, Beginning(op, target, select)).model, events);
      var r := Reduce(before, Failing(op));
      && !IsRejection(r)
      && r.model.scopes == before.scopes - {target.scopeId}
      && r.model.scopes == Run(m, events).scopes
      && r.model.visible.selectedScopeId ==
           (if before.visible.selectedScopeId == Some(target.scopeId) then Some(SourceId(op))
            else before.visible.selectedScopeId)
      && Inv(r.model)
  {
    BeginningExtends(m, op, target, select);
    var begun := Reduce(m, Beginning(op, target, select)).model;
    InterludeRun(begun, m, target.scopeId, op, events);
    var before := Run(begun, events);
    assert before.scopes[target.scopeId].scopeId == target.scopeId && WellFormedScope(before.scopes[target.scopeId]);
    FailingUndoes(before, target.scopeId, op);
  }

  /** If nothing selected another branch meanwhile, the view is back on the source and shows it as it is now. */
  lemma FailedCreateRestoresTheView(m: Model, op: Operation, target: Scope, events: seq<Event>)
    requires Inv(m) && WellFormedScope(target) && target.scopeId !in m.scopes && IsOptimisticCreate(op, target)
    requires !IsRejection(Reduce(m, Beginning(op, target, true)))
    requires AllInterlude(events) && forall e :: e in events ==> !e.SelectBranch?
    ensures var before := Run(Reduce(m, Beginning(op, target, true)).model, events);
      var after := Reduce(before, Failing(op)).model;
      && SourceId(op) in Run(m, events).scopes
      && Shows(after.visible, Run(m, events).scopes[SourceId(op)])
  {
    FailedCreateLeavesNoTrace(m, op, target, true, events);
    BeginningExtends(m, op, target, true);
    SelectionStays(Reduce(m, Beginning(op, target, true)).model, events);
    assert Run(m, events).scopes == Reduce(Run(Reduce(m, Beginning(op, target, true)).model, events), Failing(op)).model.scopes;
  }

  lemma {:induction false} SelectionStays(m: Model, events: seq<Event>)
    requires AllInterlude(events) && forall e :: e in events ==> !e.SelectBranch?
    requires Inv(m)
    ensures Run(m, events).visible.selectedScopeId == m.visible.selectedScopeId
    decreases |events|
  {
    if events != [] {
      var e := events[0];
      assert Interlude(e);
      StepKeepsInv(m, e);
      SelectionStays(Reduce(m, e).model, events[1..]);
    }
  }
}
