// What every event of the session-runtime reducer keeps: scopes filed under their own id,
// operations filed in the scope they name, and a visible projection that agrees with its scope.

module RuntimeInvariant {
  import opened Wrappers
  import opened RuntimeModel
  import opened RuntimeReducer

  // ---------------------------------------------------------------------------
  // Invariants
  // ---------------------------------------------------------------------------

  /** An operation stored as `key` in `scope` names both, and a branch creation has another target. */
  ghost predicate OperationFiled(scope: Scope, key: string)
    requires key in scope.operationsById
  {
    var op := scope.operationsById[key];
    && op.operationId == key
    && op.scopeId == scope.scopeId
    && (op.kind == BranchCreate ==> op.targetBranchBindingId != op.sourceBranchBindingId)
  }

  ghost predicate WellFormedScope(scope: Scope) {
    && scope.scopeId == ScopeId(scope.sessionRunId, scope.branchBindingId)
    && forall key :: key in scope.operationsById ==> OperationFiled(scope, key)
  }

  ghost predicate Filed(scopes: map<ScopeId, Scope>) {
    forall id :: id in scopes ==> scopes[id].scopeId == id && WellFormedScope(scopes[id])
  }

  /** The projection shows exactly this scope's branch, transcript, stats and status. */
  ghost predicate Shows(v: Projection, scope: Scope) {
    && v.selectedScopeId == Some(scope.scopeId)
    && v.selectedBranchBindingId == scope.branchBindingId
    && v.selectedTranscript == scope.transcript.GetOr([])
    && v.selectedStats == StatsFor(scope)
    && v.selectedRuntimeStatus == scope.status
  }

  ghost predicate SummariesKeyed(summaries: seq<Summary>) {
    && (forall i :: 0 <= i < |summaries| ==>
          summaries[i].scopeId == ScopeId(summaries[i].sessionRunId, summaries[i].branchBindingId))
    && (forall i, j :: 0 <= i < j < |summaries| ==> summaries[i].scopeId != summaries[j].scopeId)
  }

  /** No dangling selection, and the cached projection is the one its scope gives. */
  ghost predicate Coherent(m: Model) {
    && SummariesKeyed(m.visible.branchSummaries)
    && (m.visible.selectedScopeId.Some? ==>
          && m.visible.selectedScopeId.value in m.scopes
          && Shows(m.visible, m.scopes[m.visible.selectedScopeId.value]))
  }

  ghost predicate Inv(m: Model) {
    Filed(m.scopes) && Coherent(m)
  }

  /** What the reducer's callers guarantee about the scopes they hand in. */
  ghost predicate WellFormedEvent(e: Event) {
    match e
    case ScopeUpsert(scope, _) => WellFormedScope(scope)
    case OperationBegin(_, provisional, _) => provisional.Some? ==> WellFormedScope(provisional.value)
    case _ => true
  }

  // ---------------------------------------------------------------------------
  // Branch summaries
  // ---------------------------------------------------------------------------

  function Ids(summaries: seq<Summary>): seq<ScopeId> {
    seq(|summaries|, i requires 0 <= i < |summaries| => summaries[i].scopeId)
  }

  /** The ids that still name a scope of the run, in their order. */
  function Surviving(scopes: map<ScopeId, Scope>, run: string, ids: seq<ScopeId>): seq<ScopeId> {
    if ids == [] then []
    else if ids[0] in scopes && ids[0].sessionRunId == run then [ids[0]] + Surviving(scopes, run, ids[1..])
    else Surviving(scopes, run, ids[1..])
  }

  /** Every entry is the current summary of a scope of the run, and no scope is listed twice. */
  ghost predicate ExactSummaries(scopes: map<ScopeId, Scope>, run: string, summaries: seq<Summary>) {
    && (forall i :: 0 <= i < |summaries| ==>
          && summaries[i].scopeId in scopes
          && summaries[i].scopeId.sessionRunId == run
          && summaries[i] == SummaryOf(scopes[summaries[i].scopeId]))
    && (forall i, j :: 0 <= i < j < |summaries| ==> summaries[i].scopeId != summaries[j].scopeId)
  }

  lemma {:induction false} PreservedAreExact(
    scopes: map<ScopeId, Scope>, run: string, existing: seq<Summary>, covered: set<ScopeId>)
    requires Filed(scopes)
    ensures var p := PreservedSummaries(scopes, run, existing, covered);
      && ExactSummaries(scopes, run, p)
      && forall i :: 0 <= i < |p| ==> p[i].scopeId !in covered
    decreases |existing|
  {
    if existing != [] {
      PreservedAreExact(scopes, run, existing[1..], covered);
      match SummarizedScope(scopes, run, existing[0]) {
        case None =>
        case Some(scope) => PreservedAreExact(scopes, run, existing[1..], covered + {scope.scopeId});
      }
    }
  }

  lemma {:induction false} PreservedKeepOrder(
    scopes: map<ScopeId, Scope>, run: string, existing: seq<Summary>, covered: set<ScopeId>)
    requires Filed(scopes) && SummariesKeyed(existing)
    requires forall i :: 0 <= i < |existing| ==> existing[i].scopeId !in covered
    ensures Ids(PreservedSummaries(scopes, run, existing, covered)) == Surviving(scopes, run, Ids(existing))
    decreases |existing|
  {
    var p := PreservedSummaries(scopes, run, existing, covered);
    if existing != [] {
      var first, rest := existing[0], existing[1..];
      assert Ids(existing)[1..] == Ids(rest);
      if first.scopeId in scopes && first.sessionRunId == run {
        PreservedKeepOrder(scopes, run, rest, covered + {first.scopeId});
        var q := PreservedSummaries(scopes, run, rest, covered + {first.scopeId});
        assert p == [SummaryOf(scopes[first.scopeId])] + q;
        assert Ids(p) == [first.scopeId] + Ids(q);
      } else {
        PreservedKeepOrder(scopes, run, rest, covered);
      }
    }
  }

  /** A refreshed list is exact, confined to the run and complete for the selected scope,
      and surviving entries keep their order, with the selected scope appended only when it is new. */
  lemma RefreshedSummaries(scopes: map<ScopeId, Scope>, selected: ScopeId, existing: seq<Summary>)
    requires Filed(scopes) && selected in scopes && SummariesKeyed(existing)
    ensures var run := selected.sessionRunId;
      var result := BranchSummaries(scopes, scopes[selected], existing);
      var kept := Surviving(scopes, run, Ids(existing));
      && ExactSummaries(scopes, run, result)
      && SummariesKeyed(result)
      && selected in Ids(result)
      && Ids(result) == if selected in kept then kept else kept + [selected]
  {
    var run := selected.sessionRunId;
    var preserved := PreservedSummaries(scopes, run, existing, {});
    var result := BranchSummaries(scopes, scopes[selected], existing);
    PreservedAreExact(scopes, run, existing, {});
    PreservedKeepOrder(scopes, run, existing, {});
    if CoversScope(preserved, selected) {
      var i :| 0 <= i < |preserved| && preserved[i].scopeId == selected;
      assert Ids(preserved)[i] == selected;
    } else {
      assert forall i :: 0 <= i < |preserved| ==> Ids(preserved)[i] != selected;
      assert Ids(result) == Ids(preserved) + [selected];
    }
  }

  // ---------------------------------------------------------------------------
  // The source of a branch creation
  // ---------------------------------------------------------------------------

  /** In a filed model the keyed lookup finds exactly the scopes the original search accepts. */
  lemma SourceScopeIsTheSearch(m: Model, scope: Scope, op: Operation)
    requires Filed(m.scopes)
    ensures forall id :: id in m.scopes ==>
      (IsBranchCreateSource(m.scopes[id], scope, op) <==> BranchCreateSource(m, scope, op) == Some(m.scopes[id]))
    ensures BranchCreateSource(m, scope, op).Some? ==>
      exists id :: id in m.scopes && BranchCreateSource(m, scope, op) == Some(m.scopes[id])
  {
    forall id | id in m.scopes && IsBranchCreateSource(m.scopes[id], scope, op)
      ensures id == ScopeId(op.sourceSessionRunId.value, op.sourceBranchBindingId.value)
    {
      assert m.scopes[id].scopeId == id && WellFormedScope(m.scopes[id]);
    }
  }

  // ---------------------------------------------------------------------------
  // Every event keeps the invariant
  // ---------------------------------------------------------------------------

  lemma ProjectionIsCoherent(m: Model, id: ScopeId)
    requires Filed(m.scopes) && id in m.scopes && SummariesKeyed(m.visible.branchSummaries)
    ensures Inv(m.(visible := ProjectionFor(m, m.scopes[id])))
  {
    RefreshedSummaries(m.scopes, id, m.visible.branchSummaries);
  }

  /** Replacing a scope keeps the invariant, whether or not it is the selected one. */
  lemma PuttingKeepsInv(m: Model, scope: Scope)
    requires Inv(m) && WellFormedScope(scope)
    ensures Inv(UpdateScope(m, scope).model)
    ensures forall select :: Inv(Upsert(m, scope, select).model)
  {
    var next := m.(scopes := m.scopes[scope.scopeId := scope]);
    assert Filed(next.scopes);
    ProjectionIsCoherent(next, scope.scopeId);
  }

  lemma SettlingKeepsInv(m: Model, id: ScopeId, operationId: string, kind: OperationKind, outcome: Outcome)
    requires Inv(m) && id in m.scopes
    ensures Inv(Settle(m, m.scopes[id], operationId, kind, outcome).model)
  {
    var scope := m.scopes[id];
    if !IsRejection(Settle(m, scope, operationId, kind, outcome)) {
      var op := scope.operationsById[operationId];
      assert OperationFiled(scope, operationId);
      var without := WithoutOperation(scope, operationId);
      assert WellFormedScope(without) by {
        forall key | key in without.operationsById ensures OperationFiled(without, key) {
          assert OperationFiled(scope, key);
        }
      }
      PuttingKeepsInv(m, without);
      if MustRollBack(scope, op, outcome) {
        RollbackKeepsInv(UpdateScope(m, without).model, scope, op, [OperationSettled(scope.scopeId, operationId, kind)]);
      }
    }
  }

  /** The source is another branch, so dropping the target leaves it to be selected. */
  lemma RollbackKeepsInv(settled: Model, scope: Scope, op: Operation, done: seq<Effect>)
    requires Inv(settled) && WellFormedScope(scope) && op.rollback.Some?
    requires op.targetBranchBindingId == Some(scope.branchBindingId)
    requires op.targetBranchBindingId != op.sourceBranchBindingId
    ensures Inv(RolledBack(settled, scope, op, done).model)
  {
    var source := BranchCreateSource(settled, scope, op);
    if source.Some? {
      SourceScopeIsTheSearch(settled, scope, op);
      assert source.value.scopeId != scope.scopeId;
      var cleaned := settled.(scopes := settled.scopes - {scope.scopeId});
      assert source.value.scopeId in cleaned.scopes;
      ProjectionIsCoherent(cleaned, source.value.scopeId);
    }
  }

  lemma BeginningKeepsInv(m: Model, op: Operation, provisional: Option<Scope>, selectScope: bool)
    requires Inv(m) && (provisional.Some? ==> WellFormedScope(provisional.value))
    ensures Inv(Begin(m, op, provisional, selectScope).model)
  {
    if !IsRejection(Begin(m, op, provisional, selectScope)) {
      if provisional.Some? {
        PuttingKeepsInv(m, provisional.value);
      }
      var base := BeginBase(m, provisional, selectScope);
      assert Inv(base);
      var scope := base.scopes[op.scopeId];
      var filed := WithOperation(scope, op);
      assert WellFormedScope(filed) by {
        forall key | key in filed.operationsById ensures OperationFiled(filed, key) {
          if key != op.operationId {
            assert OperationFiled(scope, key);
          }
        }
      }
      PuttingKeepsInv(base, filed);
    }
  }

  /** A change of anything but the identity and the operations leaves a scope well formed. */
  lemma SameOperationsStayFiled(scope: Scope, next: Scope)
    requires WellFormedScope(scope)
    requires next.scopeId == scope.scopeId && next.sessionRunId == scope.sessionRunId
    requires next.branchBindingId == scope.branchBindingId && next.operationsById == scope.operationsById
    ensures WellFormedScope(next)
  {
    forall key | key in next.operationsById ensures OperationFiled(next, key) {
      assert OperationFiled(scope, key);
    }
  }

  lemma StepKeepsInv(m: Model, e: Event)
    requires Inv(m) && WellFormedEvent(e)
    ensures Inv(Reduce(m, e).model)
  {
    if Scoped(e) {
      var named := ResolveScope(m, e.target);
      if named.Some? {
        var scope := m.scopes[named.value];
        if e.OperationSettle? {
          SettlingKeepsInv(m, named.value, e.operationId, e.operationKind, e.outcome);
        } else {
          SameOperationsStayFiled(scope, Patched(scope, e));
          PuttingKeepsInv(m, Patched(scope, e));
        }
      }
    } else {
      match e
      case ScopeUpsert(scope, select) => PuttingKeepsInv(m, scope);
      case ScopeDelete(id) =>
      case SelectBranch(target) =>
        if ResolveScope(m, target).Some? {
          ProjectionIsCoherent(m, ResolveScope(m, target).value);
        }
      case OperationBegin(op, provisional, selectScope) => BeginningKeepsInv(m, op, provisional, selectScope);
    }
  }

  /** Over every sequence of events the projection agrees with its source. */
  lemma {:induction false} RunKeepsInv(m: Model, events: seq<Event>)
    requires Inv(m) && forall e :: e in events ==> WellFormedEvent(e)
    ensures Inv(Run(m, events))
    decreases |events|
  {
    if events != [] {
      StepKeepsInv(m, events[0]);
      RunKeepsInv(Reduce(m, events[0]).model, events[1..]);
    }
  }

  /** So it does in every model that is reachable from the empty one. */
  lemma ReachableIsCoherent(events: seq<Event>)
    requires forall e :: e in events ==> WellFormedEvent(e)
    ensures Inv(Run(EMPTY_MODEL, events))
  {
    RunKeepsInv(EMPTY_MODEL, events);
  }
}
