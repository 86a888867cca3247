// Invariants of every run of store and coordinator calls: at most one visible operation,
// provisional start scopes holding nothing but their own start, one settlement per begin.

module ProtocolInvariant {
  import opened Wrappers
  import opened RuntimeModel
  import opened RuntimeReducer
  import opened RuntimeInvariant
  import opened RuntimeFrame
  import opened RuntimeProtocol

  // ---------------------------------------------------------------------------
  // Invariants and the calls of the protocol
  // ---------------------------------------------------------------------------

  ghost predicate AtMostOneVisible(m: Model) {
    forall s, t :: Matches(m, s, VISIBLE) && Matches(m, t, VISIBLE) ==> s == t
  }

  /** Starts live, visibly, in their own provisional scope, which holds nothing else. */
  ghost predicate StartsApart(m: Model) {
    forall s :: Stored(m, s) ==> StartApart(m, s)
  }

  ghost predicate StartApart(m: Model, s: Slot)
    requires Stored(m, s)
  {
    && (At(m, s).kind == Start <==> s.scope.sessionRunId == PENDING_RUN)
    && (At(m, s).kind == Start ==> s.scope == PendingStartId(s.key) && At(m, s).visible)
  }

  ghost predicate ProtocolInv(m: Model) {
    Inv(m) && AtMostOneVisible(m) && StartsApart(m)
  }

  ghost predicate NoneVisible(m: Model) {
    forall s :: !Matches(m, s, VISIBLE)
  }

  /** Server-side ids are never the stand-in, and events delivered from outside carry no scopes or begins. */
  predicate ProtocolCall(c: Call) {
    match c
    case BeginOperation(args) => args.source.Some? ==> args.source.value.sessionRunId != PENDING_RUN
    case AcceptStart(_, response) => response.sessionRunId != Some(PENDING_RUN)
    case EnsureScope(input) => input.sessionRunId != PENDING_RUN
    case Restore(input) => input.sessionRunId != PENDING_RUN
    case Deliver(event) => Scoped(event) || event.SelectBranch? || event.ScopeDelete?
    case _ => true
  }

  // ---------------------------------------------------------------------------
  // Transitions that store nothing new
  // ---------------------------------------------------------------------------

  /** Everything stored in `next` was stored, unchanged and in the same slot, in `m`. */
  ghost predicate StoresNoMore(next: Model, m: Model) {
    forall s :: Stored(next, s) ==> Stored(m, s) && At(next, s) == At(m, s)
  }

  lemma StoringNoMoreKeepsInv(next: Model, m: Model)
    requires ProtocolInv(m) && Inv(next) && StoresNoMore(next, m)
    ensures ProtocolInv(next)
  {
    forall s | Stored(next, s) ensures StartApart(next, s) {
      assert StartApart(m, s);
    }
    forall s, t | Matches(next, s, VISIBLE) && Matches(next, t, VISIBLE) ensures s == t {
      assert Matches(m, s, VISIBLE) && Matches(m, t, VISIBLE);
    }
  }

  lemma PatchStoresNoMore(m: Model, e: Event)
    requires Inv(m) && Scoped(e) && !e.OperationSettle?
    ensures StoresNoMore(Reduce(m, e).model, m)
  {
    var named := ResolveScope(m, e.target);
    if named.Some? {
      assert Patched(m.scopes[named.value], e).operationsById == m.scopes[named.value].operationsById;
    }
  }

  function CountSettled(effects: seq<Effect>, operationId: string): nat {
    if effects == [] then 0
    else (if effects[0].OperationSettled? && effects[0].operationId == operationId then 1 else 0)
         + CountSettled(effects[1..], operationId)
  }

  /** The reducer's settlement of a stored operation: reported first and once, and its slot emptied. */
  lemma SettleStored(m: Model, s: Slot, outcome: Outcome)
    requires Inv(m) && Stored(m, s)
    ensures var op := At(m, s);
      var r := Reduce(m, SettleEvent(op, outcome));
      && Inv(r.model) && StoresNoMore(r.model, m) && !Stored(r.model, s)
      && r.effects[0] == OperationSettled(s.scope, s.key, op.kind)
      && (forall i :: 0 < i < |r.effects| ==> !r.effects[i].OperationSettled?)
  {
    var op, scope := At(m, s), m.scopes[s.scope];
    assert scope.scopeId == s.scope && OperationFiled(scope, s.key);
    assert ResolveScope(m, ById(op.scopeId)) == Some(s.scope);
    var e := SettleEvent(op, outcome);
    assert Reduce(m, e) == Settle(m, scope, s.key, op.kind, outcome);
    StepKeepsInv(m, e);
    SettleStoresNoMore(m, scope, op, outcome);
  }

  lemma SettleStoresNoMore(m: Model, scope: Scope, op: Operation, outcome: Outcome)
    requires Inv(m) && scope.scopeId in m.scopes && m.scopes[scope.scopeId] == scope
    requires op.operationId in scope.operationsById && scope.operationsById[op.operationId] == op
    requires op.scopeId == scope.scopeId
    ensures var r := Settle(m, scope, op.operationId, op.kind, outcome);
      && StoresNoMore(r.model, m) && !Stored(r.model, Slot(scope.scopeId, op.operationId))
      && r.effects[0] == OperationSettled(scope.scopeId, op.operationId, op.kind)
      && (forall i :: 0 < i < |r.effects| ==> !r.effects[i].OperationSettled?)
  {
    var without := WithoutOperation(scope, op.operationId);
    WithoutStaysFiled(scope, op.operationId);
    PuttingKeepsInv(m, without);
    var settled := UpdateScope(m, without).model;
    assert settled.scopes == m.scopes[scope.scopeId := without];
    assert StoresNoMore(settled, m);
    assert OperationFiled(scope, op.operationId);
    if MustRollBack(scope, op, outcome) {
      RollbackStoresNoMore(settled, scope, op, OperationSettled(scope.scopeId, op.operationId, op.kind));
    }
  }

  lemma RollbackStoresNoMore(settled: Model, scope: Scope, op: Operation, done: Effect)
    requires Inv(settled) && WellFormedScope(scope) && op.rollback.Some? && done.OperationSettled?
    requires op.targetBranchBindingId == Some(scope.branchBindingId)
    requires op.targetBranchBindingId != op.sourceBranchBindingId
    ensures var r := RolledBack(settled, scope, op, [done]);
      && StoresNoMore(r.model, settled)
      && r.effects[0] == done && (forall i :: 0 < i < |r.effects| ==> !r.effects[i].OperationSettled?)
  {
    if BranchCreateSource(settled, scope, op).Some? {
      RollbackShape(settled, scope, op, done);
    } else {
      NoSourceShape(settled, scope, op, [done]);
    }
  }

  lemma OnlyMatchIsUnique(m: Model, s: Slot, c: Criteria)
    requires Matches(m, s, c) && forall t :: Matches(m, t, c) ==> t == s
    ensures UniqueMatch(m, c)
  {
  }

  lemma FindIsUnique(m: Model, c: Criteria) returns (s: Slot)
    requires UniqueMatch(m, c)
    ensures Matches(m, s, c) && Find(m, c) == Some(At(m, s))
    ensures forall t :: Matches(m, t, c) ==> t == s
  {
    s :| Matches(m, s, c) && forall t :: Matches(m, t, c) ==> t == s;
  }

  /** What a response may come to for the operation in `s`: nothing, its settlement, or, for a start, its
      handover to `target`. */
  ghost predicate ResponseOutcome(m: Model, s: Slot, target: ScopeId, agent: Option<string>, r: Reduction) {
    || r == Unchanged(m)
    || (&& Stored(m, s)
        && (|| r == SettleAs(m, At(m, s), true)
            || r == SettleAs(m, At(m, s), false)
            || (At(m, s).kind == Start && target.sessionRunId != PENDING_RUN && r == ConfirmStart(m, At(m, s), target, agent))))
  }

  lemma ResponseHasOutcome(m: Model, selected: Option<SelectedIdentity>, revision: int, c: Call)
    returns (s: Slot, target: ScopeId, agent: Option<string>)
    requires IsResponse(c) && ProtocolCall(c)
    ensures ResponseOutcome(m, s, target, agent, ExecResponse(m, selected, revision, c).reduction)
  {
    s, target, agent := Slot(ScopeId("", ""), ""), ScopeId("", ""), None;
    if UniqueMatch(m, Sought(c)) {
      s := FindIsUnique(m, Sought(c));
      if c.AcceptStart? && Present(c.response.sessionRunId) && Present(c.response.branchBindingId) {
        target, agent := ScopeId(c.response.sessionRunId.value, c.response.branchBindingId.value), c.response.agentRunId;
      }
    }
  }

  /** A visible operation of a protocol model is the one the search for it returns. */
  lemma VisibleIsFound(m: Model, t: Slot)
    requires AtMostOneVisible(m) && Matches(m, t, VISIBLE)
    ensures UniqueMatch(m, VISIBLE) && Find(m, VISIBLE) == Some(At(m, t))
  {
    assert forall u :: Matches(m, u, VISIBLE) ==> u == t;
    var s := FindIsUnique(m, VISIBLE);
  }

  /** Clearing leaves no visible operation. */
  lemma ClearingLeavesNoneVisible(m: Model)
    requires ProtocolInv(m)
    ensures var r := ClearVisible(m);
      && ProtocolInv(r.model) && StoresNoMore(r.model, m)
      && NoneVisible(r.model)
  {
    if UniqueMatch(m, VISIBLE) {
      var s := FindIsUnique(m, VISIBLE);
      SettleStored(m, s, Failure);
      var next := ClearVisible(m).model;
      StoringNoMoreKeepsInv(next, m);
      forall t ensures !Matches(next, t, VISIBLE) {
        if Matches(next, t, VISIBLE) {
          assert Matches(m, t, VISIBLE);
        }
      }
    } else {
      forall t ensures !Matches(m, t, VISIBLE) {
        if Matches(m, t, VISIBLE) {
          VisibleIsFound(m, t);
        }
      }
    }
  }

  // ---------------------------------------------------------------------------
  // Storing one operation
  // ---------------------------------------------------------------------------

  lemma PutStoresNoMore(m: Model, scope: Scope, select: bool)
    requires Inv(m) && WellFormedScope(scope)
    requires scope.scopeId in m.scopes ==> scope.operationsById == m.scopes[scope.scopeId].operationsById
    requires scope.scopeId !in m.scopes ==> scope.operationsById == map[]
    ensures var r := Reduce(m, ScopeUpsert(scope, select));
      Inv(r.model) && StoresNoMore(r.model, m)
  {
    PuttingKeepsInv(m, scope);
  }

  /** Starting over puts an empty provisional scope. */
  lemma PutEmptyStoresNoMore(m: Model, scope: Scope, select: bool)
    requires Inv(m) && WellFormedScope(scope) && scope.operationsById == map[]
    ensures var r := Reduce(m, ScopeUpsert(scope, select));
      Inv(r.model) && StoresNoMore(r.model, m)
  {
    PuttingKeepsInv(m, scope);
  }

  lemma EnsuredIsWellFormed(m: Model, i: EnsureInput)
    requires Inv(m) && !EnsureRefused(m, i)
    ensures WellFormedScope(EnsuredScope(m, i))
  {
    var id := ScopeId(i.sessionRunId, i.branchBindingId);
    if id in m.scopes {
      assert m.scopes[id].scopeId == id;
      SameOperationsStayFiled(m.scopes[id], EnsuredScope(m, i));
    }
  }

  lemma EnsureStoresNoMore(m: Model, i: EnsureInput)
    requires Inv(m)
    ensures Inv(Ensure(m, i).model) && StoresNoMore(Ensure(m, i).model, m)
  {
    if !EnsureRefused(m, i) {
      EnsuredIsWellFormed(m, i);
      PutStoresNoMore(m, EnsuredScope(m, i), i.select);
    }
  }

  lemma CursorStoresNoMore(m: Model, id: ScopeId, cursor: int, status: Option<Status>)
    requires Inv(m)
    ensures Inv(RecordCursor(m, id, cursor, status).model)
    ensures StoresNoMore(RecordCursor(m, id, cursor, status).model, m)
  {
    if id in m.scopes {
      assert m.scopes[id].scopeId == id;
      SameOperationsStayFiled(m.scopes[id], CursorScope(m.scopes[id], cursor, status));
      PutStoresNoMore(m, CursorScope(m.scopes[id], cursor, status), false);
    }
  }

  /** Everything stored in `next` but `op` was stored, unchanged, in `m`. */
  ghost predicate StoresOneMore(next: Model, m: Model, op: Operation) {
    && (forall s :: Stored(next, s) && s != Slot(op.scopeId, op.operationId) ==>
          Stored(m, s) && At(next, s) == At(m, s))
    && (Stored(next, Slot(op.scopeId, op.operationId)) ==>
          || At(next, Slot(op.scopeId, op.operationId)) == op
          || (&& Stored(m, Slot(op.scopeId, op.operationId))
              && At(next, Slot(op.scopeId, op.operationId)) == At(m, Slot(op.scopeId, op.operationId))))
  }

  lemma BeginStoresOne(m: Model, op: Operation)
    requires Inv(m)
    ensures var r := Reduce(m, OperationBegin(op, None, false));
      && Inv(r.model)
      && StoresOneMore(r.model, m, op)
      && (forall i :: 0 <= i < |r.effects| ==> !r.effects[i].OperationSettled?)
  {
    BeginShape(m, op, None, false);
    StepKeepsInv(m, OperationBegin(op, None, false));
  }

  lemma StoringOneKeepsInv(next: Model, m: Model, op: Operation)
    requires ProtocolInv(m) && Inv(next) && StoresOneMore(next, m, op)
    requires op.kind == Start <==> op.scopeId.sessionRunId == PENDING_RUN
    requires op.kind == Start ==> op.scopeId == PendingStartId(op.operationId) && op.visible
    requires op.visible ==> NoneVisible(m)
    ensures ProtocolInv(next)
  {
    forall s | Stored(next, s) ensures StartApart(next, s) {
      if Stored(m, s) {
        assert StartApart(m, s);
      }
    }
    forall s, t | Matches(next, s, VISIBLE) && Matches(next, t, VISIBLE) ensures s == t {
      assert Matches(m, s, VISIBLE) || s == Slot(op.scopeId, op.operationId);
      assert Matches(m, t, VISIBLE) || t == Slot(op.scopeId, op.operationId);
    }
  }

  // ---------------------------------------------------------------------------
  // Begins
  // ---------------------------------------------------------------------------

  /** Putting the operation's scope, then beginning it there. */
  lemma PutThenBegin(m: Model, put: Model, op: Operation)
    requires ProtocolInv(m) && Inv(put) && StoresNoMore(put, m)
    requires op.kind == Start <==> op.scopeId.sessionRunId == PENDING_RUN
    requires op.kind == Start ==> op.scopeId == PendingStartId(op.operationId) && op.visible
    requires op.visible ==> NoneVisible(m)
    ensures var next := Reduce(put, OperationBegin(op, None, false)).model;
      ProtocolInv(next) && StoresOneMore(next, m, op)
  {
    StoringNoMoreKeepsInv(put, m);
    BeginStoresOne(put, op);
    assert op.visible ==> NoneVisible(put) by {
      forall s | Matches(put, s, VISIBLE) ensures Matches(m, s, VISIBLE) {
      }
    }
    StoringOneKeepsInv(Reduce(put, OperationBegin(op, None, false)).model, put, op);
  }

  lemma StoreStartKeepsInv(r: Reduction, a: BeginArgs)
    requires ProtocolInv(r.model) && NoneVisible(r.model)
    ensures ProtocolInv(StoreStart(r, a).model)
    ensures StoresOneMore(StoreStart(r, a).model, r.model, StartOperation(a))
  {
    var scope := PendingStartScope(a.operationId);
    PutEmptyStoresNoMore(r.model, scope, true);
    PutThenBegin(r.model, Reduce(r.model, ScopeUpsert(scope, true)).model, StartOperation(a));
  }

  lemma StoreSourcedKeepsInv(r: Reduction, a: BeginArgs)
    requires ProtocolInv(r.model) && HasSource(a) && a.kind != Start
    requires a.source.value.sessionRunId != PENDING_RUN
    requires ScopeOf(a) == SelectedVisible ==> NoneVisible(r.model)
    ensures ProtocolInv(StoreSourced(r, a).model)
    ensures StoresOneMore(StoreSourced(r, a).model, r.model, SourcedOperation(a))
  {
    var input := SourceInput(a);
    if !EnsureRefused(r.model, input) {
      EnsureStoresNoMore(r.model, input);
      PutThenBegin(r.model, Ensure(r.model, input).model, SourcedOperation(a));
    }
  }

  lemma BeginRunKeepsInv(m: Model, a: BeginArgs)
    requires ProtocolInv(m) && (a.source.Some? ==> a.source.value.sessionRunId != PENDING_RUN)
    ensures ProtocolInv(BeginRun(m, a).model)
  {
    ClearingLeavesNoneVisible(m);
    if a.kind == Start {
      StoreStartKeepsInv(ClearVisible(m), a);
    } else if HasSource(a) {
      if ScopeOf(a) == SelectedVisible {
        StoreSourcedKeepsInv(ClearVisible(m), a);
      } else {
        StoreSourcedKeepsInv(Unchanged(m), a);
      }
    }
  }

  // ---------------------------------------------------------------------------
  // Start handover
  // ---------------------------------------------------------------------------

  /** The response scope is already bound to another agent run than the response reports. */
  predicate HandoverConflicts(m: Model, source: Scope, target: ScopeId, agent: Option<string>) {
    target in m.scopes &&
    AgentRunConflicts(m.scopes[target].agentRunId, Some(if Present(agent) then agent.value else source.agentRunId))
  }

  /** A real scope never stores a start, so a start cannot be settled there. */
  lemma NoStartOutsidePending(m: Model, target: ScopeId, key: string)
    requires StartsApart(m) && target.sessionRunId != PENDING_RUN && Stored(m, Slot(target, key))
    ensures At(m, Slot(target, key)).kind != Start
  {
    assert StartApart(m, Slot(target, key));
  }

  /** The scope the response names, once the start has been settled in it. */
  function StartedScope(source: Scope, op: Operation, target: ScopeId, agent: Option<string>): Scope {
    HandedOverScope(source, op, target, agent).(operationsById := map[])
  }

  lemma PendingHoldsOnlyItsStart(m: Model, s: Slot)
    requires ProtocolInv(m) && Stored(m, s) && At(m, s).kind == Start
    ensures m.scopes[s.scope].operationsById == map[s.key := At(m, s)]
    ensures At(m, s).operationId == s.key && At(m, s).scopeId == s.scope
    ensures m.scopes[s.scope].scopeId == s.scope && WellFormedScope(m.scopes[s.scope])
  {
    var scope := m.scopes[s.scope];
    assert OperationFiled(scope, s.key) && scope.scopeId == s.scope;
    assert StartApart(m, s);
    forall key | key in scope.operationsById ensures key == s.key {
      assert StartApart(m, Slot(s.scope, key));
    }
  }

  /** The first two reductions of a handover: the real scope is in, the provisional one is out. */
  lemma ScopeMoves(m: Model, from: ScopeId, scope: Scope)
    requires Inv(m) && from in m.scopes && WellFormedScope(scope) && scope.scopeId != from
    requires !UpsertConflicts(m, scope)
    ensures var selected := m.visible.selectedScopeId == Some(from);
      var put := Reduce(m, ScopeUpsert(scope, selected));
      var dropped := Reduce(put.model, ScopeDelete(from));
      && put.effects + dropped.effects == [ScopeUpdated(scope.scopeId), ScopeDeleted(from)]
      && dropped.model.scopes == (m.scopes - {from})[scope.scopeId := scope]
      && dropped.model.visible.selectedScopeId == (if selected then Some(scope.scopeId) else m.visible.selectedScopeId)
      && Inv(dropped.model)
  {
    var selected := m.visible.selectedScopeId == Some(from);
    PutShape(m, scope, selected);
    var put := Reduce(m, ScopeUpsert(scope, selected)).model;
    DropShape(put, from);
    assert put.scopes - {from} == (m.scopes - {from})[scope.scopeId := scope];
  }

  lemma PutShape(m: Model, scope: Scope, select: bool)
    requires Inv(m) && WellFormedScope(scope) && !UpsertConflicts(m, scope)
    ensures var r := Reduce(m, ScopeUpsert(scope, select));
      && r.model.scopes == m.scopes[scope.scopeId := scope] && r.effects == [ScopeUpdated(scope.scopeId)]
      && r.model.visible.selectedScopeId == (if select then Some(scope.scopeId) else m.visible.selectedScopeId)
      && Inv(r.model)
  {
    PuttingKeepsInv(m, scope);
  }

  lemma DropShape(m: Model, id: ScopeId)
    requires Inv(m) && id in m.scopes && m.visible.selectedScopeId != Some(id)
    ensures Reduce(m, ScopeDelete(id)) == Reduction(m.(scopes := m.scopes - {id}), [ScopeDeleted(id)])
    ensures Inv(Reduce(m, ScopeDelete(id)).model)
  {
    StepKeepsInv(m, ScopeDelete(id));
  }

  /** A handover that meets no conflict: the start is settled, its provisional scope is gone, the real
      scope runs and takes over the selection, and no other scope is touched. */
  lemma HandoverShape(m: Model, s: Slot, target: ScopeId, agent: Option<string>)
    requires ProtocolInv(m) && Stored(m, s) && At(m, s).kind == Start && target.sessionRunId != PENDING_RUN
    requires !HandoverConflicts(m, m.scopes[s.scope], target, agent)
    ensures var op, r := At(m, s), ConfirmStart(m, At(m, s), target, agent);
      && r.model.scopes == (m.scopes - {s.scope})[target := StartedScope(m.scopes[s.scope], op, target, agent)]
      && r.model.visible.selectedScopeId ==
           (if m.visible.selectedScopeId == Some(s.scope) then Some(target) else m.visible.selectedScopeId)
      && r.effects == [ScopeUpdated(target), ScopeDeleted(s.scope), OperationSettled(target, s.key, Start)]
      && Inv(r.model)
  {
    var op, source := At(m, s), m.scopes[s.scope];
    PendingHoldsOnlyItsStart(m, s);
    assert StartApart(m, s);
    var moved, scope := HandedOverOperation(op, target), HandedOverScope(source, op, target, agent);
    assert scope.operationsById == map[s.key := moved];
    ScopeMoves(m, s.scope, scope);
    var put := Reduce(m, ScopeUpsert(scope, m.visible.selectedScopeId == Some(s.scope)));
    var dropped := Reduce(put.model, ScopeDelete(s.scope));
    SettleHandedOver(dropped.model, target, moved);
    var last := Reduce(dropped.model, SettleEvent(moved, Success));
    assert ConfirmStart(m, op, target, agent) == Reduction(last.model, [] + put.effects + dropped.effects + last.effects);
    HandedOverEffects(put.effects, dropped.effects, last.effects, target, s);
    assert StartedScope(source, op, target, agent) == scope.(operationsById := map[]);
    MovedScopes(m.scopes, s.scope, target, scope, StartedScope(source, op, target, agent));
  }

  lemma HandedOverEffects(put: seq<Effect>, dropped: seq<Effect>, last: seq<Effect>, target: ScopeId, s: Slot)
    requires put + dropped == [ScopeUpdated(target), ScopeDeleted(s.scope)]
    requires last == [OperationSettled(target, s.key, Start)]
    ensures [] + put + dropped + last == [ScopeUpdated(target), ScopeDeleted(s.scope), OperationSettled(target, s.key, Start)]
  {
    assert [] + put + dropped == put + dropped;
  }

  lemma MovedScopes(scopes: map<ScopeId, Scope>, from: ScopeId, target: ScopeId, moved: Scope, after: Scope)
    ensures (scopes - {from})[target := moved][target := after] == (scopes - {from})[target := after]
  {
  }

  lemma SettleHandedOver(m: Model, target: ScopeId, moved: Operation)
    requires Inv(m) && target in m.scopes && m.scopes[target].operationsById == map[moved.operationId := moved]
    requires moved.scopeId == target && moved.kind == Start
    ensures var r := Reduce(m, SettleEvent(moved, Success));
      && r.model.scopes == m.scopes[target := m.scopes[target].(operationsById := map[])]
      && r.model.visible.selectedScopeId == m.visible.selectedScopeId
      && r.effects == [OperationSettled(target, moved.operationId, Start)]
      && Inv(r.model)
  {
    assert m.scopes[target].scopeId == target;
    assert WithoutOperation(m.scopes[target], moved.operationId).operationsById == map[];
    StepKeepsInv(m, SettleEvent(moved, Success));
  }

  /** The first two reductions of a refused handover: the real scope stays as it is, and the provisional
      one goes unless it is selected. */
  lemma RefusedMoves(m: Model, from: ScopeId, scope: Scope)
    requires UpsertConflicts(m, scope) && from in m.scopes
    ensures var selected := m.visible.selectedScopeId == Some(from);
      var put := Reduce(m, ScopeUpsert(scope, selected));
      var dropped := Reduce(put.model, ScopeDelete(from));
      && put.model == m && |put.effects| == 1 && put.effects[0].EventRejected?
      && dropped.model == (if selected then m else m.(scopes := m.scopes - {from}))
      && |dropped.effects| == 1 && !dropped.effects[0].OperationSettled?
  {
  }

  /** A start cannot be settled where no such start is stored. */
  lemma RefusedSettle(m: Model, target: ScopeId, moved: Operation)
    requires target in m.scopes && m.scopes[target].scopeId == target
    requires moved.scopeId == target && moved.kind == Start
    requires Stored(m, Slot(target, moved.operationId)) ==> At(m, Slot(target, moved.operationId)).kind != Start
    ensures var r := Reduce(m, SettleEvent(moved, Success));
      r.model == m && |r.effects| == 1 && r.effects[0].EventRejected?
  {
  }

  /** A handover into a scope bound elsewhere is refused: nothing is settled or stored, although the
      store reports the response as accepted. */
  lemma RefusedHandover(m: Model, s: Slot, target: ScopeId, agent: Option<string>)
    requires ProtocolInv(m) && Stored(m, s) && At(m, s).kind == Start && target.sessionRunId != PENDING_RUN
    requires HandoverConflicts(m, m.scopes[s.scope], target, agent)
    ensures var r := ConfirmStart(m, At(m, s), target, agent);
      && r.model.visible == m.visible
      && r.model.scopes == (if m.visible.selectedScopeId == Some(s.scope) then m.scopes else m.scopes - {s.scope})
      && (forall i :: 0 <= i < |r.effects| ==> !r.effects[i].OperationSettled?)
  {
    var op, source := At(m, s), m.scopes[s.scope];
    PendingHoldsOnlyItsStart(m, s);
    assert StartApart(m, s);
    var moved, scope := HandedOverOperation(op, target), HandedOverScope(source, op, target, agent);
    RefusedMoves(m, s.scope, scope);
    assert m.scopes[target].scopeId == target;
    if Stored(m, Slot(target, s.key)) {
      NoStartOutsidePending(m, target, s.key);
    }
    var dropped := if m.visible.selectedScopeId == Some(s.scope) then m else m.(scopes := m.scopes - {s.scope});
    RefusedSettle(dropped, target, moved);
    var first := Reduce(m, ScopeUpsert(scope, m.visible.selectedScopeId == Some(s.scope)));
    var second, third := Reduce(m, ScopeDelete(s.scope)), Reduce(dropped, SettleEvent(moved, Success));
    assert ConfirmStart(m, op, target, agent) == Reduction(dropped, [] + first.effects + second.effects + third.effects);
    ThreeQuiet(first.effects, second.effects, third.effects);
  }

  lemma ThreeQuiet(a: seq<Effect>, b: seq<Effect>, c: seq<Effect>)
    requires |a| == 1 && |b| == 1 && |c| == 1
    requires !a[0].OperationSettled? && !b[0].OperationSettled? && !c[0].OperationSettled?
    ensures forall i :: 0 <= i < |[] + a + b + c| ==> !([] + a + b + c)[i].OperationSettled?
  {
  }

  lemma {:induction false} NoneSettled(effects: seq<Effect>, key: string)
    requires forall i :: 0 <= i < |effects| ==> !effects[i].OperationSettled?
    ensures CountSettled(effects, key) == 0
    decreases |effects|
  {
    if effects != [] {
      NoneSettled(effects[1..], key);
    }
  }
}
