// The session-runtime store as the object it is: a model field reassigned by every reduction,
// searches that loop over scopes and operations, and the coordinator that begins operations on it.

module SessionRuntimeStore {
  import opened Wrappers
  import opened RuntimeModel
  import Reducer = RuntimeReducer
  import opened RuntimeProtocol
  import opened ProtocolInvariant
  import opened ProtocolRuns
  import opened ProtocolAnswers
  import opened ProtocolLaws

  /** A complete search without repetition finds one operation exactly when there is one. */
  lemma SearchDecides(m: Model, c: Criteria, slots: seq<Slot>)
    requires forall i :: 0 <= i < |slots| ==> Matches(m, slots[i], c)
    requires forall i, j :: 0 <= i < j < |slots| ==> slots[i] != slots[j]
    requires forall s :: Matches(m, s, c) ==> s in slots
    ensures |slots| == 1 ==> Matches(m, slots[0], c) && Find(m, c) == Some(At(m, slots[0]))
    ensures |slots| != 1 ==> Find(m, c) == None
  {
    if |slots| == 1 {
      assert forall t :: Matches(m, t, c) ==> t == slots[0];
      OnlyMatchIsUnique(m, slots[0], c);
      var s := FindIsUnique(m, c);
    } else if |slots| > 1 {
      assert slots[0] != slots[1] && Matches(m, slots[0], c) && Matches(m, slots[1], c);
      assert !UniqueMatch(m, c);
    } else {
      assert !UniqueMatch(m, c);
    }
  }

  lemma OneVisibleInSearch(m: Model, slots: seq<Slot>)
    requires AtMostOneVisible(m)
    requires forall i :: 0 <= i < |slots| ==> Matches(m, slots[i], VISIBLE)
    ensures |slots| > 1 ==> slots[0] == slots[1]
  {
  }

  class Store {
    var model: Model
    ghost var log: seq<Effect>  // every effect ever produced

    /** A store as its public calls leave it. */
    ghost predicate Valid()
      reads this
    {
      ProtocolInv(model) && PendingBound(model)
    }

    constructor (initial: Option<Model>)
      ensures model == initial.GetOr(EMPTY_MODEL) && log == []
      ensures initial.None? || (ProtocolInv(initial.value) && PendingBound(initial.value)) ==> Valid()
    {
      model, log := initial.GetOr(EMPTY_MODEL), [];
    }

    method Reduce(e: Event) returns (effects: seq<Effect>)
      modifies this
      ensures model == Reducer.Reduce(old(model), e).model
      ensures effects == Reducer.Reduce(old(model), e).effects
      ensures log == old(log) + effects
    {
      var r := Reducer.Reduce(model, e);
      model := r.model;
      effects := r.effects;
      log := log + effects;
    }

    /** A further reduction, in a call that has produced `r` so far and began with the effects in `start`. */
    method ReduceAfter(ghost r: Reduction, ghost start: seq<Effect>, e: Event)
      requires model == r.model && log == start + r.effects
      modifies this
      ensures model == Then(r, e).model && log == start + Then(r, e).effects
    {
      var effects := Reduce(e);
      EffectsJoin(start, r.effects, effects);
    }

    /** Selecting an unknown branch is silent here, where the reducer would report a rejection. */
    method SelectBranch(target: Target) returns (effects: seq<Effect>)
      modifies this
      ensures model == Reducer.Select(old(model), target).model
      ensures Reducer.IsRejection(Reducer.Select(old(model), target)) <==> effects == []
      ensures effects != [] ==> effects == [ProjectionUpdated(model.visible)]
      ensures log == old(log) + effects
    {
      match Reducer.ResolveScope(model, target)
      case None => effects := [];
      case Some(id) =>
        model := model.(visible := Reducer.ProjectionFor(model, model.scopes[id]));
        effects := [ProjectionUpdated(model.visible)];
        log := log + effects;
    }

    // -------------------------------------------------------------------------
    // Searches
    // -------------------------------------------------------------------------

    /** Every stored operation that meets the criteria, each slot once, whatever the iteration order. */
    method FindOperations(c: Criteria) returns (operations: seq<Operation>, ghost slots: seq<Slot>)
      ensures |slots| == |operations|
      ensures forall i :: 0 <= i < |slots| ==> Matches(model, slots[i], c) && operations[i] == At(model, slots[i])
      ensures forall i, j :: 0 <= i < j < |slots| ==> slots[i] != slots[j]
      ensures forall s :: Matches(model, s, c) ==> s in slots
    {
      operations, slots := [], [];
      var scopes := model.scopes.Keys;
      while scopes != {}
        invariant scopes <= model.scopes.Keys
        invariant |slots| == |operations|
        invariant forall i :: 0 <= i < |slots| ==>
          Matches(model, slots[i], c) && operations[i] == At(model, slots[i]) && slots[i].scope !in scopes
        invariant forall i, j :: 0 <= i < j < |slots| ==> slots[i] != slots[j]
        invariant forall s :: Matches(model, s, c) ==> s.scope in scopes || s in slots
        decreases scopes
      {
        var id :| id in scopes;
        scopes := scopes - {id};
        var keys := model.scopes[id].operationsById.Keys;
        while keys != {}
          invariant keys <= model.scopes[id].operationsById.Keys
          invariant |slots| == |operations|
          invariant forall i :: 0 <= i < |slots| ==>
            Matches(model, slots[i], c) && operations[i] == At(model, slots[i]) && slots[i].scope !in scopes
            && (slots[i].scope == id ==> slots[i].key !in keys)
          invariant forall i, j :: 0 <= i < j < |slots| ==> slots[i] != slots[j]
          invariant forall s :: Matches(model, s, c) ==>
            s.scope in scopes || (s.scope == id && s.key in keys) || s in slots
          decreases keys
        {
          var key :| key in keys;
          keys := keys - {key};
          var operation := model.scopes[id].operationsById[key];
          if Meets(operation, c) {
            operations, slots := operations + [operation], slots + [Slot(id, key)];
          }
        }
      }
    }

    /** The one operation that meets the criteria; nothing when none or several do. */
    method FindOperation(c: Criteria) returns (operation: Option<Operation>)
      ensures operation == Find(model, c)
    {
      var operations, slots := FindOperations(c);
      SearchDecides(model, c, slots);
      operation := if |operations| == 1 then Some(operations[0]) else None;
    }

    /** The visible operation, exactly when there is one. */
    method CurrentOperation() returns (operation: Option<Operation>)
      requires Valid()
      ensures operation.Some? <==> exists s :: Matches(model, s, VISIBLE)
      ensures forall s :: Matches(model, s, VISIBLE) ==> operation == Some(At(model, s))
    {
      operation := FindOperation(VISIBLE);
      forall s | Matches(model, s, VISIBLE) ensures operation == Some(At(model, s)) {
        VisibleIsFound(model, s);
      }
      if operation.Some? {
        ghost var s := FindIsUnique(model, VISIBLE);
      }
    }

    // -------------------------------------------------------------------------
    // Scopes
    // -------------------------------------------------------------------------

    method EnsureBranchRuntimeScope(input: EnsureInput) returns (ensured: bool)
      requires Valid() && input.sessionRunId != PENDING_RUN
      modifies this
      ensures Valid()
      ensures model == Ensure(old(model), input).model && ensured == !EnsureRefused(old(model), input)
      ensures log == old(log) + Ensure(old(model), input).effects
      ensures var id := ScopeId(input.sessionRunId, input.branchBindingId);
        ensured && id in old(model).scopes ==>
          var was := old(model).scopes[id];
          var status := if input.status.Some? then input.status.value else was.status;
          model.scopes == old(model).scopes[id := was.(
            agentRunId := if was.agentRunId != "" then was.agentRunId else input.agentRunId.GetOr(""),
            activeActivationId := if Present(input.activeActivationId) then input.activeActivationId
                                  else if Present(was.activeActivationId) then was.activeActivationId else None,
            runtimeRevision := if input.runtimeRevision.Some? then input.runtimeRevision.value else was.runtimeRevision,
            status := status,
            streamCursor := if input.streamCursor.Some? then input.streamCursor else was.streamCursor,
            stats := Some(Stats(Some(status), if was.stats.Some? then was.stats.value.fields else map[])))]
    {
      if !EnsureRefused(model, input) && ScopeId(input.sessionRunId, input.branchBindingId) in model.scopes {
        EnsureKeepsStored(model, input);
      }
      CallKeepsInv(model, None, 0, EnsureScope(input));
      CallKeepsPendingBound(model, None, 0, EnsureScope(input));
      if EnsureRefused(model, input) {
        return false;
      }
      var _ := Reduce(ScopeUpsert(EnsuredScope(model, input), input.select));
      ensured := true;
    }

    method RestoreBootstrapScopeIfUnclaimed(input: EnsureInput) returns (restored: bool)
      requires Valid() && input.sessionRunId != PENDING_RUN
      modifies this
      ensures Valid()
      ensures var (r, ok) := RestoreBootstrap(old(model), input);
        model == r.model && log == old(log) + r.effects && restored == ok
    {
      if SelectedScopeMatches(model, input.sessionRunId, input.branchBindingId, input.agentRunId) {
        return true;
      }
      if BootstrapClaimed(model, input) {
        return false;
      }
      restored := EnsureBranchRuntimeScope(input.(select := true));
    }

    method RecordStreamCursor(id: ScopeId, cursor: int, status: Option<Status>)
      requires Valid()
      modifies this
      ensures Valid()
      ensures model == RecordCursor(old(model), id, cursor, status).model
      ensures log == old(log) + RecordCursor(old(model), id, cursor, status).effects
    {
      CallKeepsInv(model, None, 0, AdvanceCursor(id, cursor, status));
      CallKeepsPendingBound(model, None, 0, AdvanceCursor(id, cursor, status));
      if id in model.scopes {
        var _ := Reduce(ScopeUpsert(CursorScope(model.scopes[id], cursor, status), false));
      }
    }

    // -------------------------------------------------------------------------
    // Settling
    // -------------------------------------------------------------------------

    method SettleOperation(operation: Operation, outcome: Outcome)
      modifies this
      ensures model == Reducer.Reduce(old(model), SettleEvent(operation, outcome)).model
      ensures log == old(log) + Reducer.Reduce(old(model), SettleEvent(operation, outcome)).effects
    {
      var _ := Reduce(SettleEvent(operation, outcome));
    }

    method ClearVisibleOperations()
      requires Valid()
      modifies this
      ensures model == ClearVisible(old(model)).model
      ensures log == old(log) + ClearVisible(old(model)).effects
    {
      var operations, slots := FindOperations(VISIBLE);
      SearchDecides(model, VISIBLE, slots);
      OneVisibleInSearch(model, slots);
      for i := 0 to |operations|
        invariant i == 0 ==> model == old(model) && log == old(log)
        invariant i == 1 ==> model == ClearVisible(old(model)).model
        invariant i == 1 ==> log == old(log) + ClearVisible(old(model)).effects
      {
        SettleOperation(operations[i], Failure);
      }
    }

    method ConfirmStartOperation(operation: Operation, target: ScopeId, agent: Option<string>)
      modifies this
      ensures model == ConfirmStart(old(model), operation, target, agent).model
      ensures log == old(log) + ConfirmStart(old(model), operation, target, agent).effects
    {
      if operation.scopeId !in model.scopes {
        SettleOperation(operation, Success);
        return;
      }
      var source := model.scopes[operation.scopeId];
      var wasVisible := model.visible.selectedScopeId == Some(source.scopeId);
      ghost var start, r := log, Unchanged(model);
      ReduceAfter(r, start, ScopeUpsert(HandedOverScope(source, operation, target, agent), wasVisible));
      r := Then(r, ScopeUpsert(HandedOverScope(source, operation, target, agent), wasVisible));
      if source.scopeId != target {
        ReduceAfter(r, start, ScopeDelete(source.scopeId));
        r := Then(r, ScopeDelete(source.scopeId));
      }
      ReduceAfter(r, start, SettleEvent(HandedOverOperation(operation, target), Success));
    }

    // -------------------------------------------------------------------------
    // Responses
    // -------------------------------------------------------------------------

    method AcceptsStartSuccess(operationId: string, selected: Option<SelectedIdentity>, revision: int, response: Response)
      returns (accepted: bool)
      requires Valid() && response.sessionRunId != Some(PENDING_RUN)
      modifies this
      ensures Valid()
      ensures var reply := Exec(old(model), selected, revision, AcceptStart(operationId, response));
        accepted == reply.accepted && model == reply.reduction.model && log == old(log) + reply.reduction.effects
    {
      CallKeepsInv(model, selected, revision, AcceptStart(operationId, response));
      CallKeepsPendingBound(model, selected, revision, AcceptStart(operationId, response));
      var found := FindOperation(OneVisible(operationId, Start));
      if found.None? {
        return false;
      }
      accepted := StartStillCurrent(selected, revision, found.value);
      if accepted && Present(response.sessionRunId) && Present(response.branchBindingId) {
        ConfirmStartOperation(found.value, ScopeId(response.sessionRunId.value, response.branchBindingId.value),
                              response.agentRunId);
      } else {
        SettleOperation(found.value, if accepted then Success else Failure);
      }
    }

    method AcceptsBranchCreateSuccess(operationId: string, selected: Option<SelectedIdentity>, revision: int, branch: string)
      returns (accepted: bool)
      requires Valid()
      modifies this
      ensures Valid()
      ensures var reply := Exec(old(model), selected, revision, AcceptBranchCreate(operationId, branch));
        accepted == reply.accepted && model == reply.reduction.model && log == old(log) + reply.reduction.effects
    {
      CallKeepsInv(model, selected, revision, AcceptBranchCreate(operationId, branch));
      CallKeepsPendingBound(model, selected, revision, AcceptBranchCreate(operationId, branch));
      var found := FindOperation(OneVisible(operationId, BranchCreate));
      if found.None? {
        return false;
      }
      accepted := SourceStillCurrent(selected, revision, found.value)
        && found.value.targetBranchBindingId == Some(branch);
      SettleOperation(found.value, if accepted then Success else Failure);
    }

    method BranchSelectSuccessStillCurrent(operationId: string, selected: Option<SelectedIdentity>, revision: int, branch: string)
      returns (current: bool)
      ensures current == Exec(model, selected, revision, CheckBranchSelect(operationId, branch)).accepted
    {
      var found := FindOperation(OneVisible(operationId, OperationKind.BranchSelect));
      current := found.Some? && SourceStillCurrent(selected, revision, found.value)
        && found.value.targetBranchBindingId == Some(branch);
    }

    method SettleBranchSelectSuccess(operationId: string) returns (settled: bool)
      requires Valid()
      modifies this
      ensures Valid()
      ensures var reply := Exec(old(model), None, 0, SettleBranchSelect(operationId));
        settled == reply.accepted && model == reply.reduction.model && log == old(log) + reply.reduction.effects
    {
      CallKeepsInv(model, None, 0, SettleBranchSelect(operationId));
      CallKeepsPendingBound(model, None, 0, SettleBranchSelect(operationId));
      var found := FindOperation(OneVisible(operationId, OperationKind.BranchSelect));
      settled := found.Some?;
      if settled {
        SettleOperation(found.value, Success);
      }
    }

    method RejectVisibleOperation(operationId: string, kind: OperationKind) returns (settled: bool)
      requires Valid()
      modifies this
      ensures Valid()
      ensures var reply := Exec(old(model), None, 0, RejectVisible(operationId, kind));
        settled == reply.accepted && model == reply.reduction.model && log == old(log) + reply.reduction.effects
    {
      CallKeepsInv(model, None, 0, RejectVisible(operationId, kind));
      CallKeepsPendingBound(model, None, 0, RejectVisible(operationId, kind));
      var found := FindOperation(OneVisible(operationId, kind));
      settled := found.Some?;
      if settled {
        SettleOperation(found.value, Failure);
      }
    }

    method AcceptsControlSuccess(operationId: string, kind: OperationKind, selected: Option<SelectedIdentity>, revision: int,
                                 response: Response)
      returns (accepted: bool)
      requires Valid()
      modifies this
      ensures Valid()
      ensures var reply := Exec(old(model), selected, revision, AcceptControl(operationId, kind, response));
        accepted == reply.accepted && model == reply.reduction.model && log == old(log) + reply.reduction.effects
      ensures accepted <==>
        exists s :: Holds(old(model), s, operationId, kind, true)
                    && FromSelected(old(model).scopes[s.scope].operationsById[s.key], selected, revision)
                    && Answers(response, old(model).scopes[s.scope].operationsById[s.key])
    {
      ControlAnswer(model, selected, revision, operationId, kind, response);
      CallKeepsInv(model, selected, revision, AcceptControl(operationId, kind, response));
      CallKeepsPendingBound(model, selected, revision, AcceptControl(operationId, kind, response));
      var found := FindOperation(OneVisible(operationId, kind));
      if found.None? {
        return false;
      }
      accepted := SourceStillCurrent(selected, revision, found.value) && ResponseMatches(response, found.value);
      SettleOperation(found.value, if accepted then Success else Failure);
    }

    method SettleBranchLocalSuccess(operationId: string, kind: OperationKind, response: Response) returns (accepted: bool)
      requires Valid()
      modifies this
      ensures Valid()
      ensures var reply := Exec(old(model), None, 0, SettleLocalSuccess(operationId, kind, response));
        accepted == reply.accepted && model == reply.reduction.model && log == old(log) + reply.reduction.effects
    {
      CallKeepsInv(model, None, 0, SettleLocalSuccess(operationId, kind, response));
      CallKeepsPendingBound(model, None, 0, SettleLocalSuccess(operationId, kind, response));
      var found := FindOperation(OneLocal(operationId, kind));
      if found.None? {
        return false;
      }
      accepted := ResponseMatches(response, found.value);
      SettleOperation(found.value, if accepted then Success else Failure);
    }

    method SettleBranchLocalFailure(operationId: string, kind: OperationKind) returns (settled: bool)
      requires Valid()
      modifies this
      ensures Valid()
      ensures var reply := Exec(old(model), None, 0, SettleLocalFailure(operationId, kind));
        settled == reply.accepted && model == reply.reduction.model && log == old(log) + reply.reduction.effects
    {
      CallKeepsInv(model, None, 0, SettleLocalFailure(operationId, kind));
      CallKeepsPendingBound(model, None, 0, SettleLocalFailure(operationId, kind));
      var found := FindOperation(OneLocal(operationId, kind));
      settled := found.Some?;
      if settled {
        SettleOperation(found.value, Failure);
      }
    }

    method AcceptsFailure(operationId: string, kind: OperationKind, selected: Option<SelectedIdentity>, revision: int)
      returns (accepted: bool)
      requires Valid()
      modifies this
      ensures Valid()
      ensures var reply := Exec(old(model), selected, revision, AcceptFailure(operationId, kind));
        accepted == reply.accepted && model == reply.reduction.model && log == old(log) + reply.reduction.effects
    {
      CallKeepsInv(model, selected, revision, AcceptFailure(operationId, kind));
      CallKeepsPendingBound(model, selected, revision, AcceptFailure(operationId, kind));
      var found := FindOperation(OneVisible(operationId, kind));
      if found.None? {
        return false;
      }
      accepted := StillCurrentForFailure(selected, revision, found.value);
      if accepted {
        SettleOperation(found.value, Failure);
      }
    }
  }

  // ---------------------------------------------------------------------------
  // The operation coordinator
  // ---------------------------------------------------------------------------

  /** The scope the operation will live in is put first, then the operation is begun there. */
  method StoreStartOperation(store: Store, a: BeginArgs, ghost r: Reduction, ghost start: seq<Effect>)
    requires store.model == r.model && store.log == start + r.effects
    modifies store
    ensures store.model == StoreStart(r, a).model
    ensures store.log == start + StoreStart(r, a).effects
  {
    var scope := PendingStartScope(a.operationId);
    store.ReduceAfter(r, start, ScopeUpsert(scope, true));
    store.ReduceAfter(Then(r, ScopeUpsert(scope, true)), start, OperationBegin(StartOperation(a), None, false));
  }

  method StoreSourcedOperation(store: Store, a: BeginArgs, ghost r: Reduction, ghost start: seq<Effect>)
    requires HasSource(a) && store.model == r.model && store.log == start + r.effects
    modifies store
    ensures store.model == StoreSourced(r, a).model
    ensures store.log == start + StoreSourced(r, a).effects
  {
    var input := SourceInput(a);
    if EnsureRefused(store.model, input) {
      return;
    }
    var scope := EnsuredScope(store.model, input);
    store.ReduceAfter(r, start, ScopeUpsert(scope, input.select));
    store.ReduceAfter(Then(r, ScopeUpsert(scope, input.select)), start, OperationBegin(SourcedOperation(a), None, false));
  }

  /** A visible operation replaces the visible one; a branch-local operation leaves it alone. */
  method BeginSessionRunOperation(store: Store, a: BeginArgs)
    requires store.Valid() && (a.source.Some? ==> a.source.value.sessionRunId != PENDING_RUN)
    modifies store
    ensures store.Valid()
    ensures store.model == BeginRun(old(store.model), a).model
    ensures store.log == old(store.log) + BeginRun(old(store.model), a).effects
  {
    BeginRunKeepsInv(store.model, a);
    BeginKeepsPendingBound(store.model, a);
    ghost var m, start := store.model, store.log;
    if a.kind == Start {
      store.ClearVisibleOperations();
      StoreStartOperation(store, a, ClearVisible(m), start);
    } else if !HasSource(a) {
      if ScopeOf(a) == SelectedVisible {
        store.ClearVisibleOperations();
      }
    } else if ScopeOf(a) == SelectedVisible {
      store.ClearVisibleOperations();
      StoreSourcedOperation(store, a, ClearVisible(m), start);
    } else {
      StoreSourcedOperation(store, a, Unchanged(m), start);
    }
  }
}
