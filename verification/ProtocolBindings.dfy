// The agent runs of scopes under the protocol: no call ever stores a scope without one, and a scope
// keeps its own for as long as it lives.

module ProtocolBindings {
  import opened Wrappers
  import opened RuntimeModel
  import opened RuntimeReducer
  import opened RuntimeInvariant
  import opened RuntimeFrame
  import opened RuntimeProtocol
  import opened ProtocolInvariant
  import opened ProtocolRuns

  ghost predicate AllBound(m: Model) {
    forall id :: id in m.scopes ==> m.scopes[id].agentRunId != ""
  }

  ghost predicate KeepsScope(m: Model, next: Model, id: ScopeId)
    requires id in m.scopes
  {
    id in next.scopes && next.scopes[id].agentRunId == m.scopes[id].agentRunId
  }

  /** Every scope is bound, and those not reported deleted are bound as they were. */
  ghost predicate KeepsBindings(m: Model, r: Reduction) {
    && Inv(r.model) && AllBound(r.model)
    && forall id :: id in m.scopes && ScopeDeleted(id) !in r.effects ==> KeepsScope(m, r.model, id)
  }

  predicate PutsBound(e: Event) {
    (e.ScopeUpsert? ==> e.scope.agentRunId != "") && (e.OperationBegin? ==> e.provisional == None)
  }

  lemma EventLeavesBound(m: Model, e: Event)
    requires Inv(m) && AllBound(m) && WellFormedEvent(e) && PutsBound(e)
    ensures AllBound(Reduce(m, e).model)
  {
    if Scoped(e) {
      ScopedShape(m, e);
    } else if e.OperationBegin? {
      BeginShape(m, e.operation, None, e.selectScope);
    }
  }

  lemma EventKeepsBindings(m: Model, e: Event)
    requires Inv(m) && AllBound(m) && WellFormedEvent(e) && PutsBound(e)
    ensures KeepsBindings(m, Reduce(m, e))
  {
    StepKeepsInv(m, e);
    EventLeavesBound(m, e);
    forall id | id in m.scopes && ScopeDeleted(id) !in Reduce(m, e).effects ensures KeepsScope(m, Reduce(m, e).model, id) {
      DeletionIsReported(m, e, id);
      EventKeepsBindingIff(m, e, id);
    }
  }

  /** Reductions one after the other. */
  lemma BindingsCompose(m: Model, first: Reduction, second: Reduction)
    requires KeepsBindings(m, first) && KeepsBindings(first.model, second)
    ensures KeepsBindings(m, Reduction(second.model, first.effects + second.effects))
  {
    forall id | id in m.scopes && ScopeDeleted(id) !in first.effects + second.effects ensures KeepsScope(m, second.model, id) {
      assert KeepsScope(m, first.model, id) && KeepsScope(first.model, second.model, id);
    }
  }

  lemma ThenKeepsBindings(m: Model, r: Reduction, e: Event)
    requires KeepsBindings(m, r) && WellFormedEvent(e) && PutsBound(e)
    ensures KeepsBindings(m, Then(r, e))
  {
    EventKeepsBindings(r.model, e);
    BindingsCompose(m, r, Reduce(r.model, e));
  }

  lemma EnsureKeepsBindings(m: Model, i: EnsureInput)
    requires Inv(m) && AllBound(m)
    ensures KeepsBindings(m, Ensure(m, i))
  {
    if !EnsureRefused(m, i) {
      EnsuredIsWellFormed(m, i);
      EventKeepsBindings(m, ScopeUpsert(EnsuredScope(m, i), i.select));
    }
  }

  lemma ClearKeepsAllBindings(m: Model)
    requires ProtocolInv(m) && AllBound(m)
    ensures KeepsBindings(m, ClearVisible(m))
  {
    if UniqueMatch(m, VISIBLE) {
      var s := FindIsUnique(m, VISIBLE);
      EventKeepsBindings(m, SettleEvent(At(m, s), Failure));
    }
  }

  lemma StoringStartKeepsBindings(m: Model, r: Reduction, a: BeginArgs)
    requires KeepsBindings(m, r)
    ensures KeepsBindings(m, StoreStart(r, a))
  {
    var put := ScopeUpsert(PendingStartScope(a.operationId), true);
    ThenKeepsBindings(m, r, put);
    ThenKeepsBindings(m, Then(r, put), OperationBegin(StartOperation(a), None, false));
  }

  lemma StoringSourcedKeepsBindings(m: Model, r: Reduction, a: BeginArgs)
    requires KeepsBindings(m, r) && HasSource(a)
    ensures KeepsBindings(m, StoreSourced(r, a))
  {
    var input := SourceInput(a);
    if !EnsureRefused(r.model, input) {
      EnsuredIsWellFormed(r.model, input);
      var put := ScopeUpsert(EnsuredScope(r.model, input), input.select);
      ThenKeepsBindings(m, r, put);
      ThenKeepsBindings(m, Then(r, put), OperationBegin(SourcedOperation(a), None, false));
    }
  }

  lemma BeginKeepsBindings(m: Model, a: BeginArgs)
    requires ProtocolInv(m) && AllBound(m)
    ensures KeepsBindings(m, BeginRun(m, a))
  {
    ClearKeepsAllBindings(m);
    StoringStartKeepsBindings(m, ClearVisible(m), a);
    if HasSource(a) {
      StoringSourcedKeepsBindings(m, ClearVisible(m), a);
      StoringSourcedKeepsBindings(m, Unchanged(m), a);
    }
  }

  lemma HandedOverIsFiled(m: Model, s: Slot, target: ScopeId, agent: Option<string>)
    requires ProtocolInv(m) && Stored(m, s) && At(m, s).kind == Start
    ensures WellFormedScope(HandedOverScope(m.scopes[s.scope], At(m, s), target, agent))
  {
    PendingHoldsOnlyItsStart(m, s);
    assert OperationFiled(m.scopes[s.scope], s.key);
  }

  lemma ConfirmKeepsBindings(m: Model, s: Slot, target: ScopeId, agent: Option<string>)
    requires ProtocolInv(m) && AllBound(m) && Stored(m, s) && At(m, s).kind == Start
    ensures KeepsBindings(m, ConfirmStart(m, At(m, s), target, agent))
  {
    var op, source := At(m, s), m.scopes[s.scope];
    assert OperationFiled(source, s.key) && source.scopeId == s.scope;
    HandedOverIsFiled(m, s, target, agent);
    var put := Then(Unchanged(m), ScopeUpsert(HandedOverScope(source, op, target, agent), m.visible.selectedScopeId == Some(s.scope)));
    ThenKeepsBindings(m, Unchanged(m), ScopeUpsert(HandedOverScope(source, op, target, agent), m.visible.selectedScopeId == Some(s.scope)));
    ThenKeepsBindings(m, put, ScopeDelete(s.scope));
    var dropped := if s.scope != target then Then(put, ScopeDelete(s.scope)) else put;
    ThenKeepsBindings(m, dropped, SettleEvent(HandedOverOperation(op, target), Success));
  }

  lemma OutcomeKeepsBindings(m: Model, s: Slot, target: ScopeId, agent: Option<string>, r: Reduction)
    requires ProtocolInv(m) && AllBound(m) && ResponseOutcome(m, s, target, agent, r)
    ensures KeepsBindings(m, r)
  {
    if r == Unchanged(m) {
    } else if r == SettleAs(m, At(m, s), true) {
      EventKeepsBindings(m, SettleEvent(At(m, s), Success));
    } else if r == SettleAs(m, At(m, s), false) {
      EventKeepsBindings(m, SettleEvent(At(m, s), Failure));
    } else {
      ConfirmKeepsBindings(m, s, target, agent);
    }
  }

  lemma ResponseKeepsBindings(m: Model, selected: Option<SelectedIdentity>, revision: int, c: Call)
    requires ProtocolInv(m) && AllBound(m) && IsResponse(c) && ProtocolCall(c)
    ensures KeepsBindings(m, ExecResponse(m, selected, revision, c).reduction)
  {
    var s, target, agent := ResponseHasOutcome(m, selected, revision, c);
    OutcomeKeepsBindings(m, s, target, agent, ExecResponse(m, selected, revision, c).reduction);
  }

  /** One call: every scope stored is bound, and none is rebound without having been deleted. */
  lemma CallKeepsBindings(m: Model, selected: Option<SelectedIdentity>, revision: int, c: Call)
    requires ProtocolInv(m) && AllBound(m) && ProtocolCall(c)
    ensures KeepsBindings(m, Exec(m, selected, revision, c).reduction)
  {
    if IsResponse(c) {
      ResponseKeepsBindings(m, selected, revision, c);
    } else {
      match c
      case BeginOperation(args) => BeginKeepsBindings(m, args);
      case EnsureScope(input) => EnsureKeepsBindings(m, input);
      case Restore(input) => EnsureKeepsBindings(m, input.(select := true));
      case AdvanceCursor(id, cursor, status) =>
        if id in m.scopes {
          assert m.scopes[id].scopeId == id;
          SameOperationsStayFiled(m.scopes[id], CursorScope(m.scopes[id], cursor, status));
          EventKeepsBindings(m, ScopeUpsert(CursorScope(m.scopes[id], cursor, status), false));
        }
      case Deliver(event) => EventKeepsBindings(m, event);
    }
  }

  /** Over every run of calls, too: whatever is not reported deleted keeps its agent run. */
  lemma {:induction false} RunsKeepBindings(m: Model, steps: seq<Step>)
    requires ProtocolInv(m) && AllBound(m) && ProtocolSteps(steps)
    ensures KeepsBindings(m, ExecAll(m, steps))
    decreases |steps|
  {
    if steps != [] {
      assert ProtocolCall(steps[0].call);
      var first := Exec(m, steps[0].selected, steps[0].revision, steps[0].call).reduction;
      CallKeepsInv(m, steps[0].selected, steps[0].revision, steps[0].call);
      CallKeepsBindings(m, steps[0].selected, steps[0].revision, steps[0].call);
      RunsKeepBindings(first.model, steps[1..]);
      BindingsCompose(m, first, ExecAll(first.model, steps[1..]));
    }
  }

  /** From an empty store: every scope ever stored has an agent run, and from any point of a run on, a
      scope that is not reported deleted keeps the one it has there. */
  lemma ProtocolNeverRebinds(before: seq<Step>, after: seq<Step>, id: ScopeId)
    requires ProtocolSteps(before) && ProtocolSteps(after)
    ensures var m := ExecAll(EMPTY_MODEL, before).model;
      && AllBound(m)
      && (id in m.scopes && ScopeDeleted(id) !in ExecAll(m, after).effects ==> KeepsScope(m, ExecAll(m, after).model, id))
  {
    RunsKeepInv(EMPTY_MODEL, before);
    RunsKeepBindings(EMPTY_MODEL, before);
    RunsKeepBindings(ExecAll(EMPTY_MODEL, before).model, after);
  }
}
