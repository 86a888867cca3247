// Whole runs of store and coordinator calls: the invariants hold throughout, every begin is
// settled at most once, and a start is handed over exactly when its response scope is free.

module ProtocolRuns {
  import opened Wrappers
  import opened RuntimeModel
  import opened RuntimeReducer
  import opened RuntimeInvariant
  import opened RuntimeFrame
  import opened RuntimeProtocol
  import opened ProtocolInvariant

  // ---------------------------------------------------------------------------
  // Every call keeps the protocol invariant
  // ---------------------------------------------------------------------------

  lemma FreeingKeepsInv(next: Model, m: Model, freed: ScopeId, target: ScopeId, scope: Scope)
    requires ProtocolInv(m) && Inv(next) && scope.operationsById == map[]
    requires next.scopes == (m.scopes - {freed})[target := scope]
    ensures ProtocolInv(next)
  {
    assert StoresNoMore(next, m);
    StoringNoMoreKeepsInv(next, m);
  }

  lemma ConfirmKeepsInv(m: Model, s: Slot, target: ScopeId, agent: Option<string>)
    requires ProtocolInv(m) && Stored(m, s) && At(m, s).kind == Start && target.sessionRunId != PENDING_RUN
    ensures ProtocolInv(ConfirmStart(m, At(m, s), target, agent).model)
  {
    var op, source := At(m, s), m.scopes[s.scope];
    var next := ConfirmStart(m, op, target, agent).model;
    if HandoverConflicts(m, source, target, agent) {
      RefusedHandover(m, s, target, agent);
      assert StoresNoMore(next, m);
      StoringNoMoreKeepsInv(next, m);
    } else {
      HandoverShape(m, s, target, agent);
      FreeingKeepsInv(next, m, s.scope, target, StartedScope(source, op, target, agent));
    }
  }

  lemma SettleAsKeepsInv(m: Model, s: Slot, accepted: bool)
    requires ProtocolInv(m) && Stored(m, s)
    ensures ProtocolInv(SettleAs(m, At(m, s), accepted).model)
  {
    SettleStored(m, s, if accepted then Success else Failure);
    StoringNoMoreKeepsInv(SettleAs(m, At(m, s), accepted).model, m);
  }

  lemma OutcomeKeepsInv(m: Model, s: Slot, target: ScopeId, agent: Option<string>, r: Reduction)
    requires ProtocolInv(m) && ResponseOutcome(m, s, target, agent, r)
    ensures ProtocolInv(r.model)
  {
    if r == Unchanged(m) {
    } else if r == SettleAs(m, At(m, s), true) {
      SettleAsKeepsInv(m, s, true);
    } else if r == SettleAs(m, At(m, s), false) {
      SettleAsKeepsInv(m, s, false);
    } else {
      ConfirmKeepsInv(m, s, target, agent);
    }
  }

  lemma ResponseKeepsInv(m: Model, selected: Option<SelectedIdentity>, revision: int, c: Call)
    requires ProtocolInv(m) && IsResponse(c) && ProtocolCall(c)
    ensures ProtocolInv(ExecResponse(m, selected, revision, c).reduction.model)
  {
    var s, target, agent := ResponseHasOutcome(m, selected, revision, c);
    OutcomeKeepsInv(m, s, target, agent, ExecResponse(m, selected, revision, c).reduction);
  }

  lemma DeliveryKeepsInv(m: Model, e: Event)
    requires ProtocolInv(m) && (Scoped(e) || e.SelectBranch? || e.ScopeDelete?)
    ensures ProtocolInv(Reduce(m, e).model) && StoresNoMore(Reduce(m, e).model, m)
  {
    StepKeepsInv(m, e);
    if e.OperationSettle? {
      var named := ResolveScope(m, e.target);
      if named.Some? && !IsRejection(Reduce(m, e)) {
        var scope := m.scopes[named.value];
        SettleStoresNoMore(m, scope, scope.operationsById[e.operationId], e.outcome);
      }
    } else if Scoped(e) {
      PatchStoresNoMore(m, e);
    }
    StoringNoMoreKeepsInv(Reduce(m, e).model, m);
  }

  /** One call: the model stays coherent, with at most one visible operation. */
  lemma CallKeepsInv(m: Model, selected: Option<SelectedIdentity>, revision: int, c: Call)
    requires ProtocolInv(m) && ProtocolCall(c)
    ensures ProtocolInv(Exec(m, selected, revision, c).reduction.model)
  {
    if IsResponse(c) {
      ResponseKeepsInv(m, selected, revision, c);
    } else {
      match c
      case BeginOperation(args) => BeginRunKeepsInv(m, args);
      case EnsureScope(input) =>
        EnsureStoresNoMore(m, input);
        StoringNoMoreKeepsInv(Ensure(m, input).model, m);
      case Restore(input) =>
        EnsureStoresNoMore(m, input.(select := true));
        StoringNoMoreKeepsInv(Ensure(m, input.(select := true)).model, m);
      case AdvanceCursor(id, cursor, status) =>
        CursorStoresNoMore(m, id, cursor, status);
        StoringNoMoreKeepsInv(RecordCursor(m, id, cursor, status).model, m);
      case Deliver(event) => DeliveryKeepsInv(m, event);
    }
  }

  // ---------------------------------------------------------------------------
  // Settlements are bounded by begins
  // ---------------------------------------------------------------------------

  /** The scopes that hold an operation of this id. */
  function Copies(m: Model, key: string): set<ScopeId> {
    set id | id in m.scopes && key in m.scopes[id].operationsById
  }

  lemma {:induction false} SubsetIsSmaller<T>(a: set<T>, b: set<T>)
    requires a <= b
    ensures |a| <= |b|
    decreases |a|
  {
    if a != {} {
      var x :| x in a;
      SubsetIsSmaller(a - {x}, b - {x});
    }
  }

  lemma {:induction false} CountConcat(a: seq<Effect>, b: seq<Effect>, key: string)
    ensures CountSettled(a + b, key) == CountSettled(a, key) + CountSettled(b, key)
    decreases |a|
  {
    if a == [] {
      assert a + b == b;
    } else {
      assert (a + b)[0] == a[0] && (a + b)[1..] == a[1..] + b;
      CountConcat(a[1..], b, key);
    }
  }

  /** What a transition settles plus what it leaves stored was stored before, up to `begun` begins. */
  ghost predicate Accounts(m: Model, r: Reduction, key: string, begun: nat) {
    CountSettled(r.effects, key) + |Copies(r.model, key)| <= |Copies(m, key)| + begun
  }

  lemma QuietAccounts(m: Model, r: Reduction, key: string)
    requires StoresNoMore(r.model, m) && forall i :: 0 <= i < |r.effects| ==> !r.effects[i].OperationSettled?
    ensures Accounts(m, r, key, 0)
  {
    NoneSettled(r.effects, key);
    forall id | id in Copies(r.model, key) ensures id in Copies(m, key) {
      assert Stored(r.model, Slot(id, key));
    }
    SubsetIsSmaller(Copies(r.model, key), Copies(m, key));
  }

  /** A settlement pays for itself: the one slot it reports is the one it empties. */
  lemma SettlementAccounts(m: Model, s: Slot, r: Reduction, key: string)
    requires Stored(m, s) && StoresNoMore(r.model, m) && !Stored(r.model, s)
    requires r.effects != [] && r.effects[0].OperationSettled? && r.effects[0].operationId == s.key
    requires forall i :: 0 < i < |r.effects| ==> !r.effects[i].OperationSettled?
    ensures Accounts(m, r, key, 0)
  {
    NoneSettled(r.effects[1..], key);
    forall id | id in Copies(r.model, key) ensures id in Copies(m, key) && Slot(id, key) != s {
      assert Stored(r.model, Slot(id, key));
    }
    if key == s.key {
      SubsetIsSmaller(Copies(r.model, key), Copies(m, key) - {s.scope});
    } else {
      SubsetIsSmaller(Copies(r.model, key), Copies(m, key));
    }
  }

  lemma SettleAccounts(m: Model, s: Slot, outcome: Outcome, key: string)
    requires Inv(m) && Stored(m, s)
    ensures Accounts(m, Reduce(m, SettleEvent(At(m, s), outcome)), key, 0)
  {
    SettleStored(m, s, outcome);
    SettlementAccounts(m, s, Reduce(m, SettleEvent(At(m, s), outcome)), key);
  }

  lemma SettlingDeliveryAccounts(m: Model, e: Event, id: ScopeId, key: string)
    requires ProtocolInv(m) && e.OperationSettle? && ResolveScope(m, e.target) == Some(id) && !IsRejection(Reduce(m, e))
    ensures Accounts(m, Reduce(m, e), key, 0)
  {
    var scope := m.scopes[id];
    assert scope.scopeId == id;
    assert Reduce(m, e) == Settle(m, scope, e.operationId, e.operationKind, e.outcome);
    SettleStoresNoMore(m, scope, scope.operationsById[e.operationId], e.outcome);
    SettlementAccounts(m, Slot(id, e.operationId), Reduce(m, e), key);
  }

  lemma DeliveryIsQuiet(m: Model, e: Event)
    requires Inv(m) && (Scoped(e) || e.SelectBranch? || e.ScopeDelete?)
    requires e.OperationSettle? ==> IsRejection(Reduce(m, e))
    ensures var effects := Reduce(m, e).effects;
      forall i :: 0 <= i < |effects| ==> !effects[i].OperationSettled?
  {
  }

  lemma DeliveryAccounts(m: Model, e: Event, key: string)
    requires ProtocolInv(m) && (Scoped(e) || e.SelectBranch? || e.ScopeDelete?)
    ensures Accounts(m, Reduce(m, e), key, 0)
  {
    if e.OperationSettle? && !IsRejection(Reduce(m, e)) {
      SettlingDeliveryAccounts(m, e, ResolveScope(m, e.target).value, key);
    } else {
      DeliveryKeepsInv(m, e);
      DeliveryIsQuiet(m, e);
      QuietAccounts(m, Reduce(m, e), key);
    }
  }

  lemma RefusalAccounts(m: Model, s: Slot, target: ScopeId, agent: Option<string>, key: string)
    requires ProtocolInv(m) && Stored(m, s) && At(m, s).kind == Start && target.sessionRunId != PENDING_RUN
    requires HandoverConflicts(m, m.scopes[s.scope], target, agent)
    ensures Accounts(m, ConfirmStart(m, At(m, s), target, agent), key, 0)
  {
    var r := ConfirmStart(m, At(m, s), target, agent);
    RefusedHandover(m, s, target, agent);
    NoneSettled(r.effects, key);
    assert Copies(r.model, key) <= Copies(m, key);
    SubsetIsSmaller(Copies(r.model, key), Copies(m, key));
  }

  lemma ConfirmAccounts(m: Model, s: Slot, target: ScopeId, agent: Option<string>, key: string)
    requires ProtocolInv(m) && Stored(m, s) && At(m, s).kind == Start && target.sessionRunId != PENDING_RUN
    ensures Accounts(m, ConfirmStart(m, At(m, s), target, agent), key, 0)
  {
    if HandoverConflicts(m, m.scopes[s.scope], target, agent) {
      RefusalAccounts(m, s, target, agent, key);
    } else {
      var r := ConfirmStart(m, At(m, s), target, agent);
      HandoverShape(m, s, target, agent);
      assert StartApart(m, s);
      assert StoresNoMore(r.model, m) && !Stored(r.model, s);
      var settled := Reduction(r.model, [r.effects[2]]);
      SettlementAccounts(m, s, settled, key);
      NoneSettled(r.effects[..2], key);
      CountConcat(r.effects[..2], settled.effects, key);
      assert r.effects == r.effects[..2] + settled.effects;
    }
  }

  lemma OutcomeAccounts(m: Model, s: Slot, target: ScopeId, agent: Option<string>, r: Reduction, key: string)
    requires ProtocolInv(m) && ResponseOutcome(m, s, target, agent, r)
    ensures Accounts(m, r, key, 0)
  {
    if r == Unchanged(m) {
      QuietAccounts(m, r, key);
    } else if r == SettleAs(m, At(m, s), true) {
      SettleAccounts(m, s, Success, key);
    } else if r == SettleAs(m, At(m, s), false) {
      SettleAccounts(m, s, Failure, key);
    } else {
      ConfirmAccounts(m, s, target, agent, key);
    }
  }

  lemma ResponseAccounts(m: Model, selected: Option<SelectedIdentity>, revision: int, c: Call, key: string)
    requires ProtocolInv(m) && IsResponse(c) && ProtocolCall(c)
    ensures Accounts(m, ExecResponse(m, selected, revision, c).reduction, key, 0)
  {
    var s, target, agent := ResponseHasOutcome(m, selected, revision, c);
    OutcomeAccounts(m, s, target, agent, ExecResponse(m, selected, revision, c).reduction, key);
  }

  lemma ClearAccounts(m: Model, key: string)
    requires ProtocolInv(m)
    ensures Accounts(m, ClearVisible(m), key, 0)
  {
    if UniqueMatch(m, VISIBLE) {
      var s := FindIsUnique(m, VISIBLE);
      SettleAccounts(m, s, Failure, key);
    }
  }

  lemma StoringAccounts(cleared: Reduction, stored: Reduction, op: Operation, key: string, tail: seq<Effect>)
    requires StoresOneMore(stored.model, cleared.model, op)
    requires stored.effects == cleared.effects + tail
    requires forall i :: 0 <= i < |tail| ==> !tail[i].OperationSettled?
    ensures CountSettled(stored.effects, key) == CountSettled(cleared.effects, key)
    ensures |Copies(stored.model, key)| <= |Copies(cleared.model, key)| + (if op.operationId == key then 1 else 0)
  {
    CountConcat(cleared.effects, tail, key);
    NoneSettled(tail, key);
    forall id | id in Copies(stored.model, key)
      ensures id in Copies(cleared.model, key) || (op.operationId == key && id == op.scopeId)
    {
      assert Stored(stored.model, Slot(id, key));
    }
    if op.operationId == key {
      SubsetIsSmaller(Copies(stored.model, key), Copies(cleared.model, key) + {op.scopeId});
    } else {
      SubsetIsSmaller(Copies(stored.model, key), Copies(cleared.model, key));
    }
  }

  lemma UpsertIsQuiet(m: Model, scope: Scope, select: bool)
    ensures var effects := Reduce(m, ScopeUpsert(scope, select)).effects;
      forall i :: 0 <= i < |effects| ==> !effects[i].OperationSettled?
  {
  }

  lemma StartTail(r: Reduction, a: BeginArgs) returns (tail: seq<Effect>)
    requires Inv(r.model)
    ensures StoreStart(r, a).effects == r.effects + tail
    ensures forall i :: 0 <= i < |tail| ==> !tail[i].OperationSettled?
  {
    var scope := PendingStartScope(a.operationId);
    PutEmptyStoresNoMore(r.model, scope, true);
    tail := PutBeginTail(r, ScopeUpsert(scope, true), StartOperation(a));
  }

  /** Putting a scope and beginning an operation in it settles nothing. */
  lemma PutBeginTail(r: Reduction, put: Event, op: Operation) returns (tail: seq<Effect>)
    requires put.ScopeUpsert? && Inv(Reduce(r.model, put).model)
    ensures Then(Then(r, put), OperationBegin(op, None, false)).effects == r.effects + tail
    ensures forall i :: 0 <= i < |tail| ==> !tail[i].OperationSettled?
  {
    var first := Reduce(r.model, put);
    var second := Reduce(first.model, OperationBegin(op, None, false));
    BeginStoresOne(first.model, op);
    UpsertIsQuiet(r.model, put.scope, put.select);
    tail := first.effects + second.effects;
    EffectsJoin(r.effects, first.effects, second.effects);
  }

  lemma EffectsJoin(a: seq<Effect>, b: seq<Effect>, c: seq<Effect>)
    ensures (a + b) + c == a + (b + c)
  {
  }

  lemma SourcedTail(r: Reduction, a: BeginArgs) returns (tail: seq<Effect>)
    requires Inv(r.model) && HasSource(a)
    ensures StoreSourced(r, a).effects == r.effects + tail
    ensures forall i :: 0 <= i < |tail| ==> !tail[i].OperationSettled?
  {
    var input := SourceInput(a);
    if EnsureRefused(r.model, input) {
      tail := [];
    } else {
      EnsureStoresNoMore(r.model, input);
      tail := PutBeginTail(r, ScopeUpsert(EnsuredScope(r.model, input), input.select), SourcedOperation(a));
    }
  }

  lemma BeginAccounts(m: Model, a: BeginArgs, key: string)
    requires ProtocolInv(m) && (a.source.Some? ==> a.source.value.sessionRunId != PENDING_RUN)
    ensures Accounts(m, BeginRun(m, a), key, if a.operationId == key then 1 else 0)
  {
    ClearAccounts(m, key);
    ClearingLeavesNoneVisible(m);
    if a.kind == Start {
      StoreStartKeepsInv(ClearVisible(m), a);
      var tail := StartTail(ClearVisible(m), a);
      StoringAccounts(ClearVisible(m), BeginRun(m, a), StartOperation(a), key, tail);
    } else if HasSource(a) {
      var before := if ScopeOf(a) == SelectedVisible then ClearVisible(m) else Unchanged(m);
      StoreSourcedKeepsInv(before, a);
      var tail := SourcedTail(before, a);
      StoringAccounts(before, BeginRun(m, a), SourcedOperation(a), key, tail);
    }
  }

  function Begun(c: Call, key: string): nat {
    if c.BeginOperation? && c.args.operationId == key then 1 else 0
  }

  lemma EnsureAccounts(m: Model, i: EnsureInput, key: string)
    requires ProtocolInv(m)
    ensures Accounts(m, Ensure(m, i), key, 0)
  {
    EnsureStoresNoMore(m, i);
    QuietAccounts(m, Ensure(m, i), key);
  }

  lemma RestoreAccounts(m: Model, i: EnsureInput, key: string)
    requires ProtocolInv(m)
    ensures Accounts(m, RestoreBootstrap(m, i).0, key, 0)
  {
    EnsureAccounts(m, i.(select := true), key);
    QuietAccounts(m, Unchanged(m), key);
  }

  lemma CursorAccounts(m: Model, id: ScopeId, cursor: int, status: Option<Status>, key: string)
    requires ProtocolInv(m)
    ensures Accounts(m, RecordCursor(m, id, cursor, status), key, 0)
  {
    CursorStoresNoMore(m, id, cursor, status);
    QuietAccounts(m, RecordCursor(m, id, cursor, status), key);
  }

  lemma CallAccounts(m: Model, selected: Option<SelectedIdentity>, revision: int, c: Call, key: string)
    requires ProtocolInv(m) && ProtocolCall(c)
    ensures Accounts(m, Exec(m, selected, revision, c).reduction, key, Begun(c, key))
  {
    if IsResponse(c) {
      ResponseAccounts(m, selected, revision, c, key);
    } else {
      match c
      case BeginOperation(args) => BeginAccounts(m, args, key);
      case EnsureScope(input) => EnsureAccounts(m, input, key);
      case Restore(input) => RestoreAccounts(m, input, key);
      case AdvanceCursor(id, cursor, status) => CursorAccounts(m, id, cursor, status, key);
      case Deliver(event) => DeliveryAccounts(m, event, key);
    }
  }

  // ---------------------------------------------------------------------------
  // Provisional scopes stay bound to the stand-in agent run
  // ---------------------------------------------------------------------------

  ghost predicate PendingBound(m: Model) {
    forall id :: id in m.scopes && id.sessionRunId == PENDING_RUN ==> m.scopes[id].agentRunId == PENDING_AGENT
  }

  predicate PutsNoOtherPending(e: Event) {
    && (e.ScopeUpsert? ==> e.scope.scopeId.sessionRunId == PENDING_RUN ==> e.scope.agentRunId == PENDING_AGENT)
    && (e.OperationBegin? ==> e.provisional == None)
  }

  lemma EventKeepsPendingBound(m: Model, e: Event)
    requires Inv(m) && WellFormedEvent(e) && PendingBound(m) && PutsNoOtherPending(e)
    ensures PendingBound(Reduce(m, e).model) && Inv(Reduce(m, e).model)
  {
    StepKeepsInv(m, e);
    if Scoped(e) {
      ScopedShape(m, e);
    } else if e.OperationBegin? {
      BeginShape(m, e.operation, None, e.selectScope);
    }
  }

  lemma EnsureKeepsPendingBound(m: Model, i: EnsureInput)
    requires Inv(m) && PendingBound(m) && i.sessionRunId != PENDING_RUN
    ensures PendingBound(Ensure(m, i).model) && Inv(Ensure(m, i).model)
  {
    if !EnsureRefused(m, i) {
      EnsuredIsWellFormed(m, i);
      EventKeepsPendingBound(m, ScopeUpsert(EnsuredScope(m, i), i.select));
    }
  }

  lemma BeginKeepsPendingBound(m: Model, a: BeginArgs)
    requires ProtocolInv(m) && PendingBound(m) && (a.source.Some? ==> a.source.value.sessionRunId != PENDING_RUN)
    ensures PendingBound(BeginRun(m, a).model)
  {
    ClearingLeavesNoneVisible(m);
    if UniqueMatch(m, VISIBLE) {
      var s := FindIsUnique(m, VISIBLE);
      EventKeepsPendingBound(m, SettleEvent(At(m, s), Failure));
    }
    var cleared := ClearVisible(m).model;
    if a.kind == Start {
      var scope := PendingStartScope(a.operationId);
      EventKeepsPendingBound(cleared, ScopeUpsert(scope, true));
      EventKeepsPendingBound(Reduce(cleared, ScopeUpsert(scope, true)).model, OperationBegin(StartOperation(a), None, false));
    } else if HasSource(a) {
      var before := if ScopeOf(a) == SelectedVisible then cleared else m;
      EnsureKeepsPendingBound(before, SourceInput(a));
      EventKeepsPendingBound(Ensure(before, SourceInput(a)).model, OperationBegin(SourcedOperation(a), None, false));
    }
  }

  lemma ConfirmKeepsPendingBound(m: Model, s: Slot, target: ScopeId, agent: Option<string>)
    requires ProtocolInv(m) && PendingBound(m)
    requires Stored(m, s) && At(m, s).kind == Start && target.sessionRunId != PENDING_RUN
    ensures PendingBound(ConfirmStart(m, At(m, s), target, agent).model)
  {
    if HandoverConflicts(m, m.scopes[s.scope], target, agent) {
      RefusedHandover(m, s, target, agent);
    } else {
      HandoverShape(m, s, target, agent);
    }
  }

  lemma OutcomeKeepsPendingBound(m: Model, s: Slot, target: ScopeId, agent: Option<string>, r: Reduction)
    requires ProtocolInv(m) && PendingBound(m) && ResponseOutcome(m, s, target, agent, r)
    ensures PendingBound(r.model)
  {
    if r == Unchanged(m) {
    } else if r == SettleAs(m, At(m, s), true) {
      EventKeepsPendingBound(m, SettleEvent(At(m, s), Success));
    } else if r == SettleAs(m, At(m, s), false) {
      EventKeepsPendingBound(m, SettleEvent(At(m, s), Failure));
    } else {
      ConfirmKeepsPendingBound(m, s, target, agent);
    }
  }

  lemma ResponseKeepsPendingBound(m: Model, selected: Option<SelectedIdentity>, revision: int, c: Call)
    requires ProtocolInv(m) && PendingBound(m) && IsResponse(c) && ProtocolCall(c)
    ensures PendingBound(ExecResponse(m, selected, revision, c).reduction.model)
  {
    var s, target, agent := ResponseHasOutcome(m, selected, revision, c);
    OutcomeKeepsPendingBound(m, s, target, agent, ExecResponse(m, selected, revision, c).reduction);
  }

  lemma CallKeepsPendingBound(m: Model, selected: Option<SelectedIdentity>, revision: int, c: Call)
    requires ProtocolInv(m) && PendingBound(m) && ProtocolCall(c)
    ensures PendingBound(Exec(m, selected, revision, c).reduction.model)
  {
    if IsResponse(c) {
      ResponseKeepsPendingBound(m, selected, revision, c);
    } else {
      match c
      case BeginOperation(args) => BeginKeepsPendingBound(m, args);
      case EnsureScope(input) => EnsureKeepsPendingBound(m, input);
      case Restore(input) => EnsureKeepsPendingBound(m, input.(select := true));
      case AdvanceCursor(id, cursor, status) =>
        if id in m.scopes {
          assert m.scopes[id].scopeId == id;
          SameOperationsStayFiled(m.scopes[id], CursorScope(m.scopes[id], cursor, status));
          EventKeepsPendingBound(m, ScopeUpsert(CursorScope(m.scopes[id], cursor, status), false));
        }
      case Deliver(event) => EventKeepsPendingBound(m, event);
    }
  }

  // ---------------------------------------------------------------------------
  // Runs
  // ---------------------------------------------------------------------------

  /** A call together with the selected identity and revision its caller passed in. */
  datatype Step = Step(selected: Option<SelectedIdentity>, revision: int, call: Call)

  ghost function ExecAll(m: Model, steps: seq<Step>): Reduction
    decreases |steps|
  {
    if steps == [] then Unchanged(m)
    else
      var first := Exec(m, steps[0].selected, steps[0].revision, steps[0].call).reduction;
      var rest := ExecAll(first.model, steps[1..]);
      Reduction(rest.model, first.effects + rest.effects)
  }

  function BegunInAll(steps: seq<Step>, key: string): nat {
    if steps == [] then 0 else Begun(steps[0].call, key) + BegunInAll(steps[1..], key)
  }

  ghost predicate ProtocolSteps(steps: seq<Step>) {
    forall s :: s in steps ==> ProtocolCall(s.call)
  }

  /** In every reachable state the model is coherent and at most one operation is visible. */
  lemma {:induction false} RunsKeepInv(m: Model, steps: seq<Step>)
    requires ProtocolInv(m) && PendingBound(m) && ProtocolSteps(steps)
    ensures ProtocolInv(ExecAll(m, steps).model) && PendingBound(ExecAll(m, steps).model)
    decreases |steps|
  {
    if steps != [] {
      assert ProtocolCall(steps[0].call);
      CallKeepsPendingBound(m, steps[0].selected, steps[0].revision, steps[0].call);
      CallKeepsInv(m, steps[0].selected, steps[0].revision, steps[0].call);
      RunsKeepInv(Exec(m, steps[0].selected, steps[0].revision, steps[0].call).reduction.model, steps[1..]);
    }
  }

  lemma {:induction false} RunsAccount(m: Model, steps: seq<Step>, key: string)
    requires ProtocolInv(m) && ProtocolSteps(steps)
    ensures Accounts(m, ExecAll(m, steps), key, BegunInAll(steps, key))
    decreases |steps|
  {
    if steps != [] {
      assert ProtocolCall(steps[0].call);
      var first := Exec(m, steps[0].selected, steps[0].revision, steps[0].call).reduction;
      CallKeepsInv(m, steps[0].selected, steps[0].revision, steps[0].call);
      CallAccounts(m, steps[0].selected, steps[0].revision, steps[0].call, key);
      RunsAccount(first.model, steps[1..], key);
      CountConcat(first.effects, ExecAll(first.model, steps[1..]).effects, key);
    }
  }

  /** From an empty store, an operation id is never settled more often than it was begun. */
  lemma SettledAtMostOncePerBegin(steps: seq<Step>, key: string)
    requires ProtocolSteps(steps)
    ensures CountSettled(ExecAll(EMPTY_MODEL, steps).effects, key) <= BegunInAll(steps, key)
  {
    RunsAccount(EMPTY_MODEL, steps, key);
    assert Copies(EMPTY_MODEL, key) == {};
  }

  // ---------------------------------------------------------------------------
  // Start: begin to handover
  // ---------------------------------------------------------------------------

  lemma PuttingStart(m: Model, a: BeginArgs)
    requires Inv(m) && !UpsertConflicts(m, PendingStartScope(a.operationId))
    ensures var next, id := StoreStart(Unchanged(m), a).model, PendingStartId(a.operationId);
      && id in next.scopes
      && next.scopes[id] == WithOperation(PendingStartScope(a.operationId), StartOperation(a))
      && next.visible.selectedScopeId == Some(id)
  {
    var scope := PendingStartScope(a.operationId);
    PuttingKeepsInv(m, scope);
    var put := Reduce(m, ScopeUpsert(scope, true)).model;
    assert put.scopes[scope.scopeId] == scope && put.visible.selectedScopeId == Some(scope.scopeId);
    BeginningStart(put, scope, StartOperation(a));
  }

  lemma BeginningStart(put: Model, scope: Scope, op: Operation)
    requires scope.scopeId in put.scopes && put.scopes[scope.scopeId] == scope
    requires put.visible.selectedScopeId == Some(scope.scopeId)
    requires op.scopeId == scope.scopeId && op.kind == Start && !OperationSourceConflicts(scope, op)
    ensures var next := Reduce(put, OperationBegin(op, None, false)).model;
      && next.scopes == put.scopes[scope.scopeId := WithOperation(scope, op)]
      && next.visible.selectedScopeId == Some(scope.scopeId)
  {
  }

  /** Beginning a start makes it the visible operation, in its own selected provisional scope. */
  lemma StartIsBegun(m: Model, a: BeginArgs)
    requires ProtocolInv(m) && PendingBound(m)
    requires a.kind == Start && (a.source.Some? ==> a.source.value.sessionRunId != PENDING_RUN)
    ensures var next, s := BeginRun(m, a).model, Slot(PendingStartId(a.operationId), a.operationId);
      && ProtocolInv(next)
      && Matches(next, s, VISIBLE) && At(next, s) == StartOperation(a)
      && next.visible.selectedScopeId == Some(s.scope)
      && Find(next, VISIBLE) == Some(StartOperation(a))
  {
    BeginRunKeepsInv(m, a);
    ClearingLeavesNoneVisible(m);
    ClearKeepsBindings(m, PendingStartId(a.operationId));
    PuttingStart(ClearVisible(m).model, a);
    assert BeginRun(m, a).model == StoreStart(Unchanged(ClearVisible(m).model), a).model;
    VisibleIsFound(BeginRun(m, a).model, Slot(PendingStartId(a.operationId), a.operationId));
  }

  lemma ClearKeepsBindings(m: Model, id: ScopeId)
    requires ProtocolInv(m)
    ensures var c := ClearVisible(m).model.scopes;
      id in c ==> id in m.scopes && c[id].agentRunId == m.scopes[id].agentRunId
  {
    if UniqueMatch(m, VISIBLE) {
      var s := FindIsUnique(m, VISIBLE);
      var op, scope := At(m, s), m.scopes[s.scope];
      assert scope.scopeId == s.scope && OperationFiled(scope, s.key);
      SettleShape(m, s.scope, s.key, op.kind, Failure);
      SettleBindings(m, scope, op);
    }
  }

  lemma SettleBindings(m: Model, scope: Scope, op: Operation)
    requires Inv(m) && scope.scopeId in m.scopes && m.scopes[scope.scopeId] == scope
    requires op.operationId in scope.operationsById && scope.operationsById[op.operationId] == op
    requires op.scopeId == scope.scopeId
    ensures var after := Settle(m, scope, op.operationId, op.kind, Failure).model.scopes;
      forall id :: id in after ==> id in m.scopes && after[id].agentRunId == m.scopes[id].agentRunId
  {
    var without := WithoutOperation(scope, op.operationId);
    WithoutStaysFiled(scope, op.operationId);
    PuttingKeepsInv(m, without);
    var settled := UpdateScope(m, without).model;
    assert OperationFiled(scope, op.operationId);
    if MustRollBack(scope, op, Failure) && BranchCreateSource(settled, scope, op).Some? {
      CleanupShape(settled, scope, op);
    }
  }

  /** An accepted start response for a scope not yet in the store: no copy of the start and no
      provisional scope remain, the new scope runs with nothing in flight, is selected exactly when the
      provisional one was, and every other scope is as before. */
  lemma StartIsHandedOver(m: Model, selected: Option<SelectedIdentity>, revision: int,
                          operationId: string, response: Response)
    requires ProtocolInv(m) && Present(response.sessionRunId) && Present(response.branchBindingId)
    requires response.sessionRunId.value != PENDING_RUN
    requires ScopeId(response.sessionRunId.value, response.branchBindingId.value) !in m.scopes
    requires Exec(m, selected, revision, AcceptStart(operationId, response)).accepted
    ensures var next := Exec(m, selected, revision, AcceptStart(operationId, response)).reduction.model;
      var target := ScopeId(response.sessionRunId.value, response.branchBindingId.value);
      exists s :: Matches(m, s, OneVisible(operationId, Start))
        && s.scope !in next.scopes
        && next.scopes == (m.scopes - {s.scope})[target := StartedScope(m.scopes[s.scope], At(m, s), target, response.agentRunId)]
        && next.scopes[target].status == Running && next.scopes[target].operationsById == map[]
        && (next.visible.selectedScopeId == Some(target) <==> m.visible.selectedScopeId == Some(s.scope))
        && (forall t :: Stored(next, t) ==> At(next, t).operationId != s.key || At(next, t).kind != Start)
  {
    var c := AcceptStart(operationId, response);
    var target := ScopeId(response.sessionRunId.value, response.branchBindingId.value);
    var s := FindIsUnique(m, Sought(c));
    HandoverShape(m, s, target, response.agentRunId);
    assert StartApart(m, s);
    CallKeepsInv(m, selected, revision, c);
    var next := Exec(m, selected, revision, c).reduction.model;
    forall t | Stored(next, t) ensures At(next, t).operationId != s.key || At(next, t).kind != Start {
      assert StartApart(next, t);
      assert OperationFiled(next.scopes[t.scope], t.key) && next.scopes[t.scope].scopeId == t.scope;
    }
  }

  /** An accepted start response settles its start exactly when the response scope is not bound to
      another agent run. */
  lemma HandoverSettlesIff(m: Model, selected: Option<SelectedIdentity>, revision: int,
                           operationId: string, response: Response, s: Slot)
    requires ProtocolInv(m) && Matches(m, s, OneVisible(operationId, Start))
    requires Present(response.sessionRunId) && Present(response.branchBindingId)
    requires response.sessionRunId.value != PENDING_RUN && StartStillCurrent(selected, revision, At(m, s))
    ensures var reply := Exec(m, selected, revision, AcceptStart(operationId, response));
      var target := ScopeId(response.sessionRunId.value, response.branchBindingId.value);
      && reply.accepted
      && (CountSettled(reply.reduction.effects, s.key) == 1 <==>
            !HandoverConflicts(m, m.scopes[s.scope], target, response.agentRunId))
      && (HandoverConflicts(m, m.scopes[s.scope], target, response.agentRunId) ==>
            m.visible.selectedScopeId == Some(s.scope) ==> reply.reduction.model == m)
  {
    var target := ScopeId(response.sessionRunId.value, response.branchBindingId.value);
    StartResponseConfirms(m, selected, revision, operationId, response, s);
    if HandoverConflicts(m, m.scopes[s.scope], target, response.agentRunId) {
      RefusedHandover(m, s, target, response.agentRunId);
      NoneSettled(ConfirmStart(m, At(m, s), target, response.agentRunId).effects, s.key);
    } else {
      HandoverShape(m, s, target, response.agentRunId);
      var quiet, last := [ScopeUpdated(target), ScopeDeleted(s.scope)], OperationSettled(target, s.key, Start);
      SettledOnce(quiet, last, s.key);
      assert quiet + [last] == [ScopeUpdated(target), ScopeDeleted(s.scope), last];
    }
  }

  lemma StartResponseConfirms(m: Model, selected: Option<SelectedIdentity>, revision: int,
                              operationId: string, response: Response, s: Slot)
    requires AtMostOneVisible(m) && Matches(m, s, OneVisible(operationId, Start))
    requires Present(response.sessionRunId) && Present(response.branchBindingId)
    requires StartStillCurrent(selected, revision, At(m, s))
    ensures var reply := Exec(m, selected, revision, AcceptStart(operationId, response));
      var target := ScopeId(response.sessionRunId.value, response.branchBindingId.value);
      reply.accepted && reply.reduction == ConfirmStart(m, At(m, s), target, response.agentRunId)
  {
    VisibleMatchIsUnique(m, s, OneVisible(operationId, Start));
    var found := FindIsUnique(m, OneVisible(operationId, Start));
  }

  lemma VisibleMatchIsUnique(m: Model, s: Slot, c: Criteria)
    requires AtMostOneVisible(m) && Matches(m, s, c) && c.visible == Some(true)
    ensures UniqueMatch(m, c)
  {
    forall t | Matches(m, t, c) ensures t == s {
      SameVisible(m, s, t, c);
    }
    OnlyMatchIsUnique(m, s, c);
  }

  lemma SameVisible(m: Model, s: Slot, t: Slot, c: Criteria)
    requires AtMostOneVisible(m) && Matches(m, s, c) && Matches(m, t, c) && c.visible == Some(true)
    ensures s == t
  {
    assert Matches(m, s, VISIBLE) && Matches(m, t, VISIBLE);
  }

  lemma SettledOnce(quiet: seq<Effect>, last: Effect, key: string)
    requires forall i :: 0 <= i < |quiet| ==> !quiet[i].OperationSettled?
    requires last.OperationSettled? && last.operationId == key
    ensures CountSettled(quiet + [last], key) == 1
  {
    CountConcat(quiet, [last], key);
    NoneSettled(quiet, key);
    assert [last][1..] == [];
  }
}
