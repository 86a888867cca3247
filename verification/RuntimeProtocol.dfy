// What the session-runtime store and the operation coordinator do, call by call, as functions
// on the model: beginning operations, accepting or rejecting their responses, handing a start over.

module RuntimeProtocol {
  import opened Wrappers
  import opened RuntimeModel
  import opened RuntimeReducer

  /** Stand-ins used until the server has named the run; never a real run id or agent run. */
  const PENDING_RUN := "__pending_session_run_start__"
  const PENDING_AGENT := "__pending_agent_run__"

  // ---------------------------------------------------------------------------
  // Finding operations
  // ---------------------------------------------------------------------------

  datatype Criteria = Criteria(operationId: Option<string>, kind: Option<OperationKind>, visible: Option<bool>)

  const VISIBLE := Criteria(None, None, Some(true))

  predicate Meets(op: Operation, c: Criteria) {
    && (Present(c.operationId) ==> op.operationId == c.operationId.value)
    && (c.kind.Some? ==> op.kind == c.kind.value)
    && (c.visible.Some? ==> op.visible == c.visible.value)
  }

  /** Where an operation is stored: its scope and its key there. */
  datatype Slot = Slot(scope: ScopeId, key: string)

  predicate Stored(m: Model, s: Slot) {
    s.scope in m.scopes && s.key in m.scopes[s.scope].operationsById
  }

  function At(m: Model, s: Slot): Operation
    requires Stored(m, s)
  {
    m.scopes[s.scope].operationsById[s.key]
  }

  predicate Matches(m: Model, s: Slot, c: Criteria) {
    Stored(m, s) && Meets(At(m, s), c)
  }

  /** Exactly one stored operation meets the criteria. */
  ghost predicate UniqueMatch(m: Model, c: Criteria) {
    exists s :: Matches(m, s, c) && forall t :: Matches(m, t, c) ==> t == s
  }

  ghost function Find(m: Model, c: Criteria): Option<Operation> {
    if UniqueMatch(m, c) then
      var s :| Matches(m, s, c) && forall t :: Matches(m, t, c) ==> t == s;
      Some(At(m, s))
    else
      None
  }

  // ---------------------------------------------------------------------------
  // Store calls
  // ---------------------------------------------------------------------------

  function Then(r: Reduction, e: Event): Reduction {
    var next := Reduce(r.model, e);
    Reduction(next.model, r.effects + next.effects)
  }

  function Unchanged(m: Model): Reduction {
    Reduction(m, [])
  }

  function SettleEvent(op: Operation, outcome: Outcome): Event {
    OperationSettle(outcome, ById(op.scopeId), op.operationId, op.kind)
  }

  /** Settling the visible operation, of which a model of the protocol has at most one. */
  ghost function ClearVisible(m: Model): Reduction {
    match Find(m, VISIBLE)
    case None => Unchanged(m)
    case Some(op) => Reduce(m, SettleEvent(op, Failure))
  }

  datatype EnsureInput = EnsureInput(
    sessionRunId: string, branchBindingId: string, agentRunId: Option<string>,
    activeActivationId: Option<string>, runtimeRevision: Option<int>, status: Option<Status>,
    streamCursor: Option<int>, select: bool)

  predicate EnsureRefused(m: Model, i: EnsureInput) {
    var id := ScopeId(i.sessionRunId, i.branchBindingId);
    var bound := if id in m.scopes then m.scopes[id].agentRunId else "";
    || AgentRunConflicts(bound, i.agentRunId)
    || (bound == "" && !Present(i.agentRunId))
  }

  /** The scope that is put: what exists, overlaid with what the input states. */
  function EnsuredScope(m: Model, i: EnsureInput): Scope
    requires !EnsureRefused(m, i)
  {
    var id := ScopeId(i.sessionRunId, i.branchBindingId);
    if id in m.scopes then
      var e := m.scopes[id];
      var status := i.status.GetOr(e.status);
      Scope(id, i.sessionRunId, i.branchBindingId,
            if e.agentRunId != "" then e.agentRunId else i.agentRunId.value,
            Truthy(OrElse(i.activeActivationId, e.activeActivationId)),
            i.runtimeRevision.GetOr(e.runtimeRevision), status,
            if i.streamCursor.Some? then i.streamCursor else e.streamCursor,
            e.pendingNextTurns, e.pendingApprovals, e.pendingUserInputs, e.operationsById, e.transcript,
            Some(Stats(Some(status), if e.stats.Some? then e.stats.value.fields else map[])))
    else
      var status := i.status.GetOr(Running);
      Scope(id, i.sessionRunId, i.branchBindingId, i.agentRunId.value,
            Truthy(i.activeActivationId),
            i.runtimeRevision.GetOr(1), status, i.streamCursor,
            [], [], [], map[], None, Some(Stats(Some(status), map[])))
  }

  function Ensure(m: Model, i: EnsureInput): Reduction {
    if EnsureRefused(m, i) then Unchanged(m) else Reduce(m, ScopeUpsert(EnsuredScope(m, i), i.select))
  }

  predicate SelectedScopeMatches(m: Model, run: string, branch: string, agent: Option<string>) {
    && m.visible.selectedScopeId.Some?
    && m.visible.selectedScopeId.value in m.scopes
    && var s := m.scopes[m.visible.selectedScopeId.value];
       && s.sessionRunId == run && s.branchBindingId == branch
       && (Present(agent) ==> s.agentRunId == agent.value)
  }

  predicate BootstrapClaimed(m: Model, i: EnsureInput) {
    var id := ScopeId(i.sessionRunId, i.branchBindingId);
    || m.visible.selectedScopeId.Some?
    || (id in m.scopes && m.scopes[id].agentRunId != "" && Some(m.scopes[id].agentRunId) != i.agentRunId)
  }

  /** Restoring a bootstrap scope: nothing when it is already selected or anything else is. */
  function RestoreBootstrap(m: Model, i: EnsureInput): (Reduction, bool) {
    if SelectedScopeMatches(m, i.sessionRunId, i.branchBindingId, i.agentRunId) then (Unchanged(m), true)
    else if BootstrapClaimed(m, i) then (Unchanged(m), false)
    else (Ensure(m, i.(select := true)), !EnsureRefused(m, i.(select := true)))
  }

  function CursorScope(s: Scope, cursor: int, status: Option<Status>): Scope {
    var st := status.GetOr(s.status);
    s.(status := st, streamCursor := Some(cursor), runtimeRevision := s.runtimeRevision + 1,
       stats := Some(Stats(Some(st), if s.stats.Some? then s.stats.value.fields else map[])))
  }

  function RecordCursor(m: Model, id: ScopeId, cursor: int, status: Option<Status>): Reduction {
    if id !in m.scopes then Unchanged(m)
    else Reduce(m, ScopeUpsert(CursorScope(m.scopes[id], cursor, status), false))
  }

  // ---------------------------------------------------------------------------
  // Beginning an operation
  // ---------------------------------------------------------------------------

  datatype SourceScope = SelectedVisible | BranchLocal

  datatype BranchIdentity = BranchIdentity(
    sessionRunId: string, branchBindingId: string, agentRunId: string, sourceIdentityRevision: int)

  datatype BeginArgs = BeginArgs(
    operationId: string, kind: OperationKind, sourceIdentityRevision: Option<int>,
    activeSessionRunId: Option<string>, source: Option<BranchIdentity>,
    sourceScope: Option<SourceScope>, targetBranchBindingId: Option<string>)

  function ScopeOf(a: BeginArgs): SourceScope {
    a.sourceScope.GetOr(SelectedVisible)
  }

  predicate HasSource(a: BeginArgs) {
    a.source.Some? && Present(a.targetBranchBindingId) && a.source.value.agentRunId != ""
  }

  function PendingStartId(operationId: string): ScopeId {
    ScopeId(PENDING_RUN, operationId)
  }

  function PendingStartScope(operationId: string): Scope {
    Scope(PendingStartId(operationId), PENDING_RUN, operationId, PENDING_AGENT, None, 1, Queued, None,
          [], [], [], map[], None, None)
  }

  function StartOperation(a: BeginArgs): Operation {
    Operation(a.operationId, Start, PendingStartId(a.operationId), a.sourceIdentityRevision.GetOr(0),
              Truthy(a.activeSessionRunId),
              None, None, None, None, true, None)
  }

  function SourcedOperation(a: BeginArgs): Operation
    requires HasSource(a)
  {
    var s := a.source.value;
    Operation(a.operationId, a.kind, ScopeId(s.sessionRunId, s.branchBindingId), s.sourceIdentityRevision, None,
              Some(s.sessionRunId), Some(s.branchBindingId), Some(s.agentRunId), a.targetBranchBindingId,
              ScopeOf(a) == SelectedVisible, None)
  }

  function SourceInput(a: BeginArgs): EnsureInput
    requires HasSource(a)
  {
    var s := a.source.value;
    EnsureInput(s.sessionRunId, s.branchBindingId, Some(s.agentRunId), None, None, Some(Running), None,
                ScopeOf(a) == SelectedVisible)
  }

  function StoreStart(r: Reduction, a: BeginArgs): Reduction {
    Then(Then(r, ScopeUpsert(PendingStartScope(a.operationId), true)), OperationBegin(StartOperation(a), None, false))
  }

  function StoreSourced(r: Reduction, a: BeginArgs): Reduction
    requires HasSource(a)
  {
    var input := SourceInput(a);
    if EnsureRefused(r.model, input) then r
    else Then(Then(r, ScopeUpsert(EnsuredScope(r.model, input), input.select)),
              OperationBegin(SourcedOperation(a), None, false))
  }

  ghost function BeginRun(m: Model, a: BeginArgs): Reduction {
    if a.kind == Start then
      StoreStart(ClearVisible(m), a)
    else if !HasSource(a) then
      if ScopeOf(a) == SelectedVisible then ClearVisible(m) else Unchanged(m)
    else if ScopeOf(a) == SelectedVisible then
      StoreSourced(ClearVisible(m), a)
    else
      StoreSourced(Unchanged(m), a)
  }

  // ---------------------------------------------------------------------------
  // Responses
  // ---------------------------------------------------------------------------

  /** The identity part of the selected mainline snapshot. */
  datatype SelectedIdentity = SelectedIdentity(
    sessionRunId: Option<string>, branchBindingId: Option<string>, agentRunId: Option<string>)

  datatype Response = Response(
    sessionRunId: Option<string>, branchBindingId: Option<string>, agentRunId: Option<string>)

  predicate SourceStillCurrent(selected: Option<SelectedIdentity>, revision: int, op: Operation) {
    && selected.Some?
    && revision == op.sourceIdentityRevision
    && selected.value.sessionRunId == op.sourceSessionRunId
    && selected.value.branchBindingId == op.sourceBranchBindingId
    && selected.value.agentRunId == op.sourceAgentRunId
  }

  function SelectedRun(selected: Option<SelectedIdentity>): Option<string> {
    if selected.Some? then selected.value.sessionRunId else None
  }

  predicate StartStillCurrent(selected: Option<SelectedIdentity>, revision: int, op: Operation) {
    && revision == op.sourceIdentityRevision
    && if Present(op.activeSessionRunId) then SelectedRun(selected) == op.activeSessionRunId
       else !Present(SelectedRun(selected))
  }

  predicate StillCurrentForFailure(selected: Option<SelectedIdentity>, revision: int, op: Operation) {
    if op.kind == Start then StartStillCurrent(selected, revision, op)
    else SourceStillCurrent(selected, revision, op)
  }

  predicate ResponseMatches(r: Response, op: Operation) {
    && op.sourceSessionRunId == r.sessionRunId
    && op.targetBranchBindingId == r.branchBindingId
    && op.sourceAgentRunId == r.agentRunId
  }

  function SettleAs(m: Model, op: Operation, accepted: bool): Reduction {
    Reduce(m, SettleEvent(op, if accepted then Success else Failure))
  }

  /** The operation as it is re-filed in the scope its response names. */
  function HandedOverOperation(op: Operation, target: ScopeId): Operation {
    op.(scopeId := target, activeSessionRunId := Some(target.sessionRunId),
        targetBranchBindingId := Some(target.branchBindingId))
  }

  /** The provisional scope as it becomes the scope its response names. */
  function HandedOverScope(source: Scope, op: Operation, target: ScopeId, agent: Option<string>): Scope {
    source.(scopeId := target, sessionRunId := target.sessionRunId, branchBindingId := target.branchBindingId,
            agentRunId := if Present(agent) then agent.value else source.agentRunId,
            status := Running,
            operationsById := source.operationsById[op.operationId := HandedOverOperation(op, target)])
  }

  /** The three reductions of a confirmed start: put the real scope, drop the provisional one, settle. */
  function ConfirmStart(m: Model, op: Operation, target: ScopeId, agent: Option<string>): Reduction {
    if op.scopeId !in m.scopes then
      SettleAs(m, op, true)
    else
      var source := m.scopes[op.scopeId];
      var put := Then(Unchanged(m), ScopeUpsert(HandedOverScope(source, op, target, agent),
                                                m.visible.selectedScopeId == Some(source.scopeId)));
      var dropped := if source.scopeId != target then Then(put, ScopeDelete(source.scopeId)) else put;
      Then(dropped, SettleEvent(HandedOverOperation(op, target), Success))
  }

  function ConfirmOrSettle(m: Model, op: Operation, accepted: bool, r: Response): Reduction {
    if accepted && Present(r.sessionRunId) && Present(r.branchBindingId) then
      ConfirmStart(m, op, ScopeId(r.sessionRunId.value, r.branchBindingId.value), r.agentRunId)
    else
      SettleAs(m, op, accepted)
  }

  // ---------------------------------------------------------------------------
  // Calls
  // ---------------------------------------------------------------------------

  datatype Call =
    | BeginOperation(args: BeginArgs)
    | AcceptStart(operationId: string, response: Response)
    | AcceptBranchCreate(operationId: string, branch: string)
    | CheckBranchSelect(operationId: string, branch: string)
    | SettleBranchSelect(operationId: string)
    | RejectVisible(operationId: string, kind: OperationKind)
    | AcceptControl(operationId: string, kind: OperationKind, response: Response)
    | SettleLocalSuccess(operationId: string, kind: OperationKind, response: Response)
    | SettleLocalFailure(operationId: string, kind: OperationKind)
    | AcceptFailure(operationId: string, kind: OperationKind)
    | EnsureScope(input: EnsureInput)
    | Restore(input: EnsureInput)
    | AdvanceCursor(id: ScopeId, cursor: int, status: Option<Status>)
    | Deliver(event: Event)

  datatype Reply = Reply(reduction: Reduction, accepted: bool)

  function OneVisible(operationId: string, kind: OperationKind): Criteria {
    Criteria(Some(operationId), Some(kind), Some(true))
  }

  function OneLocal(operationId: string, kind: OperationKind): Criteria {
    Criteria(Some(operationId), Some(kind), Some(false))
  }

  function Refusal(m: Model): Reply {
    Reply(Unchanged(m), false)
  }

  /** The criteria a response looks its operation up with. */
  function Sought(c: Call): Criteria
    requires IsResponse(c)
  {
    match c
    case AcceptStart(id, _) => OneVisible(id, Start)
    case AcceptBranchCreate(id, _) => OneVisible(id, BranchCreate)
    case CheckBranchSelect(id, _) => OneVisible(id, BranchSelect)
    case SettleBranchSelect(id) => OneVisible(id, BranchSelect)
    case RejectVisible(id, kind) => OneVisible(id, kind)
    case AcceptControl(id, kind, _) => OneVisible(id, kind)
    case SettleLocalSuccess(id, kind, _) => OneLocal(id, kind)
    case SettleLocalFailure(id, kind) => OneLocal(id, kind)
    case AcceptFailure(id, kind) => OneVisible(id, kind)
  }

  predicate IsResponse(c: Call) {
    !c.BeginOperation? && !c.EnsureScope? && !c.Restore? && !c.AdvanceCursor? && !c.Deliver?
  }

  /** Whether the response is accepted for the operation found. */
  predicate Accepts(selected: Option<SelectedIdentity>, revision: int, c: Call, op: Operation)
    requires IsResponse(c)
  {
    match c
    case AcceptStart(_, _) => StartStillCurrent(selected, revision, op)
    case AcceptBranchCreate(_, branch) =>
      SourceStillCurrent(selected, revision, op) && op.targetBranchBindingId == Some(branch)
    case CheckBranchSelect(_, branch) =>
      SourceStillCurrent(selected, revision, op) && op.targetBranchBindingId == Some(branch)
    case SettleBranchSelect(_) => true
    case RejectVisible(_, _) => true
    case AcceptControl(_, _, response) => SourceStillCurrent(selected, revision, op) && ResponseMatches(response, op)
    case SettleLocalSuccess(_, _, response) => ResponseMatches(response, op)
    case SettleLocalFailure(_, _) => true
    case AcceptFailure(_, _) => StillCurrentForFailure(selected, revision, op)
  }

  /** What the response does to the operation found. */
  function Respond(m: Model, c: Call, op: Operation, accepted: bool): Reduction
    requires IsResponse(c)
  {
    match c
    case AcceptStart(_, response) => ConfirmOrSettle(m, op, accepted, response)
    case AcceptBranchCreate(_, _) => SettleAs(m, op, accepted)
    case CheckBranchSelect(_, _) => Unchanged(m)
    case SettleBranchSelect(_) => SettleAs(m, op, true)
    case RejectVisible(_, _) => SettleAs(m, op, false)
    case AcceptControl(_, _, _) => SettleAs(m, op, accepted)
    case SettleLocalSuccess(_, _, _) => SettleAs(m, op, accepted)
    case SettleLocalFailure(_, _) => SettleAs(m, op, false)
    case AcceptFailure(_, _) => if accepted then SettleAs(m, op, false) else Unchanged(m)
  }

  ghost function ExecResponse(m: Model, selected: Option<SelectedIdentity>, revision: int, c: Call): Reply
    requires IsResponse(c)
  {
    match Find(m, Sought(c))
    case None => Refusal(m)
    case Some(op) =>
      var accepted := Accepts(selected, revision, c, op);
      Reply(Respond(m, c, op, accepted), accepted)
  }

  /** One public call, made while `selected` is the selected identity and `revision` its revision. */
  ghost function Exec(m: Model, selected: Option<SelectedIdentity>, revision: int, c: Call): Reply {
    if IsResponse(c) then
      ExecResponse(m, selected, revision, c)
    else
      match c
      case BeginOperation(args) => Reply(BeginRun(m, args), true)
      case EnsureScope(input) => Reply(Ensure(m, input), !EnsureRefused(m, input))
      case Restore(input) => var (r, ok) := RestoreBootstrap(m, input); Reply(r, ok)
      case AdvanceCursor(id, cursor, status) => Reply(RecordCursor(m, id, cursor, status), true)
      case Deliver(event) => Reply(Reduce(m, event), true)
  }
}
