// The session-runtime reducer: one event in, the next model and its effects out.

module RuntimeReducer {
  import opened Wrappers
  import opened RuntimeModel

  // ---------------------------------------------------------------------------
  // Deriving the visible projection from a scope
  // ---------------------------------------------------------------------------

  function StatsFor(scope: Scope): Stats {
    match scope.stats
    case None => Stats(Some(scope.status), map[])
    case Some(s) => Stats(Some(s.runStatus.GetOr(scope.status)), s.fields)
  }

  function SummaryOf(scope: Scope): Summary {
    Summary(scope.scopeId, scope.sessionRunId, scope.branchBindingId, scope.agentRunId, scope.status,
            |scope.pendingNextTurns|, |scope.pendingApprovals|, |scope.pendingUserInputs|,
            |scope.operationsById|)
  }

  /** The scope an existing summary stands for: by id, else by branch, within the selected run only. */
  function SummarizedScope(scopes: map<ScopeId, Scope>, run: string, summary: Summary): Option<Scope> {
    var byBranch := ScopeId(run, summary.branchBindingId);
    if summary.scopeId in scopes && scopes[summary.scopeId].sessionRunId == run then
      Some(scopes[summary.scopeId])
    else if byBranch in scopes then
      Some(scopes[byBranch])
    else
      None
  }

  /** The summaries kept from the previous list, refreshed, each scope at most once. */
  function PreservedSummaries(
    scopes: map<ScopeId, Scope>, run: string, existing: seq<Summary>, covered: set<ScopeId>): seq<Summary>
  {
    if existing == [] then
      []
    else if existing[0].sessionRunId != run then
      PreservedSummaries(scopes, run, existing[1..], covered)
    else
      match SummarizedScope(scopes, run, existing[0])
      case None => PreservedSummaries(scopes, run, existing[1..], covered)
      case Some(scope) =>
        if scope.scopeId in covered then
          PreservedSummaries(scopes, run, existing[1..], covered)
        else
          [SummaryOf(scope)] + PreservedSummaries(scopes, run, existing[1..], covered + {scope.scopeId})
  }

  predicate CoversScope(summaries: seq<Summary>, id: ScopeId) {
    exists i :: 0 <= i < |summaries| && summaries[i].scopeId == id
  }

  function BranchSummaries(scopes: map<ScopeId, Scope>, selected: Scope, existing: seq<Summary>): seq<Summary> {
    var preserved := PreservedSummaries(scopes, selected.sessionRunId, existing, {});
    if CoversScope(preserved, selected.scopeId) then preserved else preserved + [SummaryOf(selected)]
  }

  function ProjectionFor(m: Model, scope: Scope): Projection {
    Projection(Some(scope.scopeId), scope.branchBindingId, scope.transcript.GetOr([]), StatsFor(scope),
               scope.status, BranchSummaries(m.scopes, scope, m.visible.branchSummaries))
  }

  function RefreshIfSelected(m: Model, id: ScopeId): Model {
    if m.visible.selectedScopeId == Some(id) && id in m.scopes then
      m.(visible := ProjectionFor(m, m.scopes[id]))
    else
      m
  }

  // ---------------------------------------------------------------------------
  // Naming a scope
  // ---------------------------------------------------------------------------

  predicate MatchesTarget(scope: Scope, target: Target) {
    && (Present(target.sessionRunId) ==> scope.sessionRunId == target.sessionRunId.value)
    && (Present(target.branchBindingId) ==> scope.branchBindingId == target.branchBindingId.value)
  }

  predicate HasScopeProof(target: Target) {
    target.scopeId.Some? || (Present(target.sessionRunId) && Present(target.branchBindingId))
  }

  function ResolveScopeId(m: Model, target: Target): Option<ScopeId> {
    if target.scopeId.Some? then
      var id := target.scopeId.value;
      if id !in m.scopes || MatchesTarget(m.scopes[id], target) then Some(id) else None
    else if Present(target.sessionRunId) && Present(target.branchBindingId) then
      var id := ScopeId(target.sessionRunId.value, target.branchBindingId.value);
      if id !in m.scopes || MatchesTarget(m.scopes[id], target) then Some(id) else None
    else
      None
  }

  /** The live scope an event is for, if it names one. */
  function ResolveScope(m: Model, target: Target): Option<ScopeId> {
    match ResolveScopeId(m, target)
    case None => None
    case Some(id) => if id in m.scopes then Some(id) else None
  }

  function ById(id: ScopeId): Target {
    Target(None, None, Some(id))
  }

  // ---------------------------------------------------------------------------
  // The transitions
  // ---------------------------------------------------------------------------

  predicate AgentRunConflicts(existing: string, incoming: Option<string>) {
    existing != "" && Present(incoming) && existing != incoming.value
  }

  predicate UpsertConflicts(m: Model, scope: Scope) {
    scope.scopeId in m.scopes && AgentRunConflicts(m.scopes[scope.scopeId].agentRunId, Some(scope.agentRunId))
  }

  predicate IsRejection(r: Reduction) {
    |r.effects| == 1 && r.effects[0].EventRejected?
  }

  /** Rejection is atomic and reported alone: it is the only effect, and the model is untouched. */
  ghost predicate RejectsAtomically(m: Model, r: Reduction) {
    || (IsRejection(r) && r.model == m)
    || (r.effects != [] && forall i :: 0 <= i < |r.effects| ==> !r.effects[i].EventRejected?)
  }

  function Rejected(m: Model, reason: Reason, id: Option<ScopeId>): Reduction {
    Reduction(m, [EventRejected(reason, id)])
  }

  function UpdateScope(m: Model, scope: Scope): (r: Reduction)
    ensures RejectsAtomically(m, r)
  {
    var next := RefreshIfSelected(m.(scopes := m.scopes[scope.scopeId := scope]), scope.scopeId);
    Reduction(next,
              [ScopeUpdated(scope.scopeId)]
              + if next.visible.selectedScopeId == Some(scope.scopeId) then [ProjectionUpdated(next.visible)] else [])
  }

  function Upsert(m: Model, scope: Scope, select: bool): (r: Reduction)
    ensures RejectsAtomically(m, r)
  {
    if UpsertConflicts(m, scope) then
      Rejected(m, WrongTarget, Some(scope.scopeId))
    else
      var next := m.(scopes := m.scopes[scope.scopeId := scope]);
      Reduction(if select then next.(visible := ProjectionFor(next, scope)) else RefreshIfSelected(next, scope.scopeId),
                [ScopeUpdated(scope.scopeId)])
  }

  function Delete(m: Model, id: ScopeId): (r: Reduction)
    ensures RejectsAtomically(m, r)
  {
    if id !in m.scopes then
      Rejected(m, UnknownScope, Some(id))
    else if m.visible.selectedScopeId == Some(id) then
      Rejected(m, WrongTarget, Some(id))
    else
      Reduction(m.(scopes := m.scopes - {id}), [ScopeDeleted(id)])
  }

  function Select(m: Model, target: Target): (r: Reduction)
    ensures RejectsAtomically(m, r)
  {
    match ResolveScope(m, target)
    case None => Rejected(m, UnknownScope, ResolveScopeId(m, target))
    case Some(id) =>
      var visible := ProjectionFor(m, m.scopes[id]);
      Reduction(m.(visible := visible), [ProjectionUpdated(visible)])
  }

  /** The test the search for the source of a branch creation applies to each candidate. */
  predicate IsBranchCreateSource(candidate: Scope, scope: Scope, op: Operation) {
    && op.kind == BranchCreate
    && Present(op.sourceSessionRunId) && Present(op.sourceBranchBindingId) && Present(op.sourceAgentRunId)
    && candidate.sessionRunId == scope.sessionRunId
    && candidate.sessionRunId == op.sourceSessionRunId.value
    && candidate.branchBindingId == op.sourceBranchBindingId.value
    && candidate.agentRunId == op.sourceAgentRunId.value
  }

  /** The outcome of that search, found by key; `SourceScopeIsTheSearch` shows the two agree. */
  function BranchCreateSource(m: Model, scope: Scope, op: Operation): Option<Scope> {
    if op.kind != BranchCreate || !Present(op.sourceSessionRunId) || !Present(op.sourceBranchBindingId) then
      None
    else
      var id := ScopeId(op.sourceSessionRunId.value, op.sourceBranchBindingId.value);
      if id in m.scopes && IsBranchCreateSource(m.scopes[id], scope, op) then Some(m.scopes[id]) else None
  }

  predicate BranchCreateHasSource(m: Model, scope: Scope, op: Operation) {
    op.kind != BranchCreate ||
    (&& Present(op.sourceSessionRunId) && Present(op.sourceBranchBindingId) && Present(op.sourceAgentRunId)
     && Present(op.targetBranchBindingId)
     && op.targetBranchBindingId != op.sourceBranchBindingId
     && BranchCreateSource(m, scope, op).Some?)
  }

  predicate OperationSourceConflicts(scope: Scope, op: Operation) {
    !(op.kind == BranchCreate && op.targetBranchBindingId == Some(scope.branchBindingId)) &&
    (|| (Present(op.sourceSessionRunId) && op.sourceSessionRunId.value != scope.sessionRunId)
     || (Present(op.sourceBranchBindingId) && op.sourceBranchBindingId.value != scope.branchBindingId)
     || (Present(op.sourceAgentRunId) && op.sourceAgentRunId.value != scope.agentRunId))
  }

  function WithOperation(scope: Scope, op: Operation): Scope {
    scope.(operationsById := scope.operationsById[op.operationId := op])
  }

  function WithoutOperation(scope: Scope, operationId: string): Scope {
    scope.(operationsById := scope.operationsById - {operationId})
  }

  /** The model a begin starts from, once its provisional scope is in. */
  function BeginBase(m: Model, provisional: Option<Scope>, selectScope: bool): Model {
    if provisional.Some? then Upsert(m, provisional.value, selectScope).model else m
  }

  /** The guards of a begin: nothing in the way of its provisional scope, and a source that is there. */
  predicate BeginAllowed(m: Model, op: Operation, provisional: Option<Scope>, selectScope: bool) {
    var base := BeginBase(m, provisional, selectScope);
    && (provisional.Some? ==> !UpsertConflicts(m, provisional.value))
    && op.scopeId in base.scopes
    && BranchCreateHasSource(base, base.scopes[op.scopeId], op)
    && !OperationSourceConflicts(base.scopes[op.scopeId], op)
  }

  function Begin(m: Model, op: Operation, provisional: Option<Scope>, selectScope: bool): (r: Reduction)
    ensures RejectsAtomically(m, r)
  {
    if provisional.Some? && UpsertConflicts(m, provisional.value) then
      Rejected(m, WrongTarget, Some(provisional.value.scopeId))
    else
      var base := BeginBase(m, provisional, selectScope);
      if op.scopeId !in base.scopes then
        Rejected(m, UnknownScope, Some(op.scopeId))
      else
        var scope := base.scopes[op.scopeId];
        if !BranchCreateHasSource(base, scope, op) || OperationSourceConflicts(scope, op) then
          Rejected(m, WrongTarget, Some(op.scopeId))
        else
          UpdateScope(base, WithOperation(scope, op))
  }

  /** Dropping the provisional scope of a failed branch creation and returning to its source. */
  function CleanupFailedBranchCreate(settled: Model, scope: Scope, op: Operation): (Model, bool, bool) {
    match BranchCreateSource(settled, scope, op)
    case None => (settled, false, false)
    case Some(source) =>
      var cleaned := settled.(scopes := settled.scopes - {scope.scopeId});
      if settled.visible.selectedScopeId != Some(scope.scopeId) then
        (cleaned, true, false)
      else
        (Select(cleaned, ById(source.scopeId)).model, true, true)
  }

  /** Whether settling `op` in `scope` must undo an optimistic branch creation. */
  predicate MustRollBack(scope: Scope, op: Operation, outcome: Outcome) {
    && outcome == Failure
    && op.kind == BranchCreate
    && op.targetBranchBindingId == Some(scope.branchBindingId)
    && op.rollback.Some?
  }

  function Settle(m: Model, scope: Scope, operationId: string, kind: OperationKind, outcome: Outcome): (r: Reduction)
    ensures RejectsAtomically(m, r)
  {
    if operationId !in scope.operationsById
       || scope.operationsById[operationId].kind != kind
       || scope.operationsById[operationId].scopeId != scope.scopeId
    then
      Rejected(m, WrongTarget, Some(scope.scopeId))
    else
      var op := scope.operationsById[operationId];
      var settled := UpdateScope(m, WithoutOperation(scope, operationId)).model;
      var done := [OperationSettled(scope.scopeId, operationId, kind)];
      if MustRollBack(scope, op, outcome) then
        RolledBack(settled, scope, op, done)
      else
        Reduction(settled, done)
  }

  /** What failing an optimistic branch creation adds to its settlement. */
  function RolledBack(settled: Model, scope: Scope, op: Operation, done: seq<Effect>): Reduction
    requires op.rollback.Some?
  {
    var wasVisible := settled.visible.selectedScopeId == Some(scope.scopeId);
    var (cleaned, deleted, rolledBack) := CleanupFailedBranchCreate(settled, scope, op);
    Reduction(cleaned,
              done
              + (if deleted then [ScopeDeleted(scope.scopeId)] else [])
              + (if wasVisible && rolledBack then
                   [ProjectionUpdated(cleaned.visible),
                    VisibleRollback(scope.scopeId, op.operationId, op.rollback.value)]
                 else []))
  }

  function NextRevision(scope: Scope, revision: Option<int>): int {
    revision.GetOr(scope.runtimeRevision + 1)
  }

  function StatusForKind(kind: StatusKind): Status {
    match kind
    case RunWaiting => Waiting
    case RunStopping => Stopping
    case RunCancelled => Cancelled
    case RunStopped => Done
    case RunDone => Done
    case RunError => Errored
    case RunInterrupted => Interrupted
    case RunRunning => Running
  }

  function EventStatus(e: Event): Status
    requires e.StatusChange?
  {
    e.status.GetOr(StatusForKind(e.statusKind))
  }

  function ApplyStatus(scope: Scope, e: Event): Scope
    requires e.StatusChange?
  {
    var extra := if e.stats.Some? then e.stats.value.fields else map[];
    scope.(
      status := EventStatus(e),
      runtimeRevision := NextRevision(scope, e.runtimeRevision),
      agentRunId := if Present(e.agentRunId) then e.agentRunId.value else scope.agentRunId,
      transcript := if e.transcript.Some? then e.transcript else scope.transcript,
      stats := Some(Stats(Some(EventStatus(e)), StatsFor(scope).fields + extra)))
  }

  predicate RemovalMatches(turn: PendingTurn, e: Event)
    requires e.TurnRemoved?
  {
    || (Present(e.clientRequestId) && turn.clientRequestId == e.clientRequestId)
    || (Present(e.queuedAt) && turn.queuedAt == e.queuedAt)
    || (Present(e.text) && turn.text == e.text)
  }

  /** Drops the first matching turn, if any. */
  function RemoveTurn(turns: seq<PendingTurn>, e: Event): seq<PendingTurn>
    requires e.TurnRemoved?
  {
    if turns == [] then []
    else if RemovalMatches(turns[0], e) then turns[1..]
    else [turns[0]] + RemoveTurn(turns[1..], e)
  }

  predicate Scoped(e: Event) {
    e.StatusChange? || e.TurnQueued? || e.TurnRemoved? || e.TurnsCleared? || e.OperationSettle?
  }

  /** The scope a scoped event other than a settlement leaves behind. */
  function Patched(scope: Scope, e: Event): Scope {
    match e
    case TurnQueued(_, revision, turn) =>
      scope.(runtimeRevision := NextRevision(scope, revision), pendingNextTurns := scope.pendingNextTurns + [turn])
    case TurnRemoved(_, _, _, _) => scope.(pendingNextTurns := RemoveTurn(scope.pendingNextTurns, e))
    case TurnsCleared(_) => scope.(pendingNextTurns := [])
    case StatusChange(_, _, _, _, _, _, _) => ApplyStatus(scope, e)
    case _ => scope
  }

  /** What a scoped event does to the live scope it was resolved to. */
  function Deliver(m: Model, scope: Scope, e: Event): (r: Reduction)
    requires Scoped(e)
    ensures RejectsAtomically(m, r)
  {
    if e.OperationSettle? then
      Settle(m, scope, e.operationId, e.operationKind, e.outcome)
    else if e.StatusChange? && AgentRunConflicts(scope.agentRunId, e.agentRunId) then
      Rejected(m, WrongTarget, Some(scope.scopeId))
    else
      UpdateScope(m, Patched(scope, e))
  }

  /** The explicit revision an event carries, if its type has one. */
  function RevisionOf(e: Event): Option<int> {
    match e
    case StatusChange(_, _, _, revision, _, _, _) => revision
    case TurnQueued(_, revision, _) => revision
    case _ => None
  }

  function ReduceScoped(m: Model, e: Event): (r: Reduction)
    requires Scoped(e)
    ensures RejectsAtomically(m, r)
  {
    match ResolveScope(m, e.target)
    case None =>
      Rejected(m, if HasScopeProof(e.target) then UnknownScope else MissingProof, ResolveScopeId(m, e.target))
    case Some(id) =>
      var scope := m.scopes[id];
      if RevisionOf(e).Some? && RevisionOf(e).value < scope.runtimeRevision then
        Rejected(m, StaleRevision, Some(scope.scopeId))
      else
        Deliver(m, scope, e)
  }

  function Reduce(m: Model, e: Event): (r: Reduction)
    ensures RejectsAtomically(m, r)
  {
    if Scoped(e) then
      ReduceScoped(m, e)
    else
      match e
      case ScopeUpsert(scope, select) => Upsert(m, scope, select)
      case ScopeDelete(id) => Delete(m, id)
      case SelectBranch(target) => Select(m, target)
      case OperationBegin(op, provisional, selectScope) => Begin(m, op, provisional, selectScope)
  }

  function Run(m: Model, events: seq<Event>): Model
    decreases |events|
  {
    if events == [] then m else Run(Reduce(m, events[0]).model, events[1..])
  }

  lemma {:induction false} RunConcat(m: Model, a: seq<Event>, b: seq<Event>)
    ensures Run(m, a + b) == Run(Run(m, a), b)
    decreases |a|
  {
    if a == [] {
      assert a + b == b;
    } else {
      assert (a + b)[0] == a[0] && (a + b)[1..] == a[1..] + b;
      RunConcat(Reduce(m, a[0]).model, a[1..], b);
    }
  }
}
