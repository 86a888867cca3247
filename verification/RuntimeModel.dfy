// The data model of the session runtime: scopes, operations, the visible projection,
// the events the reducer consumes and the effects it produces.

module RuntimeModel {
  import opened Wrappers

  /** An untyped record: stored, copied and replaced, never inspected. */
  type Json = string

  datatype Status =
    | Idle | Queued | Running | Waiting | Stopping | Cancelled | Done | Errored | Interrupted

  datatype OperationKind =
    | Start | Continue | Steer | Recover | Stop | Cancel | BranchCreate | BranchSelect

  /** A scope id, kept as the pair whose rendering `run:branch` is the record key. */
  datatype ScopeId = ScopeId(sessionRunId: string, branchBindingId: string)

  datatype Stats = Stats(runStatus: Option<Status>, fields: map<string, Json>)

  datatype PendingTurn = PendingTurn(
    clientRequestId: Option<string>, queuedAt: Option<string>, text: Option<string>, rest: Json)

  datatype Summary = Summary(
    scopeId: ScopeId,
    sessionRunId: string,
    branchBindingId: string,
    agentRunId: string,
    status: Status,
    pendingNextTurnCount: nat,
    pendingApprovalCount: nat,
    pendingUserInputCount: nat,
    operationCount: nat)

  datatype Projection = Projection(
    selectedScopeId: Option<ScopeId>,
    selectedBranchBindingId: string,
    selectedTranscript: seq<Json>,
    selectedStats: Stats,
    selectedRuntimeStatus: Status,
    branchSummaries: seq<Summary>)

  datatype Operation = Operation(
    operationId: string,
    kind: OperationKind,
    scopeId: ScopeId,
    sourceIdentityRevision: int,
    activeSessionRunId: Option<string>,
    sourceSessionRunId: Option<string>,
    sourceBranchBindingId: Option<string>,
    sourceAgentRunId: Option<string>,
    targetBranchBindingId: Option<string>,
    visible: bool,
    rollback: Option<Projection>)

  datatype Scope = Scope(
    scopeId: ScopeId,
    sessionRunId: string,
    branchBindingId: string,
    agentRunId: string,
    activeActivationId: Option<string>,
    runtimeRevision: int,
    status: Status,
    streamCursor: Option<int>,
    pendingNextTurns: seq<PendingTurn>,
    pendingApprovals: seq<Json>,
    pendingUserInputs: seq<Json>,
    operationsById: map<string, Operation>,
    transcript: Option<seq<Json>>,
    stats: Option<Stats>)

  datatype Model = Model(scopes: map<ScopeId, Scope>, visible: Projection)

  /** How an event names the scope it is for: by id, or by run and branch. */
  datatype Target = Target(
    sessionRunId: Option<string>, branchBindingId: Option<string>, scopeId: Option<ScopeId>)

  datatype StatusKind =
    | RunRunning | RunWaiting | RunStopping | RunCancelled | RunStopped | RunDone | RunError | RunInterrupted

  datatype Outcome = Success | Failure

  datatype Event =
    | ScopeUpsert(scope: Scope, select: bool)
    | ScopeDelete(scopeId: ScopeId)
    | SelectBranch(target: Target)
    | StatusChange(statusKind: StatusKind, target: Target, agentRunId: Option<string>,
                   runtimeRevision: Option<int>, status: Option<Status>,
                   transcript: Option<seq<Json>>, stats: Option<Stats>)
    | TurnQueued(target: Target, runtimeRevision: Option<int>, turn: PendingTurn)
    | TurnRemoved(target: Target, clientRequestId: Option<string>, queuedAt: Option<string>, text: Option<string>)
    | TurnsCleared(target: Target)
    | OperationBegin(operation: Operation, provisional: Option<Scope>, selectScope: bool)
    | OperationSettle(outcome: Outcome, target: Target, operationId: string, operationKind: OperationKind)

  datatype Reason = MissingProof | UnknownScope | StaleRevision | WrongTarget

  datatype Effect =
    | EventRejected(reason: Reason, rejectedScope: Option<ScopeId>)
    | ScopeUpdated(scopeId: ScopeId)
    | ScopeDeleted(scopeId: ScopeId)
    | ProjectionUpdated(projection: Projection)
    | VisibleRollback(scopeId: ScopeId, operationId: string, restored: Projection)
    | OperationSettled(scopeId: ScopeId, operationId: string, operationKind: OperationKind)

  datatype Reduction = Reduction(model: Model, effects: seq<Effect>)

  const EMPTY_STATS := Stats(Some(Idle), map[])
  const EMPTY_MODEL := Model(map[], Projection(None, "", [], EMPTY_STATS, Idle, []))

  /** The record key of a scope id. */
  function Render(id: ScopeId): string {
    id.sessionRunId + ":" + id.branchBindingId
  }

  /** Keeping ids as pairs loses nothing: run ids have no colon, so rendered keys never collide. */
  lemma RenderIsInjective(a: ScopeId, b: ScopeId)
    requires ':' !in a.sessionRunId && ':' !in b.sessionRunId
    ensures Render(a) == Render(b) <==> a == b
  {
    if Render(a) == Render(b) {
      ColonPosition(a, b);
      ColonPosition(b, a);
      var n := |a.sessionRunId|;
      assert a.sessionRunId == Render(a)[..n] && b.sessionRunId == Render(b)[..n];
      assert a.branchBindingId == Render(a)[n + 1..] && b.branchBindingId == Render(b)[n + 1..];
    }
  }

  lemma ColonPosition(a: ScopeId, b: ScopeId)
    requires ':' !in b.sessionRunId && Render(a) == Render(b)
    ensures |b.sessionRunId| <= |a.sessionRunId|
  {
    var n := |a.sessionRunId|;
    assert Render(a)[n] == ':';
    assert forall i :: 0 <= i < |b.sessionRunId| ==> Render(b)[i] == b.sessionRunId[i];
  }
}
