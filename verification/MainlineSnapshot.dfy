// The selected mainline snapshot: its state vocabulary, the facts derived from it, and the
// normalization every stored snapshot goes through.

module MainlineSnapshot {
  import opened Wrappers
  import opened RuntimeModel

  datatype SnapshotStatus =
    | StatusStarting | StatusRunning | StatusReconnecting | StatusSettled | StatusWaitingUser
    | StatusBlocked | StatusClosed | StatusCancelled | StatusFailed | StatusUnrecoverable

  datatype MainlineState =
    | MainlineNone | MainlineStarting | MainlineExecuting | MainlineWaitingUser | MainlineSettled
    | MainlineClosed | MainlineCancelled | MainlineFailed | MainlineBlocked | MainlineUnrecoverable

  datatype ActivationState =
    | ActivationNone | ActivationQueued | ActivationDispatched | ActivationRunning | ActivationWaitingServer
    | ActivationWaitingUser | ActivationCompleted | ActivationFailed | ActivationCancelled | ActivationBlocked

  datatype BindingStatus = BindingNone | BindingPending | BindingActive | BindingClosed | BindingDeleted

  datatype ProjectionState =
    | ProjectionLive | ProjectionRecovered | ProjectionDrained | ProjectionUnavailable | ProjectionNonrecoverable

  datatype TransportState =
    | TransportDisconnected | TransportConnecting | TransportStreaming | TransportReconnecting
    | TransportClosed | TransportError

  /** A stored value: the part of JSON the payloads use. An object keeps its declared fields and its
      free-form entries apart. */
  datatype Value =
    | Undefined
    | Null
    | Str(text: string)
    | Num(number: real)
    | Flag(flag: bool)
    | List(items: seq<Value>)
    | Obj(fields: map<Name, Value>, entries: map<string, Value>)

  /** Field names come in two spellings. */
  datatype Name = Camel(field: Field) | Snake(field: Field)

  datatype Field =
    | FSessionRunId | FCursor | FSessionId | FDraftSessionId | FStatus | FAgentRunId | FActivationId
    | FBranchBindingId | FMainlineState | FAgentRunState | FActivationState | FBindingStatus
    | FProjectionState | FTransportState | FWorking | FContinuable | FRecoverable | FEventStreamAllowed
    | FClosedReason | FStartedAt | FReconnectAttempts | FReconnectStartedAt | FLastError | FLastStreamAt
    | FNextRetryAt | FPendingNextTurn | FPendingNextTurnsByBranch | FBranches
    | FText | FClientRequestId | FLocale | FMentions | FQueuedAt

  datatype Turn = Turn(
    text: string, sessionRunId: Option<string>, branchBindingId: Option<string>,
    clientRequestId: Option<string>, locale: Option<string>, mentions: Option<seq<Value>>, queuedAt: string)

  /** Queues that are missing altogether are kept as no queues. */
  datatype Snapshot = Snapshot(
    sessionRunId: string, cursor: real, sessionId: Option<string>, draftSessionId: Option<string>,
    status: SnapshotStatus, agentRunId: Option<string>, activationId: Option<string>,
    branchBindingId: Option<string>, mainlineState: Option<MainlineState>, agentRunState: Option<string>,
    activationState: Option<ActivationState>, bindingStatus: Option<BindingStatus>,
    projectionState: Option<ProjectionState>, transportState: Option<TransportState>,
    working: Option<bool>, continuable: Option<bool>, recoverable: Option<bool>,
    eventStreamAllowed: Option<bool>, closedReason: Option<string>, startedAt: string,
    reconnectAttempts: real, reconnectStartedAt: Option<real>, lastError: Option<string>,
    lastStreamAt: Option<string>, nextRetryAt: Option<real>,
    pendingNextTurn: Option<Turn>, queues: map<string, seq<Turn>>, branches: seq<Value>)

  function QueueKey(run: string, branch: string): string {
    Render(ScopeId(run, branch))
  }

  function Queue(queues: map<string, seq<Turn>>, key: string): seq<Turn> {
    if key in queues then queues[key] else []
  }

  /** The head of the selected branch's queue. */
  function SelectedHead(run: string, branch: Option<string>, queues: map<string, seq<Turn>>): Option<Turn> {
    if !Present(branch) || Queue(queues, QueueKey(run, branch.value)) == [] then None
    else Some(Queue(queues, QueueKey(run, branch.value))[0])
  }

  // ---------------------------------------------------------------------------
  // Derived facts
  // ---------------------------------------------------------------------------

  predicate ReconnectingAtWork(s: Snapshot) {
    s.status == StatusReconnecting && s.working == Some(true) && s.eventStreamAllowed == Some(true)
  }

  function MainlineOfStatus(status: SnapshotStatus, atWork: bool): MainlineState {
    match status
    case StatusStarting => MainlineStarting
    case StatusRunning => MainlineExecuting
    case StatusReconnecting => if atWork then MainlineExecuting else MainlineNone
    case StatusSettled => MainlineSettled
    case StatusWaitingUser => MainlineWaitingUser
    case StatusBlocked => MainlineBlocked
    case StatusCancelled => MainlineCancelled
    case StatusClosed => MainlineClosed
    case StatusFailed => MainlineFailed
    case StatusUnrecoverable => MainlineUnrecoverable
  }

  function ActivationOfStatus(status: SnapshotStatus, atWork: bool): ActivationState {
    match status
    case StatusStarting => ActivationQueued
    case StatusRunning => ActivationRunning
    case StatusReconnecting => if atWork then ActivationRunning else ActivationNone
    case StatusSettled => ActivationCompleted
    case StatusWaitingUser => ActivationWaitingUser
    case StatusBlocked => ActivationBlocked
    case StatusCancelled => ActivationCancelled
    case StatusClosed => ActivationNone
    case StatusFailed => ActivationFailed
    case StatusUnrecoverable => ActivationFailed
  }

  function BindingOfMainline(state: MainlineState): BindingStatus {
    match state
    case MainlineNone => BindingNone
    case MainlineClosed => BindingClosed
    case MainlineCancelled => BindingClosed
    case MainlineFailed => BindingClosed
    case MainlineUnrecoverable => BindingClosed
    case _ => BindingActive
  }

  predicate Executing(a: ActivationState) {
    a == ActivationQueued || a == ActivationDispatched || a == ActivationRunning || a == ActivationWaitingServer
  }

  predicate RecoverableBy(binding: BindingStatus, state: MainlineState) {
    binding == BindingActive
    && state !in {MainlineCancelled, MainlineClosed, MainlineFailed, MainlineUnrecoverable}
  }

  function StatusFromFacts(fallback: SnapshotStatus, state: MainlineState, activation: ActivationState): SnapshotStatus {
    if fallback == StatusReconnecting && Executing(activation) then StatusReconnecting
    else if state == MainlineStarting then StatusStarting
    else if Executing(activation) || state == MainlineExecuting then StatusRunning
    else match state
      case MainlineSettled => StatusSettled
      case MainlineWaitingUser => StatusWaitingUser
      case MainlineBlocked => StatusBlocked
      case MainlineClosed => StatusClosed
      case MainlineCancelled => StatusCancelled
      case MainlineFailed => StatusFailed
      case MainlineUnrecoverable => StatusUnrecoverable
      case _ => fallback
  }

  // ---------------------------------------------------------------------------
  // Normalization
  // ---------------------------------------------------------------------------

  /** The queues of a snapshot; a lone pending turn of an old snapshot becomes a queue of its own,
      but only where there are no queues at all. */
  function MigratedQueues(s: Snapshot, branch: string): map<string, seq<Turn>> {
    if s.pendingNextTurn.Some? && s.queues == map[] then
      map[QueueKey(s.sessionRunId, branch) :=
        [s.pendingNextTurn.value.(sessionRunId := Some(s.sessionRunId), branchBindingId := Some(branch))]]
    else
      s.queues
  }

  /** The snapshot as it is stored; one without a branch is not stored at all. */
  function Normalize(s: Snapshot): Option<Snapshot> {
    if !Present(s.branchBindingId) then None
    else
      var queues := MigratedQueues(s, s.branchBindingId.value);
      var state := s.mainlineState.GetOr(MainlineOfStatus(s.status, ReconnectingAtWork(s)));
      var activation := s.activationState.GetOr(ActivationOfStatus(s.status, ReconnectingAtWork(s)));
      var binding := s.bindingStatus.GetOr(BindingOfMainline(state));
      var working := s.working.GetOr(Executing(activation));
      var allowed := s.eventStreamAllowed.GetOr(working && binding == BindingActive);
      Some(s.(
        queues := queues,
        status := StatusFromFacts(s.status, state, activation),
        mainlineState := Some(state),
        activationState := Some(activation),
        bindingStatus := Some(binding),
        working := Some(working),
        continuable := Some(s.continuable.GetOr(state == MainlineSettled && binding == BindingActive)),
        recoverable := Some(s.recoverable.GetOr(RecoverableBy(binding, state))),
        eventStreamAllowed := Some(allowed),
        projectionState := Some(s.projectionState.GetOr(
          if state == MainlineSettled then ProjectionDrained
          else if allowed then ProjectionLive else ProjectionUnavailable)),
        transportState := Some(s.transportState.GetOr(
          if !allowed then TransportDisconnected
          else if s.status == StatusReconnecting then TransportReconnecting else TransportStreaming)),
        pendingNextTurn := SelectedHead(s.sessionRunId, s.branchBindingId, queues)))
  }

  /** Normalizing again changes nothing. */
  lemma NormalizeIsIdempotent(s: Snapshot)
    requires Normalize(s).Some?
    ensures Normalize(Normalize(s).value) == Normalize(s)
  {
    var branch := s.branchBindingId.value;
    var queues := MigratedQueues(s, branch);
    assert SelectedHead(s.sessionRunId, s.branchBindingId, queues).Some? ==> queues != map[];
  }
}
