// Restoring what was saved: every field and every queue comes back, with one exception.

module SnapshotRoundTrip {
  import opened Wrappers
  import opened MainlineSnapshot
  import opened SnapshotPersistence
  import opened PendingTurnQueues

  // ---------------------------------------------------------------------------
  // Turns and queues
  // ---------------------------------------------------------------------------

  function Objects(vs: seq<Value>): seq<Value> {
    if vs == [] then [] else (if vs[0].Obj? then [vs[0]] else []) + Objects(vs[1..])
  }

  /** A pending turn needs a text; its mentions are kept only if there are any. */
  function TurnOf(env: Env, v: Value): Option<Turn> {
    var text := StringOf(env, FieldOf(v, Camel(FText)));
    var mentions := Objects(ItemsOf(FieldOf(v, Camel(FMentions))));
    if text.None? then None
    else Some(Turn(text.value, TurnText(env, v, FSessionRunId), TurnText(env, v, FBranchBindingId),
                   TurnText(env, v, FClientRequestId), StringOf(env, FieldOf(v, Camel(FLocale))),
                   if mentions == [] then None else Some(mentions),
                   TurnText(env, v, FQueuedAt).GetOr(env.now)))
  }

  function TurnsOf(env: Env, vs: seq<Value>): seq<Turn> {
    if vs == [] then []
    else
      var turn := TurnOf(env, ObjectOf(vs[0]));
      (if turn.Some? then [turn.value] else []) + TurnsOf(env, vs[1..])
  }

  function QueuesOf(env: Env, v: Value): Queues
    requires v.Obj?
  {
    map key | key in v.entries && TurnsOf(env, ItemsOf(v.entries[key])) != [] :: TurnsOf(env, ItemsOf(v.entries[key]))
  }

  function TextValue(o: Option<string>): Value {
    if o.Some? then Str(o.value) else Undefined
  }

  function NumberValue(o: Option<real>): Value {
    if o.Some? then Num(o.value) else Undefined
  }

  function FlagValue(o: Option<bool>): Value {
    if o.Some? then Flag(o.value) else Undefined
  }

  function TurnField(t: Turn, f: Field): Value {
    match f
    case FText => Str(t.text)
    case FSessionRunId => TextValue(t.sessionRunId)
    case FBranchBindingId => TextValue(t.branchBindingId)
    case FClientRequestId => TextValue(t.clientRequestId)
    case FLocale => TextValue(t.locale)
    case FMentions => if t.mentions.Some? then List(t.mentions.value) else Undefined
    case FQueuedAt => Str(t.queuedAt)
    case _ => Undefined
  }

  const TURN_NAMES := {Camel(FText), Camel(FSessionRunId), Camel(FBranchBindingId), Camel(FClientRequestId),
                       Camel(FLocale), Camel(FMentions), Camel(FQueuedAt)}

  function TurnValue(t: Turn): Value {
    Obj(map n | n in TURN_NAMES && TurnField(t, n.field) != Undefined :: TurnField(t, n.field), map[])
  }

  function TurnValues(ts: seq<Turn>): seq<Value> {
    if ts == [] then [] else [TurnValue(ts[0])] + TurnValues(ts[1..])
  }

  function QueuesValue(qs: Queues): Value {
    Obj(map[], map key | key in qs :: List(TurnValues(qs[key])))
  }

  /** A turn as restoring produces it. */
  ghost predicate CleanTurn(env: Env, t: Turn) {
    && Clean(env, t.text) && Clean(env, t.queuedAt)
    && CleanOption(env, t.sessionRunId) && CleanOption(env, t.branchBindingId)
    && CleanOption(env, t.clientRequestId) && CleanOption(env, t.locale)
    && (t.mentions.Some? ==> t.mentions.value != [] && AllObjects(t.mentions.value))
  }

  predicate AllObjects(vs: seq<Value>) {
    forall i :: 0 <= i < |vs| ==> vs[i].Obj?
  }

  ghost predicate CleanTurns(env: Env, ts: seq<Turn>) {
    forall i :: 0 <= i < |ts| ==> CleanTurn(env, ts[i])
  }

  ghost predicate CleanQueues(env: Env, qs: Queues) {
    forall key :: key in qs ==> qs[key] != [] && CleanTurns(env, qs[key])
  }

  lemma {:induction false} ObjectsShape(vs: seq<Value>)
    ensures AllObjects(Objects(vs))
    ensures AllObjects(vs) ==> Objects(vs) == vs
    decreases |vs|
  {
    if vs != [] {
      ObjectsShape(vs[1..]);
    }
  }

  lemma TurnOfIsClean(env: Env, v: Value)
    requires Sound(env)
    ensures TurnOf(env, v).Some? ==> CleanTurn(env, TurnOf(env, v).value)
  {
    ObjectsShape(ItemsOf(FieldOf(v, Camel(FMentions))));
  }

  lemma {:induction false} TurnsOfAreClean(env: Env, vs: seq<Value>)
    requires Sound(env)
    ensures CleanTurns(env, TurnsOf(env, vs))
    decreases |vs|
  {
    if vs != [] {
      TurnOfIsClean(env, ObjectOf(vs[0]));
      TurnsOfAreClean(env, vs[1..]);
    }
  }

  /** `v` holds the fields of `t`, each under its one spelling. */
  ghost predicate Says(v: Value, t: Turn) {
    forall f :: FieldOf(v, Camel(f)) == TurnField(t, f) && FieldOf(v, Snake(f)) == Undefined
  }

  lemma OnlyTurnNames(t: Turn, f: Field)
    ensures Camel(f) !in TURN_NAMES ==> TurnField(t, f) == Undefined
    ensures Snake(f) !in TURN_NAMES
  {
  }

  lemma FieldIsSaid(t: Turn, v: Value, n: Name)
    requires v == TurnValue(t)
    ensures FieldOf(v, n) == if n in TURN_NAMES then TurnField(t, n.field) else Undefined
  {
  }

  lemma TurnValueSays(t: Turn, v: Value)
    requires v == TurnValue(t)
    ensures Says(v, t)
  {
    forall f ensures FieldOf(v, Camel(f)) == TurnField(t, f) && FieldOf(v, Snake(f)) == Undefined {
      OnlyTurnNames(t, f);
      FieldIsSaid(t, v, Camel(f));
      FieldIsSaid(t, v, Snake(f));
    }
  }

  lemma CleanReads(env: Env, o: Option<string>)
    requires CleanOption(env, o)
    ensures StringOf(env, TextValue(o)) == o
  {
  }

  /** A saved text of a turn is read back, from the only spelling it is written in. */
  lemma TurnTextReads(env: Env, t: Turn, f: Field, v: Value, o: Option<string>)
    requires Says(v, t) && TurnField(t, f) == TextValue(o) && CleanOption(env, o)
    ensures StringOf(env, FieldOf(v, Camel(f))) == o
    ensures TurnText(env, v, f) == o
  {
    CleanReads(env, o);
  }

  lemma TurnTextsRead(env: Env, t: Turn, v: Value)
    requires CleanTurn(env, t) && Says(v, t)
    ensures StringOf(env, FieldOf(v, Camel(FText))) == Some(t.text) && StringOf(env, FieldOf(v, Camel(FLocale))) == t.locale
  {
    TurnTextReads(env, t, FText, v, Some(t.text));
    TurnTextReads(env, t, FLocale, v, t.locale);
  }

  lemma TurnOriginReads(env: Env, t: Turn, v: Value)
    requires CleanTurn(env, t) && Says(v, t)
    ensures TurnText(env, v, FClientRequestId) == t.clientRequestId && TurnText(env, v, FQueuedAt) == Some(t.queuedAt)
  {
    TurnTextReads(env, t, FClientRequestId, v, t.clientRequestId);
    TurnTextReads(env, t, FQueuedAt, v, Some(t.queuedAt));
  }

  lemma TurnPlaceReads(env: Env, t: Turn, v: Value)
    requires CleanTurn(env, t) && Says(v, t)
    ensures TurnText(env, v, FSessionRunId) == t.sessionRunId && TurnText(env, v, FBranchBindingId) == t.branchBindingId
  {
    TurnTextReads(env, t, FSessionRunId, v, t.sessionRunId);
    TurnTextReads(env, t, FBranchBindingId, v, t.branchBindingId);
  }

  lemma MentionsRead(env: Env, t: Turn, v: Value)
    requires CleanTurn(env, t) && Says(v, t)
    ensures Objects(ItemsOf(FieldOf(v, Camel(FMentions)))) == t.mentions.GetOr([])
  {
    assert FieldOf(v, Camel(FMentions)) == TurnField(t, FMentions);
    ObjectsShape(t.mentions.GetOr([]));
  }

  lemma TurnFrom(env: Env, v: Value, t: Turn)
    requires StringOf(env, FieldOf(v, Camel(FText))) == Some(t.text) && StringOf(env, FieldOf(v, Camel(FLocale))) == t.locale
    requires TurnText(env, v, FSessionRunId) == t.sessionRunId && TurnText(env, v, FBranchBindingId) == t.branchBindingId
    requires TurnText(env, v, FClientRequestId) == t.clientRequestId && TurnText(env, v, FQueuedAt) == Some(t.queuedAt)
    requires Objects(ItemsOf(FieldOf(v, Camel(FMentions)))) == t.mentions.GetOr([])
    requires t.mentions.Some? ==> t.mentions.value != []
    ensures TurnOf(env, v) == Some(t)
  {
  }

  lemma TurnRoundTrip(env: Env, t: Turn, v: Value)
    requires CleanTurn(env, t) && Says(v, t)
    ensures TurnOf(env, v) == Some(t)
  {
    TurnTextsRead(env, t, v);
    TurnOriginReads(env, t, v);
    TurnPlaceReads(env, t, v);
    MentionsRead(env, t, v);
    TurnFrom(env, v, t);
  }

  lemma TurnIsBack(env: Env, t: Turn, v: Value)
    requires CleanTurn(env, t) && v == TurnValue(t)
    ensures v.Obj? && TurnOf(env, v) == Some(t)
  {
    TurnValueSays(t, v);
    TurnRoundTrip(env, t, v);
  }

  lemma TurnsOfCons(env: Env, v: Value, vs: seq<Value>, t: Turn, ts: seq<Turn>)
    requires v.Obj? && TurnOf(env, v) == Some(t) && TurnsOf(env, vs) == ts
    ensures TurnsOf(env, [v] + vs) == [t] + ts
  {
    assert ([v] + vs)[1..] == vs;
  }

  lemma TurnValuesCons(ts: seq<Turn>)
    requires ts != []
    ensures TurnValues(ts) == [TurnValue(ts[0])] + TurnValues(ts[1..])
  {
  }

  lemma {:induction false} TurnsRoundTrip(env: Env, ts: seq<Turn>)
    requires CleanTurns(env, ts)
    ensures TurnsOf(env, TurnValues(ts)) == ts
    decreases |ts|
  {
    if ts != [] {
      var first, rest := ts[0], ts[1..];
      TurnIsBack(env, first, TurnValue(first));
      TurnsRoundTrip(env, rest);
      TurnValuesCons(ts);
      TurnsOfCons(env, TurnValue(first), TurnValues(rest), first, rest);
    }
  }

  /** The queue of `key` in `v` reads as it is in `qs`. */
  ghost predicate QueueReads(env: Env, qs: Queues, v: Value, key: string)
    requires v.Obj? && key in v.entries && key in qs
  {
    TurnsOf(env, ItemsOf(v.entries[key])) == qs[key] && qs[key] != []
  }

  lemma QueueIsBack(env: Env, qs: Queues, v: Value, key: string)
    requires CleanQueues(env, qs) && key in qs && v.Obj? && key in v.entries
    requires v.entries[key] == List(TurnValues(qs[key]))
    ensures QueueReads(env, qs, v, key)
  {
    TurnsRoundTrip(env, qs[key]);
  }

  lemma QueuesRoundTrip(env: Env, qs: Queues, v: Value)
    requires CleanQueues(env, qs) && v == QueuesValue(qs)
    ensures QueuesOf(env, v) == qs
  {
    forall key | key in qs ensures QueueReads(env, qs, v, key) {
      QueueIsBack(env, qs, v, key);
    }
    QueuesFrom(env, qs, v);
  }

  lemma QueuesFrom(env: Env, qs: Queues, v: Value)
    requires v.Obj? && v.entries.Keys == qs.Keys
    requires forall key :: key in qs ==> QueueReads(env, qs, v, key)
    ensures QueuesOf(env, v) == qs
  {
    forall key | key in qs ensures TurnsOf(env, ItemsOf(v.entries[key])) == qs[key] && qs[key] != [] {
      assert QueueReads(env, qs, v, key);
    }
  }

  lemma QueuesOfAreClean(env: Env, v: Value)
    requires v.Obj? && Sound(env)
    ensures CleanQueues(env, QueuesOf(env, v))
  {
    forall key | key in v.entries ensures CleanTurns(env, TurnsOf(env, ItemsOf(v.entries[key]))) {
      TurnsOfAreClean(env, ItemsOf(v.entries[key]));
    }
  }

  // ---------------------------------------------------------------------------
  // Saving
  // ---------------------------------------------------------------------------

  /** The fields that are written under one spelling only. */
  predicate OneSpelling(f: Field) {
    f in {FCursor, FStatus, FWorking, FContinuable, FRecoverable, FBranches}
  }

  /** The fields that hold a text. */
  predicate HoldsText(f: Field) {
    f.FSessionRunId? || f.FSessionId? || f.FDraftSessionId? || f.FStatus? || f.FAgentRunId? || f.FActivationId?
    || f.FBranchBindingId? || f.FMainlineState? || f.FAgentRunState? || f.FActivationState? || f.FBindingStatus?
    || f.FProjectionState? || f.FTransportState? || f.FClosedReason? || f.FStartedAt? || f.FLastError? || f.FLastStreamAt?
  }

  function Named<T>(o: Option<T>, name: T -> string): Option<string> {
    if o.Some? then Some(name(o.value)) else None
  }

  function TextIn(s: Snapshot, f: Field): Option<string>
    requires HoldsText(f)
  {
    match f
    case FSessionRunId => Some(s.sessionRunId)
    case FSessionId => s.sessionId
    case FDraftSessionId => s.draftSessionId
    case FStatus => Some(StatusName(s.status))
    case FAgentRunId => s.agentRunId
    case FActivationId => s.activationId
    case FBranchBindingId => s.branchBindingId
    case FMainlineState => Named(s.mainlineState, MainlineName)
    case FAgentRunState => s.agentRunState
    case FActivationState => Named(s.activationState, ActivationName)
    case FBindingStatus => Named(s.bindingStatus, BindingName)
    case FProjectionState => Named(s.projectionState, ProjectionName)
    case FTransportState => Named(s.transportState, TransportName)
    case FClosedReason => s.closedReason
    case FStartedAt => Some(s.startedAt)
    case FLastError => s.lastError
    case FLastStreamAt => s.lastStreamAt
  }

  function FieldValue(s: Snapshot, f: Field): Value {
    if HoldsText(f) then TextValue(TextIn(s, f)) else match f
    case FCursor => Num(s.cursor)
    case FWorking => FlagValue(s.working)
    case FContinuable => FlagValue(s.continuable)
    case FRecoverable => FlagValue(s.recoverable)
    case FEventStreamAllowed => FlagValue(s.eventStreamAllowed)
    case FReconnectAttempts => Num(s.reconnectAttempts)
    case FReconnectStartedAt => NumberValue(s.reconnectStartedAt)
    case FNextRetryAt => NumberValue(s.nextRetryAt)
    case FPendingNextTurn =>
      var head := SelectedHead(s.sessionRunId, s.branchBindingId, s.queues);
      if head.Some? then TurnValue(head.value) else Undefined
    case FPendingNextTurnsByBranch => QueuesValue(s.queues)
    case FBranches => List(s.branches)
    case _ => Undefined
  }

  function PayloadOf(s: Snapshot): Payload {
    (n: Name) => if n.Snake? && OneSpelling(n.field) then Undefined else FieldValue(s, n.field)
  }

  // ---------------------------------------------------------------------------
  // Restoring
  // ---------------------------------------------------------------------------

  /** The mainline state decides the status; the status text counts only where it does not. */
  function StatusFrom(state: Option<MainlineState>, status: SnapshotStatus): SnapshotStatus {
    if state.None? then status else
      match state.value
      case MainlineStarting => StatusStarting
      case MainlineExecuting => StatusRunning
      case MainlineWaitingUser => StatusWaitingUser
      case MainlineSettled => StatusSettled
      case MainlineBlocked => StatusBlocked
      case MainlineCancelled => StatusCancelled
      case MainlineClosed => StatusClosed
      case MainlineFailed => StatusFailed
      case MainlineUnrecoverable => StatusUnrecoverable
      case MainlineNone => status
  }

  function StatusOfTexts(mainline: Option<string>, status: Option<string>): SnapshotStatus {
    StatusFrom(if mainline.Some? then ReadMainline(mainline.value) else None, ReadStatus(status.GetOr("")))
  }

  function RestoredStatus(env: Env, p: Payload): SnapshotStatus {
    StatusOfTexts(TextOf(env, p, FMainlineState), StringOf(env, p(Camel(FStatus))))
  }

  predicate PayloadAtWork(p: Payload) {
    FlagOf(p(Camel(FWorking))) == Some(true) && FlagOf(Coalesced(p, FEventStreamAllowed)) == Some(true)
  }

  function Read<T>(text: Option<string>, read: string -> Option<T>, default: T): T {
    if text.Some? then read(text.value).GetOr(default) else default
  }

  function RestoredMainline(env: Env, p: Payload, status: SnapshotStatus): MainlineState {
    Read(TextOf(env, p, FMainlineState), ReadMainline, MainlineOfStatus(status, PayloadAtWork(p)))
  }

  function RestoredActivation(env: Env, p: Payload, status: SnapshotStatus): ActivationState {
    Read(TextOf(env, p, FActivationState), ReadActivation, ActivationOfStatus(status, PayloadAtWork(p)))
  }

  function RestoredProjection(env: Env, p: Payload, state: MainlineState, allowed: bool): ProjectionState {
    Read(TextOf(env, p, FProjectionState), ReadProjection,
         if state == MainlineUnrecoverable then ProjectionNonrecoverable
         else if state == MainlineSettled then ProjectionDrained
         else if allowed then ProjectionLive else ProjectionUnavailable)
  }

  function RestoredTransport(env: Env, p: Payload, allowed: bool): TransportState {
    Read(TextOf(env, p, FTransportState), ReadTransport,
         if !allowed then TransportDisconnected
         else if StringOf(env, p(Camel(FStatus))) == Some("reconnecting") then TransportReconnecting
         else TransportStreaming)
  }

  function PendingOf(env: Env, p: Payload): Option<Turn> {
    var camel := ObjectOf(p(Camel(FPendingNextTurn)));
    TurnOf(env, if IsEmptyObject(camel) then ObjectOf(p(Snake(FPendingNextTurn))) else camel)
  }

  function QueuesField(p: Payload): Value {
    var camel := p(Camel(FPendingNextTurnsByBranch));
    ObjectOf(if IsTruthy(camel) then camel else p(Snake(FPendingNextTurnsByBranch)))
  }

  /** The saved queues; a lone pending turn of an old payload becomes a queue where there are none. */
  function RestoredQueues(env: Env, p: Payload, run: string, branch: string): Queues {
    var queues := QueuesOf(env, QueuesField(p));
    var pending := PendingOf(env, p);
    if pending.Some? && queues == map[] then
      map[QueueKey(run, branch) := [pending.value.(sessionRunId := Some(run), branchBindingId := Some(branch))]]
    else queues
  }

  /** The facts the other fields follow from. */
  datatype Facts = Facts(status: SnapshotStatus, state: MainlineState, activation: ActivationState,
                         binding: BindingStatus, working: bool, allowed: bool)

  function FactsOf(env: Env, p: Payload): Facts {
    var status := RestoredStatus(env, p);
    var state := RestoredMainline(env, p, status);
    var activation := RestoredActivation(env, p, status);
    var binding := Read(TextOf(env, p, FBindingStatus), ReadBinding, BindingOfMainline(state));
    var working := FlagOf(p(Camel(FWorking))).GetOr(Executing(activation));
    Facts(status, state, activation, binding, working,
          FlagOf(Coalesced(p, FEventStreamAllowed)).GetOr(working && binding == BindingActive))
  }

  function Assembled(env: Env, p: Payload, run: string, branch: string, facts: Facts, queues: Queues): Snapshot {
    Snapshot(
      run, NumberOf(env, p(Camel(FCursor))).GetOr(0.0), TextOf(env, p, FSessionId), TextOf(env, p, FDraftSessionId),
      facts.status, TextOf(env, p, FAgentRunId), TextOf(env, p, FActivationId), Some(branch), Some(facts.state),
      TextOf(env, p, FAgentRunState), Some(facts.activation), Some(facts.binding),
      Some(RestoredProjection(env, p, facts.state, facts.allowed)), Some(RestoredTransport(env, p, facts.allowed)),
      Some(facts.working),
      Some(FlagOf(p(Camel(FContinuable))).GetOr(facts.state == MainlineSettled && facts.binding == BindingActive)),
      Some(FlagOf(p(Camel(FRecoverable))).GetOr(RecoverableBy(facts.binding, facts.state))),
      Some(facts.allowed), TextOf(env, p, FClosedReason), TextOf(env, p, FStartedAt).GetOr(env.now),
      NumberField(env, p, FReconnectAttempts).GetOr(0.0), NumberField(env, p, FReconnectStartedAt),
      TextOf(env, p, FLastError), TextOf(env, p, FLastStreamAt), NumberField(env, p, FNextRetryAt),
      SelectedHead(run, Some(branch), queues), queues, Objects(ItemsOf(p(Camel(FBranches)))))
  }

  /** A payload without a session run or a branch restores to nothing. */
  function Restore(env: Env, p: Payload): Option<Snapshot> {
    var run, branch := TextOf(env, p, FSessionRunId), TextOf(env, p, FBranchBindingId);
    if run.None? || branch.None? then None
    else Some(Assembled(env, p, run.value, branch.value, FactsOf(env, p), RestoredQueues(env, p, run.value, branch.value)))
  }

  // ---------------------------------------------------------------------------
  // Round trip
  // ---------------------------------------------------------------------------

  /** The status agrees with the mainline state, except that a reconnecting run may be executing. */
  predicate StatusAgrees(status: SnapshotStatus, state: MainlineState) {
    match state
    case MainlineNone => true
    case MainlineExecuting => status == StatusRunning || status == StatusReconnecting
    case _ => state == MainlineOfStatus(status, false)
  }

  /** What every restored snapshot looks like. */
  ghost predicate Restored(env: Env, s: Snapshot) {
    && CleanTexts(env, s) && HasStates(s)
    && StatusAgrees(s.status, s.mainlineState.value)
    && CleanQueues(env, s.queues)
    && s.pendingNextTurn == SelectedHead(s.sessionRunId, s.branchBindingId, s.queues)
    && AllObjects(s.branches)
  }

  ghost predicate CleanTexts(env: Env, s: Snapshot) {
    forall f | HoldsText(f) :: CleanOption(env, TextIn(s, f))
  }

  predicate HasStates(s: Snapshot) {
    && s.branchBindingId.Some? && s.mainlineState.Some? && s.activationState.Some? && s.bindingStatus.Some?
    && s.projectionState.Some? && s.transportState.Some?
    && s.working.Some? && s.continuable.Some? && s.recoverable.Some? && s.eventStreamAllowed.Some?
  }

  lemma RestoredQueuesAreClean(env: Env, p: Payload, run: string, branch: string)
    requires Sound(env) && Clean(env, run) && Clean(env, branch)
    ensures CleanQueues(env, RestoredQueues(env, p, run, branch))
  {
    QueuesOfAreClean(env, QueuesField(p));
    var camel := ObjectOf(p(Camel(FPendingNextTurn)));
    TurnOfIsClean(env, if IsEmptyObject(camel) then ObjectOf(p(Snake(FPendingNextTurn))) else camel);
  }

  lemma RestoredTexts(env: Env, p: Payload)
    requires Sound(env) && Restore(env, p).Some?
    ensures CleanTexts(env, Restore(env, p).value)
  {
    var s := Restore(env, p).value;
    StatusNameReads(s.status);
    MainlineNameReads(s.mainlineState.value);
    ActivationNameReads(s.activationState.value);
    BindingNameReads(s.bindingStatus.value);
    ProjectionNameReads(s.projectionState.value);
    TransportNameReads(s.transportState.value);
    TextsAreClean(env, s);
  }

  lemma TextsAreClean(env: Env, s: Snapshot)
    requires Clean(env, s.sessionRunId) && Clean(env, s.startedAt) && CleanOption(env, s.sessionId) && CleanOption(env, s.draftSessionId)
    requires CleanOption(env, s.agentRunId) && CleanOption(env, s.activationId) && CleanOption(env, s.branchBindingId)
    requires CleanOption(env, s.agentRunState) && CleanOption(env, s.closedReason) && CleanOption(env, s.lastError) && CleanOption(env, s.lastStreamAt)
    requires Clean(env, StatusName(s.status)) && CleanOption(env, Named(s.mainlineState, MainlineName))
    requires CleanOption(env, Named(s.activationState, ActivationName)) && CleanOption(env, Named(s.bindingStatus, BindingName))
    requires CleanOption(env, Named(s.projectionState, ProjectionName)) && CleanOption(env, Named(s.transportState, TransportName))
    ensures CleanTexts(env, s)
  {
  }

  lemma RestoredStatusAgrees(env: Env, p: Payload)
    ensures StatusAgrees(RestoredStatus(env, p), RestoredMainline(env, p, RestoredStatus(env, p)))
  {
  }

  lemma RestoringGivesRestored(env: Env, p: Payload)
    requires Sound(env) && Restore(env, p).Some?
    ensures Restored(env, Restore(env, p).value)
  {
    RestoredTexts(env, p);
    RestoredStatusAgrees(env, p);
    RestoredQueuesAreClean(env, p, TextOf(env, p, FSessionRunId).value, TextOf(env, p, FBranchBindingId).value);
    ObjectsShape(ItemsOf(p(Camel(FBranches))));
  }

  lemma SavedText(env: Env, s: Snapshot, f: Field)
    requires HoldsText(f) && CleanOption(env, TextIn(s, f))
    ensures StringOf(env, PayloadOf(s)(Camel(f))) == TextIn(s, f)
    ensures TextOf(env, PayloadOf(s), f) == TextIn(s, f)
  {
    CleanReads(env, TextIn(s, f));
  }

  /** The exception: a reconnecting snapshot whose mainline is executing comes back as running. */
  function Settled(s: Snapshot): Snapshot {
    if s.status == StatusReconnecting && s.mainlineState == Some(MainlineExecuting) then s.(status := StatusRunning) else s
  }

  /** Reading `p` gives the texts of `s`. */
  ghost predicate ReadsTexts(env: Env, p: Payload, s: Snapshot) {
    && (forall f | HoldsText(f) :: TextOf(env, p, f) == TextIn(s, f))
    && StringOf(env, p(Camel(FStatus))) == TextIn(s, FStatus)
  }

  lemma SavedTexts(env: Env, s: Snapshot)
    requires CleanTexts(env, s)
    ensures ReadsTexts(env, PayloadOf(s), s)
  {
    forall f | HoldsText(f)
      ensures TextOf(env, PayloadOf(s), f) == TextIn(s, f)
      ensures StringOf(env, PayloadOf(s)(Camel(f))) == TextIn(s, f)
    {
      SavedText(env, s, f);
    }
  }

  lemma StatusFromAgrees(state: MainlineState, status: SnapshotStatus)
    requires StatusAgrees(status, state)
    ensures StatusFrom(Some(state), status)
         == if status == StatusReconnecting && state == MainlineExecuting then StatusRunning else status
  {
  }

  lemma NamesGiveStatus(state: MainlineState, status: SnapshotStatus)
    ensures StatusOfTexts(Some(MainlineName(state)), Some(StatusName(status))) == StatusFrom(Some(state), status)
  {
    MainlineNameReads(state);
    StatusNameReads(status);
  }

  lemma SavedStatus(env: Env, p: Payload, s: Snapshot)
    requires ReadsTexts(env, p, s) && HasStates(s) && StatusAgrees(s.status, s.mainlineState.value)
    ensures RestoredStatus(env, p) == Settled(s).status
  {
    SavedName(env, p, s, FMainlineState, MainlineName(s.mainlineState.value));
    NamesGiveStatus(s.mainlineState.value, s.status);
    StatusFromAgrees(s.mainlineState.value, s.status);
  }

  lemma SavedName(env: Env, p: Payload, s: Snapshot, f: Field, name: string)
    requires ReadsTexts(env, p, s) && HoldsText(f) && TextIn(s, f) == Some(name)
    ensures TextOf(env, p, f) == Some(name)
  {
  }

  lemma SavedMainline(env: Env, p: Payload, s: Snapshot)
    requires ReadsTexts(env, p, s) && HasStates(s)
    ensures forall status :: RestoredMainline(env, p, status) == s.mainlineState.value
  {
    MainlineNameReads(s.mainlineState.value);
    SavedName(env, p, s, FMainlineState, MainlineName(s.mainlineState.value));
  }

  lemma SavedActivation(env: Env, p: Payload, s: Snapshot)
    requires ReadsTexts(env, p, s) && HasStates(s)
    ensures forall status :: RestoredActivation(env, p, status) == s.activationState.value
  {
    ActivationNameReads(s.activationState.value);
    SavedName(env, p, s, FActivationState, ActivationName(s.activationState.value));
  }

  lemma SavedBinding(env: Env, p: Payload, s: Snapshot)
    requires ReadsTexts(env, p, s) && HasStates(s)
    ensures forall d :: Read(TextOf(env, p, FBindingStatus), ReadBinding, d) == s.bindingStatus.value
  {
    BindingNameReads(s.bindingStatus.value);
    SavedName(env, p, s, FBindingStatus, BindingName(s.bindingStatus.value));
  }

  lemma SavedProjection(env: Env, p: Payload, s: Snapshot)
    requires ReadsTexts(env, p, s) && HasStates(s)
    ensures forall st, a :: RestoredProjection(env, p, st, a) == s.projectionState.value
  {
    ProjectionNameReads(s.projectionState.value);
    SavedName(env, p, s, FProjectionState, ProjectionName(s.projectionState.value));
  }

  lemma SavedTransport(env: Env, p: Payload, s: Snapshot)
    requires ReadsTexts(env, p, s) && HasStates(s)
    ensures forall a :: RestoredTransport(env, p, a) == s.transportState.value
  {
    TransportNameReads(s.transportState.value);
    SavedName(env, p, s, FTransportState, TransportName(s.transportState.value));
  }

  /** Reading `p` gives the other fields of `s`. */
  ghost predicate ReadsRest(env: Env, p: Payload, s: Snapshot) {
    && NumberOf(env, p(Camel(FCursor))) == Some(s.cursor)
    && NumberField(env, p, FReconnectAttempts) == Some(s.reconnectAttempts)
    && NumberField(env, p, FReconnectStartedAt) == s.reconnectStartedAt
    && NumberField(env, p, FNextRetryAt) == s.nextRetryAt
    && FlagOf(p(Camel(FWorking))) == s.working && FlagOf(p(Camel(FContinuable))) == s.continuable
    && FlagOf(p(Camel(FRecoverable))) == s.recoverable && FlagOf(Coalesced(p, FEventStreamAllowed)) == s.eventStreamAllowed
    && Objects(ItemsOf(p(Camel(FBranches)))) == s.branches
  }

  lemma FieldIsSaved(s: Snapshot, f: Field)
    ensures PayloadOf(s)(Camel(f)) == FieldValue(s, f)
    ensures PayloadOf(s)(Snake(f)) == if OneSpelling(f) then Undefined else FieldValue(s, f)
  {
  }

  lemma SavedNumbers(env: Env, s: Snapshot, p: Payload)
    requires p == PayloadOf(s)
    ensures NumberOf(env, p(Camel(FCursor))) == Some(s.cursor)
    ensures NumberField(env, p, FReconnectAttempts) == Some(s.reconnectAttempts)
    ensures NumberField(env, p, FReconnectStartedAt) == s.reconnectStartedAt
    ensures NumberField(env, p, FNextRetryAt) == s.nextRetryAt
  {
    FieldIsSaved(s, FCursor);
    FieldIsSaved(s, FReconnectAttempts);
    FieldIsSaved(s, FReconnectStartedAt);
    FieldIsSaved(s, FNextRetryAt);
  }

  lemma SavedFlags(s: Snapshot, p: Payload)
    requires p == PayloadOf(s)
    ensures FlagOf(p(Camel(FWorking))) == s.working && FlagOf(p(Camel(FContinuable))) == s.continuable
    ensures FlagOf(p(Camel(FRecoverable))) == s.recoverable && FlagOf(Coalesced(p, FEventStreamAllowed)) == s.eventStreamAllowed
  {
    FieldIsSaved(s, FWorking);
    FieldIsSaved(s, FContinuable);
    FieldIsSaved(s, FRecoverable);
    FieldIsSaved(s, FEventStreamAllowed);
  }

  lemma SavedBranches(s: Snapshot, p: Payload)
    requires p == PayloadOf(s) && AllObjects(s.branches)
    ensures Objects(ItemsOf(p(Camel(FBranches)))) == s.branches
  {
    FieldIsSaved(s, FBranches);
    ObjectsShape(s.branches);
  }

  lemma SavedRest(env: Env, s: Snapshot, p: Payload)
    requires p == PayloadOf(s) && AllObjects(s.branches)
    ensures ReadsRest(env, p, s)
  {
    SavedNumbers(env, s, p);
    SavedFlags(s, p);
    SavedBranches(s, p);
  }

  /** Where there are no queues there is no pending turn that could be taken for one. */
  lemma SavedPending(env: Env, s: Snapshot, p: Payload)
    requires p == PayloadOf(s) && s.queues == map[]
    ensures PendingOf(env, p) == None
  {
    FieldIsSaved(s, FPendingNextTurn);
    assert SelectedHead(s.sessionRunId, s.branchBindingId, s.queues) == None;
  }

  lemma QueuesFieldOf(p: Payload, v: Value)
    requires v.Obj? && p(Camel(FPendingNextTurnsByBranch)) == v
    ensures QueuesField(p) == v
  {
  }

  lemma SavedQueuesField(s: Snapshot, p: Payload, v: Value)
    requires p == PayloadOf(s) && v == FieldValue(s, FPendingNextTurnsByBranch)
    ensures v == QueuesValue(s.queues)
    ensures QueuesField(p) == v
  {
    FieldIsSaved(s, FPendingNextTurnsByBranch);
    QueuesFieldOf(p, v);
  }

  lemma SavedQueues(env: Env, s: Snapshot, p: Payload, run: string, branch: string)
    requires p == PayloadOf(s) && CleanQueues(env, s.queues)
    ensures RestoredQueues(env, p, run, branch) == s.queues
  {
    QueuesRoundTrip(env, s.queues, QueuesValue(s.queues));
    SavedQueuesField(s, p, FieldValue(s, FPendingNextTurnsByBranch));
    if s.queues == map[] {
      SavedPending(env, s, p);
    }
  }

  lemma SavedFacts(env: Env, p: Payload, s: Snapshot)
    requires ReadsTexts(env, p, s) && ReadsRest(env, p, s) && HasStates(s)
    requires StatusAgrees(s.status, s.mainlineState.value)
    ensures FactsOf(env, p) == Facts(Settled(s).status, s.mainlineState.value, s.activationState.value,
                                     s.bindingStatus.value, s.working.value, s.eventStreamAllowed.value)
  {
    SavedStatus(env, p, s);
    SavedMainline(env, p, s);
    SavedActivation(env, p, s);
    SavedBinding(env, p, s);
  }

  lemma TextReads(env: Env, p: Payload, s: Snapshot, f: Field, o: Option<string>)
    requires ReadsTexts(env, p, s) && HoldsText(f) && TextIn(s, f) == o
    ensures TextOf(env, p, f) == o
  {
  }

  lemma AssembledIds(env: Env, p: Payload, s: Snapshot, a: Snapshot, facts: Facts)
    requires ReadsTexts(env, p, s) && s.branchBindingId.Some?
    requires a == Assembled(env, p, s.sessionRunId, s.branchBindingId.value, facts, s.queues)
    ensures a.sessionRunId == s.sessionRunId && a.branchBindingId == s.branchBindingId && a.queues == s.queues
    ensures a.sessionId == s.sessionId && a.draftSessionId == s.draftSessionId && a.agentRunId == s.agentRunId
  {
  }

  lemma AssembledFields(env: Env, p: Payload, run: string, branch: string, a: Snapshot, facts: Facts, queues: Queues)
    requires a == Assembled(env, p, run, branch, facts, queues)
    ensures a.activationId == TextOf(env, p, FActivationId) && a.agentRunState == TextOf(env, p, FAgentRunState)
    ensures a.closedReason == TextOf(env, p, FClosedReason) && a.startedAt == TextOf(env, p, FStartedAt).GetOr(env.now)
    ensures a.lastError == TextOf(env, p, FLastError) && a.lastStreamAt == TextOf(env, p, FLastStreamAt)
  {
  }

  lemma AssembledTexts(env: Env, p: Payload, s: Snapshot, a: Snapshot, facts: Facts)
    requires ReadsTexts(env, p, s) && s.branchBindingId.Some?
    requires a == Assembled(env, p, s.sessionRunId, s.branchBindingId.value, facts, s.queues)
    ensures a.activationId == s.activationId && a.agentRunState == s.agentRunState && a.closedReason == s.closedReason
    ensures a.startedAt == s.startedAt && a.lastError == s.lastError && a.lastStreamAt == s.lastStreamAt
  {
    AssembledFields(env, p, s.sessionRunId, s.branchBindingId.value, a, facts, s.queues);
    StateTextsRead(env, p, s);
    TimeTextsRead(env, p, s);
  }

  lemma StateTextsRead(env: Env, p: Payload, s: Snapshot)
    requires ReadsTexts(env, p, s)
    ensures TextOf(env, p, FActivationId) == s.activationId && TextOf(env, p, FAgentRunState) == s.agentRunState
    ensures TextOf(env, p, FClosedReason) == s.closedReason
  {
    TextReads(env, p, s, FActivationId, s.activationId);
    TextReads(env, p, s, FAgentRunState, s.agentRunState);
    TextReads(env, p, s, FClosedReason, s.closedReason);
  }

  lemma TimeTextsRead(env: Env, p: Payload, s: Snapshot)
    requires ReadsTexts(env, p, s)
    ensures TextOf(env, p, FStartedAt) == Some(s.startedAt) && TextOf(env, p, FLastError) == s.lastError
    ensures TextOf(env, p, FLastStreamAt) == s.lastStreamAt
  {
    TextReads(env, p, s, FStartedAt, Some(s.startedAt));
    TextReads(env, p, s, FLastError, s.lastError);
    TextReads(env, p, s, FLastStreamAt, s.lastStreamAt);
  }

  lemma AssembledRest(env: Env, p: Payload, s: Snapshot, a: Snapshot, facts: Facts)
    requires ReadsRest(env, p, s) && HasStates(s)
    requires a == Assembled(env, p, s.sessionRunId, s.branchBindingId.value, facts, s.queues)
    ensures a.cursor == s.cursor && a.reconnectAttempts == s.reconnectAttempts && a.branches == s.branches
    ensures a.reconnectStartedAt == s.reconnectStartedAt && a.nextRetryAt == s.nextRetryAt
    ensures a.continuable == s.continuable && a.recoverable == s.recoverable
    ensures a.pendingNextTurn == SelectedHead(s.sessionRunId, s.branchBindingId, s.queues)
  {
  }

  lemma AssembledStates(env: Env, p: Payload, s: Snapshot, a: Snapshot, facts: Facts)
    requires ReadsTexts(env, p, s) && HasStates(s)
    requires a == Assembled(env, p, s.sessionRunId, s.branchBindingId.value, facts, s.queues)
    ensures a.status == facts.status && a.mainlineState == Some(facts.state) && a.activationState == Some(facts.activation)
    ensures a.bindingStatus == Some(facts.binding) && a.working == Some(facts.working)
    ensures a.eventStreamAllowed == Some(facts.allowed)
    ensures a.projectionState == s.projectionState && a.transportState == s.transportState
  {
    SavedProjection(env, p, s);
    SavedTransport(env, p, s);
  }

  lemma SavedAssembled(env: Env, p: Payload, s: Snapshot, a: Snapshot, facts: Facts)
    requires ReadsTexts(env, p, s) && ReadsRest(env, p, s) && HasStates(s)
    requires facts == Facts(Settled(s).status, s.mainlineState.value, s.activationState.value,
                            s.bindingStatus.value, s.working.value, s.eventStreamAllowed.value)
    requires s.pendingNextTurn == SelectedHead(s.sessionRunId, s.branchBindingId, s.queues)
    requires a == Assembled(env, p, s.sessionRunId, s.branchBindingId.value, facts, s.queues)
    ensures a == Settled(s)
  {
    AssembledIds(env, p, s, a, facts);
    AssembledTexts(env, p, s, a, facts);
    AssembledRest(env, p, s, a, facts);
    AssembledStates(env, p, s, a, facts);
  }

  lemma RestoreFrom(env: Env, p: Payload, run: string, branch: string, facts: Facts, queues: Queues)
    requires TextOf(env, p, FSessionRunId) == Some(run) && TextOf(env, p, FBranchBindingId) == Some(branch)
    requires FactsOf(env, p) == facts && RestoredQueues(env, p, run, branch) == queues
    ensures Restore(env, p) == Some(Assembled(env, p, run, branch, facts, queues))
  {
  }

  lemma SavedPlace(env: Env, p: Payload, s: Snapshot)
    requires ReadsTexts(env, p, s) && s.branchBindingId.Some?
    ensures TextOf(env, p, FSessionRunId) == Some(s.sessionRunId)
    ensures TextOf(env, p, FBranchBindingId) == Some(s.branchBindingId.value)
  {
    SavedName(env, p, s, FSessionRunId, s.sessionRunId);
    SavedName(env, p, s, FBranchBindingId, s.branchBindingId.value);
  }

  lemma ReadsTheWhole(env: Env, p: Payload, s: Snapshot, facts: Facts, a: Snapshot)
    requires ReadsTexts(env, p, s) && ReadsRest(env, p, s) && HasStates(s)
    requires StatusAgrees(s.status, s.mainlineState.value)
    requires RestoredQueues(env, p, s.sessionRunId, s.branchBindingId.value) == s.queues
    requires s.pendingNextTurn == SelectedHead(s.sessionRunId, s.branchBindingId, s.queues)
    requires facts == Facts(Settled(s).status, s.mainlineState.value, s.activationState.value,
                            s.bindingStatus.value, s.working.value, s.eventStreamAllowed.value)
    requires a == Assembled(env, p, s.sessionRunId, s.branchBindingId.value, facts, s.queues)
    ensures Restore(env, p) == Some(Settled(s))
  {
    SavedPlace(env, p, s);
    SavedFacts(env, p, s);
    SavedAssembled(env, p, s, a, facts);
    RestoreFrom(env, p, s.sessionRunId, s.branchBindingId.value, facts, s.queues);
  }

  lemma RestoredIsSaved(env: Env, s: Snapshot, p: Payload)
    requires Restored(env, s) && p == PayloadOf(s)
    ensures Restore(env, p) == Some(Settled(s))
  {
    SavedTexts(env, s);
    SavedRest(env, s, p);
    SavedQueues(env, s, p, s.sessionRunId, s.branchBindingId.value);
    var facts := Facts(Settled(s).status, s.mainlineState.value, s.activationState.value,
                       s.bindingStatus.value, s.working.value, s.eventStreamAllowed.value);
    ReadsTheWhole(env, p, s, facts, Assembled(env, p, s.sessionRunId, s.branchBindingId.value, facts, s.queues));
  }

  lemma RestoredByEither(first: Env, second: Env, s: Snapshot)
    requires Restored(first, s) && first.trim == second.trim
    ensures Restored(second, s)
  {
  }

  /** Saving a restored snapshot and restoring it gives it back in every field, all queues included,
      whatever time it is by then; only a reconnecting snapshot that is executing comes back as running. */
  lemma SavedIsRestored(first: Env, second: Env, p: Payload, s: Snapshot)
    requires Sound(first) && first.trim == second.trim && Restore(first, p) == Some(s)
    ensures Restore(second, PayloadOf(s)) == Some(Settled(s))
  {
    RestoringGivesRestored(first, p);
    RestoredByEither(first, second, s);
    RestoredIsSaved(second, s, PayloadOf(s));
  }

  /** A payload of a run that was reconnecting while at work, without any recorded states. */
  function ReconnectingPayload(run: string, branch: string): Payload {
    (n: Name) =>
      if n == Camel(FSessionRunId) then Str(run)
      else if n == Camel(FBranchBindingId) then Str(branch)
      else if n == Camel(FStatus) then Str(StatusName(StatusReconnecting))
      else if n == Camel(FWorking) || n == Camel(FEventStreamAllowed) then Flag(true)
      else Undefined
  }

  lemma ReconnectingPayloadReads(env: Env, run: string, branch: string, p: Payload)
    requires Sound(env) && Clean(env, run) && Clean(env, branch) && p == ReconnectingPayload(run, branch)
    ensures TextOf(env, p, FSessionRunId) == Some(run) && TextOf(env, p, FBranchBindingId) == Some(branch)
    ensures StringOf(env, p(Camel(FStatus))) == Some(StatusName(StatusReconnecting))
    ensures TextOf(env, p, FMainlineState) == None
    ensures PayloadAtWork(p)
  {
    assert Clean(env, StatusName(StatusReconnecting));
  }

  lemma ReconnectingFacts(env: Env, p: Payload)
    requires StringOf(env, p(Camel(FStatus))) == Some(StatusName(StatusReconnecting))
    requires TextOf(env, p, FMainlineState) == None && PayloadAtWork(p)
    ensures FactsOf(env, p).status == StatusReconnecting && FactsOf(env, p).state == MainlineExecuting
  {
    StatusNameReads(StatusReconnecting);
  }

  /** The exception does occur: such a payload restores to a reconnecting snapshot, which comes back running. */
  lemma ReconnectingComesBackRunning(env: Env, run: string, branch: string, p: Payload)
    requires Sound(env) && Clean(env, run) && Clean(env, branch) && p == ReconnectingPayload(run, branch)
    ensures Restore(env, p).Some? && Restore(env, p).value.status == StatusReconnecting
    ensures Settled(Restore(env, p).value).status == StatusRunning
  {
    ReconnectingPayloadReads(env, run, branch, p);
    ReconnectingFacts(env, p);
    RestoredFacts(env, p, run, branch, FactsOf(env, p), RestoredQueues(env, p, run, branch));
  }

  lemma RestoredFacts(env: Env, p: Payload, run: string, branch: string, facts: Facts, queues: Queues)
    requires TextOf(env, p, FSessionRunId) == Some(run) && TextOf(env, p, FBranchBindingId) == Some(branch)
    requires FactsOf(env, p) == facts && RestoredQueues(env, p, run, branch) == queues
    ensures Restore(env, p).Some?
    ensures Restore(env, p).value.status == facts.status && Restore(env, p).value.mainlineState == Some(facts.state)
  {
    RestoreFrom(env, p, run, branch, facts, queues);
  }

  /** Once settled, a snapshot comes back as it is, however often it is saved. */
  lemma SavingIsStable(env: Env, s: Snapshot, settled: Snapshot)
    requires Sound(env) && Restored(env, s) && settled == Settled(s)
    ensures Restore(env, PayloadOf(settled)) == Some(settled)
  {
    SettledIsRestored(env, s, settled);
    RestoredIsSaved(env, settled, PayloadOf(settled));
  }

  lemma SettledTexts(env: Env, s: Snapshot, settled: Snapshot, f: Field)
    requires CleanTexts(env, s) && HoldsText(f) && settled == s.(status := StatusRunning)
    requires Clean(env, StatusName(StatusRunning))
    ensures CleanOption(env, TextIn(settled, f))
  {
    assert CleanOption(env, TextIn(s, f));
  }

  lemma SettledIsRestored(env: Env, s: Snapshot, settled: Snapshot)
    requires Sound(env) && Restored(env, s) && settled == Settled(s)
    ensures Restored(env, settled)
  {
    if settled != s {
      forall f | HoldsText(f) ensures CleanOption(env, TextIn(settled, f)) {
        SettledTexts(env, s, settled, f);
      }
    }
  }
}
