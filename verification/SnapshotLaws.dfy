// What normalizing a snapshot and restoring a payload derive, fact by fact.

module SnapshotLaws {
  import opened Wrappers
  import opened MainlineSnapshot
  import opened PendingTurnQueues
  import opened SnapshotPersistence
  import opened SnapshotRoundTrip

  // ---------------------------------------------------------------------------
  // Normalizing
  // ---------------------------------------------------------------------------

  /** The mainline state a status stands for; a reconnecting run is executing only while it is at work. */
  lemma StateForStatus(s: Snapshot)
    requires Present(s.branchBindingId)
    ensures var n := Normalize(s).value;
      && n.mainlineState.Some?
      && (s.mainlineState.Some? ==> n.mainlineState == s.mainlineState)
      && (s.mainlineState.None? ==> n.mainlineState.value == match s.status
            case StatusStarting => MainlineStarting case StatusRunning => MainlineExecuting
            case StatusSettled => MainlineSettled case StatusWaitingUser => MainlineWaitingUser
            case StatusBlocked => MainlineBlocked case StatusClosed => MainlineClosed
            case StatusCancelled => MainlineCancelled case StatusFailed => MainlineFailed
            case StatusUnrecoverable => MainlineUnrecoverable
            case StatusReconnecting =>
              if s.working == Some(true) && s.eventStreamAllowed == Some(true) then MainlineExecuting else MainlineNone)
  {
  }

  /** And the activation. */
  lemma ActivationForStatus(s: Snapshot)
    requires Present(s.branchBindingId)
    ensures var n := Normalize(s).value;
      && n.activationState.Some?
      && (s.activationState.Some? ==> n.activationState == s.activationState)
      && (s.activationState.None? ==> n.activationState.value == match s.status
            case StatusStarting => ActivationQueued case StatusRunning => ActivationRunning
            case StatusSettled => ActivationCompleted case StatusWaitingUser => ActivationWaitingUser
            case StatusBlocked => ActivationBlocked case StatusCancelled => ActivationCancelled
            case StatusFailed => ActivationFailed case StatusUnrecoverable => ActivationFailed
            case StatusClosed => ActivationNone
            case StatusReconnecting =>
              if s.working == Some(true) && s.eventStreamAllowed == Some(true) then ActivationRunning else ActivationNone)
  {
  }

  /** The binding follows the mainline state: none without one, closed once it is over, active otherwise. */
  lemma BindingForState(s: Snapshot)
    requires Present(s.branchBindingId)
    ensures var n := Normalize(s).value;
      && n.bindingStatus.Some? && n.mainlineState.Some?
      && (s.bindingStatus.Some? ==> n.bindingStatus == s.bindingStatus)
      && (s.bindingStatus.None? ==>
            n.bindingStatus.value ==
              if n.mainlineState.value == MainlineNone then BindingNone
              else if n.mainlineState.value in {MainlineClosed, MainlineCancelled, MainlineFailed, MainlineUnrecoverable} then BindingClosed
              else BindingActive)
  {
  }

  /** The flags that are not given follow from activation, state and binding. */
  lemma FlagsFollow(s: Snapshot)
    requires Present(s.branchBindingId)
    ensures var n := Normalize(s).value;
      && n.mainlineState.Some? && n.activationState.Some? && n.bindingStatus.Some?
      && var state, binding := n.mainlineState.value, n.bindingStatus.value;
         var executing := n.activationState.value in {ActivationQueued, ActivationDispatched, ActivationRunning, ActivationWaitingServer};
      && n.working == Some(if s.working.Some? then s.working.value else executing)
      && n.continuable == Some(if s.continuable.Some? then s.continuable.value
                               else state == MainlineSettled && binding == BindingActive)
      && (s.recoverable.Some? ==> n.recoverable == s.recoverable)
      && (s.recoverable.None? ==>
            n.recoverable == Some(binding == BindingActive
                                  && state !in {MainlineCancelled, MainlineClosed, MainlineFailed, MainlineUnrecoverable}))
      && n.eventStreamAllowed == Some(if s.eventStreamAllowed.Some? then s.eventStreamAllowed.value
                                      else n.working == Some(true) && binding == BindingActive)
  {
  }

  /** So do projection and transport. */
  lemma StreamsFollow(s: Snapshot)
    requires Present(s.branchBindingId)
    ensures var n := Normalize(s).value;
      && n.eventStreamAllowed.Some?
      && n.projectionState == Some(if s.projectionState.Some? then s.projectionState.value
                                   else if n.mainlineState == Some(MainlineSettled) then ProjectionDrained
                                   else if n.eventStreamAllowed.value then ProjectionLive else ProjectionUnavailable)
      && n.transportState == Some(if s.transportState.Some? then s.transportState.value
                                  else if !n.eventStreamAllowed.value then TransportDisconnected
                                  else if s.status == StatusReconnecting then TransportReconnecting else TransportStreaming)
  {
  }

  /** The status is brought in line with activation and mainline state: reconnecting stays while executing; an
      activation that executes counts as running, unless the mainline is starting; without either it stays. */
  lemma StatusFollows(s: Snapshot)
    requires Present(s.branchBindingId)
    ensures var n := Normalize(s).value;
      && n.mainlineState.Some? && n.activationState.Some?
      && var executing := n.activationState.value in {ActivationQueued, ActivationDispatched, ActivationRunning, ActivationWaitingServer};
         n.status ==
           if s.status == StatusReconnecting && executing then StatusReconnecting
           else if n.mainlineState.value != MainlineStarting && executing then StatusRunning
           else match n.mainlineState.value
             case MainlineStarting => StatusStarting case MainlineExecuting => StatusRunning
             case MainlineSettled => StatusSettled case MainlineWaitingUser => StatusWaitingUser
             case MainlineBlocked => StatusBlocked case MainlineClosed => StatusClosed
             case MainlineCancelled => StatusCancelled case MainlineFailed => StatusFailed
             case MainlineUnrecoverable => StatusUnrecoverable case MainlineNone => s.status
  {
  }

  /** Nothing else changes but the queues, which take up a lone turn where there are none, and the pending turn. */
  lemma NormalizeKeepsTheRest(s: Snapshot)
    requires Present(s.branchBindingId)
    ensures var n, key := Normalize(s).value, s.sessionRunId + ":" + s.branchBindingId.value;
      && n == s.(status := n.status, mainlineState := n.mainlineState, activationState := n.activationState,
                 bindingStatus := n.bindingStatus, working := n.working, continuable := n.continuable,
                 recoverable := n.recoverable, eventStreamAllowed := n.eventStreamAllowed,
                 projectionState := n.projectionState, transportState := n.transportState,
                 queues := n.queues, pendingNextTurn := n.pendingNextTurn)
      && n.queues == (if s.pendingNextTurn.Some? && s.queues == map[] then
           map[key := [s.pendingNextTurn.value.(sessionRunId := Some(s.sessionRunId), branchBindingId := s.branchBindingId)]]
         else s.queues)
      && n.pendingNextTurn == (if key in n.queues && n.queues[key] != [] then Some(n.queues[key][0]) else None)
  {
  }

  // ---------------------------------------------------------------------------
  // Reading
  // ---------------------------------------------------------------------------

  /** A text is read under its camel-case name, trimmed, and, where that gives nothing, under the other. */
  lemma TextIsRead(env: Env, p: Payload, f: Field)
    ensures var camel := if p(Camel(f)).Str? then env.trim(p(Camel(f)).text) else "";
      var snake := if p(Snake(f)).Str? then env.trim(p(Snake(f)).text) else "";
      TextOf(env, p, f) == if camel != "" then Some(camel) else if snake != "" then Some(snake) else None
  {
  }

  /** A number is read as it is or off a text that is not blank, under either name. */
  lemma NumberIsRead(env: Env, p: Payload, f: Field)
    ensures p(Camel(f)).Num? ==> NumberField(env, p, f) == Some(p(Camel(f)).number)
    ensures p(Camel(f)) == Undefined && p(Snake(f)).Num? ==> NumberField(env, p, f) == Some(p(Snake(f)).number)
    ensures p(Camel(f)).Str? && env.trim(p(Camel(f)).text) != "" && env.parseNumber(p(Camel(f)).text).Some? ==>
      NumberField(env, p, f) == env.parseNumber(p(Camel(f)).text)
  {
  }

  /** A turn is read under both spellings, but for its text, its locale and its mentions; it needs a text, and
      without a queue time of its own it gets the present one. */
  lemma TurnIsRead(env: Env, v: Value)
    ensures var text := StringOf(env, FieldOf(v, Camel(FText)));
      && (TurnOf(env, v).Some? <==> text.Some?)
      && (text.Some? ==>
            var t := TurnOf(env, v).value;
            && t.text == text.value
            && t.sessionRunId == First(StringOf(env, FieldOf(v, Camel(FSessionRunId))), StringOf(env, FieldOf(v, Snake(FSessionRunId))))
            && t.branchBindingId == First(StringOf(env, FieldOf(v, Camel(FBranchBindingId))), StringOf(env, FieldOf(v, Snake(FBranchBindingId))))
            && t.clientRequestId == First(StringOf(env, FieldOf(v, Camel(FClientRequestId))), StringOf(env, FieldOf(v, Snake(FClientRequestId))))
            && t.locale == StringOf(env, FieldOf(v, Camel(FLocale)))
            && (t.mentions.Some? ==> t.mentions.value != [])
            && Some(t.queuedAt) == First(First(StringOf(env, FieldOf(v, Camel(FQueuedAt))), StringOf(env, FieldOf(v, Snake(FQueuedAt)))), Some(env.now)))
  {
  }

  // ---------------------------------------------------------------------------
  // Saving
  // ---------------------------------------------------------------------------

  /** Every field is written under both names, but for cursor, status, working, continuable, recoverable and
      branches, which are written under the camel-case name only. */
  lemma BothNamesAreWritten(s: Snapshot, f: Field)
    ensures var p := PayloadOf(s);
      if f in {FCursor, FStatus, FWorking, FContinuable, FRecoverable, FBranches} then p(Snake(f)) == Undefined
      else p(Snake(f)) == p(Camel(f))
  {
  }

  lemma HeadIs(run: string, branch: Option<string>, queues: Queues)
    ensures var key := run + ":" + branch.GetOr("");
      SelectedHead(run, branch, queues) ==
        if Present(branch) && key in queues && queues[key] != [] then Some(queues[key][0]) else None
  {
  }

  /** The pending turn that is written is the head of the selected branch's queue, whatever the snapshot holds
      in its place; without a head none is written. */
  lemma HeadIsWritten(s: Snapshot, key: string, p: Payload)
    requires key == s.sessionRunId + ":" + s.branchBindingId.GetOr("") && p == PayloadOf(s)
    ensures Present(s.branchBindingId) && key in s.queues && s.queues[key] != [] ==>
      p(Camel(FPendingNextTurn)) == TurnValue(s.queues[key][0])
    ensures !Present(s.branchBindingId) || key !in s.queues || s.queues[key] == [] ==> p(Camel(FPendingNextTurn)) == Undefined
  {
    HeadIs(s.sessionRunId, s.branchBindingId, s.queues);
    HeadValue(s, SelectedHead(s.sessionRunId, s.branchBindingId, s.queues), p);
  }

  lemma HeadValue(s: Snapshot, head: Option<Turn>, p: Payload)
    requires head == SelectedHead(s.sessionRunId, s.branchBindingId, s.queues) && p == PayloadOf(s)
    ensures p(Camel(FPendingNextTurn)) == if head.Some? then TurnValue(head.value) else Undefined
  {
    FieldIsSaved(s, FPendingNextTurn);
  }

  // ---------------------------------------------------------------------------
  // Restoring
  // ---------------------------------------------------------------------------

  /** The words a status may be saved under; any other counts as running. */
  lemma StatusWords(word: string)
    ensures word == "starting" ==> ReadStatus(word) == StatusStarting
    ensures word == "reconnecting" ==> ReadStatus(word) == StatusReconnecting
    ensures word in {"settled", "done", "completed", "complete", "success", "idle"} ==> ReadStatus(word) == StatusSettled
    ensures word == "waiting_user" ==> ReadStatus(word) == StatusWaitingUser
    ensures word == "blocked" ==> ReadStatus(word) == StatusBlocked
    ensures word in {"cancelled", "canceled"} ==> ReadStatus(word) == StatusCancelled
    ensures word == "closed" ==> ReadStatus(word) == StatusClosed
    ensures word in {"failed", "failure", "error", "interrupted"} ==> ReadStatus(word) == StatusFailed
    ensures word == "unrecoverable" ==> ReadStatus(word) == StatusUnrecoverable
    ensures word in {"running", "queued", "waiting", "stopping", ""} ==> ReadStatus(word) == StatusRunning
    ensures ReadStatus(word) != StatusRunning ==>
      word in {"starting", "reconnecting", "settled", "done", "completed", "complete", "success", "idle", "waiting_user", "blocked",
               "cancelled", "canceled", "closed", "failed", "failure", "error", "interrupted", "unrecoverable"}
  {
  }

  /** A payload restores exactly if it names a run and a branch. */
  lemma RestoresIff(env: Env, p: Payload)
    ensures Restore(env, p).Some? <==> TextOf(env, p, FSessionRunId).Some? && TextOf(env, p, FBranchBindingId).Some?
  {
  }

  /** What a payload does not say is absent, zero or the present time. */
  lemma AbsentDefaults(env: Env, p: Payload)
    requires Restore(env, p).Some?
    ensures var s := Restore(env, p).value;
      && s.cursor == NumberOf(env, p(Camel(FCursor))).GetOr(0.0)
      && s.reconnectAttempts == NumberField(env, p, FReconnectAttempts).GetOr(0.0)
      && s.startedAt == TextOf(env, p, FStartedAt).GetOr(env.now)
  {
  }

  /** A payload without states gets those its status stands for; the status is the one its mainline state, if
      it has one other than none, stands for, else the one its word does. */
  lemma StatesAreDerived(env: Env, p: Payload)
    requires Restore(env, p).Some? && TextOf(env, p, FMainlineState) == None && TextOf(env, p, FActivationState) == None
    ensures var s := Restore(env, p).value;
      var atWork := p(Camel(FWorking)) == Flag(true) && FlagOf(Coalesced(p, FEventStreamAllowed)) == Some(true);
      && s.status == ReadStatus(StringOf(env, p(Camel(FStatus))).GetOr(""))
      && s.mainlineState == Some(match s.status
            case StatusStarting => MainlineStarting case StatusRunning => MainlineExecuting
            case StatusSettled => MainlineSettled case StatusWaitingUser => MainlineWaitingUser
            case StatusBlocked => MainlineBlocked case StatusClosed => MainlineClosed
            case StatusCancelled => MainlineCancelled case StatusFailed => MainlineFailed
            case StatusUnrecoverable => MainlineUnrecoverable
            case StatusReconnecting => if atWork then MainlineExecuting else MainlineNone)
      && s.activationState == Some(match s.status
            case StatusStarting => ActivationQueued case StatusRunning => ActivationRunning
            case StatusSettled => ActivationCompleted case StatusWaitingUser => ActivationWaitingUser
            case StatusBlocked => ActivationBlocked case StatusCancelled => ActivationCancelled
            case StatusFailed => ActivationFailed case StatusUnrecoverable => ActivationFailed
            case StatusClosed => ActivationNone
            case StatusReconnecting => if atWork then ActivationRunning else ActivationNone)
  {
    DerivedFacts(env, p, FactsOf(env, p));
  }

  lemma DerivedFacts(env: Env, p: Payload, facts: Facts)
    requires facts == FactsOf(env, p) && TextOf(env, p, FMainlineState) == None && TextOf(env, p, FActivationState) == None
    ensures facts.status == ReadStatus(StringOf(env, p(Camel(FStatus))).GetOr(""))
    ensures facts.state == MainlineOfStatus(facts.status, PayloadAtWork(p))
    ensures facts.activation == ActivationOfStatus(facts.status, PayloadAtWork(p))
  {
  }

  /** The rest of the facts, where the payload does not give them. */
  lemma FactsAreDerived(env: Env, p: Payload)
    ensures var f := FactsOf(env, p);
      var executing := f.activation in {ActivationQueued, ActivationDispatched, ActivationRunning, ActivationWaitingServer};
      && (TextOf(env, p, FBindingStatus) == None ==>
            f.binding ==
              if f.state == MainlineNone then BindingNone
              else if f.state in {MainlineClosed, MainlineCancelled, MainlineFailed, MainlineUnrecoverable} then BindingClosed
              else BindingActive)
      && (!p(Camel(FWorking)).Flag? ==> f.working == executing)
      && (FlagOf(Coalesced(p, FEventStreamAllowed)) == None ==> f.allowed == (f.working && f.binding == BindingActive))
  {
  }

  lemma DerivedFlags(env: Env, p: Payload)
    requires Restore(env, p).Some?
    ensures var s, f := Restore(env, p).value, FactsOf(env, p);
      && (!p(Camel(FContinuable)).Flag? ==> s.continuable == Some(f.state == MainlineSettled && f.binding == BindingActive))
      && (!p(Camel(FRecoverable)).Flag? ==>
            s.recoverable == Some(f.binding == BindingActive
                                  && f.state !in {MainlineCancelled, MainlineClosed, MainlineFailed, MainlineUnrecoverable}))
  {
  }

  lemma DerivedStreams(env: Env, p: Payload, state: MainlineState, allowed: bool)
    ensures TextOf(env, p, FProjectionState) == None ==>
      RestoredProjection(env, p, state, allowed) ==
        if state == MainlineUnrecoverable then ProjectionNonrecoverable else if state == MainlineSettled then ProjectionDrained
        else if allowed then ProjectionLive else ProjectionUnavailable
    ensures TextOf(env, p, FTransportState) == None ==>
      RestoredTransport(env, p, allowed) ==
        if !allowed then TransportDisconnected
        else if StringOf(env, p(Camel(FStatus))) == Some("reconnecting") then TransportReconnecting else TransportStreaming
  {
  }

  /** A mainline state that is given decides the status, unless it is none. */
  lemma StateDecidesStatus(env: Env, p: Payload, state: MainlineState)
    requires TextOf(env, p, FMainlineState).Some? && ReadMainline(TextOf(env, p, FMainlineState).value) == Some(state)
    requires state != MainlineNone
    ensures FactsOf(env, p).state == state
    ensures FactsOf(env, p).status == match state
      case MainlineStarting => StatusStarting case MainlineExecuting => StatusRunning
      case MainlineSettled => StatusSettled case MainlineWaitingUser => StatusWaitingUser
      case MainlineBlocked => StatusBlocked case MainlineClosed => StatusClosed
      case MainlineCancelled => StatusCancelled case MainlineFailed => StatusFailed
      case _ => StatusUnrecoverable
  {
    RestoredStatusAgrees(env, p);
  }

  /** A lone pending turn of an old payload is restored as the queue of the payload's branch, exactly if there
      are no queues, so a turn that was taken off its queue is not brought back while any other waits. */
  lemma LoneTurnIsRestored(env: Env, p: Payload, run: string, branch: string)
    ensures var saved, pending := QueuesOf(env, QueuesField(p)), PendingOf(env, p);
      RestoredQueues(env, p, run, branch) ==
        if saved != map[] || pending.None? then saved
        else map[run + ":" + branch := [pending.value.(sessionRunId := Some(run), branchBindingId := Some(branch))]]
  {
  }
}
