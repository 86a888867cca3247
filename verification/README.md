# Session runtime verification

A Dafny model of how the extension keeps sessions, drafts, event streams, queued turns, transcripts and
logs straight while messages arrive late, twice, out of order or not at all, with proofs about whole runs
of it. `dafny verify dfyconfig.toml` checks everything.

- **Session runtime.** `RuntimeModel`, `RuntimeReducer`: scopes keyed by run and branch, each with its
  operations in flight, and one projection that follows the selected scope. `RuntimeInvariant`,
  `RuntimeFrame`: what every event keeps and what it may touch. `RuntimeLaws`: what each leaves, field by
  field. `RuntimeConvergence`: the order of status reports does not matter. `BranchCreateRollback`: a failed
  optimistic branch creation leaves no trace.
- **Operation protocol.** `RuntimeProtocol` specifies the store's public calls, `SessionRuntimeStore` is
  the store as a class with its loops and the coordinator's methods over it, each proved to do what is
  specified. `ProtocolInvariant`, `ProtocolRuns`: at most one visible operation, at most one settlement per
  begin, start handover. `ProtocolBindings`: no scope is ever rebound. `ProtocolAnswers`, `ProtocolLaws`:
  what each call answers and leaves, in terms of fields alone. `IdentitySafety`: a response is accepted only
  if the selection never moved.
- **Drafts and streams.** `DraftDocument`: reassembling a draft from numbered chunks and snapshots.
  `SseStream`, `SseTears`: incremental framing against framing at once (sections 9.2.5 and 9.2.6 of the
  WHATWG HTML Standard, as far as the code follows them).
- **Selected mainline.** `MainlineSnapshot`, `PendingTurnQueues`, `SessionRunCoordinator`: normalization,
  per-branch queues, identity revision. `SnapshotPersistence`, `SnapshotRoundTrip`: saving and restoring.
  `SnapshotLaws`: the facts that are derived on the way.
- **Transcript.** `TranscriptItems`, `TranscriptStream`: streamed text among other items. `TranscriptLaws`:
  what each event leaves. `TranscriptReplay`: when a replayed delta is recognised.
- **Small cores.** `FuzzyMatch`, `ReconnectBudget`, `LogRotation`.

Where a property fails in the code, the code is modelled as it is, the failing input is a lemma and the
exact condition is proved:

- rebinding a live scope: `BlankUpsertAllowsRebinding`, `RunKeepsBindingIff`; under the protocol it never
  happens (`ProtocolNeverRebinds`);
- settling a start: `RefusedHandover`, `HandoverSettlesIff`;
- completing a draft: `OutOfStepNeverCompletes`, `RecoveryIff`;
- frames that do not depend on the chunking: `TornPairSplitsAFrame`, `FramesAreThoseOfTheWholeIff`;
- queues kept by a patch: `EmptyingPatchResurrects`, `PatchKeepsQueuesIff`;
- a snapshot that comes back as saved: `ReconnectingComesBackRunning`, `SavedIsRestored`;
- recognising a replayed delta: `LateReplayRepeats`, `ReplayIsDroppedIff`.

## How the model reads the code

- An optional string is an `Option<string>`; the truthiness tests of the code are `Present`.
- The id of a scope is the pair of run and branch. `RenderIsInjective` relates it to the rendered text for
  run ids without a colon. `__pending_session_run_start__` is never the id of a real run.
- A search over all scopes for one that can only be under a known key is a lookup;
  `SourceScopeIsTheSearch` and `SearchDecides` show that this is the same.
- Asynchronous replies are calls that may come at any later step, with the response fields as arguments.
- The clock, the digest of a text, lower-casing, the reading of numerals and a snapshot's payload as one
  text are parameters.
- White-space trimming in `SnapshotRoundTrip` is any trimming that is stable and leaves the vocabulary
  alone; `TrimmingIsSound` shows that of the one in use.
- Operation records that callers put together by hand are assumed to be filed under their own ids
  (`WellFormedEvent`); those the coordinator builds are proved to be.

## Model

| member | source | states |
|---|---|---|
| `RuntimeModel.RenderIsInjective` | src/sessionRuntime/SessionRuntimeReducer.ts:31-33 | The text forms of two scope ids are equal exactly when run and branch are, for run ids without a colon. |
| `RuntimeReducer.Reduce` | src/sessionRuntime/SessionRuntimeReducer.ts:42-117 | A reduction that reports a rejection reports nothing else and hands back the very model it was given. |
| `RuntimeReducer.Begin` | src/sessionRuntime/SessionRuntimeReducer.ts:182-221 | A refused begin leaves the model untouched, even when its provisional scope had been put already. |
| `RuntimeReducer.Settle` | src/sessionRuntime/SessionRuntimeReducer.ts:223-282 | A refused settlement leaves the model untouched. |
| `RuntimeReducer.Deliver` | src/sessionRuntime/SessionRuntimeReducer.ts:42-117 | An event refused for its agent run or its revision leaves the model untouched. |
| `RuntimeInvariant.PreservedAreExact` | src/sessionRuntime/SessionRuntimeReducer.ts:344-367 | The summaries that survive a refresh are free of duplicates, belong to the run, equal what their scopes say, and none is of an excluded scope. |
| `RuntimeInvariant.PreservedKeepOrder` | src/sessionRuntime/SessionRuntimeReducer.ts:344-367 | The surviving summaries are the old list, in its order, without the scopes that are gone. |
| `RuntimeInvariant.RefreshedSummaries` | src/sessionRuntime/SessionRuntimeReducer.ts:344-381 | Right after a refresh the summaries are exact, confined to the selected run, contain the selected scope, and keep the order of the old ones, a new scope coming last. |
| `RuntimeInvariant.SourceScopeIsTheSearch` | src/sessionRuntime/SessionRuntimeReducer.ts:431-444 | In a filed model the search for the source of a branch creation has exactly one possible find: the scope under the key the operation names. |
| `RuntimeInvariant.StepKeepsInv` | src/sessionRuntime/SessionRuntimeReducer.ts:42-117 | Every event keeps the invariant: scopes and operations filed under their own ids, branch creations with target unlike source, the selection never dangling and the projection showing what its scope says. |
| `RuntimeInvariant.RunKeepsInv` | src/sessionRuntime/SessionRuntimeReducer.ts:42-117 | The invariant holds after every sequence of events. |
| `RuntimeInvariant.ReachableIsCoherent` | src/sessionRuntime/SessionRuntimeStore.ts:557-568 | So does every model reachable from the empty one. |
| `RuntimeFrame.SettleShape` | src/sessionRuntime/SessionRuntimeReducer.ts:223-282 | A settlement is refused, puts one scope, or drops one scope and reports it; any projection it announces is the final, refreshed one. |
| `RuntimeFrame.RollbackShape` | src/sessionRuntime/SessionRuntimeReducer.ts:284-304 | Rolling back drops exactly the target scope, reports settlement and deletion in that order, and selects the source if the target was selected; otherwise the projection stays as it is. |
| `RuntimeFrame.BeginShape` | src/sessionRuntime/SessionRuntimeReducer.ts:182-221 | An accepted begin adds its operation to the scope it names, on top of the provisional scope if there is one, and changes no other scope. |
| `RuntimeFrame.Frame` | src/sessionRuntime/SessionRuntimeReducer.ts:42-117 | No event changes a scope it does not name. |
| `RuntimeFrame.DeletionIsReported` | src/sessionRuntime/SessionRuntimeReducer.ts:158-180 | A scope is gone after an event exactly when the event reports its deletion. |
| `RuntimeFrame.NoEventRebinds` | src/sessionRuntime/SessionRuntimeReducer.ts:402-407 | No event takes a live scope from one agent run to another. |
| `RuntimeFrame.AnnouncedProjection` | src/sessionRuntime/SessionRuntimeReducer.ts:306-342 | Every projection announced is the one of the resulting model, with exact summaries that contain the selected scope. |
| `RuntimeFrame.EventKeepsBindingIff` | src/sessionRuntime/SessionRuntimeReducer.ts:402-407 | A live scope keeps its agent run through an event exactly when the event does not put that scope without one, a begin counting only if its guards let it. |
| `RuntimeFrame.RunKeepsBindingIff` | src/sessionRuntime/SessionRuntimeReducer.ts:402-407 | A scope that stays live has one agent run in every state of a run exactly when no event of it blanks the scope. |
| `RuntimeFrame.NoRunRebinds` | src/sessionRuntime/SessionRuntimeReducer.ts:402-407 | It then has that agent run at the end. |
| `RuntimeFrame.BlankUpsertAllowsRebinding` | src/sessionRuntime/SessionRuntimeReducer.ts:131-156 | Without that condition it fails: putting a scope with an empty agent run, then with another one, rebinds it. |
| `RuntimeConvergence.ReportStep` | src/sessionRuntime/SessionRuntimeReducer.ts:74-79 | A status report is ignored when it is older than its scope and otherwise sets revision and status; other scopes stay. |
| `RuntimeConvergence.DeliveryEndsInNewest` | src/sessionRuntime/SessionRuntimeReducer.ts:383-400 | After any delivery of reports with distinct revisions the scope has the status of the greatest revision not below its own, or its own status if there is none. |
| `RuntimeConvergence.NewestIsUnique` | src/sessionRuntime/SessionRuntimeReducer.ts:545-547 | Revision and status of the newest report depend only on which reports there are. |
| `RuntimeConvergence.DeliveryOrderIsIrrelevant` | src/sessionRuntime/SessionRuntimeReducer.ts:383-400 | Two deliveries of the same reports, in any orders and with any repetitions, end in the same revision and status. |
| `RuntimeLaws.TargetNames` | src/sessionRuntime/SessionRuntimeReducer.ts:480-533 | Which live scope a target names: the one of its id, if run and branch, where given, agree, else the one of its run and branch. |
| `RuntimeLaws.UnnamedIsRefused` | src/sessionRuntime/SessionRuntimeReducer.ts:67-73 | An event that names no live scope is refused, as of an unknown scope if it says enough to name one, else as lacking proof. |
| `RuntimeLaws.StatusRefusedIff` | src/sessionRuntime/SessionRuntimeReducer.ts:74-111 | A status event is refused exactly when it is older than its scope, then as stale, or of another agent run. |
| `RuntimeLaws.StatusSets` | src/sessionRuntime/SessionRuntimeReducer.ts:383-465 | An accepted one sets status and run status to the status it gives or its kind stands for, takes over revision, agent run and transcript as far as given, and keeps every other field. |
| `RuntimeLaws.StatusSetsStats` | src/sessionRuntime/SessionRuntimeReducer.ts:394-399 | Its stats override the old ones, entry by entry, and every other entry stays. |
| `RuntimeLaws.StatusIsShown` | src/sessionRuntime/SessionRuntimeReducer.ts:306-342 | On the selected scope the projection shows the new status, run status, stats and transcript. |
| `RuntimeLaws.QueueRefusedIff` | src/sessionRuntime/SessionRuntimeReducer.ts:74-79 | Of the queue events only a queued turn can come too late. |
| `RuntimeLaws.QueueingSets` | src/sessionRuntime/SessionRuntimeReducer.ts:84-103 | A queued turn comes last and moves the revision, clearing leaves none, nothing else changes. |
| `RuntimeLaws.RemovingSets` | src/sessionRuntime/SessionRuntimeReducer.ts:549-561 | A removal takes the first turn that agrees in one of the three fields it gives, and changes nothing else. |
| `RuntimeLaws.UpdatesAreReported` | src/sessionRuntime/SessionRuntimeReducer.ts:306-331 | An accepted event reports its scope and, exactly if that is selected, the projection. |
| `RuntimeLaws.SettleRefusedIff` | src/sessionRuntime/SessionRuntimeReducer.ts:223-282 | A settlement is refused exactly when its scope holds no such operation of that kind. |
| `RuntimeLaws.SettlingSets` | src/sessionRuntime/SessionRuntimeReducer.ts:223-282 | A settlement that undoes nothing takes the operation out, changes nothing else and reports just that. |
| `RuntimeLaws.UndoingSets` | src/sessionRuntime/SessionRuntimeReducer.ts:223-304 | One that undoes a branch creation drops the scope, selects the source in its place and reports all of it, with the projection to restore. |
| `RuntimeLaws.BeginRefusedIff` | src/sessionRuntime/SessionRuntimeReducer.ts:182-221 | When a begin is refused, in terms of the fields of operation and scope. |
| `RuntimeLaws.OptimisticBeginAllowedIff` | src/sessionRuntime/SessionRuntimeReducer.ts:409-444 | An optimistic creation is allowed exactly when its source is another branch of its run, of the agent run it names. |
| `RuntimeLaws.BeginSets` | src/sessionRuntime/SessionRuntimeReducer.ts:182-221 | An allowed begin puts its provisional scope, adds the operation and changes no other field of any scope. |
| `RuntimeLaws.ProjectionShows` | src/sessionRuntime/SessionRuntimeReducer.ts:333-342 | The selected scope is shown with its own branch, transcript, status and stats, in every coherent model. |
| `RuntimeLaws.SummariesSay` | src/sessionRuntime/SessionRuntimeReducer.ts:369-381 | Right after a refresh every summary says what its scope holds, count by count. |
| `RuntimeLaws.PuttingSets` | src/sessionRuntime/SessionRuntimeReducer.ts:131-156 | Putting a scope stores it as it is, selects it if asked to, and is refused only if it is bound elsewhere. |
| `RuntimeLaws.DeletingSets` | src/sessionRuntime/SessionRuntimeReducer.ts:158-180 | Deleting drops a live scope that is not selected, and no other. |
| `RuntimeLaws.SelectingSets` | src/sessionRuntime/SessionRuntimeReducer.ts:119-129 | Selecting shows the scope the target names and touches none. |
| `BranchCreateRollback.BeginningExtends` | src/sessionRuntime/SessionRuntimeReducer.ts:182-221 | An accepted optimistic creation adds one scope, holding the operation, to the scopes there were, and selects it if asked to. |
| `BranchCreateRollback.ResolutionAgrees` | src/sessionRuntime/SessionRuntimeReducer.ts:480-533 | A target names the same scope with and without the provisional scope, unless it names that one. |
| `BranchCreateRollback.ScopedRewrite` | src/sessionRuntime/SessionRuntimeReducer.ts:42-117 | A scoped event rewrites the scope it resolves to, if that accepts it, and nothing else. |
| `BranchCreateRollback.InterludeRun` | src/sessionRuntime/SessionRuntimeReducer.ts:42-117 | While the creation is in flight, status, queue and selection events do to all other scopes what they would do without it. |
| `BranchCreateRollback.FailingUndoes` | src/sessionRuntime/SessionRuntimeReducer.ts:223-304 | Its failure is accepted, removes exactly the target scope and hands a selected target's place to the source. |
| `BranchCreateRollback.FailedCreateLeavesNoTrace` | src/sessionRuntime/SessionRuntimeReducer.ts:182-304 | Begin, any interlude, failure: every scope ends as the same events leave it when the creation is never begun. |
| `BranchCreateRollback.FailedCreateRestoresTheView` | src/sessionRuntime/SessionRuntimeReducer.ts:284-304 | If nothing else was selected meanwhile, the projection then shows the source scope as those events left it. |
| `ProtocolInvariant.SettleStored` | src/sessionRuntime/SessionRuntimeStore.ts:374-381 | Settling a stored operation empties its slot, stores nothing, and reports the settlement first and once. |
| `ProtocolInvariant.VisibleIsFound` | src/sessionRuntime/SessionRuntimeStore.ts:210-212 | The visible operation of a protocol model is the one the search returns. |
| `ProtocolInvariant.ClearingLeavesNoneVisible` | src/sessionRuntime/SessionRuntimeStore.ts:429-433 | Clearing leaves no visible operation and stores nothing new. |
| `ProtocolInvariant.EnsuredIsWellFormed` | src/sessionRuntime/SessionRuntimeStore.ts:138-183 | The scope that is ensured for a branch is filed like any other. |
| `ProtocolInvariant.BeginRunKeepsInv` | src/coordinators/SessionRunOperationCoordinator.ts:77-149 | Beginning a run operation keeps the protocol invariant, at most one visible operation in all scopes included. |
| `ProtocolInvariant.PendingHoldsOnlyItsStart` | src/coordinators/SessionRunOperationCoordinator.ts:151-186 | A provisional start scope holds only its own start. |
| `ProtocolInvariant.HandoverShape` | src/sessionRuntime/SessionRuntimeStore.ts:383-427 | A handover without conflict removes the provisional scope, puts the running one in its place, moves the selection with it, touches no other scope and reports exactly three effects. |
| `ProtocolInvariant.RefusedHandover` | src/sessionRuntime/SessionRuntimeStore.ts:383-427 | A handover into a scope bound to another agent run settles nothing and stores nothing. |
| `ProtocolRuns.CallKeepsInv` | src/sessionRuntime/SessionRuntimeStore.ts:72-433 | Every public call keeps the protocol invariant, whatever the selection is by then. |
| `ProtocolRuns.CallAccounts` | src/sessionRuntime/SessionRuntimeStore.ts:374-381 | Every call balances: settlements reported plus copies still stored are at most the copies stored before plus the begins made. |
| `ProtocolRuns.CallKeepsPendingBound` | src/coordinators/SessionRunOperationCoordinator.ts:151-186 | Provisional start scopes keep the stand-in agent run through every call. |
| `ProtocolRuns.RunsKeepInv` | src/sessionRuntime/SessionRuntimeStore.ts:72-433 | Over every run of calls there is at most one visible operation and every start is apart. |
| `ProtocolRuns.RunsAccount` | src/sessionRuntime/SessionRuntimeStore.ts:374-381 | The balance holds over every run of calls. |
| `ProtocolRuns.SettledAtMostOncePerBegin` | src/sessionRuntime/SessionRuntimeStore.ts:374-381 | From an empty store no operation is reported settled more often than it was begun. |
| `ProtocolBindings.CallKeepsBindings` | src/sessionRuntime/SessionRuntimeStore.ts:72-433 | Every public call leaves every scope bound to an agent run and rebinds none that it does not report deleted. |
| `ProtocolBindings.RunsKeepBindings` | src/sessionRuntime/SessionRuntimeStore.ts:72-433 | The same over every run of calls. |
| `ProtocolBindings.ProtocolNeverRebinds` | src/sessionRuntime/SessionRuntimeStore.ts:138-183 | From an empty store every scope ever stored has an agent run, and from any point on a scope not reported deleted keeps its own: the rebinding the reducer allows does not happen. |
| `ProtocolAnswers.ControlAnswer` | src/sessionRuntime/SessionRuntimeStore.ts:303-323 | A control response is accepted exactly when its visible operation was begun from what is selected now, at this revision, and the response names its run, branch and agent run; either way the operation is settled and its slot empty. |
| `ProtocolAnswers.BranchCreateAnswer` | src/sessionRuntime/SessionRuntimeStore.ts:241-258 | The same for a created branch, by the branch it is for; a refused creation is settled as failed. |
| `ProtocolAnswers.BranchSelectAnswer` | src/sessionRuntime/SessionRuntimeStore.ts:260-276 | The same test for a selected branch; asking settles nothing. |
| `ProtocolAnswers.BranchSelectSettled` | src/sessionRuntime/SessionRuntimeStore.ts:278-287 | Settling a selection succeeds exactly when there is one, and settles it as successful. |
| `ProtocolAnswers.RejectAnswer` | src/sessionRuntime/SessionRuntimeStore.ts:289-301 | Rejecting succeeds exactly when there is such a visible operation, and settles it as failed. |
| `ProtocolAnswers.FailureAnswer` | src/sessionRuntime/SessionRuntimeStore.ts:357-372 | A failure is accepted exactly when its operation is still current, a start by the run selected then; only then is it settled. |
| `ProtocolAnswers.StartAnswer` | src/sessionRuntime/SessionRuntimeStore.ts:214-239 | A start response is accepted exactly when its start is still current; without a full scope, and when refused, it is settled in place. |
| `ProtocolAnswers.LocalSuccessAnswer` | src/sessionRuntime/SessionRuntimeStore.ts:325-341 | A branch-local success is accepted exactly when one operation of its id and kind is there and no other, and the response names its run, branch and agent run, whatever is selected. |
| `ProtocolAnswers.LocalFailureAnswer` | src/sessionRuntime/SessionRuntimeStore.ts:343-355 | A branch-local failure settles as failed the one operation it is for, if there is exactly one. |
| `ProtocolLaws.EnsureAnswer` | src/sessionRuntime/SessionRuntimeStore.ts:148-152 | Ensuring is refused exactly when the scope is bound to another agent run, or to none and none is given. |
| `ProtocolLaws.EnsureKeepsStored` | src/sessionRuntime/SessionRuntimeStore.ts:153-183 | A stored scope takes over the cursor, revision, activation and status the input gives, keeps those it does not, and keeps queues, approvals, inputs, operations, transcript and stats. |
| `ProtocolLaws.EnsureCreates` | src/sessionRuntime/SessionRuntimeStore.ts:153-183 | A scope not stored before is new but for what the input gives. |
| `ProtocolLaws.CursorSets` | src/sessionRuntime/SessionRuntimeStore.ts:185-208 | Recording a cursor sets it, moves the revision by one, and changes at most the status besides. |
| `ProtocolLaws.RestoreAnswer` | src/sessionRuntime/SessionRuntimeStore.ts:111-127 | When a bootstrap scope counts as restored, and when it is ensured and selected. |
| `ProtocolLaws.ClearingKeeps` | src/sessionRuntime/SessionRuntimeStore.ts:429-433 | Clearing takes the visible operation out of its scope and keeps every other field and operation. |
| `ProtocolLaws.LocalBeginSets` | src/coordinators/SessionRunOperationCoordinator.ts:77-149 | A branch-local begin on a stored scope leaves it running, with the operation in it, every field of that spelled out, and keeps everything else. |
| `ProtocolLaws.VisibleBeginSets` | src/coordinators/SessionRunOperationCoordinator.ts:77-149 | So does a visible one, which takes the operation that was visible out and selects the scope. |
| `ProtocolLaws.IncompleteBeginSets` | src/coordinators/SessionRunOperationCoordinator.ts:98-103 | A begin without source, target or agent run stores nothing; a visible one still clears. |
| `ProtocolLaws.StartSets` | src/coordinators/SessionRunOperationCoordinator.ts:77-186 | A start gets a provisional scope of its own, queued and otherwise empty, spelled out with its operation, and selected. |
| `ProtocolLaws.HandoverSets` | src/sessionRuntime/SessionRuntimeStore.ts:383-427 | The scope a start is handed over to is the provisional one under its real names, running, with the agent run the response gives, and nothing in flight. |
| `ProtocolLaws.HandoverConflictsIff` | src/sessionRuntime/SessionRuntimeReducer.ts:402-407 | It conflicts exactly with a scope bound to another agent run than it would bring. |
| `ProtocolRuns.StartIsBegun` | src/coordinators/SessionRunOperationCoordinator.ts:77-149 | Beginning a start makes it the visible operation, in its own selected provisional scope. |
| `ProtocolRuns.StartIsHandedOver` | src/sessionRuntime/SessionRuntimeStore.ts:214-239 | An accepted start response for a new scope leaves no copy of the start and no provisional scope; the new scope runs, is selected exactly when the provisional one was, and every other scope stays. |
| `ProtocolRuns.HandoverSettlesIff` | src/sessionRuntime/SessionRuntimeStore.ts:214-239 | A current start response is always answered with true, yet settles its start exactly when the response scope is not bound to another agent run. |
| `SessionRuntimeStore.SearchDecides` | src/sessionRuntime/SessionRuntimeStore.ts:435-459 | Whatever order the scopes are visited in, the search has one match exactly when its result has length one, and that match is the specified one. |
| `SessionRuntimeStore.Store.constructor` | src/sessionRuntime/SessionRuntimeStore.ts:60-62 | A new store has the model it is given, or the empty one, which has the invariant. |
| `SessionRuntimeStore.Store.Reduce` | src/sessionRuntime/SessionRuntimeStore.ts:72-76 | The model becomes the reduction's; its effects are returned. |
| `SessionRuntimeStore.Store.SelectBranch` | src/sessionRuntime/SessionRuntimeStore.ts:78-83 | Selecting projects the branch, and is silent when there is none. |
| `SessionRuntimeStore.Store.FindOperations` | src/sessionRuntime/SessionRuntimeStore.ts:444-459 | Exactly the stored operations that meet the criteria, each slot once. |
| `SessionRuntimeStore.Store.FindOperation` | src/sessionRuntime/SessionRuntimeStore.ts:435-442 | The one match, or none when there is none or more than one. |
| `SessionRuntimeStore.Store.CurrentOperation` | src/sessionRuntime/SessionRuntimeStore.ts:210-212 | Exactly the visible operation, if there is one. |
| `SessionRuntimeStore.Store.EnsureBranchRuntimeScope` | src/sessionRuntime/SessionRuntimeStore.ts:138-183 | The new state and the answer are the specified ones. |
| `SessionRuntimeStore.Store.RestoreBootstrapScopeIfUnclaimed` | src/sessionRuntime/SessionRuntimeStore.ts:111-127 | The same, refusing when the selected scope claims the bootstrap. |
| `SessionRuntimeStore.Store.RecordStreamCursor` | src/sessionRuntime/SessionRuntimeStore.ts:185-208 | The same for the stream cursor of a scope. |
| `SessionRuntimeStore.Store.SettleOperation` | src/sessionRuntime/SessionRuntimeStore.ts:374-381 | The same for one settlement. |
| `SessionRuntimeStore.Store.ClearVisibleOperations` | src/sessionRuntime/SessionRuntimeStore.ts:429-433 | The loop over the visible operations fails the one there can be, and leaves none. |
| `SessionRuntimeStore.Store.ConfirmStartOperation` | src/sessionRuntime/SessionRuntimeStore.ts:383-427 | The three reductions of a handover. |
| `SessionRuntimeStore.Store.AcceptsStartSuccess` | src/sessionRuntime/SessionRuntimeStore.ts:214-239 | Answer and new state are those of the specified call, the invariant is kept. |
| `SessionRuntimeStore.Store.AcceptsBranchCreateSuccess` | src/sessionRuntime/SessionRuntimeStore.ts:241-258 | The same for a branch creation. |
| `SessionRuntimeStore.Store.BranchSelectSuccessStillCurrent` | src/sessionRuntime/SessionRuntimeStore.ts:260-276 | The specified answer, nothing changed. |
| `SessionRuntimeStore.Store.SettleBranchSelectSuccess` | src/sessionRuntime/SessionRuntimeStore.ts:278-287 | Answer and new state are those of the specified call. |
| `SessionRuntimeStore.Store.RejectVisibleOperation` | src/sessionRuntime/SessionRuntimeStore.ts:289-301 | The same for a rejection. |
| `SessionRuntimeStore.Store.AcceptsControlSuccess` | src/sessionRuntime/SessionRuntimeStore.ts:303-323 | The same for a control response. |
| `SessionRuntimeStore.Store.SettleBranchLocalSuccess` | src/sessionRuntime/SessionRuntimeStore.ts:325-341 | The same for a branch-local success. |
| `SessionRuntimeStore.Store.SettleBranchLocalFailure` | src/sessionRuntime/SessionRuntimeStore.ts:343-355 | The same for a branch-local failure. |
| `SessionRuntimeStore.Store.AcceptsFailure` | src/sessionRuntime/SessionRuntimeStore.ts:357-372 | The same for a failure. |
| `SessionRuntimeStore.StoreStartOperation` | src/coordinators/SessionRunOperationCoordinator.ts:124-186 | A start is put into its own provisional, selected scope. |
| `SessionRuntimeStore.StoreSourcedOperation` | src/coordinators/SessionRunOperationCoordinator.ts:124-186 | Any other operation is put into the ensured scope of its source. |
| `SessionRuntimeStore.BeginSessionRunOperation` | src/coordinators/SessionRunOperationCoordinator.ts:77-149 | Replacing, ensuring and beginning step by step give the specified state; the invariant is kept. |
| `IdentitySafety.VisibleSourceIsSelected` | src/sessionRuntime/SessionRuntimeStore.ts:462-555 | A visible source resolves exactly when it names the selected run and branch with an agent run, and is then the selected identity at the current revision. |
| `IdentitySafety.LocalSourceResolves` | src/sessionRuntime/SessionRuntimeStore.ts:462-575 | A branch-local source resolves within the selected run: on the selected branch to the selected agent run at the current revision, elsewhere to that of the first record of the branch, without a revision. |
| `IdentitySafety.NextKeepsInv` | src/sessionRuntime/SessionRuntimeStore.ts:589-639 | Every step of the system keeps each visible operation no newer than the revision and, while equally new, of the selected identity. |
| `IdentitySafety.EqualRevisionDecides` | src/sessionRuntime/SessionRuntimeStore.ts:603-612 | For a visible operation, at any point of any run, equal revisions and the identity comparison come to the same. |
| `IdentitySafety.RevisionTellsMoves` | src/coordinators/SessionRunCoordinator.ts:437-451 | Revisions never fall, and two states of equal revision have the same selected identity. |
| `IdentitySafety.OperationsPersist` | src/sessionRuntime/SessionRuntimeStore.ts:429-433 | A visible operation seen later and not begun again meanwhile was there all the time, unchanged. |
| `IdentitySafety.AcceptedMeansUnmoved` | src/sessionRuntime/SessionRuntimeStore.ts:589-639 | If the response to an operation on the selected branch is accepted, the selected identity was the same in every state since the begin: it did not even move away and back. |
| `DraftDocument.Buffer.constructor` | src/DraftDocumentBuffer.ts:9-12 | A new buffer is empty and awaits no snapshot. |
| `DraftDocument.Buffer.ApplyPreviewChunk` | src/DraftDocumentBuffer.ts:26-60 | The fields afterwards, the two flags and the reason are those of the specified verdict. |
| `DraftDocument.Buffer.ApplySnapshot` | src/DraftDocumentBuffer.ts:62-80 | The same for a snapshot; a missing content or a wrong digest keeps the text and asks again. |
| `DraftDocument.ChunkSets` | src/DraftDocumentBuffer.ts:26-60 | Exactly which chunk is added, genuine or not, and which refusals make the buffer await a snapshot; a refused chunk changes neither text nor number. |
| `DraftDocument.ChunkReasons` | src/DraftDocumentBuffer.ts:31-56 | What each reason given says of the chunk. |
| `DraftDocument.SnapshotSets` | src/DraftDocumentBuffer.ts:62-80 | Exactly which snapshot becomes the text; any other is asked for again with everything else kept. |
| `DraftDocument.OffsetIdentifies` | src/DraftDocumentBuffer.ts:44-47 | With non-empty chunks the offset tells the prefix: equal lengths are equal prefixes, and no two chunk counts share one. |
| `DraftDocument.DraftIsSafe` | src/DraftDocumentBuffer.ts:26-80 | Under any loss, repetition and reordering of genuine messages the text is always a prefix of the document and the chunk number never falls. |
| `DraftDocument.NewBufferIsSafe` | src/DraftDocumentBuffer.ts:9-80 | The same for a new buffer, whatever it receives. |
| `DraftDocument.WaitingFreezes` | src/DraftDocumentBuffer.ts:37-39 | While a snapshot is awaited no chunk changes anything. |
| `DraftDocument.InStepCompletes` | src/DraftDocumentBuffer.ts:34-60 | In step, the remaining chunks in order, with any old ones among them, complete the document. |
| `DraftDocument.OutOfStepNeverCompletes` | src/DraftDocumentBuffer.ts:34-60 | Out of step, they never do. |
| `DraftDocument.RecoveryIff` | src/DraftDocumentBuffer.ts:34-80 | From any reachable state a snapshot and the chunks after it complete the document exactly when the snapshot names its reach and is not older than what was counted, or reaches exactly that far. |
| `SseStream.NormalizeAtCut` | src/LabrastroRemoteClient.ts:2334-2336 | Normalizing in two parts equals normalizing the whole exactly when the cut does not tear a CR from its LF; a torn pair costs one character more. |
| `SseStream.CutResumes` | src/LabrastroRemoteClient.ts:2317-2326 | Cutting frames may stop anywhere and go on with its tail. |
| `SseStream.ParseSseFrame` | src/LabrastroRemoteClient.ts:2338-2358 | The loop over the lines gives the specified parse. |
| `SseStream.NamedLineSets` | src/LabrastroRemoteClient.ts:2341-2355 | A line takes effect by its field name alone: event and data take the rest without one leading space, other fields are skipped. |
| `SseStream.OtherLineIsSkipped` | src/LabrastroRemoteClient.ts:2342-2344 | A comment and a line without a colon are skipped. |
| `SseStream.Drain` | src/LabrastroRemoteClient.ts:2317-2326 | The inner loop hands on the parses of all complete frames, in order, and keeps the tail. |
| `SseStream.ReadSseStream` | src/LabrastroRemoteClient.ts:2304-2332 | The buffered loop hands on the parses of the leftmost cuts of the chunks, normalized one by one. |
| `SseStream.ChunkingIsInvisibleIff` | src/LabrastroRemoteClient.ts:2314-2317 | For every chunking: the chunks are normalized to what the whole text is exactly when no cut tears a CR from its LF. |
| `SseStream.FramesAreThoseOfTheWhole` | src/LabrastroRemoteClient.ts:2304-2332 | Then the frames are those of the whole text. |
| `SseStream.TornPairAddsABoundary` | src/LabrastroRemoteClient.ts:2315-2317 | A torn pair turns one line end of the normalized text into a boundary between raw frames; what that does to the frames handed on is for the lemmas of `SseTears`. |
| `SseStream.ParseSerialized` | src/LabrastroRemoteClient.ts:2338-2358 | A frame written out line by line parses back to itself. |
| `SseStream.SentIsReceived` | src/LabrastroRemoteClient.ts:2304-2358 | Whatever frames are written out and however the text is chunked, exactly those frames are received. |
| `SseTears.FramesAreDispatched` | src/LabrastroRemoteClient.ts:2317-2358 | Cutting at blank lines and parsing the pieces gives the frames that reading line by line gives. |
| `SseTears.FramesByMarks` | src/LabrastroRemoteClient.ts:2304-2358 | For every chunking: what the loop hands on, and what the whole text holds, are the frames of the same lines, once with every torn line end as a blank line and once without. |
| `SseTears.IntactIff` | src/LabrastroRemoteClient.ts:2338-2358 | The parts of a torn frame give the frame exactly when at most one of them carries data and that part names the event the whole frame names; they never give fewer frames. |
| `SseTears.FramesAreThoseOfTheWholeIff` | src/LabrastroRemoteClient.ts:2304-2358 | For every chunking: the frames handed on are those of the whole text exactly when every torn frame is intact in that sense and no tear ends data that no blank line ends. |
| `SseTears.OneTearIff` | src/LabrastroRemoteClient.ts:2304-2358 | That condition for one tear between the lines of one frame. |
| `SseTears.TornPairSplitsAFrame` | src/LabrastroRemoteClient.ts:2315-2317 | A pair torn between two data lines hands on two frames instead of one. |
| `MainlineSnapshot.NormalizeIsIdempotent` | src/coordinators/SessionRunCoordinator.ts:1593-1666 | Normalizing a stored snapshot again changes nothing, so the legacy turn is migrated once only. |
| `SnapshotLaws.StateForStatus` | src/coordinators/SessionRunCoordinator.ts:1417-1431 | The mainline state each status stands for where none is given. |
| `SnapshotLaws.ActivationForStatus` | src/coordinators/SessionRunCoordinator.ts:1433-1445 | And the activation. |
| `SnapshotLaws.BindingForState` | src/coordinators/SessionRunCoordinator.ts:1447-1462 | The binding each mainline state stands for. |
| `SnapshotLaws.FlagsFollow` | src/coordinators/SessionRunCoordinator.ts:1593-1647 | The flags that are not given, from activation, state and binding. |
| `SnapshotLaws.StreamsFollow` | src/coordinators/SessionRunCoordinator.ts:1593-1647 | Projection and transport that are not given. |
| `SnapshotLaws.StatusFollows` | src/coordinators/SessionRunCoordinator.ts:1649-1665 | The status a normalized snapshot has, from its activation and mainline state. |
| `SnapshotLaws.NormalizeKeepsTheRest` | src/coordinators/SessionRunCoordinator.ts:1593-1647 | Nothing else changes but the queues, by the lone turn of an old snapshot, and the pending turn. |
| `PendingTurnQueues.ActIsLocal` | src/coordinators/SessionRunCoordinator.ts:366-435 | A queue call on one branch leaves every other queue alone, and stores no queue empty. |
| `PendingTurnQueues.BranchesAreApart` | src/coordinators/SessionRunCoordinator.ts:1557-1559 | Two branches share a queue only if they are one, for run ids without a colon. |
| `PendingTurnQueues.RemovalIsOfFirst` | src/coordinators/SessionRunCoordinator.ts:1580-1591 | A removal takes exactly the first turn of the request it names, or with the queue time and text it gives, or, where it gives neither a request nor a time, of its text. |
| `PendingTurnQueues.RemovalByRequest` | src/coordinators/SessionRunCoordinator.ts:1584-1586 | By its request id, without a time and a text to go with it. |
| `PendingTurnQueues.RemovalByTimeAndText` | src/coordinators/SessionRunCoordinator.ts:1587-1589 | By time and text, where no turn has the request id, if one is given. |
| `PendingTurnQueues.RemovalByEither` | src/coordinators/SessionRunCoordinator.ts:1584-1589 | By either, where all three are given. |
| `PendingTurnQueues.RemovalByText` | src/coordinators/SessionRunCoordinator.ts:1590-1590 | By its text, where only that is given. |
| `PendingTurnQueues.RemovalOfNothing` | src/coordinators/SessionRunCoordinator.ts:1584-1590 | Without request id and text it takes nothing. |
| `PendingTurnQueues.OtherActsAre` | src/coordinators/SessionRunCoordinator.ts:366-435 | A turn put on comes last, clearing leaves nothing, shifting takes the first. |
| `PendingTurnQueues.QueueKeepsOrder` | src/coordinators/SessionRunCoordinator.ts:366-435 | Over any calls, what left by the front and what still waits is, in order, a subsequence of what was there and what was put on. |
| `PendingTurnQueues.QueueConservesTurns` | src/coordinators/SessionRunCoordinator.ts:366-435 | Everything that was there or was put on has been shifted, has been dropped on request, or waits. |
| `PendingTurnQueues.QueueIsExact` | src/coordinators/SessionRunCoordinator.ts:366-435 | Without removals what left and what waits is exactly what was there and what came. |
| `SessionRunCoordinator.QueueingIsExact` | src/coordinators/SessionRunCoordinator.ts:366-435 | A queue call keeps the run, its identity and its head, and changes the queues by exactly that act. |
| `SessionRunCoordinator.PatchKeepsQueuesIff` | src/coordinators/SessionRunCoordinator.ts:453-458 | A patch gives the queues it should exactly unless it empties them and leaves a pending turn standing; the run survives exactly if a branch remains. |
| `SessionRunCoordinator.PlainPatchKeepsQueues` | src/coordinators/SessionRunCoordinator.ts:453-458 | A patch that mentions neither queues nor pending turn neither loses a turn nor brings one back. |
| `SessionRunCoordinator.EmptyingPatchResurrects` | src/coordinators/SessionRunCoordinator.ts:1593-1608 | Emptying the queues without clearing the pending turn brings the head back. |
| `SessionRunCoordinator.StepsActOnQueues` | src/coordinators/SessionRunCoordinator.ts:366-458 | Over any run of queue calls and plain patches the queues are those of the queue calls alone, and the pending turn is the selected head. |
| `SessionRunCoordinator.StepsKeepOrder` | src/coordinators/SessionRunCoordinator.ts:366-458 | Over such a run turns leave in order and all are accounted for. |
| `SessionRunCoordinator.StepsLeaveNoEmptyQueue` | src/coordinators/SessionRunCoordinator.ts:366-458 | Over such a run no queue is ever stored empty. |
| `SessionRunCoordinator.Coordinator.constructor` | src/coordinators/SessionRunCoordinator.ts:257-262 | Starts from the restored payload, with the head derived and no queue empty. |
| `SessionRunCoordinator.Coordinator.SetSelectedMainlineSnapshot` | src/coordinators/SessionRunCoordinator.ts:437-451 | Stores the normalized snapshot, moves each revision exactly when its key moves, settles a pending start, saves the payload. |
| `SessionRunCoordinator.Coordinator.PatchSelectedMainlineSnapshot` | src/coordinators/SessionRunCoordinator.ts:453-458 | Stores the merge normalized, returns the merge itself, does nothing without a run. |
| `SessionRunCoordinator.Coordinator.ClearSelectedMainlineSnapshot` | src/coordinators/SessionRunCoordinator.ts:460-464 | Run, pending start, draft and saved payload are gone. |
| `SessionRunCoordinator.Coordinator.PendingNextTurnForBranch` | src/coordinators/SessionRunCoordinator.ts:300-307 | The head of the branch's queue; for the selected branch it is the stored pending turn. |
| `SessionRunCoordinator.Coordinator.ShiftPendingNextTurnForBranch` | src/coordinators/SessionRunCoordinator.ts:366-380 | Hands out the head and takes it off; the identity revision stays. |
| `SessionRunCoordinator.Coordinator.RemovePendingNextTurnForBranch` | src/coordinators/SessionRunCoordinator.ts:382-397 | Takes off the first match only. |
| `SessionRunCoordinator.Coordinator.ClearPendingNextTurnForBranch` | src/coordinators/SessionRunCoordinator.ts:399-408 | Empties one branch's queue. |
| `SessionRunCoordinator.Coordinator.EnqueuePendingNextTurnForBranch` | src/coordinators/SessionRunCoordinator.ts:410-435 | Puts the marked turn at the end; without a run it is lost. |
| `SnapshotPersistence.TrimmingIsSound` | src/controller-utils.ts:1-3 | White-space trimming is stable and leaves the vocabulary alone, which is what restoring needs of it. |
| `SnapshotPersistence.TrimTakesSpace` | src/controller-utils.ts:1-3 | Trimming takes white space off both ends, all of it and nothing else. |
| `SnapshotRoundTrip.TurnsRoundTrip` | src/coordinators/SessionRunCoordinator.ts:1524-1555 | Saved turns are read back, all and in order. |
| `SnapshotRoundTrip.QueuesRoundTrip` | src/coordinators/SessionRunCoordinator.ts:1546-1555 | Saved queues are read back under their keys. |
| `SnapshotRoundTrip.RestoredStatusAgrees` | src/coordinators/SessionRunCoordinator.ts:1303-1360 | A restored status agrees with its mainline state, except that an executing run may be reconnecting. |
| `SnapshotRoundTrip.RestoringGivesRestored` | src/coordinators/SessionRunCoordinator.ts:1113-1206 | Whatever the payload: what is restored has trimmed texts, all states, clean queues and the derived head. |
| `SnapshotRoundTrip.RestoredIsSaved` | src/coordinators/SessionRunCoordinator.ts:1058-1206 | Such a snapshot, saved and restored, comes back settled, every other field and queue as it was. |
| `SnapshotRoundTrip.SavedIsRestored` | src/coordinators/SessionRunCoordinator.ts:1058-1206 | For every payload: restoring, saving and restoring gives the same snapshot, except that an executing reconnecting one comes back running. |
| `SnapshotRoundTrip.ReconnectingComesBackRunning` | src/coordinators/SessionRunCoordinator.ts:1303-1335 | The exception occurs. |
| `SnapshotRoundTrip.SavingIsStable` | src/coordinators/SessionRunCoordinator.ts:1058-1206 | From then on it comes back unchanged. |
| `SnapshotLaws.TextIsRead` | src/coordinators/SessionRunCoordinator.ts:1113-1118 | A text is read under its camel-case name, trimmed, else under the other. |
| `SnapshotLaws.NumberIsRead` | src/controller-utils.ts:5-12 | A number is read as it is, or off a text that is not blank, under either name. |
| `SnapshotLaws.TurnIsRead` | src/coordinators/SessionRunCoordinator.ts:1524-1544 | What a pending turn is read from, and that it needs a text. |
| `SnapshotLaws.BothNamesAreWritten` | src/coordinators/SessionRunCoordinator.ts:1058-1111 | Which fields are written under both names. |
| `SnapshotLaws.HeadIsWritten` | src/coordinators/SessionRunCoordinator.ts:1105-1106 | The pending turn that is written is the head of the selected branch's queue. |
| `SnapshotLaws.StatusWords` | src/coordinators/SessionRunCoordinator.ts:1315-1334 | The words a status may be saved under; any other counts as running. |
| `SnapshotLaws.RestoresIff` | src/coordinators/SessionRunCoordinator.ts:1113-1118 | A payload restores exactly if it names a run and a branch. |
| `SnapshotLaws.AbsentDefaults` | src/coordinators/SessionRunCoordinator.ts:1119-1189 | What is read where a payload does not say: zero, and the present time. |
| `SnapshotLaws.StatesAreDerived` | src/coordinators/SessionRunCoordinator.ts:1303-1383 | Status, mainline state and activation of a payload that records no states. |
| `SnapshotLaws.FactsAreDerived` | src/coordinators/SessionRunCoordinator.ts:1130-1147 | Binding, working and the permission to stream where they are not recorded. |
| `SnapshotLaws.DerivedFlags` | src/coordinators/SessionRunCoordinator.ts:1134-1144 | So for continuable and recoverable. |
| `SnapshotLaws.DerivedStreams` | src/coordinators/SessionRunCoordinator.ts:1394-1415 | So for projection and transport. |
| `SnapshotLaws.StateDecidesStatus` | src/coordinators/SessionRunCoordinator.ts:1303-1314 | A recorded mainline state other than none decides the status. |
| `SnapshotLaws.LoneTurnIsRestored` | src/coordinators/SessionRunCoordinator.ts:1150-1165 | A lone pending turn becomes the queue of its branch exactly where there are no queues. |
| `TranscriptItems.LastThinking` | webview-ui/src/chat/sessionRunTranscriptReducer.ts:629-634 | The last active or inactive thinking item, if any. |
| `TranscriptItems.FindOther` | webview-ui/src/chat/sessionRunTranscriptReducer.ts:1002-1004 | The first item of a kind with an id, if any. |
| `TranscriptItems.AppendText` | webview-ui/src/chat/sessionRunTranscriptReducer.ts:607-627 | Appending closes a trailing stream, adds the item's text at the end and loses none. |
| `TranscriptItems.DeltaText` | webview-ui/src/chat/sessionRunTranscriptReducer.ts:708-746 | A delta grows the open text, or opens one after everything that was there. |
| `TranscriptItems.FinalText` | webview-ui/src/chat/sessionRunTranscriptReducer.ts:749-787 | A final message replaces what is open and nothing else. |
| `TranscriptItems.OthersKeepText` | webview-ui/src/chat/sessionRunTranscriptReducer.ts:789-872 | Reasoning, notices and other items leave the text as it is. |
| `TranscriptItems.EventText` | webview-ui/src/chat/sessionRunTranscriptReducer.ts:708-872 | The text law for every event, with an open stream always the last item, and none after the end of a run. |
| `TranscriptItems.EventPreserves` | webview-ui/src/chat/sessionRunTranscriptReducer.ts:607-627 | No event loses or moves an item; closed text stays word for word. |
| `TranscriptLaws.SequenceGoes` | webview-ui/src/chat/sessionRunTranscriptReducer.ts:2264-2266 | A colour sequence at the front of a text is dropped, whatever its parameters. |
| `TranscriptLaws.OtherCharacterStays` | webview-ui/src/chat/sessionRunTranscriptReducer.ts:2264-2266 | Any other first character stays. |
| `TranscriptLaws.ReasoningDeltaSets` | webview-ui/src/chat/sessionRunTranscriptReducer.ts:789-830 | A reasoning delta goes to the end of the last thinking item, which is active then; where there is none, one item is added that holds just the delta; no other item changes. |
| `TranscriptLaws.ReasoningFinalSets` | webview-ui/src/chat/sessionRunTranscriptReducer.ts:832-872 | A final reasoning holds its raw text, else its summary, in the place of the last thinking item, else of the last reasoning item, else at the end. |
| `TranscriptLaws.AssistantDeltaSets` | webview-ui/src/chat/sessionRunTranscriptReducer.ts:708-747 | An assistant delta grows the stream that is open at the end, or opens one. |
| `TranscriptLaws.AssistantFinalSets` | webview-ui/src/chat/sessionRunTranscriptReducer.ts:749-787 | A final message takes the place of that stream, closed, or comes at the end. |
| `TranscriptLaws.ItemsSet` | webview-ui/src/chat/sessionRunTranscriptReducer.ts:258-282 | A notice and a structured item hold what the event brings, at the end. |
| `TranscriptLaws.UpsertSets` | webview-ui/src/chat/sessionRunTranscriptReducer.ts:1001-1036 | An upserted item does so in the place of the first of its kind and id, or at the end. |
| `TranscriptLaws.EmptyEventsDoNothing` | webview-ui/src/chat/sessionRunTranscriptReducer.ts:708-860 | Events without content change nothing. |
| `TranscriptLaws.UserMessageSets` | webview-ui/src/chat/sessionRunTranscriptReducer.ts:284-302 | A user message opens a turn, or marks the first turn that shows its text, or changes nothing. |
| `TranscriptLaws.RunClosedSets` | webview-ui/src/chat/sessionRunTranscriptReducer.ts:385-477 | Closing a run closes and settles every current item, after adding its notice, unless one of its level is there and is not to be repeated. |
| `TranscriptLaws.RunEndedSets` | webview-ui/src/chat/sessionRunTranscriptReducer.ts:478-488 | So does its end, with a response not rendered yet in the place of the open stream, or at the end. |
| `TranscriptLaws.EarlierTurns` | webview-ui/src/chat/sessionRunTranscriptReducer.ts:461-488 | The end of a run, and a closing that settles, settle what still awaits approval in every earlier turn too; no other event reaches the items of one. |
| `TranscriptLaws.StepThoughts` | webview-ui/src/chat/sessionRunTranscriptReducer.ts:789-830 | An event adds to the thoughts exactly the reasoning it streams, unless it concludes some. |
| `TranscriptLaws.ThoughtsLoseNothing` | webview-ui/src/chat/sessionRunTranscriptReducer.ts:199-236 | Over any run of fresh events none of which concludes it, the thoughts grow by exactly the stripped reasoning deltas, in order. |
| `TranscriptLaws.OneItemThinks` | webview-ui/src/chat/sessionRunTranscriptReducer.ts:810-815 | Within a turn it is one item that takes them up. |
| `TranscriptStream.StepText` | webview-ui/src/chat/sessionRunTranscriptReducer.ts:238-491 | One event keeps every message's text equal to its items and adds exactly what it streams, unless it brings a final message. |
| `TranscriptStream.RunKeepsGood` | webview-ui/src/chat/sessionRunTranscriptReducer.ts:199-236 | So does every batch of events. |
| `TranscriptStream.StreamingIsExact` | webview-ui/src/chat/sessionRunTranscriptReducer.ts:664-678 | Without final messages the transcript's text grows by exactly the accepted deltas, in order. |
| `TranscriptStream.RunGrows` | webview-ui/src/chat/sessionRunTranscriptReducer.ts:199-236 | Whatever the events, turns, messages and items stay where they are. |
| `TranscriptStream.StepKeys` | webview-ui/src/chat/sessionRunTranscriptReducer.ts:594-601 | An event brings in no key but its own. |
| `TranscriptStream.FreshAreStreamed` | webview-ui/src/chat/sessionRunTranscriptReducer.ts:246-249 | Events with new, distinct keys are all accepted. |
| `TranscriptStream.StreamingLosesNothing` | webview-ui/src/chat/sessionRunTranscriptReducer.ts:199-236 | From an empty transcript, under any interleaving of fresh events without a final message, the text is all deltas, stripped, in order. |
| `TranscriptReplay.TextItemKeepsKey` | webview-ui/src/chat/sessionRunTranscriptReducer.ts:594-601 | A text item keeps its key unless keyed text is merged into it while it is open. |
| `TranscriptReplay.KnownUnlessOverwritten` | webview-ui/src/chat/sessionRunTranscriptReducer.ts:585-592 | The key of an open stream is known after any fresh events exactly when none of them wrote keyed text into that stream before it was closed. |
| `TranscriptReplay.ReplayIsDroppedIff` | webview-ui/src/chat/sessionRunTranscriptReducer.ts:246-249 | A delta replayed after any fresh events changes nothing exactly when none of them wrote keyed text into its stream while that was open; otherwise the replay repeats its text. |
| `TranscriptReplay.ReplayAtOnceIsDropped` | webview-ui/src/chat/sessionRunTranscriptReducer.ts:585-592 | Replayed at once it is recognised. |
| `TranscriptReplay.LateReplayRepeats` | webview-ui/src/chat/sessionRunTranscriptReducer.ts:594-601 | Replayed after the next delta it is not. |
| `TranscriptStream.Bundle.EnsureAssistantMessage` | webview-ui/src/chat/sessionRunTranscriptReducer.ts:636-662 | The last turn has an assistant message, created as far as it is missing. |
| `TranscriptStream.Bundle.UpdateAssistantItems` | webview-ui/src/chat/sessionRunTranscriptReducer.ts:664-678 | The current message gets the new items and the text read off them. |
| `TranscriptStream.Bundle.MergeRenderedUserMessage` | webview-ui/src/chat/sessionRunTranscriptReducer.ts:502-525 | A user message is merged into the first turn that shows it; if none does, nothing changes. |
| `TranscriptStream.Bundle.ApplyEvent` | webview-ui/src/chat/sessionRunTranscriptReducer.ts:238-491 | The turns become those of the specified step. |
| `TranscriptStream.ApplyEvents` | webview-ui/src/chat/sessionRunTranscriptReducer.ts:199-236 | The result holds the fold of the events, the given bundle is untouched, and it is handed back itself if nothing changed. |
| `FuzzyMatch.GapsAreTheRest` | src/LabrastroController.ts:4296-4306 | The penalty of a placement is what lies before its last character and is not matched. |
| `FuzzyMatch.GreedyPlaces` | src/LabrastroController.ts:4296-4306 | The greedy match is a placement with the penalty it reports. |
| `FuzzyMatch.GreedyIsBest` | src/LabrastroController.ts:4296-4306 | Wherever the needle can be placed the greedy match places it, and passes over no more. |
| `FuzzyMatch.GreedyIsExact` | src/LabrastroController.ts:4296-4306 | The score is defined exactly where the needle is a subsequence. |
| `FuzzyMatch.GreedyIsOptimal` | src/LabrastroController.ts:4296-4306 | It is the least over all placements, and attained. |
| `FuzzyMatch.FuzzySubsequenceScore` | src/LabrastroController.ts:4296-4306 | The loop returns that score, and returns one exactly for subsequences. |
| `FuzzyMatch.FiniteIffSubsequence` | src/LabrastroController.ts:4281-4294 | A mention score is finite exactly when the mention is empty or a subsequence of the lower-cased path. |
| `FuzzyMatch.SlashesAre` | src/LabrastroController.ts:4282-4282 | In a mention a backslash counts as a slash, and nothing else changes. |
| `FuzzyMatch.PartsAdd` | src/LabrastroController.ts:4283-4283 | How many parts a path has. |
| `FuzzyMatch.LastPartIs` | src/LabrastroController.ts:4285-4285 | The name of a file is what follows its last slash. |
| `FuzzyMatch.ScoreBands` | src/LabrastroController.ts:4286-4289 | A name that begins with the mention scores 0, a path that does 1, and nothing else below 10. |
| `FuzzyMatch.DepthDecidesBlank` | src/LabrastroController.ts:4281-4283 | Without a mention a file scores by its depth. |
| `FuzzyMatch.PrefixesComeFirst` | src/LabrastroController.ts:4286-4289 | So the one comes before every other file, the other before all the rest, and of two files that contain the mention the one that does so earlier. |
| `FuzzyMatch.ContiguousComesFirst` | src/LabrastroController.ts:4281-4294 | A path in which the mention begins within the first 90 characters comes before every path that only contains it scattered. |
| `ReconnectBudget.BudgetIs` | src/LabrastroController.ts:142-143 | The delays allow exactly 23 retries within the deadline. |
| `ReconnectBudget.FailureSets` | src/LabrastroController.ts:3258-3311 | Exactly which failure is retried, after what delay, and what is recorded; a late one forgets the outage, other streams are left alone. |
| `ReconnectBudget.StepWithinBudget` | src/LabrastroController.ts:3258-3311 | No event takes an outage over the budget; after 23 retries the next failure is refused. |
| `ReconnectBudget.OutageIsBounded` | src/LabrastroController.ts:3258-3311 | Over every run of failures, batches and ends, on all streams at once, every outage stays within the budget. |
| `ReconnectBudget.AttemptsAreRetries` | src/LabrastroController.ts:3258-3311 | The attempts on record are the retries of the present outage, whatever other streams do. |
| `ReconnectBudget.RetriesAreBounded` | src/LabrastroController.ts:3258-3311 | No outage ever sees more than 23 retries. |
| `ReconnectBudget.BoundIsReached` | src/LabrastroController.ts:4970-4979 | An outage that fails again as soon as each delay is over sees all 23. |
| `ReconnectBudget.StreamRecovery.RetryAfterError` | src/LabrastroController.ts:3258-3311 | The answer, the delay and the recorded state are the specified ones. |
| `ReconnectBudget.StreamRecovery.MarkConnected` | src/LabrastroController.ts:3229-3230 | A batch forgets the outage. |
| `ReconnectBudget.StreamRecovery.StreamThroughOutage` | src/LabrastroController.ts:3170-3222 | The retry loop ends, after at most 23 retries, with the outage forgotten. |
| `LogRotation.RotatedKeeps` | src/PeerDiagnosticsLogger.ts:204-212 | Rotating loses the oldest file and nothing else, and keeps the order of the rest. |
| `LogRotation.WriteKeepsNewest` | src/PeerDiagnosticsLogger.ts:157-161 | A write keeps the files the newest suffix of everything written. |
| `LogRotation.WriteKeepsWellRotated` | src/PeerDiagnosticsLogger.ts:204-212 | A write keeps the files without gaps, each within 1 MiB or a single line, and each left only when it was full. |
| `LogRotation.LogKeepsNewest` | src/PeerDiagnosticsLogger.ts:157-212 | Both hold after any writes into an empty directory, and nothing is missing while there are fewer than five files. |
| `LogRotation.DropsOnlyOldLines` | src/PeerDiagnosticsLogger.ts:157-212 | Either every line written is still there, or the files hold more than 2 MiB of the newest lines. |
| `LogRotation.PeerDiagnosticsLog.RenameIfExists` | src/PeerDiagnosticsLogger.ts:214-222 | A missing source is ignored; a present one replaces the target. |
| `LogRotation.PeerDiagnosticsLog.RotateIfNeeded` | src/PeerDiagnosticsLogger.ts:204-212 | The descending loop moves every file up by one, losing only the last. |
| `LogRotation.PeerDiagnosticsLog.Log` | src/PeerDiagnosticsLogger.ts:157-161 | Rotates if the line does not fit, then appends it. |

## Left out

- `SessionRuntimeStore.replace`: it lets a caller put in any model at all.
- Branch-local operations begun with an id that is still in flight in another scope: an id counts as begun each time.
- Operation prompts, previews and other opaque fields of operations and scopes: carried by the code, never inspected.
- The messages of a refused source resolution and the event type recorded in a rejection: labels only.
- Handling of webview messages and submit dispositions in the session-run coordinator: finite case tables around foreign calls.
- SessionRunCoordinator.Coordinator.SetSelectedMainlineSnapshot: a fresh snapshot brings its own queues; nothing is promised about turns queued in the one it replaces.
- Numbers that are not finite, and chunk numbers that are not integers: numbers are integers or reals.
- Strings outside the basic multilingual plane, where the code counts UTF-16 units and iterates code points: strings are sequences of characters.
- Decoding of bytes to text in the SSE reader, and back-pressure of its callback: the model starts from decoded chunks.
- SseStream.ParseSseFrame: a line without a colon is ignored, as in the code; section 9.2.6 of the WHATWG HTML Standard takes it for a field name with an empty value.
- Tool-call, approval-request and approval-resolved events of the transcript reducer: they depend on `tool-event-parts`, which is not part of this model.
- TranscriptStream.Bundle.ApplyEvent: item ids, raw event references, trace status, run statistics and the session's title and state are left out; they do not influence the items or their text.
- Failing file operations and messages dropped by log settings: every write in the queue is carried out, one after the other.
- ReconnectBudget.StreamRecovery.StreamThroughOutage: models the stream loop during an outage, without the batches between outages, which may go on forever.
- ReconnectBudget.StreamRecovery.RetryAfterError: the patch of the selected snapshot and the message that announce a retry are left out; the retry does not depend on them.
- Objects that are read both by declared field and by free key: a stored value keeps the two apart, and no value is read in both ways.
- Classification of errors as transient and the check that a stream is still wanted: parameters of each failure.
- User interface, HTTP, authentication, peer processes, downloads and admin coordinators: input and output only.
