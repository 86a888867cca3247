// The coordinator that holds the selected mainline snapshot: what setting, patching and queueing do
// to the snapshot, to its identity revision and to the saved payload.

module SessionRunCoordinator {
  import opened Wrappers
  import Protocol = RuntimeProtocol
  import Identity = IdentitySafety
  import opened MainlineSnapshot
  import opened PendingTurnQueues
  import opened SnapshotPersistence
  import opened SnapshotRoundTrip

  /** What a stored snapshot keeps: it has a branch, and its pending turn is the head of that branch's queue. */
  predicate Stored(run: Option<Snapshot>) {
    run.Some? ==>
      Present(run.value.branchBindingId)
      && run.value.pendingNextTurn == SelectedHead(run.value.sessionRunId, run.value.branchBindingId, run.value.queues)
  }

  /** The projection revision moves exactly when the text the snapshot is compared by changes. */
  function ProjectionAfter(text: Snapshot -> string, previous: Option<Snapshot>, next: Option<Snapshot>, revision: int): int {
    if StateKey(text, previous) != StateKey(text, next) then revision + 1 else revision
  }

  function StateKey(text: Snapshot -> string, run: Option<Snapshot>): string {
    if run.Some? then text(run.value) else ""
  }

  function Stores(next: Option<Snapshot>): Option<Snapshot> {
    if next.Some? then Normalize(next.value) else None
  }

  function IdentityOf(run: Option<Snapshot>): Option<Protocol.SelectedIdentity> {
    if run.None? then None
    else Some(Protocol.SelectedIdentity(Some(run.value.sessionRunId), run.value.branchBindingId, run.value.agentRunId))
  }

  function QueuesIn(run: Option<Snapshot>): Queues {
    if run.Some? then run.value.queues else map[]
  }

  /** A partial snapshot: `others` holds what the fields other than the two named become. */
  datatype Patch = Patch(others: Snapshot, queues: Option<Queues>, pendingNextTurn: Option<Option<Turn>>)

  function Merge(run: Snapshot, patch: Patch): Snapshot {
    patch.others.(queues := patch.queues.GetOr(run.queues),
                  pendingNextTurn := patch.pendingNextTurn.GetOr(run.pendingNextTurn))
  }

  /** What happens to the stored snapshot between two settings of it. */
  datatype Step = Queueing(act: QueueAct) | Patching(patch: Patch)

  function After(run: Option<Snapshot>, step: Step): Option<Snapshot> {
    if run.None? then None
    else match step
      case Queueing(act) =>
        if Idle(run.value.queues, act) then run
        else Normalize(run.value.(queues := Apply(run.value.queues, act), pendingNextTurn := None))
      case Patching(patch) => Normalize(Merge(run.value, patch))
  }

  /** An act that finds nothing to take leaves the snapshot alone altogether. */
  predicate Idle(qs: Queues, act: QueueAct) {
    (act.Shift? && Queue(qs, act.key) == []) || (act.Remove? && MatchIndex(Queue(qs, act.key), act.removal).None?)
  }

  // ---------------------------------------------------------------------------
  // What a step does to the queues
  // ---------------------------------------------------------------------------

  /** Queueing keeps the run, its identity and its head, and does to the queues exactly what the act says. */
  lemma QueueingIsExact(run: Snapshot, act: QueueAct)
    requires Stored(Some(run))
    ensures var next := After(Some(run), Queueing(act));
      && next.Some? && Stored(next)
      && next.value.queues == Apply(run.queues, act)
      && IdentityOf(next) == IdentityOf(Some(run))
  {
  }

  /** A patch leaves exactly the queues it should unless it takes every queue away and leaves a pending
      turn standing, which then comes back as a queue; a patch without a branch loses everything. */
  lemma PatchKeepsQueuesIff(run: Snapshot, patch: Patch)
    requires Stored(Some(run))
    ensures var next, meant := After(Some(run), Patching(patch)), patch.queues.GetOr(run.queues);
      && Stored(next)
      && (next.Some? <==> Present(patch.others.branchBindingId))
      && (next.Some? ==>
           (next.value.queues == meant <==> meant != map[] || patch.pendingNextTurn.GetOr(run.pendingNextTurn).None?))
  {
    var meant := patch.queues.GetOr(run.queues);
    if meant == map[] && patch.pendingNextTurn.GetOr(run.pendingNextTurn).Some? && Present(patch.others.branchBindingId) {
      var key := QueueKey(patch.others.sessionRunId, patch.others.branchBindingId.value);
      assert key in After(Some(run), Patching(patch)).value.queues;
    }
  }

  /** A patch that mentions neither queues nor pending turn neither loses a queued turn nor brings one back. */
  lemma PlainPatchKeepsQueues(run: Snapshot, patch: Patch)
    requires Stored(Some(run)) && PlainPatch(patch)
    ensures After(Some(run), Patching(patch)).Some?
    ensures After(Some(run), Patching(patch)).value.queues == run.queues
  {
    PatchKeepsQueuesIff(run, patch);
    assert run.pendingNextTurn.Some? ==> run.queues != map[];
  }

  predicate PlainPatch(patch: Patch) {
    patch.queues.None? && patch.pendingNextTurn.None? && Present(patch.others.branchBindingId)
  }

  /** Emptying the queues without clearing the pending turn does bring the head back. */
  lemma EmptyingPatchResurrects(run: Snapshot)
    requires Stored(Some(run)) && run.pendingNextTurn.Some?
    ensures var next := After(Some(run), Patching(Patch(run, Some(map[]), None)));
      next.Some? && Queue(next.value.queues, QueueKey(run.sessionRunId, run.branchBindingId.value))
                    == [run.pendingNextTurn.value.(sessionRunId := Some(run.sessionRunId), branchBindingId := run.branchBindingId)]
  {
  }

  function AfterAll(run: Option<Snapshot>, steps: seq<Step>): Option<Snapshot>
    decreases |steps|
  {
    if steps == [] then run else AfterAll(After(run, steps[0]), steps[1..])
  }

  function ActsOf(steps: seq<Step>): seq<QueueAct> {
    if steps == [] then []
    else (if steps[0].Queueing? then [steps[0].act] else []) + ActsOf(steps[1..])
  }

  predicate PlainStep(step: Step) {
    step.Queueing? || PlainPatch(step.patch)
  }

  lemma PlainStepActs(run: Option<Snapshot>, step: Step)
    requires run.Some? && Stored(run) && PlainStep(step)
    ensures After(run, step).Some? && Stored(After(run, step))
    ensures After(run, step).value.queues == if step.Queueing? then Apply(run.value.queues, step.act) else run.value.queues
  {
    if step.Queueing? {
      QueueingIsExact(run.value, step.act);
    } else {
      PatchKeepsQueuesIff(run.value, step.patch);
      PlainPatchKeepsQueues(run.value, step.patch);
    }
  }

  /** Over any run of queue calls and plain patches, the queues are those of the queue calls alone, and the
      pending turn is the selected head throughout. */
  lemma {:induction false} StepsActOnQueues(run: Option<Snapshot>, steps: seq<Step>)
    requires run.Some? && Stored(run) && forall i :: 0 <= i < |steps| ==> PlainStep(steps[i])
    ensures AfterAll(run, steps).Some? && Stored(AfterAll(run, steps))
    ensures AfterAll(run, steps).value.queues == RunActs(run.value.queues, ActsOf(steps))
    decreases |steps|
  {
    if steps != [] {
      var next := After(run, steps[0]);
      PlainStepActs(run, steps[0]);
      StepsActOnQueues(next, steps[1..]);
      var acts := ActsOf(steps[1..]);
      if steps[0].Queueing? {
        assert ([steps[0].act] + acts)[1..] == acts;
      } else {
        assert [] + acts == acts;
      }
    }
  }

  /** Nor is a queue ever stored empty. */
  lemma StepsLeaveNoEmptyQueue(run: Option<Snapshot>, steps: seq<Step>)
    requires run.Some? && Stored(run) && NoEmptyQueue(run.value.queues)
    requires forall i :: 0 <= i < |steps| ==> PlainStep(steps[i])
    ensures AfterAll(run, steps).Some? && NoEmptyQueue(AfterAll(run, steps).value.queues)
  {
    StepsActOnQueues(run, steps);
    ActsLeaveNoEmptyQueue(run.value.queues, ActsOf(steps));
  }

  /** The turns a run has handed out and those that still wait are, in order, among those it had and was
      given: nothing out of order, nothing from another branch, nothing made up. */
  lemma StepsKeepOrder(run: Option<Snapshot>, steps: seq<Step>, key: string)
    requires run.Some? && Stored(run) && forall i :: 0 <= i < |steps| ==> PlainStep(steps[i])
    ensures AfterAll(run, steps).Some?
    ensures Subsequence(Shifted(run.value.queues, ActsOf(steps), key) + Queue(AfterAll(run, steps).value.queues, key),
                        Queue(run.value.queues, key) + Enqueued(ActsOf(steps), key))
    ensures multiset(Queue(run.value.queues, key)) + multiset(Enqueued(ActsOf(steps), key))
         == multiset(Shifted(run.value.queues, ActsOf(steps), key)) + Dropped(run.value.queues, ActsOf(steps), key)
            + multiset(Queue(AfterAll(run, steps).value.queues, key))
  {
    StepsActOnQueues(run, steps);
    QueueKeepsOrder(run.value.queues, ActsOf(steps), key);
    QueueConservesTurns(run.value.queues, ActsOf(steps), key);
  }

  // ---------------------------------------------------------------------------
  // The coordinator
  // ---------------------------------------------------------------------------

  class Coordinator {
    var run: Option<Snapshot>
    var draftSessionId: Option<string>
    var identityRevision: int
    var projectionRevision: int
    var pendingStart: Option<string>
    var saved: Option<Payload>
    const stateText: Snapshot -> string  // a snapshot's payload as one text

    predicate Valid()
      reads this
    {
      Stored(run)
    }

    /** Starts from the payload kept in the workspace, if there is one. */
    constructor (env: Env, kept: Option<Payload>, stateText: Snapshot -> string)
      requires Sound(env)
      ensures Valid()
      ensures run == if kept.Some? then Restore(env, kept.value) else None
      ensures NoEmptyQueue(QueuesIn(run))
      ensures draftSessionId == if run.Some? then run.value.draftSessionId else None
      ensures identityRevision == 0 && projectionRevision == 0 && pendingStart == None && saved == kept
      ensures this.stateText == stateText
    {
      var restored := if kept.Some? then Restore(env, kept.value) else None;
      if restored.Some? {
        RestoringGivesRestored(env, kept.value);
        assert CleanOption(env, TextIn(restored.value, FBranchBindingId));
      }
      run := restored;
      draftSessionId := if restored.Some? then restored.value.draftSessionId else None;
      identityRevision := 0;
      projectionRevision := 0;
      this.stateText := stateText;
      pendingStart := None;
      saved := kept;
    }

    /** Stores the normalized snapshot and saves it; the revision moves exactly when the identity does. */
    method SetSelectedMainlineSnapshot(next: Option<Snapshot>)
      modifies this
      ensures Valid()
      ensures run == Stores(next)
      ensures identityRevision == Identity.RevisionAfter(IdentityOf(old(run)), IdentityOf(run), old(identityRevision))
      ensures projectionRevision == ProjectionAfter(stateText, old(run), run, old(projectionRevision))
      ensures pendingStart == if run.Some? && run.value.sessionRunId != "" then None else old(pendingStart)
      ensures saved == if run.Some? then Some(PayloadOf(run.value)) else None
      ensures draftSessionId == old(draftSessionId)
    {
      var previous, previousState := Identity.IdentityKey(IdentityOf(run)), StateKey(stateText, run);
      var normalized := if next.Some? then Normalize(next.value) else None;
      run := normalized;
      if normalized.Some? && normalized.value.sessionRunId != "" {
        pendingStart := None;
      }
      if previous != Identity.IdentityKey(IdentityOf(normalized)) {
        identityRevision := identityRevision + 1;
      }
      if previousState != StateKey(stateText, normalized) {
        projectionRevision := projectionRevision + 1;
      }
      saved := if normalized.Some? then Some(PayloadOf(normalized.value)) else None;
    }

    /** Patches the stored snapshot; what is returned is the merge, not what was stored. */
    method PatchSelectedMainlineSnapshot(patch: Patch) returns (merged: Option<Snapshot>)
      requires Valid()
      modifies this
      ensures Valid()
      ensures run == After(old(run), Patching(patch))
      ensures merged == if old(run).Some? then Some(Merge(old(run).value, patch)) else None
      ensures old(run).None? ==> unchanged(this)
      ensures old(run).Some? ==>
        && identityRevision == Identity.RevisionAfter(IdentityOf(old(run)), IdentityOf(run), old(identityRevision))
        && projectionRevision == ProjectionAfter(stateText, old(run), run, old(projectionRevision))
        && pendingStart == (if run.Some? && run.value.sessionRunId != "" then None else old(pendingStart))
        && saved == (if run.Some? then Some(PayloadOf(run.value)) else None)
      ensures draftSessionId == old(draftSessionId)
    {
      if run.None? {
        return None;
      }
      merged := Some(Merge(run.value, patch));
      SetSelectedMainlineSnapshot(merged);
    }

    method ClearSelectedMainlineSnapshot()
      modifies this
      ensures Valid()
      ensures run == None && pendingStart == None && draftSessionId == None && saved == None
      ensures identityRevision == Identity.RevisionAfter(IdentityOf(old(run)), None, old(identityRevision))
      ensures projectionRevision == ProjectionAfter(stateText, old(run), None, old(projectionRevision))
    {
      pendingStart := None;
      SetSelectedMainlineSnapshot(None);
      draftSessionId := None;
    }

    method PendingNextTurnForBranch(sessionRunId: Option<string>, branchBindingId: Option<string>) returns (turn: Option<Turn>)
      requires Valid()
      ensures Present(sessionRunId) && Present(branchBindingId) ==>
        var q := Queue(QueuesIn(run), QueueKey(sessionRunId.value, branchBindingId.value));
        turn == if q == [] then None else Some(q[0])
      ensures !Present(sessionRunId) || !Present(branchBindingId) ==> turn == None
      ensures (run.Some? && Present(sessionRunId) && sessionRunId == Some(run.value.sessionRunId)
               && branchBindingId == run.value.branchBindingId) ==> turn == run.value.pendingNextTurn
    {
      if !Present(sessionRunId) || !Present(branchBindingId) || run.None? {
        return None;
      }
      var q := Queue(run.value.queues, QueueKey(sessionRunId.value, branchBindingId.value));
      turn := if q == [] then None else Some(q[0]);
    }

    /** The turns of a branch move as one queue act; the identity, its revision and every other queue stay. */
    twostate predicate Queued(act: QueueAct)
      reads this
    {
      && Valid() && run == After(old(run), Queueing(act))
      && QueuesIn(run) == (if old(run).Some? then Apply(old(QueuesIn(run)), act) else map[])
      && IdentityOf(run) == old(IdentityOf(run)) && identityRevision == old(identityRevision)
      && draftSessionId == old(draftSessionId)
      && projectionRevision == ProjectionAfter(stateText, old(run), run, old(projectionRevision))
      && (run != old(run) ==> saved == (if run.Some? then Some(PayloadOf(run.value)) else None))
    }

    /** Hands out the head of a branch's queue. */
    method ShiftPendingNextTurnForBranch(sessionRunId: Option<string>, branchBindingId: Option<string>) returns (turn: Option<Turn>)
      requires Valid()
      modifies this
      ensures Present(sessionRunId) && Present(branchBindingId) ==>
        var key := QueueKey(sessionRunId.value, branchBindingId.value);
        && Queued(Shift(key))
        && Left(old(QueuesIn(run)), Shift(key), key) == (if turn.Some? then [turn.value] else [])
      ensures !Present(sessionRunId) || !Present(branchBindingId) ==> turn == None && unchanged(this)
    {
      if run.None? || !Present(sessionRunId) || !Present(branchBindingId) {
        return None;
      }
      var key := QueueKey(sessionRunId.value, branchBindingId.value);
      var current := Queue(run.value.queues, key);
      QueueingIsExact(run.value, Shift(key));
      if current == [] {
        return None;
      }
      turn := Some(current[0]);
      PutAndPatch(key, current[1..]);
    }

    /** Removes the first turn of a branch's queue that the removal matches. */
    method RemovePendingNextTurnForBranch(sessionRunId: Option<string>, branchBindingId: Option<string>, removal: Removal)
      requires Valid()
      modifies this
      ensures Present(sessionRunId) && Present(branchBindingId) ==>
        Queued(Remove(QueueKey(sessionRunId.value, branchBindingId.value), removal))
      ensures Present(sessionRunId) && Present(branchBindingId) && NoEmptyQueue(old(QueuesIn(run))) ==>
        var key := QueueKey(sessionRunId.value, branchBindingId.value);
        WithoutFirst(Queue(old(QueuesIn(run)), key), Queue(QueuesIn(run), key), (t: Turn) =>
          || (Present(removal.clientRequestId) && t.clientRequestId == removal.clientRequestId)
          || (Present(removal.queuedAt) && Present(removal.text)
              && Some(t.queuedAt) == removal.queuedAt && Some(t.text) == removal.text)
          || (!Present(removal.clientRequestId) && !Present(removal.queuedAt) && Present(removal.text)
              && Some(t.text) == removal.text))
      ensures !Present(sessionRunId) || !Present(branchBindingId) ==> unchanged(this)
    {
      if !Present(sessionRunId) || !Present(branchBindingId) {
        return;
      }
      var key := QueueKey(sessionRunId.value, branchBindingId.value);
      RemovalIsOfFirst(QueuesIn(run), key, removal);
      if run.None? {
        return;
      }
      var current := Queue(run.value.queues, key);
      QueueingIsExact(run.value, Remove(key, removal));
      var index := 0;
      while index < |current| && !TurnMatches(current[index], removal)
        invariant 0 <= index <= |current|
        invariant forall j :: 0 <= j < index ==> !TurnMatches(current[j], removal)
      {
        index := index + 1;
      }
      if index == |current| {
        return;
      }
      assert MatchIndex(current, removal) == Some(index);
      PutAndPatch(key, DropAt(current, index));
    }

    method ClearPendingNextTurnForBranch(sessionRunId: Option<string>, branchBindingId: Option<string>)
      requires Valid()
      modifies this
      ensures Present(sessionRunId) && Present(branchBindingId) ==>
        Queued(Clear(QueueKey(sessionRunId.value, branchBindingId.value)))
      ensures !Present(sessionRunId) || !Present(branchBindingId) ==> unchanged(this)
    {
      if run.None? || !Present(sessionRunId) || !Present(branchBindingId) {
        return;
      }
      var key := QueueKey(sessionRunId.value, branchBindingId.value);
      QueueingIsExact(run.value, Clear(key));
      PutAndPatch(key, []);
    }

    /** Puts a turn at the end of a branch's queue, marked with that branch; without a run it is lost. */
    method EnqueuePendingNextTurnForBranch(sessionRunId: Option<string>, branchBindingId: Option<string>, turn: Turn)
      requires Valid()
      modifies this
      ensures Present(sessionRunId) && Present(branchBindingId) ==>
        Queued(Enqueue(QueueKey(sessionRunId.value, branchBindingId.value),
                       turn.(sessionRunId := sessionRunId, branchBindingId := branchBindingId)))
      ensures !Present(sessionRunId) || !Present(branchBindingId) ==> unchanged(this)
    {
      if !Present(sessionRunId) || !Present(branchBindingId) {
        return;
      }
      var key := QueueKey(sessionRunId.value, branchBindingId.value);
      var marked := turn.(sessionRunId := sessionRunId, branchBindingId := branchBindingId);
      var queues := if run.Some? then run.value.queues else map[];
      queues := queues[key := Queue(queues, key) + [marked]];
      if run.Some? {
        QueueingIsExact(run.value, Enqueue(key, marked));
        var _ := PatchSelectedMainlineSnapshot(Patch(run.value, Some(queues), None));
      }
    }

    /** Puts what remains of a queue back, or takes the queue away, with the pending turn cleared. */
    method PutAndPatch(key: string, remaining: seq<Turn>)
      requires Valid() && run.Some?
      modifies this
      ensures Valid()
      ensures run == Normalize(old(run).value.(queues := PutQueue(old(run).value.queues, key, remaining), pendingNextTurn := None))
      ensures identityRevision == Identity.RevisionAfter(IdentityOf(old(run)), IdentityOf(run), old(identityRevision))
      ensures projectionRevision == ProjectionAfter(stateText, old(run), run, old(projectionRevision))
      ensures saved == if run.Some? then Some(PayloadOf(run.value)) else None
      ensures draftSessionId == old(draftSessionId)
    {
      var queues := run.value.queues;
      if remaining == [] {
        queues := queues - {key};
      } else {
        queues := queues[key := remaining];
      }
      var _ := PatchSelectedMainlineSnapshot(Patch(run.value, Some(queues), Some(None)));
    }
  }
}
