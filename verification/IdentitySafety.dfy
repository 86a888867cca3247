// Responses and the selected identity: a response to a visible operation is accepted only if the
// selected identity never moved since the operation was begun, not even away and back.

module IdentitySafety {
  import opened Wrappers
  import opened RuntimeModel
  import opened RuntimeProtocol
  import opened ProtocolInvariant
  import opened ProtocolRuns

  // ---------------------------------------------------------------------------
  // Resolving the source of an operation
  // ---------------------------------------------------------------------------

  datatype BranchRecord = BranchRecord(branchBindingId: string, agentRunId: string)

  datatype ResolveFailure =
    | NoBranch | NoRun | NoSelectedRun | AnotherRunSelected | AnotherBranchSelected | NoAgentRun

  datatype Resolution =
    | Resolved(source: BranchIdentity, targetBranchBindingId: string, selectedBranch: bool)
    | Unresolved(failure: ResolveFailure)

  /** The agent run of the first branch record with this id. */
  function BranchAgentRun(branches: seq<BranchRecord>, branch: string): string {
    if branches == [] then ""
    else if branches[0].branchBindingId == branch then branches[0].agentRunId
    else BranchAgentRun(branches[1..], branch)
  }

  function SelectedBranch(selected: Option<SelectedIdentity>): string {
    if selected.Some? then selected.value.branchBindingId.GetOr("") else ""
  }

  function ResolveSource(
    selected: Option<SelectedIdentity>, branches: seq<BranchRecord>, revision: int,
    run: Option<string>, branch: Option<string>, scope: SourceScope): Resolution
  {
    if !Present(branch) then Unresolved(NoBranch)
    else if !Present(run) then Unresolved(NoRun)
    else if !Present(SelectedRun(selected)) then Unresolved(NoSelectedRun)
    else if SelectedRun(selected) != run then Unresolved(AnotherRunSelected)
    else
      var selectedBranch := SelectedBranch(selected) == branch.value;
      if scope == SelectedVisible && !selectedBranch then Unresolved(AnotherBranchSelected)
      else
        var agent := if selectedBranch then selected.value.agentRunId.GetOr("") else BranchAgentRun(branches, branch.value);
        if agent == "" then Unresolved(NoAgentRun)
        else Resolved(BranchIdentity(run.value, branch.value, agent, if selectedBranch then revision else 0),
                      branch.value, selectedBranch)
  }

  /** A visible source resolves exactly when it names the selected run and branch, and then it is
      the selected identity at the current revision. */
  lemma VisibleSourceIsSelected(
    selected: Option<SelectedIdentity>, branches: seq<BranchRecord>, revision: int,
    run: Option<string>, branch: Option<string>)
    ensures var r := ResolveSource(selected, branches, revision, run, branch, SelectedVisible);
      && (r.Resolved? <==>
            && Present(run) && Present(branch) && selected.Some?
            && selected.value.sessionRunId == run && selected.value.branchBindingId == branch
            && Present(selected.value.agentRunId))
      && (r.Resolved? ==>
            && r.source.sourceIdentityRevision == revision
            && selected.value == SelectedIdentity(Some(r.source.sessionRunId), Some(r.source.branchBindingId),
                                                  Some(r.source.agentRunId)))
  {
  }

  lemma {:induction false} FirstRecordDecides(branches: seq<BranchRecord>, branch: string)
    ensures forall i :: 0 <= i < |branches| && branches[i].branchBindingId == branch
                        && (forall j :: 0 <= j < i ==> branches[j].branchBindingId != branch) ==>
      BranchAgentRun(branches, branch) == branches[i].agentRunId
    ensures (forall i :: 0 <= i < |branches| ==> branches[i].branchBindingId != branch) ==> BranchAgentRun(branches, branch) == ""
    decreases |branches|
  {
    if branches != [] {
      FirstRecordDecides(branches[1..], branch);
    }
  }

  /** A branch-local source resolves within the selected run: on the selected branch to the selected agent run
      at the current revision, on any other to the agent run of its first record, without a revision; it does
      not resolve without an agent run. */
  lemma LocalSourceResolves(
    selected: Option<SelectedIdentity>, branches: seq<BranchRecord>, revision: int,
    run: Option<string>, branch: Option<string>)
    ensures var r := ResolveSource(selected, branches, revision, run, branch, BranchLocal);
      var named := Present(run) && Present(branch) && selected.Some? && selected.value.sessionRunId == run;
      && (r.Resolved? ==> named)
      && (named && selected.value.branchBindingId == branch ==>
            (r.Resolved? <==> Present(selected.value.agentRunId))
            && (r.Resolved? ==> r == Resolved(BranchIdentity(run.value, branch.value, selected.value.agentRunId.value, revision),
                                              branch.value, true)))
      && (named && selected.value.branchBindingId != branch ==>
            forall i :: 0 <= i < |branches| && branches[i].branchBindingId == branch.value
                        && (forall j :: 0 <= j < i ==> branches[j].branchBindingId != branch.value) ==>
              (r.Resolved? <==> branches[i].agentRunId != "")
              && (r.Resolved? ==> r == Resolved(BranchIdentity(run.value, branch.value, branches[i].agentRunId, 0), branch.value, false)))
      && ((&& named && selected.value.branchBindingId != branch
           && (forall i :: 0 <= i < |branches| ==> branches[i].branchBindingId != branch.value)) ==> !r.Resolved?)
  {
    if Present(branch) {
      FirstRecordDecides(branches, branch.value);
    }
  }

  // ---------------------------------------------------------------------------
  // The selected identity and its revision
  // ---------------------------------------------------------------------------

  /** What identity changes are measured by: missing parts count as empty. */
  function IdentityKey(selected: Option<SelectedIdentity>): Option<(string, string, string)> {
    match selected
    case None => None
    case Some(s) => Some((s.sessionRunId.GetOr(""), s.branchBindingId.GetOr(""), s.agentRunId.GetOr("")))
  }

  function RevisionAfter(previous: Option<SelectedIdentity>, next: Option<SelectedIdentity>, revision: int): int {
    if IdentityKey(previous) != IdentityKey(next) then revision + 1 else revision
  }

  // ---------------------------------------------------------------------------
  // The whole system
  // ---------------------------------------------------------------------------

  datatype System = System(selected: Option<SelectedIdentity>, revision: int, model: Model)

  /** Anything that may happen, in any order: the selection moves, an operation begins, any other call. */
  datatype Action =
    | Move(next: Option<SelectedIdentity>)
    | StartVisible(operationId: string)
    | OperateVisible(operationId: string, kind: OperationKind, run: Option<string>, branch: Option<string>, target: string)
    | OperateLocal(operationId: string, kind: OperationKind, branches: seq<BranchRecord>,
                   run: Option<string>, branch: Option<string>, target: string)
    | Make(call: Call)

  function StartArgs(sys: System, operationId: string): BeginArgs {
    BeginArgs(operationId, Start, Some(sys.revision), Truthy(SelectedRun(sys.selected)), None, None, None)
  }

  function SourcedArgs(operationId: string, kind: OperationKind, source: BranchIdentity, scope: SourceScope, target: string): BeginArgs {
    BeginArgs(operationId, kind, None, None, Some(source), Some(scope), Some(target))
  }

  /** The begin an action makes, if its source resolves. */
  function BeginOf(sys: System, act: Action): Option<BeginArgs> {
    match act
    case StartVisible(id) => Some(StartArgs(sys, id))
    case OperateVisible(id, kind, run, branch, target) =>
      var r := ResolveSource(sys.selected, [], sys.revision, run, branch, SelectedVisible);
      if r.Resolved? then Some(SourcedArgs(id, kind, r.source, SelectedVisible, target)) else None
    case OperateLocal(id, kind, branches, run, branch, target) =>
      var r := ResolveSource(sys.selected, branches, sys.revision, run, branch, BranchLocal);
      if r.Resolved? then Some(SourcedArgs(id, kind, r.source, BranchLocal, target)) else None
    case _ => None
  }

  ghost function Next(sys: System, act: Action): System {
    match act
    case Move(next) => sys.(selected := next, revision := RevisionAfter(sys.selected, next, sys.revision))
    case Make(call) => sys.(model := Exec(sys.model, sys.selected, sys.revision, call).reduction.model)
    case _ =>
      var begin := BeginOf(sys, act);
      if begin.Some? then sys.(model := BeginRun(sys.model, begin.value).model) else sys
  }

  /** Only resolved begins are made, no real run carries the stand-in id, and starts are begun as such. */
  predicate SystemAction(act: Action) {
    match act
    case Move(next) => SelectedRun(next) != Some(PENDING_RUN)
    case Make(call) => ProtocolCall(call) && !call.BeginOperation?
    case OperateVisible(_, kind, _, _, _) => kind != Start
    case OperateLocal(_, kind, _, _, _, _) => kind != Start
    case StartVisible(_) => true
  }

  ghost predicate SystemInv(sys: System) {
    && ProtocolInv(sys.model)
    && SelectedRun(sys.selected) != Some(PENDING_RUN)
    && forall s :: Matches(sys.model, s, VISIBLE) ==> Dated(sys, At(sys.model, s))
  }

  /** The operation is no newer than the system, and while it is as new, its identity is the selected one. */
  predicate Dated(sys: System, op: Operation) {
    && op.sourceIdentityRevision <= sys.revision
    && (op.sourceIdentityRevision == sys.revision ==> StillCurrentForFailure(sys.selected, sys.revision, op))
  }

  // ---------------------------------------------------------------------------
  // What a step may store
  // ---------------------------------------------------------------------------

  lemma ConfirmStoresNoMore(m: Model, s: Slot, target: ScopeId, agent: Option<string>)
    requires ProtocolInv(m) && Stored(m, s) && At(m, s).kind == Start && target.sessionRunId != PENDING_RUN
    ensures StoresNoMore(ConfirmStart(m, At(m, s), target, agent).model, m)
  {
    if HandoverConflicts(m, m.scopes[s.scope], target, agent) {
      RefusedHandover(m, s, target, agent);
    } else {
      HandoverShape(m, s, target, agent);
    }
  }

  lemma OutcomeStoresNoMore(m: Model, s: Slot, target: ScopeId, agent: Option<string>, r: Reduction)
    requires ProtocolInv(m) && ResponseOutcome(m, s, target, agent, r)
    ensures StoresNoMore(r.model, m)
  {
    if r == Unchanged(m) {
    } else if r == SettleAs(m, At(m, s), true) {
      SettleStored(m, s, Success);
    } else if r == SettleAs(m, At(m, s), false) {
      SettleStored(m, s, Failure);
    } else {
      ConfirmStoresNoMore(m, s, target, agent);
    }
  }

  lemma ResponseStoresNoMore(m: Model, selected: Option<SelectedIdentity>, revision: int, c: Call)
    requires ProtocolInv(m) && IsResponse(c) && ProtocolCall(c)
    ensures StoresNoMore(ExecResponse(m, selected, revision, c).reduction.model, m)
  {
    var s, target, agent := ResponseHasOutcome(m, selected, revision, c);
    OutcomeStoresNoMore(m, s, target, agent, ExecResponse(m, selected, revision, c).reduction);
  }

  lemma CallStoresNoMore(m: Model, selected: Option<SelectedIdentity>, revision: int, c: Call)
    requires ProtocolInv(m) && ProtocolCall(c) && !c.BeginOperation?
    ensures StoresNoMore(Exec(m, selected, revision, c).reduction.model, m)
  {
    if IsResponse(c) {
      ResponseStoresNoMore(m, selected, revision, c);
    } else {
      match c
      case EnsureScope(input) => EnsureStoresNoMore(m, input);
      case Restore(input) => EnsureStoresNoMore(m, input.(select := true));
      case AdvanceCursor(id, cursor, status) => CursorStoresNoMore(m, id, cursor, status);
      case Deliver(event) => DeliveryKeepsInv(m, event);
    }
  }

  function OperationOf(a: BeginArgs): Operation
    requires a.kind == Start || HasSource(a)
  {
    if a.kind == Start then StartOperation(a) else SourcedOperation(a)
  }

  predicate SourceIsReal(a: BeginArgs) {
    a.source.Some? ==> a.source.value.sessionRunId != PENDING_RUN
  }

  lemma OneMoreVisible(next: Model, m: Model, op: Operation, s: Slot)
    requires StoresOneMore(next, m, op) && Matches(next, s, VISIBLE)
    ensures At(next, s) == op || (Matches(m, s, VISIBLE) && At(next, s) == At(m, s))
  {
  }

  /** After a begin, a visible operation is the one begun, or the begin was branch-local and it was visible before. */
  lemma BeginStoresVisible(m: Model, a: BeginArgs, s: Slot)
    requires ProtocolInv(m) && SourceIsReal(a) && Matches(BeginRun(m, a).model, s, VISIBLE)
    ensures var op := At(BeginRun(m, a).model, s);
      || ((a.kind == Start || HasSource(a)) && op == OperationOf(a) && op.visible)
      || (a.kind != Start && ScopeOf(a) == BranchLocal && Matches(m, s, VISIBLE) && op == At(m, s))
  {
    ClearingLeavesNoneVisible(m);
    var next := BeginRun(m, a).model;
    if a.kind == Start {
      StoreStartKeepsInv(ClearVisible(m), a);
      OneMoreVisible(next, ClearVisible(m).model, StartOperation(a), s);
    } else if HasSource(a) {
      if ScopeOf(a) == SelectedVisible {
        StoreSourcedKeepsInv(ClearVisible(m), a);
        OneMoreVisible(next, ClearVisible(m).model, SourcedOperation(a), s);
      } else {
        StoreSourcedKeepsInv(Unchanged(m), a);
        OneMoreVisible(next, m, SourcedOperation(a), s);
      }
    }
  }

  // ---------------------------------------------------------------------------
  // Every step keeps the system invariant
  // ---------------------------------------------------------------------------

  /** The operation an action begins visibly carries the current revision and the selected identity. */
  lemma BegunIsCurrent(sys: System, act: Action)
    requires SystemAction(act) && BeginOf(sys, act).Some?
    ensures var a := BeginOf(sys, act).value;
      (a.kind == Start || HasSource(a)) && OperationOf(a).visible ==>
        && OperationOf(a).sourceIdentityRevision == sys.revision
        && StillCurrentForFailure(sys.selected, sys.revision, OperationOf(a))
  {
    if act.OperateVisible? {
      VisibleSourceIsSelected(sys.selected, [], sys.revision, act.run, act.branch);
    }
  }

  lemma BeginIsReal(sys: System, act: Action)
    requires SystemInv(sys) && BeginOf(sys, act).Some?
    ensures SourceIsReal(BeginOf(sys, act).value)
  {
  }

  lemma MovingKeepsDates(sys: System, next: Option<SelectedIdentity>, op: Operation)
    requires Dated(sys, op)
    requires op.kind != Start ==> Present(op.sourceSessionRunId) && Present(op.sourceBranchBindingId) && Present(op.sourceAgentRunId)
    ensures Dated(Next(sys, Move(next)), op)
  {
  }

  lemma NextKeepsInv(sys: System, act: Action)
    requires SystemInv(sys) && SystemAction(act) && VisibleSourcesPresent(sys.model)
    ensures SystemInv(Next(sys, act)) && VisibleSourcesPresent(Next(sys, act).model)
  {
    var next := Next(sys, act);
    match act
    case Move(to) =>
      forall s | Matches(next.model, s, VISIBLE) ensures Dated(next, At(next.model, s)) {
        MovingKeepsDates(sys, to, At(sys.model, s));
      }
    case Make(call) =>
      CallKeepsInv(sys.model, sys.selected, sys.revision, call);
      CallStoresNoMore(sys.model, sys.selected, sys.revision, call);
      forall s | Matches(next.model, s, VISIBLE) ensures Dated(next, At(next.model, s)) && SourcesPresent(At(next.model, s)) {
        assert Matches(sys.model, s, VISIBLE);
      }
    case _ => BeginKeepsSystemInv(sys, act);
  }

  lemma BeginKeepsSystemInv(sys: System, act: Action)
    requires SystemInv(sys) && SystemAction(act) && VisibleSourcesPresent(sys.model) && !act.Move? && !act.Make?
    ensures SystemInv(Next(sys, act)) && VisibleSourcesPresent(Next(sys, act).model)
  {
    if BeginOf(sys, act).Some? {
      var a, next := BeginOf(sys, act).value, Next(sys, act);
      BeginIsReal(sys, act);
      BegunIsCurrent(sys, act);
      BeginRunKeepsInv(sys.model, a);
      forall s | Matches(next.model, s, VISIBLE) ensures Dated(next, At(next.model, s)) && SourcesPresent(At(next.model, s)) {
        BeginStoresVisible(sys.model, a, s);
        if act.OperateVisible? {
          VisibleSourceIsSelected(sys.selected, [], sys.revision, act.run, act.branch);
        }
      }
    }
  }

  /** A sourced operation names its source in full. */
  predicate SourcesPresent(op: Operation) {
    op.kind != Start ==> Present(op.sourceSessionRunId) && Present(op.sourceBranchBindingId) && Present(op.sourceAgentRunId)
  }

  ghost predicate VisibleSourcesPresent(m: Model) {
    forall s :: Matches(m, s, VISIBLE) ==> SourcesPresent(At(m, s))
  }

  // ---------------------------------------------------------------------------
  // Runs
  // ---------------------------------------------------------------------------

  ghost predicate Initial(sys: System) {
    SystemInv(sys) && VisibleSourcesPresent(sys.model)
  }

  ghost predicate StepAt(trace: seq<System>, acts: seq<Action>, k: nat)
    requires k < |acts| && |trace| == |acts| + 1
  {
    trace[k + 1] == Next(trace[k], acts[k])
  }

  /** `trace` lists the states a run of `acts` goes through, from a well-formed first state. */
  ghost predicate IsRun(trace: seq<System>, acts: seq<Action>) {
    && |trace| == |acts| + 1
    && Initial(trace[0])
    && (forall k :: 0 <= k < |acts| ==> SystemAction(acts[k]))
    && (forall k :: 0 <= k < |acts| ==> StepAt(trace, acts, k))
  }

  lemma StepKeepsInitial(trace: seq<System>, acts: seq<Action>, k: nat)
    requires k < |acts| && |trace| == |acts| + 1 && StepAt(trace, acts, k)
    requires Initial(trace[k]) && SystemAction(acts[k])
    ensures Initial(trace[k + 1])
  {
    NextKeepsInv(trace[k], acts[k]);
  }

  lemma {:induction false} TraceKeepsInv(trace: seq<System>, acts: seq<Action>, k: nat)
    requires IsRun(trace, acts) && k <= |acts|
    ensures Initial(trace[k])
  {
    if k > 0 {
      TraceKeepsInv(trace, acts, k - 1);
      assert SystemAction(acts[k - 1]) && StepAt(trace, acts, k - 1);
      StepKeepsInitial(trace, acts, k - 1);
    }
  }

  /** For a visible operation the revision alone decides: comparing the identity adds nothing. */
  lemma EqualRevisionDecides(trace: seq<System>, acts: seq<Action>, k: nat, s: Slot)
    requires IsRun(trace, acts) && k <= |acts| && Matches(trace[k].model, s, VISIBLE)
    ensures var op := At(trace[k].model, s);
      StillCurrentForFailure(trace[k].selected, trace[k].revision, op) <==> op.sourceIdentityRevision == trace[k].revision
  {
    TraceKeepsInv(trace, acts, k);
  }

  lemma StepTellsMoves(sys: System, act: Action)
    ensures var next := Next(sys, act);
      && sys.revision <= next.revision
      && (sys.revision == next.revision ==> IdentityKey(sys.selected) == IdentityKey(next.selected))
  {
  }

  /** Revisions never fall, and while they stay equal the identity stays the same. */
  lemma {:induction false} RevisionTellsMoves(trace: seq<System>, acts: seq<Action>, i: nat, j: nat)
    requires IsRun(trace, acts) && i <= j <= |acts|
    ensures trace[i].revision <= trace[j].revision
    ensures trace[i].revision == trace[j].revision ==> IdentityKey(trace[i].selected) == IdentityKey(trace[j].selected)
  {
    if i < j {
      RevisionTellsMoves(trace, acts, i, j - 1);
      assert StepAt(trace, acts, j - 1);
      StepTellsMoves(trace[j - 1], acts[j - 1]);
    }
  }

  predicate BeginsVisibly(act: Action, operationId: string) {
    (act.StartVisible? || act.OperateVisible?) && act.operationId == operationId
  }

  /** A response that is checked against the selected identity. */
  predicate Guarded(c: Call, operationId: string) {
    match c
    case AcceptStart(id, _) => id == operationId
    case AcceptBranchCreate(id, _) => id == operationId
    case CheckBranchSelect(id, _) => id == operationId
    case AcceptControl(id, _, _) => id == operationId
    case AcceptFailure(id, _) => id == operationId
    case _ => false
  }

  /** `op` is stored in slot `s`, visibly. */
  ghost predicate Holds(sys: System, s: Slot, op: Operation) {
    Matches(sys.model, s, VISIBLE) && At(sys.model, s) == op
  }

  lemma StepKeepsOperation(sys: System, act: Action, s: Slot, op: Operation)
    requires Initial(sys) && SystemAction(act) && Holds(Next(sys, act), s, op)
    requires !BeginsVisibly(act, op.operationId)
    ensures Holds(sys, s, op)
  {
    if act.Make? {
      CallStoresNoMore(sys.model, sys.selected, sys.revision, act.call);
    } else if BeginOf(sys, act).Some? {
      BeginIsReal(sys, act);
      BeginStoresVisible(sys.model, BeginOf(sys, act).value, s);
    }
  }

  lemma StepBack(trace: seq<System>, acts: seq<Action>, k: nat, s: Slot, op: Operation)
    requires IsRun(trace, acts) && k < |acts| && Holds(trace[k + 1], s, op) && !BeginsVisibly(acts[k], op.operationId)
    ensures Holds(trace[k], s, op)
  {
    TraceKeepsInv(trace, acts, k);
    assert StepAt(trace, acts, k);
    StepKeepsOperation(trace[k], acts[k], s, op);
  }

  /** A visible operation not begun again since state `i` was already there, unchanged. */
  lemma {:induction false} OperationsPersist(trace: seq<System>, acts: seq<Action>, i: nat, j: nat, s: Slot, op: Operation)
    requires IsRun(trace, acts) && i <= j <= |acts| && Holds(trace[j], s, op)
    requires forall k :: i <= k < j ==> !BeginsVisibly(acts[k], op.operationId)
    ensures Holds(trace[i], s, op)
  {
    if i < j {
      StepBack(trace, acts, j - 1, s, op);
      OperationsPersist(trace, acts, i, j - 1, s, op);
    }
  }

  /** The visible operation right after a visible begin of its id dates from that begin. */
  lemma BegunNow(sys: System, act: Action, s: Slot, op: Operation)
    requires Initial(sys) && SystemAction(act) && Holds(Next(sys, act), s, op)
    requires BeginsVisibly(act, op.operationId) && BeginOf(sys, act).Some?
    ensures op.sourceIdentityRevision == sys.revision
  {
    BeginIsReal(sys, act);
    BegunIsCurrent(sys, act);
    BeginStoresVisible(sys.model, BeginOf(sys, act).value, s);
  }

  /** The call finds its operation and accepts it. */
  ghost predicate AcceptedIn(now: System, c: Call) {
    IsResponse(c) && Find(now.model, Sought(c)).Some?
    && Accepts(now.selected, now.revision, c, Find(now.model, Sought(c)).value)
  }

  lemma AcceptedIsTheReply(now: System, c: Call)
    requires IsResponse(c)
    ensures Exec(now.model, now.selected, now.revision, c).accepted <==> AcceptedIn(now, c)
  {
  }

  /** An accepted guarded response is for a visible operation of the current revision. */
  lemma AcceptedIsCurrent(now: System, c: Call, operationId: string) returns (s: Slot, op: Operation)
    requires Initial(now) && Guarded(c, operationId) && operationId != ""
    requires AcceptedIn(now, c)
    ensures Holds(now, s, op) && op.operationId == operationId && op.sourceIdentityRevision == now.revision
  {
    s := FindIsUnique(now.model, Sought(c));
    op := At(now.model, s);
  }

  lemma BegunAt(trace: seq<System>, acts: seq<Action>, i: nat, s: Slot, op: Operation)
    requires IsRun(trace, acts) && i < |acts| && Holds(trace[i + 1], s, op)
    requires BeginsVisibly(acts[i], op.operationId) && BeginOf(trace[i], acts[i]).Some?
    ensures op.sourceIdentityRevision == trace[i].revision
  {
    TraceKeepsInv(trace, acts, i);
    assert StepAt(trace, acts, i);
    BegunNow(trace[i], acts[i], s, op);
  }

  /** If the response to the visible operation begun at step `i` is accepted at step `j`, the selected
      identity was the same in every state between them: it never moved, not even away and back. */
  lemma AcceptedMeansUnmoved(trace: seq<System>, acts: seq<Action>, i: nat, j: nat, operationId: string)
    requires IsRun(trace, acts) && i < j < |acts| && operationId != ""
    requires BeginsVisibly(acts[i], operationId) && BeginOf(trace[i], acts[i]).Some?
    requires forall k :: i < k < j ==> !BeginsVisibly(acts[k], operationId)
    requires acts[j].Make? && Guarded(acts[j].call, operationId)
    requires Exec(trace[j].model, trace[j].selected, trace[j].revision, acts[j].call).accepted
    ensures forall k :: i <= k <= j ==>
      trace[k].revision == trace[i].revision && IdentityKey(trace[k].selected) == IdentityKey(trace[i].selected)
  {
    TraceKeepsInv(trace, acts, j);
    AcceptedIsTheReply(trace[j], acts[j].call);
    AcceptedSinceBegin(trace, acts, i, j, operationId);
  }

  lemma AcceptedSinceBegin(trace: seq<System>, acts: seq<Action>, i: nat, j: nat, operationId: string)
    requires IsRun(trace, acts) && i < j < |acts| && operationId != ""
    requires BeginsVisibly(acts[i], operationId) && BeginOf(trace[i], acts[i]).Some?
    requires forall k :: i < k < j ==> !BeginsVisibly(acts[k], operationId)
    requires acts[j].Make? && Guarded(acts[j].call, operationId) && AcceptedIn(trace[j], acts[j].call)
    requires Initial(trace[j])
    ensures forall k :: i <= k <= j ==>
      trace[k].revision == trace[i].revision && IdentityKey(trace[k].selected) == IdentityKey(trace[i].selected)
  {
    var s, op := AcceptedIsCurrent(trace[j], acts[j].call, operationId);
    OperationsPersist(trace, acts, i + 1, j, s, op);
    BegunAt(trace, acts, i, s, op);
    forall k | i <= k <= j
      ensures trace[k].revision == trace[i].revision && IdentityKey(trace[k].selected) == IdentityKey(trace[i].selected)
    {
      RevisionTellsMoves(trace, acts, i, k);
      RevisionTellsMoves(trace, acts, k, j);
    }
  }
}
