// Status events with explicit revisions converge: their order and repetition do not matter.

module RuntimeConvergence {
  import opened Wrappers
  import opened RuntimeModel
  import opened RuntimeReducer
  import opened RuntimeInvariant

  /** The target names `id`, by scope id or by run and branch, whatever the model. */
  predicate Names(target: Target, id: ScopeId) {
    if target.scopeId.Some? then
      && target.scopeId.value == id
      && (Present(target.sessionRunId) ==> target.sessionRunId.value == id.sessionRunId)
      && (Present(target.branchBindingId) ==> target.branchBindingId.value == id.branchBindingId)
    else
      && Present(target.sessionRunId) && Present(target.branchBindingId)
      && ScopeId(target.sessionRunId.value, target.branchBindingId.value) == id
  }

  /** A status report for `id` with an explicit revision, compatible with agent run `agent`. */
  predicate Report(e: Event, id: ScopeId, agent: string) {
    && e.StatusChange? && Names(e.target, id) && e.runtimeRevision.Some?
    && (Present(e.agentRunId) ==> e.agentRunId.value == agent)
  }

  predicate Reports(events: seq<Event>, id: ScopeId, agent: string) {
    forall e :: e in events ==> Report(e, id, agent)
  }

  /** Reports of different content carry different revisions; the same report may be delivered often. */
  ghost predicate DistinctRevisions(events: seq<Event>) {
    forall d, e :: d in events && e in events ==>
      (d.StatusChange? && e.StatusChange? && d.runtimeRevision == e.runtimeRevision ==> d == e)
  }

  /** `status` at `revision` is what the newest report not older than (rev0, status0) says. */
  ghost predicate Newest(events: seq<Event>, rev0: int, status0: Status, revision: int, status: Status) {
    && rev0 <= revision
    && (forall e :: e in events && e.StatusChange? && e.runtimeRevision.Some? ==> e.runtimeRevision.value <= revision)
    && if forall e :: e in events && e.StatusChange? && e.runtimeRevision.Some? ==> e.runtimeRevision.value < rev0 then
         revision == rev0 && status == status0
       else
         exists e :: e in events && e.StatusChange? && e.runtimeRevision == Some(revision) && EventStatus(e) == status
  }

  lemma NamesResolve(m: Model, target: Target, id: ScopeId)
    requires Filed(m.scopes) && id in m.scopes && Names(target, id)
    ensures ResolveScope(m, target) == Some(id)
  {
    assert m.scopes[id].scopeId == id && WellFormedScope(m.scopes[id]);
  }

  /** One report: applied when not older than the scope, ignored otherwise; no other scope moves. */
  lemma ReportStep(m: Model, e: Event, id: ScopeId, agent: string)
    requires Inv(m) && id in m.scopes && Report(e, id, agent) && m.scopes[id].agentRunId in {"", agent}
    ensures var next := Reduce(m, e).model;
      && Inv(next)
      && next.scopes.Keys == m.scopes.Keys
      && (forall other :: other in m.scopes && other != id ==> next.scopes[other] == m.scopes[other])
      && next.scopes[id].agentRunId in {"", agent}
      && next.scopes[id] == (if e.runtimeRevision.value < m.scopes[id].runtimeRevision
                             then m.scopes[id] else ApplyStatus(m.scopes[id], e))
      && (e.runtimeRevision.value >= m.scopes[id].runtimeRevision ==>
            && next.scopes[id].runtimeRevision == e.runtimeRevision.value
            && (e.status.Some? ==> next.scopes[id].status == e.status.value)
            && next.scopes[id].stats.Some? && next.scopes[id].stats.value.runStatus == Some(next.scopes[id].status))
  {
    NamesResolve(m, e.target, id);
    StepKeepsInv(m, e);
    assert m.scopes[id].scopeId == id;
  }

  /** What a report makes of revision and status. */
  predicate Reported(e: Event, rev0: int, status0: Status, revision: int, status: Status) {
    && e.StatusChange? && e.runtimeRevision.Some?
    && if e.runtimeRevision.value < rev0 then revision == rev0 && status == status0
       else revision == e.runtimeRevision.value && status == EventStatus(e)
  }

  /** The newest of a first report and the newest of the rest is the newest of all. */
  lemma NewestOfFirstAndRest(events: seq<Event>, rev0: int, status0: Status, mid: int, midStatus: Status,
                             revision: int, status: Status)
    requires events != [] && DistinctRevisions(events)
    requires Reported(events[0], rev0, status0, mid, midStatus)
    requires Newest(events[1..], mid, midStatus, revision, status)
    ensures Newest(events, rev0, status0, revision, status)
  {
    var e, rest := events[0], events[1..];
    assert forall x :: x in events <==> x == e || x in rest;
    if !(forall x :: x in rest && x.StatusChange? && x.runtimeRevision.Some? ==> x.runtimeRevision.value < mid) {
      var w :| w in rest && w.StatusChange? && w.runtimeRevision == Some(revision) && EventStatus(w) == status;
      assert w in events;
    }
  }

  /** Any delivery, in any order and with any repetition, ends in the newest report. */
  lemma {:induction false} DeliveryEndsInNewest(m: Model, events: seq<Event>, id: ScopeId, agent: string)
    requires Inv(m) && id in m.scopes && Reports(events, id, agent) && m.scopes[id].agentRunId in {"", agent}
    requires DistinctRevisions(events)
    ensures var end := Run(m, events).scopes;
      && end.Keys == m.scopes.Keys
      && (forall other :: other in m.scopes && other != id ==> end[other] == m.scopes[other])
      && Newest(events, m.scopes[id].runtimeRevision, m.scopes[id].status, end[id].runtimeRevision, end[id].status)
    decreases |events|
  {
    if events != [] {
      var next := Reduce(m, events[0]).model;
      ReportStep(m, events[0], id, agent);
      DeliveryEndsInNewest(next, events[1..], id, agent);
      NewestOfFirstAndRest(events, m.scopes[id].runtimeRevision, m.scopes[id].status,
                           next.scopes[id].runtimeRevision, next.scopes[id].status,
                           Run(m, events).scopes[id].runtimeRevision, Run(m, events).scopes[id].status);
    }
  }

  lemma NewestIsUnique(a: seq<Event>, b: seq<Event>, rev0: int, status0: Status,
                       revA: int, statusA: Status, revB: int, statusB: Status)
    requires forall e :: e in a <==> e in b
    requires DistinctRevisions(a)
    requires Newest(a, rev0, status0, revA, statusA) && Newest(b, rev0, status0, revB, statusB)
    ensures revA == revB && statusA == statusB
  {
  }

  /** Two deliveries of the same reports leave the scope with the same revision and status. */
  lemma DeliveryOrderIsIrrelevant(m: Model, a: seq<Event>, b: seq<Event>, id: ScopeId, agent: string)
    requires Inv(m) && id in m.scopes && m.scopes[id].agentRunId in {"", agent}
    requires Reports(a, id, agent) && DistinctRevisions(a) && forall e :: e in a <==> e in b
    ensures id in Run(m, a).scopes && id in Run(m, b).scopes
    ensures Run(m, a).scopes[id].runtimeRevision == Run(m, b).scopes[id].runtimeRevision
    ensures Run(m, a).scopes[id].status == Run(m, b).scopes[id].status
  {
    DeliveryEndsInNewest(m, a, id, agent);
    DeliveryEndsInNewest(m, b, id, agent);
    NewestIsUnique(a, b, m.scopes[id].runtimeRevision, m.scopes[id].status,
                   Run(m, a).scopes[id].runtimeRevision, Run(m, a).scopes[id].status,
                   Run(m, b).scopes[id].runtimeRevision, Run(m, b).scopes[id].status);
  }
}
