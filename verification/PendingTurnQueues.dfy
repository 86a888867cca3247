// Per-branch queues of pending turns as they evolve over any sequence of calls: first in, first
// out, every turn accounted for, no branch touching another's queue.

module PendingTurnQueues {
  import opened Wrappers
  import opened RuntimeModel
  import opened MainlineSnapshot

  type Queues = map<string, seq<Turn>>

  datatype Removal = Removal(clientRequestId: Option<string>, queuedAt: Option<string>, text: Option<string>)

  datatype QueueAct =
    | Shift(key: string)
    | Remove(key: string, removal: Removal)
    | Clear(key: string)
    | Enqueue(key: string, turn: Turn)

  predicate TurnMatches(t: Turn, r: Removal) {
    if Present(r.clientRequestId) && t.clientRequestId == r.clientRequestId then true
    else if Present(r.queuedAt) && Present(r.text) then t.queuedAt == r.queuedAt.value && t.text == r.text.value
    else !Present(r.clientRequestId) && !Present(r.queuedAt) && Present(r.text) && t.text == r.text.value
  }

  /** The first turn the removal matches. */
  function MatchIndex(q: seq<Turn>, r: Removal): (i: Option<nat>)
    ensures i.Some? ==> i.value < |q| && TurnMatches(q[i.value], r) && forall j :: 0 <= j < i.value ==> !TurnMatches(q[j], r)
    ensures i.None? ==> forall j :: 0 <= j < |q| ==> !TurnMatches(q[j], r)
  {
    if q == [] then None
    else if TurnMatches(q[0], r) then Some(0)
    else
      var rest := MatchIndex(q[1..], r);
      if rest.None? then None else Some(rest.value + 1)
  }

  function DropAt(q: seq<Turn>, i: nat): seq<Turn>
    requires i < |q|
  {
    q[..i] + q[i + 1..]
  }

  /** A queue is kept under its key only while it holds something. */
  function PutQueue(qs: Queues, key: string, q: seq<Turn>): Queues {
    if q == [] then qs - {key} else qs[key := q]
  }

  function Apply(qs: Queues, act: QueueAct): Queues {
    var q := Queue(qs, act.key);
    match act
    case Shift(key) => if q == [] then qs else PutQueue(qs, key, q[1..])
    case Remove(key, removal) =>
      var i := MatchIndex(q, removal);
      if i.None? then qs else PutQueue(qs, key, DropAt(q, i.value))
    case Clear(key) => qs - {key}
    case Enqueue(key, turn) => qs[key := q + [turn]]
  }

  ghost predicate NoEmptyQueue(qs: Queues) {
    forall key :: key in qs ==> qs[key] != []
  }

  function RunActs(qs: Queues, acts: seq<QueueAct>): Queues
    decreases |acts|
  {
    if acts == [] then qs else RunActs(Apply(qs, acts[0]), acts[1..])
  }

  /** What one act puts on the queue of `key`, takes from its front, and drops from it. */
  function Came(act: QueueAct, key: string): seq<Turn> {
    if act.key == key && act.Enqueue? then [act.turn] else []
  }

  function Left(qs: Queues, act: QueueAct, key: string): seq<Turn> {
    var q := Queue(qs, key);
    if act.key == key && act.Shift? && q != [] then [q[0]] else []
  }

  function Lost(qs: Queues, act: QueueAct, key: string): multiset<Turn> {
    var q := Queue(qs, key);
    if act.key == key && act.Clear? then multiset(q)
    else if act.key == key && act.Remove? && MatchIndex(q, act.removal).Some? then
      multiset{q[MatchIndex(q, act.removal).value]}
    else multiset{}
  }

  /** The turns put on a branch's queue, in order. */
  function Enqueued(acts: seq<QueueAct>, key: string): seq<Turn> {
    if acts == [] then [] else Came(acts[0], key) + Enqueued(acts[1..], key)
  }

  /** The turns taken from the front of a branch's queue, in order. */
  function Shifted(qs: Queues, acts: seq<QueueAct>, key: string): seq<Turn>
    decreases |acts|
  {
    if acts == [] then [] else Left(qs, acts[0], key) + Shifted(Apply(qs, acts[0]), acts[1..], key)
  }

  /** The turns removed or cleared from a branch's queue. */
  function Dropped(qs: Queues, acts: seq<QueueAct>, key: string): multiset<Turn>
    decreases |acts|
  {
    if acts == [] then multiset{} else Lost(qs, acts[0], key) + Dropped(Apply(qs, acts[0]), acts[1..], key)
  }

  /** `a` is what is left of `b` after leaving some elements out. */
  predicate Subsequence(a: seq<Turn>, b: seq<Turn>) {
    if b == [] then a == []
    else Subsequence(a, b[1..]) || (a != [] && a[0] == b[0] && Subsequence(a[1..], b[1..]))
  }

  lemma {:induction false} SubsequenceRefl(a: seq<Turn>)
    ensures Subsequence(a, a)
    decreases |a|
  {
    if a != [] {
      SubsequenceRefl(a[1..]);
    }
  }

  lemma {:induction false} EmptySubsequence(b: seq<Turn>)
    ensures Subsequence([], b)
    decreases |b|
  {
    if b != [] {
      EmptySubsequence(b[1..]);
    }
  }

  lemma {:induction false} SubsequenceTrans(a: seq<Turn>, b: seq<Turn>, c: seq<Turn>)
    requires Subsequence(a, b) && Subsequence(b, c)
    ensures Subsequence(a, c)
    decreases |b| + |c|
  {
    if b == [] {
      EmptySubsequence(c);
    } else if Subsequence(b, c[1..]) {
      SubsequenceTrans(a, b, c[1..]);
    } else if Subsequence(a, b[1..]) {
      SubsequenceTrans(a, b[1..], c[1..]);
    } else {
      SubsequenceTrans(a[1..], b[1..], c[1..]);
    }
  }

  lemma {:induction false} SubsequenceConcat(a: seq<Turn>, b: seq<Turn>, c: seq<Turn>)
    requires Subsequence(a, b)
    ensures Subsequence(a + c, b + c)
    decreases |b|
  {
    if b == [] {
      assert a + c == c && b + c == c;
      SubsequenceRefl(c);
    } else {
      assert (b + c)[1..] == b[1..] + c;
      if Subsequence(a, b[1..]) {
        SubsequenceConcat(a, b[1..], c);
      } else {
        assert (a + c)[1..] == a[1..] + c;
        SubsequenceConcat(a[1..], b[1..], c);
      }
    }
  }

  lemma {:induction false} SubsequencePrefix(a: seq<Turn>, b: seq<Turn>, c: seq<Turn>)
    requires Subsequence(b, c)
    ensures Subsequence(a + b, a + c)
    decreases |a|
  {
    if a == [] {
      assert a + b == b && a + c == c;
    } else {
      assert (a + b)[1..] == a[1..] + b && (a + c)[1..] == a[1..] + c;
      SubsequencePrefix(a[1..], b, c);
    }
  }

  lemma {:induction false} DropIsSubsequence(q: seq<Turn>, i: nat)
    requires i < |q|
    ensures Subsequence(DropAt(q, i), q)
    decreases i
  {
    if i == 0 {
      assert DropAt(q, 0) == q[1..];
      SubsequenceRefl(q[1..]);
    } else {
      assert DropAt(q, i)[1..] == DropAt(q[1..], i - 1) && DropAt(q, i)[0] == q[0];
      DropIsSubsequence(q[1..], i - 1);
    }
  }

  // ---------------------------------------------------------------------------
  // Which turn a removal takes
  // ---------------------------------------------------------------------------

  lemma RemovalTakesFirst(qs: Queues, key: string, r: Removal, test: Turn -> bool)
    requires NoEmptyQueue(qs)
    requires forall t :: t in Queue(qs, key) ==> (test(t) <==> TurnMatches(t, r))
    ensures WithoutFirst(Queue(qs, key), Queue(Apply(qs, Remove(key, r)), key), test)
  {
    var q, after := Queue(qs, key), Queue(Apply(qs, Remove(key, r)), key);
    match MatchIndex(q, r)
    case None => NonePassing(q, after, test);
    case Some(i) =>
      assert after == q[..i] + q[i + 1..];
      FirstPassing(q, after, i, test);
  }

  /** The turn a removal takes is the first of the request it names, or with the queue time and text it gives,
      or, where it gives neither a request nor a time, of its text. */
  lemma RemovalIsOfFirst(qs: Queues, key: string, r: Removal)
    ensures NoEmptyQueue(qs) ==>
      WithoutFirst(Queue(qs, key), Queue(Apply(qs, Remove(key, r)), key), (t: Turn) =>
        || (Present(r.clientRequestId) && t.clientRequestId == r.clientRequestId)
        || (Present(r.queuedAt) && Present(r.text) && Some(t.queuedAt) == r.queuedAt && Some(t.text) == r.text)
        || (!Present(r.clientRequestId) && !Present(r.queuedAt) && Present(r.text) && Some(t.text) == r.text))
  {
    if NoEmptyQueue(qs) {
      RemovalTakesFirst(qs, key, r, (t: Turn) =>
        || (Present(r.clientRequestId) && t.clientRequestId == r.clientRequestId)
        || (Present(r.queuedAt) && Present(r.text) && Some(t.queuedAt) == r.queuedAt && Some(t.text) == r.text)
        || (!Present(r.clientRequestId) && !Present(r.queuedAt) && Present(r.text) && Some(t.text) == r.text));
    }
  }

  /** A request id, without a queue time and a text to go with it, takes the first turn of that request. */
  lemma RemovalByRequest(qs: Queues, key: string, r: Removal)
    requires NoEmptyQueue(qs) && Present(r.clientRequestId) && (!Present(r.queuedAt) || !Present(r.text))
    ensures WithoutFirst(Queue(qs, key), Queue(Apply(qs, Remove(key, r)), key),
                         (t: Turn) => t.clientRequestId == r.clientRequestId)
  {
    RemovalTakesFirst(qs, key, r, (t: Turn) => t.clientRequestId == r.clientRequestId);
  }

  /** Queue time and text, with no request id or one no turn has, take the first turn that has both. */
  lemma RemovalByTimeAndText(qs: Queues, key: string, r: Removal)
    requires NoEmptyQueue(qs) && Present(r.queuedAt) && Present(r.text)
    requires Present(r.clientRequestId) ==> forall t :: t in Queue(qs, key) ==> t.clientRequestId != r.clientRequestId
    ensures WithoutFirst(Queue(qs, key), Queue(Apply(qs, Remove(key, r)), key),
                         (t: Turn) => Some(t.queuedAt) == r.queuedAt && Some(t.text) == r.text)
  {
    RemovalTakesFirst(qs, key, r, (t: Turn) => Some(t.queuedAt) == r.queuedAt && Some(t.text) == r.text);
  }

  /** With all three, the first turn of that request or with that time and text. */
  lemma RemovalByEither(qs: Queues, key: string, r: Removal)
    requires NoEmptyQueue(qs) && Present(r.clientRequestId) && Present(r.queuedAt) && Present(r.text)
    ensures WithoutFirst(Queue(qs, key), Queue(Apply(qs, Remove(key, r)), key), (t: Turn) =>
      t.clientRequestId == r.clientRequestId || (Some(t.queuedAt) == r.queuedAt && Some(t.text) == r.text))
  {
    RemovalTakesFirst(qs, key, r, (t: Turn) =>
      t.clientRequestId == r.clientRequestId || (Some(t.queuedAt) == r.queuedAt && Some(t.text) == r.text));
  }

  /** A text alone takes the first turn of that text. */
  lemma RemovalByText(qs: Queues, key: string, r: Removal)
    requires NoEmptyQueue(qs) && !Present(r.clientRequestId) && !Present(r.queuedAt) && Present(r.text)
    ensures WithoutFirst(Queue(qs, key), Queue(Apply(qs, Remove(key, r)), key), (t: Turn) => Some(t.text) == r.text)
  {
    RemovalTakesFirst(qs, key, r, (t: Turn) => Some(t.text) == r.text);
  }

  /** A removal that gives neither a request id nor a text takes nothing. */
  lemma RemovalOfNothing(qs: Queues, key: string, r: Removal)
    requires !Present(r.clientRequestId) && !Present(r.text)
    ensures Apply(qs, Remove(key, r)) == qs
  {
  }

  /** Putting and clearing, too, in terms of the queue: a turn goes to the end, clearing leaves nothing, and
      shifting takes the first. */
  lemma OtherActsAre(qs: Queues, key: string, turn: Turn)
    ensures Queue(Apply(qs, Enqueue(key, turn)), key) == Queue(qs, key) + [turn]
    ensures Queue(Apply(qs, Clear(key)), key) == []
    ensures Queue(qs, key) != [] ==> Queue(Apply(qs, Shift(key)), key) == Queue(qs, key)[1..]
    ensures Queue(qs, key) == [] ==> Apply(qs, Shift(key)) == qs
  {
  }

  /** An act moves only its own queue and leaves no queue empty. */
  lemma ActIsLocal(qs: Queues, act: QueueAct, key: string)
    ensures key != act.key ==> Queue(Apply(qs, act), key) == Queue(qs, key)
    ensures NoEmptyQueue(qs) ==> NoEmptyQueue(Apply(qs, act))
  {
  }

  /** Branches have different queues: keys of run ids without a colon never collide. */
  lemma BranchesAreApart(runA: string, branchA: string, runB: string, branchB: string)
    requires ':' !in runA && ':' !in runB
    ensures QueueKey(runA, branchA) == QueueKey(runB, branchB) <==> runA == runB && branchA == branchB
  {
    RenderIsInjective(ScopeId(runA, branchA), ScopeId(runB, branchB));
  }

  // ---------------------------------------------------------------------------
  // One act
  // ---------------------------------------------------------------------------

  lemma ActIsExact(qs: Queues, act: QueueAct, key: string)
    requires act.key == key ==> act.Shift? || act.Enqueue?
    ensures Left(qs, act, key) + Queue(Apply(qs, act), key) == Queue(qs, key) + Came(act, key)
  {
    ActIsLocal(qs, act, key);
  }

  lemma ActKeepsOrder(qs: Queues, act: QueueAct, key: string)
    ensures Subsequence(Left(qs, act, key) + Queue(Apply(qs, act), key), Queue(qs, key) + Came(act, key))
  {
    var q, next := Queue(qs, key), Queue(Apply(qs, act), key);
    ActIsLocal(qs, act, key);
    SubsequenceRefl(q + Came(act, key));
    if act.key == key && (act.Remove? || act.Clear?) {
      assert [] + next == next && q + [] == q;
      EmptySubsequence(q);
      if act.Remove? && MatchIndex(q, act.removal).Some? {
        DropIsSubsequence(q, MatchIndex(q, act.removal).value);
      }
    } else {
      ActIsExact(qs, act, key);
    }
  }

  lemma DropConserves(q: seq<Turn>, i: nat)
    requires i < |q|
    ensures multiset(q) == multiset{q[i]} + multiset(DropAt(q, i))
  {
    assert q == q[..i] + [q[i]] + q[i + 1..];
  }

  lemma ActConserves(qs: Queues, act: QueueAct, key: string)
    ensures multiset(Queue(qs, key)) + multiset(Came(act, key))
         == multiset(Left(qs, act, key)) + Lost(qs, act, key) + multiset(Queue(Apply(qs, act), key))
  {
    var q, next := Queue(qs, key), Queue(Apply(qs, act), key);
    if act.key == key && act.Remove? {
      if MatchIndex(q, act.removal).Some? {
        DropConserves(q, MatchIndex(q, act.removal).value);
      }
    } else if act.key == key && act.Clear? {
      assert next == [];
    } else {
      ActIsExact(qs, act, key);
      SameParts(Left(qs, act, key), next, q, Came(act, key));
    }
  }

  lemma SameParts(a: seq<Turn>, b: seq<Turn>, c: seq<Turn>, d: seq<Turn>)
    requires a + b == c + d
    ensures multiset(a) + multiset(b) == multiset(c) + multiset(d)
  {
    assert multiset(a + b) == multiset(c + d);
  }

  // ---------------------------------------------------------------------------
  // Whole runs
  // ---------------------------------------------------------------------------

  lemma ComposeExact(left: seq<Turn>, out: seq<Turn>, end: seq<Turn>, q: seq<Turn>, next: seq<Turn>, came: seq<Turn>, more: seq<Turn>)
    requires left + next == q + came && out + end == next + more
    ensures (left + out) + end == q + (came + more)
  {
    assert (left + out) + end == left + (out + end);
    assert left + (next + more) == (left + next) + more;
    assert (q + came) + more == q + (came + more);
  }

  lemma ComposeOrder(left: seq<Turn>, out: seq<Turn>, end: seq<Turn>, q: seq<Turn>, next: seq<Turn>, came: seq<Turn>, more: seq<Turn>)
    requires Subsequence(left + next, q + came) && Subsequence(out + end, next + more)
    ensures Subsequence((left + out) + end, q + (came + more))
  {
    SubsequencePrefix(left, out + end, next + more);
    SubsequenceConcat(left + next, q + came, more);
    assert (left + out) + end == left + (out + end);
    assert left + (next + more) == (left + next) + more;
    assert (q + came) + more == q + (came + more);
    SubsequenceTrans(left + (out + end), left + (next + more), q + (came + more));
  }

  /** First in, first out: what left by the front and what still waits is, in order, a subsequence of
      what was there and what was put on. */
  lemma {:induction false} QueueKeepsOrder(qs: Queues, acts: seq<QueueAct>, key: string)
    ensures Subsequence(Shifted(qs, acts, key) + Queue(RunActs(qs, acts), key), Queue(qs, key) + Enqueued(acts, key))
    decreases |acts|
  {
    if acts == [] {
      assert [] + Queue(qs, key) == Queue(qs, key) == Queue(qs, key) + [];
      SubsequenceRefl(Queue(qs, key));
    } else {
      var next, rest := Apply(qs, acts[0]), acts[1..];
      QueueKeepsOrder(next, rest, key);
      ActKeepsOrder(qs, acts[0], key);
      ComposeOrder(Left(qs, acts[0], key), Shifted(next, rest, key), Queue(RunActs(next, rest), key),
                   Queue(qs, key), Queue(next, key), Came(acts[0], key), Enqueued(rest, key));
    }
  }

  lemma ComposeCounts(left: seq<Turn>, out: seq<Turn>, lost: multiset<Turn>, dropped: multiset<Turn>, end: multiset<Turn>,
                      q: multiset<Turn>, next: multiset<Turn>, came: seq<Turn>, more: seq<Turn>)
    requires q + multiset(came) == multiset(left) + lost + next
    requires next + multiset(more) == multiset(out) + dropped + end
    ensures q + multiset(came + more) == multiset(left + out) + (lost + dropped) + end
  {
    assert q + multiset(came + more) == (q + multiset(came)) + multiset(more);
    assert (multiset(left) + lost + next) + multiset(more) == multiset(left) + lost + (next + multiset(more));
    assert multiset(left) + lost + (multiset(out) + dropped + end) == multiset(left + out) + (lost + dropped) + end;
  }

  /** Conservation: everything that was there or was put on has been shifted, has been dropped, or waits. */
  lemma {:induction false} QueueConservesTurns(qs: Queues, acts: seq<QueueAct>, key: string)
    ensures multiset(Queue(qs, key)) + multiset(Enqueued(acts, key))
         == multiset(Shifted(qs, acts, key)) + Dropped(qs, acts, key) + multiset(Queue(RunActs(qs, acts), key))
    decreases |acts|
  {
    if acts != [] {
      var next, rest := Apply(qs, acts[0]), acts[1..];
      QueueConservesTurns(next, rest, key);
      ActConserves(qs, acts[0], key);
      ComposeCounts(Left(qs, acts[0], key), Shifted(next, rest, key), Lost(qs, acts[0], key), Dropped(next, rest, key),
                    multiset(Queue(RunActs(next, rest), key)), multiset(Queue(qs, key)), multiset(Queue(next, key)),
                    Came(acts[0], key), Enqueued(rest, key));
    }
  }

  /** Without removals the queue is exact: what left, then what waits, is what was there, then what came. */
  lemma {:induction false} QueueIsExact(qs: Queues, acts: seq<QueueAct>, key: string)
    requires forall a :: a in acts && a.key == key ==> a.Shift? || a.Enqueue?
    ensures Shifted(qs, acts, key) + Queue(RunActs(qs, acts), key) == Queue(qs, key) + Enqueued(acts, key)
    decreases |acts|
  {
    if acts != [] {
      var next, rest := Apply(qs, acts[0]), acts[1..];
      ActIsExact(qs, acts[0], key);
      QueueIsExact(next, rest, key);
      ComposeExact(Left(qs, acts[0], key), Shifted(next, rest, key), Queue(RunActs(next, rest), key),
                   Queue(qs, key), Queue(next, key), Came(acts[0], key), Enqueued(rest, key));
    }
  }

  /** No sequence of acts ever leaves an empty queue behind. */
  lemma {:induction false} ActsLeaveNoEmptyQueue(qs: Queues, acts: seq<QueueAct>)
    requires NoEmptyQueue(qs)
    ensures NoEmptyQueue(RunActs(qs, acts))
    decreases |acts|
  {
    if acts != [] {
      ActIsLocal(qs, acts[0], acts[0].key);
      ActsLeaveNoEmptyQueue(Apply(qs, acts[0]), acts[1..]);
    }
  }
}
