// Reconnecting to the event streams of session runs: how often an outage is retried.

module ReconnectBudget {
  const RETRY_DELAYS_MS: seq<int> := [1000, 2000, 5000, 10000, 15000]
  const RECOVERY_DEADLINE_MS: int := 300000

  datatype ReconnectState = ReconnectState(attempts: nat, startedAt: int, nextRetryAt: int)

  type Reconnects = map<string, ReconnectState>

  function RetryDelay(attempts: nat): int {
    RETRY_DELAYS_MS[if attempts < |RETRY_DELAYS_MS| then attempts else |RETRY_DELAYS_MS| - 1]
  }

  /** The clock as it is read by one failing call: when the state is looked up, when the deadline is
      checked, when the delay is fixed. */
  datatype Clock = Clock(found: int, checked: int, fixed: int)

  predicate Runs(clock: Clock) {
    clock.found <= clock.checked <= clock.fixed
  }

  function Current(states: Reconnects, key: string, clock: Clock): ReconnectState {
    if key in states then states[key] else ReconnectState(0, clock.found, clock.found)
  }

  predicate MayRetry(states: Reconnects, key: string, clock: Clock) {
    clock.checked - Current(states, key, clock).startedAt <= RECOVERY_DEADLINE_MS
  }

  /** What happens to the streams, in any order. */
  datatype Happening =
    | Failure(key: string, open: bool, transient: bool, clock: Clock)
    | Batch(key: string)
    | Finished(key: string)

  predicate Retried(states: Reconnects, h: Happening) {
    h.Failure? && h.open && h.transient && MayRetry(states, h.key, h.clock)
  }

  function After(states: Reconnects, h: Happening): Reconnects {
    match h
    case Failure(key, open, transient, clock) =>
      if !open || !transient then states
      else if !MayRetry(states, key, clock) then states - {key}
      else
        var current := Current(states, key, clock);
        states[key := ReconnectState(current.attempts + 1, current.startedAt, clock.fixed + RetryDelay(current.attempts))]
    case Batch(key) => states - {key}
    case Finished(key) => states - {key}
  }

  function AfterAll(states: Reconnects, hs: seq<Happening>): Reconnects
    decreases |hs|
  {
    if hs == [] then states else AfterAll(After(states, hs[0]), hs[1..])
  }

  /** A failure is retried exactly when the stream is wanted, the error passes and the outage, begun with its
      first failure, is no longer than five minutes; it is retried after 1, 2, 5, 10 and then always 15
      seconds, and is counted. A failure that comes too late forgets the outage; other streams are left alone. */
  lemma FailureSets(states: Reconnects, key: string, open: bool, transient: bool, clock: Clock)
    ensures var h := Failure(key, open, transient, clock);
      var after := After(states, h);
      var attempts := if key in states then states[key].attempts else 0;
      var startedAt := if key in states then states[key].startedAt else clock.found;
      var delay := if attempts == 0 then 1000 else if attempts == 1 then 2000 else if attempts == 2 then 5000
                   else if attempts == 3 then 10000 else 15000;
      && (Retried(states, h) <==> open && transient && clock.checked <= startedAt + 300000)
      && (Retried(states, h) ==> RetryDelay(attempts) == delay
                                 && after == states[key := ReconnectState(attempts + 1, startedAt, clock.fixed + delay)])
      && (!Retried(states, h) ==> after == if open && transient then states - {key} else states)
  {
  }

  // ---------------------------------------------------------------------------
  // The budget
  // ---------------------------------------------------------------------------

  /** The least time an outage has lasted when it has been retried `attempts` times. */
  function Elapsed(attempts: nat): int {
    if attempts == 0 then 0 else Elapsed(attempts - 1) + RetryDelay(attempts - 1)
  }

  const MOST_RETRIES: nat := 23

  lemma {:induction false} ElapsedFrom(attempts: nat)
    requires attempts >= 4
    ensures Elapsed(attempts) == 18000 + 15000 * (attempts - 4)
  {
    if attempts == 4 {
      assert Elapsed(1) == 1000 && Elapsed(2) == 3000 && Elapsed(3) == 8000;
    } else {
      ElapsedFrom(attempts - 1);
    }
  }

  /** The budget allows exactly 23 retries: the 23rd is due within the deadline, a 24th is not. */
  lemma BudgetIs(attempts: nat)
    ensures Elapsed(attempts) <= RECOVERY_DEADLINE_MS <==> attempts < MOST_RETRIES
  {
    if attempts >= 4 {
      ElapsedFrom(attempts);
    } else {
      assert Elapsed(0) == 0 && Elapsed(1) == 1000 && Elapsed(2) == 3000 && Elapsed(3) == 8000;
    }
  }

  /** A failure follows a retry only after the delay has been waited for. */
  predicate Waited(states: Reconnects, h: Happening) {
    h.Failure? ==> Runs(h.clock) && (h.key in states ==> states[h.key].nextRetryAt <= h.clock.found)
  }

  ghost predicate WaitedAll(states: Reconnects, hs: seq<Happening>)
    decreases |hs|
  {
    hs != [] ==> Waited(states, hs[0]) && WaitedAll(After(states, hs[0]), hs[1..])
  }

  ghost predicate WithinBudget(states: Reconnects) {
    forall key :: key in states ==>
      && 1 <= states[key].attempts <= MOST_RETRIES
      && Elapsed(states[key].attempts) <= states[key].nextRetryAt - states[key].startedAt
  }

  lemma StepWithinBudget(states: Reconnects, h: Happening)
    requires WithinBudget(states) && Waited(states, h)
    ensures WithinBudget(After(states, h))
    ensures h.Failure? && h.key in states && states[h.key].attempts == MOST_RETRIES ==> !Retried(states, h)
  {
    if h.Failure? {
      BudgetIs(Current(states, h.key, h.clock).attempts);
    }
  }

  /** Over every run, on every stream, an outage is retried at most 23 times; after the 23rd retry the
      next failure is refused, and the refusal forgets the outage. */
  lemma {:induction false} OutageIsBounded(states: Reconnects, hs: seq<Happening>)
    requires WithinBudget(states) && WaitedAll(states, hs)
    ensures WithinBudget(AfterAll(states, hs))
    decreases |hs|
  {
    if hs != [] {
      StepWithinBudget(states, hs[0]);
      OutageIsBounded(After(states, hs[0]), hs[1..]);
    }
  }

  /** The number of retries of `key` since its last batch, end or refusal. */
  function RetriesOf(states: Reconnects, hs: seq<Happening>, key: string, soFar: nat): nat
    decreases |hs|
  {
    if hs == [] then soFar
    else
      var h := hs[0];
      RetriesOf(After(states, h), hs[1..], key,
                if h.key != key then soFar
                else if Retried(states, h) then soFar + 1
                else if h.Failure? && (!h.open || !h.transient) then soFar
                else 0)
  }

  function Attempts(states: Reconnects, key: string): nat {
    if key in states then states[key].attempts else 0
  }

  /** The attempts on record are the retries of the present outage, whatever other streams do. */
  lemma {:induction false} AttemptsAreRetries(states: Reconnects, hs: seq<Happening>, key: string)
    ensures RetriesOf(states, hs, key, Attempts(states, key)) == Attempts(AfterAll(states, hs), key)
    decreases |hs|
  {
    if hs != [] {
      AttemptsAreRetries(After(states, hs[0]), hs[1..], key);
    }
  }

  /** Hence no outage ever sees more than 23 retries. */
  lemma RetriesAreBounded(hs: seq<Happening>, key: string)
    requires WaitedAll(map[], hs)
    ensures RetriesOf(map[], hs, key, 0) <= MOST_RETRIES
  {
    AttemptsAreRetries(map[], hs, key);
    OutageIsBounded(map[], hs);
  }

  /** An outage that fails again as soon as each delay is over. */
  function Promptly(key: string, n: nat): seq<Happening> {
    if n == 0 then [] else Promptly(key, n - 1) + [Failure(key, true, true, Clock(Elapsed(n - 1), Elapsed(n - 1), Elapsed(n - 1)))]
  }

  lemma {:induction false} AfterAllSnoc(states: Reconnects, hs: seq<Happening>, h: Happening)
    ensures AfterAll(states, hs + [h]) == After(AfterAll(states, hs), h)
    decreases |hs|
  {
    if hs == [] {
      assert [] + [h] == [h];
    } else {
      assert (hs + [h])[1..] == hs[1..] + [h];
      AfterAllSnoc(After(states, hs[0]), hs[1..], h);
    }
  }

  lemma {:induction false} WaitedAllSnoc(states: Reconnects, hs: seq<Happening>, h: Happening)
    requires WaitedAll(states, hs) && Waited(AfterAll(states, hs), h)
    ensures WaitedAll(states, hs + [h])
    decreases |hs|
  {
    if hs == [] {
      assert [] + [h] == [h];
    } else {
      assert (hs + [h])[1..] == hs[1..] + [h];
      WaitedAllSnoc(After(states, hs[0]), hs[1..], h);
    }
  }

  /** The bound is reached: such an outage is retried 23 times. */
  lemma {:induction false} BoundIsReached(key: string, n: nat)
    requires n <= MOST_RETRIES
    ensures WaitedAll(map[], Promptly(key, n))
    ensures AfterAll(map[], Promptly(key, n)) == if n == 0 then map[] else map[key := ReconnectState(n, 0, Elapsed(n))]
  {
    if n > 0 {
      var h := Failure(key, true, true, Clock(Elapsed(n - 1), Elapsed(n - 1), Elapsed(n - 1)));
      BoundIsReached(key, n - 1);
      BudgetIs(n - 1);
      AfterAllSnoc(map[], Promptly(key, n - 1), h);
      WaitedAllSnoc(map[], Promptly(key, n - 1), h);
    }
  }

  /** The i-th failure's clock does not run backwards, and the next failure comes after the delay. */
  ghost predicate Patient(clock: nat -> Clock, i: nat) {
    Runs(clock(i)) && clock(i).fixed + RetryDelay(i) <= clock(i + 1).found
  }

  // ---------------------------------------------------------------------------
  // The controller's part
  // ---------------------------------------------------------------------------

  class StreamRecovery {
    var reconnects: Reconnects

    constructor ()
      ensures reconnects == map[]
    {
      reconnects := map[];
    }

    /** Decides whether a failed stream is retried, and after what delay. */
    method RetryAfterError(key: string, open: bool, transient: bool, clock: Clock) returns (retry: bool, delayMs: int)
      modifies this
      ensures reconnects == After(old(reconnects), Failure(key, open, transient, clock))
      ensures retry == Retried(old(reconnects), Failure(key, open, transient, clock))
      ensures retry ==> delayMs == RetryDelay(Attempts(old(reconnects), key))
    {
      delayMs := 0;
      if !open || !transient {
        return false, delayMs;
      }
      var current := if key in reconnects then reconnects[key] else ReconnectState(0, clock.found, clock.found);
      if clock.checked - current.startedAt > RECOVERY_DEADLINE_MS {
        reconnects := reconnects - {key};
        return false, delayMs;
      }
      delayMs := RetryDelay(current.attempts);
      reconnects := reconnects[key := ReconnectState(current.attempts + 1, current.startedAt, clock.fixed + delayMs)];
      return true, delayMs;
    }

    method MarkConnected(key: string)
      modifies this
      ensures reconnects == After(old(reconnects), Batch(key))
    {
      reconnects := reconnects - {key};
    }

    /** The stream loop while it only fails: every failure of an open stream is transient, and the
        clock shows at least the delay more at the next one. The loop ends. */
    method StreamThroughOutage(key: string, clock: nat -> Clock) returns (retries: nat)
      requires key !in reconnects
      requires forall i: nat :: Patient(clock, i)
      modifies this
      ensures retries <= MOST_RETRIES
      ensures reconnects == old(reconnects)
    {
      retries := 0;
      assert Patient(clock, 0);
      var retry, delayMs := RetryAfterError(key, true, true, clock(0));
      while retry
        invariant retries <= MOST_RETRIES
        invariant retry ==> retries < MOST_RETRIES && key in reconnects && reconnects[key].attempts == retries + 1
        invariant retry ==> Elapsed(retries + 1) <= reconnects[key].nextRetryAt - reconnects[key].startedAt
        invariant retry ==> reconnects[key].nextRetryAt == clock(retries).fixed + RetryDelay(retries)
        invariant reconnects - {key} == old(reconnects)
        invariant !retry ==> key !in reconnects
        decreases MOST_RETRIES - retries, retry
      {
        assert Patient(clock, retries) && Patient(clock, retries + 1);
        retries := retries + 1;
        BudgetIs(retries);
        retry, delayMs := RetryAfterError(key, true, true, clock(retries));
      }
    }
  }
}
