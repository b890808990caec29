/**
 * The Kafka consumer of one partition: poll, process with bounded retry, dead-letter, commit; with crashes
 * and replays. `orders` are the request ids of the rows in the orders table, in the order of their inserts.
 */
module Consumer {
  import opened Runs

  type RequestId = nat
  type Offset = nat

  /**
   * `next..fetched` is the batch in memory; `handled` says the record at `next` may be committed.
   * `dropped` is a history variable: fetched records the loop skipped because of an error.
   */
  datatype State = State(
    log: seq<RequestId>, next: Offset, fetched: Offset, handled: bool, committed: Offset,
    orders: seq<RequestId>, dlt: set<Offset>, dropped: set<Offset>)

  datatype Action =
    | Append(r: RequestId)
    | Poll(count: nat)
    | PollError(count: nat)
    | PlaceRow
    | Place
    | DeadLetter
    | GiveUp
    | Commit
    | CommitError
    | Crash

  /** The record at `o` has its order or its dead-letter copy. */
  predicate Covered(s: State, o: Offset) {
    o < |s.log| && (s.log[o] in s.orders || o in s.dlt)
  }

  predicate Working(s: State) { s.next < s.fetched <= |s.log| && !s.handled }

  predicate Enabled(s: State, a: Action) {
    match a
    case Append(_) => true
    case Poll(count) => s.next == s.fetched && s.fetched + count <= |s.log|
    case PollError(count) => s.next == s.fetched && s.fetched + count <= |s.log|
    case PlaceRow => Working(s)
    case Place => Working(s)
    case DeadLetter => Working(s)
    case GiveUp => Working(s)
    case Commit => s.handled
    case CommitError => s.handled
    case Crash => true
  }

  /** The offsets `lo..lo+n`. */
  function Span(lo: Offset, n: nat): (span: set<Offset>)
    ensures forall o :: o in span <==> lo <= o < lo + n
  {
    if n == 0 then {} else Span(lo, n - 1) + {lo + n - 1}
  }

  /** `PlaceOrderTx` on the table: a request that has its row gets no second one. */
  function PlaceOnce(orders: seq<RequestId>, r: RequestId): seq<RequestId> {
    if r in orders then orders else orders + [r]
  }

  function Next(s: State, a: Action): State
    requires Enabled(s, a)
  {
    match a
    case Append(r) => s.(log := s.log + [r])
    case Poll(count) => s.(fetched := s.fetched + count)
    case PollError(count) =>
      s.(next := s.next + count, fetched := s.fetched + count, dropped := s.dropped + Span(s.next, count))
    case PlaceRow => s.(orders := PlaceOnce(s.orders, s.log[s.next]))
    case Place => s.(orders := PlaceOnce(s.orders, s.log[s.next]), handled := true)
    case DeadLetter => s.(dlt := s.dlt + {s.next}, handled := true)
    case GiveUp => s.(next := s.next + 1, dropped := s.dropped + {s.next})
    case Commit => s.(committed := s.next + 1, next := s.next + 1, handled := false)
    case CommitError => s.(next := s.next + 1, handled := false)
    case Crash => s.(next := s.committed, fetched := s.committed, handled := false)
  }

  ghost predicate Step(s: State, t: State) {
    exists a :: Enabled(s, a) && t == Next(s, a)
  }

  ghost predicate Init(s: State) {
    s.next == s.fetched == s.committed == 0 && !s.handled && s.dropped == {} && s.dlt == {} && s.orders == []
  }

  ghost predicate Inv(s: State) {
    && s.committed <= s.next <= s.fetched <= |s.log|
    && (s.handled ==> s.next < s.fetched && Covered(s, s.next))
    && (forall o :: 0 <= o < s.next ==> Covered(s, o) || o in s.dropped)
    && (forall i, j :: 0 <= i < j < |s.orders| ==> s.orders[i] != s.orders[j])
    && (forall r :: r in s.orders ==> r in s.log)
  }

  lemma StepKeepsInv(s: State, a: Action)
    requires Inv(s) && Enabled(s, a)
    ensures Inv(Next(s, a))
  {
    var t := Next(s, a);
    assert forall o :: 0 <= o < |s.log| ==> t.log[o] == s.log[o];
    forall o | 0 <= o < t.next ensures Covered(t, o) || o in t.dropped {
      if o < s.next { assert Covered(s, o) || o in s.dropped; }
    }
  }

  /** How many rows the table has for `r`. */
  function Rows(orders: seq<RequestId>, r: RequestId): nat { multiset(orders)[r] }

  lemma {:induction false} DistinctRows(orders: seq<RequestId>, r: RequestId)
    requires forall i, j :: 0 <= i < j < |orders| ==> orders[i] != orders[j]
    ensures Rows(orders, r) == if r in orders then 1 else 0
  {
    if orders != [] {
      var n := |orders| - 1;
      DistinctRows(orders[..n], r);
      assert orders == orders[..n] + [orders[n]];
      assert orders[n] !in orders[..n];
    }
  }

  /**
   * One effect per request, through every crash, replay and repeated record: a request has one row or none,
   * rows come from records only, and a committed record that was neither dropped nor dead-lettered has
   * exactly one.
   */
  lemma OneEffectPerRequest(s: State, t: State, r: RequestId)
    requires Init(s) && Reaches(Step, s, t)
    ensures Rows(t.orders, r) <= 1
    ensures Rows(t.orders, r) == 1 ==> r in t.log
    ensures forall o :: 0 <= o < t.committed && o !in t.dropped && o !in t.dlt ==>
      o < |t.log| && Rows(t.orders, t.log[o]) == 1
  {
    CommittedIsCoveredOrDropped(s, t);
    DistinctRows(t.orders, r);
    forall o | 0 <= o < t.committed && o !in t.dropped && o !in t.dlt
      ensures o < |t.log| && Rows(t.orders, t.log[o]) == 1
    {
      assert Covered(t, o);
      DistinctRows(t.orders, t.log[o]);
    }
  }

  /** Every offset below the committed one has its order or its dead letter, unless the loop dropped it. */
  lemma CommittedIsCoveredOrDropped(s: State, t: State)
    requires Init(s) && Reaches(Step, s, t)
    ensures Inv(t)
    ensures forall o :: 0 <= o < t.committed ==> Covered(t, o) || o in t.dropped
    ensures t.dropped == {} ==> forall o :: 0 <= o < t.committed ==> Covered(t, o)
  {
    forall x, y | Inv(x) && Step(x, y) ensures Inv(y) {
      var a :| Enabled(x, a) && y == Next(x, a);
      StepKeepsInv(x, a);
    }
    Invariant(Step, Inv, s, t);
  }

  // ----- what dropping costs

  /** Offset `o` is behind the committed one and stays out of the dead-letter topic. */
  ghost predicate Behind(s: State, t: State) {
    s.committed <= t.committed && forall o :: o < s.committed ==> (o in s.dlt <==> o in t.dlt)
  }

  /** Nothing below the committed offset is processed again: a dropped record that was passed is lost. */
  lemma PassedIsNeverRetried(s: State, t: State)
    requires Inv(s) && Reaches(Step, s, t)
    ensures Behind(s, t)
  {
    forall x, y | Inv(x) && Step(x, y) ensures Inv(y) {
      var a :| Enabled(x, a) && y == Next(x, a);
      StepKeepsInv(x, a);
    }
    forall x, y, z | Inv(y) && Step(y, z) && Behind(z, x) ensures Behind(y, x) {
      var a :| Enabled(y, a) && z == Next(y, a);
    }
    Relation(Step, Inv, Behind, s, t);
  }

  lemma Take(s: State, t: State, a: Action, u: State)
    requires Reaches(Step, s, t) && Enabled(t, a) && u == Next(t, a)
    ensures Reaches(Step, s, u)
  {
    Extend(Step, s, t, u);
  }

  /** Record 0 fails (its dead-letter produce did too), record 1 is placed and committed: record 0 is gone. */
  lemma DroppedRecordIsCommittedOver()
    ensures exists s, t :: Init(s) && Reaches(Step, s, t) && t.committed == 2 && !Covered(t, 0)
  {
    var s := State([5, 6], 0, 0, false, 0, [], {}, {});
    var s1 := s.(fetched := 2);
    var s2 := s1.(next := 1, dropped := {0});
    var s3 := s2.(orders := [6], handled := true);
    var s4 := s3.(committed := 2, next := 2, handled := false);
    Stay(Step, s);
    Take(s, s, Poll(2), s1);
    Take(s, s1, GiveUp, s2);
    Take(s, s2, Place, s3);
    Take(s, s3, Commit, s4);
  }
}

/** `ProcessWithRetry` and the loop body of the consumer as code. */
module ConsumerCode {
  import opened Runs
  import opened Consumer

  /** What one handler attempt does: `FailsAfterCommit` placed the order but reported an error. */
  datatype Attempt = Succeeds | FailsAfterCommit | Fails

  datatype RetryResult = RetryResult(attempts: nat, backoffs: seq<int>, deadLettered: bool)

  function Pow2(n: nat): nat { if n == 0 then 1 else 2 * Pow2(n - 1) }

  /** The waits between the first `n + 1` attempts. */
  function Backoffs(base: int, n: nat): (b: seq<int>)
    ensures |b| == n && forall i :: 0 <= i < n ==> b[i] == base * Pow2(i)
  {
    seq(n, i requires 0 <= i < n => base * Pow2(i))
  }

  ghost function Waited(b: seq<int>): int { if b == [] then 0 else Waited(b[..|b| - 1]) + b[|b| - 1] }

  /** Doubling waits sum to one base less than the next wait, so `n` retries wait less than it. */
  lemma {:induction false} TotalWait(base: int, n: nat)
    ensures Waited(Backoffs(base, n)) == base * Pow2(n) - base
  {
    if n > 0 {
      TotalWait(base, n - 1);
      assert Backoffs(base, n)[..n - 1] == Backoffs(base, n - 1);
    }
  }

  /** Attempt `k` is the first to succeed, and no wait before it was cut short. */
  ghost predicate SucceedsAt(k: nat, handler: nat -> Attempt, cancelled: nat -> bool) {
    handler(k) == Succeeds && NoneEnds(k - 1, handler, cancelled)
  }

  /** None of the first `n` attempts succeeds, and none of the waits after them is cut short. */
  ghost predicate NoneEnds(n: int, handler: nat -> Attempt, cancelled: nat -> bool) {
    forall j :: 1 <= j <= n ==> handler(j) != Succeeds && !cancelled(j)
  }

  /** All attempts fail and no wait between them is cut short. */
  ghost predicate AllFail(n: nat, handler: nat -> Attempt, cancelled: nat -> bool) {
    handler(n) != Succeeds && NoneEnds(n - 1, handler, cancelled)
  }

  class Worker {
    var s: State
    ghost var origin: State

    ghost predicate Valid()
      reads this
    {
      Init(origin) && Reaches(Step, origin, s)
    }

    constructor (s0: State)
      requires Init(s0)
      ensures Valid() && s == origin == s0
    {
      s, origin := s0, s0;
      new;
      Stay(Step, s);
    }

    /** Producers append to the partition; nobody else consumes it. */
    method Interfere()
      modifies this`s
      ensures Reaches(Step, old(s), s) && old(s.log) <= s.log && s == old(s).(log := s.log)
    {
      Stay(Step, s);
    }

    method Others()
      requires Valid()
      modifies this`s
      ensures Valid() && old(s.log) <= s.log && s == old(s).(log := s.log)
    {
      Interfere();
      Concat(Step, origin, old(s), s);
    }

    method Do(a: Action)
      requires Valid() && Enabled(s, a)
      modifies this`s
      ensures Valid() && s == Next(old(s), a)
    {
      Extend(Step, origin, s, Next(s, a));
      s := Next(s, a);
    }

    /** The consumer is where it was, and only the record it is at may have got its row. */
    ghost predicate Positions(before: State, now: State) {
      && now.next == before.next && now.fetched == before.fetched && now.committed == before.committed
      && now.dropped == before.dropped && before.log <= now.log
      && (now.orders == before.orders
          || (now.next < |now.log| && now.log[now.next] !in before.orders
              && now.orders == before.orders + [now.log[now.next]]))
    }

    /** One handler call. */
    method RunAttempt(attempt: Attempt) returns (ok: bool)
      requires Valid() && Working(s)
      modifies this`s
      ensures Valid() && Positions(old(s), s) && s.dlt == old(s.dlt)
      ensures ok <==> attempt == Succeeds
      ensures s.handled <==> ok
      ensures attempt != Fails ==> s.next < |s.log| && s.log[s.next] in s.orders
      ensures attempt == Fails ==> s.orders == old(s.orders)
      ensures !ok ==> Working(s)
    {
      Others();
      ok := attempt == Succeeds;
      match attempt
      case Succeeds => Do(Place);
      case FailsAfterCommit => Do(PlaceRow);
      case Fails =>
    }

    /**
     * Attempt `k` does `handler(k)`; the context ends during the wait after attempt `k` if `cancelled(k)`.
     * The record is the one at `s.next`.
     */
    method ProcessWithRetry(maxAttempts: nat, base: int, handler: nat -> Attempt, cancelled: nat -> bool, dltOk: bool)
      returns (failed: bool, result: RetryResult)
      requires Valid() && Working(s) && maxAttempts >= 1
      modifies this`s
      ensures Valid() && Positions(old(s), s)
      ensures !failed <==> s.handled
      ensures failed ==> Working(s)
      ensures 1 <= result.attempts <= maxAttempts && NoneEnds(result.attempts - 1, handler, cancelled)
      ensures !failed && !result.deadLettered <==> handler(result.attempts) == Succeeds
      ensures result.deadLettered <==> dltOk && AllFail(maxAttempts, handler, cancelled)
      ensures failed ==>
        if result.attempts < maxAttempts then cancelled(result.attempts) else !dltOk
      ensures s.dlt == if result.deadLettered then old(s.dlt) + {s.next} else old(s.dlt)
      ensures !failed && !result.deadLettered ==> s.next < |s.log| && s.log[s.next] in s.orders
      ensures result.backoffs ==
        Backoffs(base, if failed && result.attempts < maxAttempts then result.attempts else result.attempts - 1)
    {
      var backoffs, attempt := [], 1;
      while attempt <= maxAttempts
        invariant Valid() && Working(s) && 1 <= attempt <= maxAttempts
        invariant Positions(old(s), s) && s.dlt == old(s.dlt)
        invariant NoneEnds(attempt - 1, handler, cancelled)
        invariant backoffs == Backoffs(base, attempt - 1)
        decreases maxAttempts - attempt
      {
        var ok := RunAttempt(handler(attempt));
        if ok { return false, RetryResult(attempt, backoffs, false); }
        if attempt == maxAttempts { break; }
        backoffs := backoffs + [base * Pow2(attempt - 1)];
        if cancelled(attempt) { return true, RetryResult(attempt, backoffs, false); }
        attempt := attempt + 1;
      }
      if !dltOk { return true, RetryResult(attempt, backoffs, false); }
      Do(DeadLetter);
      failed, result := false, RetryResult(attempt, backoffs, true);
    }

    /**
     * One turn of the loop. A record that some attempt places, or that all attempts fail on and the dead-letter
     * topic takes, is committed if the commit works; any other record is dropped.
     */
    method ConsumeRecord(handler: nat -> Attempt, cancelled: nat -> bool, dltOk: bool, commitOk: bool)
      requires Valid() && Working(s)
      modifies this`s
      ensures Valid() && !s.handled && s.next == old(s.next) + 1 && s.fetched == old(s.fetched)
      ensures old(s.log) <= s.log && s.next <= |s.log|
      ensures s.orders == old(s.orders) || s.orders == old(s.orders) + [s.log[s.next - 1]]
      ensures (exists k :: 1 <= k <= 3 && SucceedsAt(k, handler, cancelled)) ==>
        s.log[s.next - 1] in s.orders && s.dlt == old(s.dlt) && Settled(old(s), s, commitOk)
      ensures dltOk && AllFail(3, handler, cancelled) ==>
        s.dlt == old(s.dlt) + {s.next - 1} && Settled(old(s), s, commitOk)
      ensures (forall k :: 1 <= k <= 3 ==> !SucceedsAt(k, handler, cancelled)) ==>
        (dltOk && AllFail(3, handler, cancelled)) ||
        (s.dropped == old(s.dropped) + {s.next - 1} && s.dlt == old(s.dlt) && s.committed == old(s.committed))
      ensures forall o :: 0 <= o < s.committed ==> Covered(s, o) || o in s.dropped
    {
      var failed, result := ProcessWithRetry(3, 100, handler, cancelled, dltOk);
      Outcomes(failed, result, handler, cancelled);
      if failed {
        Do(GiveUp);
      } else if commitOk {
        Do(Commit);
      } else {
        Do(CommitError);
      }
      CommittedIsCoveredOrDropped(origin, s);
    }

    /** Nothing was dropped, and the offset is committed exactly if the commit worked. */
    ghost predicate Settled(before: State, now: State, commitOk: bool) {
      now.dropped == before.dropped && now.committed == if commitOk then now.next else before.committed
    }

    /** What the result of three attempts says about them. */
    lemma Outcomes(failed: bool, result: RetryResult, handler: nat -> Attempt, cancelled: nat -> bool)
      requires 1 <= result.attempts <= 3 && NoneEnds(result.attempts - 1, handler, cancelled)
      requires !failed && !result.deadLettered <==> handler(result.attempts) == Succeeds
      requires result.deadLettered ==> AllFail(3, handler, cancelled)
      requires failed && result.attempts < 3 ==> cancelled(result.attempts)
      ensures !failed && !result.deadLettered <==> exists k :: 1 <= k <= 3 && SucceedsAt(k, handler, cancelled)
    {
      if !failed && !result.deadLettered { assert SucceedsAt(result.attempts, handler, cancelled); }
    }
  }
}
