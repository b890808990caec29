/**
 * The Redis counter as the gate in front of the unguarded SQL update, for the synchronous path
 * (`PlaceOrderWithPreDeduct`) and the Kafka path (`EnqueueOrder` and the landing of its record), on one
 * product after one `WarmStock`. Calls may stop anywhere; request ids may repeat.
 */
module RedisGate {
  import opened Runs
  import opened Sums

  type CallId = nat
  type RequestId = nat

  /**
   * `Deducted`: past the gate. `Broken`: the transaction or the produce failed, stock not yet returned.
   * `Queued`: a record in Kafka. `Placed`, `Duplicate`: the record or transaction met the table.
   */
  datatype Pc = Deducted | Broken | Returned | Queued | DeadLettered | Placed | Duplicate

  datatype Call = Call(request: RequestId, quantity: int, pc: Pc)

  datatype State = State(initialStock: int, redis: int, db: int, orders: map<RequestId, int>, calls: map<CallId, Call>)

  datatype Action =
    | PreDeduct(c: CallId, request: RequestId, quantity: int)
    | Commit(c: CallId)
    | Break(c: CallId)
    | ReturnStock(c: CallId)
    | Produce(c: CallId)
    | Land(c: CallId)
    | DeadLetter(c: CallId)

  predicate Enabled(s: State, a: Action) {
    match a
    case PreDeduct(c, _, q) => c !in s.calls && q > 0 && s.redis >= q
    case Commit(c) => c in s.calls && s.calls[c].pc == Deducted && s.calls[c].request !in s.orders
    case Break(c) => c in s.calls && s.calls[c].pc == Deducted
    case ReturnStock(c) => c in s.calls && s.calls[c].pc == Broken
    case Produce(c) => c in s.calls && s.calls[c].pc == Deducted
    case Land(c) => c in s.calls && s.calls[c].pc in {Queued, Placed, Duplicate}
    case DeadLetter(c) => c in s.calls && s.calls[c].pc == Queued
  }

  function Move(s: State, c: CallId, pc: Pc): State
    requires c in s.calls
  {
    s.(calls := s.calls[c := s.calls[c].(pc := pc)])
  }

  function Sell(s: State, c: CallId): State
    requires c in s.calls
  {
    Move(s.(db := s.db - s.calls[c].quantity, orders := s.orders[s.calls[c].request := s.calls[c].quantity]), c, Placed)
  }

  /** `PlaceOrderTx` refuses a new request when the row has less than it wants. */
  predicate Refused(s: State, c: CallId)
    requires c in s.calls
  {
    s.calls[c].request !in s.orders && s.db < s.calls[c].quantity
  }

  function Next(s: State, a: Action): State
    requires Enabled(s, a)
  {
    match a
    case PreDeduct(c, r, q) => s.(redis := s.redis - q, calls := s.calls[c := Call(r, q, Deducted)])
    case Commit(c) => Sell(s, c)
    case Break(c) => Move(s, c, Broken)
    case ReturnStock(c) => Move(s.(redis := s.redis + s.calls[c].quantity), c, Returned)
    case Produce(c) => Move(s, c, Queued)
    case Land(c) =>
      if s.calls[c].request in s.orders then (if s.calls[c].pc == Queued then Move(s, c, Duplicate) else s)
      else if Refused(s, c) then s
      else Sell(s, c)
    case DeadLetter(c) => Move(s, c, DeadLettered)
  }

  ghost predicate Step(s: State, t: State) {
    exists a :: Enabled(s, a) && t == Next(s, a)
  }

  /** Just after `WarmStock`. */
  ghost predicate Init(s: State) {
    s.redis == s.db == s.initialStock >= 0 && s.orders == map[] && s.calls == map[]
  }

  /** Stock a call took out of Redis that the database did not sell through it. */
  function Out(call: Call): int {
    if call.pc == Returned || call.pc == Placed then 0 else call.quantity
  }

  ghost function OutOf(calls: map<CallId, Call>): map<CallId, int> {
    map c | c in calls :: Out(calls[c])
  }

  ghost predicate Inv(s: State) {
    && s.redis >= 0
    && s.db == s.redis + Total(OutOf(s.calls))
    && s.db + Total(s.orders) == s.initialStock
    && (forall c :: c in s.calls ==>
      s.calls[c].quantity > 0 && (s.calls[c].pc in {Placed, Duplicate} ==> s.calls[c].request in s.orders))
  }

  lemma OutWrite(calls: map<CallId, Call>, c: CallId, call: Call)
    ensures Total(OutOf(calls[c := call])) ==
      Total(OutOf(calls)) + Out(call) - (if c in calls then Out(calls[c]) else 0)
  {
    assert OutOf(calls[c := call]) == OutOf(calls)[c := Out(call)];
    TotalWrite(OutOf(calls), c, Out(call));
  }

  /** Whatever a call still holds out is in the database row. */
  lemma RowCoversCall(s: State, c: CallId)
    requires Inv(s) && c in s.calls
    ensures s.db >= s.redis + Out(s.calls[c]) >= 0
  {
    TotalRemove(OutOf(s.calls), c);
    TotalNonNegative(OutOf(s.calls) - {c});
  }

  lemma StepKeepsInv(s: State, a: Action)
    requires Inv(s) && Enabled(s, a)
    ensures Inv(Next(s, a))
  {
    var t := Next(s, a);
    if t.calls != s.calls {
      assert t.calls == s.calls[a.c := t.calls[a.c]];
      OutWrite(s.calls, a.c, t.calls[a.c]);
    }
    if t.orders != s.orders {
      TotalWrite(s.orders, t.calls[a.c].request, t.calls[a.c].quantity);
    }
  }

  /**
   * In every run, with crashes anywhere: the database row equals the Redis counter plus all stock that is
   * out, so neither goes negative, and no accepted record is ever refused for lack of stock.
   */
  lemma TheGateHolds(s: State, t: State)
    requires Init(s) && Reaches(Step, s, t)
    ensures Inv(t) && t.redis >= 0 && t.db >= 0
    ensures t.db == t.redis + Total(OutOf(t.calls))
    ensures forall c :: c in t.calls && t.calls[c].pc == Queued ==>
      !Refused(t, c) && (t.calls[c].request in t.orders || t.db >= t.calls[c].quantity)
    ensures forall c :: c in t.calls && t.calls[c].pc == Deducted ==> t.db >= t.calls[c].quantity
  {
    assert OutOf(s.calls) == map[];
    forall x, y | Inv(x) && Step(x, y) ensures Inv(y) {
      var a :| Enabled(x, a) && y == Next(x, a);
      StepKeepsInv(x, a);
    }
    Invariant(Step, Inv, s, t);
    forall c | c in t.calls ensures t.db >= t.redis + Out(t.calls[c]) { RowCoversCall(t, c); }
    TotalNonNegative(OutOf(t.calls));
  }

  // ----- warming the counter

  /** The second command of `WarmStock`, a SET of the stock its first command read. */
  function Warmed(s: State, row: int): State { s.(redis := row) }

  ghost predicate NothingOut(s: State) {
    forall c :: c in s.calls ==> s.calls[c].pc == Returned || s.calls[c].pc == Placed
  }

  lemma NothingOutMeansNoTotal(s: State)
    requires Inv(s)
    ensures Total(OutOf(s.calls)) >= 0
    ensures Total(OutOf(s.calls)) == 0 <==> NothingOut(s)
  {
    TotalNonNegative(OutOf(s.calls));
    assert forall c :: c in s.calls ==> OutOf(s.calls)[c] == Out(s.calls[c]);
  }

  ghost predicate RowFell(s: State, t: State) { t.db <= s.db }

  lemma StepLowersRow(s: State, t: State)
    requires Inv(s) && Step(s, t)
    ensures Inv(t) && RowFell(s, t)
  {
    var a :| Enabled(s, a) && t == Next(s, a);
    StepKeepsInv(s, a);
  }

  lemma RowOnlyFalls(s: State, t: State)
    requires Inv(s) && Reaches(Step, s, t)
    ensures Inv(t) && RowFell(s, t)
  {
    forall x, y | Inv(x) && Step(x, y) ensures Inv(y) { StepLowersRow(x, y); }
    forall x, y, z | Inv(y) && Step(y, z) && RowFell(z, x) ensures RowFell(y, x) { StepLowersRow(y, z); }
    Invariant(Step, Inv, s, t);
    Relation(Step, Inv, RowFell, s, t);
  }

  /**
   * `WarmStock` reads the row in `s` and sets the counter in `t`. It keeps the gate if and only if no stock is
   * out when it writes and the row has not changed since it read.
   */
  lemma WarmKeepsGateIffQuiet(s: State, t: State)
    requires Inv(s) && Reaches(Step, s, t)
    ensures Inv(Warmed(t, s.db)) <==> NothingOut(t) && t.db == s.db
  {
    RowOnlyFalls(s, t);
    NothingOutMeansNoTotal(s);
    NothingOutMeansNoTotal(t);
  }

  ghost function Shelf(redis: int, db: int, orders: map<RequestId, int>, calls: map<CallId, Call>): State {
    State(1, redis, db, orders, calls)
  }

  lemma Take(s: State, t: State, a: Action, u: State)
    requires Reaches(Step, s, t) && Enabled(t, a) && u == Next(t, a)
    ensures Reaches(Step, s, u)
  {
    Extend(Step, s, t, u);
  }

  /** One call sells the last unit. */
  lemma LastUnitSells(s: State, c: CallId, t: State)
    requires s.redis == 1 && c !in s.calls && c !in s.orders
    requires t == s.(redis := 0, db := s.db - 1, orders := s.orders[c := 1], calls := s.calls[c := Call(c, 1, Placed)])
    ensures Reaches(Step, s, t)
  {
    var m := s.(redis := 0, calls := s.calls[c := Call(c, 1, Deducted)]);
    Stay(Step, s);
    Take(s, s, PreDeduct(c, c, 1), m);
    Take(s, m, Commit(c), t);
  }

  /** A warm-up that reads in `s` and writes in `t`, with nothing out at either, and a run that goes on to `u`. */
  ghost predicate OverlappedWarm(s: State, t: State, u: State) {
    && Init(s) && Reaches(Step, s, t) && NothingOut(s) && NothingOut(t)
    && Reaches(Step, Warmed(t, s.db), u)
  }

  /**
   * Nothing is out at either command of the warm-up, but an order commits between them: the counter is set to
   * the stale row, and the row can go negative.
   */
  lemma OverlappedWarmOversells()
    ensures exists s, t, u :: OverlappedWarm(s, t, u) && u.db == -1
  {
    var s := Shelf(1, 1, map[], map[]);
    var t := Shelf(0, 0, map[0 := 1], map[0 := Call(0, 1, Placed)]);
    var u := Shelf(0, -1, map[0 := 1, 1 := 1], map[0 := Call(0, 1, Placed), 1 := Call(1, 1, Placed)]);
    LastUnitSells(s, 0, t);
    LastUnitSells(Warmed(t, s.db), 1, u);
    assert OverlappedWarm(s, t, u);
  }
}

/** The two enqueueing paths and `WarmStock` as code. */
module RedisGateCode {
  import opened Common
  import opened Runs
  import opened RedisGate

  datatype Reply = Ok | InvalidQuantity | InsufficientStock | GateFailed | Failed

  class Shop {
    var s: State
    ghost var origin: State
    /** A state on the way, from which a caller looks back. */
    ghost var mark: State

    ghost predicate Valid()
      reads this
    {
      Init(origin) && Reaches(Step, origin, mark) && Reaches(Step, mark, s)
    }

    constructor (s0: State)
      requires Init(s0)
      ensures Valid() && s == mark == origin == s0
    {
      s, mark, origin := s0, s0, s0;
      new;
      Stay(Step, s);
    }

    ghost method Mark()
      requires Valid()
      modifies this`mark
      ensures Valid() && mark == s
    {
      Concat(Step, origin, mark, s);
      mark := s;
      Stay(Step, s);
    }

    lemma Gate()
      requires Valid()
      ensures Inv(s) && s.db >= 0
      ensures forall c :: c in s.calls && s.calls[c].pc == Queued ==> !Refused(s, c)
      ensures forall c :: c in s.calls && s.calls[c].pc == Queued ==>
        s.calls[c].request in s.orders || s.db >= s.calls[c].quantity
    {
      Concat(Step, origin, mark, s);
      TheGateHolds(origin, s);
    }

    ghost predicate Is(c: CallId, call: Call)
      reads this
    {
      c in s.calls && s.calls[c] == call
    }

    method Interfere(ghost c: CallId)
      modifies this`s
      ensures Reaches(Step, old(s), s)
      ensures c in old(s.calls) ==> c in s.calls && s.calls[c] == old(s.calls[c])
    {
      Stay(Step, s);
    }

    method Others(ghost c: CallId, ghost call: Call)
      requires Valid() && Is(c, call)
      modifies this`s
      ensures Valid() && Is(c, call)
    {
      Interfere(c);
      Concat(Step, mark, old(s), s);
    }

    method Do(a: Action)
      requires Valid() && Enabled(s, a)
      modifies this`s
      ensures Valid() && s == Next(old(s), a)
    {
      Extend(Step, mark, s, Next(s, a));
      s := Next(s, a);
    }

    /** The pre-deduct script took `quantity` out for call `c` between the two states. */
    ghost predicate Took(before: State, c: CallId, request: RequestId, quantity: int)
      reads this
    {
      s == before.(redis := before.redis - quantity, calls := before.calls[c := Call(request, quantity, Deducted)])
    }

    /** The pre-deduct script. An error may hide that it took effect. */
    method TryPreDeduct(c: CallId, request: RequestId, quantity: int, gate: Answer) returns (r: GateReply)
      requires Valid() && c !in s.calls && quantity > 0
      modifies this`s
      ensures Valid()
      ensures r == GateError <==> gate != Answered
      ensures r == Passed <==> gate == Answered && old(s.redis) >= quantity
      ensures if gate != NoEffect && old(s.redis) >= quantity then Took(old(s), c, request, quantity) else s == old(s)
    {
      var enough := s.redis >= quantity;
      if enough && gate != NoEffect { Do(PreDeduct(c, request, quantity)); }
      r := if gate != Answered then GateError else if enough then Passed else Short;
    }

    /** The compensating INCRBY, whose error both paths drop; `acts` says whether it took effect. */
    method Rollback(c: CallId, acts: bool, ghost call: Call)
      requires Valid() && Is(c, call) && call.pc == Broken
      modifies this`s
      ensures Valid() && Is(c, call.(pc := if acts then Returned else Broken))
      ensures s.redis == old(s.redis) + (if acts then call.quantity else 0)
    {
      if acts { Do(ReturnStock(c)); }
    }

    /**
     * `gate` is what becomes of the pre-deduct script, `dbOk` the database's answer; a duplicate request id
     * fails the insert whatever it says. `met` is the state the transaction ran on. A script that acts unheard
     * leaves its stock out for good.
     */
    method PlaceOrderWithPreDeduct(
        c: CallId, request: RequestId, quantity: int, gate: Answer, dbOk: bool, rollbackActs: bool)
      returns (reply: Reply, ghost met: State)
      requires Valid() && c !in s.calls
      modifies this`s, this`mark
      ensures Valid() && s.db >= 0 && Reaches(Step, old(s), met)
      ensures reply ==
        if quantity <= 0 then InvalidQuantity
        else if gate != Answered then GateFailed
        else if old(s.redis) < quantity then InsufficientStock
        else if dbOk && request !in met.orders then Ok
        else Failed
      ensures reply == InvalidQuantity || reply == InsufficientStock ==> s == old(s)
      ensures reply == GateFailed ==>
        if gate == Unheard && old(s.redis) >= quantity then Took(old(s), c, request, quantity) else s == old(s)
      ensures reply == Ok ==> Is(c, Call(request, quantity, Placed))
      ensures reply == Ok ==> s.db == met.db - quantity && s.orders == met.orders[request := quantity]
      ensures reply == Failed ==> Is(c, Call(request, quantity, if rollbackActs then Returned else Broken))
    {
      Mark();
      met := s;
      Gate();
      if quantity <= 0 { return InvalidQuantity, met; }
      var r := TryPreDeduct(c, request, quantity, gate);
      Gate();
      if r != Passed { return if r == Short then InsufficientStock else GateFailed, met; }
      Others(c, Call(request, quantity, Deducted));
      met := s;
      if dbOk && request !in s.orders {
        Do(Commit(c));
        reply := Ok;
      } else {
        Do(Break(c));
        Others(c, Call(request, quantity, Broken));
        Rollback(c, rollbackActs, Call(request, quantity, Broken));
        reply := Failed;
      }
      Gate();
    }

    /** `acked` is the broker's answer. Callers pass a positive quantity; the code does not check. */
    method EnqueueOrder(c: CallId, request: RequestId, quantity: int, gate: Answer, acked: bool, rollbackActs: bool)
      returns (reply: Reply)
      requires Valid() && c !in s.calls && quantity > 0
      modifies this`s
      ensures Valid()
      ensures reply ==
        if gate != Answered then GateFailed
        else if old(s.redis) < quantity then InsufficientStock
        else if acked then Ok
        else Failed
      ensures reply == InsufficientStock ==> s == old(s)
      ensures reply == GateFailed ==>
        if gate == Unheard && old(s.redis) >= quantity then Took(old(s), c, request, quantity) else s == old(s)
      ensures reply == Ok ==>
        Is(c, Call(request, quantity, Queued)) && !Refused(s, c) && (request in s.orders || s.db >= quantity)
      ensures reply == Failed ==>
        Is(c, Call(request, quantity, if rollbackActs then Returned else Broken))
    {
      var r := TryPreDeduct(c, request, quantity, gate);
      if r != Passed { return if r == Short then InsufficientStock else GateFailed; }
      Others(c, Call(request, quantity, Deducted));
      if acked {
        Do(Produce(c));
        reply := Ok;
      } else {
        Do(Break(c));
        Others(c, Call(request, quantity, Broken));
        Rollback(c, rollbackActs, Call(request, quantity, Broken));
        reply := Failed;
      }
      Gate();
    }

    /**
     * Read the row, then set the counter, with anything in between; `written` is the state the SET found.
     * Afterwards the gate holds if and only if the SET had no effect, or no stock was out and the row was
     * still what had been read.
     */
    method WarmStock(write: Answer) returns (ok: bool, ghost written: State)
      requires Valid()
      modifies this`s
      ensures ok <==> write == Answered
      ensures Reaches(Step, old(s), written)
      ensures s == if write != NoEffect then written.(redis := old(s.db)) else written
      ensures Inv(s) <==> write == NoEffect || (NothingOut(written) && written.db == old(s.db))
    {
      var row := s.db;
      Gate();
      AnythingHappens();
      written := s;
      RowOnlyFalls(old(s), s);
      WarmKeepsGateIffQuiet(old(s), s);
      if write != NoEffect { s := Warmed(s, row); }
      ok := write == Answered;
    }

    method AnythingHappens()
      modifies this`s
      ensures Reaches(Step, old(s), s)
    {
      Stay(Step, s);
    }
  }
}
