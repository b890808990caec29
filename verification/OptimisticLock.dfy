/**
 * The two optimistic paths on one product row: version compare-and-swap with bounded retry, and the
 * conditional update. An UPDATE that hits the row holds its lock until commit or rollback; an UPDATE
 * that would wait is not enabled. All calls of a run use the same path.
 */
module OptimisticLock {
  import opened Runs
  import opened Sums

  type CallId = nat
  type RequestId = nat
  type OrderId = nat

  const MAX_CAS_RETRIES: nat := 10

  datatype Path = VersionCas | ConditionalUpdate

  datatype Order = Order(request: RequestId, quantity: int)

  datatype Reply = Ok(id: OrderId) | InvalidQuantity | ProductNotFound | InsufficientStock | RetriesExhausted | Failed

  /** `Seen` carries the version the attempt read; `Held` is between a successful UPDATE and commit. */
  datatype Pc = Attempt | Seen(version: int) | Held | Done(reply: Reply)

  /** `before` is a history variable: the orders that existed when the call began. */
  datatype Call = Call(request: RequestId, quantity: int, attempt: nat, pc: Pc, before: set<OrderId>)

  datatype State = State(
    path: Path, listed: bool, initialStock: int, initialVersion: int, stock: int, version: int,
    orders: map<OrderId, Order>, holder: set<CallId>, calls: map<CallId, Call>)

  datatype Action =
    | Begin(c: CallId, request: RequestId, quantity: int)
    | Read(c: CallId)
    | Update(c: CallId)
    | Commit(c: CallId, id: OrderId)
    | Fail(c: CallId)

  predicate HasRow(s: State, r: RequestId) { exists i :: i in s.orders && s.orders[i].request == r }

  predicate Enabled(s: State, a: Action) {
    match a
    case Begin(c, _, _) => c !in s.calls
    case Read(c) => s.path == VersionCas && c in s.calls && s.calls[c].pc == Attempt
    case Update(c) =>
      c in s.calls && s.holder == {} && (if s.path == VersionCas then s.calls[c].pc.Seen? else s.calls[c].pc == Attempt)
    case Commit(c, id) => c in s.calls && s.calls[c].pc == Held && id !in s.orders && !HasRow(s, s.calls[c].request)
    case Fail(c) => c in s.calls && !s.calls[c].pc.Done?
  }

  function Move(s: State, c: CallId, pc: Pc): State
    requires c in s.calls
  {
    s.(calls := s.calls[c := s.calls[c].(pc := pc)])
  }

  function Next(s: State, a: Action): State
    requires Enabled(s, a)
  {
    match a
    case Begin(c, r, q) =>
      s.(calls := s.calls[c := Call(r, q, 1, if q <= 0 then Done(InvalidQuantity) else Attempt, s.orders.Keys)])
    case Read(c) =>
      Move(s, c, if !s.listed then Done(ProductNotFound)
                 else if s.stock < s.calls[c].quantity then Done(InsufficientStock) else Seen(s.version))
    case Update(c) =>
      var call := s.calls[c];
      if s.path == VersionCas then
        if s.version == call.pc.version then Move(s.(holder := {c}), c, Held)
        else if call.attempt < MAX_CAS_RETRIES
        then s.(calls := s.calls[c := call.(attempt := call.attempt + 1, pc := Attempt)])
        else Move(s, c, Done(RetriesExhausted))
      else if s.listed && s.stock >= call.quantity then Move(s.(holder := {c}), c, Held)
      else Move(s, c, Done(InsufficientStock))
    case Commit(c, id) =>
      var call := s.calls[c];
      Move(s, c, Done(Ok(id))).(
        stock := s.stock - call.quantity,
        version := if s.path == VersionCas then s.version + 1 else s.version,
        orders := s.orders[id := Order(call.request, call.quantity)],
        holder := s.holder - {c})
    case Fail(c) => Move(s, c, Done(Failed)).(holder := s.holder - {c})
  }

  ghost predicate Step(s: State, t: State) {
    exists a :: Enabled(s, a) && t == Next(s, a)
  }

  ghost predicate Init(s: State) {
    && s.stock == s.initialStock >= 0 && s.version == s.initialVersion
    && s.orders == map[] && s.holder == {} && s.calls == map[]
  }

  // ----- invariant

  ghost predicate CallOk(s: State, c: CallId)
    requires c in s.calls
  {
    var call := s.calls[c];
    && (call.pc != Done(InvalidQuantity) ==> call.quantity > 0)
    && (c in s.holder <==> call.pc == Held)
    && (call.pc == Held ==> s.stock >= call.quantity)
    && 1 <= call.attempt <= MAX_CAS_RETRIES
    && call.before <= s.orders.Keys
    && (s.path == VersionCas ==>
          (call.pc == Attempt ==> |call.before| + call.attempt - 1 <= |s.orders|)
          && (call.pc.Seen? ==> |call.before| + call.attempt - 1 <= call.pc.version - s.initialVersion <= |s.orders|)
          && (call.pc.Seen? && call.pc.version == s.version ==> s.stock >= call.quantity)
          && (call.pc == Done(RetriesExhausted) ==> |call.before| + MAX_CAS_RETRIES <= |s.orders|))
    && (s.path == ConditionalUpdate ==> call.attempt == 1 && !call.pc.Seen? && call.pc != Done(RetriesExhausted))
    && (call.pc.Done? && call.pc.reply.Ok? ==>
      call.pc.reply.id in s.orders && s.orders[call.pc.reply.id].request == call.request)
  }

  ghost function QuantityOf(orders: map<OrderId, Order>): map<OrderId, int> {
    map i | i in orders :: orders[i].quantity
  }

  ghost predicate RowOk(s: State) {
    && s.stock >= 0
    && s.stock + Total(QuantityOf(s.orders)) == s.initialStock
    && (s.path == VersionCas ==> s.version == s.initialVersion + |s.orders|)
    && (forall i, j :: i in s.orders && j in s.orders && s.orders[i].request == s.orders[j].request ==> i == j)
    && (forall c, d :: c in s.holder && d in s.holder ==> c == d)
  }

  ghost predicate Inv(s: State) {
    RowOk(s) && (forall c :: c in s.calls ==> CallOk(s, c)) && s.holder <= s.calls.Keys
  }

  /** What one more order does to the table. */
  lemma OrderAdded(orders: map<OrderId, Order>, id: OrderId, o: Order)
    requires id !in orders
    ensures var after := orders[id := o];
      && |after| == |orders| + 1 && orders.Keys <= after.Keys
      && Total(QuantityOf(after)) == Total(QuantityOf(orders)) + o.quantity
  {
    var after := orders[id := o];
    assert after.Keys == orders.Keys + {id};
    assert QuantityOf(after) == QuantityOf(orders)[id := o.quantity];
    TotalWrite(QuantityOf(orders), id, o.quantity);
  }

  lemma SubjectStaysOk(s: State, a: Action)
    requires Enabled(s, a) && RowOk(s) && (a.c in s.calls ==> CallOk(s, a.c)) && (a.c !in s.calls ==> a.c !in s.holder)
    ensures CallOk(Next(s, a), a.c)
  {
    if a.Commit? { OrderAdded(s.orders, a.id, Order(s.calls[a.c].request, s.calls[a.c].quantity)); }
  }

  /** Another call commits: it held the row, so this call does not. */
  lemma OtherStaysOk(s: State, a: Action, d: CallId)
    requires Enabled(s, a) && RowOk(s) && d in s.calls && d != a.c && CallOk(s, d)
    requires a.c in s.calls ==> CallOk(s, a.c)
    ensures CallOk(Next(s, a), d)
  {
    if a.Commit? { OrderAdded(s.orders, a.id, Order(s.calls[a.c].request, s.calls[a.c].quantity)); }
  }

  lemma CommitKeepsRow(s: State, c: CallId, id: OrderId)
    requires Enabled(s, Commit(c, id)) && RowOk(s) && CallOk(s, c)
    ensures RowOk(Next(s, Commit(c, id)))
  {
    OrderAdded(s.orders, id, Order(s.calls[c].request, s.calls[c].quantity));
  }

  lemma RowStaysOk(s: State, a: Action)
    requires Enabled(s, a) && RowOk(s) && (a.c in s.calls ==> CallOk(s, a.c))
    ensures RowOk(Next(s, a))
  {
    if a.Commit? {
      CommitKeepsRow(s, a.c, a.id);
    } else {
      var t := Next(s, a);
      assert t.orders == s.orders && t.stock == s.stock && t.version == s.version;
    }
  }

  lemma StepKeepsInv(s: State, a: Action)
    requires Inv(s) && Enabled(s, a)
    ensures Inv(Next(s, a))
  {
    if a.c in s.calls { assert CallOk(s, a.c); }
    RowStaysOk(s, a);
    forall c | c in Next(s, a).calls ensures CallOk(Next(s, a), c) {
      if c == a.c { SubjectStaysOk(s, a); } else { assert CallOk(s, c); OtherStaysOk(s, a, c); }
    }
  }

  /**
   * Every run of either path: no oversell, no lost stock, one order per request. On the CAS path the
   * version counts the committed orders.
   */
  lemma EveryRunIsSafe(s: State, t: State)
    requires Init(s) && Reaches(Step, s, t)
    ensures Inv(t)
    ensures t.stock >= 0 && t.stock + Total(QuantityOf(t.orders)) == t.initialStock
    ensures t.path == VersionCas ==> t.version == t.initialVersion + |t.orders|
  {
    assert QuantityOf(s.orders) == map[];
    forall x, y | Inv(x) && Step(x, y) ensures Inv(y) {
      var a :| Enabled(x, a) && y == Next(x, a);
      StepKeepsInv(x, a);
    }
    Invariant(Step, Inv, s, t);
  }

  /** A call that gives up after its retries was overtaken by that many distinct orders, none its own. */
  lemma ExhaustionMeansOvertaken(s: State, t: State, c: CallId)
    requires Init(s) && Reaches(Step, s, t) && s.path == t.path == VersionCas
    requires c in t.calls && t.calls[c].pc == Done(RetriesExhausted)
    ensures t.calls[c].before <= t.orders.Keys
    ensures |t.orders.Keys - t.calls[c].before| >= MAX_CAS_RETRIES
  {
    EveryRunIsSafe(s, t);
    assert CallOk(t, c);
    assert t.orders.Keys == (t.orders.Keys - t.calls[c].before) + t.calls[c].before;
  }
}

/** The optimistic paths as code. */
module OptimisticLockCode {
  import opened Runs
  import opened Sums
  import opened OptimisticLock

  /** What the database fails in one attempt. */
  datatype Fault = NoFault | ReadFails | UpdateFails

  class Database {
    var s: State
    ghost var origin: State
    /** A state on the way, from which a caller looks back. */
    ghost var mark: State

    ghost predicate Valid()
      reads this
    {
      Init(origin) && Reaches(Step, origin, mark) && Reaches(Step, mark, s)
    }

    constructor (s0: State)
      requires Init(s0)
      ensures Valid() && s == mark == origin == s0
    {
      s, mark, origin := s0, s0, s0;
      new;
      Stay(Step, s);
    }

    ghost method Mark()
      requires Valid()
      modifies this`mark
      ensures Valid() && mark == s
    {
      Concat(Step, origin, mark, s);
      mark := s;
      Stay(Step, s);
    }

    lemma Safe()
      requires Valid()
      ensures Inv(s) && s.stock >= 0 && s.stock + Total(QuantityOf(s.orders)) == s.initialStock
      ensures s.path == VersionCas ==> s.version == s.initialVersion + |s.orders|
    {
      Concat(Step, origin, mark, s);
      EveryRunIsSafe(origin, s);
    }

    ghost predicate Is(c: CallId, call: Call)
      reads this
    {
      c in s.calls && s.calls[c] == call
    }

    /** Any run of the other calls. */
    method Interfere(ghost c: CallId)
      modifies this`s
      ensures Reaches(Step, old(s), s) && s.path == old(s).path
      ensures c in old(s.calls) ==> c in s.calls && s.calls[c] == old(s.calls[c])
    {
      Stay(Step, s);
    }

    method Others(ghost c: CallId, ghost call: Call)
      requires Valid() && Is(c, call)
      modifies this`s
      ensures Valid() && Is(c, call) && s.path == old(s).path && Reaches(Step, old(s), s)
    {
      Interfere(c);
      Concat(Step, mark, old(s), s);
    }

    method Do(a: Action)
      requires Valid() && Enabled(s, a)
      modifies this`s
      ensures Valid() && s == Next(old(s), a) && Step(old(s), s) && s.path == old(s).path
    {
      Extend(Step, mark, s, Next(s, a));
      s := Next(s, a);
    }

    /**
     * One CAS attempt up to its UPDATE, which waits for the row lock or times out. It reads the row in the
     * state it starts in; `met` is the state its UPDATE ran on.
     */
    method TryCas(c: CallId, ghost call: Call, fault: Fault) returns (pc: Pc, ghost met: State)
      requires Valid() && s.path == VersionCas && Is(c, call) && call.pc == Attempt
      modifies this`s
      ensures Valid() && s.path == VersionCas && Reaches(Step, old(s), met) && Reaches(Step, met, s)
      ensures var read := old(s);
        pc == if fault == ReadFails then Done(Failed)
              else if !read.listed then Done(ProductNotFound)
              else if read.stock < call.quantity then Done(InsufficientStock)
              else if fault == UpdateFails || met.holder != {} then Done(Failed)
              else if met.version == read.version then Held
              else if call.attempt < MAX_CAS_RETRIES then Attempt
              else Done(RetriesExhausted)
      ensures Is(c, call.(pc := pc, attempt := if pc == Attempt then call.attempt + 1 else call.attempt))
    {
      met := s;
      Stay(Step, s);
      if fault == ReadFails {
        Do(Fail(c));
        Extend(Step, met, met, s);
        return Done(Failed), met;
      }
      ghost var version := s.version;
      Do(Read(c));
      Extend(Step, met, met, s);
      pc := s.calls[c].pc;
      if pc.Done? { return pc, met; }
      ghost var read := s;
      Others(c, call.(pc := pc));
      Concat(Step, met, read, s);
      met := s;
      Stay(Step, met);
      if fault == UpdateFails || s.holder != {} {
        Do(Fail(c));
        Extend(Step, met, met, s);
        return Done(Failed), met;
      }
      Facts(c);
      Do(Update(c));
      Extend(Step, met, met, s);
      pc := s.calls[c].pc;
    }

    lemma Facts(c: CallId)
      requires Valid() && c in s.calls
      ensures CallOk(s, c)
    {
      Safe();
    }

    /** `insertOrderTx` and commit. `generated` is false if the id generator or a statement of the two fails. */
    method InsertAndCommit(c: CallId, ghost call: Call, newId: OrderId, generated: bool) returns (reply: Reply)
      requires Valid() && Is(c, call) && call.pc == Held
      modifies this`s
      ensures Valid() && Is(c, call.(pc := Done(reply))) && s.path == old(s).path
      ensures reply == if Insertable(old(s), newId, call.request, generated) then Ok(newId) else Failed
      ensures if reply.Ok? then Placed(old(s), s, newId, call.request, call.quantity)
        else s.stock == old(s.stock) && s.orders == old(s.orders)
    {
      if generated && newId !in s.orders && !HasRow(s, s.calls[c].request) {
        Do(Commit(c, newId));
        reply := Ok(newId);
      } else {
        Do(Fail(c));
        reply := Failed;
      }
    }

    /**
     * One pass of the retry loop: it ends the call, unless its UPDATE found another version. `read`, `met` and
     * `last` are the states its read, its UPDATE and its insert ran on.
     */
    method RunAttempt(c: CallId, ghost call: Call, newId: OrderId, generated: bool, fault: Fault)
      returns (retry: bool, reply: Reply, ghost read: State, ghost met: State, ghost last: State)
      requires Valid() && s.path == VersionCas && Is(c, call) && call.pc == Attempt
      modifies this`s
      ensures Valid() && s.path == VersionCas
      ensures Reaches(Step, mark, read) && Reaches(Step, read, met) && Reaches(Step, met, last)
      ensures retry <==>
        && fault == NoFault && read.listed && read.stock >= call.quantity
        && met.holder == {} && met.version != read.version && call.attempt < MAX_CAS_RETRIES
      ensures retry ==> Is(c, call.(attempt := call.attempt + 1))
      ensures !retry ==>
        Is(c, call.(pc := Done(reply))) && Caused(reply, call, newId, generated, fault, read, met, last)
      ensures !retry && reply.Ok? ==> Placed(last, s, newId, call.request, call.quantity)
    {
      Others(c, call);
      read := s;
      var pc;
      pc, met := TryCas(c, call, fault);
      last := s;
      retry, reply := pc == Attempt, RetriesExhausted;
      if pc == Held {
        Others(c, call.(pc := Held));
        Concat(Step, met, last, s);
        last := s;
        reply := InsertAndCommit(c, call.(pc := Held), newId, generated);
      } else if pc.Done? {
        reply := pc.reply;
      }
    }

    /**
     * `faults` says what the database fails in which attempt; `read`, `met` and `last` belong to the last
     * attempt and cause the reply. No earlier attempt met a failure.
     */
    method PlaceOrderByVersionCAS(
        c: CallId, request: RequestId, quantity: int, newId: OrderId, generated: bool, faults: map<nat, Fault>)
      returns (reply: Reply, attempts: nat, ghost read: State, ghost met: State, ghost last: State)
      requires Valid() && s.path == VersionCas && c !in s.calls
      modifies this`s, this`mark
      ensures Valid() && s.path == VersionCas && c in s.calls && s.calls[c].pc == Done(reply)
      ensures reply == InvalidQuantity <==> quantity <= 0
      ensures if quantity <= 0 then attempts == 0 else 1 <= attempts == s.calls[c].attempt <= MAX_CAS_RETRIES
      ensures forall k :: k in faults && 1 <= k < attempts ==> faults[k] == NoFault
      ensures Reaches(Step, old(s), read) && Reaches(Step, read, met) && Reaches(Step, met, last)
      ensures quantity > 0 ==>
        var fault := if attempts in faults then faults[attempts] else NoFault;
        Caused(reply, s.calls[c], newId, generated, fault, read, met, last)
      ensures s.calls[c].request == request && s.calls[c].quantity == quantity
      ensures reply.Ok? ==> reply == Ok(newId) && Placed(last, s, newId, request, quantity)
      ensures reply == RetriesExhausted ==>
        attempts == MAX_CAS_RETRIES && |s.orders.Keys - old(s.orders).Keys| >= MAX_CAS_RETRIES
      ensures s.stock >= 0 && s.version == s.initialVersion + |s.orders|
    {
      Mark();
      ghost var call := Call(request, quantity, 1, Attempt, s.orders.Keys);
      read, met, last := s, s, s;
      Do(Begin(c, request, quantity));
      if quantity <= 0 {
        reply, attempts := InvalidQuantity, 0;
      } else {
        reply, attempts, read, met, last := Retry(c, call, newId, generated, faults);
      }
      CasFacts(c);
    }

    /** The retry loop. */
    method Retry(c: CallId, ghost call: Call, newId: OrderId, generated: bool, faults: map<nat, Fault>)
      returns (reply: Reply, attempts: nat, ghost read: State, ghost met: State, ghost last: State)
      requires Valid() && s.path == VersionCas && Is(c, call) && call.pc == Attempt && call.attempt == 1
      modifies this`s
      ensures Valid() && s.path == VersionCas && 1 <= attempts <= MAX_CAS_RETRIES
      ensures Is(c, Call(call.request, call.quantity, attempts, Done(reply), call.before))
      ensures forall k :: k in faults && 1 <= k < attempts ==> faults[k] == NoFault
      ensures Reaches(Step, mark, read) && Reaches(Step, read, met) && Reaches(Step, met, last)
      ensures var fault := if attempts in faults then faults[attempts] else NoFault;
        Caused(reply, s.calls[c], newId, generated, fault, read, met, last)
      ensures reply.Ok? ==> Placed(last, s, newId, call.request, call.quantity)
    {
      attempts := 1;
      while true
        invariant Valid() && s.path == VersionCas && 1 <= attempts <= MAX_CAS_RETRIES
        invariant Is(c, Call(call.request, call.quantity, attempts, Attempt, call.before))
        invariant forall k :: k in faults && 1 <= k < attempts ==> faults[k] == NoFault
        decreases MAX_CAS_RETRIES - attempts
      {
        var retry;
        ghost var now := Call(call.request, call.quantity, attempts, Attempt, call.before);
        var fault := if attempts in faults then faults[attempts] else NoFault;
        retry, reply, read, met, last := RunAttempt(c, now, newId, generated, fault);
        if !retry { return; }
        attempts := attempts + 1;
      }
    }

    lemma CasFacts(c: CallId)
      requires Valid() && s.path == VersionCas && c in s.calls
      ensures s.stock >= 0 && s.version == s.initialVersion + |s.orders|
      ensures s.calls[c].pc == Done(RetriesExhausted) ==> |s.orders.Keys - s.calls[c].before| >= MAX_CAS_RETRIES
    {
      Safe();
      Concat(Step, origin, mark, s);
      PathNeverChanges(origin, s);
      if s.calls[c].pc == Done(RetriesExhausted) { ExhaustionMeansOvertaken(origin, s, c); }
    }

    /** `met` and `last` are the states the UPDATE and the insert ran on; `updateOk` false: the UPDATE fails. */
    method PlaceOrderByConditionalUpdate(
        c: CallId, request: RequestId, quantity: int, newId: OrderId, generated: bool, updateOk: bool)
      returns (reply: Reply, ghost met: State, ghost last: State)
      requires Valid() && s.path == ConditionalUpdate && c !in s.calls
      modifies this`s, this`mark
      ensures Valid() && c in s.calls && s.calls[c].pc == Done(reply)
      ensures Reaches(Step, old(s), met) && Reaches(Step, met, last)
      ensures reply ==
        if quantity <= 0 then InvalidQuantity
        else if !updateOk || met.holder != {} then Failed
        else if !(met.listed && met.stock >= quantity) then InsufficientStock
        else if !Insertable(last, newId, request, generated) then Failed
        else Ok(newId)
      ensures reply.Ok? ==> Placed(last, s, newId, request, quantity)
      ensures s.stock >= 0 && s.stock + Total(QuantityOf(s.orders)) == s.initialStock
    {
      Mark();
      ghost var call := Call(request, quantity, 1, Attempt, s.orders.Keys);
      Do(Begin(c, request, quantity));
      met, last := s, s;
      Stay(Step, s);
      reply := InvalidQuantity;
      if quantity > 0 {
        Others(c, call);
        met, last := s, s;
        Stay(Step, s);
        if !updateOk || s.holder != {} {
          Do(Fail(c));
          reply := Failed;
        } else {
          reply, last := UpdateAndInsert(c, call, newId, generated);
        }
      }
      Safe();
    }

    /** The UPDATE on the free row and, if it hit, the insert. */
    method UpdateAndInsert(c: CallId, ghost call: Call, newId: OrderId, generated: bool)
      returns (reply: Reply, ghost last: State)
      requires Valid() && s.path == ConditionalUpdate && Is(c, call) && call.pc == Attempt && s.holder == {}
      modifies this`s
      ensures Valid() && Is(c, call.(pc := Done(reply))) && Reaches(Step, old(s), last)
      ensures reply ==
        if !(old(s).listed && old(s).stock >= call.quantity) then InsufficientStock
        else if !Insertable(last, newId, call.request, generated) then Failed
        else Ok(newId)
      ensures reply.Ok? ==> Placed(last, s, newId, call.request, call.quantity)
    {
      ghost var start := s;
      Stay(Step, s);
      last := s;
      Do(Update(c));
      Extend(Step, start, start, s);
      reply := InsufficientStock;
      if s.calls[c].pc == Held {
        ghost var won := s;
        Others(c, call.(pc := Held));
        Concat(Step, start, won, s);
        last := s;
        reply := InsertAndCommit(c, call.(pc := Held), newId, generated);
      }
    }
  }

  /** The id was generated, and neither it nor the request has a row. */
  ghost predicate Insertable(s: State, newId: OrderId, request: RequestId, generated: bool) {
    generated && newId !in s.orders && forall i :: i in s.orders ==> s.orders[i].request != request
  }

  /** One order more, and its quantity less in stock. */
  ghost predicate Placed(s: State, t: State, newId: OrderId, request: RequestId, quantity: int) {
    t.stock == s.stock - quantity && t.orders == s.orders[newId := Order(request, quantity)]
  }

  /** Why the attempt that ends a call gives its reply. */
  ghost predicate Caused(
      reply: Reply, call: Call, newId: OrderId, generated: bool, fault: Fault, read: State, met: State, last: State)
  {
    if fault == ReadFails then reply == Failed
    else if !read.listed then reply == ProductNotFound
    else if read.stock < call.quantity then reply == InsufficientStock
    else if fault == UpdateFails || met.holder != {} then reply == Failed
    else if met.version != read.version then reply == RetriesExhausted && call.attempt >= MAX_CAS_RETRIES
    else if !Insertable(last, newId, call.request, generated) then reply == Failed
    else reply == Ok(newId)
  }

  /** A run never changes its path. */
  lemma PathNeverChanges(s: State, t: State)
    requires Init(s) && Reaches(Step, s, t)
    ensures s.path == t.path
  {
    forall x, y, z | Any(y) && Step(y, z) && SamePath(z, x) ensures SamePath(y, x) {
      var a :| Enabled(y, a) && z == Next(y, a);
    }
    Relation(Step, Any, SamePath, s, t);
  }

  ghost predicate SamePath(s: State, t: State) { s.path == t.path }
}
