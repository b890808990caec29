/**
 * `PlaceOrderTx` at statement level: a snapshot read, `SELECT ... FOR UPDATE`, an insert judged by the
 * unique indexes, an update, a commit. Transactions of any number of calls interleave; a statement that
 * would wait for a lock is not enabled.
 */
module OrderTx {
  import opened Runs
  import opened Sums

  type CallId = nat
  type RequestId = nat
  type ProductId = nat
  type OrderId = nat

  datatype Request = Request(id: RequestId, product: ProductId, quantity: int)

  datatype Row = Row(request: RequestId, product: ProductId, quantity: int)

  /**
   * `NoRows`: the winner of a duplicate key error was not found; `tried`, a history variable, is the id the
   * call generated.
   */
  datatype Reply =
    | Ok(order: OrderId)
    | InvalidQuantity
    | ProductNotFound
    | InsufficientStock
    | NoRows(tried: OrderId)
    | Aborted

  /** Where a call is. `Locked`, `Inserted` and `Updated` hold the row lock of the product. */
  datatype Pc =
    | Started
    | Missed
    | Locked
    | Inserted(id: OrderId)
    | Updated(id: OrderId)
    | Duplicate(id: OrderId)
    | Done(reply: Reply)
  {
    predicate Holding() { Locked? || Pending() }
    predicate Pending() { Inserted? || Updated? }
  }

  datatype Call = Call(request: Request, pc: Pc)

  /** Committed tables, row locks and calls. An uncommitted insert lives in the `pc` of its call. */
  datatype State = State(
    initial: map<ProductId, int>, stock: map<ProductId, int>, orders: map<OrderId, Row>,
    lock: map<ProductId, CallId>, calls: map<CallId, Call>)

  datatype Action =
    | Begin(c: CallId, request: Request)
    | FastHit(c: CallId, id: OrderId)
    | FastMiss(c: CallId)
    | SelectForUpdate(c: CallId)
    | Insert(c: CallId, id: OrderId)
    | WinnerFound(c: CallId, id: OrderId)
    | WinnerGone(c: CallId)
    | Update(c: CallId)
    | Commit(c: CallId)
    | Abort(c: CallId)

  predicate HasRow(orders: map<OrderId, Row>, r: RequestId) {
    exists id :: id in orders && orders[id].request == r
  }

  predicate IsRow(s: State, id: OrderId, r: RequestId) {
    id in s.orders && s.orders[id].request == r
  }

  predicate At(s: State, c: CallId, pc: Pc) { c in s.calls && s.calls[c].pc == pc }

  /** An uncommitted insert of another transaction on the same primary key or request id: the statement waits. */
  predicate Blocked(s: State, c: CallId, id: OrderId)
    requires c in s.calls
  {
    exists d :: d in s.calls && d != c && s.calls[d].pc.Pending() &&
      (s.calls[d].pc.id == id || s.calls[d].request.id == s.calls[c].request.id)
  }

  predicate Enabled(s: State, a: Action) {
    match a
    case Begin(c, _) => c !in s.calls
    case FastHit(c, id) => At(s, c, Started) && IsRow(s, id, s.calls[c].request.id)
    case FastMiss(c) => At(s, c, Started) && !HasRow(s.orders, s.calls[c].request.id)
    case SelectForUpdate(c) => At(s, c, Missed) && s.calls[c].request.product !in s.lock
    case Insert(c, id) => At(s, c, Locked) && !Blocked(s, c, id)
    case WinnerFound(c, id) => c in s.calls && s.calls[c].pc.Duplicate? && IsRow(s, id, s.calls[c].request.id)
    case WinnerGone(c) => c in s.calls && s.calls[c].pc.Duplicate? && !HasRow(s.orders, s.calls[c].request.id)
    case Update(c) => c in s.calls && s.calls[c].pc.Inserted?
    case Commit(c) => c in s.calls && s.calls[c].pc.Updated? && s.calls[c].request.product in s.stock
    case Abort(c) => c in s.calls && !s.calls[c].pc.Done?
  }

  function Move(s: State, c: CallId, pc: Pc): State
    requires c in s.calls
  {
    s.(calls := s.calls[c := s.calls[c].(pc := pc)])
  }

  /** End the transaction: its row lock is released. */
  function Release(s: State, c: CallId): State
    requires c in s.calls
  {
    if s.calls[c].pc.Holding() then s.(lock := s.lock - {s.calls[c].request.product}) else s
  }

  function Next(s: State, a: Action): State
    requires Enabled(s, a)
  {
    match a
    case Begin(c, req) =>
      s.(calls := s.calls[c := Call(req, if req.quantity <= 0 then Done(InvalidQuantity) else Started)])
    case FastHit(c, id) => Move(s, c, Done(Ok(id)))
    case FastMiss(c) => Move(s, c, Missed)
    case SelectForUpdate(c) =>
      var req := s.calls[c].request;
      if req.product !in s.stock then Move(s, c, Done(ProductNotFound))
      else if s.stock[req.product] < req.quantity then Move(s, c, Done(InsufficientStock))
      else Move(s.(lock := s.lock[req.product := c]), c, Locked)
    case Insert(c, id) =>
      if id in s.orders || HasRow(s.orders, s.calls[c].request.id)
      then Move(Release(s, c), c, Duplicate(id))
      else Move(s, c, Inserted(id))
    case WinnerFound(c, id) => Move(s, c, Done(Ok(id)))
    case WinnerGone(c) => Move(s, c, Done(NoRows(s.calls[c].pc.id)))
    case Update(c) => Move(s, c, Updated(s.calls[c].pc.id))
    case Commit(c) =>
      var req, id := s.calls[c].request, s.calls[c].pc.id;
      Move(Release(s, c), c, Done(Ok(id))).(
        stock := s.stock[req.product := s.stock[req.product] - req.quantity],
        orders := s.orders[id := Row(req.id, req.product, req.quantity)])
    case Abort(c) => Move(Release(s, c), c, Done(Aborted))
  }

  ghost predicate Step(s: State, t: State) {
    exists a :: Enabled(s, a) && t == Next(s, a)
  }

  ghost predicate Init(s: State) {
    && s.stock == s.initial && s.orders == map[] && s.lock == map[] && s.calls == map[]
    && forall p :: p in s.stock ==> s.stock[p] >= 0
  }

  // ----- invariant

  ghost predicate CallOk(s: State, c: CallId)
    requires c in s.calls
  {
    var req, pc := s.calls[c].request, s.calls[c].pc;
    && (pc != Done(InvalidQuantity) ==> req.quantity > 0)
    && (pc.Holding() ==> req.product in s.lock && s.lock[req.product] == c)
    && (pc.Holding() ==> req.product in s.stock && s.stock[req.product] >= req.quantity)
    && (pc.Pending() ==> pc.id !in s.orders && !HasRow(s.orders, req.id))
    && (pc.Duplicate? ==> pc.id in s.orders || HasRow(s.orders, req.id))
    && (pc.Done? && pc.reply.Ok? ==> IsRow(s, pc.reply.order, req.id))
    && (pc.Done? && pc.reply.NoRows? ==> pc.reply.tried in s.orders && s.orders[pc.reply.tried].request != req.id)
  }

  /** Two uncommitted inserts differ in primary key and in request id. */
  ghost predicate Apart(s: State, c: CallId, d: CallId)
    requires c in s.calls && d in s.calls
  {
    c != d && s.calls[c].pc.Pending() && s.calls[d].pc.Pending() ==>
      s.calls[c].pc.id != s.calls[d].pc.id && s.calls[c].request.id != s.calls[d].request.id
  }

  ghost predicate UniqueRequests(orders: map<OrderId, Row>) {
    forall i, j :: i in orders && j in orders && orders[i].request == orders[j].request ==> i == j
  }

  ghost function SoldOf(orders: map<OrderId, Row>, p: ProductId): map<OrderId, int> {
    map i | i in orders :: if orders[i].product == p then orders[i].quantity else 0
  }

  ghost predicate StockOk(s: State, p: ProductId) {
    && (p in s.initial <==> p in s.stock)
    && (p in s.stock ==> s.stock[p] >= 0 && s.stock[p] + Total(SoldOf(s.orders, p)) == s.initial[p])
    && (p in s.lock ==>
      s.lock[p] in s.calls && s.calls[s.lock[p]].request.product == p && s.calls[s.lock[p]].pc.Holding())
  }

  ghost predicate Inv(s: State) {
    && (forall c :: c in s.calls ==> CallOk(s, c))
    && (forall c, d :: c in s.calls && d in s.calls ==> Apart(s, c, d))
    && UniqueRequests(s.orders)
    && (forall p :: StockOk(s, p))
  }

  lemma SubjectStaysOk(s: State, a: Action)
    requires Enabled(s, a) && (a.c in s.calls ==> CallOk(s, a.c))
    ensures CallOk(Next(s, a), a.c)
  {
  }

  lemma CommitLeavesOthersOk(s: State, c: CallId, d: CallId)
    requires Enabled(s, Commit(c)) && d in s.calls && d != c && CallOk(s, d)
    requires CallOk(s, c) && Apart(s, c, d)
    ensures CallOk(Next(s, Commit(c)), d)
  {
    var t := Next(s, Commit(c));
    if i :| i in s.orders && s.orders[i].request == s.calls[d].request.id { assert IsRow(t, i, s.calls[d].request.id); }
  }

  /** A step leaves the calls of others alone, and the row locks they hold. */
  lemma StepSparesOthers(s: State, a: Action, d: CallId)
    requires Enabled(s, a) && d in s.calls && d != a.c && CallOk(s, d)
    requires a.c in s.calls ==> CallOk(s, a.c)
    ensures var t := Next(s, a); d in t.calls && t.calls[d] == s.calls[d]
    ensures var t, p := Next(s, a), s.calls[d].request.product;
      s.calls[d].pc.Holding() ==> p in t.lock && t.lock[p] == d
  {
  }

  lemma SameTablesKeepOk(s: State, t: State, d: CallId)
    requires d in s.calls && d in t.calls && t.calls[d] == s.calls[d] && CallOk(s, d) && SameTables(s, t)
    requires var p := s.calls[d].request.product; s.calls[d].pc.Holding() ==> p in t.lock && t.lock[p] == d
    ensures CallOk(t, d)
  {
  }

  lemma OtherStaysOk(s: State, a: Action, d: CallId)
    requires Enabled(s, a) && d in s.calls && d != a.c && CallOk(s, d)
    requires a.c in s.calls ==> CallOk(s, a.c) && Apart(s, a.c, d)
    ensures d in Next(s, a).calls && CallOk(Next(s, a), d)
  {
    if a.Commit? {
      CommitLeavesOthersOk(s, a.c, d);
    } else {
      StepSparesOthers(s, a, d);
      TablesChangeOnlyAtCommit(s, a);
      SameTablesKeepOk(s, Next(s, a), d);
    }
  }

  lemma PendingGrowsAtInsert(s: State, a: Action, c: CallId)
    requires Enabled(s, a) && !a.Insert? && c in Next(s, a).calls && Next(s, a).calls[c].pc.Pending()
    ensures c in s.calls && s.calls[c].pc.Pending()
    ensures s.calls[c].pc.id == Next(s, a).calls[c].pc.id && s.calls[c].request == Next(s, a).calls[c].request
  {
  }

  lemma InsertStaysApart(s: State, b: CallId, id: OrderId, c: CallId, d: CallId)
    requires Enabled(s, Insert(b, id)) && c in s.calls && d in s.calls && Apart(s, c, d)
    ensures Apart(Next(s, Insert(b, id)), c, d)
  {
  }

  lemma StaysApart(s: State, a: Action, c: CallId, d: CallId)
    requires Enabled(s, a) && c in Next(s, a).calls && d in Next(s, a).calls
    requires c in s.calls && d in s.calls ==> Apart(s, c, d)
    ensures Apart(Next(s, a), c, d)
  {
    var t := Next(s, a);
    if !a.Insert? && t.calls[c].pc.Pending() && t.calls[d].pc.Pending() {
      PendingGrowsAtInsert(s, a, c);
      PendingGrowsAtInsert(s, a, d);
    } else if a.Insert? && c != d {
      InsertStaysApart(s, a.c, a.id, c, d);
    }
  }

  lemma RowsStayUnique(s: State, a: Action)
    requires Inv(s) && Enabled(s, a)
    ensures UniqueRequests(Next(s, a).orders)
  {
    if a.Commit? { assert CallOk(s, a.c); }
  }

  lemma SoldWrite(orders: map<OrderId, Row>, id: OrderId, row: Row, p: ProductId)
    requires id !in orders
    ensures Total(SoldOf(orders[id := row], p)) ==
      Total(SoldOf(orders, p)) + (if row.product == p then row.quantity else 0)
  {
    var q := if row.product == p then row.quantity else 0;
    assert SoldOf(orders[id := row], p) == SoldOf(orders, p)[id := q];
    TotalWrite(SoldOf(orders, p), id, q);
  }

  lemma StockStaysOk(s: State, a: Action, p: ProductId)
    requires Enabled(s, a) && StockOk(s, p)
    requires a.c in s.calls ==> CallOk(s, a.c)
    ensures StockOk(Next(s, a), p)
  {
    if a.Commit? {
      var c := s.calls[a.c];
      SoldWrite(s.orders, c.pc.id, Row(c.request.id, c.request.product, c.request.quantity), p);
    }
  }

  lemma StepKeepsInv(s: State, a: Action)
    requires Inv(s) && Enabled(s, a)
    ensures Inv(Next(s, a))
  {
    var t := Next(s, a);
    if a.c in s.calls { assert CallOk(s, a.c); }
    forall c | c in t.calls ensures CallOk(t, c) {
      if c == a.c {
        SubjectStaysOk(s, a);
      } else {
        assert CallOk(s, c);
        if a.c in s.calls { assert Apart(s, a.c, c); }
        OtherStaysOk(s, a, c);
      }
    }
    forall c, d | c in t.calls && d in t.calls ensures Apart(t, c, d) {
      if c in s.calls && d in s.calls { assert Apart(s, c, d); }
      StaysApart(s, a, c, d);
    }
    forall p ensures StockOk(t, p) {
      assert StockOk(s, p);
      StockStaysOk(s, a, p);
    }
    RowsStayUnique(s, a);
  }

  // ----- every run

  /** No interleaving oversells, loses stock or places a request twice. */
  lemma EveryRunIsSafe(s: State, t: State)
    requires Init(s) && Reaches(Step, s, t)
    ensures Inv(t)
    ensures forall p :: p in t.stock ==>
      p in t.initial && t.stock[p] >= 0 && t.stock[p] + Total(SoldOf(t.orders, p)) == t.initial[p]
    ensures UniqueRequests(t.orders)
  {
    assert Inv(s) by {
      forall p ensures StockOk(s, p) { assert SoldOf(s.orders, p) == map[]; }
    }
    forall x, y | Inv(x) && Step(x, y) ensures Inv(y) {
      var a :| Enabled(x, a) && y == Next(x, a);
      StepKeepsInv(x, a);
    }
    Invariant(Step, Inv, s, t);
    forall p | p in t.stock
      ensures p in t.initial && t.stock[p] >= 0 && t.stock[p] + Total(SoldOf(t.orders, p)) == t.initial[p]
    {
      assert StockOk(t, p);
    }
  }

  /** Successful calls with one request id return one order, and it is the row of that request. */
  lemma SuccessesAgree(s: State, t: State, c: CallId, d: CallId)
    requires Init(s) && Reaches(Step, s, t)
    requires c in t.calls && d in t.calls && t.calls[c].request.id == t.calls[d].request.id
    requires t.calls[c].pc.Done? && t.calls[c].pc.reply.Ok?
    requires t.calls[d].pc.Done? && t.calls[d].pc.reply.Ok?
    ensures t.calls[c].pc.reply == t.calls[d].pc.reply
    ensures IsRow(t, t.calls[c].pc.reply.order, t.calls[c].request.id)
  {
    EveryRunIsSafe(s, t);
    assert CallOk(t, c) && CallOk(t, d);
  }

  ghost predicate OrdersGrew(s: State, t: State) {
    forall id :: id in s.orders ==> id in t.orders && t.orders[id] == s.orders[id]
  }

  lemma StepKeepsRows(s: State, a: Action)
    requires Inv(s) && Enabled(s, a)
    ensures OrdersGrew(s, Next(s, a))
  {
    TablesChangeOnlyAtCommit(s, a);
    if a.Commit? { assert CallOk(s, a.c); }
  }

  /** No row is changed or removed in any run. */
  lemma RowsStay(s: State, t: State)
    requires Inv(s) && Reaches(Step, s, t)
    ensures forall id :: id in s.orders ==> id in t.orders && t.orders[id] == s.orders[id]
  {
    forall x, y | Inv(x) && Step(x, y) ensures Inv(y) {
      var a :| Enabled(x, a) && y == Next(x, a);
      StepKeepsInv(x, a);
    }
    forall x, y, z | Inv(y) && Step(y, z) && OrdersGrew(z, x) ensures OrdersGrew(y, x) {
      var a :| Enabled(y, a) && z == Next(y, a);
      StepKeepsRows(y, a);
    }
    Relation(Step, Inv, OrdersGrew, s, t);
  }

  // ----- what the row lock is for

  /** A step of any transaction but `c`. */
  ghost predicate OtherStep(c: CallId, s: State, t: State) {
    exists a :: Enabled(s, a) && a.c != c && t == Next(s, a)
  }

  ghost function OtherSteps(c: CallId): (State, State) -> bool { (s, t) => OtherStep(c, s, t) }

  /** Call `c` and, while it holds the row lock, the stock it has locked. */
  ghost predicate Untouched(c: CallId, s: State, t: State) {
    c in s.calls ==>
      && c in t.calls && t.calls[c] == s.calls[c]
      && (s.calls[c].pc.Holding() ==> SameStock(s, t, s.calls[c].request.product))
  }

  ghost predicate SameStock(s: State, t: State, p: ProductId) {
    (p in s.stock <==> p in t.stock) && (p in s.stock ==> t.stock[p] == s.stock[p])
  }

  lemma StepLeavesUntouched(c: CallId, s: State, a: Action)
    requires Inv(s) && Enabled(s, a) && a.c != c
    ensures Untouched(c, s, Next(s, a))
  {
    if c in s.calls {
      assert CallOk(s, c);
      if a.c in s.calls { assert CallOk(s, a.c); }
      StepSparesOthers(s, a, c);
    }
  }

  lemma OthersKeepInv(c: CallId)
    ensures Inductive(OtherSteps(c), Inv)
  {
    forall x, y | Inv(x) && OtherSteps(c)(x, y) ensures Inv(y) {
      var a :| Enabled(x, a) && a.c != c && y == Next(x, a);
      StepKeepsInv(x, a);
    }
  }

  lemma UntouchedTwice(c: CallId, y: State, z: State, x: State)
    requires Inv(y) && OtherStep(c, y, z) && Untouched(c, z, x)
    ensures Untouched(c, y, x)
  {
    var a :| Enabled(y, a) && a.c != c && z == Next(y, a);
    StepLeavesUntouched(c, y, a);
  }

  /** No run of other transactions moves a call, or changes the stock it has locked. */
  lemma LockedStockStands(c: CallId, s: State, t: State)
    requires Inv(s) && Reaches(OtherSteps(c), s, t)
    ensures Inv(t) && Reaches(Step, s, t) && Untouched(c, s, t)
  {
    var steps := OtherSteps(c);
    var untouched := (x: State, y: State) => Untouched(c, x, y);
    OthersKeepInv(c);
    forall x, y, z | Inv(y) && steps(y, z) && untouched(z, x) ensures untouched(y, x) { UntouchedTwice(c, y, z, x); }
    Invariant(steps, Inv, s, t);
    Relation(steps, Inv, untouched, s, t);
    assert untouched(s, t);
    Weaken(steps, Step, s, t);
  }

  // ----- the atomic operation the transaction stands for

  /** "Return the existing order, else place if there is enough stock", as one step on the committed tables. */
  ghost predicate Atomic(s: State, req: Request, reply: Reply, t: State) {
    if req.quantity <= 0 then reply == InvalidQuantity && SameTables(s, t)
    else if HasRow(s.orders, req.id) then reply.Ok? && IsRow(s, reply.order, req.id) && SameTables(s, t)
    else if req.product !in s.stock then reply == ProductNotFound && SameTables(s, t)
    else if s.stock[req.product] < req.quantity then reply == InsufficientStock && SameTables(s, t)
    else
      && reply.Ok? && reply.order !in s.orders
      && t.stock == s.stock[req.product := s.stock[req.product] - req.quantity]
      && t.orders == s.orders[reply.order := Row(req.id, req.product, req.quantity)]
  }

  ghost predicate SameTables(s: State, t: State) { s.stock == t.stock && s.orders == t.orders }

  /** Call `c` gets its reply in this step. */
  ghost predicate Replies(s: State, t: State, c: CallId) {
    c in t.calls && t.calls[c].pc.Done? && (c in s.calls ==> !s.calls[c].pc.Done?)
  }

  /** The tables change in the step of a successful commit and in no other. */
  lemma TablesChangeOnlyAtCommit(s: State, a: Action)
    requires Enabled(s, a)
    ensures SameTables(s, Next(s, a)) || (a.Commit? && Replies(s, Next(s, a), a.c))
  {
  }

  lemma FirstReadIsAtomic(s: State, a: Action)
    requires (a.Begin? || a.FastHit? || a.WinnerFound? || a.WinnerGone?) && Enabled(s, a) && Replies(s, Next(s, a), a.c)
    requires a.c in s.calls ==> CallOk(s, a.c)
    ensures var t := Next(s, a); Atomic(s, t.calls[a.c].request, t.calls[a.c].pc.reply, t) <==> !a.WinnerGone?
  {
  }

  lemma RefusalIsAtomic(s: State, c: CallId)
    requires Enabled(s, SelectForUpdate(c)) && Replies(s, Next(s, SelectForUpdate(c)), c) && CallOk(s, c)
    ensures var t := Next(s, SelectForUpdate(c));
      Atomic(s, t.calls[c].request, t.calls[c].pc.reply, t) <==> !HasRow(s.orders, t.calls[c].request.id)
  {
  }

  lemma CommitIsAtomic(s: State, c: CallId)
    requires Enabled(s, Commit(c)) && CallOk(s, c)
    ensures var t := Next(s, Commit(c)); Atomic(s, t.calls[c].request, t.calls[c].pc.reply, t)
  {
  }

  /**
   * The step that replies, unless it reports an aborted transaction, is the atomic operation on the committed
   * tables if and only if it is neither the locked read of a request that already has its order (it refuses
   * without looking at `orders`) nor the failed search for the winner of a duplicate key error.
   */
  lemma ReplyIsAtomic(s: State, a: Action, c: CallId)
    requires Inv(s) && Enabled(s, a) && Replies(s, Next(s, a), c) && Next(s, a).calls[c].pc.reply != Aborted
    ensures var t := Next(s, a);
      Atomic(s, t.calls[c].request, t.calls[c].pc.reply, t) <==>
        !(a.SelectForUpdate? && HasRow(s.orders, t.calls[c].request.id)) && !a.WinnerGone?
  {
    RepliesToItself(s, a, c);
    if c in s.calls { assert CallOk(s, c); }
    match a
    case SelectForUpdate(_) => RefusalIsAtomic(s, c);
    case Commit(_) => CommitIsAtomic(s, c);
    case _ => FirstReadIsAtomic(s, a);
  }

  lemma RepliesToItself(s: State, a: Action, c: CallId)
    requires Enabled(s, a) && Replies(s, Next(s, a), c) && Next(s, a).calls[c].pc.reply != Aborted
    ensures c == a.c && (a.Begin? || a.FastHit? || a.SelectForUpdate? || a.Commit? || a.WinnerFound? || a.WinnerGone?)
  {
  }

  /** A call is told "no rows" only if the id generated for it is the primary key of another request's order. */
  lemma NoRowsMeansIdCollision(s: State, t: State, c: CallId)
    requires Init(s) && Reaches(Step, s, t)
    requires c in t.calls && t.calls[c].pc.Done? && t.calls[c].pc.reply.NoRows?
    ensures var id := t.calls[c].pc.reply.tried; id in t.orders && t.orders[id].request != t.calls[c].request.id
  {
    EveryRunIsSafe(s, t);
    assert CallOk(t, c);
  }

  // ----- a reply no moment explains

  /** Request 0 for one unit of product 0 has its order, or could be placed. */
  ghost predicate Servable(s: State) {
    HasRow(s.orders, 0) || (0 in s.stock && s.stock[0] >= 1)
  }

  ghost predicate ServableStep(s: State, t: State) { Servable(s) && Step(s, t) && Servable(t) }

  ghost function Race(stock: int, orders: map<OrderId, Row>, lock: map<ProductId, CallId>, pc0: Pc, pc1: Pc): State {
    var req := Request(0, 0, 1);
    State(map[0 := 1], map[0 := stock], orders, lock, map[0 := Call(req, pc0), 1 := Call(req, pc1)])
  }

  lemma Take(s: State, t: State, a: Action, u: State)
    requires Reaches(ServableStep, s, t) && Enabled(t, a) && u == Next(t, a) && Servable(t) && Servable(u)
    ensures Reaches(ServableStep, s, u)
  {
    assert Step(t, u);
    Extend(ServableStep, s, t, u);
  }

  ghost function Fresh(): State { State(map[0 := 1], map[0 := 1], map[], map[], map[]) }

  lemma RaceBegins()
    ensures Reaches(ServableStep, Fresh(), Race(1, map[], map[], Started, Missed))
  {
    var req := Request(0, 0, 1);
    var one := Fresh().(calls := map[0 := Call(req, Started)]);
    Stay(ServableStep, Fresh());
    Take(Fresh(), Fresh(), Begin(0, req), one);
    Take(Fresh(), one, Begin(1, req), Race(1, map[], map[], Started, Started));
    Take(Fresh(), Race(1, map[], map[], Started, Started), FastMiss(1), Race(1, map[], map[], Started, Missed));
  }

  lemma RaceReachesLock()
    ensures Reaches(ServableStep, Fresh(), Race(1, map[], map[0 := 0], Locked, Missed))
  {
    RaceBegins();
    var s := Race(1, map[], map[], Missed, Missed);
    Take(Fresh(), Race(1, map[], map[], Started, Missed), FastMiss(0), s);
    Take(Fresh(), s, SelectForUpdate(0), Race(1, map[], map[0 := 0], Locked, Missed));
  }

  lemma RaceReachesInsert()
    ensures Reaches(ServableStep, Fresh(), Race(1, map[], map[0 := 0], Inserted(7), Missed))
  {
    RaceReachesLock();
    Take(Fresh(), Race(1, map[], map[0 := 0], Locked, Missed), Insert(0, 7),
      Race(1, map[], map[0 := 0], Inserted(7), Missed));
  }

  lemma RaceReachesUpdate()
    ensures Reaches(ServableStep, Fresh(), Race(1, map[], map[0 := 0], Updated(7), Missed))
  {
    RaceReachesInsert();
    Take(Fresh(), Race(1, map[], map[0 := 0], Inserted(7), Missed), Update(0),
      Race(1, map[], map[0 := 0], Updated(7), Missed));
  }

  ghost function RaceWon(pc1: Pc): State { Race(0, map[7 := Row(0, 0, 1)], map[], Done(Ok(7)), pc1) }

  lemma RaceWonIsServable(pc1: Pc)
    ensures Servable(RaceWon(pc1))
  {
    var orders := RaceWon(pc1).orders;
    assert 7 in orders && orders[7].request == 0;
  }

  lemma RaceReachesCommit()
    ensures Reaches(ServableStep, Fresh(), RaceWon(Missed))
  {
    RaceReachesUpdate();
    RaceWonIsServable(Missed);
    var s := Race(1, map[], map[0 := 0], Updated(7), Missed);
    assert Next(s, Commit(0)) == RaceWon(Missed) by { assert map[0 := 0] - {0} == map[]; }
    Take(Fresh(), s, Commit(0), RaceWon(Missed));
  }

  /**
   * Two calls with one request id race for the last unit. The loser is told "insufficient stock" although
   * at every moment of the run the request had its order or could be placed: no moment explains the reply.
   */
  lemma RetryCanBeRefused()
    ensures Init(Fresh())
    ensures exists t :: Reaches(ServableStep, Fresh(), t) && At(t, 0, Done(Ok(7))) && At(t, 1, Done(InsufficientStock))
  {
    RaceReachesCommit();
    RaceWonIsServable(Missed);
    RaceWonIsServable(Done(InsufficientStock));
    Take(Fresh(), RaceWon(Missed), SelectForUpdate(1), RaceWon(Done(InsufficientStock)));
  }
}

/** `PlaceOrderTx` as code over the shared tables. */
module OrderTxCode {
  import opened Common
  import opened Runs
  import opened OrderTx

  /** The statements of a call, each of which the database may fail. */
  datatype Statement = ReadOrders | LockRow | InsertRow | UpdateRow | CommitTx | ReadAgain

  class Database {
    var s: State
    ghost var origin: State
    /** A state on the way, from which a caller looks back. */
    ghost var mark: State

    ghost predicate Valid()
      reads this
    {
      Init(origin) && Reaches(Step, origin, mark) && Reaches(Step, mark, s)
    }

    constructor (s0: State)
      requires Init(s0)
      ensures Valid() && s == mark == origin == s0
    {
      s, mark, origin := s0, s0, s0;
      new;
      Stay(Step, s);
    }

    ghost method Mark()
      requires Valid()
      modifies this`mark
      ensures Valid() && mark == s
    {
      Concat(Step, origin, mark, s);
      mark := s;
      Stay(Step, s);
    }

    ghost predicate Is(c: CallId, req: Request, pc: Pc)
      reads this
    {
      c in s.calls && s.calls[c] == Call(req, pc)
    }

    lemma Facts()
      requires Valid()
      ensures Inv(s) && UniqueRequests(s.orders)
    {
      Concat(Step, origin, mark, s);
      EveryRunIsSafe(origin, s);
    }

    lemma RowsAreKept(r: RequestId)
      requires Valid()
      ensures HasRow(mark.orders, r) ==> HasRow(s.orders, r)
    {
      EveryRunIsSafe(origin, mark);
      RowsStay(mark, s);
      if id :| id in mark.orders && mark.orders[id].request == r { assert s.orders[id].request == r; }
    }

    /** Any run of the other transactions. */
    method Interfere(ghost c: CallId)
      modifies this`s
      ensures Reaches(OtherSteps(c), old(s), s)
    {
      Stay(OtherSteps(c), s);
    }

    /** While the call holds the row lock, the others leave its stock as it is. */
    method Others(ghost c: CallId, ghost req: Request, ghost pc: Pc)
      requires Valid() && Is(c, req, pc)
      modifies this`s
      ensures Valid() && Is(c, req, pc)
      ensures pc.Holding() ==> SameStock(old(s), s, req.product)
    {
      Facts();
      Interfere(c);
      LockedStockStands(c, old(s), s);
      Concat(Step, mark, old(s), s);
    }

    method Do(a: Action)
      requires Valid() && Enabled(s, a)
      modifies this`s
      ensures Valid() && s == Next(old(s), a) && Step(old(s), s)
    {
      Extend(Step, mark, s, Next(s, a));
      s := Next(s, a);
    }

    /** `SELECT ... FROM orders WHERE request_id = ?` on the snapshot of this moment. */
    method FastPath(c: CallId, req: Request) returns (existing: Option<OrderId>)
      requires Valid() && Is(c, req, Started)
      modifies this`s
      ensures Valid() && Is(c, req, if existing.Some? then Done(Ok(existing.value)) else Missed)
      ensures existing.Some? <==> HasRow(old(s.orders), req.id)
      ensures existing.Some? ==> IsRow(s, existing.value, req.id)
    {
      if id :| id in s.orders && s.orders[id].request == req.id {
        Do(FastHit(c, id));
        existing := Some(id);
      } else {
        Do(FastMiss(c));
        existing := None;
      }
    }

    /** `SELECT stock FROM products WHERE id = ? FOR UPDATE`. A row that stays locked ends in a lock wait timeout. */
    method LockStock(c: CallId, req: Request) returns (refusal: Option<Reply>)
      requires Valid() && Is(c, req, Missed)
      modifies this`s
      ensures Valid() && Is(c, req, if refusal.Some? then Done(refusal.value) else Locked) && Step(old(s), s)
      ensures refusal == Some(ProductNotFound) <==> req.product !in old(s.lock) && req.product !in old(s.stock)
      ensures refusal == Some(InsufficientStock) <==>
        req.product !in old(s.lock) && req.product in old(s.stock) && old(s.stock)[req.product] < req.quantity
      ensures refusal == Some(Aborted) <==> req.product in old(s.lock)
      ensures refusal.None? || refusal.value in {ProductNotFound, InsufficientStock, Aborted}
    {
      if req.product in s.lock {
        Do(Abort(c));
        return Some(Aborted);
      }
      Do(SelectForUpdate(c));
      match s.calls[c].pc
      case Done(reply) => refusal := Some(reply);
      case _ => refusal := None;
    }

    /** The insert: judged by the primary key and by `uk_request_id`. */
    method InsertOrder(c: CallId, req: Request, id: OrderId) returns (pc: Pc)
      requires Valid() && Is(c, req, Locked)
      modifies this`s
      ensures Valid() && Is(c, req, pc) && Step(old(s), s) && s.stock == old(s.stock)
      ensures pc == Done(Aborted) <==>
        (exists d :: d in old(s.calls) && d != c
          && (old(s.calls)[d].pc.Inserted? || old(s.calls)[d].pc.Updated?)
          && (old(s.calls)[d].pc.id == id || old(s.calls)[d].request.id == req.id))
      ensures pc == Duplicate(id) ==> id in s.orders || HasRow(s.orders, req.id)
      ensures pc == Inserted(id) ==> id !in s.orders && !HasRow(s.orders, req.id)
      ensures pc == Done(Aborted) ==> Blocked(old(s), c, id)
      ensures pc in {Inserted(id), Duplicate(id), Done(Aborted)}
    {
      if Blocked(s, c, id) {
        Do(Abort(c));
        return Done(Aborted);
      }
      Do(Insert(c, id));
      pc := s.calls[c].pc;
    }

    /** After a duplicate key error: look up the committed winner in a new snapshot. */
    method ReadWinner(c: CallId, req: Request, id: OrderId) returns (reply: Reply)
      requires Valid() && Is(c, req, Duplicate(id))
      modifies this`s
      ensures Valid() && Is(c, req, Done(reply)) && Step(old(s), s) && s.orders == old(s.orders)
      ensures if HasRow(s.orders, req.id) then reply.Ok? && IsRow(s, reply.order, req.id) else reply == NoRows(id)
    {
      if winner :| winner in s.orders && s.orders[winner].request == req.id {
        Do(WinnerFound(c, winner));
        reply := Ok(winner);
      } else {
        Do(WinnerGone(c));
        reply := NoRows(id);
      }
    }

    /** The update and the commit: the row of this request appears, and the locked stock falls by its quantity. */
    method UpdateAndCommit(c: CallId, req: Request, id: OrderId)
      requires Valid() && Is(c, req, Inserted(id))
      modifies this`s
      ensures Valid() && Is(c, req, Done(Ok(id)))
      ensures id in s.orders && s.orders[id] == Row(req.id, req.product, req.quantity)
      ensures req.product in old(s.stock) && req.product in s.stock
      ensures s.stock[req.product] == old(s.stock)[req.product] - req.quantity
    {
      Facts();
      assert CallOk(s, c);
      Do(Update(c));
      Others(c, req, Updated(id));
      Do(Commit(c));
    }

    /**
     * Why a call that placed and found nothing got its reply: `seen` is the state its last statement ran on,
     * and where the call was then says which statement that was.
     */
    ghost predicate Explains(
        seen: State, c: CallId, req: Request, newId: Option<OrderId>, fails: set<Statement>, reply: Reply)
    {
      && c in seen.calls && seen.calls[c].request == req
      && match seen.calls[c].pc
         case Started => reply == Aborted && ReadOrders in fails
         case Missed =>
           if LockRow in fails || req.product in seen.lock then reply == Aborted
           else if req.product !in seen.stock then reply == ProductNotFound
           else reply == InsufficientStock && seen.stock[req.product] < req.quantity
         case Locked => reply == Aborted && (newId.None? || InsertRow in fails || Blocked(seen, c, newId.value))
         case Inserted(_) => reply == Aborted && (UpdateRow in fails || CommitTx in fails)
         case Duplicate(id) =>
           if ReadAgain in fails then reply == Aborted
           else reply == NoRows(id) && newId == Some(id) && id in seen.orders && !HasRow(seen.orders, req.id)
         case _ => false
    }

    method Fail(c: CallId, req: Request, pc: Pc)
      requires Valid() && Is(c, req, pc) && !pc.Done?
      modifies this`s
      ensures Valid() && Is(c, req, Done(Aborted)) && Step(old(s), s)
    {
      Do(Abort(c));
    }

    /**
     * `newId` is what the id generator answers, `None` its error; `fails` are the statements the database
     * fails. Success is the one row of the request; every other reply is explained by the state its last
     * statement ran on. A request that has its order gets it, whoever holds locks.
     */
    method PlaceOrderTx(c: CallId, req: Request, newId: Option<OrderId>, fails: set<Statement>)
      returns (reply: Reply, ghost seen: State)
      requires Valid() && c !in s.calls
      modifies this`s, this`mark
      ensures Valid() && Is(c, req, Done(reply))
      ensures reply == InvalidQuantity <==> req.quantity <= 0
      ensures reply.Ok? ==> IsRow(s, reply.order, req.id) && UniqueRequests(s.orders)
      ensures req.quantity > 0 && HasRow(old(s.orders), req.id) && ReadOrders !in fails ==> reply.Ok?
      ensures !reply.Ok? && reply != InvalidQuantity ==>
        Reaches(Step, old(s), seen) && Step(seen, s) && Explains(seen, c, req, newId, fails, reply)
    {
      Mark();
      seen := s;
      Do(Begin(c, req));
      if req.quantity <= 0 { return InvalidQuantity, seen; }
      Others(c, req, Started);
      RowsAreKept(req.id);
      if ReadOrders in fails {
        seen := s;
        Fail(c, req, Started);
        return Aborted, seen;
      }
      var existing := FastPath(c, req);
      if existing.Some? {
        reply := Ok(existing.value);
      } else {
        Others(c, req, Missed);
        reply, seen := PlaceMissed(c, req, newId, fails);
      }
      Facts();
    }

    /** From the missed fast path on. */
    method PlaceMissed(c: CallId, req: Request, newId: Option<OrderId>, fails: set<Statement>)
      returns (reply: Reply, ghost seen: State)
      requires Valid() && Is(c, req, Missed)
      modifies this`s
      ensures Valid() && Is(c, req, Done(reply)) && reply != InvalidQuantity
      ensures reply.Ok? ==> IsRow(s, reply.order, req.id)
      ensures !reply.Ok? ==> Reaches(Step, mark, seen) && Step(seen, s) && Explains(seen, c, req, newId, fails, reply)
    {
      seen := s;
      if LockRow in fails {
        Fail(c, req, Missed);
        return Aborted, seen;
      }
      var refusal := LockStock(c, req);
      if refusal.Some? { return refusal.value, seen; }
      Others(c, req, Locked);
      if newId.None? || InsertRow in fails {
        seen := s;
        Fail(c, req, Locked);
        return Aborted, seen;
      }
      reply, seen := Place(c, req, newId.value, fails);
    }

    /** From the held row lock to the commit. */
    method Place(c: CallId, req: Request, id: OrderId, fails: set<Statement>) returns (reply: Reply, ghost seen: State)
      requires Valid() && Is(c, req, Locked)
      modifies this`s
      ensures Valid() && Is(c, req, Done(reply)) && reply != InvalidQuantity
      ensures reply.Ok? ==> IsRow(s, reply.order, req.id)
      ensures !reply.Ok? ==>
        Reaches(Step, mark, seen) && Step(seen, s) && Explains(seen, c, req, Some(id), fails, reply)
    {
      seen := s;
      var pc := InsertOrder(c, req, id);
      match pc
      case Duplicate(_) =>
        Others(c, req, pc);
        seen := s;
        Facts();
        assert CallOk(s, c);
        if ReadAgain in fails {
          Fail(c, req, pc);
          reply := Aborted;
        } else {
          reply := ReadWinner(c, req, id);
        }
      case Inserted(_) =>
        Others(c, req, pc);
        seen := s;
        if UpdateRow in fails || CommitTx in fails {
          Fail(c, req, pc);
          reply := Aborted;
        } else {
          UpdateAndCommit(c, req, id);
          reply := Ok(id);
        }
      case _ =>
        reply := Aborted;
    }
  }
}
