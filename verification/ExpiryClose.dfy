/**
 * Closing expired orders: any number of workers, claiming in any order and stopping anywhere, against
 * payments that can arrive at any time.
 */
module ExpiryClose {
  import opened Runs
  import opened Sums

  type OrderId = nat
  type ProductId = nat
  type WorkerId = nat

  datatype Status = Created | Paid | Closed

  /** `restores` counts how often the stock of the order was given back; it is a history variable. */
  datatype Order = Order(product: ProductId, quantity: int, status: Status, restores: nat)

  /** One worker's pass over one order: what it read, whether its update changed the row, what it did. */
  datatype Pc = Loaded | Decided(rowsAffected: nat) | Restored | Removed

  datatype Worker = Worker(order: OrderId, product: ProductId, quantity: int, pc: Pc)

  datatype State = State(
    total: map<ProductId, int>, stock: map<ProductId, int>, orders: map<OrderId, Order>, workers: map<WorkerId, Worker>)

  datatype Action =
    | Place(o: OrderId, product: ProductId, quantity: int)
    | Pay(o: OrderId)
    | Load(w: WorkerId, o: OrderId)
    | Close(w: WorkerId)
    | Restore(w: WorkerId)
    | Remove(w: WorkerId)

  function Stock(s: State, p: ProductId): int { if p in s.stock then s.stock[p] else 0 }

  predicate Enabled(s: State, a: Action) {
    match a
    case Place(o, p, q) => o !in s.orders && q > 0 && Stock(s, p) >= q
    case Pay(o) => o in s.orders && s.orders[o].status == Created
    case Load(w, o) => w !in s.workers && o in s.orders
    case Close(w) => w in s.workers && s.workers[w].pc == Loaded && s.workers[w].order in s.orders
    case Restore(w) => w in s.workers && s.workers[w].pc.Decided? && s.workers[w].order in s.orders
    case Remove(w) => w in s.workers && s.workers[w].pc == Restored
  }

  function Next(s: State, a: Action): State
    requires Enabled(s, a)
  {
    match a
    case Place(o, p, q) => s.(stock := s.stock[p := Stock(s, p) - q], orders := s.orders[o := Order(p, q, Created, 0)])
    case Pay(o) => s.(orders := s.orders[o := s.orders[o].(status := Paid)])
    case Load(w, o) => s.(workers := s.workers[w := Worker(o, s.orders[o].product, s.orders[o].quantity, Loaded)])
    case Close(w) =>
      var worker := s.workers[w];
      if s.orders[worker.order].status == Created
      then s.(orders := s.orders[worker.order := s.orders[worker.order].(status := Closed)],
              workers := s.workers[w := worker.(pc := Decided(1))])
      else s.(workers := s.workers[w := worker.(pc := Decided(0))])
    case Restore(w) =>
      var worker := s.workers[w];
      var t := s.(workers := s.workers[w := worker.(pc := Restored)]);
      if worker.pc.rowsAffected != 1 then t
      else
        var o := s.orders[worker.order];
        t.(stock := s.stock[worker.product := Stock(s, worker.product) + worker.quantity],
           orders := s.orders[worker.order := o.(restores := o.restores + 1)])
    case Remove(w) => s.(workers := s.workers[w := s.workers[w].(pc := Removed)])
  }

  ghost predicate Step(s: State, t: State) {
    exists a :: Enabled(s, a) && t == Next(s, a)
  }

  ghost predicate Init(s: State) {
    s.stock == s.total && s.orders == map[] && s.workers == map[] && forall p :: p in s.stock ==> s.stock[p] >= 0
  }

  /** Stock an order keeps out: created, paid, or closed and not yet given back. */
  function Kept(o: Order): int {
    if o.status == Closed && o.restores > 0 then 0 else o.quantity
  }

  ghost function KeptOf(orders: map<OrderId, Order>, p: ProductId): map<OrderId, int> {
    map o | o in orders :: if orders[o].product == p then Kept(orders[o]) else 0
  }

  /** Worker `w` closed the order and has not restored it. */
  ghost predicate Winner(s: State, w: WorkerId, o: OrderId) {
    w in s.workers && s.workers[w].order == o && s.workers[w].pc == Decided(1)
  }

  ghost predicate OrderOk(s: State, id: OrderId)
    requires id in s.orders
  {
    var o := s.orders[id];
    && o.quantity > 0
    && o.restores <= 1
    && (o.restores == 1 ==> o.status == Closed)
    && (o.status == Closed && o.restores == 0 <==> exists w :: Winner(s, w, id))
  }

  ghost predicate WorkerOk(s: State, w: WorkerId)
    requires w in s.workers
  {
    var worker := s.workers[w];
    && worker.order in s.orders
    && worker.product == s.orders[worker.order].product && worker.quantity == s.orders[worker.order].quantity
  }

  ghost predicate StockOk(s: State, p: ProductId) {
    Stock(s, p) >= 0 && Stock(s, p) + Total(KeptOf(s.orders, p)) == if p in s.total then s.total[p] else 0
  }

  ghost predicate Inv(s: State) {
    && (forall o :: o in s.orders ==> OrderOk(s, o))
    && (forall w :: w in s.workers ==> WorkerOk(s, w))
    && (forall v, w, o :: Winner(s, v, o) && Winner(s, w, o) ==> v == w)
    && (forall p :: StockOk(s, p))
  }

  lemma KeptWrite(orders: map<OrderId, Order>, id: OrderId, o: Order, p: ProductId)
    requires id in orders ==> orders[id].product == o.product
    ensures Total(KeptOf(orders[id := o], p)) == Total(KeptOf(orders, p))
      + (if o.product == p then Kept(o) - (if id in orders then Kept(orders[id]) else 0) else 0)
  {
    var k := if o.product == p then Kept(o) else 0;
    assert KeptOf(orders[id := o], p) == KeptOf(orders, p)[id := k];
    TotalWrite(KeptOf(orders, p), id, k);
  }

  lemma StockStaysOk(s: State, a: Action, p: ProductId)
    requires Inv(s) && Enabled(s, a)
    ensures StockOk(Next(s, a), p)
  {
    var t := Next(s, a);
    assert StockOk(s, p);
    match a
    case Place(o, p', q) => KeptWrite(s.orders, o, t.orders[o], p);
    case Pay(o) =>
      assert OrderOk(s, o);
      KeptWrite(s.orders, o, t.orders[o], p);
    case Close(w) =>
      assert WorkerOk(s, w) && OrderOk(s, s.workers[w].order);
      if t.orders != s.orders { KeptWrite(s.orders, s.workers[w].order, t.orders[s.workers[w].order], p); }
    case Restore(w) =>
      var o := s.workers[w].order;
      assert WorkerOk(s, w) && OrderOk(s, o);
      if t.orders != s.orders {
        assert Winner(s, w, o);
        KeptWrite(s.orders, o, t.orders[o], p);
      }
    case _ =>
  }

  lemma OrderStaysOk(s: State, a: Action, id: OrderId)
    requires Inv(s) && Enabled(s, a) && id in Next(s, a).orders
    ensures OrderOk(Next(s, a), id)
  {
    var t := Next(s, a);
    if id in s.orders { assert OrderOk(s, id); }
    if a.Close? || a.Restore? { assert WorkerOk(s, a.w); }
    if a.Close? && t.orders != s.orders { assert Winner(t, a.w, s.workers[a.w].order); }
    if a.Restore? && s.workers[a.w].pc == Decided(1) { assert Winner(s, a.w, s.workers[a.w].order); }
    if x :| Winner(s, x, id) {
      if !(a.Restore? && a.w == x) { assert Winner(t, x, id); }
    }
    if y :| Winner(t, y, id) {
      if !(a.Close? && a.w == y) { assert Winner(s, y, id); }
    }
  }

  lemma WorkersStayOk(s: State, a: Action)
    requires Inv(s) && Enabled(s, a)
    ensures forall w :: w in Next(s, a).workers ==> WorkerOk(Next(s, a), w)
  {
    forall w | w in Next(s, a).workers ensures WorkerOk(Next(s, a), w) {
      if w in s.workers { assert WorkerOk(s, w); }
    }
  }

  lemma WinnersStayUnique(s: State, a: Action, v: WorkerId, w: WorkerId, o: OrderId)
    requires Inv(s) && Enabled(s, a) && Winner(Next(s, a), v, o) && Winner(Next(s, a), w, o)
    ensures v == w
  {
    if a.Close? { assert WorkerOk(s, a.w) && OrderOk(s, s.workers[a.w].order); }
    if v != w {
      if !(a.Close? && a.w == v) { assert Winner(s, v, o); }
      if !(a.Close? && a.w == w) { assert Winner(s, w, o); }
    }
  }

  lemma StepKeepsInv(s: State, a: Action)
    requires Inv(s) && Enabled(s, a)
    ensures Inv(Next(s, a))
  {
    var t := Next(s, a);
    forall o | o in t.orders ensures OrderOk(t, o) { OrderStaysOk(s, a, o); }
    WorkersStayOk(s, a);
    forall v, w, o | Winner(t, v, o) && Winner(t, w, o) ensures v == w { WinnersStayUnique(s, a, v, w, o); }
    forall p ensures StockOk(t, p) { StockStaysOk(s, a, p); }
  }

  /**
   * In every run: each order's stock is given back at most once and never while the order is paid; stock
   * plus what orders keep is constant; and a closed order still keeps its stock exactly when its one
   * winning worker has not restored it, whether it is running or gone.
   */
  lemma EveryRunRestoresOnce(s: State, t: State)
    requires Init(s) && Reaches(Step, s, t)
    ensures Inv(t)
    ensures forall o :: o in t.orders ==>
      t.orders[o].restores <= 1 && (t.orders[o].status == Paid ==> t.orders[o].restores == 0)
    ensures forall p :: p in t.total ==> Stock(t, p) + Total(KeptOf(t.orders, p)) == t.total[p]
    ensures forall o :: o in t.orders ==>
      (t.orders[o].status == Closed && Kept(t.orders[o]) > 0 <==> exists w :: Winner(t, w, o))
    ensures forall v, w, o :: Winner(t, v, o) && Winner(t, w, o) ==> v == w
  {
    assert Inv(s) by {
      forall p ensures StockOk(s, p) { assert KeptOf(s.orders, p) == map[]; }
    }
    forall x, y | Inv(x) && Step(x, y) ensures Inv(y) {
      var a :| Enabled(x, a) && y == Next(x, a);
      StepKeepsInv(x, a);
    }
    Invariant(Step, Inv, s, t);
    forall o | o in t.orders
      ensures t.orders[o].restores <= 1 && (t.orders[o].status == Paid ==> t.orders[o].restores == 0)
      ensures t.orders[o].status == Closed && Kept(t.orders[o]) > 0 <==> exists w :: Winner(t, w, o)
    {
      assert OrderOk(t, o);
    }
    forall p | p in t.total ensures Stock(t, p) + Total(KeptOf(t.orders, p)) == t.total[p] { assert StockOk(t, p); }
  }

  ghost predicate StatusKept(s: State, t: State) {
    forall o :: o in s.orders && s.orders[o].status != Created ==>
      o in t.orders && t.orders[o].status == s.orders[o].status
  }

  lemma StepKeepsStatus(s: State, a: Action)
    requires Enabled(s, a)
    ensures StatusKept(s, Next(s, a))
  {
  }

  /** Paid stays paid and closed stays closed: a paid order is never closed, however late a worker comes. */
  lemma FinalStatusesAreFinal(s: State, t: State)
    requires Reaches(Step, s, t)
    ensures StatusKept(s, t)
  {
    forall x, y, z | Any(y) && Step(y, z) && StatusKept(z, x) ensures StatusKept(y, x) {
      var a :| Enabled(y, a) && z == Next(y, a);
      StepKeepsStatus(y, a);
      assert forall o :: o in y.orders && y.orders[o].status != Created ==> z.orders[o].status == y.orders[o].status;
    }
    Relation(Step, Any, StatusKept, s, t);
  }
}

/** The three steps of a worker as code. */
module ExpiryCloseCode {
  import opened Common
  import opened Runs
  import opened ExpiryClose

  datatype CloseResult = CloseResult(product: ProductId, quantity: int, rowsAffected: nat)

  class Scanner {
    var s: State
    ghost var origin: State

    ghost predicate Valid()
      reads this
    {
      Init(origin) && Reaches(Step, origin, s)
    }

    constructor (s0: State)
      requires Init(s0)
      ensures Valid() && s == origin == s0
    {
      s, origin := s0, s0;
      new;
      Stay(Step, s);
    }

    ghost predicate Is(w: WorkerId, worker: Worker)
      reads this
    {
      w in s.workers && s.workers[w] == worker
    }

    /** Any run of the other workers, new orders and payments. */
    method Interfere(ghost w: WorkerId)
      modifies this`s
      ensures Reaches(Step, old(s), s)
      ensures w in old(s.workers) ==> w in s.workers && s.workers[w] == old(s.workers[w])
    {
      Stay(Step, s);
    }

    method Others(ghost w: WorkerId, ghost worker: Worker)
      requires Valid() && Is(w, worker)
      modifies this`s
      ensures Valid() && Is(w, worker) && Reaches(Step, old(s), s)
      ensures StatusKept(old(s), s)
    {
      Interfere(w);
      FinalStatusesAreFinal(old(s), s);
      Concat(Step, origin, old(s), s);
    }

    method Do(a: Action)
      requires Valid() && Enabled(s, a)
      modifies this`s
      ensures Valid() && s == Next(old(s), a)
    {
      Extend(Step, origin, s, Next(s, a));
      s := Next(s, a);
    }

    /**
     * Load the compensation, then fight for the row with the conditional update. An unknown order is an error;
     * so is a failed update, which may have closed the order all the same, with no one to restore its stock.
     * The update runs on `met`, and changes the row exactly if the order is created there.
     */
    method CloseCreatedOrder(w: WorkerId, o: OrderId, update: Answer)
      returns (result: Option<CloseResult>, ghost met: State)
      requires Valid() && w !in s.workers
      modifies this`s
      ensures Valid()
      ensures result.None? <==> o !in old(s.orders) || update != Answered
      ensures o !in old(s.orders) ==> s == old(s)
      ensures Reaches(Step, old(s), met)
      ensures o in old(s.orders) ==> o in met.orders
      ensures o in old(s.orders) ==>
        s.orders == if update != NoEffect && met.orders[o].status == Created
          then met.orders[o := met.orders[o].(status := Closed)] else met.orders
      ensures o in old(s.orders) && update == Unheard ==>
        && w in s.workers && s.workers[w].order == o && s.workers[w].pc.Decided?
        && o in s.orders && s.orders[o].status != Created
      ensures o in old(s.orders) && update == NoEffect ==>
        w in s.workers && s.workers[w].order == o && s.workers[w].pc == Loaded
      ensures result.Some? ==> var r := result.value;
        && Is(w, Worker(o, r.product, r.quantity, Decided(r.rowsAffected)))
        && r.rowsAffected == (if met.orders[o].status == Created then 1 else 0)
        && (r.rowsAffected == 1 <==> Winner(s, w, o))
        && o in s.orders && s.orders[o].status != Created
        && r.product == s.orders[o].product && r.quantity == s.orders[o].quantity
        && (r.rowsAffected == 1 ==> s.orders[o].status == Closed && s.orders[o].restores == 0)
        && (old(s.orders)[o].status == Paid ==> r.rowsAffected == 0 && s.orders[o].status == Paid)
    {
      met := s;
      Stay(Step, s);
      if o !in s.orders { return None, met; }
      Do(Load(w, o));
      Extend(Step, met, met, s);
      ghost var loaded := s;
      Others(w, Worker(o, s.orders[o].product, s.orders[o].quantity, Loaded));
      Concat(Step, met, loaded, s);
      met := s;
      OrderOfWorker(w);
      if update == NoEffect { return None, met; }
      Do(Close(w));
      OrderOfWorker(w);
      if update == Unheard { return None, met; }
      var worker := s.workers[w];
      result := Some(CloseResult(worker.product, worker.quantity, worker.pc.rowsAffected));
      if worker.pc.rowsAffected == 1 { assert Winner(s, w, o); }
    }

    lemma OrderOfWorker(w: WorkerId)
      requires Valid() && w in s.workers
      ensures WorkerOk(s, w) && OrderOk(s, s.workers[w].order)
    {
      EveryRunRestoresOnce(origin, s);
    }

    /** `rowsAffected == 1` is the only voucher for giving stock back. */
    method RestoreClosedStock(w: WorkerId, ghost o: OrderId, r: CloseResult, answer: Answer) returns (ok: bool)
      requires Valid() && Is(w, Worker(o, r.product, r.quantity, Decided(r.rowsAffected)))
      modifies this`s
      ensures Valid() && (ok <==> r.rowsAffected != 1 || answer == Answered)
      ensures if r.rowsAffected == 1 && answer != NoEffect
        then Stock(s, r.product) == Stock(old(s), r.product) + r.quantity && o in s.orders && s.orders[o].restores == 1
        else s.stock == old(s).stock && s.orders == old(s).orders
      ensures r.rowsAffected == 1 && answer == NoEffect ==> Winner(s, w, o)
    {
      OrderOfWorker(w);
      if r.rowsAffected == 1 { assert Winner(s, w, o); }
      if r.rowsAffected != 1 || answer != NoEffect { Do(Restore(w)); }
      ok := r.rowsAffected != 1 || answer == Answered;
    }
  }
}
