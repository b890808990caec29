/**
 * The leased token lock in Redis and the order path it protects, on one product. Time is Redis time in
 * milliseconds; a key is gone once its expiry is reached. The locked SELECT takes no row lock, so only the
 * lease keeps two critical sections apart.
 */
module LeaseLock {
  import opened Runs
  import opened Sums

  type WorkerId = nat
  type Token = nat
  type RequestId = nat

  datatype Key = Free | Taken(token: Token, expires: int)

  datatype Reply = Ok | InvalidQuantity | NotAcquired | InsufficientStock | Failed

  datatype Pc = Entered | Read | Leaving(reply: Reply) | Gone(reply: Reply)

  /** `leaseEnd` is TTL after the last acquire or renew that succeeded. */
  datatype Worker = Worker(token: Token, request: RequestId, quantity: int, pc: Pc, leaseEnd: int)

  datatype State = State(
    ttl: int, now: int, key: Key,
    initialStock: int, stock: int, orders: map<RequestId, int>, workers: map<WorkerId, Worker>)

  datatype Action =
    | Tick(now: int)
    | Acquire(w: WorkerId, token: Token, request: RequestId, quantity: int)
    | Renew(w: WorkerId)
    | ReadStock(w: WorkerId)
    | Commit(w: WorkerId)
    | Fail(w: WorkerId)
    | Release(w: WorkerId)
    | ReleaseFails(w: WorkerId)

  /** What GET on the lock key returns. */
  function Stored(s: State): Key {
    if s.key.Taken? && s.now < s.key.expires then s.key else Free
  }

  /** The comparison both token scripts begin with. */
  predicate Owns(s: State, w: WorkerId)
    requires w in s.workers
  {
    Stored(s).Taken? && Stored(s).token == s.workers[w].token
  }

  predicate Enabled(s: State, a: Action) {
    match a
    case Tick(now) => s.now <= now
    case Acquire(w, token, _, q) =>
      w !in s.workers && q > 0 && (forall v :: v in s.workers ==> s.workers[v].token != token)
    case Renew(w) => w in s.workers && s.workers[w].pc != Gone(NotAcquired)
    case ReadStock(w) => w in s.workers && s.workers[w].pc == Entered
    case Commit(w) => w in s.workers && s.workers[w].pc == Read && s.workers[w].request !in s.orders
    case Fail(w) => w in s.workers && (s.workers[w].pc == Entered || s.workers[w].pc == Read)
    case Release(w) => w in s.workers && s.workers[w].pc.Leaving?
    case ReleaseFails(w) => w in s.workers && s.workers[w].pc.Leaving?
  }

  function With(s: State, w: WorkerId, worker: Worker): State { s.(workers := s.workers[w := worker]) }

  function Next(s: State, a: Action): State
    requires Enabled(s, a)
  {
    match a
    case Tick(now) => s.(now := now)
    case Acquire(w, token, request, q) =>
      if Stored(s).Taken? then With(s, w, Worker(token, request, q, Gone(NotAcquired), s.now))
      else With(s.(key := Taken(token, s.now + s.ttl)), w, Worker(token, request, q, Entered, s.now + s.ttl))
    case Renew(w) =>
      if Owns(s, w)
      then With(s.(key := s.key.(expires := s.now + s.ttl)), w, s.workers[w].(leaseEnd := s.now + s.ttl))
      else s
    case ReadStock(w) =>
      var worker := s.workers[w];
      With(s, w, worker.(pc := if s.stock < worker.quantity then Leaving(InsufficientStock) else Read))
    case Commit(w) =>
      var worker := s.workers[w];
      With(s.(stock := s.stock - worker.quantity, orders := s.orders[worker.request := worker.quantity]),
           w, worker.(pc := Leaving(Ok)))
    case Fail(w) => With(s, w, s.workers[w].(pc := Leaving(Failed)))
    case Release(w) =>
      With(s.(key := if Owns(s, w) then Free else s.key), w, s.workers[w].(pc := Gone(s.workers[w].pc.reply)))
    case ReleaseFails(w) => With(s, w, s.workers[w].(pc := Gone(s.workers[w].pc.reply)))
  }

  ghost predicate Step(s: State, t: State) {
    exists a :: Enabled(s, a) && t == Next(s, a)
  }

  ghost predicate Init(s: State) {
    s.ttl > 0 && s.key == Free && s.stock == s.initialStock >= 0 && s.orders == map[] && s.workers == map[]
  }

  /** `w` acquired or renewed less than TTL ago and has not released. */
  ghost predicate Leased(s: State, w: WorkerId) {
    w in s.workers && !s.workers[w].pc.Gone? && s.now < s.workers[w].leaseEnd
  }

  // ----- lease safety, in every run

  ghost predicate OwnerOk(s: State, w: WorkerId) {
    && (Leased(s, w) ==> s.key == Taken(s.workers[w].token, s.workers[w].leaseEnd))
    && (w in s.workers && s.key.Taken? && s.key.token == s.workers[w].token ==> s.key.expires == s.workers[w].leaseEnd)
  }

  /** Tokens name workers, and the key only ever holds a token some worker was given. */
  ghost predicate TokensOk(s: State) {
    && (forall v, w :: v in s.workers && w in s.workers && s.workers[v].token == s.workers[w].token ==> v == w)
    && (s.key.Taken? ==> exists v :: v in s.workers && s.workers[v].token == s.key.token)
  }

  ghost predicate Inv(s: State) {
    && s.ttl > 0
    && (forall w :: OwnerOk(s, w))
    && TokensOk(s)
    && (forall w :: w in s.workers ==> s.workers[w].quantity > 0)
    && s.stock + Total(s.orders) == s.initialStock
  }

  lemma OwnerStaysOk(s: State, a: Action, w: WorkerId)
    requires Enabled(s, a) && OwnerOk(s, w) && s.ttl > 0 && TokensOk(s)
    ensures OwnerOk(Next(s, a), w)
  {
  }

  lemma TokensStayOk(s: State, a: Action)
    requires Enabled(s, a) && TokensOk(s)
    ensures TokensOk(Next(s, a))
  {
    var t := Next(s, a);
    if !a.Tick? {
      assert forall v :: v in s.workers ==> v in t.workers && t.workers[v].token == s.workers[v].token;
      assert a.w in t.workers;
    }
  }

  lemma StepKeepsInv(s: State, a: Action)
    requires Inv(s) && Enabled(s, a)
    ensures Inv(Next(s, a))
  {
    forall w ensures OwnerOk(Next(s, a), w) { OwnerStaysOk(s, a, w); }
    TokensStayOk(s, a);
    if a.Commit? { TotalWrite(s.orders, s.workers[a.w].request, s.workers[a.w].quantity); }
  }

  lemma EveryRunIsLeaseSafe(s: State, t: State)
    requires Init(s) && Reaches(Step, s, t)
    ensures Inv(t)
    ensures t.stock + Total(t.orders) == t.initialStock
    ensures forall v, w :: Leased(t, v) && Leased(t, w) ==> v == w
    ensures forall w :: Leased(t, w) ==> Owns(t, w)
  {
    forall x, y | Inv(x) && Step(x, y) ensures Inv(y) {
      var a :| Enabled(x, a) && y == Next(x, a);
      StepKeepsInv(x, a);
    }
    Invariant(Step, Inv, s, t);
    forall v, w | Leased(t, v) && Leased(t, w) ensures v == w { assert OwnerOk(t, v) && OwnerOk(t, w); }
    forall w | Leased(t, w) ensures Owns(t, w) { assert OwnerOk(t, w); }
  }

  /** Only the holder and time can end a lease: acquire, renew and release of others leave the key alone. */
  lemma OthersCannotTouchTheLock(s: State, a: Action, w: WorkerId)
    requires Inv(s) && Enabled(s, a) && Leased(s, w)
    requires a.Tick? || a.w != w
    ensures Next(s, a).key == s.key
  {
    assert OwnerOk(s, w);
  }

  /** A lease that is over stays over: a late renew does not revive it. */
  lemma LostLeaseStaysLost(s: State, a: Action, w: WorkerId)
    requires Inv(s) && Enabled(s, a) && w in s.workers && !Leased(s, w)
    ensures !Leased(Next(s, a), w)
  {
    assert OwnerOk(s, w);
  }

  /** A renew in time gives a full new lease; a renew by anyone who does not own the key does nothing. */
  lemma RenewExtendsOrDoesNothing(s: State, w: WorkerId)
    requires Inv(s) && Enabled(s, Renew(w))
    ensures Leased(s, w) ==>
      var t := Next(s, Renew(w));
      Leased(t, w) && t.workers[w].leaseEnd == s.now + s.ttl && t.key == Taken(s.workers[w].token, s.now + s.ttl)
    ensures !Owns(s, w) ==> Next(s, Renew(w)) == s
  {
    assert OwnerOk(s, w);
  }

  // ----- no oversell while critical sections end inside their lease

  ghost predicate LeasedStep(s: State, t: State) {
    exists a :: Enabled(s, a) && t == Next(s, a) && (a.Commit? ==> Leased(s, a.w))
  }

  ghost predicate ReadOk(s: State, w: WorkerId) {
    Leased(s, w) && s.workers[w].pc == Read ==> s.stock >= s.workers[w].quantity
  }

  ghost predicate NeverOversold(s: State) {
    Inv(s) && s.stock >= 0 && forall w :: ReadOk(s, w)
  }

  lemma ReadStaysOk(s: State, a: Action, w: WorkerId)
    requires Enabled(s, a) && Inv(s) && (a.Commit? ==> Leased(s, a.w)) && ReadOk(s, w)
    ensures ReadOk(Next(s, a), w)
  {
    assert OwnerOk(s, w);
    if !a.Tick? { assert OwnerOk(s, a.w); }
  }

  lemma StepKeepsNeverOversold(s: State, t: State)
    requires NeverOversold(s) && LeasedStep(s, t)
    ensures NeverOversold(t)
  {
    var a :| Enabled(s, a) && t == Next(s, a) && (a.Commit? ==> Leased(s, a.w));
    StepKeepsInv(s, a);
    if a.Commit? { assert ReadOk(s, a.w); }
    forall w ensures ReadOk(t, w) { assert ReadOk(s, w); ReadStaysOk(s, a, w); }
  }

  lemma NoOversellInsideLeases(s: State, t: State)
    requires Init(s) && Reaches(LeasedStep, s, t)
    ensures t.stock >= 0
  {
    forall x, y | NeverOversold(x) && LeasedStep(x, y) ensures NeverOversold(y) { StepKeepsNeverOversold(x, y); }
    Invariant(LeasedStep, NeverOversold, s, t);
  }

  // ----- and only then

  lemma {:induction false} FreshNumber(used: set<nat>) returns (n: nat)
    ensures forall k :: k in used ==> k < n
  {
    if used == {} {
      n := 0;
    } else {
      var k :| k in used;
      var m := FreshNumber(used - {k});
      n := if m > k then m else k + 1;
      assert used == (used - {k}) + {k};
    }
  }

  lemma TakeLeased(s: State, t: State, a: Action, u: State)
    requires Reaches(LeasedStep, s, t) && Enabled(t, a) && u == Next(t, a) && (a.Commit? ==> Leased(t, a.w))
    ensures Reaches(LeasedStep, s, u)
  {
    Extend(LeasedStep, s, t, u);
  }

  /** Once the key is gone, a new worker `v` acquires it for all the stock there is. */
  lemma AnotherAcquires(s: State, w: WorkerId) returns (u: State, v: WorkerId)
    requires Inv(s) && w in s.workers && !Leased(s, w) && s.stock > 0
    ensures Reaches(LeasedStep, s, u) && u.stock == s.stock && u.orders == s.orders && u.ttl == s.ttl > 0
    ensures w in u.workers && u.workers[w] == s.workers[w] && v != w && v in u.workers && Leased(u, v)
    ensures u.workers[v].pc == Entered && u.workers[v].quantity == s.stock
    ensures u.workers[v].request !in s.orders && u.workers[v].request != s.workers[w].request
  {
    var later := if s.key.Taken? && s.key.expires > s.now then s.key.expires else s.now;
    v := FreshNumber(s.workers.Keys);
    var tokens := set x | x in s.workers :: s.workers[x].token;
    var token := FreshNumber(tokens);
    assert forall x :: x in s.workers ==> s.workers[x].token in tokens;
    assert v !in s.workers.Keys;
    var r := FreshNumber(s.orders.Keys + {s.workers[w].request});
    Stay(LeasedStep, s);
    var t := s.(now := later);
    TakeLeased(s, s, Tick(later), t);
    u := Next(t, Acquire(v, token, r, s.stock));
    TakeLeased(s, t, Acquire(v, token, r, s.stock), u);
  }

  /** It sells all of it, inside its lease. */
  lemma AnotherSellsOut(s: State, w: WorkerId) returns (u: State)
    requires Inv(s) && w in s.workers && !Leased(s, w) && s.stock > 0
    ensures Reaches(LeasedStep, s, u) && u.stock == 0 && w in u.workers && u.workers[w] == s.workers[w]
    ensures s.workers[w].request !in s.orders ==> s.workers[w].request !in u.orders
  {
    var t, v := AnotherAcquires(s, w);
    var read := Next(t, ReadStock(v));
    TakeLeased(s, t, ReadStock(v), read);
    u := Next(read, Commit(v));
    TakeLeased(s, read, Commit(v), u);
  }

  /**
   * The lease is needed for every late commit: whenever a worker that has read the stock has lost its lease
   * and its request has no order yet, the others can go on, each inside its lease, so that this worker's
   * commit oversells.
   */
  lemma LateCommitCanOversell(s0: State, s: State, w: WorkerId)
    requires Init(s0) && Reaches(Step, s0, s)
    requires w in s.workers && s.workers[w].pc == Read && !Leased(s, w) && s.workers[w].request !in s.orders
    ensures exists u :: Reaches(LeasedStep, s, u) && Enabled(u, Commit(w)) && Next(u, Commit(w)).stock < 0
  {
    EveryRunIsLeaseSafe(s0, s);
    if s.stock > 0 {
      var u := AnotherSellsOut(s, w);
      assert Enabled(u, Commit(w)) && Next(u, Commit(w)).stock < 0;
    } else {
      Stay(LeasedStep, s);
      assert Enabled(s, Commit(w)) && Next(s, Commit(w)).stock < 0;
    }
  }

  // ----- what the lease is for

  ghost function Fresh(): State { State(10, 0, Free, 1, 1, map[], map[]) }

  lemma Take(s: State, t: State, a: Action, u: State)
    requires Reaches(Step, s, t) && Enabled(t, a) && u == Next(t, a)
    ensures Reaches(Step, s, u)
  {
    Extend(Step, s, t, u);
  }

  /** Worker 0 read the last unit, lost its lease, and worker 1 sold the unit. */
  ghost function Overtaken(): State {
    var w := Worker(0, 0, 1, Read, 10);
    State(10, 10, Taken(1, 20), 1, 0, map[1 := 1], map[0 := w, 1 := Worker(1, 1, 1, Leaving(Ok), 20)])
  }

  /** Worker 0 has read the last unit; `pc` is where worker 1, which acquired at time 10, is. */
  ghost function Lapsed(pc: Pc): State {
    State(10, 10, Taken(1, 20), 1, 1, map[], map[0 := Worker(0, 0, 1, Read, 10), 1 := Worker(1, 1, 1, pc, 20)])
  }

  lemma LeaseLapses()
    ensures Reaches(Step, Fresh(), Lapsed(Entered))
  {
    var w := Worker(0, 0, 1, Entered, 10);
    var s1 := Fresh().(key := Taken(0, 10), workers := map[0 := w]);
    var s2 := s1.(workers := map[0 := w.(pc := Read)]);
    var s3 := s2.(now := 10);
    Stay(Step, Fresh());
    Take(Fresh(), Fresh(), Acquire(0, 0, 0, 1), s1);
    Take(Fresh(), s1, ReadStock(0), s2);
    Take(Fresh(), s2, Tick(10), s3);
    Take(Fresh(), s3, Acquire(1, 1, 1, 1), Lapsed(Entered));
  }

  lemma OvertakenIsReachable()
    ensures Reaches(Step, Fresh(), Overtaken())
  {
    LeaseLapses();
    Take(Fresh(), Lapsed(Entered), ReadStock(1), Lapsed(Read));
    Take(Fresh(), Lapsed(Read), Commit(1), Overtaken());
  }

  /** A critical section that outlives its lease oversells; the books still balance. */
  lemma OutlivedLeaseOversells()
    ensures exists t :: Reaches(Step, Fresh(), t) && t.stock == -1 && t.stock + Total(t.orders) == t.initialStock
  {
    OvertakenIsReachable();
    var t := Next(Overtaken(), Commit(0));
    Take(Fresh(), Overtaken(), Commit(0), t);
    EveryRunIsLeaseSafe(Fresh(), t);
  }
}

/** `PlaceOrderWithLock` as code. The watchdog of a call is one of the others: it may renew its lease at any time. */
module LeaseLockCode {
  import opened Common
  import opened Runs
  import opened LeaseLock

  datatype AcquireReply = Acquired | Busy | AcquireError

  datatype ReleaseReply = Released | NotHeld | ReleaseError

  class Shop {
    var s: State
    ghost var origin: State
    /** A state on the way, from which a caller looks back. */
    ghost var mark: State

    ghost predicate Valid()
      reads this
    {
      Init(origin) && Reaches(Step, origin, mark) && Reaches(Step, mark, s)
    }

    constructor (s0: State)
      requires Init(s0)
      ensures Valid() && s == mark == origin == s0
    {
      s, mark, origin := s0, s0, s0;
      new;
      Stay(Step, s);
    }

    ghost method Mark()
      requires Valid()
      modifies this`mark
      ensures Valid() && mark == s
    {
      Concat(Step, origin, mark, s);
      mark := s;
      Stay(Step, s);
    }

    lemma Facts()
      requires Valid()
      ensures Inv(s) && forall w :: Leased(s, w) ==> Owns(s, w)
    {
      Concat(Step, origin, mark, s);
      EveryRunIsLeaseSafe(origin, s);
    }

    ghost predicate Is(w: WorkerId, worker: Worker)
      reads this
    {
      w in s.workers && s.workers[w].(leaseEnd := 0) == worker.(leaseEnd := 0)
    }

    /** Time passes, the watchdog may renew, other processes run. */
    method Interfere(ghost w: WorkerId)
      modifies this`s
      ensures Reaches(Step, old(s), s)
      ensures w in old(s.workers) ==>
        w in s.workers && s.workers[w].(leaseEnd := 0) == old(s.workers[w]).(leaseEnd := 0)
    {
      Stay(Step, s);
    }

    method Others(ghost w: WorkerId, ghost worker: Worker)
      requires Valid() && Is(w, worker)
      modifies this`s
      ensures Valid() && Is(w, worker) && Reaches(Step, old(s), s)
    {
      Interfere(w);
      Concat(Step, mark, old(s), s);
    }

    method Do(a: Action)
      requires Valid() && Enabled(s, a)
      modifies this`s
      ensures Valid() && s == Next(old(s), a)
    {
      Extend(Step, mark, s, Next(s, a));
      s := Next(s, a);
    }

    /**
     * `SET key token NX PX ttl` with a token no other process has. An error may hide that the key was set: then
     * nobody holds the lock until it expires.
     */
    method AcquireLock(w: WorkerId, worker: Worker, answer: Answer) returns (r: AcquireReply)
      requires Valid() && w !in s.workers && worker.quantity > 0
      requires forall v :: v in s.workers ==> s.workers[v].token != worker.token
      modifies this`s
      ensures Valid()
      ensures r == AcquireError <==> answer != Answered
      ensures r == Acquired <==>
        answer == Answered && !(old(s.key).Taken? && old(s.now) < old(s.key).expires)
      ensures r == Acquired ==> Is(w, worker.(pc := Entered)) && Leased(s, w)
      ensures r == Busy ==> Is(w, worker.(pc := Gone(NotAcquired)))
      ensures answer == NoEffect ==> s == old(s)
      ensures s.orders == old(s.orders)
      ensures answer != NoEffect ==>
        s.key == if old(s.key).Taken? && old(s.now) < old(s.key).expires then old(s.key)
          else Taken(worker.token, s.now + s.ttl)
    {
      Facts();
      var free := Stored(s) == Free;
      if answer != NoEffect { Do(Acquire(w, worker.token, worker.request, worker.quantity)); }
      if answer == Unheard && free {
        Do(Fail(w));
        Do(ReleaseFails(w));
      }
      r := if answer != Answered then AcquireError else if free then Acquired else Busy;
    }

    /** The release script. It deletes the key only while it stores this holder's token. */
    method ReleaseLock(w: WorkerId, answer: Answer, ghost worker: Worker) returns (r: ReleaseReply)
      requires Valid() && Is(w, worker) && worker.pc.Leaving?
      modifies this`s
      ensures Valid() && Is(w, worker.(pc := Gone(worker.pc.reply))) && s.orders == old(s.orders)
      ensures r == ReleaseError <==> answer != Answered
      ensures var held := old(s.key).Taken? && old(s.now) < old(s.key).expires && old(s.key).token == worker.token;
        (r == NotHeld <==> answer == Answered && !held)
        && s.key == if answer != NoEffect && held then Free else old(s.key)
      ensures answer != NoEffect ==> !Owns(s, w)
      ensures old(Leased(s, w)) && answer == Answered ==> r == Released
    {
      Facts();
      var owned := Owns(s, w);
      if answer != NoEffect { Do(Release(w)); } else { Do(ReleaseFails(w)); }
      r := if answer != Answered then ReleaseError else if owned then Released else NotHeld;
    }

    /**
     * Read, check, deduct and insert, with nothing but the lock between two workers. `readOk` and `writeOk` are
     * the database's answers to the read and to the rest of the transaction, which runs on `met`.
     */
    method CriticalSection(w: WorkerId, worker: Worker, readOk: bool, writeOk: bool)
      returns (reply: Reply, ghost met: State)
      requires Valid() && Is(w, worker) && worker.pc == Entered
      modifies this`s
      ensures Valid() && Is(w, worker.(pc := Leaving(reply))) && Reaches(Step, old(s), met)
      ensures reply ==
        if !readOk then Failed
        else if old(s.stock) < worker.quantity then InsufficientStock
        else if writeOk && worker.request !in met.orders then Ok
        else Failed
      ensures if reply == Ok
        then s.stock == met.stock - worker.quantity && s.orders == met.orders[worker.request := worker.quantity]
        else s.stock == met.stock && s.orders == met.orders
    {
      met := s;
      Stay(Step, s);
      if !readOk {
        Do(Fail(w));
        return Failed, met;
      }
      Do(ReadStock(w));
      if s.workers[w].pc != Read { return InsufficientStock, met; }
      Extend(Step, met, met, s);
      ghost var read := s;
      Others(w, worker.(pc := Read));
      Concat(Step, met, read, s);
      met := s;
      if writeOk && worker.request !in s.orders {
        Do(Commit(w));
        reply := Ok;
      } else {
        Do(Fail(w));
        reply := Failed;
      }
    }

    /**
     * `acquire` and `release` are what becomes of the lock's commands; the error of the release is dropped.
     * The stock is read in `read`, the order written on `met`; only the lock could keep the two together.
     */
    method PlaceOrderWithLock(
        w: WorkerId, token: Token, request: RequestId, quantity: int,
        acquire: Answer, readOk: bool, writeOk: bool, release: Answer)
      returns (reply: Reply, ghost read: State, ghost met: State)
      requires Valid() && w !in s.workers
      requires forall v :: v in s.workers ==> s.workers[v].token != token
      modifies this`s, this`mark
      ensures Valid() && Reaches(Step, old(s), read) && Reaches(Step, read, met)
      ensures reply ==
        if quantity <= 0 then InvalidQuantity
        else if acquire != Answered then Failed
        else if old(s.key).Taken? && old(s.now) < old(s.key).expires then NotAcquired
        else if !readOk then Failed
        else if read.stock < quantity then InsufficientStock
        else if writeOk && request !in met.orders then Ok
        else Failed
      ensures reply == InvalidQuantity || (quantity > 0 && acquire == NoEffect) ==> s == old(s)
      ensures quantity > 0 && acquire != Answered ==> s.orders == old(s.orders)
      ensures quantity > 0 && acquire == Answered ==> Is(w, Worker(token, request, quantity, Gone(reply), 0))
      ensures quantity > 0 && acquire == Answered && reply != NotAcquired && release != NoEffect ==> !Owns(s, w)
      ensures reply == Ok ==> request in s.orders && s.orders[request] == quantity
    {
      Mark();
      read, met := s, s;
      if quantity <= 0 { return InvalidQuantity, read, met; }
      var worker := Worker(token, request, quantity, Entered, 0);
      var r := AcquireLock(w, worker, acquire);
      if r != Acquired { return if r == Busy then NotAcquired else Failed, read, met; }
      Others(w, worker);
      read := s;
      reply, met := CriticalSection(w, worker, readOk, writeOk);
      OthersKeepOrders(w, worker.(pc := Leaving(reply)));
      var dropped := ReleaseLock(w, release, worker.(pc := Leaving(reply)));
    }

    /** Worker `w` was given `token` and may still own the lock. */
    ghost predicate Given(w: WorkerId, token: Token)
      reads this
    {
      w in s.workers && s.workers[w].token == token && s.workers[w].pc != Gone(NotAcquired)
    }

    /**
     * The wait for the next tick of the watchdog, the only one that renews for `w`. If `punctual`, it takes
     * at most `interval` and the call has not released yet.
     */
    method InterfereUntilTick(ghost w: WorkerId, interval: int, ghost token: Token, ghost punctual: bool)
      requires Given(w, token) && interval > 0 && (punctual ==> !s.workers[w].pc.Gone?)
      modifies this`s
      ensures Reaches(Step, old(s), s) && Given(w, token) && s.ttl == old(s.ttl)
      ensures s.workers[w].leaseEnd == old(s.workers[w].leaseEnd)
      ensures punctual ==> s.now <= old(s.now) + interval && !s.workers[w].pc.Gone?
    {
      Stay(Step, s);
    }

    /**
     * The watchdog of `w` over `ticks` ticks; the renew of tick `fault` reports an error, `faultActs` or not.
     * It stops early when the lock is no longer its own or at that error. If its ticks are punctual, the
     * interval fits into what is left of the lease and no renew fails, the lease never lapses.
     */
    method Watchdog(
        w: WorkerId, interval: int, ticks: nat, fault: nat, faultActs: bool, ghost token: Token, ghost punctual: bool)
      returns (renewed: nat)
      requires Valid() && Given(w, token) && interval > 0
      requires punctual ==> interval < s.ttl && !s.workers[w].pc.Gone? && s.now + interval < s.workers[w].leaseEnd
      modifies this`s
      ensures Valid() && Given(w, token) && renewed <= ticks
      ensures renewed < ticks ==> !Owns(s, w) || renewed == fault
      ensures fault < ticks ==> renewed <= fault
      ensures punctual && fault >= ticks ==>
        renewed == ticks && Leased(s, w) && s.now + interval < s.workers[w].leaseEnd
    {
      for i := 0 to ticks
        invariant Valid() && Given(w, token) && i <= fault
        invariant punctual ==> interval < s.ttl && !s.workers[w].pc.Gone? && s.now + interval < s.workers[w].leaseEnd
      {
        ghost var before := s;
        InterfereUntilTick(w, interval, token, punctual);
        Concat(Step, mark, before, s);
        Facts();
        if i == fault {
          if faultActs { Do(Renew(w)); }
          return i;
        }
        RenewExtendsOrDoesNothing(s, w);
        var lost := !Owns(s, w);
        Do(Renew(w));
        if lost { return i; }
      }
      renewed := ticks;
    }

    method OthersKeepOrders(ghost w: WorkerId, ghost worker: Worker)
      requires Valid() && Is(w, worker)
      modifies this`s
      ensures Valid() && Is(w, worker)
      ensures OrdersKept(old(s), s)
    {
      Interfere(w);
      Concat(Step, mark, old(s), s);
      OrdersOnlyGrow(old(s), s);
    }
  }

  ghost predicate OrdersKept(s: State, t: State) {
    forall r :: r in s.orders ==> r in t.orders && t.orders[r] == s.orders[r]
  }

  lemma OrdersOnlyGrow(s: State, t: State)
    requires Reaches(Step, s, t)
    ensures OrdersKept(s, t)
  {
    forall x, y, z | Any(y) && Step(y, z) && OrdersKept(z, x) ensures OrdersKept(y, x) {
      var a :| Enabled(y, a) && z == Next(y, a);
      assert OrdersKept(y, z);
    }
    Relation(Step, Any, OrdersKept, s, t);
  }
}
