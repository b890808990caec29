/** The reservation scripts: a per-request state next to the stock counters, and every run of them. */
module Reservation {
  import opened Runs
  import opened Sums

  type RequestId = string
  type ProductId = int

  datatype Standing = Reserved | Restored

  datatype Entry = Entry(standing: Standing, product: ProductId, quantity: int)

  datatype State = State(initial: map<ProductId, int>, stock: map<ProductId, int>, entries: map<RequestId, Entry>)

  datatype Request = Request(id: RequestId, product: ProductId, quantity: int)

  datatype ReserveReply = Granted(remaining: int) | Already(remaining: int) | Conflict | Insufficient | Invalid

  datatype RestoreReply = Done | AlreadyRestored | RestoreConflict | NotFound

  function Stock(s: State, p: ProductId): int { if p in s.stock then s.stock[p] else 0 }

  predicate Matches(e: Entry, req: Request) { e.product == req.product && e.quantity == req.quantity }

  /** `reserveScript` behind the checks of `Reserve`. */
  function Reserve(s: State, req: Request): (State, ReserveReply) {
    if req.id == "" || req.product <= 0 || req.quantity <= 0 then (s, Invalid)
    else if req.id in s.entries && !Matches(s.entries[req.id], req) then (s, Conflict)
    else if req.id in s.entries && s.entries[req.id].standing == Reserved then (s, Already(Stock(s, req.product)))
    else if req.product !in s.stock || s.stock[req.product] < req.quantity then (s, Insufficient)
    else
      var remaining := s.stock[req.product] - req.quantity;
      (s.(stock := s.stock[req.product := remaining],
          entries := s.entries[req.id := Entry(Reserved, req.product, req.quantity)]), Granted(remaining))
  }

  /** `restoreScript`. */
  function Restore(s: State, req: Request): (State, RestoreReply) {
    if req.id !in s.entries then (s, NotFound)
    else if !Matches(s.entries[req.id], req) then (s, RestoreConflict)
    else if s.entries[req.id].standing == Restored then (s, AlreadyRestored)
    else (s.(stock := s.stock[req.product := Stock(s, req.product) + req.quantity],
             entries := s.entries[req.id := s.entries[req.id].(standing := Restored)]), Done)
  }

  ghost predicate Step(s: State, t: State) {
    exists req :: t == Reserve(s, req).0 || t == Restore(s, req).0
  }

  ghost predicate Init(s: State) {
    s.stock == s.initial && s.entries == map[] && forall p :: p in s.stock ==> s.stock[p] >= 0
  }

  ghost function ReservedOf(entries: map<RequestId, Entry>, p: ProductId): map<RequestId, int> {
    map r | r in entries ::
      if entries[r].product == p && entries[r].standing == Reserved then entries[r].quantity else 0
  }

  ghost predicate StockOk(s: State, p: ProductId) {
    Stock(s, p) >= 0 && Stock(s, p) + Total(ReservedOf(s.entries, p)) == if p in s.initial then s.initial[p] else 0
  }

  ghost predicate Inv(s: State) {
    (forall p :: StockOk(s, p)) && forall r :: r in s.entries ==> s.entries[r].quantity > 0
  }

  lemma ReservedWrite(entries: map<RequestId, Entry>, r: RequestId, e: Entry, p: ProductId)
    ensures Total(ReservedOf(entries[r := e], p)) == Total(ReservedOf(entries, p))
      + (if e.product == p && e.standing == Reserved then e.quantity else 0)
      - (if r in entries && entries[r].product == p && entries[r].standing == Reserved then entries[r].quantity else 0)
  {
    var q := if e.product == p && e.standing == Reserved then e.quantity else 0;
    assert ReservedOf(entries[r := e], p) == ReservedOf(entries, p)[r := q];
    TotalWrite(ReservedOf(entries, p), r, q);
  }

  lemma ScriptKeepsStock(s: State, t: State, req: Request, p: ProductId)
    requires Inv(s) && (t == Reserve(s, req).0 || t == Restore(s, req).0)
    ensures StockOk(t, p)
  {
    assert StockOk(s, p);
    if t != s { ReservedWrite(s.entries, req.id, t.entries[req.id], p); }
  }

  lemma StepKeepsInv(s: State, t: State)
    requires Inv(s) && Step(s, t)
    ensures Inv(t)
  {
    var req :| t == Reserve(s, req).0 || t == Restore(s, req).0;
    forall p ensures StockOk(t, p) { ScriptKeepsStock(s, t, req, p); }
  }

  /**
   * Every sequence of scripts, with repeats and reused ids: stock plus reservations is constant, stock is not
   * negative.
   */
  lemma EveryRunConserves(s: State, t: State)
    requires Init(s) && Reaches(Step, s, t)
    ensures Inv(t)
    ensures forall p ::
      Stock(t, p) >= 0 && Stock(t, p) + Total(ReservedOf(t.entries, p)) == if p in t.initial then t.initial[p] else 0
  {
    assert Inv(s) by {
      forall p ensures StockOk(s, p) { assert ReservedOf(s.entries, p) == map[]; }
    }
    forall x, y | Inv(x) && Step(x, y) ensures Inv(y) { StepKeepsInv(x, y); }
    Invariant(Step, Inv, s, t);
    forall p ensures Stock(t, p) >= 0 && Stock(t, p) + Total(ReservedOf(t.entries, p)) ==
      if p in t.initial then t.initial[p] else 0 {
      assert StockOk(t, p);
    }
  }

  /** A repeated script acts once, and a restore undoes exactly its reservation. */
  lemma RepeatsActOnce(s: State, req: Request)
    ensures Reserve(Reserve(s, req).0, req).0 == Reserve(s, req).0
    ensures Restore(Restore(s, req).0, req).0 == Restore(s, req).0
    ensures Reserve(s, req).1.Granted? ==> Restore(Reserve(s, req).0, req).0.stock == s.stock
  {
    if Reserve(s, req).1.Granted? {
      var had := s.stock[req.product];
      assert s.stock[req.product := had - req.quantity][req.product := had] == s.stock;
    }
    if Restore(s, req).1.Done? {
      assert Restore(Restore(s, req).0, req).1.AlreadyRestored?;
    }
  }

  /** A script touches only the entry of its own request. */
  lemma ScriptsAreLocal(s: State, req: Request, r: RequestId)
    requires r != req.id
    ensures r in s.entries <==> r in Reserve(s, req).0.entries
    ensures r in s.entries <==> r in Restore(s, req).0.entries
    ensures r in s.entries ==> Reserve(s, req).0.entries[r] == s.entries[r] == Restore(s, req).0.entries[r]
  {
  }
}

/** `PlaceOrderAsync`: reserve, produce, compensate. */
module AsyncOrder {
  import opened Reservation

  datatype Reply = Accepted | Refused(why: ReserveReply) | ReserveFailed | ProduceFailed

  /**
   * What becomes of a submission. The reserve script fails (`Unreserved`), or acts and its reply is lost
   * (`Unheard`); behind it, the message is produced, or not, and then compensated (`Compensated`) or the
   * compensation fails too (`Stuck`).
   */
  datatype Fate = Unreserved | Unheard | Produced | Compensated | Stuck

  /** What one call, run alone, does to the reservation and to the topic. */
  function Place(s: State, produced: set<RequestId>, req: Request, fate: Fate): (State, set<RequestId>, Reply) {
    var (t, reply) := Reserve(s, req);
    if fate == Unreserved then (s, produced, ReserveFailed)
    else if fate == Unheard then (t, produced, ReserveFailed)
    else if !(reply.Granted? || reply.Already?) then (s, produced, Refused(reply))
    else if fate == Produced then (t, produced + {req.id}, Accepted)
    else if fate == Compensated then (Restore(t, req).0, produced, ProduceFailed)
    else (t, produced, ProduceFailed)
  }

  predicate IsReserved(s: State, r: RequestId) { r in s.entries && s.entries[r].standing == Reserved }

  /** Submit one request again and again, one submission after the other. */
  function Submit(s: State, produced: set<RequestId>, req: Request, fates: seq<Fate>): (State, set<RequestId>) {
    if fates == [] then (s, produced)
    else
      var n := |fates| - 1;
      var (t, sent) := Submit(s, produced, req, fates[..n]);
      var (u, sent', _) := Place(t, sent, req, fates[n]);
      (u, sent')
  }

  /** A new, valid request that can be served. */
  predicate Fresh(s: State, produced: set<RequestId>, req: Request) {
    && req.id != "" && req.product > 0 && req.quantity > 0
    && req.id !in s.entries && req.id !in produced
    && req.product in s.stock && s.stock[req.product] >= req.quantity
  }

  /** The last submission that reached Redis was not compensated. */
  predicate Stands(fates: seq<Fate>) {
    fates != [] &&
      var last := fates[|fates| - 1];
      if last == Unreserved then Stands(fates[..|fates| - 1]) else last != Compensated
  }

  lemma {:induction false} AfterSubmits(s: State, produced: set<RequestId>, req: Request, fates: seq<Fate>)
    requires Fresh(s, produced, req)
    ensures var (t, sent) := Submit(s, produced, req, fates);
      && IsReserved(t, req.id) == Stands(fates)
      && (req.id in sent <==> Produced in fates)
      && (req.id in t.entries ==> Matches(t.entries[req.id], req))
      && req.product in t.stock
      && t.stock[req.product] == s.stock[req.product] - (if Stands(fates) then req.quantity else 0)
  {
    if fates != [] {
      var n := |fates| - 1;
      assert fates == fates[..n] + [fates[n]];
      AfterSubmits(s, produced, req, fates[..n]);
    }
  }

  /**
   * "Reserved if and only if produced" holds for a request submitted once exactly unless the reserve acted
   * unheard or the compensation failed. Submitted repeatedly, it holds exactly when some produce succeeded and
   * the last submission that reached Redis was not compensated, or neither: a compensated repeat restores the
   * stock of an order whose message is already in the topic.
   */
  lemma ReservedIffProduced(s: State, produced: set<RequestId>, req: Request, fates: seq<Fate>)
    requires Fresh(s, produced, req)
    ensures var (t, sent) := Submit(s, produced, req, fates);
      (IsReserved(t, req.id) <==> req.id in sent) <==> (Produced in fates <==> Stands(fates))
    ensures |fates| == 1 ==>
      var (t, sent) := Submit(s, produced, req, fates);
      (IsReserved(t, req.id) <==> req.id in sent) <==> fates[0] != Stuck && fates[0] != Unheard
  {
    AfterSubmits(s, produced, req, fates);
  }
}

/**
 * Submissions of one request that run at once, among scripts of other requests: between reserve, produce and
 * compensation of one submission anything may happen.
 */
module AsyncRuns {
  import opened Runs
  import opened Reservation
  import opened AsyncOrder

  type CallId = nat

  /** `Reserving`: past the reserve script. `Failing`: the produce failed. The rest is how a submission ended. */
  datatype Pc = Reserving | Failing | Ended(fate: Fate) | Declined {
    /** The submission answers for a reservation: it is on its way, produced, or ended without a way back. */
    predicate Holds() { Reserving? || Failing? || (Ended? && fate in {Produced, Stuck, Unheard}) }

    predicate AtRest() { Ended? || Declined? }
  }

  datatype World = World(s: State, req: Request, sent: bool, calls: map<CallId, Pc>)

  datatype Action =
    | ReserveRuns(c: CallId, heard: bool)
    | ReserveFails(c: CallId)
    | ProduceOk(c: CallId)
    | ProduceFail(c: CallId)
    | RestoreRuns(c: CallId)
    | RestoreFails(c: CallId)
    | OtherReserve(req: Request)
    | OtherRestore(req: Request)

  predicate Enabled(w: World, a: Action) {
    match a
    case ReserveRuns(c, _) => c !in w.calls
    case ReserveFails(c) => c !in w.calls
    case ProduceOk(c) => c in w.calls && w.calls[c] == Reserving
    case ProduceFail(c) => c in w.calls && w.calls[c] == Reserving
    case RestoreRuns(c) => c in w.calls && w.calls[c] == Failing
    case RestoreFails(c) => c in w.calls && w.calls[c] == Failing
    case OtherReserve(req) => req.id != w.req.id
    case OtherRestore(req) => req.id != w.req.id
  }

  function Move(w: World, c: CallId, pc: Pc): World { w.(calls := w.calls[c := pc]) }

  function Next(w: World, a: Action): World
    requires Enabled(w, a)
  {
    match a
    case ReserveRuns(c, heard) =>
      var (t, reply) := Reserve(w.s, w.req);
      if !(reply.Granted? || reply.Already?) then Move(w, c, Declined)
      else Move(w.(s := t), c, if heard then Reserving else Ended(Unheard))
    case ReserveFails(c) => Move(w, c, Ended(Unreserved))
    case ProduceOk(c) => Move(w.(sent := true), c, Ended(Produced))
    case ProduceFail(c) => Move(w, c, Failing)
    case RestoreRuns(c) => Move(w.(s := Restore(w.s, w.req).0), c, Ended(Compensated))
    case RestoreFails(c) => Move(w, c, Ended(Stuck))
    case OtherReserve(req) => w.(s := Reserve(w.s, req).0)
    case OtherRestore(req) => w.(s := Restore(w.s, req).0)
  }

  ghost predicate Step(w: World, x: World) {
    exists a :: Enabled(w, a) && x == Next(w, a)
  }

  ghost predicate Init(w: World) {
    w.req.id !in w.s.entries && !w.sent && w.calls == map[]
  }

  ghost predicate Ends(w: World, fate: Fate) { exists c :: c in w.calls && w.calls[c] == Ended(fate) }

  ghost predicate SomeoneHolds(w: World) { exists c :: c in w.calls && w.calls[c].Holds() }

  ghost predicate Inv(w: World) {
    && (w.req.id in w.s.entries ==> Matches(w.s.entries[w.req.id], w.req))
    && (IsReserved(w.s, w.req.id) ==> SomeoneHolds(w))
    && (SomeoneHolds(w) ==> IsReserved(w.s, w.req.id) || Ends(w, Compensated))
    && (w.sent <==> Ends(w, Produced))
  }

  /** Ended submissions stay as they are, and only a restore of this request ends its reservation. */
  lemma EndsPersist(w: World, a: Action, fate: Fate)
    requires Enabled(w, a) && Ends(w, fate)
    ensures Ends(Next(w, a), fate)
  {
    var c :| c in w.calls && w.calls[c] == Ended(fate);
    assert c in Next(w, a).calls && Next(w, a).calls[c] == Ended(fate);
  }

  lemma EndsComeFromSteps(w: World, a: Action, fate: Fate)
    requires Enabled(w, a) && Ends(Next(w, a), fate) && !Ends(w, fate)
    ensures match fate
      case Produced => a.ProduceOk?
      case Compensated => a.RestoreRuns?
      case _ => true
  {
    var c :| c in Next(w, a).calls && Next(w, a).calls[c] == Ended(fate);
    if c in w.calls { assert w.calls[c] != Ended(fate); }
  }

  lemma SentStaysRight(w: World, a: Action)
    requires Inv(w) && Enabled(w, a)
    ensures Next(w, a).sent <==> Ends(Next(w, a), Produced)
  {
    var x := Next(w, a);
    if w.sent { EndsPersist(w, a, Produced); }
    if a.ProduceOk? { assert x.calls[a.c] == Ended(Produced); }
    if Ends(x, Produced) && !w.sent { EndsComeFromSteps(w, a, Produced); }
  }

  lemma ReservedIsHeld(w: World, a: Action)
    requires Inv(w) && Enabled(w, a) && IsReserved(Next(w, a).s, w.req.id)
    ensures SomeoneHolds(Next(w, a))
  {
    var x := Next(w, a);
    if a.ReserveRuns? && x.calls[a.c].Holds() {
      assert SomeoneHolds(x);
    } else {
      assert IsReserved(w.s, w.req.id);
      var c :| c in w.calls && w.calls[c].Holds();
      assert x.calls[c].Holds();
    }
  }

  lemma HeldIsReservedOrCompensated(w: World, a: Action)
    requires Inv(w) && Enabled(w, a) && SomeoneHolds(Next(w, a))
    ensures IsReserved(Next(w, a).s, w.req.id) || Ends(Next(w, a), Compensated)
  {
    var x := Next(w, a);
    if a.RestoreRuns? {
      assert x.calls[a.c] == Ended(Compensated);
    } else if Ends(w, Compensated) {
      EndsPersist(w, a, Compensated);
    } else if !a.ReserveRuns? || x.s == w.s {
      var c :| c in x.calls && x.calls[c].Holds();
      assert c in w.calls ==> w.calls[c].Holds();
    }
  }

  lemma StepKeepsInv(w: World, a: Action)
    requires Inv(w) && Enabled(w, a)
    ensures Inv(Next(w, a))
  {
    SentStaysRight(w, a);
    if IsReserved(Next(w, a).s, w.req.id) { ReservedIsHeld(w, a); }
    if SomeoneHolds(Next(w, a)) { HeldIsReservedOrCompensated(w, a); }
  }

  ghost predicate Rests(w: World) { forall c :: c in w.calls ==> w.calls[c].AtRest() }

  /**
   * Any number of submissions of one request, interleaved in any way with each other and with scripts of other
   * requests: once they are at rest, a reservation without a message needs a submission that got stuck or was
   * not heard, and a message without a reservation needs one that was compensated. With neither, the request
   * is reserved if and only if it was produced.
   */
  lemma ConcurrentSubmissions(w: World, x: World)
    requires Init(w) && Reaches(Step, w, x) && Rests(x)
    ensures IsReserved(x.s, x.req.id) && !x.sent ==> Ends(x, Stuck) || Ends(x, Unheard)
    ensures x.sent && !IsReserved(x.s, x.req.id) ==> Ends(x, Compensated)
    ensures !Ends(x, Stuck) && !Ends(x, Unheard) && !Ends(x, Compensated) ==> (IsReserved(x.s, x.req.id) <==> x.sent)
  {
    forall y, z | Inv(y) && Step(y, z) ensures Inv(z) {
      var a :| Enabled(y, a) && z == Next(y, a);
      StepKeepsInv(y, a);
    }
    Invariant(Step, Inv, w, x);
    if IsReserved(x.s, x.req.id) {
      var c :| c in x.calls && x.calls[c].Holds();
      assert Ends(x, x.calls[c].fate);
    }
    if x.sent {
      var c :| c in x.calls && x.calls[c] == Ended(Produced);
      assert SomeoneHolds(x);
    }
  }

  // ----- two at once

  ghost function Shelf(stock: int, standing: Standing, sent: bool, calls: map<CallId, Pc>): World {
    World(State(map[1 := 1], map[1 := stock], map["r" := Entry(standing, 1, 1)]), Request("r", 1, 1), sent, calls)
  }

  lemma Take(w: World, x: World, a: Action, y: World)
    requires Reaches(Step, w, x) && Enabled(x, a) && y == Next(x, a)
    ensures Reaches(Step, w, y)
  {
    Extend(Step, w, x, y);
  }

  ghost function Fresh(): World {
    World(State(map[1 := 1], map[1 := 1], map[]), Request("r", 1, 1), false, map[])
  }

  lemma BothReserve()
    ensures Reaches(Step, Fresh(), Shelf(0, Reserved, false, map[0 := Reserving, 1 := Reserving]))
  {
    Stay(Step, Fresh());
    var one := Shelf(0, Reserved, false, map[0 := Reserving]);
    assert Next(Fresh(), ReserveRuns(0, true)) == one;
    Take(Fresh(), Fresh(), ReserveRuns(0, true), one);
    Take(Fresh(), one, ReserveRuns(1, true), Shelf(0, Reserved, false, map[0 := Reserving, 1 := Reserving]));
  }

  lemma OneProducesOneFails()
    ensures Reaches(Step, Fresh(), Shelf(0, Reserved, true, map[0 := Ended(Produced), 1 := Failing]))
  {
    BothReserve();
    var s := Shelf(0, Reserved, true, map[0 := Ended(Produced), 1 := Reserving]);
    Take(Fresh(), Shelf(0, Reserved, false, map[0 := Reserving, 1 := Reserving]), ProduceOk(0), s);
    Take(Fresh(), s, ProduceFail(1), Shelf(0, Reserved, true, map[0 := Ended(Produced), 1 := Failing]));
  }

  /** Two submissions at once share one reservation; the one that fails gives back the stock of the other's order. */
  lemma ConcurrentRepeatLosesReservation()
    ensures Init(Fresh())
    ensures exists x ::
      Reaches(Step, Fresh(), x) && Rests(x) && x.sent && !IsReserved(x.s, "r") && x.s.stock == map[1 := 1]
  {
    OneProducesOneFails();
    var s := Shelf(0, Reserved, true, map[0 := Ended(Produced), 1 := Failing]);
    var x := Shelf(1, Restored, true, map[0 := Ended(Produced), 1 := Ended(Compensated)]);
    assert Next(s, RestoreRuns(1)) == x;
    Take(Fresh(), s, RestoreRuns(1), x);
  }
}

/** The inventory service and the async order service as code. */
module AsyncOrderCode {
  import opened Common
  import opened Runs
  import opened Reservation
  import opened AsyncOrder

  /** The fate that a submission's answers amount to, behind a reserve that did not refuse. */
  ghost function FateOf(reserve: Answer, ok: bool, restoreActs: bool): Fate {
    match reserve
    case NoEffect => Unreserved
    case Unheard => Fate.Unheard
    case Answered => if ok then Produced else if restoreActs then Compensated else Stuck
  }

  class Service {
    var s: State
    var produced: set<RequestId>
    ghost var origin: State

    ghost predicate Valid()
      reads this
    {
      Init(origin) && Reaches(Step, origin, s)
    }

    constructor (s0: State)
      requires Init(s0)
      ensures Valid() && s == origin == s0 && produced == {}
    {
      s, origin, produced := s0, s0, {};
      new;
      Stay(Step, s);
    }

    /** Any run of other requests; ids are not shared. */
    method Interfere(ghost r: RequestId)
      modifies this`s, this`produced
      ensures Reaches(Step, old(s), s)
      ensures r in old(s.entries) <==> r in s.entries
      ensures r in s.entries ==> s.entries[r] == old(s.entries[r])
      ensures r in old(produced) <==> r in produced
    {
      Stay(Step, s);
    }

    method Others(ghost r: RequestId)
      requires Valid()
      modifies this`s, this`produced
      ensures Valid()
      ensures r in old(s.entries) <==> r in s.entries
      ensures r in s.entries ==> s.entries[r] == old(s.entries[r])
      ensures r in old(produced) <==> r in produced
    {
      Interfere(r);
      Concat(Step, origin, old(s), s);
    }

    /** The reserve script, branch by branch. */
    method RunReserve(req: Request) returns (reply: ReserveReply)
      requires Valid()
      modifies this`s
      ensures Valid() && (s, reply) == Reserve(old(s), req)
      ensures var stock, entries := old(s.stock), old(s.entries);
        var valid := req.id != "" && req.product > 0 && req.quantity > 0;
        var same := req.id in entries ==>
          entries[req.id].product == req.product && entries[req.id].quantity == req.quantity;
        var held := req.id in entries && entries[req.id].standing == Reserved;
        var enough := req.product in stock && stock[req.product] >= req.quantity;
        && (reply == Invalid <==> !valid)
        && (reply == Conflict <==> valid && !same)
        && (reply.Already? <==> valid && same && held)
        && (reply == Insufficient <==> valid && same && !held && !enough)
        && (reply.Granted? <==> valid && same && !held && enough)
        && (reply.Already? ==> reply.remaining == if req.product in stock then stock[req.product] else 0)
        && (!reply.Granted? ==> s == old(s))
        && (reply.Granted? ==>
          && reply.remaining == stock[req.product] - req.quantity
          && s.stock == stock[req.product := reply.remaining]
          && s.entries == entries[req.id := Entry(Reserved, req.product, req.quantity)])
    {
      ghost var next := Reserve(s, req).0;
      Extend(Step, origin, s, next);
      if req.id == "" || req.product <= 0 || req.quantity <= 0 { return Invalid; }
      if req.id in s.entries {
        var e := s.entries[req.id];
        if e.product != req.product || e.quantity != req.quantity { return Conflict; }
        if e.standing == Reserved { return Already(Stock(s, req.product)); }
      }
      if req.product !in s.stock { return Insufficient; }
      if s.stock[req.product] < req.quantity { return Insufficient; }
      var remaining := s.stock[req.product] - req.quantity;
      s := s.(stock := s.stock[req.product := remaining]);
      s := s.(entries := s.entries[req.id := Entry(Reserved, req.product, req.quantity)]);
      reply := Granted(remaining);
    }

    /** The restore script, branch by branch. */
    method RunRestore(req: Request) returns (reply: RestoreReply)
      requires Valid()
      modifies this`s
      ensures Valid() && (s, reply) == Restore(old(s), req)
      ensures var stock, entries := old(s.stock), old(s.entries);
        var same := req.id in entries &&
          entries[req.id].product == req.product && entries[req.id].quantity == req.quantity;
        && (reply == NotFound <==> req.id !in entries)
        && (reply == RestoreConflict <==> req.id in entries && !same)
        && (reply == AlreadyRestored <==> same && entries[req.id].standing == Restored)
        && (reply == Done <==> same && entries[req.id].standing == Reserved)
        && (reply != Done ==> s == old(s))
        && (reply == Done ==>
          && s.entries == entries[req.id := Entry(Restored, req.product, req.quantity)]
          && s.stock == stock[req.product :=
               (if req.product in stock then stock[req.product] else 0) + req.quantity])
    {
      ghost var next := Restore(s, req).0;
      Extend(Step, origin, s, next);
      if req.id !in s.entries { return NotFound; }
      var e := s.entries[req.id];
      if e.product != req.product || e.quantity != req.quantity { return RestoreConflict; }
      if e.standing == Restored { return AlreadyRestored; }
      s := s.(stock := s.stock[req.product := Stock(s, req.product) + req.quantity]);
      s := s.(entries := s.entries[req.id := e.(standing := Restored)]);
      reply := Done;
    }

    /**
     * `reserve` is what becomes of the reserve script, `ok` the broker's answer; `restoreActs` says whether the
     * compensation takes effect. A request id submitted once ends reserved if and only if its message was
     * produced, exactly unless its reserve acted unheard or its compensation failed.
     */
    method PlaceOrderAsync(req: Request, reserve: Answer, ok: bool, restoreActs: bool) returns (reply: Reply)
      requires Valid()
      modifies this`s, this`produced
      ensures Valid()
      ensures var why := Reserve(old(s), req).1;
        reply == if reserve != Answered then ReserveFailed
                 else if why in {Invalid, Conflict, Insufficient} then Refused(why)
                 else if ok then Accepted
                 else ProduceFailed
      ensures reply == Place(old(s), old(produced), req, FateOf(reserve, ok, restoreActs)).2
      ensures reply == ReserveFailed ==>
        produced == old(produced) && s == if reserve == Answer.Unheard then Reserve(old(s), req).0 else old(s)
      ensures reply == Accepted ==> IsReserved(s, req.id) && req.id in produced
      ensures reply == ProduceFailed ==> (IsReserved(s, req.id) <==> !restoreActs)
      ensures reply == ProduceFailed ==> (req.id in produced <==> req.id in old(produced))
      ensures reply.Refused? ==> s == old(s) && produced == old(produced)
      ensures req.id !in old(s.entries) && req.id !in old(produced) ==>
        ((IsReserved(s, req.id) <==> req.id in produced) <==>
          !(reply == ProduceFailed && !restoreActs) && !(reserve == Answer.Unheard && Reserve(old(s), req).1.Granted?))
    {
      if reserve == NoEffect { return ReserveFailed; }
      var reserved := RunReserve(req);
      if reserve == Answer.Unheard { return ReserveFailed; }
      if !(reserved.Granted? || reserved.Already?) { return Refused(reserved); }
      Others(req.id);
      if ok {
        produced := produced + {req.id};
        return Accepted;
      }
      if restoreActs {
        var restored := RunRestore(req);
      }
      reply := ProduceFailed;
    }
  }
}
