/**
 * The pre-deduct ledger and its reconcilers as one transition system.
 *
 * A Redis script, a SQL statement and a Kafka append are one step each. Enqueue calls, order
 * landings, crashes and any number of reconcile rounds interleave freely; several calls may carry one
 * request id. Ids, products and instants (milliseconds) are numbers.
 */
module Ledger {
  import opened Runs
  import opened Sums

  type CallId = nat
  type RequestId = nat
  type ProductId = nat
  type RoundId = nat

  datatype EntryState = Pending | Reconciled

  datatype Entry = Entry(request: RequestId, product: ProductId, quantity: int, createdAt: int, state: EntryState)

  datatype Order = Order(product: ProductId, quantity: int)

  /**
   * How far an enqueue call got. `RolledBack` has issued its rollback, `Compensated` has closed its ledger
   * entry too. `Accepted`, `Compensated` and, without a ledger, `RolledBack` are final.
   */
  datatype Phase = Deducted | Recorded | Accepted | Refused | RolledBack | Compensated

  /** The message of a call: in Kafka, turned into the order row, met by the row of another call, or dead-lettered. */
  datatype Message = Unsent | Queued | Landed | Duplicate | Discarded

  /** One enqueue call that passed the stock gate. `returned` says whether its rollback took effect. */
  datatype Call = Call(
    request: RequestId, product: ProductId, quantity: int, createdAt: int, ledgered: bool,
    phase: Phase, returned: bool, alive: bool, message: Message)
  {
    predicate Running() {
      alive && phase != Accepted && phase != Compensated && !(phase == RolledBack && !ledgered)
    }

    predicate InFlight() { Running() || message == Queued }

    /** What only the call itself changes: everything but the fate of its message. */
    function Control(): Call { this.(message := Unsent) }

    /** Stock this call took from Redis and did not give back, and that is no order. */
    function Open(): int {
      (if returned then 0 else quantity) - (if message == Landed then quantity else 0)
    }
  }

  datatype Outcome = Refunded | Young | Settled | AlreadyReconciled

  datatype Report = Report(scanned: nat, refunded: nat, refundedQty: int, young: nat, settled: nat, already: nat) {
    function Count(o: Outcome, quantity: int): Report {
      match o
      case Refunded => this.(scanned := scanned + 1, refunded := refunded + 1, refundedQty := refundedQty + quantity)
      case Young => this.(scanned := scanned + 1, young := young + 1)
      case Settled => this.(scanned := scanned + 1, settled := settled + 1)
      case AlreadyReconciled => this.(scanned := scanned + 1, already := already + 1)
    }
  }

  const EMPTY_REPORT := Report(0, 0, 0, 0, 0, 0)

  /** What a round knows about the entry it is working on: nothing yet, or the answer of its order query. */
  datatype Verdict = Unknown | OrderFound | OrderMissing

  /** Whether the reply of a settle script was lost, which ends the round, and what it would have said. */
  datatype Loss = NoLoss | Loss(outcome: Outcome)

  /**
   * A history variable: the entries whose stock the round's settle scripts gave back, those they closed on an
   * order, and those the round found closed.
   */
  datatype Trace = Trace(gave: seq<Entry>, sold: seq<Entry>, found: seq<Entry>)

  /** One `ReconcileOnce` call: its fixed `now`, the (possibly stale) entries it scanned, its position and report. */
  datatype Round = Round(
    now: int, entries: seq<Entry>, next: nat, verdict: Verdict, report: Report, lost: Loss, trace: Trace)
  {
    /** The entry the round is at. */
    function Current(): Entry
      requires next < |entries|
    {
      entries[next]
    }

    /** What the lost script gave back. */
    function Unreported(): int {
      if lost == Loss(Refunded) && next < |entries| then entries[next].quantity else 0
    }
  }

  /** `refunds` is the history of what reconcilers gave back. */
  datatype State = State(
    window: int, initial: map<ProductId, int>, clock: int,
    stock: map<ProductId, int>, ledger: map<RequestId, Entry>, orders: map<RequestId, Order>,
    calls: map<CallId, Call>, rounds: map<RoundId, Round>, refunds: seq<Entry>)

  datatype Action =
    | Tick(now: int)
    | PreDeduct(c: CallId, r: RequestId, product: ProductId, quantity: int, at: int, ledgered: bool)
    | Record(c: CallId)
    | ProduceOk(c: CallId)
    | ProduceFail(c: CallId)
    | Rollback(c: CallId, acts: bool)
    | SettleOwn(c: CallId)
    | Die(c: CallId)
    | Land(c: CallId)
    | Discard(c: CallId)
    | Begin(w: RoundId, now: int)
    | Fetch(w: RoundId, r: RequestId)
    | Pass(w: RoundId)
    | Query(w: RoundId)
    | Settle(w: RoundId, replies: bool)

  // ----- the Redis scripts

  function Get(m: map<ProductId, int>, p: ProductId): int { if p in m then m[p] else 0 }

  function IncrBy(m: map<ProductId, int>, p: ProductId, q: int): map<ProductId, int> { m[p := Get(m, p) + q] }

  /** Whether `settleScript` acts: the entry exists and is still pending. */
  predicate SettleActs(s: State, r: RequestId) {
    r in s.ledger && s.ledger[r].state == Pending
  }

  /** `settleScript`: give `refund` back and replace the entry by the closed `e`, in one step. */
  function SettleScript(s: State, e: Entry, refund: int): State {
    if !SettleActs(s, e.request) then s
    else s.(stock := if refund > 0 then IncrBy(s.stock, e.product, refund) else s.stock,
            ledger := s.ledger[e.request := e.(state := Reconciled)])
  }

  /** The entry a call writes. */
  function EntryOf(c: Call): Entry { Entry(c.request, c.product, c.quantity, c.createdAt, Pending) }

  // ----- one step

  predicate Sendable(c: Call) {
    c.alive && c.phase == (if c.ledgered then Recorded else Deducted)
  }

  /** The verdict `ReconcileEntry` gives without looking at the orders table. */
  function Early(s: State, w: Round): Outcome
    requires w.next < |w.entries|
  {
    if w.entries[w.next].state != Pending then AlreadyReconciled
    else if w.now - w.entries[w.next].createdAt < s.window then Young
    else Settled
  }

  predicate Deciding(s: State, w: RoundId) {
    w in s.rounds && s.rounds[w].lost == NoLoss && s.rounds[w].next < |s.rounds[w].entries|
  }

  predicate Scanning(s: State, w: RoundId) {
    w in s.rounds && s.rounds[w].next == 0 && s.rounds[w].verdict == Unknown && s.rounds[w].lost == NoLoss
  }

  predicate AliveAt(s: State, c: CallId, phase: Phase) {
    c in s.calls && s.calls[c].alive && s.calls[c].phase == phase
  }

  predicate Enabled(s: State, a: Action) {
    match a
    case Tick(now) => s.clock <= now
    case PreDeduct(c, _, p, q, _, _) => c !in s.calls && q > 0 && p in s.stock && s.stock[p] >= q
    case Record(c) => AliveAt(s, c, Deducted) && s.calls[c].ledgered
    case ProduceOk(c) => c in s.calls && Sendable(s.calls[c])
    case ProduceFail(c) => c in s.calls && Sendable(s.calls[c])
    case Rollback(c, _) => AliveAt(s, c, Refused)
    case SettleOwn(c) => AliveAt(s, c, RolledBack) && s.calls[c].ledgered
    case Die(c) => c in s.calls
    case Land(c) => c in s.calls && s.calls[c].message == Queued
    case Discard(c) => c in s.calls && s.calls[c].message == Queued
    case Begin(w, now) => w !in s.rounds && now <= s.clock
    case Fetch(w, r) => Scanning(s, w) && r in s.ledger
    case Pass(w) => Deciding(s, w) && s.rounds[w].verdict == Unknown && Early(s, s.rounds[w]) != Settled
    case Query(w) => Deciding(s, w) && s.rounds[w].verdict == Unknown && Early(s, s.rounds[w]) == Settled
    case Settle(w, _) => Deciding(s, w) && s.rounds[w].verdict != Unknown
  }

  function WithCall(s: State, c: CallId, call: Call): State { s.(calls := s.calls[c := call]) }

  function WithRound(s: State, w: RoundId, round: Round): State { s.(rounds := s.rounds[w := round]) }

  function Finish(w: Round, o: Outcome): Round
    requires w.next < |w.entries|
  {
    w.(next := w.next + 1, verdict := Unknown, report := w.report.Count(o, w.entries[w.next].quantity))
  }

  /** The round whose settle script ran and whose reply was lost. */
  function Lose(w: Round, o: Outcome): Round { w.(verdict := Unknown, lost := Loss(o)) }

  /** The round with the entry it is at put down as found closed. */
  function FoundClosed(w: Round): Round
    requires w.next < |w.entries|
  {
    w.(trace := w.trace.(found := w.trace.found + [w.entries[w.next]]))
  }

  /** The round with what its settle script does put down. */
  function Traced(s: State, w: Round): Round
    requires w.next < |w.entries|
  {
    var e := w.entries[w.next];
    if !(e.request in s.ledger && s.ledger[e.request].state == Pending) then FoundClosed(w)
    else if w.verdict == OrderFound then w.(trace := w.trace.(sold := w.trace.sold + [e]))
    else w.(trace := w.trace.(gave := w.trace.gave + [e]))
  }

  /** The answer of `ReconcileEntry` after its settle script ran. */
  function Late(s: State, w: Round): Outcome
    requires w.next < |w.entries|
  {
    if !SettleActs(s, w.entries[w.next].request) then AlreadyReconciled
    else if w.verdict == OrderFound then Settled else Refunded
  }

  function RefundOf(w: Round): int
    requires w.next < |w.entries|
  {
    if w.verdict == OrderFound then 0 else w.entries[w.next].quantity
  }

  function Next(s: State, a: Action): State
    requires Enabled(s, a)
  {
    match a
    case Tick(now) => s.(clock := now)
    case PreDeduct(c, r, p, q, at, ledgered) =>
      WithCall(s.(stock := IncrBy(s.stock, p, -q)), c, Call(r, p, q, at, ledgered, Deducted, false, true, Unsent))
    case Record(c) =>
      var call := s.calls[c];
      var s' := if call.request in s.ledger then s else s.(ledger := s.ledger[call.request := EntryOf(call)]);
      WithCall(s', c, call.(phase := Recorded))
    case ProduceOk(c) => WithCall(s, c, s.calls[c].(phase := Accepted, message := Queued))
    case ProduceFail(c) => WithCall(s, c, s.calls[c].(phase := Refused))
    case Rollback(c, acts) =>
      var call := s.calls[c];
      WithCall(if acts then s.(stock := IncrBy(s.stock, call.product, call.quantity)) else s,
               c, call.(phase := RolledBack, returned := acts))
    case SettleOwn(c) =>
      WithCall(SettleScript(s, EntryOf(s.calls[c]), 0), c, s.calls[c].(phase := Compensated))
    case Die(c) => WithCall(s, c, s.calls[c].(alive := false))
    case Land(c) =>
      var call := s.calls[c];
      if call.request in s.orders then WithCall(s, c, call.(message := Duplicate))
      else WithCall(s.(orders := s.orders[call.request := Order(call.product, call.quantity)]), c,
        call.(message := Landed))
    case Discard(c) => WithCall(s, c, s.calls[c].(message := Discarded))
    case Begin(w, now) => WithRound(s, w, Round(now, [], 0, Unknown, EMPTY_REPORT, NoLoss, Trace([], [], [])))
    case Fetch(w, r) => WithRound(s, w, s.rounds[w].(entries := s.rounds[w].entries + [s.ledger[r]]))
    case Pass(w) =>
      var round := s.rounds[w];
      var traced := if round.entries[round.next].state != Pending then FoundClosed(round) else round;
      WithRound(s, w, Finish(traced, Early(s, round)))
    case Query(w) =>
      var e := s.rounds[w].entries[s.rounds[w].next];
      WithRound(s, w, s.rounds[w].(verdict := if e.request in s.orders then OrderFound else OrderMissing))
    case Settle(w, replies) =>
      var round := s.rounds[w];
      var e := round.entries[round.next];
      var s' := SettleScript(s, e, RefundOf(round));
      var o := Late(s, round);
      WithRound(s'.(refunds := if o == Refunded then s.refunds + [e] else s.refunds),
                w, if replies then Finish(Traced(s, round), o) else Lose(Traced(s, round), o))
  }

  ghost predicate Step(s: State, t: State) {
    exists a :: Enabled(s, a) && t == Next(s, a)
  }

  ghost predicate Init(s: State) {
    && s.stock == s.initial
    && s.ledger == map[] && s.orders == map[] && s.calls == map[] && s.rounds == map[] && s.refunds == []
  }

  // ----- what `CheckIdentity` measures

  ghost function OrderedOf(orders: map<RequestId, Order>, p: ProductId): map<RequestId, int> {
    map r | r in orders :: if orders[r].product == p then orders[r].quantity else 0
  }

  ghost function Ordered(s: State, p: ProductId): int { Total(OrderedOf(s.orders, p)) }

  ghost function OpenOf(calls: map<CallId, Call>, p: ProductId): map<CallId, int> {
    map c | c in calls :: if calls[c].product == p then calls[c].Open() else 0
  }

  /** What reconcilers gave back of product `p`. */
  ghost function RefundedQty(refunds: seq<Entry>, p: ProductId): int {
    if refunds == [] then 0
    else
      var n := |refunds| - 1;
      RefundedQty(refunds[..n], p) + (if refunds[n].product == p then refunds[n].quantity else 0)
  }

  /** What reconcilers gave back of all products. */
  ghost function RefundedTotal(refunds: seq<Entry>): int {
    if refunds == [] then 0 else RefundedTotal(refunds[..|refunds| - 1]) + refunds[|refunds| - 1].quantity
  }

  /**
   * `CheckIdentity`'s Leaked, if both reads see one state: initial stock, minus what Redis has, minus what the
   * table sums to.
   */
  ghost function Leaked(s: State, p: ProductId): int {
    Get(s.initial, p) - Get(s.stock, p) - Ordered(s, p)
  }

  // ----- the invariant of every run

  ghost predicate CallOk(c: Call) {
    && c.quantity > 0
    && (c.returned ==> c.phase == RolledBack || c.phase == Compensated)
    && (c.message != Unsent <==> c.phase == Accepted)
  }

  ghost predicate EntryOk(s: State, r: RequestId)
    requires r in s.ledger
  {
    s.ledger[r].request == r && s.ledger[r].quantity > 0
  }

  /** A scanned entry is the entry now in the ledger, unless that was closed in the meantime. */
  ghost predicate SnapshotOk(s: State, e: Entry) {
    && e.quantity > 0
    && e.request in s.ledger
    && (e == s.ledger[e.request] || s.ledger[e.request].state == Reconciled)
  }

  ghost predicate RoundOk(s: State, w: Round) {
    && w.now <= s.clock
    && w.next <= |w.entries|
    && (forall i :: 0 <= i < |w.entries| ==> SnapshotOk(s, w.entries[i]))
    && (w.verdict != Unknown ==> w.next < |w.entries| && Early(s, w) == Settled)
    && (w.verdict == OrderFound ==> w.entries[w.next].request in s.orders)
    && w.report.scanned == w.next
    && w.report.scanned == w.report.refunded + w.report.young + w.report.settled + w.report.already
  }

  /** How many of the entries are pending and within the window. */
  ghost function YoungCount(entries: seq<Entry>, now: int, window: int): nat {
    if entries == [] then 0
    else
      var n := |entries| - 1;
      YoungCount(entries[..n], now, window)
        + (if entries[n].state == Pending && now - entries[n].createdAt < window then 1 else 0)
  }

  function OneIf(b: bool): nat { if b then 1 else 0 }

  /** What the counts of a report mean: a lost reply is the one outcome the report does not have. */
  ghost predicate CountsOk(w: Round, window: int) {
    && w.next <= |w.entries|
    && w.report.young == YoungCount(w.entries[..w.next], w.now, window)
    && w.report.refunded + OneIf(w.lost == Loss(Refunded)) == |w.trace.gave|
    && w.report.refundedQty + w.Unreported() == RefundedTotal(w.trace.gave)
    && w.report.settled + OneIf(w.lost == Loss(Settled)) == |w.trace.sold|
    && w.report.already + OneIf(w.lost == Loss(AlreadyReconciled)) == |w.trace.found|
    && w.lost != Loss(Young)
  }

  ghost predicate TracesOk(s: State) {
    forall w :: w in s.rounds ==> TraceOk(s, s.rounds[w])
  }

  /** What the round put down is so: refunds were given, sold entries have their rows, found ones are closed. */
  ghost predicate TraceOk(s: State, w: Round) {
    && CountsOk(w, s.window)
    && (forall e :: e in w.trace.gave ==> e in s.refunds)
    && (forall e :: e in w.trace.sold ==> e.request in s.orders && Closed(s, e.request))
    && (forall e :: e in w.trace.found ==> Closed(s, e.request))
  }

  ghost predicate Closed(s: State, r: RequestId) { r in s.ledger && s.ledger[r].state == Reconciled }

  /** Every refund closed its entry, and no two were for one request. */
  ghost predicate RefundsOk(s: State) {
    && (forall i :: 0 <= i < |s.refunds| ==> Closed(s, s.refunds[i].request))
    && (forall i, j :: 0 <= i < j < |s.refunds| ==> s.refunds[i].request != s.refunds[j].request)
  }

  ghost predicate Inv(s: State) {
    && (forall c :: c in s.calls ==> CallOk(s.calls[c]))
    && (forall r :: r in s.ledger ==> EntryOk(s, r))
    && (forall w :: w in s.rounds ==> RoundOk(s, s.rounds[w]))
    && RefundsOk(s)
  }

  // ----- what no step undoes

  /** A pending entry never changes but to be closed; a closed one never changes. */
  ghost predicate EntryAged(e: Entry, f: Entry) {
    f == e || (e.state == Pending && f.state == Reconciled && f.request == e.request)
  }

  ghost predicate LedgerGrew(s: State, t: State) {
    forall r :: r in s.ledger ==> r in t.ledger && EntryAged(s.ledger[r], t.ledger[r])
  }

  ghost predicate OrdersGrew(s: State, t: State) {
    forall r :: r in s.orders ==> r in t.orders && t.orders[r] == s.orders[r]
  }

  ghost predicate CallsGrew(s: State, t: State) {
    forall c :: c in s.calls ==> c in t.calls && CallAged(s.calls[c], t.calls[c])
  }

  ghost predicate CallAged(c: Call, d: Call) {
    && d.request == c.request && d.product == c.product && d.quantity == c.quantity
    && d.createdAt == c.createdAt && d.ledgered == c.ledgered
    && (c.returned ==> d.returned)
    && (c.message == Landed ==> d.message == Landed)
  }

  ghost predicate Grew(s: State, t: State) {
    && s.window == t.window && s.initial == t.initial && s.clock <= t.clock
    && LedgerGrew(s, t) && OrdersGrew(s, t) && CallsGrew(s, t) && s.refunds <= t.refunds
  }

  lemma LedgerGrows(s: State, a: Action)
    requires Enabled(s, a) && forall r :: r in s.ledger ==> EntryOk(s, r)
    ensures LedgerGrew(s, Next(s, a))
  {
  }

  lemma CallActionAges(s: State, a: Action)
    requires Enabled(s, a) && IsCallAction(a) && a.c in s.calls && CallOk(s.calls[a.c])
    ensures var t := Next(s, a); a.c in t.calls && CallAged(s.calls[a.c], t.calls[a.c])
  {
  }

  lemma CallsGrow(s: State, a: Action)
    requires Enabled(s, a) && forall c :: c in s.calls ==> CallOk(s.calls[c])
    ensures CallsGrew(s, Next(s, a))
  {
    if IsCallAction(a) {
      CallActionWritesCall(s, a);
      if a.c in s.calls { CallActionAges(s, a); }
    } else {
      RoundActionsSpareCalls(s, a);
    }
  }

  lemma RoundActionsSpareCalls(s: State, a: Action)
    requires Enabled(s, a) && !IsCallAction(a)
    ensures Next(s, a).calls == s.calls
  {
  }

  lemma OrdersGrow(s: State, a: Action)
    requires Enabled(s, a)
    ensures OrdersGrew(s, Next(s, a))
  {
    if !a.Land? { assert Next(s, a).orders == s.orders; }
  }

  lemma RefundsGrow(s: State, a: Action)
    requires Enabled(s, a)
    ensures s.refunds <= Next(s, a).refunds
  {
    if !a.Settle? { OnlySettlesRefund(s, a); }
  }

  lemma ConfigurationKept(s: State, a: Action)
    requires Enabled(s, a)
    ensures var t := Next(s, a); s.window == t.window && s.initial == t.initial && s.clock <= t.clock
  {
  }

  lemma StepGrows(s: State, a: Action)
    requires Inv(s) && Enabled(s, a)
    ensures Grew(s, Next(s, a))
  {
    LedgerGrows(s, a);
    CallsGrow(s, a);
    OrdersGrow(s, a);
    RefundsGrow(s, a);
    ConfigurationKept(s, a);
  }

  // ----- every step keeps the invariant

  lemma StepKeepsCalls(s: State, a: Action)
    requires Enabled(s, a) && forall c :: c in s.calls ==> CallOk(s.calls[c])
    ensures forall c :: c in Next(s, a).calls ==> CallOk(Next(s, a).calls[c])
  {
  }

  lemma StepKeepsEntries(s: State, a: Action)
    requires Inv(s) && Enabled(s, a)
    ensures forall r :: r in Next(s, a).ledger ==> EntryOk(Next(s, a), r)
  {
    var t := Next(s, a);
    forall r | r in t.ledger ensures EntryOk(t, r) {
      if a.Settle? {
        SettleKeepsEntry(s, a, r);
      } else {
        CallKeepsEntry(s, a, r);
      }
    }
  }

  lemma CallKeepsEntry(s: State, a: Action, r: RequestId)
    requires Enabled(s, a) && !a.Settle? && r in Next(s, a).ledger
    requires r in s.ledger ==> EntryOk(s, r)
    requires IsCallAction(a) && a.c in s.calls ==> CallOk(s.calls[a.c])
    ensures EntryOk(Next(s, a), r)
  {
  }

  lemma SettleKeepsEntry(s: State, a: Action, r: RequestId)
    requires Enabled(s, a) && a.Settle? && RoundOk(s, s.rounds[a.w]) && r in Next(s, a).ledger
    requires r in s.ledger ==> EntryOk(s, r)
    ensures EntryOk(Next(s, a), r)
  {
    CurrentIsSnapshot(s, a.w);
  }

  lemma SnapshotPersists(s: State, t: State, e: Entry)
    requires SnapshotOk(s, e) && LedgerGrew(s, t)
    ensures SnapshotOk(t, e)
  {
    assert EntryAged(s.ledger[e.request], t.ledger[e.request]);
  }

  lemma RoundOkPersists(s: State, t: State, w: Round)
    requires RoundOk(s, w) && Grew(s, t)
    ensures RoundOk(t, w)
  {
    forall i | 0 <= i < |w.entries| ensures SnapshotOk(t, w.entries[i]) {
      SnapshotPersists(s, t, w.entries[i]);
    }
  }

  predicate IsRoundAction(a: Action) { a.Fetch? || a.Pass? || a.Query? || a.Settle? }

  predicate ActsOn(a: Action, w: RoundId) { IsRoundAction(a) && a.w == w }

  /** The trace after the round put down `o` for the entry it is at. */
  ghost function TraceOf(w: Round, o: Outcome): Round
    requires w.next < |w.entries|
  {
    match o
    case Refunded => w.(trace := w.trace.(gave := w.trace.gave + [w.Current()]))
    case Settled => w.(trace := w.trace.(sold := w.trace.sold + [w.Current()]))
    case AlreadyReconciled => FoundClosed(w)
    case Young => w
  }

  /** An outcome is counted with its trace, or lost with it. */
  lemma OutcomeCounts(w: Round, o: Outcome, replies: bool, window: int)
    requires CountsOk(w, window) && w.lost == NoLoss && w.next < |w.entries| && (replies || o != Young)
    requires o == Young <==> w.Current().state == Pending && w.now - w.Current().createdAt < window
    ensures CountsOk(if replies then Finish(TraceOf(w, o), o) else Lose(TraceOf(w, o), o), window)
  {
    NextPrefix(w);
    YoungAppend(w.entries[..w.next], w.Current(), w.now, window);
    RefundAppend(w.trace.gave, w.Current(), 0);
  }

  lemma CurrentIsSnapshot(s: State, w: RoundId)
    requires Deciding(s, w) && RoundOk(s, s.rounds[w])
    ensures SnapshotOk(s, s.rounds[w].entries[s.rounds[w].next])
  {
  }

  /** After its settle script ran, an entry is closed; if the script gave stock back, the refunds say so. */
  lemma SettleCloses(s: State, w: RoundId, replies: bool)
    requires Enabled(s, Settle(w, replies)) && SnapshotOk(s, s.rounds[w].entries[s.rounds[w].next])
    ensures var t, e := Next(s, Settle(w, replies)), s.rounds[w].entries[s.rounds[w].next];
      && t.orders == s.orders && Closed(t, e.request)
      && t.refunds == s.refunds + (if Late(s, s.rounds[w]) == Refunded then [e] else [])
  {
  }

  lemma RoundActionKeepsRound(s: State, a: Action)
    requires Enabled(s, a) && IsRoundAction(a)
    requires var t := Next(s, a); RoundOk(t, s.rounds[a.w]) && t.window == s.window
    requires a.Fetch? ==> RoundOk(s, s.rounds[a.w]) && EntryOk(s, a.r)
    ensures var t := Next(s, a); RoundOk(t, t.rounds[a.w])
  {
    match a
    case Fetch(w, r) => FetchKeepsPosition(s, w, r);
    case Settle(w, replies) => SettleWritesRound(s, w, replies);
    case _ =>
  }

  lemma FetchKeepsPosition(s: State, w: RoundId, r: RequestId)
    requires Enabled(s, Fetch(w, r)) && RoundOk(s, s.rounds[w]) && EntryOk(s, r)
    ensures var t := Next(s, Fetch(w, r)); RoundOk(t, t.rounds[w])
  {
    var t := Next(s, Fetch(w, r));
    forall i | 0 <= i < |t.rounds[w].entries| ensures SnapshotOk(t, t.rounds[w].entries[i]) {
      if i < |s.rounds[w].entries| { assert SnapshotOk(s, s.rounds[w].entries[i]); }
    }
  }

  lemma ActedRoundStaysOk(s: State, a: Action)
    requires Inv(s) && Enabled(s, a) && IsRoundAction(a)
    ensures RoundOk(Next(s, a), Next(s, a).rounds[a.w])
  {
    StepGrows(s, a);
    if a.Fetch? { assert EntryOk(s, a.r); }
    RoundOkPersists(s, Next(s, a), s.rounds[a.w]);
    RoundActionKeepsRound(s, a);
  }

  lemma OtherRoundsAreSpared(s: State, a: Action, w: RoundId)
    requires Enabled(s, a) && w in s.rounds && !ActsOn(a, w)
    ensures w in Next(s, a).rounds && Next(s, a).rounds[w] == s.rounds[w]
  {
  }

  lemma NewRoundIsOk(s: State, a: Action)
    requires Enabled(s, a) && a.Begin?
    ensures RoundOk(Next(s, a), Next(s, a).rounds[a.w])
  {
  }

  lemma StepKeepsRound(s: State, a: Action, w: RoundId)
    requires Inv(s) && Enabled(s, a) && w in Next(s, a).rounds
    ensures RoundOk(Next(s, a), Next(s, a).rounds[w])
  {
    if w in s.rounds && !ActsOn(a, w) {
      StepGrows(s, a);
      OtherRoundsAreSpared(s, a, w);
      RoundOkPersists(s, Next(s, a), s.rounds[w]);
    } else if a.Begin? {
      NewRoundIsOk(s, a);
    } else {
      OnlyBeginAddsRounds(s, a, w);
      ActedRoundStaysOk(s, a);
    }
  }

  lemma OnlyBeginAddsRounds(s: State, a: Action, w: RoundId)
    requires Enabled(s, a) && !a.Begin? && w in Next(s, a).rounds
    ensures w in s.rounds
  {
  }

  lemma StepKeepsRounds(s: State, a: Action)
    requires Inv(s) && Enabled(s, a)
    ensures forall w :: w in Next(s, a).rounds ==> RoundOk(Next(s, a), Next(s, a).rounds[w])
  {
    forall w | w in Next(s, a).rounds ensures RoundOk(Next(s, a), Next(s, a).rounds[w]) { StepKeepsRound(s, a, w); }
  }

  lemma ClosedPersists(s: State, t: State, r: RequestId)
    requires Closed(s, r) && LedgerGrew(s, t)
    ensures Closed(t, r)
  {
    assert EntryAged(s.ledger[r], t.ledger[r]);
  }

  lemma OnlySettlesRefund(s: State, a: Action)
    requires Enabled(s, a) && !a.Settle?
    ensures Next(s, a).refunds == s.refunds
  {
  }

  lemma RefundsOkPersists(s: State, t: State)
    requires RefundsOk(s) && LedgerGrew(s, t) && t.refunds == s.refunds
    ensures RefundsOk(t)
  {
    forall i | 0 <= i < |t.refunds| ensures Closed(t, t.refunds[i].request) {
      ClosedPersists(s, t, s.refunds[i].request);
    }
  }

  lemma RefundIsNew(s: State, t: State, e: Entry)
    requires RefundsOk(s) && LedgerGrew(s, t) && t.refunds == s.refunds + [e]
    requires !Closed(s, e.request) && Closed(t, e.request)
    ensures RefundsOk(t)
  {
    forall i | 0 <= i < |s.refunds| ensures Closed(t, t.refunds[i].request) && t.refunds[i].request != e.request {
      ClosedPersists(s, t, s.refunds[i].request);
    }
  }

  lemma StepKeepsRefunds(s: State, a: Action)
    requires Inv(s) && Enabled(s, a)
    ensures RefundsOk(Next(s, a))
  {
    LedgerGrows(s, a);
    if a.Settle? {
      CurrentIsSnapshot(s, a.w);
      SettleCloses(s, a.w, a.replies);
    } else {
      OnlySettlesRefund(s, a);
    }
    var t := Next(s, a);
    if t.refunds == s.refunds {
      RefundsOkPersists(s, t);
    } else {
      RefundIsNew(s, t, s.rounds[a.w].entries[s.rounds[a.w].next]);
    }
  }

  lemma StepKeepsInv(s: State, a: Action)
    requires Inv(s) && Enabled(s, a)
    ensures Inv(Next(s, a))
  {
    StepKeepsCalls(s, a);
    StepKeepsEntries(s, a);
    StepKeepsRounds(s, a);
    StepKeepsRefunds(s, a);
  }

  // ----- the accounts

  ghost function OpenAt(calls: map<CallId, Call>, c: CallId, p: ProductId): int {
    if c in calls && calls[c].product == p then calls[c].Open() else 0
  }

  ghost function OrderedAt(orders: map<RequestId, Order>, r: RequestId, p: ProductId): int {
    if r in orders && orders[r].product == p then orders[r].quantity else 0
  }

  /** The leak is what calls hold open, less what reconcilers gave back. */
  ghost predicate Balanced(s: State) {
    forall p :: Leaked(s, p) == Total(OpenOf(s.calls, p)) - RefundedQty(s.refunds, p)
  }

  lemma OpenWrite(calls: map<CallId, Call>, c: CallId, call: Call, p: ProductId)
    ensures var after := calls[c := call];
      Total(OpenOf(after, p)) == Total(OpenOf(calls, p)) + OpenAt(after, c, p) - OpenAt(calls, c, p)
  {
    var after := calls[c := call];
    assert OpenOf(after, p) == OpenOf(calls, p)[c := OpenAt(after, c, p)];
    TotalWrite(OpenOf(calls, p), c, OpenAt(after, c, p));
  }

  lemma OrderedWrite(orders: map<RequestId, Order>, r: RequestId, o: Order, p: ProductId)
    ensures var after := orders[r := o];
      Total(OrderedOf(after, p)) == Total(OrderedOf(orders, p)) + OrderedAt(after, r, p) - OrderedAt(orders, r, p)
  {
    var after := orders[r := o];
    assert OrderedOf(after, p) == OrderedOf(orders, p)[r := OrderedAt(after, r, p)];
    TotalWrite(OrderedOf(orders, p), r, OrderedAt(after, r, p));
  }

  lemma RefundAppend(refunds: seq<Entry>, e: Entry, p: ProductId)
    ensures RefundedQty(refunds + [e], p) == RefundedQty(refunds, p) + (if e.product == p then e.quantity else 0)
    ensures RefundedTotal(refunds + [e]) == RefundedTotal(refunds) + e.quantity
  {
    assert (refunds + [e])[..|refunds|] == refunds;
  }

  predicate IsCallAction(a: Action) {
    || a.PreDeduct? || a.Record? || a.ProduceOk? || a.ProduceFail? || a.Rollback? || a.SettleOwn?
    || a.Die? || a.Land? || a.Discard?
  }

  /** The step moves stock, orders and open quantity by amounts that cancel. */
  ghost predicate Cancels(s: State, t: State, c: CallId, r: RequestId, p: ProductId) {
    Get(s.stock, p) - Get(t.stock, p) + OrderedAt(s.orders, r, p) - OrderedAt(t.orders, r, p)
      == OpenAt(t.calls, c, p) - OpenAt(s.calls, c, p)
  }

  lemma PreDeductCancels(s: State, a: Action, p: ProductId)
    requires a.PreDeduct? && Enabled(s, a)
    ensures Cancels(s, Next(s, a), a.c, a.r, p)
  {
  }

  lemma RollbackCancels(s: State, c: CallId, acts: bool, p: ProductId)
    requires Enabled(s, Rollback(c, acts)) && CallOk(s.calls[c])
    ensures Cancels(s, Next(s, Rollback(c, acts)), c, s.calls[c].request, p)
  {
  }

  lemma LandCancels(s: State, c: CallId, p: ProductId)
    requires Enabled(s, Land(c))
    ensures Cancels(s, Next(s, Land(c)), c, s.calls[c].request, p)
  {
    var call := s.calls[c];
    if call.request in s.orders {
      assert Next(s, Land(c)) == WithCall(s, c, call.(message := Duplicate));
    } else {
      var orders := s.orders[call.request := Order(call.product, call.quantity)];
      assert Next(s, Land(c)) == WithCall(s.(orders := orders), c, call.(message := Landed));
    }
  }

  lemma OtherCallActionsMoveNothing(s: State, a: Action, p: ProductId)
    requires Enabled(s, a) && IsCallAction(a) && !a.PreDeduct? && !a.Rollback? && !a.Land?
    requires CallOk(s.calls[a.c])
    ensures var t := Next(s, a);
      t.stock == s.stock && t.orders == s.orders && OpenAt(t.calls, a.c, p) == OpenAt(s.calls, a.c, p)
  {
  }

  /** A call's own step, or the fate of its message, cancels. */
  lemma CallActionCancels(s: State, a: Action, p: ProductId)
    requires Enabled(s, a) && IsCallAction(a) && (a.c in s.calls ==> CallOk(s.calls[a.c]))
    ensures Cancels(s, Next(s, a), a.c, RequestOf(s, a), p)
  {
    match a
    case PreDeduct(_, _, _, _, _, _) => PreDeductCancels(s, a, p);
    case Rollback(c, acts) => RollbackCancels(s, c, acts, p);
    case Land(c) => LandCancels(s, c, p);
    case _ => OtherCallActionsMoveNothing(s, a, p);
  }

  function RequestOf(s: State, a: Action): RequestId
    requires Enabled(s, a) && IsCallAction(a)
  {
    if a.PreDeduct? then a.r else s.calls[a.c].request
  }

  lemma CallActionWritesCall(s: State, a: Action)
    requires Enabled(s, a) && IsCallAction(a)
    ensures var t := Next(s, a);
      a.c in t.calls && t.calls == s.calls[a.c := t.calls[a.c]] && t.initial == s.initial && t.refunds == s.refunds
  {
  }

  lemma CallActionWritesOrder(s: State, a: Action)
    requires Enabled(s, a) && IsCallAction(a)
    ensures var t := Next(s, a); var r := RequestOf(s, a);
      t.orders == s.orders || (r in t.orders && t.orders == s.orders[r := t.orders[r]])
  {
    if !a.Land? { assert Next(s, a).orders == s.orders; }
  }

  lemma CallActionBalances(s: State, a: Action, p: ProductId)
    requires Enabled(s, a) && IsCallAction(a) && (a.c in s.calls ==> CallOk(s.calls[a.c]))
    ensures var t := Next(s, a);
      Leaked(t, p) - Leaked(s, p) == Total(OpenOf(t.calls, p)) - Total(OpenOf(s.calls, p)) && t.refunds == s.refunds
  {
    var t := Next(s, a);
    var r := RequestOf(s, a);
    CallActionWritesCall(s, a);
    CallActionWritesOrder(s, a);
    CallActionCancels(s, a, p);
    OpenWrite(s.calls, a.c, t.calls[a.c], p);
    if t.orders != s.orders { OrderedWrite(s.orders, r, t.orders[r], p); }
  }

  lemma SettleMoves(s: State, w: RoundId, replies: bool)
    requires Enabled(s, Settle(w, replies)) && RoundOk(s, s.rounds[w])
    ensures var t, e := Next(s, Settle(w, replies)), s.rounds[w].entries[s.rounds[w].next];
      && t.calls == s.calls && t.orders == s.orders && t.initial == s.initial
      && if Late(s, s.rounds[w]) == Refunded
         then t.stock == IncrBy(s.stock, e.product, e.quantity) && t.refunds == s.refunds + [e]
         else t.stock == s.stock && t.refunds == s.refunds
  {
    assert SnapshotOk(s, s.rounds[w].entries[s.rounds[w].next]);
  }

  /** A settle script gives back exactly what it appends to the refunds, however stale the caller's entry is. */
  lemma SettleBalances(s: State, t: State, w: RoundId, replies: bool, p: ProductId)
    requires Enabled(s, Settle(w, replies)) && RoundOk(s, s.rounds[w]) && t == Next(s, Settle(w, replies))
    ensures t.calls == s.calls && t.orders == s.orders && t.initial == s.initial
    ensures Get(t.stock, p) - Get(s.stock, p) == RefundedQty(t.refunds, p) - RefundedQty(s.refunds, p)
  {
    SettleMoves(s, w, replies);
    RefundAppend(s.refunds, s.rounds[w].entries[s.rounds[w].next], p);
  }

  lemma StepKeepsBalance(s: State, a: Action)
    requires Inv(s) && Enabled(s, a) && Balanced(s)
    ensures Balanced(Next(s, a))
  {
    var t := Next(s, a);
    forall p ensures Leaked(t, p) == Total(OpenOf(t.calls, p)) - RefundedQty(t.refunds, p) {
      assert Leaked(s, p) == Total(OpenOf(s.calls, p)) - RefundedQty(s.refunds, p);
      StepBalances(s, a, p);
    }
  }

  lemma StepBalances(s: State, a: Action, p: ProductId)
    requires Inv(s) && Enabled(s, a)
    ensures var t := Next(s, a);
      Leaked(t, p) - Leaked(s, p)
        == Total(OpenOf(t.calls, p)) - Total(OpenOf(s.calls, p))
          - (RefundedQty(t.refunds, p) - RefundedQty(s.refunds, p))
  {
    if IsCallAction(a) {
      CallActionBalances(s, a, p);
    } else if a.Settle? {
      SettleBalances(s, Next(s, a), a.w, a.replies, p);
    } else {
      OtherActionsMoveNoStock(s, a);
    }
  }

  lemma OtherActionsMoveNoStock(s: State, a: Action)
    requires Enabled(s, a) && !IsCallAction(a) && !a.Settle?
    ensures var t := Next(s, a);
      t.stock == s.stock && t.orders == s.orders && t.calls == s.calls && t.refunds == s.refunds
      && t.initial == s.initial
  {
  }

  // ----- reports

  ghost function ReportedOf(rounds: map<RoundId, Round>): map<RoundId, int> {
    map w | w in rounds :: rounds[w].report.refundedQty
  }

  ghost function UnreportedOf(rounds: map<RoundId, Round>): map<RoundId, int> {
    map w | w in rounds :: rounds[w].Unreported()
  }

  /** How often the reports say "refunded". */
  ghost function TimesOf(rounds: map<RoundId, Round>): map<RoundId, int> {
    map w | w in rounds :: rounds[w].report.refunded
  }

  ghost function UnheardOf(rounds: map<RoundId, Round>): map<RoundId, int> {
    map w | w in rounds :: OneIf(rounds[w].lost == Loss(Refunded))
  }

  /** The reports of all rounds, however they ended, name what reconcilers gave back, but for lost replies. */
  ghost predicate Reported(s: State) {
    && Total(ReportedOf(s.rounds)) + Total(UnreportedOf(s.rounds)) == RefundedTotal(s.refunds)
    && Total(TimesOf(s.rounds)) + Total(UnheardOf(s.rounds)) == |s.refunds|
  }

  ghost function Said(rounds: map<RoundId, Round>, w: RoundId): int {
    if w in rounds then rounds[w].report.refundedQty + rounds[w].Unreported() else 0
  }

  ghost function SaidTimes(rounds: map<RoundId, Round>, w: RoundId): int {
    if w in rounds then rounds[w].report.refunded + OneIf(rounds[w].lost == Loss(Refunded)) else 0
  }

  lemma ReportedWrite(rounds: map<RoundId, Round>, w: RoundId, round: Round)
    ensures var after := rounds[w := round];
      Total(ReportedOf(after)) + Total(UnreportedOf(after))
        == Total(ReportedOf(rounds)) + Total(UnreportedOf(rounds)) + Said(after, w) - Said(rounds, w)
  {
    assert ReportedOf(rounds[w := round]) == ReportedOf(rounds)[w := round.report.refundedQty];
    assert UnreportedOf(rounds[w := round]) == UnreportedOf(rounds)[w := round.Unreported()];
    TotalWrite(ReportedOf(rounds), w, round.report.refundedQty);
    TotalWrite(UnreportedOf(rounds), w, round.Unreported());
  }

  lemma TimesWrite(rounds: map<RoundId, Round>, w: RoundId, round: Round)
    ensures var after := rounds[w := round];
      Total(TimesOf(after)) + Total(UnheardOf(after))
        == Total(TimesOf(rounds)) + Total(UnheardOf(rounds)) + SaidTimes(after, w) - SaidTimes(rounds, w)
  {
    var unheard := OneIf(round.lost == Loss(Refunded));
    assert TimesOf(rounds[w := round]) == TimesOf(rounds)[w := round.report.refunded];
    assert UnheardOf(rounds[w := round]) == UnheardOf(rounds)[w := unheard];
    TotalWrite(TimesOf(rounds), w, round.report.refunded);
    TotalWrite(UnheardOf(rounds), w, unheard);
  }

  lemma SettleSays(s: State, w: RoundId, replies: bool)
    requires Enabled(s, Settle(w, replies))
    ensures var t := Next(s, Settle(w, replies));
      && t.rounds == s.rounds[w := t.rounds[w]]
      && Said(t.rounds, w) - Said(s.rounds, w) == RefundedTotal(t.refunds) - RefundedTotal(s.refunds)
      && SaidTimes(t.rounds, w) - SaidTimes(s.rounds, w) == |t.refunds| - |s.refunds|
  {
    RefundAppend(s.refunds, s.rounds[w].Current(), 0);
  }

  lemma QuietActionsSayNothing(s: State, a: Action)
    requires Enabled(s, a) && (a.Begin? || a.Fetch? || a.Pass? || a.Query?)
    ensures var t := Next(s, a);
      && t.rounds == s.rounds[a.w := t.rounds[a.w]] && t.refunds == s.refunds
      && Said(t.rounds, a.w) == Said(s.rounds, a.w) && SaidTimes(t.rounds, a.w) == SaidTimes(s.rounds, a.w)
  {
  }

  lemma StepKeepsReported(s: State, a: Action)
    requires Enabled(s, a) && Reported(s)
    ensures Reported(Next(s, a))
  {
    var t := Next(s, a);
    if a.Settle? || a.Begin? || a.Fetch? || a.Pass? || a.Query? {
      if a.Settle? {
        SettleSays(s, a.w, a.replies);
      } else {
        QuietActionsSayNothing(s, a);
      }
      ReportedWrite(s.rounds, a.w, t.rounds[a.w]);
      TimesWrite(s.rounds, a.w, t.rounds[a.w]);
    } else {
      OtherActionsSpareRounds(s, a);
    }
  }

  lemma OtherActionsSpareRounds(s: State, a: Action)
    requires Enabled(s, a) && (IsCallAction(a) || a.Tick?)
    ensures Next(s, a).rounds == s.rounds && Next(s, a).refunds == s.refunds
  {
  }

  // ----- what the counts of a report mean

  lemma TracePersists(s: State, t: State, w: Round)
    requires TraceOk(s, w) && Grew(s, t)
    ensures TraceOk(t, w)
  {
    forall e | e in w.trace.sold ensures e.request in t.orders && Closed(t, e.request) {
      ClosedPersists(s, t, e.request);
    }
    forall e | e in w.trace.found ensures Closed(t, e.request) { ClosedPersists(s, t, e.request); }
  }

  lemma YoungAppend(entries: seq<Entry>, e: Entry, now: int, window: int)
    ensures YoungCount(entries + [e], now, window)
      == YoungCount(entries, now, window) + OneIf(e.state == Pending && now - e.createdAt < window)
  {
    assert (entries + [e])[..|entries|] == entries;
  }

  lemma NextPrefix(w: Round)
    requires w.next < |w.entries|
    ensures w.entries[..w.next + 1] == w.entries[..w.next] + [w.entries[w.next]]
  {
  }

  lemma PassCounts(s: State, w: RoundId)
    requires Enabled(s, Pass(w)) && CountsOk(s.rounds[w], s.window)
    ensures CountsOk(Next(s, Pass(w)).rounds[w], s.window)
  {
    var round := s.rounds[w];
    OutcomeCounts(round, Early(s, round), true, s.window);
    assert Next(s, Pass(w)).rounds[w] == Finish(TraceOf(round, Early(s, round)), Early(s, round));
  }

  lemma SettleCounts(s: State, w: RoundId, replies: bool)
    requires Enabled(s, Settle(w, replies)) && CountsOk(s.rounds[w], s.window) && Early(s, s.rounds[w]) == Settled
    ensures CountsOk(Next(s, Settle(w, replies)).rounds[w], s.window)
  {
    var round := s.rounds[w];
    var o := Late(s, round);
    OutcomeCounts(round, o, replies, s.window);
    assert Traced(s, round) == TraceOf(round, o);
    SettleWritesRound(s, w, replies);
  }

  lemma SettleWritesRound(s: State, w: RoundId, replies: bool)
    requires Enabled(s, Settle(w, replies))
    ensures var round, o := s.rounds[w], Late(s, s.rounds[w]);
      Next(s, Settle(w, replies)).rounds[w]
        == if replies then Finish(Traced(s, round), o) else Lose(Traced(s, round), o)
  {
  }

  lemma FetchCounts(s: State, w: RoundId, r: RequestId)
    requires Enabled(s, Fetch(w, r)) && CountsOk(s.rounds[w], s.window)
    ensures CountsOk(Next(s, Fetch(w, r)).rounds[w], s.window)
  {
  }

  lemma RoundActionCounts(s: State, a: Action)
    requires Enabled(s, a) && IsRoundAction(a) && RoundOk(s, s.rounds[a.w]) && CountsOk(s.rounds[a.w], s.window)
    ensures CountsOk(Next(s, a).rounds[a.w], s.window)
  {
    match a
    case Fetch(w, r) => FetchCounts(s, w, r);
    case Pass(w) => PassCounts(s, w);
    case Settle(w, replies) => SettleCounts(s, w, replies);
    case Query(_) =>
  }

  lemma SettleTraces(s: State, w: RoundId, replies: bool)
    requires Enabled(s, Settle(w, replies)) && RoundOk(s, s.rounds[w]) && CountsOk(s.rounds[w], s.window)
    requires TraceOk(Next(s, Settle(w, replies)), s.rounds[w])
    ensures var t := Next(s, Settle(w, replies)); TraceOk(t, t.rounds[w])
  {
    var t, round := Next(s, Settle(w, replies)), s.rounds[w];
    var e, trace := round.Current(), Next(s, Settle(w, replies)).rounds[w].trace;
    CurrentIsSnapshot(s, w);
    SettleCounts(s, w, replies);
    SettleCloses(s, w, replies);
    SettleWritesRound(s, w, replies);
    assert t.rounds[w].trace == Traced(s, round).trace;
    forall x | x in trace.gave ensures x in t.refunds {
      if x !in round.trace.gave { assert x == e; }
    }
    forall x | x in trace.sold ensures x.request in t.orders && Closed(t, x.request) {
      if x !in round.trace.sold { assert x == e; }
    }
  }

  lemma PassTraces(s: State, w: RoundId)
    requires Enabled(s, Pass(w)) && RoundOk(s, s.rounds[w]) && TraceOk(s, s.rounds[w])
    ensures var t := Next(s, Pass(w)); TraceOk(t, t.rounds[w])
  {
    assert SnapshotOk(s, s.rounds[w].Current());
    PassCounts(s, w);
  }

  lemma RoundActionTraces(s: State, a: Action)
    requires Enabled(s, a) && IsRoundAction(a) && RoundOk(s, s.rounds[a.w]) && TraceOk(s, s.rounds[a.w])
    requires TraceOk(Next(s, a), s.rounds[a.w]) && Next(s, a).window == s.window
    ensures var t := Next(s, a); TraceOk(t, t.rounds[a.w])
  {
    match a
    case Settle(w, replies) => SettleTraces(s, w, replies);
    case Pass(w) => PassTraces(s, w);
    case _ => RoundActionCounts(s, a);
  }

  lemma StepKeepsTrace(s: State, a: Action, w: RoundId)
    requires Inv(s) && TracesOk(s) && Enabled(s, a) && w in Next(s, a).rounds
    ensures TraceOk(Next(s, a), Next(s, a).rounds[w])
  {
    if w in s.rounds {
      StepGrows(s, a);
      TracePersists(s, Next(s, a), s.rounds[w]);
      if ActsOn(a, w) { RoundActionTraces(s, a); } else { OtherRoundsAreSpared(s, a, w); }
    } else {
      NewRoundIsBlank(s, a, w);
    }
  }

  lemma NewRoundIsBlank(s: State, a: Action, w: RoundId)
    requires Enabled(s, a) && w in Next(s, a).rounds && w !in s.rounds
    ensures TraceOk(Next(s, a), Next(s, a).rounds[w])
  {
  }

  lemma StepKeepsTraces(s: State, a: Action)
    requires Inv(s) && TracesOk(s) && Enabled(s, a)
    ensures TracesOk(Next(s, a))
  {
    forall w | w in Next(s, a).rounds ensures TraceOk(Next(s, a), Next(s, a).rounds[w]) { StepKeepsTrace(s, a, w); }
  }

  // ----- every run

  ghost predicate Safe(s: State) {
    Inv(s) && Balanced(s) && Reported(s)
  }

  lemma InitSafe(s: State)
    requires Init(s)
    ensures Safe(s)
  {
    forall p ensures Leaked(s, p) == Total(OpenOf(s.calls, p)) {
      assert OrderedOf(s.orders, p) == map[] && OpenOf(s.calls, p) == map[];
    }
    assert ReportedOf(s.rounds) == map[] && UnreportedOf(s.rounds) == map[];
    assert TimesOf(s.rounds) == map[] && UnheardOf(s.rounds) == map[];
  }

  lemma StepKeepsSafe(s: State, t: State)
    requires Safe(s) && Step(s, t)
    ensures Safe(t)
  {
    var a :| Enabled(s, a) && t == Next(s, a);
    StepKeepsInv(s, a);
    StepKeepsBalance(s, a);
    StepKeepsReported(s, a);
  }

  /**
   * Whatever interleaves, repeats, fails, crashes or comes late: the leak is exactly the stock calls hold
   * open less what reconcilers gave back, reconcilers give back at most once per request, and the reports of
   * all rounds sum to what was given back, and count how often, less what was given back under a lost reply.
   */
  lemma EveryRunIsAccounted(s: State, t: State)
    requires Init(s) && Reaches(Step, s, t)
    ensures Safe(t)
    ensures forall p :: Leaked(t, p) == Total(OpenOf(t.calls, p)) - RefundedQty(t.refunds, p)
    ensures forall i, j :: 0 <= i < j < |t.refunds| ==> t.refunds[i].request != t.refunds[j].request
    ensures Total(ReportedOf(t.rounds)) + Total(UnreportedOf(t.rounds)) == RefundedTotal(t.refunds)
    ensures Total(TimesOf(t.rounds)) + Total(UnheardOf(t.rounds)) == |t.refunds|
    ensures forall w :: w in t.rounds ==>
      var o := t.rounds[w].report; o.scanned == o.refunded + o.young + o.settled + o.already
  {
    InitSafe(s);
    forall x, y | Safe(x) && Step(x, y) ensures Safe(y) { StepKeepsSafe(x, y); }
    Invariant(Step, Safe, s, t);
    forall w | w in t.rounds
      ensures var o := t.rounds[w].report; o.scanned == o.refunded + o.young + o.settled + o.already
    {
      ReportAddsUp(t, t.rounds[w]);
    }
    RefundsAreSingle(t);
  }

  ghost predicate SafeAndTraced(s: State) {
    Safe(s) && TracesOk(s)
  }

  /**
   * What the counts of every report mean: "young" counts the entries that were pending and within the window,
   * and, but for one lost reply, "refunded" counts, and sums, the refunds of the round, "settled" the entries
   * it closed on an order row, and "already reconciled" those it found closed.
   */
  lemma EveryReportIsTrue(s: State, t: State, w: RoundId)
    requires Init(s) && Reaches(Step, s, t) && w in t.rounds
    ensures TraceOk(t, t.rounds[w])
  {
    InitSafe(s);
    forall x, y | SafeAndTraced(x) && Step(x, y) ensures SafeAndTraced(y) {
      var a :| Enabled(x, a) && y == Next(x, a);
      StepKeepsSafe(x, y);
      StepKeepsTraces(x, a);
    }
    Invariant(Step, SafeAndTraced, s, t);
  }

  lemma ReportAddsUp(s: State, w: Round)
    requires RoundOk(s, w)
    ensures var o := w.report; o.scanned == o.refunded + o.young + o.settled + o.already
  {
  }

  lemma RefundsAreSingle(s: State)
    requires RefundsOk(s)
    ensures forall i, j :: 0 <= i < j < |s.refunds| ==> s.refunds[i].request != s.refunds[j].request
  {
  }

  lemma GrewTwice(s: State, t: State, u: State)
    requires Grew(s, t) && Grew(t, u)
    ensures Grew(s, u)
  {
    forall r | r in s.ledger ensures r in u.ledger && EntryAged(s.ledger[r], u.ledger[r]) {
      assert EntryAged(s.ledger[r], t.ledger[r]) && EntryAged(t.ledger[r], u.ledger[r]);
    }
    forall c | c in s.calls ensures c in u.calls && CallAged(s.calls[c], u.calls[c]) {
      assert CallAged(s.calls[c], t.calls[c]) && CallAged(t.calls[c], u.calls[c]);
    }
  }

  lemma RunGrows(s: State, t: State)
    requires Safe(s) && Reaches(Step, s, t)
    ensures Safe(t) && Grew(s, t)
  {
    forall x, y | Safe(x) && Step(x, y) ensures Safe(y) { StepKeepsSafe(x, y); }
    forall x, y, z | Safe(y) && Step(y, z) && Grew(z, x) ensures Grew(y, x) {
      var a :| Enabled(y, a) && z == Next(y, a);
      StepGrows(y, a);
      GrewTwice(y, z, x);
    }
    forall x ensures Grew(x, x) {}
    Invariant(Step, Safe, s, t);
    Relation(Step, Safe, Grew, s, t);
  }

  /**
   * However often its request is enqueued again, an entry keeps its age while it is pending: a repeat finds
   * the key taken. A closed entry never changes and never returns to pending.
   */
  lemma EntriesOnlyClose(s: State, t: State, r: RequestId)
    requires Safe(s) && Reaches(Step, s, t) && r in s.ledger
    ensures r in t.ledger
    ensures t.ledger[r].state == Pending ==> t.ledger[r] == s.ledger[r]
    ensures s.ledger[r].state == Reconciled ==> t.ledger[r] == s.ledger[r]
  {
    RunGrows(s, t);
    assert EntryAged(s.ledger[r], t.ledger[r]);
  }
}
