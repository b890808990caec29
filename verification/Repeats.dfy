/**
 * What a request costs the stock when its id is enqueued any number of times: the leak is a sum over requests,
 * and of all deductions of one request reconcilers give back one.
 */
module Repeats {
  import opened Runs
  import opened Sums
  import opened Ledger
  import opened Reconciliation

  // ----- entries and refunds come from calls

  ghost predicate Asked(calls: map<CallId, Call>, c: CallId, e: Entry) {
    c in calls && calls[c].request == e.request && calls[c].product == e.product && calls[c].quantity == e.quantity
  }

  ghost predicate HasOrigin(calls: map<CallId, Call>, e: Entry) {
    exists c :: Asked(calls, c, e)
  }

  ghost predicate Originates(s: State) {
    && Safe(s)
    && (forall r :: r in s.ledger ==> HasOrigin(s.calls, s.ledger[r]))
    && (forall i :: 0 <= i < |s.refunds| ==> HasOrigin(s.calls, s.refunds[i]))
  }

  lemma OriginPersists(s: State, t: State, e: Entry)
    requires HasOrigin(s.calls, e) && CallsGrew(s, t)
    ensures HasOrigin(t.calls, e)
  {
    var c :| Asked(s.calls, c, e);
    assert CallAged(s.calls[c], t.calls[c]);
    assert Asked(t.calls, c, e);
  }

  /** A call writes its own entry. */
  lemma CallWritesOwnEntry(s: State, a: Action, r: RequestId)
    requires Enabled(s, a) && !a.Settle? && r in Next(s, a).ledger
    requires r in s.ledger ==> Next(s, a).ledger[r] != s.ledger[r]
    ensures (a.Record? || a.SettleOwn?) && Asked(Next(s, a).calls, a.c, Next(s, a).ledger[r])
  {
  }

  /** A reconciler closes the entry it scanned: its data stay. */
  lemma SettleKeepsData(s: State, w: RoundId, replies: bool, r: RequestId)
    requires Enabled(s, Settle(w, replies)) && RoundOk(s, s.rounds[w]) && r in Next(s, Settle(w, replies)).ledger
    ensures r in s.ledger
    ensures var t := Next(s, Settle(w, replies));
      t.ledger[r] == s.ledger[r] || t.ledger[r] == s.ledger[r].(state := Reconciled)
  {
    assert SnapshotOk(s, s.rounds[w].entries[s.rounds[w].next]);
  }

  lemma OriginOfClosed(calls: map<CallId, Call>, e: Entry)
    requires HasOrigin(calls, e)
    ensures HasOrigin(calls, e.(state := Reconciled))
  {
    var c :| Asked(calls, c, e);
    assert Asked(calls, c, e.(state := Reconciled));
  }

  lemma WrittenEntryOriginates(s: State, a: Action, r: RequestId)
    requires Originates(s) && Enabled(s, a) && r in Next(s, a).ledger
    requires r in s.ledger ==> Next(s, a).ledger[r] != s.ledger[r]
    ensures HasOrigin(Next(s, a).calls, Next(s, a).ledger[r])
  {
    if a.Settle? {
      assert RoundOk(s, s.rounds[a.w]);
      SettleKeepsData(s, a.w, a.replies, r);
      CallsGrow(s, a);
      OriginPersists(s, Next(s, a), s.ledger[r]);
      OriginOfClosed(Next(s, a).calls, s.ledger[r]);
    } else {
      CallWritesOwnEntry(s, a, r);
    }
  }

  lemma NewRefundOriginates(s: State, w: RoundId, replies: bool)
    requires Originates(s) && Enabled(s, Settle(w, replies)) && Late(s, s.rounds[w]) == Outcome.Refunded
    ensures HasOrigin(s.calls, s.rounds[w].entries[s.rounds[w].next])
  {
    assert RoundOk(s, s.rounds[w]);
    assert SnapshotOk(s, s.rounds[w].entries[s.rounds[w].next]);
  }

  lemma SettledRefundsOriginate(s: State, w: RoundId, replies: bool)
    requires Originates(s) && Enabled(s, Settle(w, replies))
    ensures var t := Next(s, Settle(w, replies)); forall i :: 0 <= i < |t.refunds| ==> HasOrigin(t.calls, t.refunds[i])
  {
    SettleMoves(s, w, replies);
    if Late(s, s.rounds[w]) == Outcome.Refunded {
      NewRefundOriginates(s, w, replies);
      OriginsAppend(s.calls, s.refunds, s.rounds[w].entries[s.rounds[w].next]);
    }
  }

  lemma OriginsAppend(calls: map<CallId, Call>, refunds: seq<Entry>, e: Entry)
    requires (forall i :: 0 <= i < |refunds| ==> HasOrigin(calls, refunds[i])) && HasOrigin(calls, e)
    ensures forall i :: 0 <= i < |refunds + [e]| ==> HasOrigin(calls, (refunds + [e])[i])
  {
  }

  lemma RefundsOriginate(s: State, a: Action)
    requires Originates(s) && Enabled(s, a)
    ensures var t := Next(s, a); forall i :: 0 <= i < |t.refunds| ==> HasOrigin(t.calls, t.refunds[i])
  {
    if a.Settle? {
      SettledRefundsOriginate(s, a.w, a.replies);
    } else {
      CallsGrow(s, a);
      OnlySettlesRefund(s, a);
      forall i | 0 <= i < |s.refunds| ensures HasOrigin(Next(s, a).calls, s.refunds[i]) {
        OriginPersists(s, Next(s, a), s.refunds[i]);
      }
    }
  }

  lemma StepKeepsOrigins(s: State, t: State)
    requires Originates(s) && Step(s, t)
    ensures Originates(t)
  {
    var a :| Enabled(s, a) && t == Next(s, a);
    StepKeepsSafe(s, t);
    CallsGrow(s, a);
    forall r | r in t.ledger ensures HasOrigin(t.calls, t.ledger[r]) {
      if r in s.ledger && t.ledger[r] == s.ledger[r] {
        OriginPersists(s, t, s.ledger[r]);
      } else {
        WrittenEntryOriginates(s, a, r);
      }
    }
    RefundsOriginate(s, a);
  }

  lemma EveryRunOriginates(s: State, t: State)
    requires Init(s) && Reaches(Step, s, t)
    ensures Originates(t)
  {
    InitSafe(s);
    forall x, y | Originates(x) && Step(x, y) ensures Originates(y) { StepKeepsOrigins(x, y); }
    Invariant(Step, Originates, s, t);
  }

  // ----- the leak, request by request

  ghost function Requests(calls: map<CallId, Call>): set<RequestId> { set c | c in calls :: calls[c].request }

  ghost function RequestOf(calls: map<CallId, Call>): map<CallId, RequestId> { map c | c in calls :: calls[c].request }

  ghost function RefundedFor(refunds: seq<Entry>, r: RequestId, p: ProductId): int {
    if refunds == [] then 0
    else
      var n := |refunds| - 1;
      RefundedFor(refunds[..n], r, p)
        + (if refunds[n].request == r && refunds[n].product == p then refunds[n].quantity else 0)
  }

  /** What all calls of `r` together hold of product `p`, less what reconcilers gave back for `r`. */
  ghost function Share(s: State, r: RequestId, p: ProductId): int {
    Total(Part(OpenOf(s.calls, p), RequestOf(s.calls), r)) - RefundedFor(s.refunds, r, p)
  }

  ghost function SharesOf(s: State, p: ProductId): map<RequestId, int> {
    map r | r in Requests(s.calls) :: Share(s, r, p)
  }

  ghost function RefundsOf(refunds: seq<Entry>, groups: set<RequestId>, p: ProductId): map<RequestId, int> {
    map r | r in groups :: RefundedFor(refunds, r, p)
  }

  lemma {:induction false} RefundsByRequest(refunds: seq<Entry>, groups: set<RequestId>, p: ProductId)
    requires forall i :: 0 <= i < |refunds| ==> refunds[i].request in groups
    ensures RefundedQty(refunds, p) == Total(RefundsOf(refunds, groups, p))
    decreases |refunds|
  {
    if refunds == [] {
      TotalNonNegative(RefundsOf(refunds, groups, p));
    } else {
      var n := |refunds| - 1;
      var r := refunds[n].request;
      RefundsByRequest(refunds[..n], groups, p);
      assert RefundsOf(refunds, groups, p) == RefundsOf(refunds[..n], groups, p)[r := RefundedFor(refunds, r, p)];
      TotalWrite(RefundsOf(refunds[..n], groups, p), r, RefundedFor(refunds, r, p));
    }
  }

  /** In every run, whatever repeats, the leak of a product is the sum of what its requests hold. */
  lemma LeakByRequest(s: State, t: State, p: ProductId)
    requires Init(s) && Reaches(Step, s, t)
    ensures Leaked(t, p) == Total(SharesOf(t, p))
  {
    EveryRunOriginates(s, t);
    var groups, open, of := Requests(t.calls), OpenOf(t.calls, p), RequestOf(t.calls);
    TotalByGroup(open, of, groups);
    forall i | 0 <= i < |t.refunds| ensures t.refunds[i].request in groups {
      var c :| Asked(t.calls, c, t.refunds[i]);
    }
    RefundsByRequest(t.refunds, groups, p);
    TotalMinus(Parts(open, of, groups), RefundsOf(t.refunds, groups, p), SharesOf(t, p));
  }

  // ----- the share of a repeated request

  /** The calls of `r` whose deduction became neither an order nor was given back by themselves. */
  ghost function Stranded(calls: map<CallId, Call>, r: RequestId): set<CallId> {
    set c | c in calls && calls[c].request == r && !calls[c].returned && calls[c].message != Landed
  }

  /** All calls of `r` ask for the same. */
  ghost predicate SameAsked(calls: map<CallId, Call>, r: RequestId, p: ProductId, q: int) {
    forall c :: c in calls && calls[c].request == r ==> calls[c].product == p && calls[c].quantity == q
  }

  lemma {:induction false} RefundedOnce(refunds: seq<Entry>, r: RequestId, p: ProductId, q: int)
    requires forall i, j :: 0 <= i < j < |refunds| ==> refunds[i].request != refunds[j].request
    requires forall i :: 0 <= i < |refunds| && refunds[i].request == r ==>
      refunds[i].product == p && refunds[i].quantity == q
    ensures RefundedFor(refunds, r, p) == if GotRefund(refunds, r) then q else 0
    decreases |refunds|
  {
    if refunds != [] {
      var n := |refunds| - 1;
      RefundedOnce(refunds[..n], r, p, q);
      assert refunds == refunds[..n] + [refunds[n]];
      RefundedAppend(refunds[..n], refunds[n], r);
      if refunds[n].request == r { assert !GotRefund(refunds[..n], r); }
    }
  }

  /**
   * Of `n` stranded deductions of one request, one at most is ever given back: the request holds the other
   * `n - 1`, or all `n`. At settlement that is its leak.
   */
  lemma RepeatsAreGivenBackOnce(s: State, t: State, r: RequestId, p: ProductId, q: int)
    requires Init(s) && Reaches(Step, s, t) && SameAsked(t.calls, r, p, q)
    ensures Share(t, r, p) == (|Stranded(t.calls, r)| - (if GotRefund(t.refunds, r) then 1 else 0)) * q
  {
    EveryRunOriginates(s, t);
    StrandedTotal(t, r, p, q);
    RefundedTotalOf(t, r, p, q);
    Distribute(|Stranded(t.calls, r)|, if GotRefund(t.refunds, r) then 1 else 0, q);
  }

  lemma StrandedTotal(t: State, r: RequestId, p: ProductId, q: int)
    requires Inv(t) && SameAsked(t.calls, r, p, q)
    ensures Total(Part(OpenOf(t.calls, p), RequestOf(t.calls), r)) == |Stranded(t.calls, r)| * q
  {
    var part, stranded := Part(OpenOf(t.calls, p), RequestOf(t.calls), r), Stranded(t.calls, r);
    forall c | c in part ensures part[c] == if c in stranded then q else 0 { CallIsOk(t, c); }
    TotalOfEqual(part, stranded, q);
  }

  lemma RefundedTotalOf(t: State, r: RequestId, p: ProductId, q: int)
    requires Originates(t) && SameAsked(t.calls, r, p, q)
    ensures RefundedFor(t.refunds, r, p) == if GotRefund(t.refunds, r) then q else 0
  {
    forall i | 0 <= i < |t.refunds| && t.refunds[i].request == r
      ensures t.refunds[i].product == p && t.refunds[i].quantity == q
    {
      var c :| Asked(t.calls, c, t.refunds[i]);
    }
    RefundedOnce(t.refunds, r, p, q);
  }

  lemma Distribute(a: int, b: int, q: int)
    ensures (a - b) * q == a * q - b * q
  {
  }

  ghost predicate StaysDuplicate(s: State, t: State, c: CallId) {
    c in s.calls && s.calls[c].message == Duplicate ==>
      c in t.calls && t.calls[c].message == Duplicate && t.calls[c].request == s.calls[c].request
  }

  lemma StepKeepsDuplicate(s: State, a: Action, c: CallId)
    requires Safe(s) && Enabled(s, a)
    ensures StaysDuplicate(s, Next(s, a), c)
  {
    if c in s.calls { CallIsOk(s, c); }
    if IsCallAction(a) { CallActionWritesCall(s, a); } else { RoundActionsSpareCalls(s, a); }
  }

  lemma StaysDuplicateTwice(s: State, t: State, u: State, c: CallId)
    requires Safe(s) && Step(s, t) && StaysDuplicate(t, u, c)
    ensures StaysDuplicate(s, u, c)
  {
    var a :| Enabled(s, a) && t == Next(s, a);
    StepKeepsDuplicate(s, a, c);
  }

  lemma CallIsOk(s: State, c: CallId)
    requires Inv(s) && c in s.calls
    ensures CallOk(s.calls[c])
  {
  }

  /** An accepted repeat whose message finds the row of another call is stranded, and stays so for good. */
  lemma DuplicatesStayStranded(s: State, t: State, c: CallId)
    requires Safe(s) && Reaches(Step, s, t) && c in s.calls && s.calls[c].message == Duplicate
    ensures c in t.calls && t.calls[c].request == s.calls[c].request && c in Stranded(t.calls, t.calls[c].request)
  {
    var kept := (x: State, y: State) => StaysDuplicate(x, y, c);
    forall x, y | Safe(x) && Step(x, y) ensures Safe(y) { StepKeepsSafe(x, y); }
    forall x, y, z | Safe(y) && Step(y, z) && kept(z, x) ensures kept(y, x) { StaysDuplicateTwice(y, z, x, c); }
    Invariant(Step, Safe, s, t);
    Relation(Step, Safe, kept, s, t);
    assert kept(s, t);
    CallIsOk(t, c);
  }

  // ----- two accepted calls of one id

  /** Two calls, without a ledger, of request 0 for one unit each. */
  ghost function Two(stock: int, first: Message, second: Message): State {
    var orders := if first == Landed then map[0 := Order(0, 1)] else map[];
    Fresh(2).(stock := map[0 := stock], orders := orders, calls := map[0 := Accept(first), 1 := Accept(second)])
  }

  ghost function Accept(message: Message): Call {
    Call(0, 0, 1, 0, false, if message == Unsent then Deducted else Accepted, false, true, message)
  }

  lemma TwoAreDeducted()
    ensures Reaches(Step, Fresh(2), Two(0, Unsent, Unsent))
  {
    var s := Fresh(2).(stock := map[0 := 1], calls := map[0 := Accept(Unsent)]);
    Stay(Step, Fresh(2));
    Take(Fresh(2), Fresh(2), PreDeduct(0, 0, 0, 1, 0, false), s);
    Take(Fresh(2), s, PreDeduct(1, 0, 0, 1, 0, false), Two(0, Unsent, Unsent));
  }

  lemma TwoAreAccepted()
    ensures Reaches(Step, Fresh(2), Two(0, Queued, Queued))
  {
    TwoAreDeducted();
    Take(Fresh(2), Two(0, Unsent, Unsent), ProduceOk(0), Two(0, Queued, Unsent));
    Take(Fresh(2), Two(0, Queued, Unsent), ProduceOk(1), Two(0, Queued, Queued));
  }

  lemma OneLands()
    ensures Reaches(Step, Fresh(2), Two(0, Landed, Queued))
  {
    TwoAreAccepted();
    Take(Fresh(2), Two(0, Queued, Queued), Land(0), Two(0, Landed, Queued));
  }

  /** Everything is settled, nobody died, one order is placed and one unit leaks. */
  ghost predicate OneSoldOneGone(s: State) {
    AllSettled(s) && AllAlive(s) && s.orders == map[0 := Order(0, 1)] && Leaked(s, 0) == 1
  }

  /** Both calls are told "accepted" and nothing fails; one order is placed, and the other unit is gone. */
  lemma SecondAcceptedUnitIsGone()
    ensures exists t :: Reaches(Step, Fresh(2), t) && OneSoldOneGone(t)
  {
    OneLands();
    Take(Fresh(2), Two(0, Landed, Queued), Land(1), Two(0, Landed, Duplicate));
    SecondIsGone();
  }

  lemma SecondIsGone()
    ensures OneSoldOneGone(Two(0, Landed, Duplicate))
  {
    OrderedOne(Two(0, Landed, Duplicate));
  }
}
