/**
 * When reconciliation restores the identity "initial - remaining = ordered".
 *
 * `Distinct` steps give every enqueue call a request id of its own; a call is then named by its request.
 * `Prompt` is the repository's choice of window: it covers the time a request needs to finish.
 */
module Reconciliation {
  import opened Runs
  import opened Sums
  import opened Ledger

  // ----- runs in which no request id is enqueued twice

  ghost predicate DistinctStep(s: State, t: State) {
    exists a :: Enabled(s, a) && t == Next(s, a) && OwnId(a)
  }

  predicate OwnId(a: Action) { a.PreDeduct? ==> a.r == a.c }

  ghost predicate GotRefund(refunds: seq<Entry>, r: RequestId) {
    exists i :: 0 <= i < |refunds| && refunds[i].request == r
  }

  ghost predicate Matches(e: Entry, c: Call) {
    e.request == c.request && e.product == c.product && e.quantity == c.quantity && e.createdAt == c.createdAt
  }

  datatype Log = NotLogged | Logged(entry: Entry)

  datatype Row = NoRow | Row(order: Order)

  ghost function RowOf(s: State, r: RequestId): Row { if r in s.orders then Row(s.orders[r]) else NoRow }

  ghost function LogOf(s: State, r: RequestId): Log { if r in s.ledger then Logged(s.ledger[r]) else NotLogged }

  /** One request: its call, its ledger entry, its order row and whether a reconciler refunded it. */
  ghost predicate Fits(r: RequestId, c: Call, log: Log, row: Row, refunded: bool) {
    && c.request == r
    && (c.message == Landed <==> row.Row?)
    && (row.Row? ==> row.order == Order(c.product, c.quantity))
    && c.message != Duplicate
    && (log.Logged? <==> c.ledgered && c.phase != Deducted)
    && (!c.ledgered ==> c.phase != Recorded && c.phase != Compensated)
    && (log.Logged? ==> Matches(log.entry, c))
    && (refunded || c.phase == Compensated ==> log.Logged? && log.entry.state == Reconciled)
    && (log.Logged? && log.entry.state == Reconciled ==> refunded || c.phase == Compensated || c.message == Landed)
  }

  ghost predicate RequestOk(s: State, r: RequestId) {
    if r in s.calls then Fits(r, s.calls[r], LogOf(s, r), RowOf(s, r), GotRefund(s.refunds, r))
    else r !in s.ledger && r !in s.orders && !GotRefund(s.refunds, r)
  }

  ghost predicate RefundsMatch(calls: map<CallId, Call>, refunds: seq<Entry>) {
    forall i :: 0 <= i < |refunds| ==> refunds[i].request in calls && Matches(refunds[i], calls[refunds[i].request])
  }

  ghost predicate Distinct(s: State) {
    Safe(s) && (forall r :: RequestOk(s, r)) && RefundsMatch(s.calls, s.refunds)
  }

  lemma RefundedAppend(refunds: seq<Entry>, e: Entry, r: RequestId)
    ensures GotRefund(refunds + [e], r) <==> GotRefund(refunds, r) || r == e.request
  {
    var after := refunds + [e];
    assert after[|refunds|] == e;
    if i :| 0 <= i < |refunds| && refunds[i].request == r { assert after[i] == refunds[i]; }
    if i :| 0 <= i < |after| && after[i].request == r && i < |refunds| { assert refunds[i] == after[i]; }
  }

  lemma CallActionKeepsRequest(s: State, a: Action)
    requires Enabled(s, a) && IsCallAction(a) && OwnId(a) && RequestOk(s, a.c)
    requires a.c in s.calls ==> CallOk(s.calls[a.c])
    ensures RequestOk(Next(s, a), a.c)
  {
    CallActionWritesCall(s, a);
  }

  lemma CallActionSparesOthers(s: State, a: Action, r: RequestId)
    requires Enabled(s, a) && IsCallAction(a) && OwnId(a) && RequestOk(s, a.c) && RequestOk(s, r) && r != a.c
    ensures RequestOk(Next(s, a), r)
  {
  }

  lemma SettleKeepsRequest(s: State, w: RoundId, replies: bool, r: RequestId)
    requires Enabled(s, Settle(w, replies)) && RoundOk(s, s.rounds[w]) && RequestOk(s, r)
    requires RequestOk(s, s.rounds[w].entries[s.rounds[w].next].request)
    ensures RequestOk(Next(s, Settle(w, replies)), r)
  {
    var e := s.rounds[w].entries[s.rounds[w].next];
    SettleMoves(s, w, replies);
    assert SnapshotOk(s, e);
    RefundedAppend(s.refunds, e, r);
  }

  lemma StepKeepsRequest(s: State, a: Action, r: RequestId)
    requires Distinct(s) && Enabled(s, a) && OwnId(a)
    ensures RequestOk(Next(s, a), r)
  {
    assert RequestOk(s, r);
    if IsCallAction(a) {
      assert RequestOk(s, a.c);
      if r == a.c { CallActionKeepsRequest(s, a); } else { CallActionSparesOthers(s, a, r); }
    } else if a.Settle? {
      assert RoundOk(s, s.rounds[a.w]);
      assert RequestOk(s, s.rounds[a.w].entries[s.rounds[a.w].next].request);
      SettleKeepsRequest(s, a.w, a.replies, r);
    }
  }

  lemma NewRefundMatches(s: State, w: RoundId, replies: bool)
    requires Distinct(s) && Enabled(s, Settle(w, replies)) && Late(s, s.rounds[w]) == Outcome.Refunded
    ensures var e := s.rounds[w].entries[s.rounds[w].next]; e.request in s.calls && Matches(e, s.calls[e.request])
  {
    var e := s.rounds[w].entries[s.rounds[w].next];
    assert RoundOk(s, s.rounds[w]);
    assert SnapshotOk(s, e) && RequestOk(s, e.request);
  }

  lemma RefundsStayMatched(s: State, t: State)
    requires RefundsMatch(s.calls, s.refunds) && CallsGrew(s, t)
    ensures RefundsMatch(t.calls, s.refunds)
  {
    forall i | 0 <= i < |s.refunds|
      ensures s.refunds[i].request in t.calls && Matches(s.refunds[i], t.calls[s.refunds[i].request])
    {
      assert CallAged(s.calls[s.refunds[i].request], t.calls[s.refunds[i].request]);
    }
  }

  lemma SettleKeepsRefundsMatching(s: State, w: RoundId, replies: bool)
    requires Distinct(s) && Enabled(s, Settle(w, replies))
    ensures var t := Next(s, Settle(w, replies)); RefundsMatch(t.calls, t.refunds)
  {
    SettleMoves(s, w, replies);
    if Late(s, s.rounds[w]) == Outcome.Refunded {
      NewRefundMatches(s, w, replies);
      RefundsMatchAppend(s.calls, s.refunds, s.rounds[w].entries[s.rounds[w].next]);
    }
  }

  lemma RefundsMatchAppend(calls: map<CallId, Call>, refunds: seq<Entry>, e: Entry)
    requires RefundsMatch(calls, refunds) && e.request in calls && Matches(e, calls[e.request])
    ensures RefundsMatch(calls, refunds + [e])
  {
  }

  lemma StepKeepsRefundsMatching(s: State, a: Action)
    requires Distinct(s) && Enabled(s, a)
    ensures var t := Next(s, a); RefundsMatch(t.calls, t.refunds)
  {
    if a.Settle? {
      SettleKeepsRefundsMatching(s, a.w, a.replies);
    } else {
      CallsGrow(s, a);
      RefundsStayMatched(s, Next(s, a));
      OnlySettlesRefund(s, a);
    }
  }

  lemma StepKeepsDistinct(s: State, t: State)
    requires Distinct(s) && DistinctStep(s, t)
    ensures Distinct(t)
  {
    var a :| Enabled(s, a) && t == Next(s, a) && OwnId(a);
    assert Step(s, t);
    StepKeepsSafe(s, t);
    forall r ensures RequestOk(t, r) { StepKeepsRequest(s, a, r); }
    StepKeepsRefundsMatching(s, a);
  }

  // ----- the account of one request

  /** What a request holds: what its call holds open, less its refund. */
  ghost function NetAt(calls: map<CallId, Call>, refunds: seq<Entry>, r: RequestId): int
    requires r in calls
  {
    calls[r].Open() - (if GotRefund(refunds, r) then calls[r].quantity else 0)
  }

  ghost function NetOf(calls: map<CallId, Call>, refunds: seq<Entry>, p: ProductId): map<RequestId, int> {
    map r | r in calls :: if calls[r].product == p then NetAt(calls, refunds, r) else 0
  }

  lemma {:induction false} NetTotal(calls: map<CallId, Call>, refunds: seq<Entry>, p: ProductId)
    requires RefundsMatch(calls, refunds)
    requires forall i, j :: 0 <= i < j < |refunds| ==> refunds[i].request != refunds[j].request
    ensures Total(NetOf(calls, refunds, p)) == Total(OpenOf(calls, p)) - RefundedQty(refunds, p)
    decreases |refunds|
  {
    if refunds == [] {
      assert NetOf(calls, refunds, p) == OpenOf(calls, p);
    } else {
      var n := |refunds| - 1;
      var less, e := refunds[..n], refunds[n];
      NetTotal(calls, less, p);
      assert refunds == less + [e];
      assert !GotRefund(less, e.request);
      forall r ensures GotRefund(refunds, r) <==> GotRefund(less, r) || r == e.request { RefundedAppend(less, e, r); }
      NetWrite(calls, less, refunds, e, p);
    }
  }

  lemma NetWrite(calls: map<CallId, Call>, less: seq<Entry>, refunds: seq<Entry>, e: Entry, p: ProductId)
    requires e.request in calls && Matches(e, calls[e.request]) && !GotRefund(less, e.request)
    requires forall r :: GotRefund(refunds, r) <==> GotRefund(less, r) || r == e.request
    ensures Total(NetOf(calls, refunds, p)) == Total(NetOf(calls, less, p)) - (if e.product == p then e.quantity else 0)
  {
    var v := NetOf(calls, refunds, p)[e.request];
    assert NetOf(calls, refunds, p) == NetOf(calls, less, p)[e.request := v];
    TotalWrite(NetOf(calls, less, p), e.request, v);
  }

  /** With distinct ids the leak of a product is the sum of what its requests hold. */
  lemma LeakIsNet(s: State, p: ProductId)
    requires Distinct(s)
    ensures Leaked(s, p) == Total(NetOf(s.calls, s.refunds, p))
  {
    NetTotal(s.calls, s.refunds, p);
  }

  // ----- prompt runs

  ghost predicate Overdue(s: State, c: Call) { c.createdAt + s.window <= s.clock }

  /** Died, or failed to settle, after its rollback took effect: the entry is still pending. */
  predicate HalfCompensated(c: Call) { c.ledgered && c.phase == RolledBack && c.returned }

  /** By the end of its window a request is done: not in flight, and not stuck between rollback and settle. */
  ghost predicate CallPrompt(s: State, c: Call) {
    Overdue(s, c) ==> !c.InFlight() && !HalfCompensated(c)
  }

  ghost predicate Prompt(s: State) {
    forall r :: r in s.calls ==> CallPrompt(s, s.calls[r])
  }

  ghost predicate PromptStep(s: State, t: State) {
    DistinctStep(s, t) && Prompt(t)
  }

  ghost predicate CallFair(s: State, r: RequestId) {
    GotRefund(s.refunds, r) && r in s.calls ==>
      var c := s.calls[r]; Overdue(s, c) && c.message != Landed && !c.returned && c.phase != Compensated
  }

  /** A round that found no order is not overtaken by one. */
  ghost predicate RoundFair(s: State, w: Round) {
    w.verdict == OrderMissing && w.next < |w.entries| ==> w.entries[w.next].request !in s.orders
  }

  ghost predicate Fair(s: State) {
    && (forall r :: CallFair(s, r))
    && (forall w :: w in s.rounds ==> RoundFair(s, s.rounds[w]))
  }

  ghost predicate SafeAndFair(s: State) {
    Distinct(s) && Prompt(s) && Fair(s)
  }

  lemma CallActionKeepsFair(s: State, a: Action, r: RequestId)
    requires Enabled(s, a) && IsCallAction(a) && OwnId(a) && CallFair(s, r) && RequestOk(s, r)
    requires r in s.calls ==> CallOk(s.calls[r]) && CallPrompt(s, s.calls[r])
    ensures CallFair(Next(s, a), r)
  {
    CallActionWritesCall(s, a);
    ConfigurationKept(s, a);
  }

  lemma RefundIsFair(s: State, w: RoundId, replies: bool)
    requires Enabled(s, Settle(w, replies)) && RoundOk(s, s.rounds[w]) && RoundFair(s, s.rounds[w])
    requires Late(s, s.rounds[w]) == Outcome.Refunded
    requires var r := s.rounds[w].entries[s.rounds[w].next].request;
      r in s.calls && RequestOk(s, r) && CallOk(s.calls[r]) && CallPrompt(s, s.calls[r])
    ensures var c := s.calls[s.rounds[w].entries[s.rounds[w].next].request];
      Overdue(s, c) && c.message != Landed && !c.returned && c.phase != Compensated
  {
    assert SnapshotOk(s, s.rounds[w].entries[s.rounds[w].next]);
  }

  lemma SettleKeepsFair(s: State, w: RoundId, replies: bool, r: RequestId)
    requires Enabled(s, Settle(w, replies)) && RoundOk(s, s.rounds[w]) && RoundFair(s, s.rounds[w]) && CallFair(s, r)
    requires forall q :: q in s.calls ==> CallOk(s.calls[q]) && CallPrompt(s, s.calls[q])
    requires RequestOk(s, r) && RequestOk(s, s.rounds[w].entries[s.rounds[w].next].request)
    ensures CallFair(Next(s, Settle(w, replies)), r)
  {
    var e := s.rounds[w].entries[s.rounds[w].next];
    SettleMoves(s, w, replies);
    ConfigurationKept(s, Settle(w, replies));
    if Late(s, s.rounds[w]) == Outcome.Refunded {
      assert SnapshotOk(s, e);
      RefundIsFair(s, w, replies);
      RefundedAppend(s.refunds, e, r);
    }
  }

  lemma StepKeepsCallFair(s: State, a: Action, r: RequestId)
    requires SafeAndFair(s) && Enabled(s, a) && OwnId(a)
    ensures CallFair(Next(s, a), r)
  {
    assert CallFair(s, r) && RequestOk(s, r);
    if r in s.calls { assert CallOk(s.calls[r]) && CallPrompt(s, s.calls[r]); }
    if IsCallAction(a) {
      CallActionKeepsFair(s, a, r);
    } else if a.Settle? {
      assert RoundOk(s, s.rounds[a.w]) && RoundFair(s, s.rounds[a.w]);
      assert RequestOk(s, s.rounds[a.w].entries[s.rounds[a.w].next].request);
      SettleKeepsFair(s, a.w, a.replies, r);
    } else {
      ConfigurationKept(s, a);
    }
  }

  /** A request whose entry a round is past the window with does not land any more. */
  lemma PastEntriesDoNotLand(s: State, c: CallId, w: Round)
    requires Enabled(s, Land(c)) && RoundOk(s, w) && w.verdict == OrderMissing && s.calls[c].request == c
    requires var r := w.entries[w.next].request;
      RequestOk(s, r) && CallFair(s, r) && (r in s.calls ==> CallOk(s.calls[r]) && CallPrompt(s, s.calls[r]))
    ensures c != w.entries[w.next].request
  {
    assert SnapshotOk(s, w.entries[w.next]);
  }

  lemma LandKeepsRoundFair(s: State, c: CallId, w: Round)
    requires Enabled(s, Land(c)) && RoundOk(s, w) && RoundFair(s, w) && s.calls[c].request == c
    requires w.next < |w.entries| ==> var r := w.entries[w.next].request;
      RequestOk(s, r) && CallFair(s, r) && (r in s.calls ==> CallOk(s.calls[r]) && CallPrompt(s, s.calls[r]))
    ensures RoundFair(Next(s, Land(c)), w)
  {
    if w.verdict == OrderMissing { PastEntriesDoNotLand(s, c, w); }
  }

  lemma OtherActionsKeepRoundFair(s: State, a: Action, w: RoundId)
    requires Enabled(s, a) && !a.Land? && w in Next(s, a).rounds
      && (w in s.rounds ==> RoundOk(s, s.rounds[w]) && RoundFair(s, s.rounds[w]))
    ensures var t := Next(s, a); RoundFair(t, t.rounds[w])
  {
    assert Next(s, a).orders == s.orders;
  }

  lemma RoundStaysFair(s: State, a: Action, w: RoundId)
    requires SafeAndFair(s) && Enabled(s, a) && w in Next(s, a).rounds
    ensures var t := Next(s, a); RoundFair(t, t.rounds[w])
  {
    if w in s.rounds { assert RoundOk(s, s.rounds[w]) && RoundFair(s, s.rounds[w]); }
    if a.Land? {
      var round := s.rounds[w];
      assert RequestOk(s, a.c);
      if round.next < |round.entries| {
        var r := round.entries[round.next].request;
        assert RequestOk(s, r) && CallFair(s, r);
        if r in s.calls { assert CallOk(s.calls[r]) && CallPrompt(s, s.calls[r]); }
      }
      LandKeepsRoundFair(s, a.c, round);
    } else {
      OtherActionsKeepRoundFair(s, a, w);
    }
  }

  lemma StepStaysFair(s: State, a: Action)
    requires SafeAndFair(s) && Enabled(s, a) && OwnId(a)
    ensures Fair(Next(s, a))
  {
    var t := Next(s, a);
    forall r ensures CallFair(t, r) { StepKeepsCallFair(s, a, r); }
    forall w | w in t.rounds ensures RoundFair(t, t.rounds[w]) { RoundStaysFair(s, a, w); }
  }

  lemma StepStaysSafeAndFair(s: State, t: State)
    requires SafeAndFair(s) && PromptStep(s, t)
    ensures SafeAndFair(t)
  {
    StepKeepsDistinct(s, t);
    var a :| Enabled(s, a) && t == Next(s, a) && OwnId(a);
    StepStaysFair(s, a);
  }

  lemma PromptRunsAreFair(s: State, t: State)
    requires SafeAndFair(s) && Reaches(PromptStep, s, t)
    ensures SafeAndFair(t)
  {
    forall x, y | SafeAndFair(x) && PromptStep(x, y) ensures SafeAndFair(y) { StepStaysSafeAndFair(x, y); }
    Invariant(PromptStep, SafeAndFair, s, t);
  }

  lemma InitIsFair(s: State)
    requires Init(s)
    ensures SafeAndFair(s)
  {
    InitSafe(s);
  }

  /**
   * In every prompt run each request holds its quantity or nothing, so the leak of any one moment is never
   * negative.
   */
  lemma PromptRunsNeverOverReturn(s: State, t: State)
    requires Init(s) && Reaches(PromptStep, s, t)
    ensures SafeAndFair(t)
    ensures forall p :: Leaked(t, p) >= 0
  {
    InitIsFair(s);
    PromptRunsAreFair(s, t);
    forall p ensures Leaked(t, p) >= 0 {
      LeakIsNet(t, p);
      var net := NetOf(t.calls, t.refunds, p);
      forall r | r in net ensures net[r] >= 0 { NetIsAllOrNothing(t, r); }
      TotalNonNegative(net);
    }
  }

  lemma NetIsAllOrNothing(s: State, r: RequestId)
    requires SafeAndFair(s) && r in s.calls
    ensures NetAt(s.calls, s.refunds, r) == 0 || NetAt(s.calls, s.refunds, r) == s.calls[r].quantity > 0
  {
    assert CallOk(s.calls[r]) && RequestOk(s, r) && CallFair(s, r);
  }

  // ----- the check, which reads Redis and the table one after the other

  /** `CheckIdentity` with its stock read in state `s` and its order sum in state `t`. */
  ghost function Checked(s: State, t: State, p: ProductId): int {
    Get(s.initial, p) - Get(s.stock, p) - Ordered(t, p)
  }

  /**
   * The check is off by exactly what landed between its reads. In a prompt run it is negative if and only if
   * more landed between the reads than requests held at the first one.
   */
  lemma CheckedIsOffByLandings(s: State, t: State, p: ProductId)
    requires SafeAndFair(s)
    ensures Checked(s, t, p) == Leaked(s, p) - (Ordered(t, p) - Ordered(s, p))
    ensures Checked(s, t, p) < 0 <==> Ordered(t, p) - Ordered(s, p) > Total(NetOf(s.calls, s.refunds, p))
  {
    LeakIsNet(s, p);
  }

  lemma PromptRunsGrow(s: State, t: State)
    requires SafeAndFair(s) && Reaches(PromptStep, s, t)
    ensures Grew(s, t)
  {
    forall x, y | SafeAndFair(x) && PromptStep(x, y) ensures SafeAndFair(y) { StepStaysSafeAndFair(x, y); }
    forall x, y, z | SafeAndFair(y) && PromptStep(y, z) && Grew(z, x) ensures Grew(y, x) {
      var a :| Enabled(y, a) && z == Next(y, a) && OwnId(a);
      StepGrows(y, a);
      GrewTwice(y, z, x);
    }
    forall x ensures Grew(x, x) {}
    Relation(PromptStep, SafeAndFair, Grew, s, t);
  }

  /** The rows that are in `t` and not in `s`. */
  ghost function Landings(s: State, t: State, p: ProductId): map<RequestId, int> {
    map r | r in t.orders && r !in s.orders :: if t.orders[r].product == p then t.orders[r].quantity else 0
  }

  lemma LandingsTotal(s: State, t: State, p: ProductId)
    requires OrdersGrew(s, t)
    ensures Ordered(t, p) == Ordered(s, p) + Total(Landings(s, t, p))
  {
    assert OrderedOf(t.orders, p) == OrderedOf(s.orders, p) + Landings(s, t, p);
    TotalUnion(OrderedOf(s.orders, p), Landings(s, t, p));
  }

  /** Only a request that came after the stock read and landed before the order sum can make the check negative. */
  lemma OnlyNewcomersMakeItNegative(s: State, t: State, p: ProductId)
    requires SafeAndFair(s) && Reaches(PromptStep, s, t)
    requires forall r :: r in t.orders && r !in s.orders ==> r in s.calls
    ensures Checked(s, t, p) >= 0
  {
    PromptRunsAreFair(s, t);
    PromptRunsGrow(s, t);
    LandingsTotal(s, t, p);
    LeakIsNet(s, p);
    LandingsWereHeld(s, t, p);
  }

  lemma LandingsWereHeld(s: State, t: State, p: ProductId)
    requires SafeAndFair(s) && SafeAndFair(t) && Grew(s, t)
    requires forall r :: r in t.orders && r !in s.orders ==> r in s.calls
    ensures Total(Landings(s, t, p)) <= Total(NetOf(s.calls, s.refunds, p))
  {
    var net, landed := NetOf(s.calls, s.refunds, p), Landings(s, t, p);
    forall r | r in net ensures net[r] >= 0 { NetIsNotNegative(s, r, p); }
    forall r | r in landed ensures r in net && landed[r] <= net[r] { LandedWasHeld(s, t, r, p); }
    TotalAtMost(landed, net);
  }

  lemma NetIsNotNegative(s: State, r: RequestId, p: ProductId)
    requires SafeAndFair(s) && r in s.calls
    ensures NetOf(s.calls, s.refunds, p)[r] >= 0
  {
    FairFacts(s, r);
    NetIsAllOrNothing(s, r);
  }

  lemma LandedWasHeld(s: State, t: State, r: RequestId, p: ProductId)
    requires SafeAndFair(s) && SafeAndFair(t) && Grew(s, t)
    requires r in t.orders && r !in s.orders && r in s.calls
    ensures Landings(s, t, p)[r] <= NetOf(s.calls, s.refunds, p)[r]
  {
    FairFacts(s, r);
    FairFacts(t, r);
    HeldBefore(s, t, r, p);
  }

  lemma FairFacts(s: State, r: RequestId)
    requires SafeAndFair(s)
    ensures RequestOk(s, r) && CallFair(s, r) && (r in s.calls ==> CallOk(s.calls[r]))
  {
  }

  lemma HeldBefore(s: State, t: State, r: RequestId, p: ProductId)
    requires RequestOk(s, r) && RequestOk(t, r) && CallFair(t, r) && CallsGrew(s, t) && s.refunds <= t.refunds
    requires r in t.orders && r !in s.orders && r in s.calls
    requires CallOk(s.calls[r]) && (r in t.calls ==> CallOk(t.calls[r]))
    ensures Landings(s, t, p)[r] <= NetOf(s.calls, s.refunds, p)[r]
  {
    assert CallAged(s.calls[r], t.calls[r]);
    assert GotRefund(s.refunds, r) ==> GotRefund(t.refunds, r);
  }

  // ----- after everything is settled

  /** Nothing is in flight and every ledger entry is closed. */
  ghost predicate AllSettled(s: State) {
    && (forall c :: c in s.calls ==> !s.calls[c].InFlight())
    && (forall r :: r in s.ledger ==> s.ledger[r].state == Reconciled)
  }

  /**
   * No pending entry is left from which anyone could give the call's stock back: it died before recording,
   * or its rollback failed and it closed its entry all the same, or it never had an entry.
   */
  predicate Unrecoverable(c: Call, refunded: bool) {
    if c.ledgered then c.phase == Deducted || (c.phase == Compensated && !c.returned && !refunded)
    else !c.returned && c.message != Landed
  }

  ghost predicate IsLost(s: State, r: RequestId)
    requires r in s.calls
  {
    Unrecoverable(s.calls[r], GotRefund(s.refunds, r))
  }

  /** Refunded by a reconciler although it became an order or gave its stock back itself. */
  ghost predicate DoublyReturned(s: State, r: RequestId)
    requires r in s.calls
  {
    GotRefund(s.refunds, r) && (s.calls[r].message == Landed || s.calls[r].returned)
  }

  /** With no timing assumption at all: what one settled request has cost the stock. */
  lemma SettledRequest(s: State, r: RequestId)
    requires Distinct(s) && AllSettled(s) && r in s.calls
    ensures var c := s.calls[r];
      && NetAt(s.calls, s.refunds, r) ==
        (if IsLost(s, r) then c.quantity else 0) - (if DoublyReturned(s, r) then c.quantity else 0)
      && !(IsLost(s, r) && DoublyReturned(s, r))
      && (HalfCompensated(c) ==> DoublyReturned(s, r))
  {
    assert CallOk(s.calls[r]) && RequestOk(s, r);
  }

  ghost function LostOf(s: State, p: ProductId): map<RequestId, int> {
    map r | r in s.calls :: if s.calls[r].product == p && IsLost(s, r) then s.calls[r].quantity else 0
  }

  ghost function DoubledOf(s: State, p: ProductId): map<RequestId, int> {
    map r | r in s.calls :: if s.calls[r].product == p && DoublyReturned(s, r) then s.calls[r].quantity else 0
  }

  lemma DistinctRunsStayDistinct(s: State, t: State)
    requires Init(s) && Reaches(DistinctStep, s, t)
    ensures Distinct(t)
  {
    InitIsFair(s);
    forall x, y | Distinct(x) && DistinctStep(x, y) ensures Distinct(y) { StepKeepsDistinct(x, y); }
    Invariant(DistinctStep, Distinct, s, t);
  }

  /**
   * The identity after reconciliation with no timing assumption at all: the leak is the stock of the
   * unrecoverable requests, less the stock of those that were given back twice.
   */
  lemma SettledLeakAnyTiming(s: State, t: State, p: ProductId)
    requires Init(s) && Reaches(DistinctStep, s, t) && AllSettled(t)
    ensures Leaked(t, p) == Total(LostOf(t, p)) - Total(DoubledOf(t, p))
  {
    DistinctRunsStayDistinct(s, t);
    LeakIsNet(t, p);
    var net := NetOf(t.calls, t.refunds, p);
    forall r | r in net ensures net[r] == LostOf(t, p)[r] - DoubledOf(t, p)[r] { SettledRequest(t, r); }
    TotalMinus(LostOf(t, p), DoubledOf(t, p), net);
  }

  /**
   * The identity after reconciliation. With every request prompt and every entry settled, the leak of a
   * product is exactly the stock of its unrecoverable requests; it is zero if and only if there is none.
   */
  lemma SettledLeak(s: State, t: State, p: ProductId)
    requires Init(s) && Reaches(PromptStep, s, t) && AllSettled(t)
    ensures Leaked(t, p) == Total(LostOf(t, p))
    ensures Leaked(t, p) == 0 <==> forall r :: r in t.calls && t.calls[r].product == p ==> !IsLost(t, r)
  {
    PromptRunsNeverOverReturn(s, t);
    SettledLeakOf(t, p);
  }

  lemma SettledLeakOf(t: State, p: ProductId)
    requires SafeAndFair(t) && AllSettled(t)
    ensures Leaked(t, p) == Total(LostOf(t, p))
    ensures Leaked(t, p) == 0 <==> forall r :: r in t.calls && t.calls[r].product == p ==> !IsLost(t, r)
  {
    LeakIsNet(t, p);
    forall r | r in t.calls ensures HoldsWhatIsLost(t, r) {
      SettledRequest(t, r);
      assert CallOk(t.calls[r]) && CallFair(t, r);
    }
    LostIsNet(t, p);
  }

  ghost predicate HoldsWhatIsLost(s: State, r: RequestId)
    requires r in s.calls
  {
    s.calls[r].quantity > 0 && NetAt(s.calls, s.refunds, r) == if IsLost(s, r) then s.calls[r].quantity else 0
  }

  lemma LostIsNet(s: State, p: ProductId)
    requires forall r :: r in s.calls ==> HoldsWhatIsLost(s, r)
    ensures Total(NetOf(s.calls, s.refunds, p)) == Total(LostOf(s, p))
    ensures Total(LostOf(s, p)) == 0 <==> forall r :: r in s.calls && s.calls[r].product == p ==> !IsLost(s, r)
  {
    var lost := LostOf(s, p);
    forall r | r in s.calls ensures NetOf(s.calls, s.refunds, p)[r] == lost[r] >= 0 {
      assert HoldsWhatIsLost(s, r);
    }
    assert NetOf(s.calls, s.refunds, p) == lost;
    TotalNonNegative(lost);
    if r :| r in s.calls && s.calls[r].product == p && IsLost(s, r) {
      assert HoldsWhatIsLost(s, r) && lost[r] != 0;
    }
  }

  // ----- what the hypotheses are for

  ghost function Fresh(stock: int): State {
    State(10, map[0 := stock], 0, map[0 := stock], map[], map[], map[], map[], [])
  }

  lemma Take(s: State, t: State, a: Action, u: State)
    requires Reaches(Step, s, t) && Enabled(t, a) && u == Next(t, a)
    ensures Reaches(Step, s, u)
  {
    Extend(Step, s, t, u);
  }

  lemma TakePromptly(s: State, t: State, a: Action, u: State)
    requires Reaches(PromptStep, s, t) && Enabled(t, a) && u == Next(t, a) && OwnId(a) && Prompt(u)
    ensures Reaches(PromptStep, s, u)
  {
    assert DistinctStep(t, u);
    Extend(PromptStep, s, t, u);
  }

  ghost function NewCall(r: RequestId): Call { Call(r, 0, 1, 0, true, Deducted, false, true, Unsent) }

  ghost function PendingEntry(): Entry { Entry(0, 0, 1, 0, Pending) }

  /** One request for one unit of `stock`, recorded, and what its call did since. */
  ghost function One(stock: int, call: Call, state: EntryState, orders: map<RequestId, Order>): State {
    Fresh(1).(stock := map[0 := stock], ledger := map[0 := PendingEntry().(state := state)], orders := orders,
      calls := map[0 := call])
  }

  lemma OneIsRecorded()
    ensures Reaches(PromptStep, Fresh(1), One(0, NewCall(0).(phase := Recorded), Pending, map[]))
  {
    var s := Fresh(1).(stock := map[0 := 0], calls := map[0 := NewCall(0)]);
    Stay(PromptStep, Fresh(1));
    TakePromptly(Fresh(1), Fresh(1), PreDeduct(0, 0, 0, 1, 0, true), s);
    TakePromptly(Fresh(1), s, Record(0), One(0, NewCall(0).(phase := Recorded), Pending, map[]));
  }

  ghost function Sent(message: Message): Call { NewCall(0).(phase := Accepted, message := message) }

  lemma OneIsQueued()
    ensures Reaches(PromptStep, Fresh(1), One(0, Sent(Queued), Pending, map[]))
  {
    OneIsRecorded();
    TakePromptly(Fresh(1), One(0, NewCall(0).(phase := Recorded), Pending, map[]), ProduceOk(0),
      One(0, Sent(Queued), Pending, map[]));
  }

  lemma OrderedOne(s: State)
    requires s.orders == map[0 := Order(0, 1)]
    ensures Ordered(s, 0) == 1
  {
    assert s.orders[0] == Order(0, 1);
    assert OrderedOf(s.orders, 0) == map[0 := 1];
    TotalRemove(OrderedOf(s.orders, 0), 0);
    assert OrderedOf(s.orders, 0) - {0} == map[];
  }

  /** A check whose stock read comes before a whole request, and whose order sum comes after it, is negative. */
  lemma TwoReadsGoNegative()
    ensures Init(Fresh(1))
    ensures exists t :: Reaches(PromptStep, Fresh(1), t) && Checked(Fresh(1), t, 0) == -1
  {
    OneIsQueued();
    var t := One(0, Sent(Landed), Pending, map[0 := Order(0, 1)]);
    TakePromptly(Fresh(1), One(0, Sent(Queued), Pending, map[]), Land(0), t);
    OrderedOne(t);
  }

  /** A call whose produce failed, whose rollback failed, and which closed its entry. */
  ghost function Unreturned(phase: Phase): Call { NewCall(0).(phase := phase) }

  ghost predicate AllAlive(s: State) { forall c :: c in s.calls ==> s.calls[c].alive }

  lemma UnreturnedIsReachable()
    ensures Reaches(PromptStep, Fresh(1), One(0, Unreturned(RolledBack), Pending, map[]))
  {
    OneIsRecorded();
    var s := One(0, Unreturned(Refused), Pending, map[]);
    TakePromptly(Fresh(1), One(0, NewCall(0).(phase := Recorded), Pending, map[]), ProduceFail(0), s);
    TakePromptly(Fresh(1), s, Rollback(0, false), One(0, Unreturned(RolledBack), Pending, map[]));
  }

  /**
   * The error of the rollback is dropped and the entry is closed after it: nobody died, no order exists,
   * everything is settled, and one unit is gone for good.
   */
  lemma FailedRollbackIsLost()
    ensures exists t ::
      Reaches(PromptStep, Fresh(1), t) && AllSettled(t) && t.orders == map[] && AllAlive(t) && Leaked(t, 0) == 1
  {
    UnreturnedIsReachable();
    var s, t := One(0, Unreturned(RolledBack), Pending, map[]), One(0, Unreturned(Compensated), Reconciled, map[]);
    assert Next(s, SettleOwn(0)) == t;
    TakePromptly(Fresh(1), s, SettleOwn(0), t);
    assert OrderedOf(t.orders, 0) == map[];
  }

  lemma PromptRunsAreRuns(s: State, t: State)
    requires Reaches(PromptStep, s, t)
    ensures Reaches(Step, s, t)
  {
    Weaken(PromptStep, Step, s, t);
  }

  /** `Sent(Queued)` when its window is over, and round 0 at work on its entry. */
  ghost function Working(entries: seq<Entry>, verdict: Verdict): State {
    One(0, Sent(Queued), Pending, map[]).(clock := 10,
      rounds := map[0 := Round(10, entries, 0, verdict, EMPTY_REPORT, NoLoss, Trace([], [], []))])
  }

  lemma RoundStarts()
    ensures Reaches(Step, Fresh(1), Working([PendingEntry()], Unknown))
  {
    OneIsQueued();
    PromptRunsAreRuns(Fresh(1), One(0, Sent(Queued), Pending, map[]));
    var s := One(0, Sent(Queued), Pending, map[]).(clock := 10);
    Take(Fresh(1), One(0, Sent(Queued), Pending, map[]), Tick(10), s);
    Take(Fresh(1), s, Begin(0, 10), Working([], Unknown));
    assert [] + [PendingEntry()] == [PendingEntry()];
    Take(Fresh(1), Working([], Unknown), Fetch(0, 0), Working([PendingEntry()], Unknown));
  }

  /** The same request after the round refunded it, and after its message landed all the same. */
  ghost function OneRefunded(message: Message, orders: map<RequestId, Order>): State {
    One(1, Sent(message), Reconciled, orders).(
      clock := 10, refunds := [PendingEntry()],
      rounds := map[0 := RefundedRound()])
  }

  ghost function RefundedRound(): Round {
    Round(10, [PendingEntry()], 1, Unknown, Report(1, 1, 1, 0, 0, 0), NoLoss, Trace([PendingEntry()], [], []))
  }

  lemma RoundQueries()
    ensures Reaches(Step, Fresh(1), Working([PendingEntry()], OrderMissing))
  {
    RoundStarts();
    Take(Fresh(1), Working([PendingEntry()], Unknown), Query(0), Working([PendingEntry()], OrderMissing));
  }

  lemma RoundRefunds()
    ensures Reaches(Step, Fresh(1), OneRefunded(Queued, map[]))
  {
    RoundQueries();
    var e, s := PendingEntry(), Working([PendingEntry()], OrderMissing);
    assert SettleScript(s, e, 1).stock == map[0 := 1];
    assert SettleScript(s, e, 1).ledger == map[0 := e.(state := Reconciled)];
    assert [] + [e] == [e];
    Take(Fresh(1), s, Settle(0, true), OneRefunded(Queued, map[]));
  }

  /** A message that lands after its window was refunded first: one unit is sold that Redis still offers. */
  lemma LateLandingOversells()
    ensures exists t :: Reaches(Step, Fresh(1), t) && AllSettled(t) && Leaked(t, 0) == -1
  {
    RoundRefunds();
    var t := OneRefunded(Landed, map[0 := Order(0, 1)]);
    Take(Fresh(1), OneRefunded(Queued, map[]), Land(0), t);
    OrderedOne(t);
    assert AllSettled(t);
  }

  // ----- the same id enqueued twice

  /** Call 0 died after recording; call 1 repeats its request, at time 5, and got this far. */
  ghost function Repeat(stock: int, phase: Phase, returned: bool, entry: Entry): State {
    var dead := NewCall(0).(phase := Recorded, alive := false);
    Fresh(2).(clock := 5, stock := map[0 := stock], ledger := map[0 := entry],
              calls := map[0 := dead, 1 := NewCall(0).(createdAt := 5, phase := phase, returned := returned)])
  }

  ghost function Died(clock: int): State {
    Fresh(2).(clock := clock, stock := map[0 := 1], ledger := map[0 := PendingEntry()],
              calls := map[0 := NewCall(0).(phase := Recorded, alive := false)])
  }

  lemma OneDies()
    ensures Reaches(Step, Fresh(2), Died(0))
  {
    var s := Fresh(2).(stock := map[0 := 1], calls := map[0 := NewCall(0)]);
    var t := s.(ledger := map[0 := PendingEntry()], calls := map[0 := NewCall(0).(phase := Recorded)]);
    Stay(Step, Fresh(2));
    Take(Fresh(2), Fresh(2), PreDeduct(0, 0, 0, 1, 0, true), s);
    Take(Fresh(2), s, Record(0), t);
    Take(Fresh(2), t, Die(0), Died(0));
  }

  lemma RepeatStarts()
    ensures Reaches(Step, Fresh(2), Repeat(0, Deducted, false, PendingEntry()))
  {
    OneDies();
    Take(Fresh(2), Died(0), Tick(5), Died(5));
    Take(Fresh(2), Died(5), PreDeduct(1, 0, 0, 1, 5, true), Repeat(0, Deducted, false, PendingEntry()));
  }

  lemma RepeatIsRefused()
    ensures Reaches(Step, Fresh(2), Repeat(0, Refused, false, PendingEntry()))
  {
    RepeatStarts();
    var s := Repeat(0, Recorded, false, PendingEntry());
    Take(Fresh(2), Repeat(0, Deducted, false, PendingEntry()), Record(1), s);
    Take(Fresh(2), s, ProduceFail(1), Repeat(0, Refused, false, PendingEntry()));
  }

  lemma RepeatRollsBack()
    ensures Reaches(Step, Fresh(2), Repeat(1, RolledBack, true, PendingEntry()))
  {
    RepeatIsRefused();
    Take(Fresh(2), Repeat(0, Refused, false, PendingEntry()), Rollback(1, true),
      Repeat(1, RolledBack, true, PendingEntry()));
  }

  ghost predicate Restamped(s: State) { s.ledger == map[0 := PendingEntry().(createdAt := 5, state := Reconciled)] }

  /**
   * A repeat finds the first call's entry and leaves its age alone. But when its own produce fails, it closes
   * that entry, stamped with its own instant, and the first call's unit can no longer be given back.
   */
  lemma RepeatBuriesLeak()
    ensures exists t :: Reaches(Step, Fresh(2), t) && AllSettled(t) && Leaked(t, 0) == 1 && Restamped(t)
  {
    RepeatRollsBack();
    var s := Repeat(1, RolledBack, true, PendingEntry());
    var t := Repeat(1, Compensated, true, Entry(0, 0, 1, 5, Reconciled));
    assert Next(s, SettleOwn(1)) == t;
    Take(Fresh(2), s, SettleOwn(1), t);
    assert OrderedOf(t.orders, 0) == map[];
  }
}
