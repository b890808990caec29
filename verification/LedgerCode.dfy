/**
 * The enqueue paths and the reconcile job as code. Between two commands every other process may take
 * any number of steps (`Others`); each method is a run of the `Ledger` transition system.
 */
module LedgerCode {
  import opened Common
  import opened Runs
  import opened Sums
  import opened Ledger
  import opened Reconciliation

  datatype EnqueueResult =
    Ok | InsufficientStock | GateFailed | RecordError | SimulatedCrash | ProduceError | SettleError

  /** A call that has just passed the stock gate. */
  function Begun(r: RequestId, product: ProductId, quantity: int, now: int, ledgered: bool): Call {
    Call(r, product, quantity, now, ledgered, Deducted, false, true, Unsent)
  }

  /** What Redis and the broker make of an enqueue call. The rollback's answer is dropped; only its effect matters. */
  datatype Answers = Answers(gate: Answer, record: Answer, produced: bool, rollbackActs: bool, settle: Answer)

  /** What fails while an entry is reconciled: the query, the settle script, or only the script's reply. */
  datatype Fault = NoFault | QueryFails | SettleFails | ReplyLost

  /** How a round ended. */
  datatype End = Completed | Cancelled | Broken

  datatype Identity = Identity(
    initialStock: int, redisRemaining: int, redisDeducted: int, dbOrdered: int, leaked: int)
  {
    predicate Holds() { leaked == 0 }
  }

  /** The injected crash budget, spent by compare-and-swap. */
  class CrashSwitch {
    var remaining: int
    ghost const budget: int
    ghost var fired: nat

    ghost predicate Valid()
      reads this
    {
      if budget <= 0 then remaining == budget && fired == 0 else remaining >= 0 && remaining + fired == budget
    }

    /** The budget is used up, if there was one. */
    ghost predicate Spent()
      reads this
    {
      budget <= 0 || fired == budget
    }

    constructor (n: int)
      ensures Valid() && budget == n && fired == 0
    {
      remaining, budget, fired := n, n, 0;
    }

    /** Other goroutines may spend part of the budget. */
    method Others()
      requires Valid()
      modifies this
      ensures Valid() && old(fired) <= fired
    {
    }

    /** At most `budget` calls fire, however they race; a call that does not fire found the budget spent. */
    method Fire() returns (fire: bool)
      requires Valid()
      modifies this
      ensures Valid()
      ensures fire ==> old(fired) < fired <= budget
      ensures !fire ==> old(fired) <= fired && Spent()
    {
      while true
        invariant Valid() && old(fired) <= fired
        decreases remaining
      {
        Others();
        var left := remaining;
        if left <= 0 { return false; }
        Others();
        if remaining == left {
          remaining, fired := left - 1, fired + 1;
          return true;
        }
      }
    }
  }

  class Cluster {
    var s: State
    ghost var origin: State
    /** A state on the way, from which a caller looks back. */
    ghost var mark: State

    /** The cluster is in a state some run reached, by way of `mark`. */
    ghost predicate Valid()
      reads this
    {
      Init(origin) && Reaches(Step, origin, mark) && Reaches(Step, mark, s)
    }

    constructor (s0: State)
      requires Init(s0)
      ensures Valid() && s == mark == origin == s0
    {
      s, mark, origin := s0, s0, s0;
      new;
      Stay(Step, s);
    }

    lemma Reached()
      requires Valid()
      ensures Reaches(Step, origin, s) && Safe(s) && Grew(mark, s)
    {
      Concat(Step, origin, mark, s);
      EveryRunIsAccounted(origin, mark);
      EveryRunIsAccounted(origin, s);
      RunGrows(mark, s);
    }

    lemma StepGrew(a: Action)
      requires Valid() && Enabled(s, a)
      ensures Grew(s, Next(s, a))
    {
      Reached();
      StepGrows(s, a);
    }

    lemma CallStands(c: CallId)
      requires Valid() && c in s.calls
      ensures CallOk(s.calls[c])
    {
      Reached();
    }

    lemma EntryNamesItsKey(r: RequestId)
      requires Valid() && r in s.ledger
      ensures s.ledger[r].request == r
    {
      Reached();
      assert EntryOk(s, r);
    }

    ghost method Mark()
      requires Valid()
      modifies this`mark
      ensures Valid() && mark == s
    {
      Concat(Step, origin, mark, s);
      mark := s;
      Stay(Step, s);
    }

    /** Any run of the system that does not move the caller: call `c` of an enqueue, or round `w` of a reconciler. */
    method InterfereWithCall(ghost c: CallId)
      modifies this`s
      ensures Reaches(Step, old(s), s)
      ensures c in old(s.calls) <==> c in s.calls
      ensures c in s.calls ==> s.calls[c].Control() == old(s.calls[c].Control())
    {
      Stay(Step, s);
    }

    method InterfereWithRound(ghost w: RoundId)
      modifies this`s
      ensures Reaches(Step, old(s), s)
      ensures w in old(s.rounds) <==> w in s.rounds
      ensures w in s.rounds ==> s.rounds[w] == old(s.rounds[w])
    {
      Stay(Step, s);
    }

    method Others(ghost c: CallId, ghost call: Call)
      requires Valid() && At(c, call)
      modifies this`s
      ensures Valid() && At(c, call)
    {
      InterfereWithCall(c);
      Concat(Step, mark, old(s), s);
    }

    method OtherProcesses(ghost w: RoundId)
      requires Valid() && w in s.rounds
      modifies this`s
      ensures Valid() && w in s.rounds && s.rounds[w] == old(s.rounds[w])
      ensures Grew(old(s), s)
    {
      InterfereWithRound(w);
      RunGoesOn(origin, mark, old(s), s);
    }

    /** One command of the caller. */
    method Do(a: Action)
      requires Valid() && Enabled(s, a)
      modifies this`s
      ensures Valid() && s == Next(old(s), a)
    {
      Extend(Step, mark, s, Next(s, a));
      s := Next(s, a);
    }

    // ----- the commands of an enqueue call

    ghost predicate At(c: CallId, call: Call)
      reads this
    {
      c in s.calls && s.calls[c].Control() == call
    }

    /** `deduct.PreDeduct`: the stock gate. An error may hide that the script took effect. */
    method TryPreDeduct(c: CallId, call: Call, gate: Answer) returns (r: GateReply)
      requires Valid() && c !in s.calls && call.quantity > 0
      requires call == Begun(call.request, call.product, call.quantity, call.createdAt, call.ledgered)
      modifies this`s
      ensures Valid()
      ensures r == GateError <==> gate != Answered
      ensures r == Passed <==>
        gate == Answered && call.product in old(s.stock) && old(s.stock)[call.product] >= call.quantity
      ensures if gate != NoEffect && call.product in old(s.stock) && old(s.stock)[call.product] >= call.quantity
        then s == WithCall(old(s).(stock := IncrBy(old(s).stock, call.product, -call.quantity)), c, call)
        else s == old(s)
    {
      var enough := call.product in s.stock && s.stock[call.product] >= call.quantity;
      if enough && gate != NoEffect {
        Do(PreDeduct(c, call.request, call.product, call.quantity, call.createdAt, call.ledgered));
      }
      r := if gate != Answered then GateError else if enough then Passed else Short;
    }

    /** Pass the gate, or end the call. A script that acted unheard leaves its deduction behind. */
    method PassGate(c: CallId, call: Call, gate: Answer) returns (r: GateReply)
      requires Valid() && c !in s.calls && call.quantity > 0
      requires call == Begun(call.request, call.product, call.quantity, call.createdAt, call.ledgered)
      modifies this`s
      ensures Valid() && s.ledger == old(s.ledger)
      ensures r == GateError <==> gate != Answered
      ensures r == Passed <==>
        gate == Answered && call.product in old(s.stock) && old(s.stock)[call.product] >= call.quantity
      ensures r == Passed ==> At(c, call)
      ensures r == Short ==> s == old(s)
      ensures r == GateError ==>
        if gate == Unheard && call.product in old(s.stock) && old(s.stock)[call.product] >= call.quantity
        then At(c, call.(alive := false)) else s == old(s)
    {
      r := TryPreDeduct(c, call, gate);
      if r == GateError && c in s.calls { Stop(c, call); }
    }

    /** SETNX: an entry that exists stays as it is, age and all; otherwise this call's pending entry is written. */
    method RecordPreDeduct(c: CallId, ghost call: Call)
      requires Valid() && At(c, call) && call.alive && call.ledgered && call.phase == Deducted
      modifies this`s
      ensures Valid() && At(c, call.(phase := Recorded))
      ensures call.request in s.ledger
      ensures call.request in old(s.ledger) ==> s.ledger == old(s.ledger)
      ensures call.request !in old(s.ledger) ==> s.ledger == old(s.ledger)[call.request := EntryOf(call)]
    {
      Do(Record(c));
    }

    /** The broker accepts the message or reports failure. */
    method Produce(c: CallId, ok: bool, ghost call: Call)
      requires Valid() && At(c, call) && Sendable(call)
      modifies this`s
      ensures Valid() && At(c, call.(phase := if ok then Accepted else Refused)) && s.ledger == old(s.ledger)
    {
      if ok { Do(ProduceOk(c)); } else { Do(ProduceFail(c)); }
    }

    method RollbackPreDeduct(c: CallId, acts: bool, ghost call: Call)
      requires Valid() && At(c, call) && call.alive && call.phase == Refused
      modifies this`s
      ensures Valid() && At(c, call.(phase := RolledBack, returned := acts)) && s.ledger == old(s.ledger)
    {
      Do(Rollback(c, acts));
    }

    method SettleOwnEntry(c: CallId, ghost call: Call)
      requires Valid() && At(c, call) && call.alive && call.phase == RolledBack && call.ledgered
      modifies this`s
      ensures Valid() && At(c, call.(phase := Compensated))
      ensures old(s.ledger).Keys == s.ledger.Keys && (call.request in s.ledger ==> Closed(s, call.request))
    {
      Do(SettleOwn(c));
    }

    method Stop(c: CallId, ghost call: Call)
      requires Valid() && At(c, call)
      modifies this`s
      ensures Valid() && At(c, call.(alive := false)) && s.ledger == old(s.ledger)
    {
      Do(Die(c));
    }

    /**
     * Record, and stop if Redis reports an error: there is no way back for the deduction. A lost reply leaves
     * an entry behind all the same.
     */
    method RecordOrStop(c: CallId, answer: Answer, ghost call: Call) returns (ok: bool)
      requires Valid() && At(c, call) && call.alive && call.ledgered && call.phase == Deducted
      modifies this`s
      ensures Valid() && (ok <==> answer == Answered)
      ensures ok ==> At(c, call.(phase := Recorded)) && call.request in s.ledger
      ensures !ok ==> At(c, call.(phase := if answer == Unheard then Recorded else Deducted, alive := false))
    {
      if answer != NoEffect { RecordPreDeduct(c, call); }
      ok := answer == Answered;
      if !ok {
        Stop(c, call.(phase := if answer == Unheard then Recorded else Deducted));
      }
    }

    /** Roll back, ignoring the answer, then close the entry and report whether that worked. */
    method Compensate(c: CallId, rollbackActs: bool, settle: Answer, ghost call: Call) returns (result: EnqueueResult)
      requires Valid() && At(c, call) && call.alive && call.ledgered && call.phase == Refused
      requires call.request in s.ledger
      modifies this`s
      ensures Valid() && call.request in s.ledger
      ensures result == if settle == Answered then ProduceError else SettleError
      ensures result == ProduceError ==>
        At(c, call.(phase := Compensated, returned := rollbackActs)) && Closed(s, call.request)
      ensures result == SettleError ==>
        At(c, call.(phase := if settle == Unheard then Compensated else RolledBack,
                    returned := rollbackActs, alive := false))
    {
      var r := s.calls[c].request;
      RollbackPreDeduct(c, rollbackActs, call);
      OthersKeepEntry(c, call.(phase := RolledBack, returned := rollbackActs), r);
      if settle != NoEffect { SettleOwnEntry(c, call.(phase := RolledBack, returned := rollbackActs)); }
      if settle == Answered { return ProduceError; }
      Stop(c, call.(phase := if settle == Unheard then Compensated else RolledBack, returned := rollbackActs));
      result := SettleError;
    }

    method OthersKeepEntry(ghost c: CallId, ghost call: Call, ghost r: RequestId)
      requires Valid() && At(c, call) && r in s.ledger
      modifies this`s
      ensures Valid() && At(c, call) && r in s.ledger
    {
      InterfereWithCall(c);
      RunGoesOn(origin, mark, old(s), s);
      assert EntryAged(old(s).ledger[r], s.ledger[r]);
    }

    /** Where an enqueue call with a ledger stands once it has ended behind the gate. */
    ghost predicate EndedAs(c: CallId, call: Call, answers: Answers, result: EnqueueResult)
      reads this
    {
      match result
      case Ok => answers.record == Answered && answers.produced && At(c, call.(phase := Accepted))
      case RecordError =>
        && answers.record != Answered
        && At(c, call.(phase := if answers.record == Unheard then Recorded else Deducted, alive := false))
      case SimulatedCrash => answers.record == Answered && At(c, call.(phase := Recorded, alive := false))
      case ProduceError =>
        && answers.record == Answered && !answers.produced && answers.settle == Answered
        && At(c, call.(phase := Compensated, returned := answers.rollbackActs)) && Closed(s, call.request)
      case SettleError =>
        && answers.record == Answered && !answers.produced && answers.settle != Answered
        && At(c, call.(phase := if answers.settle == Unheard then Compensated else RolledBack,
                       returned := answers.rollbackActs, alive := false))
      case _ => false
    }

    /**
     * The enqueue path with a ledger, under any answers of Redis and the broker. An entry its request has
     * already keeps its age for as long as it is pending.
     */
    method EnqueueWithLedger(
        c: CallId, r: RequestId, product: ProductId, quantity: int, now: int, answers: Answers, crash: CrashSwitch?)
      returns (result: EnqueueResult)
      requires Valid() && c !in s.calls && quantity > 0
      requires crash != null ==> crash.Valid()
      modifies this`s, this`mark, crash
      ensures Valid()
      ensures result == GateFailed <==> answers.gate != Answered
      ensures result == InsufficientStock <==>
        answers.gate == Answered && !(product in old(s.stock) && old(s.stock)[product] >= quantity)
      ensures result == InsufficientStock ==> s == old(s)
      ensures result == GateFailed ==>
        if answers.gate == Unheard && product in old(s.stock) && old(s.stock)[product] >= quantity
        then At(c, Begun(r, product, quantity, now, true).(alive := false)) else s == old(s)
      ensures result != InsufficientStock && result != GateFailed ==>
        EndedAs(c, Begun(r, product, quantity, now, true), answers, result)
      ensures result == SimulatedCrash ==> crash != null && crash.fired > old(crash.fired)
      ensures result in {Ok, ProduceError, SettleError} && crash != null ==> crash.Spent()
      ensures result in {Ok, SimulatedCrash, ProduceError, SettleError} ==> r in s.ledger
      ensures r in old(s.ledger) ==>
        r in s.ledger && (s.ledger[r].state == Pending ==> s.ledger[r] == old(s.ledger)[r])
    {
      Mark();
      var call := Begun(r, product, quantity, now, true);
      var gated := PassGate(c, call, answers.gate);
      if gated == Passed {
        result := EnqueueGated(c, call, answers, crash);
      } else {
        result := if gated == Short then InsufficientStock else GateFailed;
      }
      EntryKept(r);
    }

    /** Since `mark`, the entry of `r` has changed only if it was closed. */
    lemma EntryKept(r: RequestId)
      requires Valid()
      ensures r in mark.ledger ==>
        r in s.ledger && (s.ledger[r].state == Pending ==> s.ledger[r] == mark.ledger[r])
    {
      Reached();
      if r in mark.ledger { assert EntryAged(mark.ledger[r], s.ledger[r]); }
    }

    /** From the passed gate on. */
    method EnqueueGated(c: CallId, call: Call, answers: Answers, crash: CrashSwitch?) returns (result: EnqueueResult)
      requires Valid() && At(c, call)
      requires call == Begun(call.request, call.product, call.quantity, call.createdAt, true)
      requires crash != null ==> crash.Valid()
      modifies this`s, crash
      ensures Valid() && EndedAs(c, call, answers, result)
      ensures result == SimulatedCrash ==> crash != null && crash.fired > old(crash.fired)
      ensures result in {Ok, ProduceError, SettleError} && crash != null ==> crash.Spent()
      ensures result != RecordError ==> call.request in s.ledger
    {
      Others(c, call);
      var ok := RecordOrStop(c, answers.record, call);
      if !ok { return RecordError; }
      result := EnqueueRecorded(c, call, answers, crash);
    }

    /** From the written ledger entry on. */
    method EnqueueRecorded(c: CallId, call: Call, answers: Answers, crash: CrashSwitch?) returns (result: EnqueueResult)
      requires Valid() && call == Begun(call.request, call.product, call.quantity, call.createdAt, true)
      requires At(c, call.(phase := Recorded)) && call.request in s.ledger && answers.record == Answered
      requires crash != null ==> crash.Valid()
      modifies this`s, crash
      ensures Valid() && EndedAs(c, call, answers, result) && call.request in s.ledger
      ensures result == SimulatedCrash ==> crash != null && crash.fired > old(crash.fired)
      ensures result in {Ok, ProduceError, SettleError} && crash != null ==> crash.Spent()
      ensures result != RecordError
    {
      OthersKeepEntry(c, call.(phase := Recorded), call.request);
      var fire := false;
      if crash != null { fire := crash.Fire(); }
      if fire {
        Stop(c, call.(phase := Recorded));
        return SimulatedCrash;
      }
      Produce(c, answers.produced, call.(phase := Recorded));
      if answers.produced { return Ok; }
      OthersKeepEntry(c, call.(phase := Refused), call.request);
      result := Compensate(c, answers.rollbackActs, answers.settle, call.(phase := Refused));
    }

    /** The enqueue path without a ledger: a crash, or a failed rollback, leaves nothing to reconcile from. */
    method EnqueueWithCrash(
        c: CallId, r: RequestId, product: ProductId, quantity: int, now: int,
        gate: Answer, produced: bool, rollbackActs: bool, crash: CrashSwitch?)
      returns (result: EnqueueResult)
      requires Valid() && c !in s.calls && quantity > 0
      requires crash != null ==> crash.Valid()
      modifies this`s, crash
      ensures Valid()
      ensures result == GateFailed <==> gate != Answered
      ensures result == InsufficientStock <==>
        gate == Answered && !(product in old(s.stock) && old(s.stock)[product] >= quantity)
      ensures result == InsufficientStock ==> s == old(s)
      ensures result == GateFailed ==>
        if gate == Unheard && product in old(s.stock) && old(s.stock)[product] >= quantity
        then At(c, Begun(r, product, quantity, now, false).(alive := false)) else s == old(s)
      ensures result in {Ok, InsufficientStock, GateFailed, SimulatedCrash, ProduceError}
      ensures var call := Begun(r, product, quantity, now, false);
        && (result == SimulatedCrash ==>
          && crash != null && crash.fired > old(crash.fired)
          && At(c, call.(alive := false)) && Unrecoverable(s.calls[c], false))
        && (result in {Ok, ProduceError} && crash != null ==> crash.Spent())
        && (result == Ok ==> produced && At(c, call.(phase := Accepted)))
        && (result == ProduceError ==> !produced && At(c, call.(phase := RolledBack, returned := rollbackActs)))
    {
      var call := Begun(r, product, quantity, now, false);
      var gated := PassGate(c, call, gate);
      if gated != Passed { return if gated == Short then InsufficientStock else GateFailed; }
      result := EnqueueDeducted(c, call, produced, rollbackActs, crash);
    }

    /** From the passed gate on. */
    method EnqueueDeducted(c: CallId, call: Call, produced: bool, rollbackActs: bool, crash: CrashSwitch?)
      returns (result: EnqueueResult)
      requires Valid() && At(c, call)
      requires call == Begun(call.request, call.product, call.quantity, call.createdAt, false)
      requires crash != null ==> crash.Valid()
      modifies this`s, crash
      ensures Valid() && result in {Ok, SimulatedCrash, ProduceError}
      ensures result == SimulatedCrash ==>
        && crash != null && crash.fired > old(crash.fired)
        && At(c, call.(alive := false)) && Unrecoverable(s.calls[c], false)
      ensures result in {Ok, ProduceError} && crash != null ==> crash.Spent()
      ensures result == Ok ==> produced && At(c, call.(phase := Accepted))
      ensures result == ProduceError ==> !produced && At(c, call.(phase := RolledBack, returned := rollbackActs))
    {
      Others(c, call);
      var fire := false;
      if crash != null { fire := crash.Fire(); }
      if fire {
        Stop(c, call);
        CallStands(c);
        return SimulatedCrash;
      }
      Produce(c, produced, call);
      if produced { return Ok; }
      Others(c, call.(phase := Refused));
      RollbackPreDeduct(c, rollbackActs, call.(phase := Refused));
      result := ProduceError;
    }

    // ----- the reconcile job

    /** The entry round `w` is at. */
    function Current(w: RoundId): Entry
      requires Deciding(s, w)
      reads this
    {
      s.rounds[w].entries[s.rounds[w].next]
    }

    /** The settle script of round `w`; `acted` is its return value, if its reply arrives. */
    method RunSettle(w: RoundId, replies: bool) returns (acted: bool)
      requires Valid() && Deciding(s, w) && s.rounds[w].verdict != Unknown
      modifies this`s
      ensures Valid() && w in s.rounds && Grew(old(s), s)
      ensures acted == SettleActs(old(s), old(Current(w)).request)
      ensures SettledAs(old(s), s, w, replies, Late(old(s), old(s.rounds[w])))
    {
      StepGrew(Settle(w, replies));
      Reached();
      SettleDoes(s, w, replies);
      acted := SettleActs(s, Current(w).request);
      Do(Settle(w, replies));
    }

    method Skip(w: RoundId, outcome: Outcome)
      requires Valid() && Enabled(s, Pass(w)) && outcome == Early(s, s.rounds[w])
      modifies this`s
      ensures Valid() && Finished(w, old(s.rounds[w]), outcome)
      ensures s == old(s).(rounds := s.rounds) && Grew(old(s), s)
    {
      StepGrew(Pass(w));
      Do(Pass(w));
    }

    /** `SELECT COUNT(*) FROM orders WHERE request_id = ?` */
    method CountOrders(w: RoundId) returns (found: bool)
      requires Valid() && Enabled(s, Query(w))
      modifies this`s
      ensures Valid() && w in s.rounds
      ensures found <==> old(Current(w)).request in old(s.orders)
      ensures s.rounds[w] == old(s.rounds[w]).(verdict := if found then OrderFound else OrderMissing)
      ensures s == old(s).(rounds := s.rounds)
    {
      found := Current(w).request in s.orders;
      Do(Query(w));
    }

    /** The round counted `outcome` for the entry it was at, and moved on. */
    ghost predicate Finished(w: RoundId, round: Round, outcome: Outcome)
      requires round.next < |round.entries|
      reads this
    {
      w in s.rounds && s.rounds[w] == Finish(round, outcome).(trace := s.rounds[w].trace)
    }

    /** No verdict was reached on the entry: the round has not moved on and counts nothing. */
    ghost predicate Unmoved(w: RoundId, round: Round)
      reads this
    {
      && w in s.rounds
      && s.rounds[w].now == round.now && s.rounds[w].next == round.next
      && s.rounds[w].entries == round.entries && s.rounds[w].report == round.report
    }

    /** Query the orders; then others run. */
    method LookUp(w: RoundId) returns (found: bool)
      requires Valid() && Enabled(s, Query(w))
      modifies this`s
      ensures Valid() && w in s.rounds && Grew(old(s), s)
      ensures found <==> old(Current(w)).request in old(s.orders)
      ensures s.rounds[w] == old(s.rounds[w]).(verdict := if found then OrderFound else OrderMissing)
    {
      StepGrew(Query(w));
      found := CountOrders(w);
      ghost var counted := s;
      OtherProcesses(w);
      GrewTwice(old(s), counted, s);
    }

    /**
     * What an entry is told, and when: `before` is the state whose orders were looked up, `met` the state the
     * settle script found. "Refunded" says that exactly this refund was added, "settled" that the order was there.
     */
    ghost predicate Decided(
        outcome: Option<Outcome>, e: Entry, age: int, fault: Fault, before: State, met: State)
      reads this
    {
      var open := e.state == Pending && age >= s.window && fault == NoFault;
      && (outcome.None? <==> e.state == Pending && age >= s.window && fault != NoFault)
      && (outcome == Some(Young) <==> e.state == Pending && age < s.window)
      && (outcome == Some(AlreadyReconciled) <==> e.state != Pending || (open && Closed(met, e.request)))
      && (outcome == Some(Settled) <==> open && !Closed(met, e.request) && e.request in before.orders)
      && (outcome == Some(Refunded) <==> open && !Closed(met, e.request) && e.request !in before.orders)
      && (open || outcome.None? ==> Grew(before, met) && Grew(met, s))
      && (outcome == Some(Settled) ==> e.request in s.orders)
      && (outcome == Some(Refunded) ==> e !in met.refunds && met.refunds + [e] <= s.refunds)
      && (outcome.Some? && outcome.value != Young ==> Closed(s, e.request))
    }

    /** The part of `ReconcileEntry` after the window check: look for the order, then settle. */
    method Decide(w: RoundId, fault: Fault) returns (outcome: Option<Outcome>, ghost met: State)
      requires Valid() && Enabled(s, Query(w))
      modifies this`s
      ensures Valid() && w in s.rounds && Grew(old(s), s)
      ensures outcome.None? ==> Unmoved(w, old(s.rounds[w]))
      ensures outcome.Some? ==> Finished(w, old(s.rounds[w]), outcome.value)
      ensures Decided(outcome, old(Current(w)), old(s.rounds[w].now - Current(w).createdAt), fault, old(s), met)
    {
      met := s;
      GrewNothing(s);
      if fault == QueryFails { return None, met; }
      var found := LookUp(w);
      met := s;
      GrewNothing(s);
      if fault == SettleFails { return None, met; }
      outcome := SettleAs(w, found, fault);
      GrewTwice(old(s), met, s);
    }

    /** The settle script on what the look-up found. */
    method SettleAs(w: RoundId, found: bool, fault: Fault) returns (outcome: Option<Outcome>)
      requires Valid() && Deciding(s, w) && s.rounds[w].verdict == (if found then OrderFound else OrderMissing)
      requires fault == NoFault || fault == ReplyLost
      modifies this`s
      ensures Valid() && w in s.rounds && Grew(old(s), s)
      ensures outcome.None? ==> Unmoved(w, old(s.rounds[w]))
      ensures outcome.Some? ==> Finished(w, old(s.rounds[w]), outcome.value)
      ensures var e := old(Current(w));
        && (outcome.None? <==> fault == ReplyLost)
        && (outcome == Some(AlreadyReconciled) <==> fault == NoFault && Closed(old(s), e.request))
        && (outcome == Some(Settled) <==> fault == NoFault && !Closed(old(s), e.request) && found)
        && (outcome == Some(Refunded) <==> fault == NoFault && !Closed(old(s), e.request) && !found)
        && Closed(s, e.request) && (found ==> e.request in s.orders)
      ensures outcome == Some(Refunded) ==>
        old(Current(w)) !in old(s).refunds && old(s).refunds + [old(Current(w))] <= s.refunds
    {
      ghost var e := Current(w);
      SettleFacts(w, e);
      outcome := Some(if found then Settled else Refunded);
      var acted := RunSettle(w, fault == NoFault);
      if fault == ReplyLost { return None; }
      if !acted {
        outcome := Some(AlreadyReconciled);
      }
    }

    lemma SettleFacts(w: RoundId, e: Entry)
      requires Valid() && Deciding(s, w) && e == Current(w) && s.rounds[w].verdict != Unknown
      ensures e.request in s.ledger && (s.rounds[w].verdict == OrderFound ==> e.request in s.orders)
      ensures !Closed(s, e.request) ==> e !in s.refunds
    {
      Reached();
      CurrentIsSnapshot(s, w);
      if !Closed(s, e.request) { NotYetRefunded(s, e); }
    }

    /** The final verdict on the entry round `w` is at, which the round's report then counts. */
    method ReconcileEntry(w: RoundId, fault: Fault) returns (outcome: Option<Outcome>, ghost met: State)
      requires Valid() && Deciding(s, w) && s.rounds[w].verdict == Unknown
      modifies this`s
      ensures Valid() && w in s.rounds && Grew(old(s), s)
      ensures outcome.None? ==> Unmoved(w, old(s.rounds[w]))
      ensures outcome.Some? ==> Finished(w, old(s.rounds[w]), outcome.value)
      ensures Decided(outcome, old(Current(w)), old(s.rounds[w].now - Current(w).createdAt), fault, old(s), met)
      ensures outcome == Some(Young) || old(Current(w)).state != Pending ==> s == old(s).(rounds := s.rounds)
    {
      var e := Current(w);
      met := s;
      if e.state != Pending {
        WasClosed(w);
        Skip(w, AlreadyReconciled);
        outcome := Some(AlreadyReconciled);
      } else if s.rounds[w].now - e.createdAt < s.window {
        Skip(w, Young);
        outcome := Some(Young);
      } else {
        outcome, met := Decide(w, fault);
      }
    }

    lemma WasClosed(w: RoundId)
      requires Valid() && Deciding(s, w) && Current(w).state != Pending
      ensures Closed(s, Current(w).request)
    {
      Reached();
      CurrentIsSnapshot(s, w);
    }

    ghost predicate Scanned(w: RoundId, r: RequestId)
      requires w in s.rounds
      reads this
    {
      exists i :: 0 <= i < |s.rounds[w].entries| && s.rounds[w].entries[i].request == r
    }

    /**
     * The cursor loop: `pages` are the keys each SCAN returns, repeats and vanished keys included. SCAN
     * guarantees that a key which is there throughout is in some page; then its entry is fetched.
     */
    method ScanLedger(w: RoundId, pages: seq<seq<RequestId>>)
      requires Valid() && Scanning(s, w)
      modifies this`s
      ensures Valid() && w in s.rounds && Grew(old(s), s)
      ensures s.rounds[w] == old(s.rounds[w]).(entries := s.rounds[w].entries)
      ensures forall r :: r in old(s.ledger) && InPages(r, pages) ==> Scanned(w, r)
      ensures Lists(pages, old(s.ledger).Keys) ==> forall r :: r in old(s.ledger) ==> Scanned(w, r)
    {
      for p := 0 to |pages|
        invariant Valid() && w in s.rounds && Grew(old(s), s)
        invariant s.rounds[w] == old(s.rounds[w]).(entries := s.rounds[w].entries)
        invariant forall r :: r in old(s.ledger) && InPages(r, pages[..p]) ==> Scanned(w, r)
      {
        ghost var before := s;
        ScanPage(w, pages[p]);
        GrewTwice(old(s), before, s);
        forall r | r in old(s.ledger) && InPages(r, pages[..p + 1]) ensures Scanned(w, r) {
          InPagesAppend(r, pages[..p], pages[p]);
          assert pages[..p + 1] == pages[..p] + [pages[p]];
          assert EntryAged(old(s).ledger[r], before.ledger[r]);
        }
      }
      assert pages[..|pages|] == pages;
    }

    /** The keys of one page, fetched one by one. */
    method ScanPage(w: RoundId, page: seq<RequestId>)
      requires Valid() && Scanning(s, w)
      modifies this`s
      ensures Valid() && w in s.rounds && Grew(old(s), s)
      ensures s.rounds[w] == old(s.rounds[w]).(entries := s.rounds[w].entries)
      ensures forall r :: old(Scanned(w, r)) ==> Scanned(w, r)
      ensures forall r :: r in page && r in old(s.ledger) ==> Scanned(w, r)
    {
      for k := 0 to |page|
        invariant Valid() && w in s.rounds && Grew(old(s), s)
        invariant s.rounds[w] == old(s.rounds[w]).(entries := s.rounds[w].entries)
        invariant forall r :: old(Scanned(w, r)) ==> Scanned(w, r)
        invariant forall r :: r in page[..k] && r in old(s.ledger) ==> Scanned(w, r)
      {
        ghost var before := s;
        ScanKey(w, page[k]);
        GrewTwice(old(s), before, s);
        if page[k] in old(s.ledger) { assert EntryAged(old(s).ledger[page[k]], before.ledger[page[k]]); }
        assert page[..k + 1] == page[..k] + [page[k]];
      }
      assert page[..|page|] == page;
    }

    /** GET one key; it may have gone, or come, since the SCAN. */
    method ScanKey(w: RoundId, r: RequestId)
      requires Valid() && Scanning(s, w)
      modifies this`s
      ensures Valid() && w in s.rounds && Grew(old(s), s)
      ensures s.rounds[w] == old(s.rounds[w]).(entries := s.rounds[w].entries)
      ensures forall q :: old(Scanned(w, q)) ==> Scanned(w, q)
      ensures r in old(s.ledger) ==> Scanned(w, r)
    {
      OtherProcesses(w);
      ghost var before := s;
      if r in old(s.ledger) { assert EntryAged(old(s).ledger[r], s.ledger[r]); }
      assert forall q :: old(Scanned(w, q)) ==> Scanned(w, q);
      if r in s.ledger {
        FetchEntry(w, r);
        GrewTwice(old(s), before, s);
      }
    }

    method FetchEntry(w: RoundId, r: RequestId)
      requires Valid() && Enabled(s, Fetch(w, r))
      modifies this`s
      ensures Valid() && w in s.rounds && Grew(old(s), s)
      ensures s.rounds[w] == old(s.rounds[w]).(entries := s.rounds[w].entries)
      ensures Scanned(w, r)
      ensures forall q :: old(Scanned(w, q)) ==> Scanned(w, q)
    {
      ghost var before := s.rounds[w].entries;
      StepGrew(Fetch(w, r));
      EntryNamesItsKey(r);
      Do(Fetch(w, r));
      assert s.rounds[w].entries[|before|].request == r;
      forall q | old(Scanned(w, q)) ensures Scanned(w, q) {
        var i :| 0 <= i < |before| && before[i].request == q;
        assert s.rounds[w].entries[i].request == q;
      }
    }

    /**
     * A whole round. Its context is cancelled after `patience` entries, if it gets that far; `faults` are
     * the failures it meets, entry by entry. Whatever ends it, its report counts exactly the entries it
     * finished, each under what was done with it. A round that completes has closed every entry of its start
     * that was past its window.
     */
    method ReconcileOnce(w: RoundId, now: int, pages: seq<seq<RequestId>>, patience: nat, faults: nat -> Fault)
      returns (report: Report, end: End)
      requires Valid() && w !in s.rounds && now <= s.clock
      modifies this`s, this`mark
      ensures Valid() && w in s.rounds && report == s.rounds[w].report
      ensures report.scanned == s.rounds[w].next == report.refunded + report.young + report.settled + report.already
      ensures end == Completed ==> report.scanned == |s.rounds[w].entries|
      ensures end == Cancelled ==> report.scanned == patience < |s.rounds[w].entries|
      ensures end == Broken ==> report.scanned < |s.rounds[w].entries| && faults(report.scanned) != NoFault
      ensures report.young == YoungCount(s.rounds[w].entries[..report.scanned], now, s.window)
      ensures TraceOk(s, s.rounds[w])
      ensures end != Broken ==> var trace := s.rounds[w].trace;
        && report.refunded == |trace.gave| && report.refundedQty == RefundedTotal(trace.gave)
        && report.settled == |trace.sold| && report.already == |trace.found|
      ensures Total(ReportedOf(s.rounds)) + Total(UnreportedOf(s.rounds)) == RefundedTotal(s.refunds)
      ensures Total(TimesOf(s.rounds)) + Total(UnheardOf(s.rounds)) == |s.refunds|
      ensures end == Completed && Lists(pages, old(s.ledger).Keys) ==>
        forall r :: r in old(s.ledger) && PastWindow(old(s), r, now) ==> Closed(s, r)
    {
      Mark();
      StartRound(w, now, pages);
      ghost var scanned, entries := s, s.rounds[w].entries;
      report, end := ReconcileAll(w, patience, faults, scanned);
      RoundFacts(w);
      if end == Completed && Lists(pages, old(s.ledger).Keys) {
        RoundClosesAll(old(s), scanned, s, entries, now);
      }
    }

    /** Begin and scan. */
    method StartRound(w: RoundId, now: int, pages: seq<seq<RequestId>>)
      requires Valid() && w !in s.rounds && now <= s.clock
      modifies this`s
      ensures w in s.rounds && Progress(w, s, s.rounds[w].entries, now, 0, EMPTY_REPORT) && Grew(old(s), s)
      ensures forall i :: 0 <= i < |s.rounds[w].entries| ==> SnapshotOk(s, s.rounds[w].entries[i])
      ensures Lists(pages, old(s.ledger).Keys) ==>
        forall r :: r in old(s.ledger) ==>
          exists i :: 0 <= i < |s.rounds[w].entries| && s.rounds[w].entries[i].request == r
    {
      BeginRound(w, now);
      ghost var begun := s;
      ScanLedger(w, pages);
      GrewTwice(old(s), begun, s);
      GrewNothing(s);
      EntriesAreSnapshots(w);
    }

    method BeginRound(w: RoundId, now: int)
      requires Valid() && w !in s.rounds && now <= s.clock
      modifies this`s
      ensures Valid() && w in s.rounds && Grew(old(s), s) && s.ledger == old(s.ledger)
      ensures s.rounds[w] == Round(now, [], 0, Unknown, EMPTY_REPORT, NoLoss, Trace([], [], []))
    {
      StepGrew(Begin(w, now));
      Do(Begin(w, now));
    }

    lemma EntriesAreSnapshots(w: RoundId)
      requires Valid() && w in s.rounds
      ensures forall i :: 0 <= i < |s.rounds[w].entries| ==> SnapshotOk(s, s.rounds[w].entries[i])
    {
      Reached();
      assert RoundOk(s, s.rounds[w]);
    }

    lemma RoundFacts(w: RoundId)
      requires Valid() && w in s.rounds
      ensures RoundOk(s, s.rounds[w]) && TraceOk(s, s.rounds[w])
      ensures Total(ReportedOf(s.rounds)) + Total(UnreportedOf(s.rounds)) == RefundedTotal(s.refunds)
      ensures Total(TimesOf(s.rounds)) + Total(UnheardOf(s.rounds)) == |s.refunds|
    {
      Reached();
      EveryReportIsTrue(origin, s, w);
    }

    /** Round `w` has finished `i` of its entries since `start`, each handled, and counted them. */
    ghost predicate Progress(w: RoundId, start: State, entries: seq<Entry>, now: int, i: nat, report: Report)
      reads this
    {
      && Valid() && w in s.rounds && Grew(start, s) && i <= |entries|
      && s.rounds[w] == Round(now, entries, i, Unknown, report, NoLoss, s.rounds[w].trace)
      && report.scanned == i
      && AllHandled(s, entries[..i], now)
    }

    /** The loop over the scanned entries. */
    method ReconcileAll(w: RoundId, patience: nat, faults: nat -> Fault, ghost start: State)
      returns (report: Report, end: End)
      requires w in s.rounds && Progress(w, start, s.rounds[w].entries, s.rounds[w].now, 0, EMPTY_REPORT)
      modifies this`s
      ensures Valid() && w in s.rounds && Grew(start, s) && report == s.rounds[w].report
      ensures s.rounds[w].entries == old(s.rounds[w]).entries && report.scanned == s.rounds[w].next
      ensures s.rounds[w].now == old(s.rounds[w]).now && (end != Broken ==> s.rounds[w].lost == NoLoss)
      ensures end == Completed ==>
        report.scanned == |s.rounds[w].entries| && AllHandled(s, s.rounds[w].entries, old(s.rounds[w]).now)
      ensures end == Cancelled ==> report.scanned == patience < |s.rounds[w].entries|
      ensures end == Broken ==> report.scanned < |s.rounds[w].entries| && faults(report.scanned) != NoFault
    {
      report, end := EMPTY_REPORT, Completed;
      ghost var now, entries := s.rounds[w].now, s.rounds[w].entries;
      var n := |s.rounds[w].entries|;
      for i := 0 to n
        invariant Progress(w, start, entries, now, i, report) && i <= patience && end == Completed
      {
        OthersBetween(w, start, entries, now, i, report);
        if i >= patience { return report, Cancelled; }
        var done;
        ghost var outcome, met;
        done, report, outcome, met := ReconcileNext(w, faults(i), report, start, entries, now, i);
        if !done { return report, Broken; }
      }
      assert entries[..n] == entries;
    }

    /** Others run between two entries; what was handled stays handled. */
    method OthersBetween(
        w: RoundId, ghost start: State, ghost entries: seq<Entry>, ghost now: int, ghost i: nat, ghost report: Report)
      requires Progress(w, start, entries, now, i, report)
      modifies this`s
      ensures Progress(w, start, entries, now, i, report)
    {
      ghost var before := s;
      OtherProcesses(w);
      GrewTwice(start, before, s);
      HandledStay(before, s, entries[..i], now);
    }

    /** The loop body of `ReconcileOnce`. */
    method ReconcileNext(
        w: RoundId, fault: Fault, before: Report,
        ghost start: State, ghost entries: seq<Entry>, ghost now: int, ghost i: nat)
      returns (done: bool, report: Report, ghost outcome: Option<Outcome>, ghost met: State)
      requires Progress(w, start, entries, now, i, before) && i < |entries|
      modifies this`s
      ensures Decided(outcome, entries[i], now - entries[i].createdAt, fault, old(s), met)
      ensures done <==> outcome.Some?
      ensures done ==> Progress(w, start, entries, now, i + 1, report)
      ensures done ==>
        && report.refunded == before.refunded + OneIf(outcome.value == Refunded)
        && report.refundedQty == before.refundedQty + (if outcome.value == Refunded then entries[i].quantity else 0)
        && report.young == before.young + OneIf(outcome.value == Young)
        && report.settled == before.settled + OneIf(outcome.value == Settled)
        && report.already == before.already + OneIf(outcome.value == AlreadyReconciled)
      ensures !done ==> report == before && Valid() && Grew(start, s) && Unmoved(w, old(s.rounds[w]))
    {
      var quantity := Current(w).quantity;
      var verdict;
      verdict, met := ReconcileEntry(w, fault);
      outcome := verdict;
      GrewTwice(start, old(s), s);
      HandledStay(old(s), s, entries[..i], now);
      if verdict.None? { return false, before, outcome, met; }
      report := before.(scanned := before.scanned + 1);
      match verdict.value {
        case Refunded =>
          report := report.(refunded := report.refunded + 1, refundedQty := report.refundedQty + quantity);
        case Young => report := report.(young := report.young + 1);
        case Settled => report := report.(settled := report.settled + 1);
        case AlreadyReconciled => report := report.(already := report.already + 1);
      }
      done := true;
      assert entries[..i + 1] == entries[..i] + [entries[i]];
    }

    // ----- the identity

    /** `SELECT COALESCE(SUM(quantity), 0) FROM orders WHERE product_id = ?` */
    method SumOrders(p: ProductId) returns (sum: int)
      ensures sum == Total(OrderedOf(s.orders, p))
    {
      sum := 0;
      var rest := s.orders;
      while rest != map[]
        invariant forall r :: r in rest ==> r in s.orders && rest[r] == s.orders[r]
        invariant sum + Total(OrderedOf(rest, p)) == Total(OrderedOf(s.orders, p))
        decreases |rest|
      {
        var r :| r in rest;
        if rest[r].product == p { sum := sum + rest[r].quantity; }
        TotalRemove(OrderedOf(rest, p), r);
        assert OrderedOf(rest, p) - {r} == OrderedOf(rest - {r}, p);
        rest := rest - {r};
      }
    }

    /**
     * `CheckIdentity`: a Redis read, then a database read, with anything in between. It is off by exactly
     * what landed in between. Where nothing did, in a prompt run, it is not negative; and after settlement it
     * holds if and only if no request of the product is unrecoverable.
     */
    method CheckIdentity(p: ProductId, initialStock: int) returns (id: Identity)
      requires Valid() && initialStock == Get(s.initial, p)
      modifies this`s, this`mark
      ensures Valid() && Reaches(Step, old(s), s)
      ensures id.initialStock == initialStock && id.redisRemaining == Get(old(s.stock), p)
      ensures id.redisDeducted == initialStock - id.redisRemaining
      ensures id.dbOrdered == Ordered(s, p) && id.leaked == Checked(old(s), s, p)
      ensures Reaches(PromptStep, origin, old(s)) ==>
        (id.leaked < 0 <==> Ordered(s, p) - Ordered(old(s), p) > Total(NetOf(old(s).calls, old(s).refunds, p)))
      ensures Reaches(PromptStep, origin, old(s)) && AllSettled(old(s)) && s.orders == old(s.orders) ==>
        (id.Holds() <==> forall r :: r in old(s.calls) && old(s.calls)[r].product == p ==> !IsLost(old(s), r))
    {
      var remaining := Get(s.stock, p);
      Mark();
      AnythingHappens();
      var dbOrdered := SumOrders(p);
      var deducted := initialStock - remaining;
      id := Identity(initialStock, remaining, deducted, dbOrdered, deducted - dbOrdered);
      CheckFacts(origin, old(s), s, p);
    }

    method AnythingHappens()
      requires Valid()
      modifies this`s
      ensures Valid() && Reaches(Step, old(s), s)
    {
      Stay(Step, s);
    }
  }

  // ----- helpers of the round

  lemma RunGoesOn(origin: State, mark: State, s: State, t: State)
    requires Init(origin) && Reaches(Step, origin, mark) && Reaches(Step, mark, s) && Reaches(Step, s, t)
    ensures Reaches(Step, mark, t) && Grew(s, t)
  {
    Concat(Step, mark, s, t);
    Concat(Step, origin, mark, s);
    EveryRunIsAccounted(origin, s);
    RunGrows(s, t);
  }

  lemma GrewNothing(s: State)
    ensures Grew(s, s)
  {
  }

  /** The settle script of round `w` took the system from `s` to `t` with outcome `o`. */
  ghost predicate SettledAs(s: State, t: State, w: RoundId, replies: bool, o: Outcome)
    requires Deciding(s, w)
  {
    var round := s.rounds[w];
    var e := round.entries[round.next];
    && t.rounds == s.rounds[w := if replies then Finish(Traced(s, round), o) else Lose(Traced(s, round), o)]
    && t.refunds == s.refunds + (if o == Refunded then [e] else [])
    && t.orders == s.orders
    && Closed(t, e.request)
  }

  lemma SettleDoes(s: State, w: RoundId, replies: bool)
    requires Inv(s) && Enabled(s, Settle(w, replies))
    ensures SettledAs(s, Next(s, Settle(w, replies)), w, replies, Late(s, s.rounds[w]))
  {
    CurrentIsSnapshot(s, w);
    SettleCloses(s, w, replies);
    SettleWritesRound(s, w, replies);
  }

  ghost predicate InPages(r: RequestId, pages: seq<seq<RequestId>>) {
    exists i :: 0 <= i < |pages| && r in pages[i]
  }

  ghost predicate Lists(pages: seq<seq<RequestId>>, keys: set<RequestId>) {
    forall r :: r in keys ==> InPages(r, pages)
  }

  lemma InPagesAppend(r: RequestId, pages: seq<seq<RequestId>>, page: seq<RequestId>)
    ensures InPages(r, pages + [page]) <==> InPages(r, pages) || r in page
  {
    var more := pages + [page];
    assert more[|pages|] == page;
    if i :| 0 <= i < |pages| && r in pages[i] { assert more[i] == pages[i]; }
    if i :| 0 <= i < |more| && r in more[i] && i < |pages| { assert pages[i] == more[i]; }
  }

  /** The entry of `r` is closed, or a round at `now` finds it past its window. */
  ghost predicate PastWindow(s: State, r: RequestId, now: int)
    requires r in s.ledger
  {
    s.ledger[r].state == Reconciled || now - s.ledger[r].createdAt >= s.window
  }

  /** A finished entry was within its window, or is closed now. */
  ghost predicate Handled(s: State, e: Entry, now: int) {
    (e.state == Pending && now - e.createdAt < s.window) || Closed(s, e.request)
  }

  ghost predicate AllHandled(s: State, entries: seq<Entry>, now: int) {
    forall j :: 0 <= j < |entries| ==> Handled(s, entries[j], now)
  }

  lemma HandledStay(s: State, t: State, entries: seq<Entry>, now: int)
    requires Grew(s, t) && AllHandled(s, entries, now)
    ensures AllHandled(t, entries, now)
  {
    forall j | 0 <= j < |entries| ensures Handled(t, entries[j], now) {
      assert Handled(s, entries[j], now);
      if Closed(s, entries[j].request) { ClosedPersists(s, t, entries[j].request); }
    }
  }

  lemma PastIsClosed(s: State, scanned: State, t: State, e: Entry, now: int)
    requires Grew(s, scanned) && Grew(scanned, t)
    requires e.request in s.ledger && PastWindow(s, e.request, now) && SnapshotOk(scanned, e) && Handled(t, e, now)
    ensures Closed(t, e.request)
  {
    assert EntryAged(s.ledger[e.request], scanned.ledger[e.request]);
    if Closed(scanned, e.request) { ClosedPersists(scanned, t, e.request); }
  }

  lemma RoundClosesAll(start: State, scanned: State, t: State, entries: seq<Entry>, now: int)
    requires Grew(start, scanned) && Grew(scanned, t) && AllHandled(t, entries, now)
    requires forall i :: 0 <= i < |entries| ==> SnapshotOk(scanned, entries[i])
    requires forall r :: r in start.ledger ==> exists i :: 0 <= i < |entries| && entries[i].request == r
    ensures forall r :: r in start.ledger && PastWindow(start, r, now) ==> Closed(t, r)
  {
    forall r | r in start.ledger && PastWindow(start, r, now) ensures Closed(t, r) {
      var i :| 0 <= i < |entries| && entries[i].request == r;
      assert SnapshotOk(scanned, entries[i]) && Handled(t, entries[i], now);
      PastIsClosed(start, scanned, t, entries[i], now);
    }
  }

  lemma CheckFacts(origin: State, s: State, t: State, p: ProductId)
    requires Init(origin)
    ensures Reaches(PromptStep, origin, s) ==>
      (Checked(s, t, p) < 0 <==> Ordered(t, p) - Ordered(s, p) > Total(NetOf(s.calls, s.refunds, p)))
    ensures Reaches(PromptStep, origin, s) && AllSettled(s) && t.orders == s.orders ==>
      (Checked(s, t, p) == 0 <==> forall r :: r in s.calls && s.calls[r].product == p ==> !IsLost(s, r))
  {
    if Reaches(PromptStep, origin, s) {
      PromptRunsNeverOverReturn(origin, s);
      CheckedIsOffByLandings(s, t, p);
      if AllSettled(s) { SettledLeakOf(s, p); }
    }
  }

  lemma NotYetRefunded(s: State, e: Entry)
    requires Inv(s) && SettleActs(s, e.request)
    ensures e !in s.refunds
  {
    forall i | 0 <= i < |s.refunds| ensures s.refunds[i] != e { assert Closed(s, s.refunds[i].request); }
  }
}
