/**
 * Stock split over bucket keys, as a transition system: an order deducts from one bucket, commits or gives
 * the stock back to that bucket. A failed probe changes nothing and is no step.
 */
module Buckets {
  import opened Runs
  import opened Sums

  type CallId = nat
  type BucketId = nat

  /** `Holding`: deducted, and neither committed nor given back: in its transaction, gone, or its rollback failed. */
  datatype Pc = Holding | Committed | RolledBack

  datatype Call = Call(bucket: BucketId, quantity: int, pc: Pc)

  /** `db` is the stock column of the product row, which the path updates without a guard. */
  datatype State = State(initial: map<BucketId, int>, buckets: map<BucketId, int>, db: int, calls: map<CallId, Call>)

  datatype Action =
    | Deduct(c: CallId, bucket: BucketId, quantity: int)
    | Commit(c: CallId)
    | Rollback(c: CallId)

  /** The bucket script: a missing key is an empty bucket. */
  predicate Sufficient(s: State, b: BucketId, q: int) { b in s.buckets && s.buckets[b] >= q }

  predicate Enabled(s: State, a: Action) {
    match a
    case Deduct(c, b, q) => c !in s.calls && q > 0 && Sufficient(s, b, q)
    case Commit(c) => c in s.calls && s.calls[c].pc == Holding
    case Rollback(c) => c in s.calls && s.calls[c].pc == Holding && s.calls[c].bucket in s.buckets
  }

  function Next(s: State, a: Action): State
    requires Enabled(s, a)
  {
    match a
    case Deduct(c, b, q) => s.(buckets := s.buckets[b := s.buckets[b] - q], calls := s.calls[c := Call(b, q, Holding)])
    case Commit(c) => s.(db := s.db - s.calls[c].quantity, calls := s.calls[c := s.calls[c].(pc := Committed)])
    case Rollback(c) =>
      var call := s.calls[c];
      s.(buckets := s.buckets[call.bucket := s.buckets[call.bucket] + call.quantity],
         calls := s.calls[c := call.(pc := RolledBack)])
  }

  ghost predicate Step(s: State, t: State) {
    exists a :: Enabled(s, a) && t == Next(s, a)
  }

  /** Just after `SpreadStock`. */
  ghost predicate Init(s: State) {
    && s.buckets == s.initial && s.calls == map[] && s.db == Total(s.initial)
    && forall b :: b in s.initial ==> s.initial[b] >= 0
  }

  // ----- conservation, bucket by bucket

  /** What was deducted from bucket `b` and not given back. */
  ghost function TakenFrom(calls: map<CallId, Call>, b: BucketId): map<CallId, int> {
    map c | c in calls :: if calls[c].bucket == b && calls[c].pc != RolledBack then calls[c].quantity else 0
  }

  ghost function HeldOf(calls: map<CallId, Call>): map<CallId, int> {
    map c | c in calls :: if calls[c].pc == Holding then calls[c].quantity else 0
  }

  ghost predicate BucketOk(s: State, b: BucketId) {
    && (b in s.buckets <==> b in s.initial)
    && (b in s.buckets ==> s.buckets[b] >= 0 && s.buckets[b] + Total(TakenFrom(s.calls, b)) == s.initial[b])
  }

  ghost predicate Inv(s: State) {
    && (forall b :: BucketOk(s, b))
    && s.db == Total(s.buckets) + Total(HeldOf(s.calls))
    && (forall c :: c in s.calls ==> s.calls[c].quantity > 0 && s.calls[c].bucket in s.buckets)
  }

  lemma TakenWrite(calls: map<CallId, Call>, c: CallId, call: Call, b: BucketId)
    ensures Total(TakenFrom(calls[c := call], b)) == Total(TakenFrom(calls, b))
      + (if call.bucket == b && call.pc != RolledBack then call.quantity else 0)
      - (if c in calls && calls[c].bucket == b && calls[c].pc != RolledBack then calls[c].quantity else 0)
  {
    var q := if call.bucket == b && call.pc != RolledBack then call.quantity else 0;
    assert TakenFrom(calls[c := call], b) == TakenFrom(calls, b)[c := q];
    TotalWrite(TakenFrom(calls, b), c, q);
  }

  lemma HeldWrite(calls: map<CallId, Call>, c: CallId, call: Call)
    ensures Total(HeldOf(calls[c := call])) == Total(HeldOf(calls))
      + (if call.pc == Holding then call.quantity else 0)
        - (if c in calls && calls[c].pc == Holding then calls[c].quantity else 0)
  {
    var q := if call.pc == Holding then call.quantity else 0;
    assert HeldOf(calls[c := call]) == HeldOf(calls)[c := q];
    TotalWrite(HeldOf(calls), c, q);
  }

  lemma StepKeepsInv(s: State, a: Action)
    requires Inv(s) && Enabled(s, a)
    ensures Inv(Next(s, a))
  {
    var t := Next(s, a);
    assert t.calls == s.calls[a.c := t.calls[a.c]];
    HeldWrite(s.calls, a.c, t.calls[a.c]);
    if t.buckets != s.buckets {
      TotalWrite(s.buckets, t.calls[a.c].bucket, t.buckets[t.calls[a.c].bucket]);
    }
    forall b ensures BucketOk(t, b) {
      assert BucketOk(s, b);
      TakenWrite(s.calls, a.c, t.calls[a.c], b);
    }
  }

  /**
   * For every interleaving: each bucket is conserved and never negative, and the unguarded row equals what
   * the buckets still offer plus what open orders hold, so it never goes negative either.
   */
  lemma EveryBucketIsConserved(s: State, t: State)
    requires Init(s) && Reaches(Step, s, t)
    ensures Inv(t)
    ensures forall b :: b in t.buckets ==>
      b in t.initial && t.buckets[b] >= 0 && t.buckets[b] + Total(TakenFrom(t.calls, b)) == t.initial[b]
    ensures t.db == Total(t.buckets) + Total(HeldOf(t.calls)) >= 0
  {
    assert Inv(s) by {
      assert HeldOf(s.calls) == map[];
      forall b ensures BucketOk(s, b) { assert TakenFrom(s.calls, b) == map[]; }
    }
    forall x, y | Inv(x) && Step(x, y) ensures Inv(y) {
      var a :| Enabled(x, a) && y == Next(x, a);
      StepKeepsInv(x, a);
    }
    Invariant(Step, Inv, s, t);
    forall b | b in t.buckets
      ensures b in t.initial && t.buckets[b] >= 0 && t.buckets[b] + Total(TakenFrom(t.calls, b)) == t.initial[b]
    {
      assert BucketOk(t, b);
    }
    TotalNonNegative(t.buckets);
    TotalNonNegative(HeldOf(t.calls));
  }

  // ----- the single counter behind the buckets

  /** Every bucket step is a step of the single counter on the sum: a deduct it would grant too, or a give-back. */
  lemma BucketsRefineOneCounter(s: State, a: Action)
    requires Inv(s) && Enabled(s, a)
    ensures a.Deduct? ==> Total(s.buckets) >= a.quantity && Total(Next(s, a).buckets) == Total(s.buckets) - a.quantity
    ensures a.Rollback? ==> Total(Next(s, a).buckets) == Total(s.buckets) + s.calls[a.c].quantity
    ensures a.Commit? ==> Total(Next(s, a).buckets) == Total(s.buckets)
  {
    match a
    case Deduct(c, b, q) =>
      TotalWrite(s.buckets, b, s.buckets[b] - q);
      TotalRemove(s.buckets, b);
      forall x | x in s.buckets ensures s.buckets[x] >= 0 { assert BucketOk(s, x); }
      TotalNonNegative(s.buckets - {b});
    case Rollback(c) =>
      TotalWrite(s.buckets, s.calls[c].bucket, s.buckets[s.calls[c].bucket] + s.calls[c].quantity);
    case Commit(_) =>
  }

  // ----- runs without rollback

  ghost predicate QuietStep(s: State, t: State) {
    exists a :: Enabled(s, a) && !a.Rollback? && t == Next(s, a)
  }

  ghost predicate Drained(s: State, t: State) {
    s.buckets.Keys == t.buckets.Keys && forall b :: b in s.buckets ==> t.buckets[b] <= s.buckets[b]
  }

  lemma QuietRunsOnlyDrain(s: State, t: State)
    requires Reaches(QuietStep, s, t)
    ensures Drained(s, t)
  {
    forall x, y, z | Any(y) && QuietStep(y, z) && Drained(z, x) ensures Drained(y, x) {
      var a :| Enabled(y, a) && !a.Rollback? && z == Next(y, a);
      forall b | b in y.buckets ensures x.buckets[b] <= y.buckets[b] { assert b in z.buckets; }
    }
    Relation(QuietStep, Any, Drained, s, t);
  }

  // ----- what a full, failed lap of probes means

  lemma {:induction false} KeysBelow(keys: set<nat>, n: nat)
    requires forall k :: k in keys ==> k < n
    ensures |keys| <= n
  {
    if n > 0 {
      KeysBelow(keys - {n - 1}, n - 1);
    } else {
      assert keys == {};
    }
  }

  lemma {:induction false} TotalAtMost(m: map<BucketId, int>, bound: int)
    requires bound >= 0 && forall b :: b in m ==> m[b] <= bound
    ensures Total(m) <= |m| * bound
    decreases |m|
  {
    if m != map[] {
      var b :| b in m && Total(m) == m[b] + Total(m - {b});
      assert m == (m - {b})[b := m[b]];
      assert |m - {b}| == |m| - 1;
      TotalAtMost(m - {b}, bound);
      assert (|m| - 1) * bound + bound == |m| * bound;
    }
  }

  lemma Scale(a: nat, b: nat, x: int)
    requires a <= b && x >= 0
    ensures a * x <= b * x
  {
  }

  /** Fragmentation: if no bucket of `n` has `q`, what is left is at most `n * (q - 1)`; for one unit, nothing is. */
  lemma FragmentationBound(buckets: map<BucketId, int>, n: nat, q: int)
    requires q > 0 && forall b :: b in buckets ==> b < n && buckets[b] < q
    ensures Total(buckets) <= n * (q - 1)
  {
    KeysBelow(buckets.Keys, n);
    TotalAtMost(buckets, q - 1);
    Scale(|buckets.Keys|, n, q - 1);
  }

  /** `n` buckets of `v` each. */
  ghost function Even(n: nat, v: int): (m: map<BucketId, int>)
    ensures forall b: BucketId :: (b in m <==> b < n) && (b in m ==> m[b] == v)
  {
    if n == 0 then map[] else Even(n - 1, v)[n - 1 := v]
  }

  lemma EvenGrows(n: nat, v: int)
    requires n > 0
    ensures Total(Even(n, v)) == Total(Even(n - 1, v)) + v
  {
    var last: BucketId := n - 1;
    assert last !in Even(n - 1, v);
    TotalWrite(Even(n - 1, v), last, v);
    assert Even(n, v) == Even(n - 1, v)[last := v];
  }

  lemma {:induction false} EvenTotal(n: nat, v: int)
    ensures Total(Even(n, v)) == n * v
  {
    if n > 0 {
      EvenTotal(n - 1, v);
      EvenGrows(n, v);
      OneMore(n, v);
    }
  }

  /** The bound is met: `n` buckets of `q - 1` each refuse `q` and hold `n * (q - 1)`. */
  lemma FragmentationIsTight(n: nat, q: int)
    requires q > 0
    ensures exists buckets: map<BucketId, int> ::
      (forall b :: b in buckets ==> b < n && buckets[b] < q) && Total(buckets) == n * (q - 1)
  {
    EvenTotal(n, q - 1);
    var buckets := Even(n, q - 1);
    assert forall b :: b in buckets ==> b < n && buckets[b] < q;
  }
}

/** The probe loop, the order path over buckets, spreading and totalling as code. */
module BucketsCode {
  import opened Runs
  import opened Sums
  import opened Buckets

  datatype Config = Config(bucketCount: nat, maxProbes: nat)

  datatype Verdict = Deducted | Insufficient | RedisError

  datatype DeductResult = DeductResult(verdict: Verdict, bucket: int, remaining: int, probes: nat)

  /** `hash` is the FNV-1a hash of the request id; only its range matters. */
  function StartBucket(hash: nat, bucketCount: int): (b: nat)
    ensures bucketCount > 0 ==> b < bucketCount
    ensures bucketCount <= 0 ==> b == 0
  {
    if bucketCount <= 0 then 0 else hash % bucketCount
  }

  /** The bucket of probe `i`. */
  function ProbeAt(start: nat, i: nat, n: nat): nat
    requires n > 0
  {
    (start + i) % n
  }

  function Probed(cfg: Config, hash: nat, i: nat): nat
    requires cfg.bucketCount >= 1
  {
    ProbeAt(StartBucket(hash, cfg.bucketCount), i, cfg.bucketCount)
  }

  /** The first probe looks at the bucket the hash falls on, each further probe at the next, round the buckets. */
  lemma ProbesGoRound(cfg: Config, hash: nat, i: nat)
    requires cfg.bucketCount >= 1
    ensures Probed(cfg, hash, 0) == hash % cfg.bucketCount
    ensures Probed(cfg, hash, i + 1) ==
      if Probed(cfg, hash, i) == cfg.bucketCount - 1 then 0 else Probed(cfg, hash, i) + 1
  {
    var n, start := cfg.bucketCount, StartBucket(hash, cfg.bucketCount);
    RemainderIs(start, n, 0, start);
    var q, r := (start + i) / n, (start + i) % n;
    if r == n - 1 {
      RemainderIs(start + i + 1, n, q + 1, 0);
    } else {
      RemainderIs(start + i + 1, n, q, r + 1);
    }
  }

  /** A lap of `n` probes from `start` visits every bucket. */
  lemma LapVisits(start: nat, n: nat, b: nat) returns (i: nat)
    requires start < n && b < n
    ensures i < n && ProbeAt(start, i, n) == b
  {
    if b >= start {
      i := b - start;
      RemainderIs(start + i, n, 0, b);
    } else {
      i := b + n - start;
      RemainderIs(start + i, n, 1, b);
    }
  }

  lemma RemainderIs(x: int, n: nat, q: int, r: nat)
    requires r < n && x == q * n + r
    ensures x % n == r
  {
    var d := x / n - q;
    assert d * n == r - x % n;
    FarMultiple(d, n);
  }

  lemma FarMultiple(d: int, n: nat)
    ensures d == 0 || d * n >= n || d * n + n <= 0
  {
    if d > 0 { assert d * n >= n; }
    if d < 0 { assert d * n + n <= 0; }
  }

  /** How many probes a result took, and where the last one succeeded. */
  ghost predicate Walked(cfg: Config, hash: nat, fault: nat, r: DeductResult)
    requires cfg.bucketCount >= 1
  {
    && 1 <= r.probes <= 1 + cfg.maxProbes
    && (r.verdict == Deducted ==> r.probes <= fault && r.bucket == Probed(cfg, hash, r.probes - 1))
    && (r.verdict != Deducted ==> r.bucket == -1)
    && (r.verdict == RedisError ==> r.probes == fault + 1)
    && (r.verdict == Insufficient ==> r.probes == 1 + cfg.maxProbes <= fault)
  }

  class Store {
    var s: State
    ghost var origin: State
    /** Whether the other processes of this run give no stock back. */
    ghost const quiet: bool

    ghost predicate Valid()
      reads this
    {
      Init(origin) && Reaches(Step, origin, s)
    }

    constructor (s0: State, ghost quiet: bool)
      requires Init(s0)
      ensures Valid() && s == origin == s0 && this.quiet == quiet
    {
      this.s, this.origin, this.quiet := s0, s0, quiet;
      new;
      Stay(Step, s);
    }

    /** Any run of the other calls; without rollbacks when the run is quiet. */
    method Interfere(ghost c: CallId)
      modifies this`s
      ensures Reaches(Step, old(s), s) && (quiet ==> Reaches(QuietStep, old(s), s))
      ensures c in old(s.calls) <==> c in s.calls
      ensures c in s.calls ==> s.calls[c] == old(s.calls[c])
    {
      Stay(Step, s);
      Stay(QuietStep, s);
    }

    method Others(ghost c: CallId)
      requires Valid()
      modifies this`s
      ensures Valid() && (c in old(s.calls) <==> c in s.calls) && (quiet ==> Drained(old(s), s))
      ensures c in s.calls ==> s.calls[c] == old(s.calls[c])
    {
      Interfere(c);
      Concat(Step, origin, old(s), s);
      if quiet { QuietRunsOnlyDrain(old(s), s); }
    }

    method Do(a: Action)
      requires Valid() && Enabled(s, a)
      modifies this`s
      ensures Valid() && s == Next(old(s), a)
    {
      Extend(Step, origin, s, Next(s, a));
      s := Next(s, a);
    }

    /** Bucket `b` cannot serve `q`. */
    ghost predicate Short(b: BucketId, q: int)
      reads this
    {
      b in s.buckets ==> s.buckets[b] < q
    }

    /** In a quiet run every bucket that was probed in vain is still short. */
    ghost predicate ShortSoFar(cfg: Config, hash: nat, q: int, r: DeductResult)
      requires cfg.bucketCount >= 1
      reads this
    {
      quiet ==>
        forall i :: 0 <= i < (if r.verdict == Insufficient then r.probes else r.probes - 1) ==>
          Short(Probed(cfg, hash, i), q)
    }

    /**
     * Probes at most `1 + maxProbes` buckets from `start` on, while others run between the probes. In a
     * quiet run a refusal means that at its end every probed bucket is short, and after a full lap all are.
     * Probe `fault`, if it gets that far, meets an error of Redis, which may hide that the script took effect:
     * then that bucket has lost `q`, and the result does not say so.
     */
    method DeductWithProbe(cfg: Config, c: CallId, hash: nat, q: int, fault: nat, faultActs: bool)
      returns (r: DeductResult)
      requires Valid() && c !in s.calls && q > 0 && cfg.bucketCount >= 1
      modifies this`s
      ensures Valid()
      ensures Walked(cfg, hash, fault, r) && ShortSoFar(cfg, hash, q, r)
      ensures r.verdict == Deducted ==>
        && r.bucket in s.buckets && s.buckets[r.bucket] == r.remaining >= 0
        && c in s.calls && s.calls[c] == Call(r.bucket, q, Holding)
      ensures r.verdict == Insufficient ==> c !in s.calls
      ensures r.verdict == RedisError && c in s.calls ==>
        faultActs && s.calls[c] == Call(Probed(cfg, hash, fault), q, Holding)
      ensures r.verdict == Insufficient && quiet && cfg.maxProbes >= cfg.bucketCount - 1 ==>
        (forall b :: 0 <= b < cfg.bucketCount ==> Short(b, q))
        && ((forall b :: b in s.buckets ==> b < cfg.bucketCount) ==> Total(s.buckets) <= cfg.bucketCount * (q - 1))
    {
      var n, start := cfg.bucketCount, StartBucket(hash, cfg.bucketCount);
      var budget := 1 + cfg.maxProbes;
      for i := 0 to budget
        invariant Valid() && c !in s.calls && i <= fault
        invariant quiet ==> forall j :: 0 <= j < i ==> Short(ProbeAt(start, j, n), q)
      {
        Others(c);
        var bucket := ProbeAt(start, i, n);
        if i == fault {
          if faultActs && Sufficient(s, bucket, q) { Do(Deduct(c, bucket, q)); }
          return DeductResult(RedisError, -1, 0, i + 1);
        }
        if Sufficient(s, bucket, q) {
          Do(Deduct(c, bucket, q));
          return DeductResult(Deducted, bucket, s.buckets[bucket], i + 1);
        }
      }
      r := DeductResult(Insufficient, -1, 0, budget);
      if quiet && cfg.maxProbes >= n - 1 {
        forall b | 0 <= b < n ensures Short(b, q) {
          var i := LapVisits(start, n, b);
          assert Short(ProbeAt(start, i, n), q);
        }
        if forall b :: b in s.buckets ==> b < n {
          assert forall b :: b in s.buckets ==> Short(b, q);
          FragmentationBound(s.buckets, n, q);
        }
      }
    }

    lemma BucketOfCallExists(c: CallId)
      requires Valid() && c in s.calls
      ensures s.calls[c].bucket in s.buckets
    {
      EveryBucketIsConserved(origin, s);
    }

    /** A negative bucket number says that nothing was deducted. `acts`: the INCRBY takes effect. */
    method RollbackToBucket(c: CallId, bucket: int, acts: bool)
      requires Valid()
      requires bucket >= 0 ==> c in s.calls && s.calls[c].pc == Holding && s.calls[c].bucket == bucket
      modifies this`s
      ensures Valid()
      ensures bucket < 0 ==> s == old(s)
      ensures !acts ==> s == old(s)
      ensures bucket >= 0 && acts ==> s.calls == old(s.calls)[c := old(s.calls[c]).(pc := RolledBack)]
      ensures bucket >= 0 && acts ==> bucket in old(s.buckets)
      ensures bucket >= 0 && acts ==>
        s.buckets == old(s.buckets)[bucket := old(s.buckets)[bucket] + old(s.calls)[c].quantity]
    {
      if bucket < 0 || !acts { return; }
      BucketOfCallExists(c);
      Do(Rollback(c));
    }

    /** `dbOk` is the database's answer to the transaction; the error of the rollback is dropped. */
    method PlaceOrderWithBucketDeduct(
        cfg: Config, c: CallId, hash: nat, q: int, fault: nat, faultActs: bool, dbOk: bool, rollbackActs: bool)
      returns (placed: bool, r: DeductResult)
      requires Valid() && c !in s.calls && cfg.bucketCount >= 1
      modifies this`s
      ensures Valid()
      ensures q <= 0 ==> s == old(s)
      ensures placed <==> q > 0 && r.verdict == Deducted && dbOk
      ensures q > 0 ==> Walked(cfg, hash, fault, r)
      ensures q > 0 && r.verdict != Deducted ==> ShortSoFar(cfg, hash, q, r)
      ensures q > 0 && r.verdict == Deducted ==> c in s.calls
      ensures q > 0 && r.verdict == Deducted ==>
        s.calls[c] == Call(r.bucket, q, if dbOk then Committed else if rollbackActs then RolledBack else Holding)
      ensures r.verdict == Insufficient ==> c !in s.calls
      ensures r.verdict == RedisError ==>
        (c in s.calls ==> faultActs && s.calls[c] == Call(Probed(cfg, hash, fault), q, Holding))
      ensures s.db == Total(s.buckets) + Total(HeldOf(s.calls)) >= 0
    {
      Conserved();
      if q <= 0 { return false, DeductResult(Insufficient, -1, 0, 0); }
      r := DeductWithProbe(cfg, c, hash, q, fault, faultActs);
      if r.verdict == Deducted { Conclude(c, r.bucket, q, dbOk, rollbackActs); }
      Conserved();
      placed := r.verdict == Deducted && dbOk;
    }

    /** From the deducted bucket on. */
    method Conclude(c: CallId, bucket: BucketId, q: int, dbOk: bool, rollbackActs: bool)
      requires Valid() && c in s.calls && s.calls[c] == Call(bucket, q, Holding)
      modifies this`s
      ensures Valid() && c in s.calls
      ensures s.calls[c] == Call(bucket, q, if dbOk then Committed else if rollbackActs then RolledBack else Holding)
    {
      Others(c);
      if dbOk {
        Do(Commit(c));
      } else {
        RollbackToBucket(c, bucket, rollbackActs);
      }
    }

    lemma Conserved()
      requires Valid()
      ensures s.db == Total(s.buckets) + Total(HeldOf(s.calls)) >= 0
    {
      EveryBucketIsConserved(origin, s);
    }
  }

  // ----- spreading and totalling

  /** Go's integer division truncates toward zero. */
  function Quotient(t: int, n: int): int
    requires n > 0
  {
    if t >= 0 then t / n else -(-t / n)
  }

  function Remainder(t: int, n: int): int
    requires n > 0
  {
    t - n * Quotient(t, n)
  }

  lemma RemainderRange(t: int, n: int)
    requires n > 0
    ensures if t >= 0 then 0 <= Remainder(t, n) < n else -n < Remainder(t, n) <= 0
  {
    if t < 0 { assert -t == n * (-t / n) + (-t) % n; }
  }

  /** Truncated and Euclidean remainder vanish together. */
  lemma DividesNegated(t: int, n: nat)
    requires n > 0 && t < 0
    ensures Remainder(t, n) == 0 <==> t % n == 0
  {
    if t % n == 0 {
      RemainderIs(-t, n, -(t / n), 0);
    }
    if (-t) % n == 0 {
      RemainderIs(t, n, -((-t) / n), 0);
    }
  }

  /** Bucket `b` of a spread. */
  function Share(t: int, n: int, b: int): int
    requires n > 0
  {
    Quotient(t, n) + (if b < Remainder(t, n) then 1 else 0)
  }

  /** `|s|` buckets of `q` each, the first `r` of them with one unit more. */
  lemma {:induction false} SharesSum(q: int, r: int, s: seq<int>)
    requires forall b :: 0 <= b < |s| ==> s[b] == q + (if b < r then 1 else 0)
    ensures Sum(s) == |s| * q + (if r < 0 then 0 else if |s| < r then |s| else r)
  {
    if s != [] {
      var k := |s| - 1;
      SharesSum(q, r, s[..k]);
      SumAppend(s[..k], s[k]);
      assert s == s[..k] + [s[k]];
      assert |s| * q == k * q + q;
    }
  }

  function Plan(total: int, n: nat): (planned: seq<int>)
    requires n >= 1
    ensures |planned| == n && forall b :: 0 <= b < n ==> planned[b] == Share(total, n, b)
  {
    seq(n, b requires 0 <= b < n => Share(total, n, b))
  }

  lemma PlanIsExact(total: int, n: nat)
    requires n >= 1
    ensures var planned := Plan(total, n);
      && (Sum(planned) == total <==> total >= 0 || total % n == 0)
      && (forall a, b :: 0 <= a <= b < n ==> 0 <= planned[a] - planned[b] <= 1)
      && (total >= 0 ==> forall b :: 0 <= b < n ==> planned[b] >= 0)
  {
    PlanSums(total, n);
    if total < 0 { DividesNegated(total, n); }
  }

  lemma PlanSums(total: int, n: nat)
    requires n >= 1
    ensures var planned := Plan(total, n);
      && (Sum(planned) == total <==> total >= 0 || Remainder(total, n) == 0)
      && (forall a, b :: 0 <= a <= b < n ==> 0 <= planned[a] - planned[b] <= 1)
      && (total >= 0 ==> forall b :: 0 <= b < n ==> planned[b] >= 0)
  {
    var q := Quotient(total, n);
    RemainderRange(total, n);
    SharesSum(q, Remainder(total, n), Plan(total, n));
    if total >= 0 { assert q >= 0; }
  }

  /** `MSET` of bucket keys `0..|values|`; keys past them keep their values. */
  function Overwrite(buckets: map<BucketId, int>, values: seq<int>): (after: map<BucketId, int>)
    ensures forall b :: 0 <= b < |values| ==> b in after && after[b] == values[b]
  {
    buckets + (map b: BucketId | 0 <= b < |values| :: values[b])
  }

  /**
   * A spread is even and absolute: buckets differ by at most one, the first ones have more, and a second
   * spread of the same stock changes nothing. The buckets sum to the stock if and only if the stock is not
   * negative or divides evenly: a negative remainder is handed to no bucket.
   */
  lemma SpreadIsExact(buckets: map<BucketId, int>, total: int, n: nat)
    requires n >= 1
    ensures var after := Overwrite(buckets, Plan(total, n));
      && (Total(Below(after, n)) == total <==> total >= 0 || total % n == 0)
      && (forall a, b :: 0 <= a <= b < n ==> 0 <= after[a] - after[b] <= 1)
      && (total >= 0 ==> forall b :: 0 <= b < n ==> after[b] >= 0)
      && Overwrite(after, Plan(total, n)) == after
  {
    PlanIsExact(total, n);
    OverwriteSums(buckets, Plan(total, n));
  }

  lemma OverwriteSums(buckets: map<BucketId, int>, values: seq<int>)
    ensures var after := Overwrite(buckets, values);
      Total(Below(after, |values|)) == Sum(values) && Overwrite(after, values) == after
  {
    SumIsTotal(Overwrite(buckets, values), values);
  }

  /** The bucket keys of one product in Redis. */
  class Keys {
    var buckets: map<BucketId, int>

    constructor (buckets: map<BucketId, int>)
      ensures this.buckets == buckets
    {
      this.buckets := buckets;
    }

    /** Plan `n` buckets, then write them all at once. `total` is the stock column of the product row. */
    method SpreadStock(total: int, n: nat) returns (planned: array<int>)
      requires n >= 1
      modifies this
      ensures buckets == Overwrite(old(buckets), Plan(total, n))
      ensures fresh(planned) && planned.Length == n && forall b :: 0 <= b < n ==> planned[b] == buckets[b]
      ensures Total(Below(buckets, n)) == total <==> total >= 0 || total % n == 0
    {
      var base, remainder := Quotient(total, n), Remainder(total, n);
      planned := new int[n];
      var values: map<BucketId, int> := map[];
      for b := 0 to n
        invariant forall i :: 0 <= i < b ==> planned[i] == Share(total, n, i)
        invariant values == map i: BucketId | 0 <= i < b :: Share(total, n, i)
        invariant buckets == old(buckets)
      {
        var qty := base;
        if b < remainder { qty := qty + 1; }
        planned[b] := qty;
        values := values[b := qty];
      }
      assert values == map b: BucketId | 0 <= b < n :: Plan(total, n)[b];
      buckets := buckets + values;
      SpreadIsExact(old(buckets), total, n);
    }

    /** One `MGET` of `n` bucket keys: a missing key counts zero, keys past `n` do not count. */
    method TotalRemaining(n: nat) returns (total: int, perBucket: array<int>)
      ensures fresh(perBucket) && perBucket.Length == n
      ensures forall b :: 0 <= b < n ==> perBucket[b] == if b in buckets then buckets[b] else 0
      ensures total == Sum(perBucket[..]) == Total(Below(buckets, n))
      ensures (forall b :: b in buckets ==> b < n) ==> total == Total(buckets)
    {
      perBucket := new int[n](_ => 0);
      total := 0;
      for b := 0 to n
        invariant forall i :: 0 <= i < n ==> perBucket[i] == if i < b && i in buckets then buckets[i] else 0
        invariant total == Sum(perBucket[..b])
      {
        ghost var done := perBucket[..b];
        if b in buckets {
          perBucket[b] := buckets[b];
          total := total + buckets[b];
        }
        SumAppend(done, perBucket[b]);
        assert perBucket[..b + 1] == done + [perBucket[b]];
      }
      assert perBucket[..n] == perBucket[..];
      SumIsTotal(buckets, perBucket[..]);
      AllBelow(buckets, n);
    }
  }

  lemma {:induction false} SumIsTotal(buckets: map<BucketId, int>, s: seq<int>)
    requires forall b :: 0 <= b < |s| ==> s[b] == if b in buckets then buckets[b] else 0
    ensures Sum(s) == Total(Below(buckets, |s|))
  {
    if s == [] {
      assert Below(buckets, 0) == map[];
    } else {
      var k := |s| - 1;
      SumIsTotal(buckets, s[..k]);
      BelowGrows(buckets, k);
      SumAppend(s[..k], s[k]);
      assert s == s[..k] + [s[k]];
    }
  }

  lemma AllBelow(buckets: map<BucketId, int>, n: nat)
    ensures (forall b :: b in buckets ==> b < n) ==> Below(buckets, n) == buckets
  {
  }

  ghost function Below(buckets: map<BucketId, int>, n: nat): map<BucketId, int> {
    map b | b in buckets && b < n :: buckets[b]
  }

  lemma BelowGrows(buckets: map<BucketId, int>, n: nat)
    ensures Total(Below(buckets, n + 1)) == Total(Below(buckets, n)) + (if n in buckets then buckets[n] else 0)
  {
    if n in buckets {
      assert Below(buckets, n + 1) == Below(buckets, n)[n := buckets[n]];
      TotalWrite(Below(buckets, n), n, buckets[n]);
    } else {
      assert Below(buckets, n + 1) == Below(buckets, n);
    }
  }
}
