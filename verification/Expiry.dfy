/** The expiry index: a sorted set of order ids scored by due time in milliseconds, claimed in batches. */
module ExpiryIndex {
  import opened Runs

  type Member = nat

  ghost function Due(z: map<Member, int>, now: int): set<Member> {
    set m | m in z && z[m] <= now
  }

  function Members(batch: seq<Member>): set<Member> { set m | m in batch }

  ghost predicate Distinct(batch: seq<Member>) {
    forall i, j :: 0 <= i < j < |batch| ==> batch[i] != batch[j]
  }

  /** `ZRANGE key -inf now BYSCORE LIMIT 0 limit`: the earliest due members; ties are broken somehow. */
  ghost predicate IsRange(z: map<Member, int>, now: int, limit: nat, batch: seq<Member>) {
    && Distinct(batch)
    && (forall m :: m in batch ==> m in Due(z, now))
    && |batch| == (if |Due(z, now)| < limit then |Due(z, now)| else limit)
    && (forall i, j :: 0 <= i < j < |batch| ==> Earlier(z, batch[i], batch[j]))
    && (forall m, x :: m in batch && x in Due(z, now) && x !in batch ==> Earlier(z, m, x))
  }

  predicate Earlier(z: map<Member, int>, m: Member, x: Member) { m in z && x in z && z[m] <= z[x] }

  /** Every member of the batch moves to `score`. */
  function Rescored(z: map<Member, int>, batch: seq<Member>, score: int): map<Member, int> {
    map m | m in z :: if m in batch then score else z[m]
  }

  class Index {
    var z: map<Member, int>

    constructor ()
      ensures z == map[]
    {
      z := map[];
    }

    /** The order becomes due at `expiresAt`, whatever it was before, and nothing else changes. */
    method IndexOrder(m: Member, expiresAt: int)
      modifies this
      ensures forall now :: Due(z, now) == (if expiresAt <= now then Due(old(z), now) + {m} else Due(old(z), now) - {m})
      ensures m in z && forall x :: x != m ==> (x in z <==> x in old(z)) && (x in z ==> z[x] == old(z)[x])
    {
      z := z[m := expiresAt];
    }

    /** The claim script; `range` is what its ZRANGE returns. */
    method ClaimDue(now: int, batchSize: nat, extension: int, range: seq<Member>) returns (claimed: seq<Member>)
      requires IsRange(z, now, batchSize, range)
      modifies this
      ensures claimed == range && z == Rescored(old(z), range, now + extension)
    {
      var newScore := now + extension;
      for i := 0 to |range|
        invariant z == Rescored(old(z), range[..i], newScore)
      {
        assert range[i] in Due(old(z), now);
        assert range[..i + 1] == range[..i] + [range[i]];
        z := z[range[i] := newScore];
        assert z == Rescored(old(z), range[..i + 1], newScore);
      }
      assert range[..|range|] == range;
      claimed := range;
    }

    /** The order is never due again, and nothing else changes. */
    method RemoveProcessedExpiry(m: Member)
      modifies this
      ensures forall now :: Due(z, now) == Due(old(z), now) - {m}
      ensures m !in z && forall x :: x != m ==> (x in z <==> x in old(z)) && (x in z ==> z[x] == old(z)[x])
    {
      z := z - {m};
    }
  }

  // ----- a claim hides a member for the extension

  /**
   * A worker reads its clock before it runs the script, so the readings of the claims come in any order.
   * `claimedAt` remembers, for a member not re-indexed since, the reading of its last claim.
   */
  datatype State = State(extension: int, z: map<Member, int>, claimedAt: map<Member, int>)

  datatype Action =
    | Reindex(m: Member, at: int)
    | Claim(now: int, limit: nat, batch: seq<Member>)
    | Remove(m: Member)

  ghost predicate Enabled(s: State, a: Action) {
    match a
    case Reindex(_, _) => true
    case Claim(now, limit, batch) => IsRange(s.z, now, limit, batch)
    case Remove(_) => true
  }

  ghost function Next(s: State, a: Action): State
    requires Enabled(s, a)
  {
    match a
    case Reindex(m, at) => s.(z := s.z[m := at], claimedAt := s.claimedAt - {m})
    case Claim(now, _, batch) =>
      s.(z := Rescored(s.z, batch, now + s.extension), claimedAt := s.claimedAt + (map m | m in Members(batch) :: now))
    case Remove(m) => s.(z := s.z - {m})
  }

  ghost predicate Step(s: State, t: State) {
    exists a :: Enabled(s, a) && t == Next(s, a)
  }

  ghost predicate Hidden(s: State) {
    forall m :: m in s.claimedAt && m in s.z ==> s.z[m] == s.claimedAt[m] + s.extension
  }

  lemma StepKeepsHidden(s: State, a: Action)
    requires Hidden(s) && Enabled(s, a)
    ensures Hidden(Next(s, a))
  {
  }

  /**
   * The clock readings of two claims of one member, not re-indexed in between, are at least the extension
   * apart, whoever claims and in whatever order the clocks were read.
   */
  lemma ClaimsAreApart(s: State, t: State, a: Action, m: Member)
    requires s.claimedAt == map[] && Reaches(Step, s, t)
    requires Enabled(t, a) && a.Claim? && m in a.batch && m in t.claimedAt
    ensures a.now >= t.claimedAt[m] + t.extension
    ensures Next(t, a).claimedAt[m] == a.now
  {
    forall x, y | Hidden(x) && Step(x, y) ensures Hidden(y) {
      var b :| Enabled(x, b) && y == Next(x, b);
      StepKeepsHidden(x, b);
    }
    Invariant(Step, Hidden, s, t);
    assert m in Due(t.z, a.now);
  }

  // ----- draining at a frozen clock

  /** Claims repeated at one instant until a batch comes back empty; `batches` are the non-empty ones. */
  ghost predicate Drains(z: map<Member, int>, now: int, limit: nat, extension: int, batches: seq<seq<Member>>) {
    if batches == [] then Due(z, now) == {}
    else
      && IsRange(z, now, limit, batches[0]) && batches[0] != []
      && Drains(Rescored(z, batches[0], now + extension), now, limit, extension, batches[1..])
  }

  ghost predicate CanDrain(z: map<Member, int>, now: int, limit: nat, extension: int) {
    exists batches :: Drains(z, now, limit, extension, batches)
  }

  ghost function Union(batches: seq<seq<Member>>): set<Member> {
    if batches == [] then {} else Members(batches[0]) + Union(batches[1..])
  }

  lemma {:induction false} DistinctSize(batch: seq<Member>)
    requires Distinct(batch)
    ensures |Members(batch)| == |batch|
  {
    if batch != [] {
      var n := |batch| - 1;
      DistinctSize(batch[..n]);
      assert Members(batch) == Members(batch[..n]) + {batch[n]};
      assert batch[n] !in batch[..n];
    } else {
      assert Members(batch) == {};
    }
  }

  /** A claim takes its batch, and nothing else, out of the due set, provided it moves the scores forward. */
  lemma ClaimTakesItsBatch(z: map<Member, int>, now: int, limit: nat, extension: int, batch: seq<Member>)
    requires IsRange(z, now, limit, batch)
    ensures var after := Due(Rescored(z, batch, now + extension), now);
      if extension >= 1 then after == Due(z, now) - Members(batch) else after == Due(z, now)
  {
  }

  /** The batches of a drain are disjoint and together are the due set. */
  lemma {:induction false} DrainIsExact(
      z: map<Member, int>, now: int, limit: nat, extension: int, batches: seq<seq<Member>>)
    requires extension >= 1 && Drains(z, now, limit, extension, batches)
    ensures Union(batches) == Due(z, now)
    ensures forall i, j :: 0 <= i < j < |batches| ==> Members(batches[i]) !! Members(batches[j])
    decreases |batches|
  {
    if batches != [] {
      var batch, rest := batches[0], batches[1..];
      ClaimTakesItsBatch(z, now, limit, extension, batch);
      DrainIsExact(Rescored(z, batch, now + extension), now, limit, extension, rest);
      assert Union(batches) == Members(batch) + Union(rest);
      assert Members(batch) <= Due(z, now);
      forall i, j | 0 <= i < j < |batches| ensures Members(batches[i]) !! Members(batches[j]) {
        if i == 0 { UnionContains(rest, j - 1); }
      }
    }
  }

  /** A drain makes ceil(|due| / limit) non-empty claims. */
  lemma {:induction false} DrainLength(
      z: map<Member, int>, now: int, limit: nat, extension: int, batches: seq<seq<Member>>)
    requires limit >= 1 && extension >= 1 && Drains(z, now, limit, extension, batches)
    ensures if batches == [] then |Due(z, now)| == 0 else (|batches| - 1) * limit < |Due(z, now)| <= |batches| * limit
    decreases |batches|
  {
    if batches != [] {
      var batch := batches[0];
      var z' := Rescored(z, batch, now + extension);
      ClaimTakesItsBatch(z, now, limit, extension, batch);
      DistinctSize(batch);
      assert Members(batch) <= Due(z, now);
      DrainLength(z', now, limit, extension, batches[1..]);
      CountBatches(|batches|, |batch|, |Due(z, now)|, limit);
    }
  }

  lemma {:induction false} UnionContains(batches: seq<seq<Member>>, i: nat)
    requires i < |batches|
    ensures Members(batches[i]) <= Union(batches)
  {
    if i > 0 { UnionContains(batches[1..], i - 1); }
  }

  lemma CountBatches(n: nat, first: nat, due: nat, limit: nat)
    requires n >= 1 && limit >= 1 && 1 <= first <= due && first == (if due < limit then due else limit)
    requires if n == 1 then due == first else (n - 2) * limit < due - first <= (n - 1) * limit
    ensures (n - 1) * limit < due <= n * limit
  {
    var m := (n - 1) * limit;
    assert n * limit == m + limit;
    if n == 1 {
      assert m == 0;
    } else {
      assert (n - 2) * limit == m - limit;
      assert first == limit;
    }
  }

  /** Draining comes to an end exactly when claims move scores forward, or nothing is due. */
  lemma DrainEndsIffScoresMove(z: map<Member, int>, now: int, limit: nat, extension: int)
    requires limit >= 1
    ensures CanDrain(z, now, limit, extension) <==> extension >= 1 || Due(z, now) == {}
  {
    if Due(z, now) == {} {
      assert Drains(z, now, limit, extension, []);
    } else if extension >= 1 {
      var batches := Drain(z, now, limit, extension);
      assert Drains(z, now, limit, extension, batches);
    } else {
      forall batches ensures !Drains(z, now, limit, extension, batches) {
        NoDrain(z, now, limit, extension, batches);
      }
    }
  }

  lemma {:induction false} NoDrain(z: map<Member, int>, now: int, limit: nat, extension: int, batches: seq<seq<Member>>)
    requires extension < 1 && Due(z, now) != {}
    ensures !Drains(z, now, limit, extension, batches)
    decreases |batches|
  {
    if Drains(z, now, limit, extension, batches) {
      ClaimTakesItsBatch(z, now, limit, extension, batches[0]);
      NoDrain(Rescored(z, batches[0], now + extension), now, limit, extension, batches[1..]);
    }
  }

  lemma {:induction false} Drain(z: map<Member, int>, now: int, limit: nat, extension: int)
    returns (batches: seq<seq<Member>>)
    requires limit >= 1 && extension >= 1
    ensures Drains(z, now, limit, extension, batches)
    decreases |Due(z, now)|
  {
    if Due(z, now) == {} {
      batches := [];
    } else {
      var batch := SomeRange(z, now, limit);
      ClaimTakesItsBatch(z, now, limit, extension, batch);
      assert batch[0] in Members(batch);
      var z' := Rescored(z, batch, now + extension);
      assert Due(z', now) < Due(z, now);
      var rest := Drain(z', now, limit, extension);
      batches := [batch] + rest;
      assert batches[1..] == rest;
    }
  }

  /** ZRANGE always has an answer. */
  lemma SomeRange(z: map<Member, int>, now: int, limit: nat) returns (batch: seq<Member>)
    ensures IsRange(z, now, limit, batch)
  {
    var left := Due(z, now);
    batch := [];
    while left != {} && |batch| < limit
      invariant left <= Due(z, now) && forall m :: m in Due(z, now) ==> (m in left <==> m !in batch)
      invariant forall m :: m in batch ==> m in Due(z, now)
      invariant Distinct(batch) && |batch| + |left| == |Due(z, now)| && |batch| <= limit
      invariant forall i, j :: 0 <= i < j < |batch| ==> Earlier(z, batch[i], batch[j])
      invariant forall m, x :: m in batch && x in left ==> Earlier(z, m, x)
      decreases |left|
    {
      var m := Earliest(z, left);
      batch := batch + [m];
      left := left - {m};
    }
  }

  lemma {:induction false} Earliest(z: map<Member, int>, among: set<Member>) returns (m: Member)
    requires among != {} && among <= z.Keys
    ensures m in among && forall x :: x in among ==> z[m] <= z[x]
    decreases |among|
  {
    m :| m in among;
    if among != {m} {
      var rest := among - {m};
      var k := Earliest(z, rest);
      if z[k] < z[m] { m := k; }
    }
  }
}
