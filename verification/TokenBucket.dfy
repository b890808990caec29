/** The token bucket: an exact law for its token count, and the exact condition under which it admits. */
module TokenBucket {

  /** One `Allow` call: its clock reading and its answer. */
  datatype Decision = Decision(at: real, admitted: bool)

  /** How many of the decisions `from..` were admitted. */
  ghost function Admitted(h: seq<Decision>, from: nat): nat
    requires from <= |h|
    decreases |h| - from
  {
    if from == |h| then 0 else (if h[from].admitted then 1 else 0) + Admitted(h, from + 1)
  }

  /** The bound of the window that starts at decision `j` (`j == |h|`: the empty window) and ends at `now`. */
  ghost function Room(capacity: real, rate: real, h: seq<Decision>, j: nat, now: real): real
    requires j <= |h|
  {
    if j == |h| then capacity else capacity + Gain(rate, h[j].at, now) - Admitted(h, j) as real
  }

  /** What `rate` refills between two readings. */
  function Gain(rate: real, from: real, to: real): real { (to - from) * rate }

  lemma GainSplits(rate: real, a: real, b: real, c: real)
    ensures Gain(rate, a, c) == Gain(rate, a, b) + Gain(rate, b, c)
  {
  }

  /** From whatever reading on, `seconds` refill rate times length. */
  lemma GainOver(rate: real, from: real, seconds: real)
    ensures Gain(rate, from, from + seconds) == rate * seconds
  {
  }

  lemma GainGrows(rate: real, from: real, a: real, b: real)
    requires rate >= 0.0 && a <= b
    ensures Gain(rate, from, a) <= Gain(rate, from, b) && Gain(rate, from, from) == 0.0
  {
    GainSplits(rate, from, a, b);
  }

  /** `t` is the least room of all windows ending at `now`. */
  ghost predicate IsLeastRoom(capacity: real, rate: real, h: seq<Decision>, now: real, t: real) {
    && (forall j :: 0 <= j <= |h| ==> t <= Room(capacity, rate, h, j, now))
    && (exists j :: 0 <= j <= |h| && t == Room(capacity, rate, h, j, now))
  }

  lemma {:induction false} AdmittedAppend(h: seq<Decision>, d: Decision, from: nat)
    requires from <= |h|
    ensures Admitted(h + [d], from) == Admitted(h, from) + (if d.admitted then 1 else 0)
    decreases |h| - from
  {
    if from < |h| {
      AdmittedAppend(h, d, from + 1);
    } else {
      assert (h + [d])[from] == d;
    }
  }

  function Cost(d: Decision): real { if d.admitted then 1.0 else 0.0 }

  /** Every window that began before `d` changes its room by the same amount. */
  lemma RoomAfter(capacity: real, rate: real, h: seq<Decision>, d: Decision, j: nat, now: real)
    requires j <= |h|
    ensures Room(capacity, rate, h + [d], j, now) == Room(capacity, rate, h, j, d.at) - Cost(d) + Gain(rate, d.at, now)
  {
    AdmittedAppend(h, d, j);
    if j < |h| {
      assert (h + [d])[j] == h[j];
      GainSplits(rate, h[j].at, d.at, now);
    }
  }

  function Capped(capacity: real, t: real): real { if t > capacity then capacity else t }

  /** The tokens left after `d`, refilled until `now` and capped, are the least room of the windows ending now. */
  lemma RefillIsLeastRoom(capacity: real, rate: real, h: seq<Decision>, d: Decision, before: real, now: real)
    requires IsLeastRoom(capacity, rate, h, d.at, before)
    ensures IsLeastRoom(capacity, rate, h + [d], now, Capped(capacity, before - Cost(d) + Gain(rate, d.at, now)))
  {
    var g := h + [d];
    var left := before - Cost(d) + Gain(rate, d.at, now);
    forall j | 0 <= j <= |g| ensures Capped(capacity, left) <= Room(capacity, rate, g, j, now) {
      if j <= |h| { RoomAfter(capacity, rate, h, d, j, now); }
    }
    var k :| 0 <= k <= |h| && before == Room(capacity, rate, h, k, d.at);
    RoomAfter(capacity, rate, h, d, k, now);
    assert Room(capacity, rate, g, |g|, now) == capacity;
    assert Room(capacity, rate, g, k, now) == left;
  }

  /** A history whose every decision was taken as `Allow` takes it. */
  ghost predicate Produced(capacity: real, rate: real, h: seq<Decision>) {
    forall i {:trigger h[i]} :: 1 <= i < |h| && h[i].admitted ==>
      forall j :: 0 <= j <= i ==> Room(capacity, rate, h[..i], j, h[i].at) >= 1.0
  }

  class Bucket {
    const capacity: real
    const rate: real
    var tokens: real
    var last: real
    ghost var history: seq<Decision>

    /** Tokens and last reading are what the history says: the least room, less the last admission. */
    ghost predicate Valid()
      reads this
    {
      && |history| > 0
      && last == history[|history| - 1].at
      && Produced(capacity, rate, history)
      && IsLeastRoom(capacity, rate, history[..|history| - 1], last, Before())
    }

    /** The tokens the last decision was taken on. */
    ghost function Before(): real
      requires |history| > 0
      reads this
    {
      tokens + Cost(history[|history| - 1])
    }

    /** The clock reading of the construction counts as a decision that admitted nothing. */
    constructor (capacity: int, refillPerSecond: real, now: real)
      ensures Valid() && this.capacity == capacity as real && this.rate == refillPerSecond
      ensures history == [Decision(now, false)]
    {
      this.capacity, this.rate := capacity as real, refillPerSecond;
      this.tokens, this.last := capacity as real, now;
      this.history := [Decision(now, false)];
      new;
      assert Room(this.capacity, rate, history[..0], 0, now) == this.capacity;
    }

    lemma Refill(now: real)
      requires Valid()
      ensures IsLeastRoom(capacity, rate, history, now, Capped(capacity, tokens + Gain(rate, last, now)))
    {
      var h, d := history[..|history| - 1], history[|history| - 1];
      assert history == h + [d];
      RefillIsLeastRoom(capacity, rate, h, d, Before(), now);
    }

    /** Admits exactly when one more admission keeps every window ending now within its bound. */
    method Allow(now: real) returns (ok: bool)
      requires Valid()
      modifies this
      ensures Valid() && history == old(history) + [Decision(now, ok)]
      ensures ok <==> forall j :: 0 <= j <= |old(history)| ==> Room(capacity, rate, old(history), j, now) >= 1.0
      ensures IsLeastRoom(capacity, rate, old(history), now, Before())
    {
      ghost var before := history;
      Refill(now);
      tokens := tokens + Gain(rate, last, now);
      if tokens > capacity { tokens := capacity; }
      last := now;
      if tokens >= 1.0 {
        tokens := tokens - 1.0;
        ok := true;
      } else {
        ok := false;
      }
      history := history + [Decision(now, ok)];
      assert history[..|history| - 1] == before;
      forall i | 1 <= i < |history| && history[i].admitted
        ensures forall j :: 0 <= j <= i ==> Room(capacity, rate, history[..i], j, history[i].at) >= 1.0
      {
        if i < |before| { assert before[i].admitted && history[..i] == before[..i]; }
      }
    }

    /** Under a clock that does not go back, this bucket kept its rate over every window of its life. */
    lemma Bounded(j: nat)
      requires Valid() && capacity >= 0.0 && rate >= 0.0 && 1 <= j < |history|
      requires forall a, b :: 0 <= a <= b < |history| ==> history[a].at <= history[b].at
      ensures Admitted(history, j) as real <= capacity + (last - history[j].at) * rate
    {
      WindowLaw(capacity, rate, history, j);
    }

    /** Reads the tokens a decision at `now` would be taken on; changes nothing. */
    method Tokens(now: real) returns (t: real)
      requires Valid()
      ensures IsLeastRoom(capacity, rate, history, now, t)
    {
      t := tokens + Gain(rate, last, now);
      if t > capacity { t := capacity; }
      Refill(now);
    }
  }

  /** In any window from one decision to a later one, admissions stay within capacity + rate * length. */
  lemma {:induction false} WindowLaw(capacity: real, rate: real, h: seq<Decision>, j: nat)
    requires Produced(capacity, rate, h) && capacity >= 0.0 && rate >= 0.0
    requires 1 <= j < |h|
    requires forall a, b :: 0 <= a <= b < |h| ==> h[a].at <= h[b].at
    ensures Admitted(h, j) as real <= capacity + Gain(rate, h[j].at, h[|h| - 1].at)
    decreases |h|
  {
    var n := |h| - 1;
    var g, d := h[..n], h[n];
    assert h == g + [d];
    AdmittedAppend(g, d, j);
    GainGrows(rate, h[j].at, h[j].at, d.at);
    if d.admitted {
      assert Room(capacity, rate, h[..n], j, d.at) >= 1.0;
      if j < n {
        assert g[j] == h[j];
      } else {
        assert Admitted(g, n) == 0;
      }
    } else if j < n {
      forall i | 1 <= i < n && g[i].admitted
        ensures forall k :: 0 <= k <= i ==> Room(capacity, rate, g[..i], k, g[i].at) >= 1.0
      {
        assert h[i].admitted && g[..i] == h[..i];
      }
      WindowLaw(capacity, rate, g, j);
      assert g[j] == h[j] && g[n - 1] == h[n - 1];
      GainGrows(rate, h[j].at, h[n - 1].at, h[n].at);
    }
  }
}
