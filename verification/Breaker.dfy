/**
 * The circuit breaker. `Do` holds the mutex before and after `fn` but not during it, so a call is two
 * atomic steps and old calls finish in later states.
 */
module Breaker {
  import opened Runs

  type CallId = nat

  datatype Mode = Closed | Open | HalfOpen

  datatype Policy = Policy(failureThreshold: int, openFor: int, halfOpenProbes: int)

  /** An `fn` that is running. `round` counts the half-open periods; it is a history variable. */
  datatype Live = Live(probing: bool, round: nat)

  datatype Completion = Completion(probing: bool, ok: bool)

  /**
   * `mode` to `probesInFlight` are the breaker's fields; the rest is the world around it and its history.
   * `started` counts the probes round `round` has started.
   */
  datatype State = State(
    policy: Policy, now: int,
    mode: Mode, failures: int, openedAt: int, probesInFlight: int,
    live: map<CallId, Live>, log: seq<Completion>, round: nat, started: nat)

  datatype Action =
    | Tick(now: int)
    | Observe
    | Start(c: CallId)
    | Finish(c: CallId, ok: bool)

  /** `checkTransitionLocked` */
  function CheckTransition(s: State): State {
    if s.mode == Open && s.now - s.openedAt >= s.policy.openFor
    then s.(mode := HalfOpen, probesInFlight := 0, round := s.round + 1, started := 0)
    else s
  }

  /** Whether `Do` runs `fn`, judged after the transition check. */
  predicate Admits(s: State) {
    s.mode == Closed || (s.mode == HalfOpen && s.probesInFlight < s.policy.halfOpenProbes)
  }

  predicate Enabled(s: State, a: Action) {
    match a
    case Tick(now) => s.now <= now
    case Observe => true
    case Start(c) => c !in s.live
    case Finish(c, _) => c in s.live
  }

  function Trip(s: State): State { s.(mode := Open, openedAt := s.now) }

  function Next(s: State, a: Action): State
    requires Enabled(s, a)
  {
    match a
    case Tick(now) => s.(now := now)
    case Observe => CheckTransition(s)
    case Start(c) =>
      var t := CheckTransition(s);
      if !Admits(t) then t
      else if t.mode == HalfOpen then
        t.(probesInFlight := t.probesInFlight + 1, started := t.started + 1, live := t.live[c := Live(true, t.round)])
      else t.(live := t.live[c := Live(false, t.round)])
    case Finish(c, ok) =>
      var call := s.live[c];
      var t := s.(live := s.live - {c}, log := s.log + [Completion(call.probing, ok)]);
      if call.probing then
        var u := t.(probesInFlight := t.probesInFlight - 1);
        if ok then u.(mode := Closed, failures := 0) else Trip(u)
      else if ok then t.(failures := 0)
      else
        var u := t.(failures := t.failures + 1);
        if u.failures >= u.policy.failureThreshold then Trip(u) else u
  }

  ghost predicate Step(s: State, t: State) {
    exists a :: Enabled(s, a) && t == Next(s, a)
  }

  ghost predicate Init(s: State) {
    && s.policy.failureThreshold >= 1 && s.policy.halfOpenProbes >= 0
    && s.mode == Closed && s.failures == 0 && s.probesInFlight == 0
    && s.live == map[] && s.log == [] && s.round == 0 && s.started == 0
  }

  // ----- what the counters mean

  /** The non-probe failures completed since the last success. */
  ghost function FailuresSinceSuccess(log: seq<Completion>): nat {
    if log == [] then 0
    else
      var c := log[|log| - 1];
      if c.ok then 0 else FailuresSinceSuccess(log[..|log| - 1]) + (if c.probing then 0 else 1)
  }

  /** The probes of round `round` whose `fn` is still running. */
  ghost function LiveProbes(live: map<CallId, Live>, round: nat): set<CallId> {
    set c | c in live && live[c].probing && live[c].round == round
  }

  ghost predicate Inv(s: State) {
    && s.policy.failureThreshold >= 1 && s.policy.halfOpenProbes >= 0
    && s.failures == FailuresSinceSuccess(s.log)
    && OpenedInPast(s)
    && (s.mode == Closed ==> s.failures < s.policy.failureThreshold)
    && (s.mode == HalfOpen ==> s.probesInFlight == s.started)
    && |LiveProbes(s.live, s.round)| <= s.started <= s.policy.halfOpenProbes
    && (forall c :: c in s.live ==> s.live[c].round <= s.round)
  }

  lemma LogAppend(log: seq<Completion>, c: Completion)
    ensures FailuresSinceSuccess(log + [c]) ==
      if c.ok then 0 else FailuresSinceSuccess(log) + (if c.probing then 0 else 1)
  {
    assert (log + [c])[..|log|] == log;
  }

  lemma CheckKeepsInv(s: State)
    requires Inv(s)
    ensures Inv(CheckTransition(s))
  {
    assert LiveProbes(s.live, s.round + 1) == {};
  }

  lemma ProbeJoins(live: map<CallId, Live>, c: CallId, call: Live, round: nat)
    requires c !in live
    ensures |LiveProbes(live[c := call], round)| ==
      |LiveProbes(live, round)| + (if call == Live(true, round) then 1 else 0)
  {
    var probes := LiveProbes(live, round);
    assert LiveProbes(live[c := call], round) == if call == Live(true, round) then probes + {c} else probes;
  }

  lemma StartKeepsInv(s: State, c: CallId)
    requires Inv(s) && Enabled(s, Start(c))
    ensures Inv(Next(s, Start(c)))
  {
    CheckKeepsInv(s);
    var t := CheckTransition(s);
    ProbeJoins(t.live, c, Live(t.mode == HalfOpen, t.round), t.round);
  }

  lemma FinishKeepsInv(s: State, c: CallId, ok: bool)
    requires Inv(s) && Enabled(s, Finish(c, ok))
    ensures Inv(Next(s, Finish(c, ok)))
  {
    LogAppend(s.log, Completion(s.live[c].probing, ok));
    assert LiveProbes(s.live - {c}, s.round) == LiveProbes(s.live, s.round) - {c};
  }

  lemma StepKeepsInv(s: State, a: Action)
    requires Inv(s) && Enabled(s, a)
    ensures Inv(Next(s, a))
  {
    match a
    case Tick(_) =>
    case Observe => CheckKeepsInv(s);
    case Start(c) => StartKeepsInv(s, c);
    case Finish(c, ok) => FinishKeepsInv(s, c, ok);
  }

  /**
   * In every interleaving of calls: `failures` is exactly the non-probe failures since the last success, a
   * closed breaker is below its threshold, and a half-open round starts at most `halfOpenProbes` probes in
   * all, because the first probe to finish, of whatever round, ends it.
   */
  lemma EveryRunCounts(s: State, t: State)
    requires Init(s) && Reaches(Step, s, t)
    ensures Inv(t)
    ensures t.failures == FailuresSinceSuccess(t.log)
    ensures t.mode == Closed ==> FailuresSinceSuccess(t.log) < t.policy.failureThreshold
    ensures |LiveProbes(t.live, t.round)| <= t.started <= t.policy.halfOpenProbes
  {
    assert LiveProbes(s.live, s.round) == {};
    forall x, y | Inv(x) && Step(x, y) ensures Inv(y) {
      var a :| Enabled(x, a) && y == Next(x, a);
      StepKeepsInv(x, a);
    }
    Invariant(Step, Inv, s, t);
  }

  /** No `fn` starts while the breaker is open and has not cooled down, in whatever state old calls left it. */
  lemma OpenStartsNothing(s: State, c: CallId)
    requires Enabled(s, Start(c)) && s.mode == Open
    ensures c in Next(s, Start(c)).live <==> s.now - s.openedAt >= s.policy.openFor && s.policy.halfOpenProbes > 0
  {
  }

  /**
   * A call starts exactly if the breaker is closed, or its half-open round has started fewer probes than the
   * limit, or it has cooled down and the limit is not zero. It is a probe unless the breaker was closed.
   */
  lemma WhatStarts(s: State, c: CallId)
    requires Inv(s) && Enabled(s, Start(c))
    ensures var t, limit := Next(s, Start(c)), s.policy.halfOpenProbes;
      && (c in t.live <==>
        || s.mode == Closed
        || (s.mode == HalfOpen && s.started < limit)
        || (s.mode == Open && s.now - s.openedAt >= s.policy.openFor && limit > 0))
      && (c in t.live ==> (t.live[c].probing <==> s.mode != Closed) && t.live.Keys == s.live.Keys + {c})
      && (c !in t.live ==> t.live == s.live)
  {
  }

  /** The only way back to closed is a probe that succeeds, even one of an older round. */
  lemma OnlyAProbeCloses(s: State, a: Action)
    requires Enabled(s, a) && s.mode != Closed
    ensures Next(s, a).mode == Closed <==> a.Finish? && s.live[a.c].probing && a.ok
  {
  }

  /**
   * Closed or half-open opens exactly on the failure that reaches the threshold, or on a failed probe, even one
   * of an older round; the cool-down then starts at that moment.
   */
  lemma WhatTrips(s: State, a: Action)
    requires Inv(s) && Enabled(s, a) && s.mode != Open
    ensures Next(s, a).mode == Open <==>
      a.Finish? && !a.ok && (s.live[a.c].probing || FailuresSinceSuccess(s.log) + 1 >= s.policy.failureThreshold)
    ensures Next(s, a).mode == Open ==> Next(s, a).openedAt == s.now
    ensures s.mode == Closed ==> Next(s, a).mode != HalfOpen
  {
  }

  // ----- the cool-down, over whole runs

  /** A step in which no probe succeeds. */
  ghost predicate NoRecovery(s: State, t: State) {
    exists a :: Enabled(s, a) && t == Next(s, a) && !(a.Finish? && s.live[a.c].probing && a.ok)
  }

  ghost predicate OpenedInPast(s: State) { s.mode == Open ==> s.openedAt <= s.now }

  ghost predicate Cools(s: State, t: State) {
    && s.now <= t.now && s.policy == t.policy
    && (s.mode == Open && t.now - s.openedAt < s.policy.openFor ==>
          t.mode == Open && s.openedAt <= t.openedAt && t.live.Keys <= s.live.Keys)
  }

  lemma StepCools(s: State, t: State)
    requires OpenedInPast(s) && NoRecovery(s, t)
    ensures OpenedInPast(t) && Cools(s, t)
  {
  }

  /**
   * While an open breaker cools down it stays open, and no `fn` starts, whatever old calls do in the
   * meantime; only a late probe that succeeds could change that. A late failure only prolongs the cool-down.
   */
  lemma CoolDownStartsNothing(s: State, t: State)
    requires OpenedInPast(s) && s.mode == Open && Reaches(NoRecovery, s, t)
    requires t.now - s.openedAt < s.policy.openFor
    ensures t.mode == Open && s.openedAt <= t.openedAt && t.live.Keys <= s.live.Keys
  {
    forall x, y | OpenedInPast(x) && NoRecovery(x, y) ensures OpenedInPast(y) { StepCools(x, y); }
    forall x, y, z | OpenedInPast(y) && NoRecovery(y, z) && Cools(z, x) ensures Cools(y, x) { StepCools(y, z); }
    Relation(NoRecovery, OpenedInPast, Cools, s, t);
  }

  // ----- lingering probes

  /** All probes that are running, whatever their round. */
  ghost function AllProbes(live: map<CallId, Live>): set<CallId> {
    set c | c in live && live[c].probing
  }

  ghost function Lingering(live: map<CallId, Live>, round: nat): set<CallId> {
    set c | c in live && live[c].probing && live[c].round < round
  }

  /** More probes than the limit run at once only if some linger from older rounds. */
  lemma ExcessProbesLinger(s: State, t: State)
    requires Init(s) && Reaches(Step, s, t)
    ensures |AllProbes(t.live)| <= t.policy.halfOpenProbes + |Lingering(t.live, t.round)|
  {
    EveryRunCounts(s, t);
    assert AllProbes(t.live) == LiveProbes(t.live, t.round) + Lingering(t.live, t.round);
    assert LiveProbes(t.live, t.round) !! Lingering(t.live, t.round);
  }

  lemma Take(s: State, t: State, a: Action, u: State)
    requires Reaches(Step, s, t) && Enabled(t, a) && u == Next(t, a)
    ensures Reaches(Step, s, u)
  {
    Extend(Step, s, t, u);
  }

  ghost function Fresh(): State {
    State(Policy(1, 5, 2), 0, Closed, 0, 0, 0, map[], [], 0, 0)
  }

  /** Round 1 started probes 1 and 2; probe 1 failed, so the breaker opened again at time 5 while probe 2 runs. */
  ghost function Reopened(): State {
    State(Policy(1, 5, 2), 5, Open, 1, 5, 1, map[2 := Live(true, 1)],
      [Completion(false, false), Completion(true, false)], 1, 2)
  }

  lemma ReopenedIsReachable()
    ensures Reaches(Step, Fresh(), Reopened())
  {
    var s1 := Fresh().(live := map[0 := Live(false, 0)]);
    assert map[0 := Live(false, 0)] - {0} == map[];
    var s2 := Fresh().(mode := Open, failures := 1, log := [Completion(false, false)]);
    var s3 := s2.(now := 5);
    var s4 := s3.(mode := HalfOpen, round := 1, probesInFlight := 1, started := 1, live := map[1 := Live(true, 1)]);
    var s5 := s4.(probesInFlight := 2, started := 2, live := map[1 := Live(true, 1), 2 := Live(true, 1)]);
    assert s5.live - {1} == map[2 := Live(true, 1)];
    assert [] + [Completion(false, false)] == [Completion(false, false)];
    assert s5.log + [Completion(true, false)] == Reopened().log;
    Stay(Step, Fresh());
    Take(Fresh(), Fresh(), Start(0), s1);
    Take(Fresh(), s1, Finish(0, false), s2);
    Take(Fresh(), s2, Tick(5), s3);
    Take(Fresh(), s3, Start(1), s4);
    Take(Fresh(), s4, Start(2), s5);
    Take(Fresh(), s5, Finish(1, false), Reopened());
  }

  /** With a limit of two, three probes can run at once: one lingers while the next round starts two. */
  lemma ThreeProbesUnderALimitOfTwo()
    ensures Init(Fresh()) && Fresh().policy.halfOpenProbes == 2
    ensures exists t :: Reaches(Step, Fresh(), t) && AllProbes(t.live) == {2, 3, 4}
  {
    ReopenedIsReachable();
    var s1 := Reopened().(now := 10);
    var s2 := s1.(mode := HalfOpen, round := 2, probesInFlight := 1, started := 1,
                  live := map[2 := Live(true, 1), 3 := Live(true, 2)]);
    var s3 := s2.(probesInFlight := 2, started := 2,
      live := map[2 := Live(true, 1), 3 := Live(true, 2), 4 := Live(true, 2)]);
    Take(Fresh(), Reopened(), Tick(10), s1);
    Take(Fresh(), s1, Start(3), s2);
    Take(Fresh(), s2, Start(4), s3);
    assert AllProbes(s3.live) == {2, 3, 4};
  }
}

/** The breaker object. Each method is what `Do` does under the mutex; `Do` itself lets other calls run in between. */
module BreakerCode {
  import opened Runs
  import opened Breaker

  class CircuitBreaker {
    const policy: Policy
    var clock: int
    var mode: Mode
    var failures: int
    var openedAt: int
    var probesInFlight: int
    /** The transition system's view of this breaker: its fields, the running calls and the history. */
    ghost var world: State
    ghost var origin: State

    ghost predicate Agrees()
      reads this
    {
      && world.policy == policy && world.now == clock && world.mode == mode && world.failures == failures
      && world.openedAt == openedAt && world.probesInFlight == probesInFlight
    }

    ghost predicate Valid()
      reads this
    {
      Init(origin) && Reaches(Step, origin, world) && Agrees()
    }

    constructor (p: Policy, now: int)
      requires p.failureThreshold >= 1 && p.halfOpenProbes >= 0
      ensures Valid() && mode == Closed && world.live == map[] && policy == p && clock == now
    {
      policy, clock, mode, failures, openedAt, probesInFlight := p, now, Closed, 0, 0, 0;
      world := State(p, now, Closed, 0, 0, 0, map[], [], 0, 0);
      origin := State(p, now, Closed, 0, 0, 0, map[], [], 0, 0);
      new;
      Stay(Step, world);
    }

    /** Time passes, other calls start and finish. */
    method Interfere(ghost c: CallId)
      requires Agrees()
      modifies this
      ensures Agrees() && Reaches(Step, old(world), world) && origin == old(origin)
      ensures c in world.live <==> c in old(world.live)
      ensures c in world.live ==> world.live[c] == old(world.live[c])
    {
      Stay(Step, world);
    }

    method Others(ghost c: CallId)
      requires Valid()
      modifies this
      ensures Valid() && (c in world.live <==> c in old(world.live)) && Reaches(Step, old(world), world)
      ensures c in world.live ==> world.live[c] == old(world.live[c])
    {
      Interfere(c);
      Concat(Step, origin, old(world), world);
    }

    ghost method Record(a: Action)
      requires Init(origin) && Reaches(Step, origin, world) && Enabled(world, a)
      modifies this`world
      ensures Reaches(Step, origin, world) && world == Next(old(world), a)
    {
      Extend(Step, origin, world, Next(world, a));
      world := Next(world, a);
    }

    method CheckTransitionLocked(now: int)
      requires Valid() && now == clock
      modifies this`mode, this`probesInFlight, this`world
      ensures Valid() && world == CheckTransition(old(world))
    {
      if mode == Open && now - openedAt >= policy.openFor {
        mode := HalfOpen;
        probesInFlight := 0;
      }
      Record(Observe);
    }

    method CurrentMode() returns (m: Mode)
      requires Valid()
      modifies this`mode, this`probesInFlight, this`world
      ensures Valid() && world == CheckTransition(old(world)) && m == mode
    {
      CheckTransitionLocked(clock);
      m := mode;
    }

    /** The part of `Do` before `fn`. */
    method Enter(c: CallId) returns (admitted: bool, probing: bool)
      requires Valid() && c !in world.live
      modifies this`mode, this`probesInFlight, this`world
      ensures Valid() && world == Next(old(world), Start(c))
      ensures admitted <==> c in world.live
      ensures admitted ==> probing == world.live[c].probing
      ensures admitted <==>
        || old(mode) == Closed
        || (old(mode) == HalfOpen && old(probesInFlight) < policy.halfOpenProbes)
        || (old(mode) == Open && clock - old(openedAt) >= policy.openFor && policy.halfOpenProbes > 0)
      ensures probing <==> admitted && old(mode) != Closed
    {
      probing := false;
      CheckTransitionLocked(clock);
      match mode {
        case Open =>
          Record(Start(c));
          return false, false;
        case HalfOpen =>
          if probesInFlight >= policy.halfOpenProbes {
            Record(Start(c));
            return false, false;
          }
          probesInFlight := probesInFlight + 1;
        case Closed =>
      }
      probing := mode == HalfOpen;
      admitted := true;
      Record(Start(c));
    }

    /** The part of `Do` after `fn`. */
    method Leave(c: CallId, probing: bool, ok: bool)
      requires Valid() && c in world.live && world.live[c].probing == probing
      modifies this`mode, this`failures, this`openedAt, this`probesInFlight, this`world
      ensures Valid() && world == Next(old(world), Finish(c, ok))
      ensures probing ==>
        && mode == (if ok then Closed else Open) && failures == (if ok then 0 else old(failures))
        && probesInFlight == old(probesInFlight) - 1
      ensures !probing ==> probesInFlight == old(probesInFlight) && failures == if ok then 0 else old(failures) + 1
      ensures !probing ==> mode == if !ok && failures >= policy.failureThreshold then Open else old(mode)
      ensures openedAt ==
        if !ok && (probing || failures >= policy.failureThreshold) then clock else old(openedAt)
    {
      Record(Finish(c, ok));
      if probing {
        probesInFlight := probesInFlight - 1;
        if ok {
          mode, failures := Closed, 0;
        } else {
          mode, openedAt := Open, clock;
        }
        return;
      }
      if ok {
        failures := 0;
        return;
      }
      failures := failures + 1;
      if failures >= policy.failureThreshold {
        mode, openedAt := Open, clock;
      }
    }

    /**
     * `ok` is what `fn` answers, if it runs. `seen` is the state the call found: whether `fn` runs depends on it
     * alone.
     */
    method Do(c: CallId, ok: bool) returns (ran: bool, ghost seen: State)
      requires Valid() && c !in world.live
      modifies this
      ensures Valid() && c !in world.live && Reaches(Step, old(world), seen) && seen.policy == policy
      ensures ran <==>
        || seen.mode == Closed
        || (seen.mode == HalfOpen && seen.probesInFlight < policy.halfOpenProbes)
        || (seen.mode == Open && seen.now - seen.openedAt >= policy.openFor && policy.halfOpenProbes > 0)
      ensures failures == FailuresSinceSuccess(world.log)
      ensures ran ==> |world.log| > 0 && world.log[|world.log| - 1].ok == ok
      ensures mode == Closed ==> failures < world.policy.failureThreshold
    {
      Others(c);
      seen := world;
      var probing;
      ran, probing := Enter(c);
      if ran {
        Others(c);
        Leave(c, probing, ok);
      }
      EveryRunCounts(origin, world);
    }
  }
}
