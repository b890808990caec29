/** Runs of a step relation, and the induction principles the protocol modules use. */
module Runs {

  /** `t` is reached from `s` in exactly `n` steps. */
  ghost predicate ReachesIn<S(!new)>(step: (S, S) -> bool, n: nat, s: S, t: S) {
    if n == 0 then s == t else exists m :: step(s, m) && ReachesIn(step, n - 1, m, t)
  }

  ghost predicate Reaches<S(!new)>(step: (S, S) -> bool, s: S, t: S) {
    exists n: nat :: ReachesIn(step, n, s, t)
  }

  /** `inv` survives every step. */
  ghost predicate Inductive<S(!new)>(step: (S, S) -> bool, inv: S -> bool) {
    forall x, y :: inv(x) && step(x, y) ==> inv(y)
  }

  /** `rel` relates a state to itself and survives putting one more step in front of a run. */
  ghost predicate Monotone<S(!new)>(step: (S, S) -> bool, inv: S -> bool, rel: (S, S) -> bool) {
    && (forall x :: rel(x, x))
    && (forall x, y, z :: inv(y) && step(y, z) && rel(z, x) ==> rel(y, x))
  }

  /** The invariant of runs that need none. */
  ghost predicate Any<S(!new)>(x: S) { true }

  lemma Stay<S(!new)>(step: (S, S) -> bool, s: S)
    ensures Reaches(step, s, s)
  {
    assert ReachesIn(step, 0, s, s);
  }

  lemma {:induction false} ConcatIn<S(!new)>(step: (S, S) -> bool, n: nat, k: nat, s: S, t: S, u: S)
    requires ReachesIn(step, n, s, t) && ReachesIn(step, k, t, u)
    ensures ReachesIn(step, n + k, s, u)
  {
    if n > 0 {
      var m :| step(s, m) && ReachesIn(step, n - 1, m, t);
      ConcatIn(step, n - 1, k, m, t, u);
    }
  }

  lemma Concat<S(!new)>(step: (S, S) -> bool, s: S, t: S, u: S)
    requires Reaches(step, s, t) && Reaches(step, t, u)
    ensures Reaches(step, s, u)
  {
    var n: nat :| ReachesIn(step, n, s, t);
    var k: nat :| ReachesIn(step, k, t, u);
    ConcatIn(step, n, k, s, t, u);
  }

  lemma Extend<S(!new)>(step: (S, S) -> bool, s: S, t: S, u: S)
    requires Reaches(step, s, t) && step(t, u)
    ensures Reaches(step, s, u)
  {
    assert ReachesIn(step, 0, u, u);
    assert ReachesIn(step, 1, t, u);
    Concat(step, s, t, u);
  }

  lemma {:induction false} InvariantIn<S(!new)>(step: (S, S) -> bool, inv: S -> bool, n: nat, s: S, t: S)
    requires Inductive(step, inv) && inv(s) && ReachesIn(step, n, s, t)
    ensures inv(t)
  {
    if n > 0 {
      var m :| step(s, m) && ReachesIn(step, n - 1, m, t);
      InvariantIn(step, inv, n - 1, m, t);
    }
  }

  /** An inductive predicate that holds at the start of a run holds at its end. */
  lemma Invariant<S(!new)>(step: (S, S) -> bool, inv: S -> bool, s: S, t: S)
    requires Inductive(step, inv) && inv(s) && Reaches(step, s, t)
    ensures inv(t)
  {
    var n: nat :| ReachesIn(step, n, s, t);
    InvariantIn(step, inv, n, s, t);
  }

  lemma {:induction false} RelationIn<S(!new)>(
      step: (S, S) -> bool, inv: S -> bool, rel: (S, S) -> bool, n: nat, s: S, t: S)
    requires Inductive(step, inv) && Monotone(step, inv, rel) && inv(s) && ReachesIn(step, n, s, t)
    ensures rel(s, t)
  {
    if n > 0 {
      var m :| step(s, m) && ReachesIn(step, n - 1, m, t);
      RelationIn(step, inv, rel, n - 1, m, t);
    }
  }

  /** A monotone relation holds between the two ends of a run. */
  lemma Relation<S(!new)>(step: (S, S) -> bool, inv: S -> bool, rel: (S, S) -> bool, s: S, t: S)
    requires Inductive(step, inv) && Monotone(step, inv, rel) && inv(s) && Reaches(step, s, t)
    ensures rel(s, t)
  {
    var n: nat :| ReachesIn(step, n, s, t);
    RelationIn(step, inv, rel, n, s, t);
  }

  lemma {:induction false} WeakenIn<S(!new)>(strong: (S, S) -> bool, weak: (S, S) -> bool, n: nat, s: S, t: S)
    requires (forall x, y :: strong(x, y) ==> weak(x, y)) && ReachesIn(strong, n, s, t)
    ensures ReachesIn(weak, n, s, t)
  {
    if n > 0 {
      var m :| strong(s, m) && ReachesIn(strong, n - 1, m, t);
      WeakenIn(strong, weak, n - 1, m, t);
    }
  }

  /** A run of stronger steps is a run of weaker ones. */
  lemma Weaken<S(!new)>(strong: (S, S) -> bool, weak: (S, S) -> bool, s: S, t: S)
    requires (forall x, y :: strong(x, y) ==> weak(x, y)) && Reaches(strong, s, t)
    ensures Reaches(weak, s, t)
  {
    var n: nat :| ReachesIn(strong, n, s, t);
    WeakenIn(strong, weak, n, s, t);
  }
}
