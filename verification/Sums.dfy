/** Sums over finite maps and sequences. */
module Sums {

  /** The sum of all values of `m`. */
  ghost function Total<K>(m: map<K, int>): int {
    if m == map[] then 0
    else
      var k :| k in m;
      m[k] + Total(m - {k})
  }

  /** The sum does not depend on the order in which keys are taken out. */
  lemma {:induction false} TotalRemove<K>(m: map<K, int>, k: K)
    requires k in m
    ensures Total(m) == m[k] + Total(m - {k})
    decreases |m|
  {
    var c :| c in m && Total(m) == m[c] + Total(m - {c});
    if c != k {
      TotalRemove(m - {c}, k);
      TotalRemove(m - {k}, c);
      assert m - {c} - {k} == m - {k} - {c};
    }
  }

  /** Writing one key moves the sum by the difference at that key. */
  lemma TotalWrite<K>(m: map<K, int>, k: K, v: int)
    ensures Total(m[k := v]) == Total(m) + v - (if k in m then m[k] else 0)
  {
    TotalRemove(m[k := v], k);
    assert m[k := v] - {k} == m - {k};
    if k in m {
      TotalRemove(m, k);
    } else {
      assert m - {k} == m;
    }
  }

  lemma {:induction false} TotalNonNegative<K>(m: map<K, int>)
    requires forall k :: k in m ==> m[k] >= 0
    ensures Total(m) >= 0
    ensures Total(m) == 0 <==> forall k :: k in m ==> m[k] == 0
    decreases |m|
  {
    if m != map[] {
      var k :| k in m && Total(m) == m[k] + Total(m - {k});
      TotalNonNegative(m - {k});
      assert forall j :: j in m ==> j == k || j in m - {k};
    }
  }

  /** Sums of differences, term by term. */
  lemma {:induction false} TotalMinus<K>(a: map<K, int>, b: map<K, int>, c: map<K, int>)
    requires a.Keys == b.Keys == c.Keys && forall k :: k in c ==> c[k] == a[k] - b[k]
    ensures Total(c) == Total(a) - Total(b)
    decreases |c|
  {
    if c == map[] {
      assert a == map[] && b == map[];
    } else {
      var k :| k in c;
      TotalRemove(a, k);
      TotalRemove(b, k);
      TotalRemove(c, k);
      TotalMinus(a - {k}, b - {k}, c - {k});
    }
  }

  lemma UnionWithout<K, V>(a: map<K, V>, b: map<K, V>, k: K)
    requires k in b && k !in a
    ensures (a + b) - {k} == a + (b - {k})
  {
  }

  /** The sum over two disjoint maps. */
  lemma {:induction false} TotalUnion<K>(a: map<K, int>, b: map<K, int>)
    requires forall k :: k in b ==> k !in a
    ensures Total(a + b) == Total(a) + Total(b)
    decreases |b|
  {
    if b == map[] {
      assert a + b == a;
    } else {
      var k :| k in b;
      UnionWithout(a, b, k);
      TotalRemove(a + b, k);
      TotalRemove(b, k);
      TotalUnion(a, b - {k});
    }
  }

  /** A sum over some of the keys of a non-negative map, with smaller values, is not larger. */
  lemma {:induction false} TotalAtMost<K>(m: map<K, int>, n: map<K, int>)
    requires forall k :: k in n ==> n[k] >= 0
    requires forall k :: k in m ==> k in n && m[k] <= n[k]
    ensures Total(m) <= Total(n)
    decreases |m|
  {
    if m == map[] {
      TotalNonNegative(n);
    } else {
      var k :| k in m;
      TotalRemove(m, k);
      TotalRemove(n, k);
      TotalAtMost(m - {k}, n - {k});
    }
  }

  /** The entries of `m` in group `x`. */
  ghost function Part<K, G>(m: map<K, int>, of: map<K, G>, x: G): map<K, int> {
    map k | k in m && k in of && of[k] == x :: m[k]
  }

  ghost function Parts<K, G>(m: map<K, int>, of: map<K, G>, groups: set<G>): map<G, int> {
    map x | x in groups :: Total(Part(m, of, x))
  }

  lemma PartWithout<K, G>(m: map<K, int>, of: map<K, G>, k: K, x: G)
    requires k in m && k in of
    ensures Total(Part(m, of, x)) == Total(Part(m - {k}, of, x)) + (if of[k] == x then m[k] else 0)
  {
    if of[k] == x {
      TotalRemove(Part(m, of, x), k);
      assert Part(m, of, x) - {k} == Part(m - {k}, of, x);
    } else {
      assert Part(m, of, x) == Part(m - {k}, of, x);
    }
  }

  /** A sum, group by group. */
  lemma {:induction false} TotalByGroup<K, G>(m: map<K, int>, of: map<K, G>, groups: set<G>)
    requires forall k :: k in m ==> k in of && of[k] in groups
    ensures Total(m) == Total(Parts(m, of, groups))
    decreases |m|
  {
    if m == map[] {
      forall x | x in groups ensures Parts(m, of, groups)[x] == 0 { assert Part(m, of, x) == map[]; }
      TotalNonNegative(Parts(m, of, groups));
    } else {
      var k :| k in m;
      TotalRemove(m, k);
      TotalByGroup(m - {k}, of, groups);
      var v := Total(Part(m, of, of[k]));
      forall x | x in groups ensures Parts(m, of, groups)[x] == Parts(m - {k}, of, groups)[of[k] := v][x] {
        PartWithout(m, of, k, x);
      }
      assert Parts(m, of, groups) == Parts(m - {k}, of, groups)[of[k] := v];
      PartWithout(m, of, k, of[k]);
      TotalWrite(Parts(m - {k}, of, groups), of[k], v);
    }
  }

  lemma OneMore(n: int, q: int)
    ensures n * q == (n - 1) * q + q
  {
  }

  /** A sum whose terms are `q` on `on` and zero elsewhere. */
  lemma {:induction false} TotalOfEqual<K>(m: map<K, int>, on: set<K>, q: int)
    requires on <= m.Keys && forall k :: k in m ==> m[k] == if k in on then q else 0
    ensures Total(m) == |on| * q
    decreases |on|
  {
    if on == {} {
      TotalNonNegative(m);
    } else {
      var k :| k in on;
      TotalOfEqual(m[k := 0], on - {k}, q);
      TotalWrite(m, k, 0);
      OneMore(|on|, q);
    }
  }

  /** The sum of a sequence. */
  ghost function Sum(s: seq<int>): int {
    if s == [] then 0 else s[0] + Sum(s[1..])
  }

  lemma {:induction false} SumAppend(s: seq<int>, x: int)
    ensures Sum(s + [x]) == Sum(s) + x
  {
    if s == [] {
      assert [] + [x] == [x];
    } else {
      assert (s + [x])[1..] == s[1..] + [x];
      SumAppend(s[1..], x);
    }
  }
}
