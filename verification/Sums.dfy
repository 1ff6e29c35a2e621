/** Sums over the values of a map, in whatever order they are taken, and sizes of sets. */
module Sums {
  ghost function Sum(m: map<string, nat>): nat {
    if m == map[] then 0
    else
      var k :| k in m;
      m[k] + Sum(m - {k})
  }

  /** Any entry can be taken out first. */
  lemma {:induction false} SumTake(m: map<string, nat>, k: string)
    requires k in m
    ensures Sum(m) == m[k] + Sum(m - {k})
    decreases |m|
  {
    var j :| j in m && Sum(m) == m[j] + Sum(m - {j});
    if j != k {
      SumTake(m - {j}, k);
      SumTake(m - {k}, j);
      assert m - {j} - {k} == m - {k} - {j};
    }
  }

  lemma SumAdd(m: map<string, nat>, k: string, v: nat)
    requires k !in m
    ensures Sum(m[k := v]) == Sum(m) + v
  {
    SumTake(m[k := v], k);
    assert m[k := v] - {k} == m;
  }

  lemma SumSet(m: map<string, nat>, k: string, v: nat)
    requires k in m
    ensures Sum(m[k := v]) + m[k] == Sum(m) + v
  {
    SumTake(m[k := v], k);
    SumTake(m, k);
    assert m[k := v] - {k} == m - {k};
  }

  lemma {:induction false} SumZero(m: map<string, nat>)
    requires forall k :: k in m ==> m[k] == 0
    ensures Sum(m) == 0
    decreases |m|
  {
    if m != map[] {
      var k :| k in m;
      SumTake(m, k);
      SumZero(m - {k});
    }
  }

  /** Adding two maps entry by entry adds their sums. */
  lemma {:induction false} SumPlus(a: map<string, nat>, b: map<string, nat>, c: map<string, nat>)
    requires a.Keys == b.Keys == c.Keys && forall k :: k in a ==> c[k] == a[k] + b[k]
    ensures Sum(c) == Sum(a) + Sum(b)
    decreases |a|
  {
    if a != map[] {
      var k :| k in a;
      SumTake(a, k);
      SumTake(b, k);
      SumTake(c, k);
      SumPlus(a - {k}, b - {k}, c - {k});
    } else {
      assert a == b == c == map[];
    }
  }

  /** Two maps that differ in one entry differ in their sums by that entry. */
  lemma SumShift(a: map<string, nat>, b: map<string, nat>, r: string)
    requires a.Keys == b.Keys && r in a && forall k :: k in a && k != r ==> a[k] == b[k]
    ensures Sum(b) + a[r] == Sum(a) + b[r]
  {
    assert b == a[r := b[r]];
    SumSet(a, r, b[r]);
  }

  lemma SumSame(a: map<string, nat>, b: map<string, nat>)
    requires a.Keys == b.Keys && forall k :: k in a ==> a[k] == b[k]
    ensures Sum(a) == Sum(b)
  {
    assert a == b;
  }

  lemma SumShiftAtMost(a: map<string, nat>, b: map<string, nat>, r: string, v: nat)
    requires a.Keys == b.Keys && forall k :: k in a ==> b[k] <= a[k] + v && (k != r ==> b[k] == a[k])
    ensures Sum(b) <= Sum(a) + v
  {
    if r in a {
      SumShift(a, b, r);
    } else {
      SumSame(a, b);
    }
  }

  lemma SubsetSize(a: set<string>, b: set<string>)
    requires a <= b
    ensures |a| <= |b|
  {
    assert b == a + (b - a);
  }
}
