/** Finite sums and cardinalities used by the whole-run theorems. */
module Sums {

  /** The sum of the values of a finite map. */
  ghost function SumValues<K>(m: map<K, int>): int {
    if m == map[] then 0
    else
      var k :| k in m;
      m[k] + SumValues(m - {k})
  }

  lemma {:induction false} SumRemove<K>(m: map<K, int>, k: K)
    requires k in m
    ensures SumValues(m) == m[k] + SumValues(m - {k})
    decreases |m|
  {
    var j :| j in m && SumValues(m) == m[j] + SumValues(m - {j});
    if j != k {
      SumRemove(m - {j}, k);
      SumRemove(m - {k}, j);
      assert m - {j} - {k} == m - {k} - {j};
    }
  }

  lemma SumInsert<K>(m: map<K, int>, k: K, v: int)
    requires k !in m
    ensures SumValues(m[k := v]) == SumValues(m) + v
  {
    SumRemove(m[k := v], k);
    assert m[k := v] - {k} == m;
  }

  lemma SumUpdate<K>(m: map<K, int>, k: K, v: int)
    requires k in m
    ensures SumValues(m[k := v]) == SumValues(m) - m[k] + v
  {
    SumRemove(m[k := v], k);
    SumRemove(m, k);
    assert m[k := v] - {k} == m - {k};
  }

  lemma {:induction false} SumNonNegative<K>(m: map<K, int>)
    requires forall k | k in m :: m[k] >= 0
    ensures SumValues(m) >= 0
    decreases |m|
  {
    if m != map[] {
      var k :| k in m;
      SumRemove(m, k);
      SumNonNegative(m - {k});
    }
  }

  lemma {:induction false} SumZero<K>(m: map<K, int>)
    requires forall k | k in m :: m[k] == 0
    ensures SumValues(m) == 0
    decreases |m|
  {
    if m != map[] {
      var k :| k in m;
      SumRemove(m, k);
      SumZero(m - {k});
    }
  }

  /** The number of distinct elements of a sequence. */
  ghost function Elements<T>(s: seq<T>): set<T> {
    set x | x in s
  }

  /** A sequence has at most as many distinct elements as positions, with equality exactly when nothing repeats. */
  lemma {:induction false} ElementsBound<T>(s: seq<T>)
    ensures |Elements(s)| <= |s|
    ensures |Elements(s)| == |s| <==> forall i, j | 0 <= i < j < |s| :: s[i] != s[j]
  {
    if s == [] {
      assert Elements(s) == {};
    } else {
      var n := |s| - 1;
      var t := s[..n];
      ElementsBound(t);
      assert s == t + [s[n]];
      assert Elements(s) == Elements(t) + {s[n]};
      if s[n] in t {
        assert Elements(s) == Elements(t);
        var i :| 0 <= i < n && t[i] == s[n];
        assert s[i] == s[n];
      } else {
        assert s[n] !in Elements(t);
        forall i, j | 0 <= i < j < |s| && (forall p, q | 0 <= p < q < n :: t[p] != t[q])
          ensures s[i] != s[j]
        {
          if j < n { assert t[i] == s[i] && t[j] == s[j]; } else { assert t[i] == s[i]; }
        }
        if forall i, j | 0 <= i < j < |s| :: s[i] != s[j] {
          forall p, q | 0 <= p < q < n ensures t[p] != t[q] {
            assert s[p] == t[p] && s[q] == t[q];
          }
        }
      }
    }
  }

  lemma SubsetCardinality<T>(a: set<T>, b: set<T>)
    requires a <= b
    ensures |a| <= |b|
  {
    assert b == a + (b - a);
    assert |b| == |a| + |b - a|;
  }

  /** A number above all of a finite set. */
  lemma {:induction false} Above(s: set<nat>) returns (n: nat)
    ensures forall x | x in s :: x < n
    decreases s
  {
    n := 0;
    if x :| x in s {
      var m := Above(s - {x});
      n := if m <= x then x + 1 else m;
      assert forall y | y in s :: y == x || y in s - {x};
    }
  }
}
